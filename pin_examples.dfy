/**
 * Pin masks and pin lists of the repository's unit tests, with the values
 * the tests expect, proved of the model.
 */
module PinExamples {
  import opened Results
  import opened Text
  import opened PinMask
  import opened Resolver
  import opened Encoders
  import opened Ctp

  const FirstTwoOn: map<Pin, bool> :=
    map[1 := true, 2 := true, 3 := false, 4 := false, 5 := false, 6 := false, 7 := false, 8 := false,
        9 := false, 10 := false, 11 := false, 12 := false, 13 := false, 14 := false, 15 := false, 16 := false]

  /** Every pin on, as "on rest" leaves them. */
  const AllOn: map<Pin, bool> := map p | p in AllPins :: true

  /** Pin 3 on and every other pin off, as "on 3 off rest" leaves them. */
  const ThreeOn: map<Pin, bool> := map p | p in AllPins :: p == 3

  /** test_pins_to_arg: all sixteen pins on give 0xFFFF. */
  lemma MaskAllOn()
    ensures Mask(AllOn) == 0xFFFF
  {
    assert forall p: Pin :: IsOn(AllOn, p);
    MaskByBytes(AllOn, 0xFF, 0xFF);
  }

  /** test_pins_to_arg: pins 5-8 and 13-16 on, the others off, give 0xF0F0. */
  lemma MaskNibbles()
    ensures Mask(map p | p in AllPins :: 5 <= p <= 8 || 13 <= p) == 0xF0F0
  {
    var pins := map p | p in AllPins :: 5 <= p <= 8 || 13 <= p;
    assert forall p: Pin :: IsOn(pins, p) <==> 5 <= p <= 8 || 13 <= p;
    MaskByBytes(pins, 0xF0, 0xF0);
  }

  /** test_pins_to_arg: pins 1-4 on and no others given: 0x000F. */
  lemma MaskFirstFour()
    ensures Mask(map[1 := true, 2 := true, 3 := true, 4 := true]) == 0x000F
  {
    MaskByBytes(map[1 := true, 2 := true, 3 := true, 4 := true], 0x0F, 0x00);
  }

  /** `_is_pin` of test_is_pin: the numerals of 1 to 16 are pins. */
  lemma PinNumberExamples()
    ensures forall n :: 1 <= n <= 16 ==> PinNumber(Decimal(n)) == Some(n as Pin)
  {
    forall n | 1 <= n <= 16 ensures PinNumber(Decimal(n)) == Some(n as Pin) {
      ParseDecimal(n);
    }
  }

  /** `_is_pin` of test_is_pin: 0, 17, -1 and a word are not pins. */
  lemma NotPinExamples()
    ensures PinNumber("0") == None && PinNumber("17") == None && PinNumber("-1") == None && PinNumber("habla") == None
  {
    ParseDecimal(17);
    assert Decimal(17) == "17";
    ParseDecimal(1);
  }

  /** A leading zero still names a pin, though the literal VIN and GND lists refuse it. */
  lemma LeadingZeroPin()
    ensures PinNumber("05") == Some(5) && "05" !in VinPins
  {
    LeadingZero("5");
  }

  /** "on 1 2 off rest" of test_get_pin_vals and test_cmd_check. */
  lemma ResolveRestExample()
    ensures Resolve(["on", "1", "2", "off", "rest"]) == Ok(FirstTwoOn)
  {
    var args := ["on", "1", "2", "off", "rest"];
    assert Classify(args[1]) == PinToken(1) && Classify(args[2]) == PinToken(2);
    FillRestFirstTwo();
    calc {
      Resolve(args);
      ResolveFrom(args, 1, map[], Some(true));
      ResolveFrom(args, 2, map[1 := true], Some(true));
      ResolveFrom(args, 3, map[1 := true, 2 := true], Some(true));
      ResolveFrom(args, 4, map[1 := true, 2 := true], Some(false));
      ResolveFrom(args, 5, FirstTwoOn, Some(false));
    }
  }

  /** REST after pins 1 and 2 switches the other fourteen off. */
  lemma FillRestFirstTwo()
    ensures FillRest(map[1 := true, 2 := true], false) == FirstTwoOn
  {
  }

  /** "on 1 2 off 3 4": each named pin takes the qualifier in force before it. */
  lemma ResolveMixedExample()
    ensures Resolve(["on", "1", "2", "off", "3", "4"]) == Ok(map[1 := true, 2 := true, 3 := false, 4 := false])
  {
    var args := ["on", "1", "2", "off", "3", "4"];
    assert Classify(args[1]) == PinToken(1) && Classify(args[2]) == PinToken(2);
    assert Classify(args[4]) == PinToken(3) && Classify(args[5]) == PinToken(4);
    calc {
      Resolve(args);
      ResolveFrom(args, 1, map[], Some(true));
      ResolveFrom(args, 2, map[1 := true], Some(true));
      ResolveFrom(args, 3, map[1 := true, 2 := true], Some(true));
      ResolveFrom(args, 4, map[1 := true, 2 := true], Some(false));
      ResolveFrom(args, 5, map[1 := true, 2 := true, 3 := false], Some(false));
    }
  }

  /** "off 1 2 on rest": REST fills the fourteen pins not named. */
  lemma ResolveRestOnExample()
    ensures Resolve(["off", "1", "2", "on", "rest"]) == Ok(map p | p in AllPins :: p > 2)
  {
    var args := ["off", "1", "2", "on", "rest"];
    assert Classify(args[1]) == PinToken(1) && Classify(args[2]) == PinToken(2);
    assert FillRest(map[1 := false, 2 := false], true) == map p | p in AllPins :: p > 2;
    calc {
      Resolve(args);
      ResolveFrom(args, 1, map[], Some(false));
      ResolveFrom(args, 2, map[1 := false], Some(false));
      ResolveFrom(args, 3, map[1 := false, 2 := false], Some(false));
      ResolveFrom(args, 4, map[1 := false, 2 := false], Some(true));
    }
  }

  /** The test's own `'set on 1, 2'.split()`: its first word already fails. */
  lemma ResolveSetOnCommaExample()
    ensures Resolve(["set", "on", "1,", "2"]) == Err(NotPinOrValue("set"))
  {
    assert Classify("set") == Invalid;
  }

  /**
   * The rejected pin lists of test_get_pin_vals, with the error each raises;
   * `["on", "1,", "2"]` is a variant of the test's list without its leading
   * `set`, so that the comma is what is refused.
   */
  lemma ResolveErrorExamples()
    ensures Resolve(["1"]) == Err(NoQualifier)
    ensures Resolve(["rest"]) == Err(NoQualifier)
    ensures Resolve(["on", "rest", "2"]) == Err(RestNotLast)
    ensures Resolve(["on", "rest", "off", "1"]) == Err(RestNotLast)
    ensures Resolve(["on", "1", "1"]) == Err(AlreadyGiven("1"))
    ensures Resolve(["on", "1", "off", "1"]) == Err(AlreadyGiven("1"))
    ensures Resolve(["habla", "1"]) == Err(NotPinOrValue("habla"))
    ensures Resolve(["on", "1,", "2"]) == Err(NotPinOrValue("1,"))
    ensures Resolve(["set", "habla"]) == Err(NotPinOrValue("set"))
    ensures Resolve(["set", "on", "habla"]) == Err(NotPinOrValue("set"))
  {
    assert Classify("1") == PinToken(1);
    assert Resolve(["on", "1", "1"]) == ResolveFrom(["on", "1", "1"], 2, map[1 := true], Some(true));
    calc {
      Resolve(["on", "1", "off", "1"]);
      ResolveFrom(["on", "1", "off", "1"], 2, map[1 := true], Some(true));
      ResolveFrom(["on", "1", "off", "1"], 3, map[1 := true], Some(false));
    }
  }

  /** "on 1 2 off rest" names all sixteen pins. */
  lemma FirstTwoKeys()
    ensures FirstTwoOn.Keys == AllPins
  {
  }

  /** A map naming all sixteen pins overrides any pin state. */
  lemma FirstTwoOverAnything(st: map<Pin, bool>)
    ensures st + FirstTwoOn == FirstTwoOn
  {
    forall p: Pin ensures p in FirstTwoOn {
      assert p == 1 || p == 2 || p == 3 || p == 4 || p == 5 || p == 6 || p == 7 || p == 8
          || p == 9 || p == 10 || p == 11 || p == 12 || p == 13 || p == 14 || p == 15 || p == 16;
    }
  }

  /** Pins 1 and 2 on, 3 to 16 off, give 0x0003. */
  lemma MaskFirstTwo()
    ensures Mask(FirstTwoOn) == 0x0003
  {
    MaskOnlyOn(FirstTwoOn, map[1 := true, 2 := true]);
    MaskOneTwo();
  }

  /** Pins switched on where no pin was on: exactly those pins are on. */
  lemma OverAllOff(st: map<Pin, bool>, on: map<Pin, bool>)
    requires forall p: Pin :: !IsOn(st, p)
    ensures forall p: Pin :: IsOn(st + on, p) <==> IsOn(on, p)
  {
    forall p: Pin ensures IsOn(st + on, p) <==> IsOn(on, p) {
      if p in on {
        assert (st + on)[p] == on[p];
      } else if p in st {
        assert (st + on)[p] == st[p];
        assert !IsOn(st, p);
      }
    }
  }

  /** Pins 1 and 2 on give 0x0003. */
  lemma MaskOneTwo()
    ensures Mask(map[1 := true, 2 := true]) == 0x0003
  {
    MaskByBytes(map[1 := true, 2 := true], 0x03, 0x00);
  }

  /** Pins 1 and 3 on give 0x0005. */
  lemma MaskOneThreeOn()
    ensures Mask(map[3 := true, 1 := true]) == 0x0005
  {
    MaskByBytes(map[3 := true, 1 := true], 0x05, 0x00);
  }

  /** Pins 1 and 2 switched on where no pin was on give 0x0003. */
  lemma MaskFirstTwoOver(st: map<Pin, bool>)
    requires forall p: Pin :: !IsOn(st, p)
    ensures Mask(st + map[1 := true, 2 := true]) == 0x0003
  {
    var on := map[1 := true, 2 := true];
    OverAllOff(st, on);
    MaskOnlyOn(st + on, on);
    MaskOneTwo();
  }

  /** "on 1 2" names two pins. */
  lemma ResolveOneTwo()
    ensures Resolve(["on", "1", "2"]) == Ok(map[1 := true, 2 := true])
  {
    var args := ["on", "1", "2"];
    assert Classify(args[1]) == PinToken(1) && Classify(args[2]) == PinToken(2);
    calc {
      Resolve(args);
      ResolveFrom(args, 1, map[], Some(true));
      ResolveFrom(args, 2, map[1 := true], Some(true));
    }
  }

  /** "off 1 2" of test_get_pin_vals names two pins, both off. */
  lemma ResolveOffOneTwo()
    ensures Resolve(["off", "1", "2"]) == Ok(map[1 := false, 2 := false])
  {
    var args := ["off", "1", "2"];
    assert Classify(args[1]) == PinToken(1) && Classify(args[2]) == PinToken(2);
    calc {
      Resolve(args);
      ResolveFrom(args, 1, map[], Some(false));
      ResolveFrom(args, 2, map[1 := false], Some(false));
    }
  }

  /** "on 3 1" names two pins and leaves the rest to the pin state. */
  lemma ResolveOnThreeOne()
    ensures Resolve(["on", "3", "1"]) == Ok(map[3 := true, 1 := true])
  {
    var args := ["on", "3", "1"];
    assert Classify(args[1]) == PinToken(3) && Classify(args[2]) == PinToken(1);
    calc {
      Resolve(args);
      ResolveFrom(args, 1, map[], Some(true));
      ResolveFrom(args, 2, map[3 := true], Some(true));
    }
  }

  /** "off 3 1" */
  lemma ResolveOffThreeOne()
    ensures Resolve(["off", "3", "1"]) == Ok(map[3 := false, 1 := false])
  {
    var args := ["off", "3", "1"];
    assert Classify(args[1]) == PinToken(3) && Classify(args[2]) == PinToken(1);
    calc {
      Resolve(args);
      ResolveFrom(args, 1, map[], Some(false));
      ResolveFrom(args, 2, map[3 := false], Some(false));
    }
  }

  /** Pins 1 and 3 switched on where no pin was on give 0x0005. */
  lemma MaskOneThree(st: map<Pin, bool>)
    requires forall p: Pin :: !IsOn(st, p)
    ensures Mask(st + map[3 := true, 1 := true]) == 0x0005
  {
    var on := map[3 := true, 1 := true];
    OverAllOff(st, on);
    MaskOnlyOn(st + on, on);
    MaskOneThreeOn();
  }

  /** Pins 1 and 3 switched off where every pin was on give 0xFFFA. */
  lemma MaskAllButOneThree(st: map<Pin, bool>)
    requires forall p: Pin :: IsOn(st, p)
    ensures Mask(st + map[3 := false, 1 := false]) == 0xFFFA
  {
    var after := st + map[3 := false, 1 := false];
    forall p: Pin ensures IsOn(after, p) <==> p != 1 && p != 3 {
      if p != 1 && p != 3 {
        assert IsOn(st, p);
        assert after[p] == st[p];
      }
    }
    MaskByBytes(after, 0xFA, 0xFF);
  }

  /** "on rest" switches every pin on. */
  lemma ResolveAllOn()
    ensures Resolve(["on", "rest"]) == Ok(AllOn) && AllOn.Keys == AllPins
  {
    assert FillRest(map[], true) == AllOn;
    calc {
      Resolve(["on", "rest"]);
      ResolveFrom(["on", "rest"], 1, map[], Some(true));
      ResolveFrom(["on", "rest"], 2, AllOn, Some(true));
    }
  }

  /** "off rest" of test_get_pin_vals switches every pin off. */
  lemma ResolveAllOff()
    ensures Resolve(["off", "rest"]) == Ok(AllOff)
  {
    assert FillRest(map[], false) == AllOff;
    calc {
      Resolve(["off", "rest"]);
      ResolveFrom(["off", "rest"], 1, map[], Some(false));
      ResolveFrom(["off", "rest"], 2, AllOff, Some(false));
    }
  }

  /** "on 3 off rest" expects pin 3 high and every other pin low. */
  lemma ResolveThreeRest()
    ensures Resolve(["on", "3", "off", "rest"]) == Ok(ThreeOn) && ThreeOn.Keys == AllPins
  {
    var args := ["on", "3", "off", "rest"];
    assert Classify(args[1]) == PinToken(3);
    assert FillRest(map[3 := true], false) == ThreeOn;
    calc {
      Resolve(args);
      ResolveFrom(args, 1, map[], Some(true));
      ResolveFrom(args, 2, map[3 := true], Some(true));
      ResolveFrom(args, 3, map[3 := true], Some(false));
      ResolveFrom(args, 4, ThreeOn, Some(false));
    }
  }

  /** Pin 3 alone on gives 0x0004. */
  lemma MaskThreeOn()
    ensures Mask(ThreeOn) == 0x0004
  {
    assert forall p: Pin :: IsOn(ThreeOn, p) <==> p == 3;
    MaskByBytes(ThreeOn, 0x04, 0x00);
  }

  /** The VIN literals "5", "14", "15" and "16" name pins 5, 14, 15 and 16. */
  lemma VinFourPins()
    ensures SupplyPins(["5", "14", "15", "16"], VinPins) == Some(map[5 := true, 14 := true, 15 := true, 16 := true])
  {
    var args := ["5", "14", "15", "16"];
    var m := map[5 := true, 14 := true, 15 := true, 16 := true];
    assert forall k :: 0 <= k < |args| ==> args[k] in VinPins;
    assert SupplyNamed(args, VinPins) == {5, 14, 15, 16} by {
      assert VinPins[args[0]] == 5 && VinPins[args[1]] == 14 && VinPins[args[2]] == 15 && VinPins[args[3]] == 16;
    }
    assert SupplyMap(args, VinPins).Keys == m.Keys;
    assert SupplyMap(args, VinPins) == m;
  }

  /** Pins 5, 14, 15 and 16 on give 0xE010. */
  lemma MaskVinFour()
    ensures Mask(map[5 := true, 14 := true, 15 := true, 16 := true]) == 0xE010
  {
    MaskByBytes(map[5 := true, 14 := true, 15 := true, 16 := true], 0x10, 0xE0);
  }

  /** The single literal `s` of `valid` names the one pin `p`. */
  lemma OneSupplyPin(s: string, valid: map<string, Pin>, p: Pin)
    requires s in valid && valid[s] == p
    ensures SupplyPins([s], valid) == Some(map[p := true])
  {
    var args := [s];
    assert forall k :: 0 <= k < |args| ==> args[k] in valid;
    assert SupplyNamed(args, valid) == {p} by {
      assert valid[args[0]] == p;
    }
    assert SupplyMap(args, valid).Keys == map[p := true].Keys;
    assert SupplyMap(args, valid) == map[p := true];
  }

  /** The GND literals "8" and "12" name pins 8 and 12. */
  lemma GndTwoPins()
    ensures SupplyPins(["8", "12"], GndPins) == Some(map[8 := true, 12 := true])
  {
    var args := ["8", "12"];
    var m := map[8 := true, 12 := true];
    assert forall k :: 0 <= k < |args| ==> args[k] in GndPins;
    assert SupplyNamed(args, GndPins) == {8, 12} by {
      assert GndPins[args[0]] == 8 && GndPins[args[1]] == 12;
    }
    assert SupplyMap(args, GndPins).Keys == m.Keys;
    assert SupplyMap(args, GndPins) == m;
  }

  /** Pins 8 and 12 on give 0x0880. */
  lemma MaskGndTwo()
    ensures Mask(map[8 := true, 12 := true]) == 0x0880
  {
    MaskByBytes(map[8 := true, 12 := true], 0x80, 0x08);
  }

  /** Pin 8 alone on gives 0x0080. */
  lemma MaskEight()
    ensures Mask(map[8 := true]) == 0x0080
  {
    MaskByBytes(map[8 := true], 0x80, 0x00);
  }

  /** Pin 12 alone on gives 0x0800. */
  lemma MaskTwelve()
    ensures Mask(map[12 := true]) == 0x0800
  {
    MaskByBytes(map[12 := true], 0x00, 0x08);
  }

  /** Pin 16 alone on gives 0x8000. */
  lemma MaskSixteen()
    ensures Mask(map[16 := true]) == 0x8000
  {
    MaskByBytes(map[16 := true], 0x00, 0x80);
  }
}
