/**
 * The instructions the repository's unit tests expect of CHECK, SET, VIN,
 * GND and DELAY, proved of the model.
 */
module CommandExamples {
  import opened Results
  import opened Text
  import opened PinMask
  import opened Resolver
  import opened Encoders
  import opened PinExamples

  /** test_cmd_check: "on 1 2 off rest" gives 01 03 00. */
  lemma CheckRestExample(where: int)
    ensures EncodeCheck(["on", "1", "2", "off", "rest"], where) == Ok([1, 0x03, 0x00])
  {
    ResolveRestExample();
    FirstTwoKeys();
    MaskFirstTwo();
    CheckOfResolved(["on", "1", "2", "off", "rest"], where, FirstTwoOn, 0x03, 0x00);
  }

  /** test_cmd_check: "on rest" gives every pin on. */
  lemma CheckAllOnExample(where: int)
    ensures EncodeCheck(["on", "rest"], where) == Ok([1, 0xFF, 0xFF])
  {
    ResolveAllOn();
    MaskAllOn();
    CheckOfResolved(["on", "rest"], where, AllOn, 0xFF, 0xFF);
  }

  /** "on 3 off rest" expects pin 3 high and every other pin low. */
  lemma CheckThreeExample(where: int)
    ensures EncodeCheck(["on", "3", "off", "rest"], where) == Ok([1, 0x04, 0x00])
  {
    ResolveThreeRest();
    MaskThreeOn();
    CheckOfResolved(["on", "3", "off", "rest"], where, ThreeOn, 0x04, 0x00);
  }

  /** "on 1 2" resolves to two pins only, which CHECK refuses as incomplete. */
  lemma CheckPartialExample(where: int)
    ensures EncodeCheck(["on", "1", "2"], where) == Err(CommandFailed(Check, where, MissingPins))
  {
    ResolveOneTwo();
    assert 3 !in map[1 := true, 2 := true];
  }

  /**
   * test_cmd_set, first command: "on 1 2 off rest" names all sixteen pins,
   * so from any pin state it switches on pins 1 and 2 and off all others.
   */
  lemma SetFirstExample(st: map<Pin, bool>, where: int)
    ensures EncodeSet(st, ["on", "1", "2", "off", "rest"], where) == (Ok([2, 0x03, 0x00]), FirstTwoOn)
  {
    ResolveRestExample();
    FirstTwoOverAnything(st);
    MaskFirstTwo();
    SetOfResolved(st, ["on", "1", "2", "off", "rest"], where, FirstTwoOn, FirstTwoOn, 0x03, 0x00);
  }

  /** SET ON 1 2 where no pin is on switches on pins 1 and 2 and leaves the others. */
  lemma SetOnOneTwoExample(st: map<Pin, bool>, where: int)
    requires forall p: Pin :: !IsOn(st, p)
    ensures EncodeSet(st, ["on", "1", "2"], where) == (Ok([2, 0x03, 0x00]), st + map[1 := true, 2 := true])
  {
    ResolveOneTwo();
    MaskFirstTwoOver(st);
    SetOfResolved(st, ["on", "1", "2"], where, map[1 := true, 2 := true], st + map[1 := true, 2 := true], 0x03, 0x00);
  }

  /** test_cmd_set: after "off rest", "on 3 1" switches on pins 1 and 3 only. */
  lemma SetAfterAllOffExample(st: map<Pin, bool>, where: int)
    requires forall p: Pin :: !IsOn(st, p)
    ensures EncodeSet(st, ["on", "3", "1"], where) == (Ok([2, 0x05, 0x00]), st + map[3 := true, 1 := true])
  {
    ResolveOnThreeOne();
    MaskOneThree(st);
    SetOfResolved(st, ["on", "3", "1"], where, map[3 := true, 1 := true], st + map[3 := true, 1 := true], 0x05, 0x00);
  }

  /** test_cmd_set: after "on rest", "off 3 1" switches off pins 1 and 3 only. */
  lemma SetAfterAllOnExample(st: map<Pin, bool>, where: int)
    requires forall p: Pin :: IsOn(st, p)
    ensures EncodeSet(st, ["off", "3", "1"], where) == (Ok([2, 0xFA, 0xFF]), st + map[3 := false, 1 := false])
  {
    ResolveOffThreeOne();
    MaskAllButOneThree(st);
    SetOfResolved(st, ["off", "3", "1"], where, map[3 := false, 1 := false], st + map[3 := false, 1 := false], 0xFA, 0xFF);
  }

  /** test_cmd_vin: pins 5, 14, 15 and 16. */
  lemma VinFourExample(where: int)
    ensures EncodeVin(["5", "14", "15", "16"], where) == Ok([3, 0x10, 0xE0])
  {
    VinFourPins();
    MaskVinFour();
    VinOfNamed(["5", "14", "15", "16"], where, map[5 := true, 14 := true, 15 := true, 16 := true], 0x10, 0xE0);
  }

  /** test_cmd_vin: pin 16 alone. */
  lemma VinOneExample(where: int)
    ensures EncodeVin(["16"], where) == Ok([3, 0x00, 0x80])
  {
    OneSupplyPin("16", VinPins, 16);
    MaskSixteen();
    VinOfNamed(["16"], where, map[16 := true], 0x00, 0x80);
  }

  /** test_cmd_vin: numerals of other pins and words are refused. */
  lemma VinRefusedExamples(where: int)
    ensures EncodeVin(["1", "2"], where) == Err(CommandFailed(Vin, where, InvalidVinPin))
    ensures EncodeVin(["17"], where) == Err(CommandFailed(Vin, where, InvalidVinPin))
    ensures EncodeVin(["habla"], where) == Err(CommandFailed(Vin, where, InvalidVinPin))
  {
    assert ["1", "2"][0] !in VinPins;
    assert ["17"][0] !in VinPins;
    assert ["habla"][0] !in VinPins;
  }

  /** test_cmd_gnd: pins 8 and 12. */
  lemma GndTwoExample(where: int)
    ensures EncodeGnd(["8", "12"], where) == Ok([4, 0x80, 0x08])
  {
    GndTwoPins();
    MaskGndTwo();
    GndOfNamed(["8", "12"], where, map[8 := true, 12 := true], 0x80, 0x08);
  }

  /** test_cmd_gnd: pin 12 alone. */
  lemma GndOneExample(where: int)
    ensures EncodeGnd(["12"], where) == Ok([4, 0x00, 0x08])
  {
    OneSupplyPin("12", GndPins, 12);
    MaskTwelve();
    GndOfNamed(["12"], where, map[12 := true], 0x00, 0x08);
  }

  /** GND 8 alone, the first line of the sample protocol. */
  lemma GndEightExample(where: int)
    ensures EncodeGnd(["8"], where) == Ok([4, 0x80, 0x00])
  {
    OneSupplyPin("8", GndPins, 8);
    MaskEight();
    GndOfNamed(["8"], where, map[8 := true], 0x80, 0x00);
  }

  /** test_cmd_gnd: numerals of other pins and words are refused. */
  lemma GndRefusedExamples(where: int)
    ensures EncodeGnd(["1", "2"], where) == Err(CommandFailed(Gnd, where, InvalidGroundPin))
    ensures EncodeGnd(["17"], where) == Err(CommandFailed(Gnd, where, InvalidGroundPin))
    ensures EncodeGnd(["habla"], where) == Err(CommandFailed(Gnd, where, InvalidGroundPin))
  {
    assert ["1", "2"][0] !in GndPins;
    assert ["17"][0] !in GndPins;
    assert ["habla"][0] !in GndPins;
  }

  /** test_cmd_delay: 100 encodes as 64 00. */
  lemma DelayHundredExample(where: int)
    ensures EncodeDelay(["100"], where) == Ok([5, 0x64, 0x00])
  {
    assert Decimal(100) == "100";
    DelayNumeral(100, where);
  }

  /** test_cmd_delay: 0 and 65535, the ends of the range. */
  lemma DelayBoundsExample(where: int)
    ensures EncodeDelay(["0"], where) == Ok([5, 0x00, 0x00])
    ensures EncodeDelay(["65535"], where) == Ok([5, 0xFF, 0xFF])
  {
    assert Decimal(0) == "0";
    DelayNumeral(0, where);
    assert Decimal(65535) == "65535";
    DelayNumeral(65535, where);
  }

  /** test_cmd_delay: 65536 and -1 are out of range. */
  lemma DelayRangeExamples(where: int)
    ensures EncodeDelay(["65536"], where) == Err(CommandFailed(Delay, where, DelayTooLarge))
    ensures EncodeDelay(["-1"], where) == Err(CommandFailed(Delay, where, DelayNegative))
  {
    assert Decimal(65536) == "65536";
    DelayNumeral(65536, where);
    assert "-" + Decimal(1) == "-1";
    DelayNumeral(1, where);
  }

  /** test_cmd_delay: a word is not a number and two values are too many. */
  lemma DelayRefusedExamples(where: int)
    ensures EncodeDelay(["habla"], where) == Err(CommandFailed(Delay, where, DelayNotNumber))
    ensures EncodeDelay(["100", "100"], where) == Err(CommandFailed(Delay, where, TooManyDelayValues))
  {
    assert ParseInt("habla") == None;
  }
}
