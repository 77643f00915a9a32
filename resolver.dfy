/**
 * The pin-list resolver `_get_pin_vals`: a left-to-right scan of the argument
 * tokens of CHECK or SET that keeps the qualifier in force (`on`, `off`, or none
 * yet) and builds a pin-to-value mapping.
 */
module Resolver {
  import opened Results
  import opened Text
  import opened PinMask

  /**
   * `_is_pin(arg)` followed by `int(arg)`: the pin a token names, if any. A
   * pin token reads as a number from 1 to 16, so it never starts with a minus.
   */
  function PinNumber(arg: string): (r: Option<Pin>)
    ensures r.Some? <==> ParseInt(arg).Some? && 1 <= ParseInt(arg).value <= 16
    ensures r.Some? ==> r.value as int == ParseInt(arg).value
    ensures r.Some? ==> arg != [] && (arg[0] == '+' || IsDigit(arg[0]))
  {
    match ParseInt(arg)
    case Some(n) => if 1 <= n <= 16 then Some(n as Pin) else None
    case None => None
  }

  /** How the scan reads one token, tried in the order the source tries them. */
  datatype Token = On | Off | Rest | PinToken(pin: Pin) | Invalid

  /**
   * No keyword reads as a number, so the order of the tests does not matter:
   * a token is a pin exactly when `_is_pin` accepts it.
   */
  function Classify(arg: string): (t: Token)
    ensures (t == On) == (arg == "on") && (t == Off) == (arg == "off") && (t == Rest) == (arg == "rest")
    ensures t.PinToken? <==> PinNumber(arg).Some?
    ensures t.PinToken? ==> PinNumber(arg) == Some(t.pin)
    ensures t == Invalid <==> arg != "on" && arg != "off" && arg != "rest" && PinNumber(arg).None?
  {
    if arg == "on" then On
    else if arg == "off" then Off
    else if arg == "rest" then Rest
    else match PinNumber(arg)
      case Some(p) => PinToken(p)
      case None => Invalid
  }

  /** The four syntax errors of the resolver. */
  datatype PinError =
    | RestNotLast            // REST keyword must be the last argument
    | NoQualifier            // pins must be preceded by either ON or OFF
    | AlreadyGiven(arg: string)   // pin <arg> has already been given a value
    | NotPinOrValue(arg: string)  // '<arg>' is not a valid pin or value

  /** REST: every pin not yet in the mapping gets `v`. */
  function FillRest(pins: map<Pin, bool>, v: bool): (r: map<Pin, bool>)
    ensures r.Keys == AllPins
    ensures forall p :: p in pins ==> r[p] == pins[p]
    ensures forall p :: p in AllPins && p !in pins ==> r[p] == v
  {
    map p | p in AllPins :: if p in pins then pins[p] else v
  }

  /** The scan from token `i` on, given the mapping and qualifier built so far. */
  function ResolveFrom(args: seq<string>, i: nat, pins: map<Pin, bool>, qualifier: Option<bool>)
    : (r: Result<map<Pin, bool>, PinError>)
    requires i <= |args|
    ensures r.Ok? ==> forall p :: p in pins ==> p in r.value && r.value[p] == pins[p]
    ensures r.Ok? && i < |args| && args[|args| - 1] == "rest" ==> r.value.Keys == AllPins
    decreases |args| - i
  {
    if i == |args| then Ok(pins)
    else match Classify(args[i])
      case On => ResolveFrom(args, i + 1, pins, Some(true))
      case Off => ResolveFrom(args, i + 1, pins, Some(false))
      case Rest =>
        if i < |args| - 1 then Err(RestNotLast)
        else if qualifier.None? then Err(NoQualifier)
        else ResolveFrom(args, i + 1, FillRest(pins, qualifier.value), qualifier)
      case PinToken(p) =>
        if p in pins then Err(AlreadyGiven(args[i]))
        else if qualifier.None? then Err(NoQualifier)
        else ResolveFrom(args, i + 1, pins[p := qualifier.value], qualifier)
      case Invalid => Err(NotPinOrValue(args[i]))
  }

  /** `_get_pin_vals`: a list that ends in REST, when accepted, gives all sixteen pins. */
  function Resolve(args: seq<string>): (r: Result<map<Pin, bool>, PinError>)
    ensures r.Ok? && |args| > 0 && args[|args| - 1] == "rest" ==> r.value.Keys == AllPins
  {
    ResolveFrom(args, 0, map[], None)
  }

  // A description of the resolver that does not follow the scan: what each
  // token position means on its own.

  /** The qualifier in force before token `i`: that of the nearest `on` or `off` before it. */
  function QualifierAt(args: seq<string>, i: nat): Option<bool>
    requires i <= |args|
  {
    if i == 0 then None
    else match Classify(args[i - 1])
      case On => Some(true)
      case Off => Some(false)
      case _ => QualifierAt(args, i - 1)
  }

  /** The pins named by the first `i` tokens. */
  function NamedBefore(args: seq<string>, i: nat): set<Pin>
    requires i <= |args|
  {
    if i == 0 then {}
    else NamedBefore(args, i - 1) + (if Classify(args[i - 1]).PinToken? then {Classify(args[i - 1]).pin} else {})
  }

  /** Token `i` is one the resolver rejects. */
  predicate Faulty(args: seq<string>, i: nat)
    requires i < |args|
  {
    match Classify(args[i])
    case On => false
    case Off => false
    case Rest => i < |args| - 1 || QualifierAt(args, i).None?
    case PinToken(p) => p in NamedBefore(args, i) || QualifierAt(args, i).None?
    case Invalid => true
  }

  /** The error a faulty token `i` raises; the position check of REST comes first, the duplicate check of a pin comes first. */
  function FaultAt(args: seq<string>, i: nat): PinError
    requires i < |args|
  {
    match Classify(args[i])
    case Rest => if i < |args| - 1 then RestNotLast else NoQualifier
    case PinToken(p) => if p in NamedBefore(args, i) then AlreadyGiven(args[i]) else NoQualifier
    case _ => NotPinOrValue(args[i])
  }

  predicate EndsWithRest(args: seq<string>) {
    |args| > 0 && Classify(args[|args| - 1]) == Rest
  }

  /**
   * A mapping the arguments describe: each named pin has the qualifier in force
   * where it is named; a final REST gives all other pins the last qualifier;
   * without REST, exactly the named pins are present.
   */
  ghost predicate Describes(args: seq<string>, r: map<Pin, bool>) {
    (forall j :: 0 <= j < |args| && Classify(args[j]).PinToken? ==>
       Classify(args[j]).pin in r && QualifierAt(args, j).Some? && r[Classify(args[j]).pin] == QualifierAt(args, j).value)
    && (if EndsWithRest(args) then
          r.Keys == AllPins && QualifierAt(args, |args| - 1).Some?
          && forall p :: p in AllPins && p !in NamedBefore(args, |args|) ==> r[p] == QualifierAt(args, |args| - 1).value
        else r.Keys == NamedBefore(args, |args|))
  }

  /** The state of the scan after the first `i` tokens, none of them faulty and none REST. */
  ghost predicate Scanned(args: seq<string>, i: nat, pins: map<Pin, bool>, qualifier: Option<bool>) {
    i <= |args| && qualifier == QualifierAt(args, i)
    && (forall j :: 0 <= j < i ==> !Faulty(args, j) && Classify(args[j]) != Rest)
    && pins.Keys == NamedBefore(args, i)
    && (forall j :: 0 <= j < i && Classify(args[j]).PinToken? ==>
          Classify(args[j]).pin in pins && QualifierAt(args, j).Some?
          && pins[Classify(args[j]).pin] == QualifierAt(args, j).value)
  }

  /** A faulty token stops the scan with its own error. */
  lemma FaultyStops(args: seq<string>, i: nat, pins: map<Pin, bool>, qualifier: Option<bool>)
    requires Scanned(args, i, pins, qualifier) && i < |args| && Faulty(args, i)
    ensures ResolveFrom(args, i, pins, qualifier) == Err(FaultAt(args, i))
  {
  }

  /** A REST that is not faulty is the last token and ends the scan with the filled mapping. */
  lemma RestEnds(args: seq<string>, i: nat, pins: map<Pin, bool>, qualifier: Option<bool>)
    requires Scanned(args, i, pins, qualifier) && i < |args| && !Faulty(args, i) && Classify(args[i]) == Rest
    ensures i == |args| - 1 && qualifier.Some?
    ensures ResolveFrom(args, i, pins, qualifier) == Ok(FillRest(pins, qualifier.value))
    ensures Describes(args, FillRest(pins, qualifier.value))
  {
    var r := FillRest(pins, qualifier.value);
    assert ResolveFrom(args, i + 1, r, qualifier) == Ok(r);
    assert NamedBefore(args, |args|) == pins.Keys;
  }

  /** The mapping and qualifier after a token that is neither faulty nor REST. */
  function Advance(args: seq<string>, i: nat, pins: map<Pin, bool>, qualifier: Option<bool>): (map<Pin, bool>, Option<bool>)
    requires i < |args|
  {
    match Classify(args[i])
    case On => (pins, Some(true))
    case Off => (pins, Some(false))
    case PinToken(p) => (if qualifier.Some? then pins[p := qualifier.value] else pins, qualifier)
    case _ => (pins, qualifier)
  }

  lemma ScannedStep(args: seq<string>, i: nat, pins: map<Pin, bool>, qualifier: Option<bool>)
    requires Scanned(args, i, pins, qualifier) && i < |args| && !Faulty(args, i) && Classify(args[i]) != Rest
    ensures var (pins', qualifier') := Advance(args, i, pins, qualifier);
      Scanned(args, i + 1, pins', qualifier')
      && ResolveFrom(args, i, pins, qualifier) == ResolveFrom(args, i + 1, pins', qualifier')
  {
    ScannedAdvances(args, i, pins, qualifier);
    AdvanceResolves(args, i, pins, qualifier);
  }

  /** One sound token, not REST, keeps the scan invariant. */
  lemma ScannedAdvances(args: seq<string>, i: nat, pins: map<Pin, bool>, qualifier: Option<bool>)
    requires Scanned(args, i, pins, qualifier) && i < |args| && !Faulty(args, i) && Classify(args[i]) != Rest
    ensures var (pins', qualifier') := Advance(args, i, pins, qualifier);
      Scanned(args, i + 1, pins', qualifier')
  {
    if Classify(args[i]).PinToken? {
      ScannedPin(args, i, pins, qualifier, Classify(args[i]).pin);
    } else {
      ScannedQualifier(args, i, pins, qualifier);
    }
  }

  lemma ScannedQualifier(args: seq<string>, i: nat, pins: map<Pin, bool>, qualifier: Option<bool>)
    requires Scanned(args, i, pins, qualifier) && i < |args|
    requires Classify(args[i]) == On || Classify(args[i]) == Off
    ensures Scanned(args, i + 1, pins, Some(Classify(args[i]) == On))
  {
    assert QualifierAt(args, i + 1) == Some(Classify(args[i]) == On);
    assert NamedBefore(args, i + 1) == NamedBefore(args, i);
    forall j | 0 <= j < i + 1 && Classify(args[j]).PinToken?
      ensures Classify(args[j]).pin in pins && QualifierAt(args, j).Some?
              && pins[Classify(args[j]).pin] == QualifierAt(args, j).value
    {
      assert j < i;
    }
  }

  lemma ScannedPin(args: seq<string>, i: nat, pins: map<Pin, bool>, qualifier: Option<bool>, p: Pin)
    requires Scanned(args, i, pins, qualifier) && i < |args| && !Faulty(args, i)
    requires Classify(args[i]) == PinToken(p)
    ensures qualifier.Some? && Scanned(args, i + 1, pins[p := qualifier.value], qualifier)
  {
    assert qualifier.Some? && p !in pins;
    var pins' := pins[p := qualifier.value];
    assert QualifierAt(args, i + 1) == qualifier && NamedBefore(args, i + 1) == NamedBefore(args, i) + {p};
    forall j | 0 <= j < i + 1 && Classify(args[j]).PinToken?
      ensures Classify(args[j]).pin in pins' && QualifierAt(args, j).Some?
              && pins'[Classify(args[j]).pin] == QualifierAt(args, j).value
    {
      if j < i {
        assert Classify(args[j]).pin in pins;
      }
    }
  }

  /** One sound token, not REST, is one step of the scan. */
  lemma AdvanceResolves(args: seq<string>, i: nat, pins: map<Pin, bool>, qualifier: Option<bool>)
    requires Scanned(args, i, pins, qualifier) && i < |args| && !Faulty(args, i) && Classify(args[i]) != Rest
    ensures var (pins', qualifier') := Advance(args, i, pins, qualifier);
      ResolveFrom(args, i, pins, qualifier) == ResolveFrom(args, i + 1, pins', qualifier')
  {
    if Classify(args[i]).PinToken? {
      assert qualifier.Some? && Classify(args[i]).pin !in pins;
    }
  }

  lemma {:induction false} ResolveFromSucceeds(args: seq<string>, i: nat, pins: map<Pin, bool>, qualifier: Option<bool>)
    requires Scanned(args, i, pins, qualifier)
    ensures ResolveFrom(args, i, pins, qualifier).Ok? <==> forall j :: i <= j < |args| ==> !Faulty(args, j)
    decreases |args| - i
  {
    if i < |args| {
      if Faulty(args, i) {
        FaultyStops(args, i, pins, qualifier);
      } else if Classify(args[i]) == Rest {
        RestEnds(args, i, pins, qualifier);
      } else {
        ScannedStep(args, i, pins, qualifier);
        var (pins', qualifier') := Advance(args, i, pins, qualifier);
        ResolveFromSucceeds(args, i + 1, pins', qualifier');
      }
    }
  }

  lemma {:induction false} ResolveFromValues(args: seq<string>, i: nat, pins: map<Pin, bool>, qualifier: Option<bool>)
    requires Scanned(args, i, pins, qualifier)
    requires ResolveFrom(args, i, pins, qualifier).Ok?
    ensures Describes(args, ResolveFrom(args, i, pins, qualifier).value)
    decreases |args| - i
  {
    if i < |args| {
      if Faulty(args, i) {
        FaultyStops(args, i, pins, qualifier);
      } else if Classify(args[i]) == Rest {
        RestEnds(args, i, pins, qualifier);
      } else {
        ScannedStep(args, i, pins, qualifier);
        var (pins', qualifier') := Advance(args, i, pins, qualifier);
        ResolveFromValues(args, i + 1, pins', qualifier');
      }
    }
  }

  lemma {:induction false} ResolveFromFault(args: seq<string>, i: nat, pins: map<Pin, bool>, qualifier: Option<bool>)
    requires Scanned(args, i, pins, qualifier)
    requires ResolveFrom(args, i, pins, qualifier).Err?
    ensures exists j :: i <= j < |args| && Faulty(args, j) && (forall k :: i <= k < j ==> !Faulty(args, k))
                        && ResolveFrom(args, i, pins, qualifier).error == FaultAt(args, j)
    decreases |args| - i
  {
    if Faulty(args, i) {
      FaultyStops(args, i, pins, qualifier);
    } else if Classify(args[i]) == Rest {
      RestEnds(args, i, pins, qualifier);
    } else {
      ScannedStep(args, i, pins, qualifier);
      var (pins', qualifier') := Advance(args, i, pins, qualifier);
      ResolveFromFault(args, i + 1, pins', qualifier');
    }
  }

  /** The resolver succeeds exactly when no token is faulty. */
  lemma ResolveSucceeds(args: seq<string>)
    ensures Resolve(args).Ok? <==> forall j :: 0 <= j < |args| ==> !Faulty(args, j)
  {
    ResolveFromSucceeds(args, 0, map[], None);
  }

  /** On success the mapping is the one the arguments describe. */
  lemma ResolveValues(args: seq<string>)
    requires Resolve(args).Ok?
    ensures Describes(args, Resolve(args).value)
  {
    ResolveFromValues(args, 0, map[], None);
  }

  /** On failure the error is the one of the first faulty token. */
  lemma ResolveFirstFault(args: seq<string>)
    requires Resolve(args).Err?
    ensures exists j :: 0 <= j < |args| && Faulty(args, j)
              && (forall k :: 0 <= k < j ==> !Faulty(args, k)) && Resolve(args).error == FaultAt(args, j)
  {
    ResolveFromFault(args, 0, map[], None);
  }

  /** `_get_pin_vals` */
  method GetPinVals(args: seq<string>) returns (r: Result<map<Pin, bool>, PinError>)
    ensures r == Resolve(args)
  {
    var pins: map<Pin, bool> := map[];
    var checkVal: Option<bool> := None;
    for i := 0 to |args|
      invariant ResolveFrom(args, i, pins, checkVal) == Resolve(args)
    {
      var arg := args[i];
      if arg == "on" {
        checkVal := Some(true);
      } else if arg == "off" {
        checkVal := Some(false);
      } else if arg == "rest" {
        if i < |args| - 1 {
          return Err(RestNotLast);
        } else if checkVal.None? {
          return Err(NoQualifier);
        }
        ghost var before := pins;
        for pin := 1 to 17
          invariant forall q: Pin :: q in pins <==> q in before || q < pin
          invariant forall q :: q in pins ==> pins[q] == if q in before then before[q] else checkVal.value
        {
          if pin !in pins {
            pins := pins[pin := checkVal.value];
          }
        }
        assert pins == FillRest(before, checkVal.value);
      } else if PinNumber(arg).Some? {
        var pin := PinNumber(arg).value;
        if pin in pins {
          return Err(AlreadyGiven(arg));
        } else if checkVal.None? {
          return Err(NoQualifier);
        }
        pins := pins[pin := checkVal.value];
      } else {
        return Err(NotPinOrValue(arg));
      }
    }
    return Ok(pins);
  }
}
