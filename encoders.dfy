/**
 * The command table, the 3-byte instruction format and the five command
 * encoders CHECK, SET, VIN, GND and DELAY, as functions of their argument
 * tokens (and, for SET, of the pin state before the command).
 */
module Encoders {
  import opened Results
  import opened Text
  import opened PinMask
  import opened Resolver

  type Byte = b: int | 0 <= b < 256

  /** One tester instruction: an opcode byte and a little-endian 16-bit argument. */
  type Instruction = seq<Byte>

  datatype Command = Check | Set | Vin | Gnd | Delay

  /** `_cmd_codes` */
  function Opcode(c: Command): (b: Byte)
    ensures 1 <= b <= 5
  {
    match c
    case Check => 1
    case Set => 2
    case Vin => 3
    case Gnd => 4
    case Delay => 5
  }

  function Name(c: Command): string {
    match c
    case Check => "check"
    case Set => "set"
    case Vin => "vin"
    case Gnd => "gnd"
    case Delay => "delay"
  }

  /** The dispatch table of `parse_line`: the command a first token names, if any. */
  function CommandOf(word: string): (r: Option<Command>)
    ensures r.Some? ==> Name(r.value) == word
    ensures r.None? ==> forall c: Command :: Name(c) != word
  {
    if word == "check" then Some(Check)
    else if word == "set" then Some(Set)
    else if word == "vin" then Some(Vin)
    else if word == "gnd" then Some(Gnd)
    else if word == "delay" then Some(Delay)
    else None
  }

  /** Different commands have different opcodes. */
  lemma OpcodesDistinct(c: Command, d: Command)
    requires Opcode(c) == Opcode(d)
    ensures c == d
  {
  }

  /** `struct.pack('<BH', op, arg)` */
  function Pack(op: Byte, arg: int): (r: Instruction)
    requires 0 <= arg < 65536
    ensures |r| == 3 && r[0] == op && Argument(r) == arg
  {
    [op, arg % 256, arg / 256]
  }

  /** The argument of an instruction, read back as the tester reads it. */
  function Argument(instr: Instruction): nat
    requires |instr| == 3
  {
    instr[1] as int + 256 * (instr[2] as int)
  }

  /** Reading an instruction's fields back gives the instruction. */
  lemma PackArgument(instr: Instruction)
    requires |instr| == 3
    ensures Argument(instr) < 65536 && Pack(instr[0], Argument(instr)) == instr
  {
  }

  /** Why one command failed. */
  datatype Failure =
    | PinList(e: PinError)     // the resolver's error
    | MissingPins              // all pins must be given a value
    | InvalidVinPin            // invalid vin pin
    | InvalidGroundPin         // invalid ground pin
    | TooManyDelayValues       // only 1 delay value can be specified
    | DelayNotNumber           // delay time must be a number
    | DelayTooLarge            // delay time must be less than 65535
    | DelayNegative            // delay time must be greater than 0

  /** A `CtpSyntaxError`: a failed command with its line, or a word that names no command. */
  datatype CtpError =
    | CommandFailed(cmd: Command, line: int, failure: Failure)
    | NotACommand(line: int, word: string)

  /** `_cmd_check`: the arguments must give every pin a value; the pin state is not consulted. */
  function EncodeCheck(args: seq<string>, where: int): (r: Result<Instruction, CtpError>)
    ensures r.Err? ==> r.error.CommandFailed? && r.error.cmd == Check && r.error.line == where
    ensures Resolve(args).Err? ==> r == Err(CommandFailed(Check, where, PinList(Resolve(args).error)))
    ensures Resolve(args).Ok? && Resolve(args).value.Keys != AllPins ==> r == Err(CommandFailed(Check, where, MissingPins))
  {
    match Resolve(args)
    case Err(e) => Err(CommandFailed(Check, where, PinList(e)))
    case Ok(pins) =>
      if pins.Keys != AllPins then Err(CommandFailed(Check, where, MissingPins))
      else Ok(Pack(Opcode(Check), Mask(pins)))
  }

  /**
   * `_cmd_set`: the resolved pins override the pin state; the instruction
   * carries the whole new state.
   */
  function EncodeSet(pinState: map<Pin, bool>, args: seq<string>, where: int)
    : (out: (Result<Instruction, CtpError>, map<Pin, bool>))
    ensures out.0.Err? ==> out.0.error.CommandFailed? && out.0.error.cmd == Set && out.0.error.line == where
  {
    match Resolve(args)
    case Err(e) => (Err(CommandFailed(Set, where, PinList(e))), pinState)
    case Ok(pins) =>
      var next := pinState + pins;
      (Ok(Pack(Opcode(Set), Mask(next))), next)
  }

  /** `valid_vins` of `_cmd_vin`, each literal with the pin `int()` makes of it. */
  const VinPins: map<string, Pin> := map["5" := 5, "14" := 14, "15" := 15, "16" := 16]

  /** `valid_gnds` of `_cmd_gnd`. */
  const GndPins: map<string, Pin> := map["8" := 8, "12" := 12]

  /** The pins the arguments name. */
  function SupplyNamed(args: seq<string>, valid: map<string, Pin>): set<Pin>
    requires forall k :: 0 <= k < |args| ==> args[k] in valid
  {
    set k | 0 <= k < |args| :: valid[args[k]]
  }

  /** The pins the arguments name, each switched on. */
  function SupplyMap(args: seq<string>, valid: map<string, Pin>): map<Pin, bool>
    requires forall k :: 0 <= k < |args| ==> args[k] in valid
  {
    map p | p in SupplyNamed(args, valid) :: true
  }

  /** The loop of `_cmd_vin` and `_cmd_gnd`: every argument must be one of the literals. */
  function SupplyPins(args: seq<string>, valid: map<string, Pin>): (r: Option<map<Pin, bool>>)
    ensures r.Some? <==> forall k :: 0 <= k < |args| ==> args[k] in valid
    ensures r.Some? ==> forall p :: p in r.value <==> exists k :: 0 <= k < |args| && valid[args[k]] == p
    ensures r.Some? ==> forall p :: p in r.value ==> r.value[p]
  {
    if forall k :: 0 <= k < |args| ==> args[k] in valid then Some(SupplyMap(args, valid)) else None
  }

  /** `_cmd_vin` */
  function EncodeVin(args: seq<string>, where: int): (r: Result<Instruction, CtpError>)
    ensures r.Err? ==> r.error == CommandFailed(Vin, where, InvalidVinPin)
  {
    match SupplyPins(args, VinPins)
    case None => Err(CommandFailed(Vin, where, InvalidVinPin))
    case Some(pins) => Ok(Pack(Opcode(Vin), Mask(pins)))
  }

  /** `_cmd_gnd` */
  function EncodeGnd(args: seq<string>, where: int): (r: Result<Instruction, CtpError>)
    ensures r.Err? ==> r.error == CommandFailed(Gnd, where, InvalidGroundPin)
  {
    match SupplyPins(args, GndPins)
    case None => Err(CommandFailed(Gnd, where, InvalidGroundPin))
    case Some(pins) => Ok(Pack(Opcode(Gnd), Mask(pins)))
  }

  /** `_cmd_delay`: checks in the order count, number, upper bound, lower bound. */
  function EncodeDelay(args: seq<string>, where: int): (r: Result<Instruction, CtpError>)
    requires |args| >= 1
    ensures r.Err? ==> r.error.CommandFailed? && r.error.cmd == Delay && r.error.line == where
  {
    if |args| > 1 then Err(CommandFailed(Delay, where, TooManyDelayValues))
    else match ParseInt(args[0])
      case None => Err(CommandFailed(Delay, where, DelayNotNumber))
      case Some(time) =>
        if time > 65535 then Err(CommandFailed(Delay, where, DelayTooLarge))
        else if time < 0 then Err(CommandFailed(Delay, where, DelayNegative))
        else Ok(Pack(Opcode(Delay), time))
  }

  /**
   * CHECK succeeds exactly when the resolver accepts every token and every pin
   * is covered, by a final REST or by naming all sixteen.
   */
  lemma CheckSucceeds(args: seq<string>, where: int)
    ensures EncodeCheck(args, where).Ok? <==>
              (forall j :: 0 <= j < |args| ==> !Faulty(args, j))
              && (EndsWithRest(args) || NamedBefore(args, |args|) == AllPins)
  {
    ResolveSucceeds(args);
    if Resolve(args).Ok? {
      ResolveValues(args);
    }
  }

  /** Stated without the scan: a faulty token fails CHECK with the first faulty token's own resolver error. */
  lemma CheckFirstFault(args: seq<string>, where: int, j: nat)
    requires j < |args| && Faulty(args, j) && forall k :: 0 <= k < j ==> !Faulty(args, k)
    ensures EncodeCheck(args, where) == Err(CommandFailed(Check, where, PinList(FaultAt(args, j))))
  {
    ResolveSucceeds(args);
    assert Resolve(args).Err?;
    ResolveFirstFault(args);
    var j0 :| 0 <= j0 < |args| && Faulty(args, j0)
              && (forall k :: 0 <= k < j0 ==> !Faulty(args, k)) && Resolve(args).error == FaultAt(args, j0);
    assert !(j < j0) && !(j0 < j);
  }

  /**
   * Stated without the scan: when no token is faulty, CHECK fails with
   * MissingPins when the list neither ends in REST nor names all sixteen pins.
   */
  lemma CheckMissingPins(args: seq<string>, where: int)
    requires forall j :: 0 <= j < |args| ==> !Faulty(args, j)
    requires !EndsWithRest(args) && NamedBefore(args, |args|) != AllPins
    ensures EncodeCheck(args, where) == Err(CommandFailed(Check, where, MissingPins))
  {
    ResolveSucceeds(args);
    CheckSucceeds(args, where);
  }

  /** A CHECK instruction has opcode 1 and bit `p - 1` set exactly when pin `p` resolves to on. */
  lemma CheckBits(args: seq<string>, where: int)
    requires EncodeCheck(args, where).Ok?
    ensures Resolve(args).Ok? && Resolve(args).value.Keys == AllPins
    ensures var instr := EncodeCheck(args, where).value;
      instr[0] == 1 && forall p: Pin :: PinBit(Argument(instr), p) <==> Resolve(args).value[p]
  {
    MaskBits(Resolve(args).value);
  }

  /**
   * SET: on success every pin keeps its old state unless the arguments resolve
   * it, the state still has all sixteen pins, and the instruction has opcode 2
   * and the bits of the whole new state; on a resolver error nothing changes.
   */
  lemma SetMeaning(pinState: map<Pin, bool>, args: seq<string>, where: int)
    requires pinState.Keys == AllPins
    ensures var (r, next) := EncodeSet(pinState, args, where);
      && next.Keys == AllPins
      && (r.Ok? <==> Resolve(args).Ok?)
      && (r.Err? ==> next == pinState && r.error.failure == PinList(Resolve(args).error))
      && (r.Ok? ==>
            r.value[0] == 2
            && (forall p: Pin :: next[p] == if p in Resolve(args).value then Resolve(args).value[p] else pinState[p])
            && (forall p: Pin :: PinBit(Argument(r.value), p) <==> next[p]))
  {
    if Resolve(args).Ok? {
      MaskBits(pinState + Resolve(args).value);
    }
  }

  /**
   * SET keeps a pin state that holds all sixteen pins whole: the one clause of
   * SetMeaning that LineStep needs, kept apart so that LineStep's proof does
   * not take in the rest of SetMeaning.
   */
  lemma SetKeepsPins(pinState: map<Pin, bool>, args: seq<string>, where: int)
    requires pinState.Keys == AllPins
    ensures EncodeSet(pinState, args, where).1.Keys == AllPins
  {
    SetMeaning(pinState, args, where);
  }

  /** The bits of a VIN or GND mask are the pins the arguments name. */
  lemma SupplyBits(args: seq<string>, valid: map<string, Pin>)
    requires forall k :: 0 <= k < |args| ==> args[k] in valid
    ensures forall p: Pin :: PinBit(Mask(SupplyMap(args, valid)), p) <==> exists k :: 0 <= k < |args| && valid[args[k]] == p
  {
    MaskBits(SupplyMap(args, valid));
  }

  /** VIN succeeds exactly when every argument is one of the literals 5, 14, 15, 16. */
  lemma VinSucceeds(args: seq<string>, where: int)
    ensures EncodeVin(args, where).Ok? <==> forall k :: 0 <= k < |args| ==> args[k] in {"5", "14", "15", "16"}
  {
    assert VinPins.Keys == {"5", "14", "15", "16"};
  }

  /** A VIN instruction has opcode 3 and the bits of exactly the named pins. */
  lemma VinBits(args: seq<string>, where: int)
    requires EncodeVin(args, where).Ok?
    ensures var instr := EncodeVin(args, where).value;
      instr[0] == 3 && forall p: Pin :: PinBit(Argument(instr), p) <==> exists k :: 0 <= k < |args| && VinPins[args[k]] == p
  {
    SupplyBits(args, VinPins);
  }

  /** GND succeeds exactly when every argument is one of the literals 8, 12. */
  lemma GndSucceeds(args: seq<string>, where: int)
    ensures EncodeGnd(args, where).Ok? <==> forall k :: 0 <= k < |args| ==> args[k] in {"8", "12"}
  {
    assert GndPins.Keys == {"8", "12"};
  }

  /** A GND instruction has opcode 4 and the bits of exactly the named pins. */
  lemma GndBits(args: seq<string>, where: int)
    requires EncodeGnd(args, where).Ok?
    ensures var instr := EncodeGnd(args, where).value;
      instr[0] == 4 && forall p: Pin :: PinBit(Argument(instr), p) <==> exists k :: 0 <= k < |args| && GndPins[args[k]] == p
  {
    SupplyBits(args, GndPins);
  }

  /** VIN and GND depend only on which literals occur: order and repetition do not matter. */
  lemma {:induction false} SupplySameTokens(a: seq<string>, b: seq<string>, valid: map<string, Pin>)
    requires forall x :: x in a <==> x in b
    ensures SupplyPins(a, valid) == SupplyPins(b, valid)
  {
    if forall k :: 0 <= k < |a| ==> a[k] in valid {
      assert forall k :: 0 <= k < |b| ==> b[k] in valid by {
        forall k | 0 <= k < |b| ensures b[k] in valid {
          assert b[k] in a;
        }
      }
      forall p ensures p in SupplyNamed(a, valid) <==> p in SupplyNamed(b, valid) {
        if p in SupplyNamed(a, valid) {
          var k :| 0 <= k < |a| && valid[a[k]] == p;
          assert a[k] in b;
          var m :| 0 <= m < |b| && b[m] == a[k];
        }
        if p in SupplyNamed(b, valid) {
          var k :| 0 <= k < |b| && valid[b[k]] == p;
          assert b[k] in a;
          var m :| 0 <= m < |a| && a[m] == b[k];
        }
      }
      assert SupplyNamed(a, valid) == SupplyNamed(b, valid);
    } else {
      var k :| 0 <= k < |a| && a[k] !in valid;
      assert a[k] in b;
    }
  }

  /** Naming a VIN pin twice gives the same instruction as naming it once. */
  lemma VinRepeat(args: seq<string>, k: nat, where: int)
    requires k < |args|
    ensures EncodeVin(args + [args[k]], where) == EncodeVin(args, where)
  {
    SupplySameTokens(args + [args[k]], args, VinPins);
  }

  /** Naming a GND pin twice gives the same instruction as naming it once. */
  lemma GndRepeat(args: seq<string>, k: nat, where: int)
    requires k < |args|
    ensures EncodeGnd(args + [args[k]], where) == EncodeGnd(args, where)
  {
    SupplySameTokens(args + [args[k]], args, GndPins);
  }

  /**
   * DELAY and the decimal numeral of a time: 0..65535 encodes as opcode 5 with
   * that time as argument, anything larger is rejected as too large, and a
   * negative numeral as negative.
   */
  lemma DelayNumeral(n: nat, where: int)
    ensures n <= 65535 ==> EncodeDelay([Decimal(n)], where) == Ok([5, n % 256, n / 256])
    ensures n <= 65535 ==> Argument(EncodeDelay([Decimal(n)], where).value) == n
    ensures n > 65535 ==> EncodeDelay([Decimal(n)], where) == Err(CommandFailed(Delay, where, DelayTooLarge))
    ensures n > 0 ==> EncodeDelay(["-" + Decimal(n)], where) == Err(CommandFailed(Delay, where, DelayNegative))
  {
    ParseDecimal(n);
  }

  /**
   * DELAY on any arguments: more than one is too many; otherwise the one
   * argument must read as a number, and a number n from 0 to 65535 encodes as
   * [5, n % 256, n / 256] with argument n, while a larger or a negative one is
   * refused as such.
   */
  lemma DelayMeaning(args: seq<string>, where: int)
    requires |args| >= 1
    ensures |args| > 1 ==> EncodeDelay(args, where) == Err(CommandFailed(Delay, where, TooManyDelayValues))
    ensures |args| == 1 && ParseInt(args[0]).None? ==> EncodeDelay(args, where) == Err(CommandFailed(Delay, where, DelayNotNumber))
    ensures |args| == 1 && ParseInt(args[0]).Some? && 0 <= ParseInt(args[0]).value <= 65535 ==>
              var n := ParseInt(args[0]).value;
              EncodeDelay(args, where) == Ok([5, n % 256, n / 256]) && Argument(EncodeDelay(args, where).value) == n
    ensures |args| == 1 && ParseInt(args[0]).Some? && ParseInt(args[0]).value > 65535 ==>
              EncodeDelay(args, where) == Err(CommandFailed(Delay, where, DelayTooLarge))
    ensures |args| == 1 && ParseInt(args[0]).Some? && ParseInt(args[0]).value < 0 ==>
              EncodeDelay(args, where) == Err(CommandFailed(Delay, where, DelayNegative))
  {
  }

  /** CHECK of a pin list the resolver maps onto all sixteen pins, whose mask has bytes `lo` and `hi`. */
  lemma CheckOfResolved(args: seq<string>, where: int, pins: map<Pin, bool>, lo: Byte, hi: Byte)
    requires Resolve(args) == Ok(pins) && pins.Keys == AllPins && Mask(pins) == lo + 256 * hi
    ensures EncodeCheck(args, where) == Ok([1, lo, hi])
  {
    PackArgument([1, lo, hi]);
  }

  /** SET of a pin list the resolver accepts, giving the pin state `next` whose mask has bytes `lo` and `hi`. */
  lemma SetOfResolved(pinState: map<Pin, bool>, args: seq<string>, where: int, pins: map<Pin, bool>,
                      next: map<Pin, bool>, lo: Byte, hi: Byte)
    requires Resolve(args) == Ok(pins) && pinState + pins == next && Mask(next) == lo + 256 * hi
    ensures EncodeSet(pinState, args, where) == (Ok([2, lo, hi]), next)
  {
    PackArgument([2, lo, hi]);
    assert Argument([2, lo, hi]) == Mask(next);
  }

  /** A VIN command whose literals name `pins`, with mask bytes `lo` and `hi`. */
  lemma VinOfNamed(args: seq<string>, where: int, pins: map<Pin, bool>, lo: Byte, hi: Byte)
    requires SupplyPins(args, VinPins) == Some(pins) && Mask(pins) == lo + 256 * hi
    ensures EncodeVin(args, where) == Ok([3, lo, hi])
  {
    PackArgument([3, lo, hi]);
  }

  /** A GND command whose literals name `pins`, with mask bytes `lo` and `hi`. */
  lemma GndOfNamed(args: seq<string>, where: int, pins: map<Pin, bool>, lo: Byte, hi: Byte)
    requires SupplyPins(args, GndPins) == Some(pins) && Mask(pins) == lo + 256 * hi
    ensures EncodeGnd(args, where) == Ok([4, lo, hi])
  {
    PackArgument([4, lo, hi]);
  }
}
