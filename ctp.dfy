/**
 * The compiler driver `parse_line` / `parse_code` and the per-run state that
 * the source keeps at module level: the SET pin state and the flags that record
 * whether VIN and GND have been called. A `Compiler` object is one run; its
 * state carries over from one `ParseCode` call to the next, as the module-level
 * state of the source does.
 */
module Ctp {
  import opened Results
  import opened Text
  import opened PinMask
  import opened Resolver
  import opened Encoders

  /** An advisory: a pin command before any GND, or before any VIN. */
  datatype Warning = NoGround(cmd: string, line: int) | NoVin(cmd: string, line: int)

  /** What a run keeps between commands. */
  datatype RunState = RunState(pinState: map<Pin, bool>, vinCalled: bool, gndCalled: bool, warnings: seq<Warning>)

  /** `_cmd_set.pin_state` as first assigned: all sixteen pins off. */
  const AllOff: map<Pin, bool> := map p | p in AllPins :: false

  const Initial: RunState := RunState(AllOff, false, false, [])

  predicate Consistent(st: RunState) {
    st.pinState.Keys == AllPins
  }

  /** The warnings `parse_line` issues before a CHECK or SET. */
  function PinWarnings(st: RunState, word: string, lineNum: int): seq<Warning> {
    (if !st.gndCalled then [NoGround(word, lineNum)] else [])
    + (if !st.vinCalled then [NoVin(word, lineNum)] else [])
  }

  /** The line a compiler error reports. */
  function ErrorLine(e: CtpError): int {
    match e
    case CommandFailed(_, line, _) => line
    case NotACommand(line, _) => line
  }

  /**
   * `parse_line` on the tokens of one line, numbered `lineNum`: the instruction
   * it appends, or its error, and the state afterwards.
   */
  function LineStep(st: RunState, args: seq<string>, lineNum: int): (out: (Result<Instruction, CtpError>, RunState))
    requires Consistent(st) && |args| >= 1 && (args[0] == "delay" ==> |args| >= 2)
    ensures Consistent(out.1)
    ensures out.0.Ok? ==> CommandOf(args[0]).Some? && |out.0.value| == 3 && out.0.value[0] == Opcode(CommandOf(args[0]).value)
    ensures out.0.Err? ==> ErrorLine(out.0.error) == if out.0.error.NotACommand? then lineNum + 1 else lineNum
  {
    match CommandOf(args[0])
    case None => (Err(NotACommand(lineNum + 1, args[0])), st)
    case Some(cmd) =>
      var warned := if cmd == Check || cmd == Set then st.(warnings := st.warnings + PinWarnings(st, args[0], lineNum)) else st;
      match cmd
      case Check => (EncodeCheck(args[1..], lineNum), warned)
      case Set =>
        SetKeepsPins(warned.pinState, args[1..], lineNum);
        var (r, next) := EncodeSet(warned.pinState, args[1..], lineNum);
        (r, warned.(pinState := next))
      case Vin => (EncodeVin(args[1..], lineNum), warned.(vinCalled := true))
      case Gnd => (EncodeGnd(args[1..], lineNum), warned.(gndCalled := true))
      case Delay => (EncodeDelay(args[1..], lineNum), warned)
  }

  /**
   * What one line does to the run state. An unknown word changes nothing.
   * Otherwise: CHECK and SET log the warnings for the supplies not yet
   * declared, every time; VIN and GND set their flag whether or not their
   * arguments are valid; only a successful SET changes the pin state.
   */
  lemma LineStepEffects(st: RunState, args: seq<string>, lineNum: int)
    requires Consistent(st) && |args| >= 1 && (args[0] == "delay" ==> |args| >= 2)
    ensures var (r, after) := LineStep(st, args, lineNum);
      && (CommandOf(args[0]).None? ==> r == Err(NotACommand(lineNum + 1, args[0])) && after == st)
      && (CommandOf(args[0]).Some? ==>
            && after.warnings == st.warnings + (if args[0] == "check" || args[0] == "set" then PinWarnings(st, args[0], lineNum) else [])
            && after.vinCalled == (st.vinCalled || args[0] == "vin")
            && after.gndCalled == (st.gndCalled || args[0] == "gnd")
            && (args[0] != "set" || r.Err? ==> after.pinState == st.pinState))
  {
  }

  /** CHECK neither reads nor changes the pin state: its result is the same from any state. */
  lemma CheckIgnoresPinState(a: RunState, b: RunState, args: seq<string>, lineNum: int)
    requires Consistent(a) && Consistent(b) && |args| >= 1 && args[0] == "check"
    ensures LineStep(a, args, lineNum).0 == LineStep(b, args, lineNum).0
    ensures LineStep(a, args, lineNum).1.pinState == a.pinState
  {
  }

  /** `line.lower().split()` */
  function Tokens(line: string): (ts: seq<string>)
    ensures forall k :: 0 <= k < |ts| ==> IsWord(ts[k]) && NoUpper(ts[k])
  {
    SplitNoUpper(Lower(line));
    Split(Lower(line))
  }

  /**
   * The tokens of a line are its words, lower-cased, however much whitespace
   * separates them, precedes them or follows them.
   */
  lemma TokensOfWords(lead: string, ts: seq<string>, seps: seq<string>, tail: string)
    requires |seps| + 1 == |ts| || ts == seps == []
    requires forall k :: 0 <= k < |ts| ==> IsWord(ts[k])
    requires forall k :: 0 <= k < |seps| ==> IsSeparator(seps[k])
    requires IsBlank(lead) && IsBlank(tail)
    ensures Tokens(lead + (JoinWith(ts, seps) + tail)) == LowerAll(ts)
  {
    var j := JoinWith(ts, seps);
    LowerAppend(lead, j + tail);
    LowerAppend(j, tail);
    LowerJoinWith(ts, seps);
    var lts, lseps := LowerAll(ts), LowerAll(seps);
    forall k | 0 <= k < |lts| ensures IsWord(lts[k]) {
      assert forall i :: 0 <= i < |ts[k]| ==> IsSpace(lts[k][i]) == IsSpace(ts[k][i]);
    }
    forall k | 0 <= k < |lseps| ensures IsSeparator(lseps[k]) {
      assert forall i :: 0 <= i < |seps[k]| ==> IsSpace(lseps[k][i]) == IsSpace(seps[k][i]);
    }
    SplitJoinWith(Lower(lead), lts, lseps, Lower(tail));
  }

  /**
   * `parse_code` hands a line to `parse_line` when it has two tokens or more
   * and does not start with `#`: an empty line, a comment and a line of
   * whitespace are skipped, and a dispatched line gives the command handler
   * at least one argument.
   */
  predicate Dispatched(line: string)
    ensures Dispatched(line) ==> |Tokens(line)| >= 2 && line[0] != '#'
    ensures line == [] || line[0] == '#' ==> !Dispatched(line)
    ensures (forall i :: 0 <= i < |line| ==> IsSpace(line[i])) ==> !Dispatched(line)
  {
    BlankSplit(Lower(line));
    |Tokens(line)| > 1 && line != [] && line[0] != '#'
  }

  /** `parse_code` from line index `i` on, with the instructions of the earlier lines. */
  function CompileFrom(st: RunState, code: seq<string>, i: nat, commands: seq<Instruction>)
    : (out: (Result<seq<Instruction>, CtpError>, RunState))
    requires Consistent(st) && i <= |code|
    ensures Consistent(out.1)
    decreases |code| - i
  {
    if i == |code| then (Ok(commands), st)
    else if Dispatched(code[i]) then
      var (r, next) := LineStep(st, Tokens(code[i]), i + 1);
      match r
      case Err(e) => (Err(e), next)
      case Ok(instr) => CompileFrom(next, code, i + 1, commands + [instr])
    else CompileFrom(st, code, i + 1, commands)
  }

  /**
   * `parse_code`: the program of a list of lines, or the first error, and the
   * state afterwards. A successful compilation has one instruction per
   * dispatched line, in source order, with the opcode of that line's command.
   */
  function Compile(st: RunState, code: seq<string>): (out: (Result<seq<Instruction>, CtpError>, RunState))
    requires Consistent(st)
    ensures Consistent(out.1)
    ensures out.0.Ok? ==> Encodes(code, DispatchedLines(code, |code|), out.0.value)
  {
    CompileFromShape(st, code, 0, []);
    CompileFrom(st, code, 0, [])
  }

  /** The indices, below `n`, of the lines `parse_code` dispatches, in source order. */
  function DispatchedLines(code: seq<string>, n: nat): seq<nat>
    requires n <= |code|
  {
    if n == 0 then []
    else DispatchedLines(code, n - 1) + (if Dispatched(code[n - 1]) then [n - 1] else [])
  }

  /**
   * `cmds` holds one 3-byte instruction per listed line, in the same order,
   * each with the opcode of the command its line starts with.
   */
  ghost predicate Encodes(code: seq<string>, lines: seq<nat>, cmds: seq<Instruction>) {
    |cmds| == |lines|
    && forall k :: 0 <= k < |lines| ==>
         lines[k] < |code| && Dispatched(code[lines[k]]) && |cmds[k]| == 3
         && CommandOf(Tokens(code[lines[k]])[0]).Some?
         && cmds[k][0] == Opcode(CommandOf(Tokens(code[lines[k]])[0]).value)
  }

  /** One more dispatched line and its instruction keep `Encodes`. */
  lemma EncodesExtend(code: seq<string>, lines: seq<nat>, cmds: seq<Instruction>, i: nat, instr: Instruction)
    requires Encodes(code, lines, cmds)
    requires i < |code| && Dispatched(code[i]) && |instr| == 3
    requires CommandOf(Tokens(code[i])[0]).Some? && instr[0] == Opcode(CommandOf(Tokens(code[i])[0]).value)
    ensures Encodes(code, lines + [i], cmds + [instr])
  {
    var lines', cmds' := lines + [i], cmds + [instr];
    forall k | 0 <= k < |lines'|
      ensures lines'[k] < |code| && Dispatched(code[lines'[k]]) && |cmds'[k]| == 3
              && CommandOf(Tokens(code[lines'[k]])[0]).Some?
              && cmds'[k][0] == Opcode(CommandOf(Tokens(code[lines'[k]])[0]).value)
    {
      if k < |lines| {
        assert lines'[k] == lines[k] && cmds'[k] == cmds[k];
      }
    }
  }

  lemma {:induction false} CompileFromShape(st: RunState, code: seq<string>, i: nat, commands: seq<Instruction>)
    requires Consistent(st) && i <= |code|
    requires Encodes(code, DispatchedLines(code, i), commands)
    ensures CompileFrom(st, code, i, commands).0.Ok? ==>
              Encodes(code, DispatchedLines(code, |code|), CompileFrom(st, code, i, commands).0.value)
    decreases |code| - i
  {
    if i < |code| {
      if Dispatched(code[i]) {
        var (r, next) := LineStep(st, Tokens(code[i]), i + 1);
        if r.Ok? {
          assert DispatchedLines(code, i + 1) == DispatchedLines(code, i) + [i];
          EncodesExtend(code, DispatchedLines(code, i), commands, i, r.value);
          CompileFromShape(next, code, i + 1, commands + [r.value]);
        }
      } else {
        assert DispatchedLines(code, i + 1) == DispatchedLines(code, i);
        CompileFromShape(st, code, i + 1, commands);
      }
    }
  }

  /** A line `parse_code` skips leaves the run as it is. */
  lemma CompileSkip(st: RunState, code: seq<string>, i: nat, commands: seq<Instruction>)
    requires Consistent(st) && i < |code| && !Dispatched(code[i])
    ensures CompileFrom(st, code, i, commands) == CompileFrom(st, code, i + 1, commands)
  {
  }

  /** A dispatched line that encodes appends its instruction and moves on to the next line. */
  lemma CompileStep(st: RunState, code: seq<string>, i: nat, commands: seq<Instruction>,
                    instr: Instruction, next: RunState)
    requires Consistent(st) && i < |code| && Dispatched(code[i])
    requires LineStep(st, Tokens(code[i]), i + 1) == (Ok(instr), next)
    ensures CompileFrom(st, code, i, commands) == CompileFrom(next, code, i + 1, commands + [instr])
  {
  }

  /** Past a line that encodes, a prefix that keeps that line runs as the whole program does. */
  lemma PrefixStep(st: RunState, code: seq<string>, i: nat, m: nat, commands: seq<Instruction>,
                   instr: Instruction, next: RunState)
    requires Consistent(st) && i < m <= |code| && Dispatched(code[i])
    requires LineStep(st, Tokens(code[i]), i + 1) == (Ok(instr), next)
    requires CompileFrom(next, code[..m], i + 1, commands + [instr]) == CompileFrom(next, code, i + 1, commands + [instr])
    ensures CompileFrom(st, code[..m], i, commands) == CompileFrom(st, code, i, commands)
  {
    CompileStep(st, code, i, commands, instr, next);
    assert code[..m][i] == code[i];
    CompileStep(st, code[..m], i, commands, instr, next);
  }

  /** A failing line `i` ends the run, on the whole program and on the lines up to it. */
  lemma PrefixFail(st: RunState, code: seq<string>, i: nat, commands: seq<Instruction>, e: CtpError, next: RunState)
    returns (m: nat)
    requires Consistent(st) && i < |code| && Dispatched(code[i])
    requires LineStep(st, Tokens(code[i]), i + 1) == (Err(e), next)
    ensures m == i + 1 && m <= |code|
    ensures CompileFrom(st, code[..m], i, commands) == (Err(e), next) == CompileFrom(st, code, i, commands)
    ensures ErrorLine(e) == m + (if e.NotACommand? then 1 else 0)
  {
    m := i + 1;
    assert code[..m][i] == code[i];
  }

  /**
   * The run from line `i` fails at the dispatched line numbered `m` (counting
   * from one): the lines up to it give the same result and state as the whole
   * program, and the error names line `m` (one more for an unknown command).
   */
  ghost predicate StopsAt(st: RunState, code: seq<string>, i: nat, commands: seq<Instruction>, m: nat)
    requires Consistent(st) && i <= |code|
  {
    && i < m <= |code| && Dispatched(code[m - 1])
    && CompileFrom(st, code[..m], i, commands) == CompileFrom(st, code, i, commands)
    && CompileFrom(st, code, i, commands).0.Err?
    && ErrorLine(CompileFrom(st, code, i, commands).0.error)
       == m + (if CompileFrom(st, code, i, commands).0.error.NotACommand? then 1 else 0)
  }

  /** A run that fails has a line left to fail on. */
  lemma FailsBeforeEnd(st: RunState, code: seq<string>, i: nat, commands: seq<Instruction>)
    requires Consistent(st) && i <= |code|
    requires CompileFrom(st, code, i, commands).0.Err?
    ensures i < |code|
  {
  }

  /**
   * A failing run from line `i` stops at the dispatched line numbered `m`
   * (counting from one); the lines after it change nothing.
   */
  lemma {:induction false} CompileFromAborts(st: RunState, code: seq<string>, i: nat, commands: seq<Instruction>)
    returns (m: nat)
    requires Consistent(st) && i <= |code|
    requires CompileFrom(st, code, i, commands).0.Err?
    ensures StopsAt(st, code, i, commands, m)
    decreases |code| - i, 2
  {
    FailsBeforeEnd(st, code, i, commands);
    if !Dispatched(code[i]) {
      m := AbortsAfterSkip(st, code, i, commands);
    } else {
      m := AbortsAtLine(st, code, i, commands);
    }
  }

  /** `CompileFromAborts` at a dispatched line `i`, which either fails or encodes. */
  lemma {:induction false} AbortsAtLine(st: RunState, code: seq<string>, i: nat, commands: seq<Instruction>)
    returns (m: nat)
    requires Consistent(st) && i < |code| && Dispatched(code[i])
    requires CompileFrom(st, code, i, commands).0.Err?
    ensures StopsAt(st, code, i, commands, m)
    decreases |code| - i, 1
  {
    match LineStep(st, Tokens(code[i]), i + 1)
    case (Err(e), next) =>
      m := PrefixFail(st, code, i, commands, e, next);
    case (Ok(instr), next) =>
      m := AbortsAfterStep(st, code, i, commands, instr, next);
  }

  /** `CompileFromAborts` past a line `i` that is skipped. */
  lemma {:induction false} AbortsAfterSkip(st: RunState, code: seq<string>, i: nat, commands: seq<Instruction>)
    returns (m: nat)
    requires Consistent(st) && i < |code| && !Dispatched(code[i])
    requires CompileFrom(st, code, i, commands).0.Err?
    ensures StopsAt(st, code, i, commands, m)
    decreases |code| - i, 1
  {
    CompileSkip(st, code, i, commands);
    m := CompileFromAborts(st, code, i + 1, commands);
    assert code[..m][i] == code[i];
    CompileSkip(st, code[..m], i, commands);
  }

  /** `CompileFromAborts` past a line `i` that encodes to `instr`. */
  lemma {:induction false} AbortsAfterStep(st: RunState, code: seq<string>, i: nat, commands: seq<Instruction>,
                                           instr: Instruction, next: RunState)
    returns (m: nat)
    requires Consistent(st) && i < |code| && Dispatched(code[i])
    requires LineStep(st, Tokens(code[i]), i + 1) == (Ok(instr), next)
    requires CompileFrom(st, code, i, commands).0.Err?
    ensures StopsAt(st, code, i, commands, m)
    decreases |code| - i, 0
  {
    CompileStep(st, code, i, commands, instr, next);
    m := CompileFromAborts(next, code, i + 1, commands + [instr]);
    PrefixStep(st, code, i, m, commands, instr, next);
  }

  /**
   * The first failing line ends the run: the result and the state are those of
   * the lines up to and including it, line number `m`, and the error names that
   * line number (one more for an unknown command).
   */
  lemma CompileAborts(st: RunState, code: seq<string>)
    requires Consistent(st)
    requires Compile(st, code).0.Err?
    ensures exists m :: 0 < m <= |code| && Dispatched(code[m - 1])
              && Compile(st, code[..m]) == Compile(st, code)
              && ErrorLine(Compile(st, code).0.error)
                 == m + (if Compile(st, code).0.error.NotACommand? then 1 else 0)
  {
    var m := CompileFromAborts(st, code, 0, []);
    assert Compile(st, code[..m]) == Compile(st, code);
  }

  /** Two states that differ at most in the warnings issued so far. */
  predicate SameButWarnings(a: RunState, b: RunState) {
    a.pinState == b.pinState && a.vinCalled == b.vinCalled && a.gndCalled == b.gndCalled
  }

  lemma LineStepWarnings(a: RunState, b: RunState, args: seq<string>, lineNum: int)
    requires Consistent(a) && SameButWarnings(a, b)
    requires |args| >= 1 && (args[0] == "delay" ==> |args| >= 2)
    ensures LineStep(a, args, lineNum).0 == LineStep(b, args, lineNum).0
    ensures SameButWarnings(LineStep(a, args, lineNum).1, LineStep(b, args, lineNum).1)
  {
    assert b.pinState == a.pinState;
    match CommandOf(args[0]) {
      case None =>
      case Some(cmd) =>
        if cmd == Set {
          assert LineStep(a, args, lineNum).0 == EncodeSet(a.pinState, args[1..], lineNum).0;
          assert LineStep(b, args, lineNum).0 == EncodeSet(b.pinState, args[1..], lineNum).0;
        }
    }
  }

  lemma {:induction false} CompileFromWarnings(a: RunState, b: RunState, code: seq<string>, i: nat, commands: seq<Instruction>)
    requires Consistent(a) && SameButWarnings(a, b) && i <= |code|
    ensures CompileFrom(a, code, i, commands).0 == CompileFrom(b, code, i, commands).0
    ensures SameButWarnings(CompileFrom(a, code, i, commands).1, CompileFrom(b, code, i, commands).1)
    decreases |code| - i
  {
    if i < |code| {
      if Dispatched(code[i]) {
        var args := Tokens(code[i]);
        LineStepWarnings(a, b, args, i + 1);
        var (r, nextA) := LineStep(a, args, i + 1);
        var nextB := LineStep(b, args, i + 1).1;
        if r.Ok? {
          CompileFromWarnings(nextA, nextB, code, i + 1, commands + [r.value]);
        }
      } else {
        CompileFromWarnings(a, b, code, i + 1, commands);
      }
    }
  }

  /** Warnings never change the program: the result depends only on the pin state and the flags. */
  lemma WarningsDoNotMatter(a: RunState, b: RunState, code: seq<string>)
    requires Consistent(a) && SameButWarnings(a, b)
    ensures Compile(a, code).0 == Compile(b, code).0
    ensures SameButWarnings(Compile(a, code).1, Compile(b, code).1)
  {
    CompileFromWarnings(a, b, code, 0, []);
  }

  /** The module-level state of the source, owned by one object. */
  class Compiler {
    var pinState: map<Pin, bool>
    var vinCalled: bool
    var gndCalled: bool
    var warnings: seq<Warning>

    ghost predicate Valid()
      reads this
    {
      pinState.Keys == AllPins
    }

    function State(): RunState
      reads this
    {
      RunState(pinState, vinCalled, gndCalled, warnings)
    }

    /** A fresh run: all pins off, neither VIN nor GND called, no warnings. */
    constructor ()
      ensures Valid() && State() == Initial
    {
      pinState := AllOff;
      vinCalled := false;
      gndCalled := false;
      warnings := [];
    }

    /** `_cmd_check` */
    method CmdCheck(args: seq<string>, where: int) returns (r: Result<Instruction, CtpError>)
      ensures r == EncodeCheck(args, where)
    {
      var resolved := GetPinVals(args);
      if resolved.Err? {
        return Err(CommandFailed(Check, where, PinList(resolved.error)));
      }
      var pins := resolved.value;
      for pin := 1 to 17
        invariant forall q: Pin :: q < pin ==> q in pins
      {
        if pin !in pins {
          return Err(CommandFailed(Check, where, MissingPins));
        }
      }
      assert pins.Keys == AllPins;
      var arg := PinsToArg(pins);
      return Ok(Pack(Opcode(Check), arg));
    }

    /** `_cmd_set` */
    method CmdSet(args: seq<string>, where: int) returns (r: Result<Instruction, CtpError>)
      requires Valid()
      modifies this`pinState
      ensures Valid()
      ensures (r, pinState) == EncodeSet(old(pinState), args, where)
    {
      var resolved := GetPinVals(args);
      if resolved.Err? {
        return Err(CommandFailed(Set, where, PinList(resolved.error)));
      }
      var pins := resolved.value;
      var todo := pins.Keys;
      while todo != {}
        invariant todo <= pins.Keys
        invariant pinState.Keys == AllPins
        invariant forall p :: p in AllPins ==>
                    pinState[p] == if p in pins && p !in todo then pins[p] else old(pinState)[p]
        decreases todo
      {
        var pin :| pin in todo;
        pinState := pinState[pin := pins[pin]];
        todo := todo - {pin};
      }
      assert pinState == old(pinState) + pins;
      var arg := PinsToArg(pinState);
      return Ok(Pack(Opcode(Set), arg));
    }

    /** `_cmd_vin`: the flag is set before the arguments are checked. */
    method CmdVin(args: seq<string>, where: int) returns (r: Result<Instruction, CtpError>)
      modifies this`vinCalled
      ensures vinCalled
      ensures r == EncodeVin(args, where)
    {
      vinCalled := true;
      var pins := CollectSupply(args, VinPins);
      if pins.None? {
        return Err(CommandFailed(Vin, where, InvalidVinPin));
      }
      var arg := PinsToArg(pins.value);
      return Ok(Pack(Opcode(Vin), arg));
    }

    /** `_cmd_gnd`: the flag is set before the arguments are checked. */
    method CmdGnd(args: seq<string>, where: int) returns (r: Result<Instruction, CtpError>)
      modifies this`gndCalled
      ensures gndCalled
      ensures r == EncodeGnd(args, where)
    {
      gndCalled := true;
      var pins := CollectSupply(args, GndPins);
      if pins.None? {
        return Err(CommandFailed(Gnd, where, InvalidGroundPin));
      }
      var arg := PinsToArg(pins.value);
      return Ok(Pack(Opcode(Gnd), arg));
    }

    /** `parse_line`: dispatch one tokenized line and append its instruction. */
    method ParseLine(args: seq<string>, lineNum: int, commands: seq<Instruction>)
      returns (r: Result<seq<Instruction>, CtpError>)
      requires Valid() && |args| >= 1 && (args[0] == "delay" ==> |args| >= 2)
      modifies this
      ensures Valid()
      ensures var (step, after) := LineStep(old(State()), args, lineNum);
        State() == after && r == if step.Ok? then Ok(commands + [step.value]) else Err(step.error)
    {
      ghost var before := State();
      var cmd := CommandOf(args[0]);
      if cmd.None? {
        return Err(NotACommand(lineNum + 1, args[0]));
      }
      if args[0] != "gnd" && args[0] != "vin" && args[0] != "delay" {
        if !gndCalled {
          warnings := warnings + [NoGround(args[0], lineNum)];
        }
        if !vinCalled {
          warnings := warnings + [NoVin(args[0], lineNum)];
        }
      }
      ghost var warned := if cmd.value == Check || cmd.value == Set
        then before.(warnings := before.warnings + PinWarnings(before, args[0], lineNum)) else before;
      assert State() == warned;
      var instr: Result<Instruction, CtpError>;
      match cmd.value {
        case Check => instr := CmdCheck(args[1..], lineNum);
        case Set => instr := CmdSet(args[1..], lineNum);
        case Vin => instr := CmdVin(args[1..], lineNum);
        case Gnd => instr := CmdGnd(args[1..], lineNum);
        case Delay => instr := EncodeDelay(args[1..], lineNum);
      }
      assert (instr, State()) == LineStep(before, args, lineNum);
      if instr.Err? {
        return Err(instr.error);
      }
      return Ok(commands + [instr.value]);
    }

    /** `parse_code`: compile the lines in order; the first error ends the run. */
    method ParseCode(code: seq<string>) returns (r: Result<seq<Instruction>, CtpError>)
      requires Valid()
      modifies this
      ensures Valid()
      ensures (r, State()) == Compile(old(State()), code)
    {
      var commands: seq<Instruction> := [];
      for lineNum := 0 to |code|
        invariant Valid()
        invariant CompileFrom(State(), code, lineNum, commands) == Compile(old(State()), code)
      {
        var line := code[lineNum];
        var args := Split(Lower(line));
        if |args| > 1 && line[0] != '#' {
          var res := ParseLine(args, lineNum + 1, commands);
          if res.Err? {
            return Err(res.error);
          }
          commands := res.value;
        }
      }
      return Ok(commands);
    }
  }

  /** The loop shared by `_cmd_vin` and `_cmd_gnd`: accept only the listed literals. */
  method CollectSupply(args: seq<string>, valid: map<string, Pin>) returns (r: Option<map<Pin, bool>>)
    ensures r == SupplyPins(args, valid)
  {
    var pins: map<Pin, bool> := map[];
    for i := 0 to |args|
      invariant forall k :: 0 <= k < i ==> args[k] in valid
      invariant pins == SupplyMap(args[..i], valid)
    {
      if args[i] !in valid {
        return None;
      }
      pins := pins[valid[args[i]] := true];
    }
    assert args[..|args|] == args;
    return Some(pins);
  }
}
