/**
 * Line selection, and a sample protocol of four lines (GND 8, VIN 16,
 * SET ON 1 2, CHECK ON 3 OFF REST) compiled from a fresh state.
 */
module ProgramExamples {
  import opened Results
  import opened Text
  import opened PinMask
  import opened Resolver
  import opened Encoders
  import opened Ctp
  import opened PinExamples
  import opened CommandExamples

  /** The sample protocol, one line per command. */
  const Program: seq<string> := ["gnd 8\n", "vin 16\n", "set on 1 2\n", "check on 3 off rest\n"]

  /** The instructions of its four lines. */
  const GndEight: Instruction := [4, 0x80, 0x00]
  const VinSixteen: Instruction := [3, 0x00, 0x80]
  const SetOneTwo: Instruction := [2, 0x03, 0x00]
  const CheckThree: Instruction := [1, 0x04, 0x00]

  /** How the first line splits into lower-case words. */
  lemma ProgramTokens0()
    ensures Tokens(Program[0]) == ["gnd", "8"]
  {
    assert Lower(Program[0]) == Join(["gnd", "8"]) + "\n";
    SplitJoin(["gnd", "8"], "\n");
  }

  lemma ProgramTokens1()
    ensures Tokens(Program[1]) == ["vin", "16"]
  {
    assert Lower(Program[1]) == Join(["vin", "16"]) + "\n";
    SplitJoin(["vin", "16"], "\n");
  }

  lemma ProgramTokens2()
    ensures Tokens(Program[2]) == ["set", "on", "1", "2"]
  {
    assert Lower(Program[2]) == Join(["set", "on", "1", "2"]) + "\n";
    SplitJoin(["set", "on", "1", "2"], "\n");
  }

  lemma ProgramTokens3()
    ensures Tokens(Program[3]) == ["check", "on", "3", "off", "rest"]
  {
    assert Lower(Program[3]) == Join(["check", "on", "3", "off", "rest"]) + "\n";
    SplitJoin(["check", "on", "3", "off", "rest"], "\n");
  }

  /** GND 8: declares the ground pin and changes nothing else. */
  lemma ProgramLine1(st: RunState, lineNum: int)
    requires Consistent(st)
    ensures LineStep(st, ["gnd", "8"], lineNum) == (Ok(GndEight), st.(gndCalled := true))
  {
    var args := ["gnd", "8"];
    assert args[1..] == ["8"];
    GndEightExample(lineNum);
  }

  /** VIN 16: declares the supply pin and changes nothing else. */
  lemma ProgramLine2(st: RunState, lineNum: int)
    requires Consistent(st)
    ensures LineStep(st, ["vin", "16"], lineNum) == (Ok(VinSixteen), st.(vinCalled := true))
  {
    var args := ["vin", "16"];
    assert args[1..] == ["16"];
    VinOneExample(lineNum);
  }

  /** SET ON 1 2 with both supplies declared and no pin on: no warning, pins 1 and 2 on. */
  lemma ProgramLine3(st: RunState, lineNum: int)
    requires Consistent(st) && st.gndCalled && st.vinCalled && forall p: Pin :: !IsOn(st.pinState, p)
    ensures LineStep(st, ["set", "on", "1", "2"], lineNum)
         == (Ok(SetOneTwo), st.(pinState := st.pinState + map[1 := true, 2 := true]))
  {
    var args := ["set", "on", "1", "2"];
    assert args[1..] == ["on", "1", "2"];
    assert st.(warnings := st.warnings + PinWarnings(st, "set", lineNum)) == st;
    SetOnOneTwoExample(st.pinState, lineNum);
  }

  /** CHECK ON 3 OFF REST with both supplies declared: no warning, state unchanged. */
  lemma ProgramLine4(st: RunState, lineNum: int)
    requires Consistent(st) && st.gndCalled && st.vinCalled
    ensures LineStep(st, ["check", "on", "3", "off", "rest"], lineNum) == (Ok(CheckThree), st)
  {
    var args := ["check", "on", "3", "off", "rest"];
    assert args[1..] == ["on", "3", "off", "rest"];
    assert st.(warnings := st.warnings + PinWarnings(st, "check", lineNum)) == st;
    CheckThreeExample(lineNum);
  }

  /** Four dispatched lines with the words of the sample protocol. */
  ghost predicate ExampleLines(code: seq<string>) {
    && |code| == 4
    && Dispatched(code[0]) && Tokens(code[0]) == ["gnd", "8"]
    && Dispatched(code[1]) && Tokens(code[1]) == ["vin", "16"]
    && Dispatched(code[2]) && Tokens(code[2]) == ["set", "on", "1", "2"]
    && Dispatched(code[3]) && Tokens(code[3]) == ["check", "on", "3", "off", "rest"]
  }

  /** The lines of the sample protocol are those four. */
  lemma ProgramLines()
    ensures ExampleLines(Program)
  {
    ProgramTokens0();
    ProgramTokens1();
    ProgramTokens2();
    ProgramTokens3();
  }

  /** The fourth line checks pin 3, and the program ends. */
  lemma ProgramFrom3(st: RunState, code: seq<string>, done: seq<Instruction>)
    requires Consistent(st) && st.gndCalled && st.vinCalled && ExampleLines(code)
    ensures CompileFrom(st, code, 3, done).0 == Ok(done + [CheckThree])
  {
    ProgramLine4(st, 4);
    CompileStep(st, code, 3, done, CheckThree, st);
  }

  /** From the third line on: SET pins 1 and 2, then the CHECK. */
  lemma ProgramFrom2(st: RunState, code: seq<string>, done: seq<Instruction>)
    requires Consistent(st) && st.gndCalled && st.vinCalled && forall p: Pin :: !IsOn(st.pinState, p)
    requires ExampleLines(code)
    ensures CompileFrom(st, code, 2, done).0 == Ok(done + [SetOneTwo] + [CheckThree])
  {
    var next := st.(pinState := st.pinState + map[1 := true, 2 := true]);
    ProgramLine3(st, 3);
    ProgramFrom3(next, code, done + [SetOneTwo]);
    CompileStep(st, code, 2, done, SetOneTwo, next);
  }

  /** From the second line on: VIN 16 first. */
  lemma ProgramFrom1(st: RunState, code: seq<string>, done: seq<Instruction>)
    requires Consistent(st) && st.gndCalled && forall p: Pin :: !IsOn(st.pinState, p)
    requires ExampleLines(code)
    ensures CompileFrom(st, code, 1, done).0 == Ok(done + [VinSixteen] + [SetOneTwo] + [CheckThree])
  {
    ProgramLine2(st, 2);
    ProgramFrom2(st.(vinCalled := true), code, done + [VinSixteen]);
    CompileStep(st, code, 1, done, VinSixteen, st.(vinCalled := true));
  }

  /** The four instructions, one appended after the other. */
  lemma ExpectedInstructions()
    ensures [] + [GndEight] + [VinSixteen] + [SetOneTwo] + [CheckThree]
         == [[4, 0x80, 0x00], [3, 0x00, 0x80], [2, 0x03, 0x00], [1, 0x04, 0x00]]
  {
  }

  /** From the first line, in any state with every pin off. */
  lemma ProgramFrom0(st: RunState, code: seq<string>)
    requires Consistent(st) && forall p: Pin :: !IsOn(st.pinState, p)
    requires ExampleLines(code)
    ensures CompileFrom(st, code, 0, []).0 == Ok([[4, 0x80, 0x00], [3, 0x00, 0x80], [2, 0x03, 0x00], [1, 0x04, 0x00]])
  {
    ProgramLine1(st, 1);
    ProgramFrom1(st.(gndCalled := true), code, [] + [GndEight]);
    CompileStep(st, code, 0, [], GndEight, st.(gndCalled := true));
    ExpectedInstructions();
  }

  /** A fresh run has all sixteen pins, every one off. */
  lemma InitialAllOff()
    ensures Consistent(Initial) && forall p: Pin :: !IsOn(Initial.pinState, p)
  {
  }

  /**
   * The sample protocol compiles, from a fresh state, to one instruction per
   * line: GND 8, VIN 16, SET pins 1 and 2, CHECK pin 3.
   */
  lemma ProgramCompiles()
    ensures Compile(Initial, Program).0 == Ok([[4, 0x80, 0x00], [3, 0x00, 0x80], [2, 0x03, 0x00], [1, 0x04, 0x00]])
  {
    InitialAllOff();
    ProgramLines();
    ProgramFrom0(Initial, Program);
  }

  /** A fresh compiler object turns the sample protocol into its four instructions. */
  method CompileProgram() returns (r: Result<seq<Instruction>, CtpError>)
    ensures r == Ok([[4, 0x80, 0x00], [3, 0x00, 0x80], [2, 0x03, 0x00], [1, 0x04, 0x00]])
  {
    var compiler := new Compiler();
    r := compiler.ParseCode(Program);
    ProgramCompiles();
  }

  /** A line with fewer than two words, such as a lone DELAY, is skipped. */
  lemma LoneWordSkipped()
    ensures !Dispatched("delay\n")
  {
    assert Lower("delay\n") == Join(["delay"]) + "\n";
    SplitJoin(["delay"], "\n");
  }

  /** A line whose first character is `#` is a comment. */
  lemma CommentSkipped()
    ensures !Dispatched("# check on rest\n")
  {
  }

  /**
   * A `#` after leading blanks does not make a comment: the line goes to
   * `parse_line` with `#` as its command word.
   */
  lemma IndentedHashDispatched()
    ensures Tokens("  # check on rest\n") == ["#", "check", "on", "rest"]
    ensures Dispatched("  # check on rest\n")
  {
    IndentedHashLower();
    SplitPadded("  ", ["#", "check", "on", "rest"], "\n");
  }

  /** Runs of tabs and spaces between words, and capitals, do not change the tokens. */
  lemma MixedWhitespaceTokens()
    ensures Tokens("SET \t ON\t1\n") == ["set", "on", "1"]
  {
    MixedWhitespaceLine();
    TokensOfWords("", ["SET", "ON", "1"], [" \t ", "\t"], "\n");
    MixedWhitespaceLower();
  }

  /** That line is three words joined by a space-tab-space run and a tab, then a newline. */
  lemma MixedWhitespaceLine()
    ensures "" + (JoinWith(["SET", "ON", "1"], [" \t ", "\t"]) + "\n") == "SET \t ON\t1\n"
  {
  }

  /** Its words lower-cased. */
  lemma MixedWhitespaceLower()
    ensures LowerAll(["SET", "ON", "1"]) == ["set", "on", "1"]
  {
    assert Lower("SET") == "set" && Lower("ON") == "on" && Lower("1") == "1";
  }

  /** Lower-casing leaves that line as it is. */
  lemma IndentedHashLower()
    ensures Lower("  # check on rest\n") == "  " + (Join(["#", "check", "on", "rest"]) + "\n")
  {
  }

  /** An unknown first word is reported one line past the line's 1-based number. */
  lemma UnknownWordExample(st: RunState, lineNum: int)
    requires Consistent(st)
    ensures LineStep(st, ["#", "check", "on", "rest"], lineNum) == (Err(NotACommand(lineNum + 1, "#")), st)
  {
    assert CommandOf("#") == None;
  }
}
