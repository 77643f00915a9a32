# ctp — component tester protocol compiler, modelled in Dafny

`ctp.py` compiles a component-tester protocol into 3-byte tester
instructions. A protocol is a list of text lines. Each line that is
dispatched starts with a command word (`check`, `set`, `vin`, `gnd`,
`delay`) followed by arguments. Every command becomes the bytes
`[opcode, arg % 256, arg / 256]`, a little-endian 16-bit argument.

- For CHECK and SET the argument is a pin mask. Bit `p - 1` stands for
  pin `p`, for pins 1 to 16.
- For VIN and GND the argument is the mask of the supply pins named.
- For DELAY the argument is a time from 0 to 65535.

A pin list such as `on 1 2 off rest` is read left to right. It keeps a
current qualifier (`on` or `off`). A final `rest` gives every pin not yet
named the qualifier in force. Four syntax errors can stop the scan.

SET keeps a pin state across commands. VIN and GND set flags. Those flags
decide whether CHECK and SET lines issue warnings. All three live at
module level in the source, so they carry over from one `parse_code` call
to the next.

The project has one file per part of the compiler:

- `results.dfy`: `Option` and `Result`.
- `text.dfy`: `str.lower`, `str.split` and the part of Python's `int()`
  the compiler relies on.
- `mask.dfy`: the pin type and the bitmask of `_pins_to_arg`. `Mask` is
  the specification. `PinsToArg` is the source's OR loop, proved equal to
  it.
- `resolver.dfy`: `_is_pin` and `_get_pin_vals`.
  - `Resolve` is the scan as a recursive function.
  - `GetPinVals` is the source's loop, proved equal to `Resolve`.
  - `Describes`, `Faulty` and `FaultAt` say independently what a pin list
    means and which token is wrong. The lemmas tie the two views together.
- `encoders.dfy`: the opcode table, the byte packing and the five command
  encoders as functions, with lemmas on when each succeeds and which
  bits it sets.
- `ctp.dfy`: the driver.
  - `LineStep` models `parse_line`. `Compile` models `parse_code`.
  - The `Compiler` class holds the run state as fields. Its methods
    (`CmdCheck`, `CmdSet`, `CmdVin`, `CmdGnd`, `ParseLine`, `ParseCode`)
    follow the source's loops and are proved against those functions.
- `pin_examples.dfy`: the pin numbers, pin lists and masks that
  `test_ctp.py` expects.
- `command_examples.dfy`: the instructions `test_ctp.py` expects of each
  command.
- `program_examples.dfy`: which lines are dispatched, and a four-line
  program compiled end to end.

Where a natural reading of the protocol language and the code differ, the
model follows the code:

- A line is dispatched only when it has two words or more. So a lone
  `delay`, or a lone unknown word, is skipped silently.
- The `#` test looks at the raw first character. So `"  # a b"` is
  dispatched and fails as an unknown command.
- The encoders receive the 1-based line number. The unknown-command error
  adds one more, so it names the line after the offending one.
- Warnings are issued again on every CHECK or SET line while a flag is
  still false, not only the first time.
- The expected bytes in `test_ctp.py` come from an older signature, in
  which the encoders took no line number. The example lemmas supply one.
- `test_ctp.py` passes unsplit strings (`'1 2'`) to `_cmd_vin` and
  `_cmd_gnd`. Those would be iterated character by character, but they
  are rejected either way. The examples use the split word lists.

## Model

| member | source | states |
|---|---|---|
| PinMask.Mask | ctp.py:37-44 | the mask of a pin map is below 2^16 |
| PinMask.MaskBits | ctp.py:37-44 | bit p-1 of the mask is set exactly when the map holds p ↦ true, and no bit at 16 or above is set |
| PinMask.MaskUnique | ctp.py:37-44 | any number below 2^16 with those bits is the mask, so the mask is determined by the pins that are on |
| PinMask.MaskOnlyOn | ctp.py:41-43 | two maps that switch on the same pins have the same mask (false entries and missing keys count alike) |
| PinMask.SetBit | ctp.py:43 | `m \| (1 << i)` has exactly the bits of m plus bit i |
| PinMask.PinsToArg | ctp.py:37-44 | the loop that ORs in the bit of every pin whose value is true, visiting keys in any order, yields Mask |
| PinMask.MaskByBytes | ctp.py:37-44 | the mask equals lo + 256·hi when the low byte holds pins 1-8 and the high byte pins 9-16 |
| Text.Split | ctp.py:201 | `str.split()` yields only non-empty words without whitespace |
| Text.SplitNoUpper | ctp.py:201 | splitting text with no capital letter gives words with none |
| Text.BlankSplit | ctp.py:201-202 | text of whitespace alone splits into no words |
| Text.SplitJoin | ctp.py:201 | splitting words joined by single spaces, followed by whitespace, gives the words back |
| Text.SplitPadded | ctp.py:201-202 | whitespace before the first word does not change the split (so an indented `#` is still a word) |
| Text.SplitJoinWith | ctp.py:201 | `str.split()` treats every run of whitespace as one separator: words separated by any non-empty whitespace runs, with whitespace before and after, split back into those words |
| Text.LowerJoinWith | ctp.py:201 | lower-casing a line lower-cases each word and each separator in place |
| Text.Lower | ctp.py:201 | lower-casing keeps the length, leaves no upper-case ASCII letter and keeps every whitespace character where it was |
| Text.ParseInt | ctp.py:48 | `int()` accepts only text that starts with a sign or a digit, and a negative value only after a minus sign |
| Text.ParseDecimal | ctp.py:48 | `int()` of the decimal numeral of n is n, and of its negation is -n |
| Text.LeadingZero | ctp.py:48 | a leading zero does not change the value `int()` reads, so "01" is pin 1 |
| Resolver.PinNumber | ctp.py:46-50 | `_is_pin`: a word is a pin exactly when `int()` accepts it with a value in 1..16, that value is the pin, and such a word starts with a sign or a digit |
| Resolver.Classify | ctp.py:59-81 | each word is exactly one of ON, OFF, REST, a pin (the one `_is_pin` reads) or invalid, and a pin or invalid word is none of the keywords |
| Resolver.ResolveFrom | ctp.py:58-79 | the scan from token i on, once accepted, keeps every pin already given with its value, and a list ending in REST gives all sixteen pins |
| Resolver.Resolve | ctp.py:55-82 | `_get_pin_vals`: a list ending in REST, once accepted, gives all sixteen pins |
| Resolver.FillRest | ctp.py:69-71 | REST keeps every pin already given and gives every other pin of 1..16 the qualifier |
| Resolver.ResolveSucceeds | ctp.py:55-82 | the resolver succeeds exactly when no token is faulty: a pin or REST before any qualifier, REST not last, a pin given twice, or a token that is neither |
| Resolver.ResolveValues | ctp.py:55-79 | on success each named pin has the nearest preceding qualifier; a final REST gives all 16 keys with the last qualifier for the unnamed pins; otherwise exactly the named pins are keys |
| Resolver.ResolveFirstFault | ctp.py:63-81 | on failure the error is the one of the first faulty token, with REST-not-last checked before the missing qualifier and a duplicate pin before the missing qualifier |
| Resolver.GetPinVals | ctp.py:55-82 | the source's scan loop, with its in-place REST fill, returns Resolve |
| Encoders.Opcode | ctp.py:29-35 | the five opcodes lie in 1..5 |
| Encoders.OpcodesDistinct | ctp.py:29-35 | different commands have different opcodes |
| Encoders.CommandOf | ctp.py:171-180 | a word selects the command of that name, and no command when no command has that name |
| Encoders.Pack | ctp.py:94 | `struct.pack('<BH', op, arg)` is three bytes: the opcode, then arg as a little-endian 16-bit value |
| Encoders.PackArgument | ctp.py:94 | every 3-byte instruction is the packing of its opcode and its argument |
| Encoders.EncodeCheck | ctp.py:84-94 | a CHECK error names CHECK and the line; a resolver error is passed on inside it, and a list that resolves without all sixteen pins fails with "all pins must be given a value" |
| Encoders.CheckFirstFault | ctp.py:84-89 | stated without the scan: CHECK of a list with a faulty token fails with the first faulty token's own resolver error |
| Encoders.CheckMissingPins | ctp.py:90-93 | stated without the scan: CHECK of a list with no faulty token, no final REST and not all sixteen pins named fails with "all pins must be given a value" |
| Encoders.CheckSucceeds | ctp.py:84-94 | CHECK succeeds exactly when no token is faulty and every pin is covered, by a final REST or by naming all sixteen |
| Encoders.CheckBits | ctp.py:84-94 | on success the opcode is 1 and bit p-1 of the argument is the value the pin list gives pin p |
| Encoders.SetMeaning | ctp.py:96-105 | SET succeeds exactly when the resolver does; the new pin state is the old one overridden by the resolved pins, still with 16 keys; the argument is the mask of the whole new state; on error the state is unchanged and the resolver's error is carried |
| Encoders.EncodeSet | ctp.py:96-105 | a SET error names SET and the line |
| Encoders.SupplyBits | ctp.py:125-151 | the supply mask has exactly the bits of the pins the arguments name |
| Encoders.VinSucceeds | ctp.py:125-136 | VIN succeeds exactly when every argument is one of the literals "5", "14", "15", "16" |
| Encoders.VinBits | ctp.py:125-136 | on success the opcode is 3 and the argument's bits are exactly the named pins |
| Encoders.EncodeVin | ctp.py:130-134 | a VIN error is the invalid-vin-pin error of that line |
| Encoders.VinRepeat | ctp.py:130-136 | repeating an argument does not change the VIN result |
| Encoders.GndSucceeds | ctp.py:139-150 | GND succeeds exactly when every argument is one of the literals "8", "12" |
| Encoders.GndBits | ctp.py:139-150 | on success the opcode is 4 and the argument's bits are exactly the named pins |
| Encoders.EncodeGnd | ctp.py:144-148 | a GND error is the invalid-ground-pin error of that line |
| Encoders.SupplyPins | ctp.py:129-134 | the VIN/GND argument scan succeeds exactly when every argument is a valid literal; the pins it yields are exactly those the arguments name, each switched on |
| Encoders.GndRepeat | ctp.py:144-150 | repeating an argument does not change the GND result |
| Encoders.SupplySameTokens | ctp.py:130-134 | the supply pins depend only on which words occur, not on their order or count |
| Encoders.EncodeDelay | ctp.py:153-168 | a DELAY error names DELAY and the line |
| Encoders.DelayNumeral | ctp.py:153-168 | the numeral of n ≤ 65535 encodes as [5, n % 256, n / 256] whose argument reads back as n; a larger n is too large; a negative numeral is refused |
| Encoders.DelayMeaning | ctp.py:153-168 | for any arguments: more than one is too many; one that `int()` refuses is not a number; a value n in 0..65535 encodes as [5, n % 256, n / 256] with argument n; a larger one is too large and a negative one is refused |
| Ctp.LineStep | ctp.py:170-191 | a line's instruction carries the opcode of its first word; an unknown word's error is reported at the line number plus one, an encoder's error at the line number |
| Ctp.Tokens | ctp.py:201 | a line's tokens are non-empty words without whitespace or capital letters |
| Ctp.TokensOfWords | ctp.py:201 | a line's tokens are its words lower-cased, whatever runs of whitespace separate, precede or follow them |
| Ctp.Dispatched | ctp.py:202-204 | a dispatched line has a command word and at least one argument and does not start with `#`; an empty line, a comment line and a line of whitespace are never dispatched |
| Ctp.LineStepEffects | ctp.py:178-191 | an unknown word changes no state; CHECK and SET log the missing-supply warnings each time; VIN and GND set their flag even when their arguments are invalid; only a successful SET changes the pin state |
| Ctp.CheckIgnoresPinState | ctp.py:84-94 | a CHECK line has the same result from any run state and leaves the pin state alone |
| Ctp.CompileFrom | ctp.py:198-206 | the run state stays a full 16-pin state through the lines |
| Ctp.Compile | ctp.py:193-206 | `parse_code` keeps the run state a full 16-pin state, and on success there is one 3-byte instruction per dispatched line, in source order, with that line's opcode |
| Ctp.CompileSkip | ctp.py:200-202 | a line with fewer than two words, or whose first character is `#`, leaves the run as it is |
| Ctp.CompileStep | ctp.py:200-204 | a dispatched line that encodes appends its instruction and hands the new state to the next line |
| Ctp.CompileFromAborts | ctp.py:198-206 | a run from line i that fails stops at a dispatched line numbered m after i: the lines up to m give the same result and state as the whole program, and the error names line m, or m+1 for an unknown word |
| Ctp.CompileAborts | ctp.py:198-206 | on failure some dispatched line, numbered m from one, raised the error: the lines after it change nothing, and the error names line m, or m+1 for an unknown word |
| Ctp.LineStepWarnings | ctp.py:182-191 | the warning log does not affect a line's result or the rest of the state |
| Ctp.WarningsDoNotMatter | ctp.py:182-206 | the warning log never changes the compiled program or the rest of the state |
| Ctp.Compiler.constructor | ctp.py:106-123 | a fresh compiler has all pins off and neither supply declared |
| Ctp.Compiler.CmdCheck | ctp.py:84-94 | the CHECK method, with its coverage loop over pins 1..16, returns EncodeCheck and modifies nothing |
| Ctp.Compiler.CmdSet | ctp.py:96-105 | the SET method merges the resolved pins into the pin-state field and returns EncodeSet of the old state |
| Ctp.Compiler.CmdVin | ctp.py:125-137 | the VIN method sets its flag first and returns EncodeVin |
| Ctp.Compiler.CmdGnd | ctp.py:139-151 | the GND method sets its flag first and returns EncodeGnd |
| Ctp.CollectSupply | ctp.py:129-134 | the VIN/GND argument loop yields the named pins, or nothing at the first invalid argument |
| Ctp.Compiler.ParseLine | ctp.py:170-191 | the object's state after a line is LineStep's, and the instruction is appended to the commands |
| Ctp.Compiler.ParseCode | ctp.py:193-206 | the result and the new object state are Compile of the old state, so the state carries over between calls |
| PinExamples.MaskAllOn | test_ctp.py:46-54 | all sixteen pins on give 0xFFFF |
| PinExamples.MaskNibbles | test_ctp.py:56-63 | pins 5-8 and 13-16 on give 0xF0F0 |
| PinExamples.MaskFirstFour | test_ctp.py:65-69 | pins 1-4 alone give 0x000F |
| PinExamples.PinNumberExamples | test_ctp.py:21-38 | the numerals "1" to "16" are pins 1 to 16 |
| PinExamples.NotPinExamples | test_ctp.py:40-44 | "0", "17", "-1" and "habla" are not pins |
| PinExamples.LeadingZeroPin | ctp.py:46-50 | "05" is pin 5 for `_is_pin`, though it is not one of the VIN literals |
| PinExamples.ResolveOneTwo | test_ctp.py:76-78 | "on 1 2" gives exactly pins 1 and 2, on |
| PinExamples.ResolveOffOneTwo | test_ctp.py:80-83 | "off 1 2" gives exactly pins 1 and 2, off |
| PinExamples.ResolveMixedExample | test_ctp.py:85-88 | "on 1 2 off 3 4" gives pins 1, 2 on and 3, 4 off |
| PinExamples.ResolveRestExample | test_ctp.py:90-98 | "on 1 2 off rest" gives pins 1, 2 on and the other fourteen off |
| PinExamples.ResolveRestOnExample | test_ctp.py:100-108 | "off 1 2 on rest" gives pins 1, 2 off and the other fourteen on |
| PinExamples.ResolveAllOn | test_ctp.py:110-118 | "on rest" gives all sixteen pins on |
| PinExamples.ResolveAllOff | test_ctp.py:120-128 | "off rest" gives all sixteen pins off |
| PinExamples.ResolveErrorExamples | test_ctp.py:130-150 | each rejected pin list fails with its own error |
| CommandExamples.CheckRestExample | test_ctp.py:153-154 | CHECK "on 1 2 off rest" gives 01 03 00 |
| CommandExamples.CheckAllOnExample | test_ctp.py:155-156 | CHECK "on rest" gives 01 FF FF |
| CommandExamples.CheckPartialExample | test_ctp.py:157-158 | CHECK "on 1 2" fails because not every pin is given a value |
| CommandExamples.CheckThreeExample | ctp.py:84-94 | CHECK "on 3 off rest" gives 01 04 00 |
| CommandExamples.SetFirstExample | test_ctp.py:161-162 | SET "on 1 2 off rest" gives 02 03 00 and leaves pins 1, 2 on and the rest off, from any pin state |
| CommandExamples.SetOnOneTwoExample | ctp.py:96-105 | where no pin is on, SET "on 1 2" gives 02 03 00 and adds pins 1 and 2, on, to the pin state |
| CommandExamples.SetAfterAllOffExample | test_ctp.py:164-167 | where no pin is on, SET "on 3 1" gives 02 05 00 |
| CommandExamples.SetAfterAllOnExample | test_ctp.py:169-172 | where every pin is on, SET "off 3 1" gives 02 FA FF |
| CommandExamples.VinFourExample | test_ctp.py:175-176 | VIN "5 14 15 16" gives 03 10 E0 |
| CommandExamples.VinOneExample | test_ctp.py:177-178 | VIN "16" gives 03 00 80 |
| CommandExamples.VinRefusedExamples | test_ctp.py:180-185 | VIN refuses "1 2", "17" and "habla" |
| CommandExamples.GndTwoExample | test_ctp.py:188-189 | GND "8 12" gives 04 80 08 |
| CommandExamples.GndOneExample | test_ctp.py:190-191 | GND "12" gives 04 00 08 |
| CommandExamples.GndEightExample | ctp.py:139-150 | GND "8" gives 04 80 00 |
| CommandExamples.GndRefusedExamples | test_ctp.py:193-198 | GND refuses "1 2", "17" and "habla" |
| CommandExamples.DelayHundredExample | test_ctp.py:201-202 | DELAY 100 gives 05 64 00 |
| CommandExamples.DelayBoundsExample | test_ctp.py:203-206 | DELAY 0 and 65535 give 05 00 00 and 05 FF FF |
| CommandExamples.DelayRangeExamples | test_ctp.py:212-215 | DELAY -1 and 65536 are out of range |
| CommandExamples.DelayRefusedExamples | test_ctp.py:208-211 | DELAY "habla" is not a number and "100 100" is too many values |
| ProgramExamples.LoneWordSkipped | ctp.py:202 | a lone `delay` line is not dispatched |
| ProgramExamples.CommentSkipped | ctp.py:202 | a line starting with `#` is not dispatched |
| ProgramExamples.IndentedHashDispatched | ctp.py:201-202 | an indented `#` line is dispatched with `#` as its command word |
| ProgramExamples.MixedWhitespaceTokens | ctp.py:201 | `"SET \t ON\t1\n"` gives the tokens set, on, 1 |
| ProgramExamples.UnknownWordExample | ctp.py:178-180 | an unknown word fails with the line number plus one and leaves the state alone |
| ProgramExamples.ProgramCompiles | ctp.py:193-206 | the four-line program GND 8, VIN 16, SET ON 1 2, CHECK ON 3 OFF REST compiles to 04 80 00, 03 00 80, 02 03 00, 01 04 00 |
| ProgramExamples.CompileProgram | ctp.py:193-206 | a fresh `Compiler` object's `ParseCode` gives those four instructions |

## Left out

- `main`, option parsing and reading the protocol from a file or from
  standard input. These are I/O.
- `make_file`, which writes `PM1`, the instructions and `END` to a file.
  This is I/O.
- The text and presentation of warnings (`warnings.warn`,
  `_ctp_formatwarning`). Warnings are kept as tagged entries in a log on
  the run state.
- The text of error messages. Errors are a datatype that carries the
  command, the line number and the kind of failure.
- The `TypeError` branch of `_pins_to_arg`. Its argument is a map by type
  here.
- `_is_keyword`, which the compiler never calls.
- Parts of Python's `int()`:
  - Non-ASCII digits are not modelled.
  - Surrounding whitespace is not modelled; tokens from `str.split()`
    never contain any.
  - Signs, ASCII digits and single underscores between digits are
    modelled.
- Parts of `str.lower()`: only ASCII letters are folded. Other characters
  are kept as they are.
- Encoders.EncodeDelay: requires at least one argument. The source reads
  `args[0]` unchecked, and an empty list is unreachable from `parse_code`.
  The same condition appears as `args[0] == "delay" ==> |args| >= 2` on
  Ctp.LineStep and Ctp.Compiler.ParseLine.
- Ctp.LineStep: requires a non-empty token list, which `parse_code`
  always supplies. The source would fail with an index error on an empty
  list.
- The Python failures that are not syntax errors (`IndexError`,
  `TypeError`) are not modelled as results.
- Iteration order of Python dicts is not modelled. `PinsToArg` visits the
  keys in an arbitrary order, and its result does not depend on that
  order.
