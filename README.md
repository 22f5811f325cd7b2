# A verified model of a nand2tetris toolchain

This project models, in Dafny, the core of a Python nand2tetris toolchain:

- the VM-to-Hack code generators of projects 7 and 8;
- the VM command parser;
- the three lexers: VM, Hack assembly and Jack;
- the Hack assembler's symbol table, first pass, variable allocation and A-instruction encoding;
- the Jack analyzer's token-to-XML serialiser.

Behaviour is modelled as the code is written, including the paths that raise and the stubs.

## How the model is built

- **Lexers** (`VmLexer`, `HackLexer`, `JackLexer`). Each lexer is a class with the source's fields: the lookahead character, its class, the skip-line flag and the token deque.
  - `_get_char`, `_lex` and `analyze` are methods with `while` loops.
  - The input is the whole text as a `string`, with lines ending in `\n`. A generator position stands in for the file iterator.
  - A ghost `cursor` names the index of the lookahead character.
  - Each method is proved against two pure functions: `LexToken` (or `LexSymbol` for the Hack lexer) for one call of `_lex`, and `Scan` for the whole token list. `analyze` appends exactly `Scan(text, 0)`.
  - The token properties are lemmas about `Scan`: maximal munch, no blank inside a token, one EOF at the end, and the cases that raise `Bad token!`.
- **Token deques** (`Rotation`). The deques are `seq`s. `get_next_token` and `advance` rotate them by one. The lemmas prove that rotating keeps the contents and that `|q|` rotations restore the order.
- **Parsers** (`VmParser`, `HackParser`). Each parser is a class with the source's fields, over the lexer it reads from. `advance` is proved equal to a pure `AdvanceSpec` on the fields and the queue, and the properties are lemmas about `AdvanceSpec`.
- **Assembler.** Both passes share one queue, as in the source. `_first_pass` is a loop proved against `Commands`, the trace of commands the parser yields, and `Labels`, the table it builds. `_get_address` is proved against `Resolve`.
- **Code writers** (`CodeWriter08`, `CodeWriter07`).
  - A code writer is a class holding the label counter and `out`, the lines written so far.
  - A ghost `code` holds the same lines as structured instructions (`HackAsm.Instr`).
  - Every method is proved to append exactly the `...Code` function of its helper.
  - `HackAsm` renders instructions as text and parses the text back, and a lemma proves this round trip is exact.
- **Stack effects.** `HackMachine` is a small 16-bit Hack computer: A, D, a RAM map and a program counter. `StackEffects` runs the emitted code on it and proves what each VM command does to the stack.

## Model

| member | source | states |
|---|---|---|
| CodeWriter08.CodeWriter.constructor | 08/CodeWriter.py:29-31 | the label counter starts at 0 and nothing has been written |
| CodeWriter08.CodeWriter.GetLabel | 08/CodeWriter.py:212-217 | returns `LABEL` followed by the counter in decimal; the counter goes up by one; the name differs from every label drawn before |
| CodeWriter08.LabelNamesDistinct | 08/CodeWriter.py:212-217 | labels drawn at different counter values are different strings |
| CodeWriter08.IssuedLabelsDistinct | 08/CodeWriter.py:212-217 | all labels drawn in one run of a writer are pairwise distinct |
| CodeWriter08.ComparisonCode | 08/CodeWriter.py:61-81 | what `_comparison(jump)` emits with the label counter at `n`: the difference, a jump on it to label `n`, push 0, a jump past to label `n + 1`, then label `n`, push -1 and label `n + 1`; `CodeWriter.Comparison` is proved to append it and StackEffects.ComparisonEffect gives its effect on the machine |
| CodeWriter08.CodeWriter.ACommand | 08/CodeWriter.py:182-185 | appends exactly the line `@value` |
| CodeWriter08.CodeWriter.CCommand | 08/CodeWriter.py:187-198 | with a string comp, appends `dest=comp;jump` with `dest=` and `;jump` only when given; a `None` comp raises InvalidComp and a non-string comp raises, and neither writes anything |
| HackAsm.CLine | 08/CodeWriter.py:187-198 | the line fails exactly when comp is not a string: `None` gives InvalidComp and an integer gives CompNotString |
| CodeWriter08.CodeWriter.C | 08/CodeWriter.py:187-198 | `_c_command` with a string comp cannot fail; it appends the rendered line |
| CodeWriter08.CodeWriter.LCommand | 08/CodeWriter.py:200-204 | appends exactly `(name)` |
| CodeWriter08.CodeWriter.LoadSp | 08/CodeWriter.py:162-166 | appends `@SP`, `A=M` |
| CodeWriter08.CodeWriter.IncSp | 08/CodeWriter.py:168-172 | appends `@SP`, `M=M+1` |
| CodeWriter08.CodeWriter.DecSp | 08/CodeWriter.py:174-178 | appends `@SP`, `M=M-1` |
| CodeWriter08.CodeWriter.PopToDest | 08/CodeWriter.py:155-160 | appends the decrement of SP, then the load of SP, then `dest=M` |
| CodeWriter08.CodeWriter.PushComp | 08/CodeWriter.py:125-130 | appends the load of SP, `M=comp` and the increment of SP |
| CodeWriter08.CodeWriter.PushValue | 08/CodeWriter.py:118-123 | appends `@value`, `D=A`, then the push of D |
| CodeWriter08.CodeWriter.PushMem | 08/CodeWriter.py:132-143 | appends the code that computes `RAM[reg] + offset` and pushes the cell at that address |
| CodeWriter08.CodeWriter.PushReg | 08/CodeWriter.py:145-150 | appends `@reg`, `D=M`, then the push of D |
| CodeWriter08.CodeWriter.Pop | 08/CodeWriter.py:152-153 | `_pop` writes nothing |
| CodeWriter08.CodeWriter.Jump | 08/CodeWriter.py:83-87 | appends `@label` and the C-command with the jump |
| CodeWriter08.CodeWriter.Unary | 08/CodeWriter.py:42-49 | appends a pop into A, `D=comp`, then the push of D |
| CodeWriter08.CodeWriter.Binary | 08/CodeWriter.py:51-57 | appends a pop into D, then the unary sequence for comp |
| CodeWriter08.CodeWriter.Difference | 08/CodeWriter.py:66-68 | appends a pop into D, a pop into A, then `D=A-D` |
| CodeWriter08.CodeWriter.Comparison | 08/CodeWriter.py:61-81 | draws exactly two labels, `n` and `n + 1`, and appends the comparison code built on them |
| CodeWriter08.CodeWriter.Push | 08/CodeWriter.py:91-116 | appends the code of `PushCode(segment, index)`; when that is an exception, writes nothing and returns the exception |
| CodeWriter08.PushCode | 08/CodeWriter.py:91-116 | what `_push(segment, index)` emits, or the error it raises before emitting: constant, the four based segments, pointer, temp, and UnknownSegment otherwise; its cases are PushCodeAccepts and PushCodeErrors, and `CodeWriter.Push` is proved to append it or to fail with it |
| CodeWriter08.CorrectedPushCode | 08/CodeWriter.py:99-103 | `_push` with the pointer test written as `and`: pointer 0 and 1 push THIS and THAT, any other index raises; CorrectedPushPointer and StackEffects.CorrectedPushPointerEffect state it |
| CodeWriter08.PushCodeAccepts | 08/CodeWriter.py:91-116 | push succeeds exactly for constant, argument, local, this and that, and for temp with a numeral index of at most 7 |
| CodeWriter08.PushCodeErrors | 08/CodeWriter.py:104-116 | static raises because `_basename` is never set; a temp index that is not a numeral is invalid; a temp index above 7 is out of range; an unknown segment raises `Unknown segment type` |
| CodeWriter08.PushPointerAlwaysFails | 08/CodeWriter.py:99-103 | push pointer raises `Segment index out of range` for every index, as written |
| CodeWriter08.CorrectedPushPointer | 08/CodeWriter.py:99-103 | with the index test written with `and`, push pointer accepts exactly 0 and 1 and pushes THIS or THAT |
| CodeWriter08.PushConstantLines | 08/CodeWriter.py:118-130 | push constant v emits exactly `@v`, `D=A`, `@SP`, `A=M`, `M=D`, `@SP`, `M=M+1` |
| CodeWriter08.ArithmeticCodeAccepts | 08/CodeWriter.py:305-327 | exactly the nine VM operators are accepted; anything else raises `Unknown command` before any output |
| CodeWriter08.UnaryLinesAsWritten | 08/CodeWriter.py:316-319 | the sixth line of neg is `D=-D` and that of not is `D=!D` |
| CodeWriter08.CodeWriter.WriteArithmetic | 08/CodeWriter.py:305-327 | draws two labels for eq, gt and lt and none otherwise; appends exactly the command's code, or writes nothing and raises |
| CodeWriter08.ArithmeticCode | 08/CodeWriter.py:305-327 | what `write_arithmetic(command)` emits with the label counter at `n`: binary code for add, sub, and and or, unary code for neg and not, a comparison for eq, gt and lt, and UnknownCommand for any other word; ArithmeticCodeAccepts gives its cases, and `CodeWriter.WriteArithmetic` is proved to append it |
| CodeWriter08.CorrectedArithmeticCode | 08/CodeWriter.py:42-49 | `write_arithmetic` with neg and not computed on the popped operand (comp `-A` and `!A`), every other command as written; StackEffects.UnaryCommandCorrected states its effect |
| CodeWriter08.InitLines | 08/CodeWriter.py:221-227 | bootstrap emits exactly `@256`, `D=A`, `@SP`, `M=D` |
| CodeWriter08.CodeWriter.WriteInit | 08/CodeWriter.py:221-227 | appends the bootstrap lines |
| CodeWriter08.LabelLine | 08/CodeWriter.py:229-232 | a label command emits exactly `(L)` |
| CodeWriter08.CodeWriter.WriteLabel | 08/CodeWriter.py:229-232 | appends `(L)` |
| CodeWriter08.GotoLines | 08/CodeWriter.py:234-238 | goto emits exactly `@L`, `0;JMP` |
| CodeWriter08.CodeWriter.WriteGoto | 08/CodeWriter.py:234-238 | appends the goto lines |
| CodeWriter08.IfLines | 08/CodeWriter.py:240-245 | if-goto emits exactly the pop into D, then `@L`, `D;JNE` |
| CodeWriter08.CodeWriter.WriteIf | 08/CodeWriter.py:240-245 | appends the if-goto lines |
| CodeWriter08.CodeWriter.PushFrame | 08/CodeWriter.py:251-255 | appends the push of the return label, then the pushes of LCL, ARG, THIS and THAT, in that order |
| CodeWriter08.CodeWriter.RepositionArg | 08/CodeWriter.py:256-262 | appends the code setting ARG to SP - (n + 5) |
| CodeWriter08.CodeWriter.RepositionLcl | 08/CodeWriter.py:263-266 | appends the code setting LCL to SP |
| CodeWriter08.CodeWriter.WriteCall | 08/CodeWriter.py:247-269 | draws one label, appends the frame, the ARG and LCL set-up and `@f`; it then raises, because the comp is the integer 0, so neither `0;JMP` nor the return label is written |
| CodeWriter08.CorrectedCallLines | 08/CodeWriter.py:267-269 | with the comp given as the string `"0"`, the call writes the same prefix, then `@f`, `0;JMP` and `(return label)` |
| CodeWriter08.CorrectedCallCode | 08/CodeWriter.py:247-269 | `write_call` with the jump comp given as the string `0`: the frame-saving prefix, then `0;JMP` and the return label; CorrectedCallLines states its text and StackEffects.CorrectedCallEffect its effect on the machine |
| StackEffects.FrameEffect | 08/CodeWriter.py:251-255 | the five pushes of the frame run straight through to the state with the return address, LCL, ARG, THIS and THAT pushed in that order |
| StackEffects.SavedFrameRead | 08/CodeWriter.py:251-255 | after the frame is pushed, SP is five higher, the five cells above the old SP hold the return address and the caller's four pointers, and every other cell is kept |
| StackEffects.RepositionArgEffect | 08/CodeWriter.py:256-262 | ARG becomes SP - (n + 5), wrapped to 16 bits, and no other cell changes |
| StackEffects.RepositionLclEffect | 08/CodeWriter.py:263-266 | LCL becomes SP, and no other cell changes |
| StackEffects.CallPrefixEffect | 08/CodeWriter.py:247-267 | the prefix up to `@f` runs straight through: frame, ARG, LCL, then A holds f's address |
| StackEffects.CallPrefixRead | 08/CodeWriter.py:247-267 | after the prefix, SP and LCL are both the old SP + 5, ARG is the old SP - n, the frame sits above the old SP, and every other cell is kept |
| StackEffects.CorrectedCallRuns | 08/CodeWriter.py:247-269 | with the comp `"0"`, 48 steps run the prefix and then jump to f's address |
| StackEffects.CorrectedCallEffect | 08/CodeWriter.py:247-269 | on the machine the corrected call ends at f with SP and LCL at the old SP + 5, ARG at the old SP - n, the return address and the caller's LCL, ARG, THIS and THAT saved above the old SP, and every cell from 3 up outside the frame kept |
| CodeWriter08.CodeWriter.WriteReturn | 08/CodeWriter.py:271-283 | appends only the saving of LCL into FRAME, which is all the unfinished return emits |
| CodeWriter08.Repeat | 08/CodeWriter.py:291-293 | k copies of a fragment are k times as long, and the instruction at position i is the fragment's instruction at i modulo its length |
| CodeWriter08.FunctionCode | 08/CodeWriter.py:287-293 | what `write_function(name, k)` emits: the label, then `k` pushes of constant 0 (none for k of 0 or less); `CodeWriter.WriteFunction` is proved to append it and StackEffects.FunctionEffect gives its effect |
| CodeWriter08.CodeWriter.WriteFunction | 08/CodeWriter.py:287-293 | appends `(f)` followed by one push-0 sequence per local, with the loop invariant proving the count |
| CodeWriter08.CodeWriter.WritePushPop | 08/CodeWriter.py:295-303 | push appends or raises as `_push` does; pop writes nothing; any other command raises `Invalid command` and writes nothing |
| HackAsm.Lines | 08/CodeWriter.py:206-209 | one output line per instruction |
| HackAsm.LinesConcat | 08/CodeWriter.py:206-209 | the text of two fragments written one after the other is the concatenation of their texts |
| HackAsm.RenderRoundTrip | 08/CodeWriter.py:182-204 | a well-formed instruction's line parses back to the same instruction |
| HackAsm.RenderAllRoundTrip | 08/CodeWriter.py:182-204 | the emitted text of well-formed code parses back to exactly that code |
| HackAsm.CRoundTripWithDest | 08/CodeWriter.py:187-198 | a C-command with a dest parses back from its line |
| HackAsm.CRoundTripNoDest | 08/CodeWriter.py:187-198 | a C-command without a dest parses back from its line |
| HackAsm.CompJumpRoundTrip | 08/CodeWriter.py:195-197 | `comp;jump` and `comp` split back into their fields |
| HackAsm.Find | 08/CodeWriter.py:187-198 | the first index holding a character, or None when there is none; used to parse lines back |
| HackAsm.ParseAll | 08/CodeWriter.py:206-209 | parses each line on its own, in order |
| StackEffects.PredefinedPointers | 06/SymbolTable.py:12-17 | the predefined table holds SP, LCL, ARG, THIS and THAT at 0 to 4 |
| StackEffects.DecSpEffect | 08/CodeWriter.py:174-178 | on the machine, the code lowers SP by one and changes nothing else in RAM |
| StackEffects.IncSpEffect | 08/CodeWriter.py:168-172 | on the machine, the code raises SP by one |
| StackEffects.LoadSpEffect | 08/CodeWriter.py:162-166 | the code loads SP into A |
| StackEffects.PopToDEffect | 08/CodeWriter.py:155-160 | a pop into D leaves the top in D and lowers SP by one |
| StackEffects.PopToAEffect | 08/CodeWriter.py:155-160 | a pop into A leaves the top in A and lowers SP by one |
| StackEffects.PushCompEffect | 08/CodeWriter.py:125-130 | the comp's value goes into the cell at SP, and SP goes up by one |
| StackEffects.UnaryEffect | 08/CodeWriter.py:42-49 | the unary code replaces the top with comp's value and leaves SP unchanged |
| StackEffects.BinaryEffect | 08/CodeWriter.py:51-57 | the binary code replaces the two top cells with `op1 comp op2`, where op1 is the deeper operand, and lowers SP by one |
| StackEffects.PushValueEffect | 08/CodeWriter.py:118-123 | the resolved value goes on top and SP goes up by one |
| StackEffects.PushRegEffect | 08/CodeWriter.py:145-150 | the cell the register names goes on top |
| StackEffects.PushMemEffect | 08/CodeWriter.py:132-143 | `RAM[RAM[reg] + offset]` goes on top |
| StackEffects.BinaryCommandEffect | 08/CodeWriter.py:308-315 | add, sub, and and or leave `x + y`, `x - y`, `x & y` and `x | y` modulo 2^16, where x is the deeper operand; SP goes down by one |
| StackEffects.UnaryCommandAsWritten | 08/CodeWriter.py:316-319 | as written, neg and not apply their operation to the stale D register, not to the popped operand |
| StackEffects.NegLeavesWrongValue | 08/CodeWriter.py:42-49 | with 5 on top and 0 in D, neg leaves 0 where -5 belongs |
| StackEffects.UnaryCommandCorrected | 08/CodeWriter.py:42-49 | with comps `-A` and `!A`, neg and not replace the top with its negation or its complement |
| StackEffects.DifferenceEffect | 08/CodeWriter.py:66-68 | the first part of a comparison pops both operands and leaves `op1 - op2` in D |
| StackEffects.ComparisonEffect | 08/CodeWriter.py:61-81 | a comparison lowers SP by one and leaves -1 when `op1 - op2` satisfies the jump and 0 otherwise; control ends just past the code |
| StackEffects.ComparisonWhenTrue | 08/CodeWriter.py:69-81 | when the jump fires, 20 steps leave -1 on top |
| StackEffects.ComparisonWhenFalse | 08/CodeWriter.py:72-81 | when the jump does not fire, 21 steps leave 0 on top |
| StackEffects.ComparisonWithoutOverflow | 08/CodeWriter.py:61-81 | when `op1 - op2` fits in 16 signed bits, the comparison agrees with the VM's signed eq, gt and lt |
| StackEffects.EqualityExact | 08/CodeWriter.py:320-321 | eq is exact for all operands |
| StackEffects.GreaterOverflows | 08/CodeWriter.py:322-323 | gt on 20000 and -20000 gives false, because the difference overflows |
| StackEffects.PushConstantEffect | 08/CodeWriter.py:92-93 | push constant c puts the value of c on top; `@c` keeps its low 15 bits |
| StackEffects.PushSegmentEffect | 08/CodeWriter.py:94-98 | push argument, local, this or that i puts the cell i places above the segment's base on top |
| StackEffects.PushTempEffect | 08/CodeWriter.py:104-112 | push temp i puts `RAM[5 + i]` on top |
| StackEffects.CorrectedPushPointerEffect | 08/CodeWriter.py:99-103 | with the corrected test, push pointer 0 or 1 puts `RAM[3]` or `RAM[4]` on top |
| StackEffects.InitEffect | 08/CodeWriter.py:221-227 | bootstrap sets SP to 256 |
| StackEffects.GotoEffect | 08/CodeWriter.py:234-238 | goto transfers control to the label |
| StackEffects.IfEffect | 08/CodeWriter.py:240-245 | if-goto pops the top and jumps exactly when it is non-zero |
| StackEffects.ZeroFillEffect | 08/CodeWriter.py:291-293 | the locals loop pushes k zeros |
| StackEffects.PushedZerosCells | 08/CodeWriter.py:291-293 | after the zero fill, the k cells from the old SP upwards hold 0; every other cell except SP keeps its value |
| StackEffects.FunctionEffect | 08/CodeWriter.py:287-293 | `function f k` places the label, then k locals initialised to 0; SP grows by k |
| CodeWriter07.LastIndexOf | 07/CodeWriter.py:25 | the last index holding the character, or -1 |
| CodeWriter07.SplitExt | 07/CodeWriter.py:25 | the base and the extension together are the input |
| CodeWriter07.OutputName | 07/CodeWriter.py:23-28 | the output file name; its cases are OutputNameReplacesVm, OutputNameAppends and HiddenVmFile |
| CodeWriter07.OutputNameReplacesVm | 07/CodeWriter.py:23-28 | a `.vm` extension, in any case, is replaced by `.asm` whenever the last path component before it holds a character other than a dot |
| CodeWriter07.OutputNameAppends | 07/CodeWriter.py:23-28 | a name without a `.vm` extension gets `.asm` appended to the whole name |
| CodeWriter07.HiddenVmFile | 07/CodeWriter.py:23-28 | a file named only `.vm` has no extension, so `dir/.vm` becomes `dir/.vm.asm` |
| CodeWriter07.CodeWriter.constructor | 07/CodeWriter.py:23-28 | records the output name; nothing is printed yet |
| CodeWriter07.PushConstantLines | 07/CodeWriter.py:69-75 | push constant v prints exactly `@v`, `D=A`, `@SP`, `A=M`, `M=D`, `@SP`, `M=M+1` |
| CodeWriter07.PushCode | 07/CodeWriter.py:63-75 | what `_push` emits: only constant is accepted, any other segment raises; PushAcceptsOnlyConstant and PushConstantLines state it, and `CodeWriter.Push` is proved to append it or fail with it |
| CodeWriter07.PushAcceptsOnlyConstant | 07/CodeWriter.py:63-67 | push succeeds exactly for constant; any other segment raises `Unknown segment type` |
| CodeWriter07.ArithmeticCodeAccepts | 07/CodeWriter.py:148-170 | the nine operators are accepted; eq, gt, lt and not emit nothing; anything else raises |
| CodeWriter07.ArithmeticCode | 07/CodeWriter.py:148-170 | what `write_arithmetic` emits: the seven commands project 7 knows, UnknownCommand for any other word; ArithmeticCodeAccepts gives its cases and AgreesWithProject8 ties it to the project 8 writer |
| CodeWriter07.AgreesWithProject8 | 07/CodeWriter.py:32-75 | push constant, add, sub, and, or and neg emit the same code as the project-8 writer |
| CodeWriter07.CodeWriter.ACommand | 07/CodeWriter.py:112-115 | prints exactly `@value` |
| CodeWriter07.CodeWriter.CCommand | 07/CodeWriter.py:117-128 | prints `dest=comp;jump` with absent parts omitted; a `None` or non-string comp raises and prints nothing |
| CodeWriter07.CodeWriter.C | 07/CodeWriter.py:117-128 | `_c_command` with a string comp appends its line |
| CodeWriter07.CodeWriter.LoadSp | 07/CodeWriter.py:92-96 | prints `@SP`, `A=M` |
| CodeWriter07.CodeWriter.IncSp | 07/CodeWriter.py:98-102 | prints `@SP`, `M=M+1` |
| CodeWriter07.CodeWriter.DecSp | 07/CodeWriter.py:104-108 | prints `@SP`, `M=M-1` |
| CodeWriter07.CodeWriter.StackToDest | 07/CodeWriter.py:80-85 | prints the pop into dest |
| CodeWriter07.CodeWriter.CompToStack | 07/CodeWriter.py:87-90 | prints the push of comp |
| CodeWriter07.CodeWriter.Unary | 07/CodeWriter.py:48-51 | prints a pop into A, `D=comp`, then the push of D |
| CodeWriter07.CodeWriter.Binary | 07/CodeWriter.py:53-55 | prints a pop into D, then the unary sequence |
| CodeWriter07.CodeWriter.PushConstant | 07/CodeWriter.py:69-75 | prints the push-constant sequence |
| CodeWriter07.CodeWriter.Push | 07/CodeWriter.py:63-67 | prints the push-constant code, or raises for any other segment and prints nothing |
| CodeWriter07.CodeWriter.Pop | 07/CodeWriter.py:77-78 | `_pop` prints nothing |
| CodeWriter07.CodeWriter.WritePushPop | 07/CodeWriter.py:138-146 | push prints or raises as `_push` does; pop prints nothing; any other command raises |
| CodeWriter07.CodeWriter.WriteArithmetic | 07/CodeWriter.py:148-170 | prints exactly the operator's code, or raises and prints nothing |
| VmParser.CommandTable | 07/Parser.py:20-28 | the table gives arity 0 to ten words, 1 to three and 2 to four, and holds no other word |
| VmParser.CommandWordsDistinct | 07/Parser.py:20-28 | no word appears twice, so the three groups are disjoint |
| VmParser.Parser.constructor | 07/Parser.py:11-19 | every field starts as `None` |
| VmParser.Parser.GetNextToken | 07/Parser.py:30-33 | the token and lexeme become those at the front of the queue, which rotates by one; an empty queue fails and changes nothing |
| VmParser.Parser.Nullary | 07/Parser.py:50-53 | the command type is the token kind; arg1 becomes the lexeme only for ARITHMETIC |
| VmParser.Parser.Unary | 07/Parser.py:55-58 | sets the command type, reads one more token, and stores its lexeme in arg1 |
| VmParser.Parser.Binary | 07/Parser.py:60-63 | reads two tokens into arg1 and arg2, storing the raw lexemes with no check on their kind |
| VmParser.Parser.Advance | 07/Parser.py:65-76 | one `advance` gives exactly the fields and queue of `AdvanceSpec` |
| VmParser.AdvanceSpec | 07/Parser.py:65-76 | the fields and token queue after one `advance`; AdvanceReads, AdvanceArguments, AdvanceArgumentsInOrder, AdvanceError and PushWrapsAround state it, and `Parser.Advance` is proved to follow it |
| VmParser.AdvanceReads | 07/Parser.py:65-76 | the queue rotates by the number of tokens read and keeps its contents; the token and lexeme fields hold the last token read |
| VmParser.AdvanceArguments | 07/Parser.py:50-63 | for any non-empty queue, by arity: 0 gives arg1 only for ARITHMETIC; 1 fills arg1 with the lexeme of the token after one rotation; 2 also fills arg2 with the lexeme after two rotations, wrapping around a queue shorter than three; the arguments left unfilled are `None` |
| VmParser.AdvanceArgumentsInOrder | 07/Parser.py:50-63 | with at least three tokens queued, the arguments are exactly the lexemes of the next one or two tokens |
| VmParser.PushWrapsAround | 07/Parser.py:60-63 | for the queue `push`, EOF the second read wraps around: arg1 is EOF's absent lexeme, arg2 is `push`, and EOF is left in front |
| VmParser.AdvanceError | 07/Parser.py:65-76 | the command type is ERROR exactly for an empty queue, an unknown word or an ERROR token; an unknown word leaves both arguments `None` |
| VmParser.ReturnHasNoArgument | 07/Parser.py:50-53 | `return` is a RETURN command with both arguments `None` |
| VmParser.PushConstantExample | 07/Parser.py:60-63 | `push constant 7` gives PUSH, `constant`, `7`, and the queue rotated by three |
| VmParser.Parser.HasMoreCommands | 07/Parser.py:40-43 | holds exactly when the queue is non-empty and its front is not EOF |
| VmParser.Parser.CommandType | 07/Parser.py:78-82 | the recorded command type |
| VmParser.Parser.Arg1 | 07/Parser.py:84-89 | the recorded first argument |
| VmParser.Parser.Arg2 | 07/Parser.py:91-95 | the recorded second argument |
| VmLexer.Lexer.GetNextToken | 07/Lexer.py:42-53 | returns the front token and moves it to the back; an empty queue gives `None` |
| VmLexer.Lexer.PeekNextToken | 07/Lexer.py:55-62 | the front token, or `None` for an empty queue |
| VmLexer.Lexer.HasMoreTokens | 07/Lexer.py:36-40 | holds exactly when the queue is non-empty and its front is not EOF |
| Rotation.RotateOnce | 07/Lexer.py:49-50 | the length is kept and the old front is now last |
| Rotation.RotateOnceKeepsContents | 07/Lexer.py:49-50 | the contents are kept |
| Rotation.RotatedSplits | 07/Lexer.py:42-53 | k rotations give the queue from index k, followed by its first k tokens |
| Rotation.RotatedFullCircle | 07/Lexer.py:42-53 | `len(q)` rotations restore the original order |
| Rotation.RotatedKeepsContents | 07/Lexer.py:42-53 | any number of rotations keeps the length and the contents |
| VmLexer.LookupKeywordIsWordKind | 07/Lexer.py:97-106 | the lookup never gives NUMBER, EOF or ERROR |
| VmLexer.LookupKeywordClasses | 07/Lexer.py:97-106 | ARITHMETIC exactly for the nine operators; IDENTIFIER exactly for words outside the table; IF exactly for `if-goto` |
| VmLexer.LookupKeyword | 07/Lexer.py:97-106 | the kind of a word: ARITHMETIC for the nine arithmetic words, the command keyword tokens for their words, IDENTIFIER otherwise; LookupKeywordIsWordKind and LookupKeywordClasses state it |
| VmLexer.Lexer.constructor | 07/Lexer.py:28-34 | nothing read yet, class EOF, and an empty queue |
| VmLexer.Lexer.GetChar | 07/Lexer.py:75-91 | moves to the next character, or past the rest of the line when the skip flag is set, and sets its class |
| Text.NextLine | 07/Lexer.py:64-73 | the index just past the next newline, or the end of the text |
| VmLexer.Lexer.GetNonBlank | 07/Lexer.py:93-95 | skips to the first non-blank character |
| Text.ScanWhile | 07/Lexer.py:93-95 | the end of the longest run satisfying the predicate |
| Text.ScanWhileUnique | 07/Lexer.py:93-95 | that end is the only index with a run before it and no match at it |
| VmLexer.Lexer.LexWord | 07/Lexer.py:111-119 | reads the longest run of letters, digits, `_` and `.`, and returns it |
| VmLexer.Lexer.LexNumber | 07/Lexer.py:121-126 | reads the longest run of digits and returns it |
| VmLexer.Lexer.LexOther | 07/Lexer.py:128-143 | `//` skips the line and gives nothing; a lone `/` or any other character gives ERROR |
| VmLexer.Lexer.Lex | 07/Lexer.py:108-147 | one call gives exactly the token and position of `LexToken` |
| VmLexer.Lexer.LexStep | 07/Lexer.py:108-147 | one call of `_lex`, stated as its effect on the rest of the scan: nothing yielded leaves the scan unchanged, ERROR ends it, EOF ends it with EOF, and any other token comes first |
| VmLexer.LexToken | 07/Lexer.py:108-147 | one `_lex` never moves backwards |
| VmLexer.LexTokenAdvances | 07/Lexer.py:108-147 | a step that yields nothing or a word or number token moves forward |
| VmLexer.LexTokenMaximal | 07/Lexer.py:111-127 | words and numbers are maximal runs starting after the blanks |
| VmLexer.LexTokenWellFormed | 07/Lexer.py:111-127 | words start with a letter, `_` or `.` and numbers are digits; neither contains a blank |
| VmLexer.ScanStep | 07/Lexer.py:153-165 | one turn of `analyze`: a step yielding nothing continues, ERROR stops with an exception, EOF is appended and stops, anything else is appended |
| VmLexer.Scan | 07/Lexer.py:153-165 | the tokens an `analyze` run collects from an index, and the ERROR token that stops it; ScanStep, ScanTokensWellFormed, ScanEofIsLast, ScanFailsWithoutEof and ScanSucceeds state it, and `Lexer.Analyze` is proved to follow it |
| VmLexer.Lexer.AnalyzeTurn | 07/Lexer.py:157-165 | one turn keeps the queue equal to the tokens scanned so far |
| VmLexer.Lexer.Analyze | 07/Lexer.py:153-165 | appends exactly the scanned tokens and raises `Bad token!` exactly when the scan hit an ERROR |
| VmLexer.ScanTokensWellFormed | 07/Lexer.py:153-165 | every token appended is well formed and none is ERROR |
| VmLexer.ScanEofIsLast | 07/Lexer.py:153-165 | no EOF appears before the last token |
| VmLexer.ScanFailsWithoutEof | 07/Lexer.py:153-165 | the run ends with an EOF exactly when it does not raise |
| VmLexer.ScanSucceeds | 07/Lexer.py:153-165 | after a run that does not raise, the queue ends with its only EOF and holds no ERROR |
| VmLexer.ScanHasNoIf | 07/Lexer.py:128-143 | no IF token is ever produced, because `-` is not a word character |
| VmLexer.WellFormedIsNotIf | 07/Lexer.py:111-120 | no well-formed word is lexed as IF, because a word cannot contain `-` |
| VmLexer.IfGotoFails | 07/Lexer.py:128-143 | `if-goto L` lexes `if` and then raises on `-` |
| HackLexer.Lexer.constructor | 06/Lexer.py:27-33 | nothing read yet, class EOF, an empty deque |
| HackLexer.Lexer.GetChar | 06/Lexer.py:47-63 | moves to the next character, or past the rest of the line when the skip flag is set, and sets its class |
| HackLexer.Lexer.GetNonBlank | 06/Lexer.py:65-67 | skips to the first non-blank character |
| HackLexer.Lexer.LexWord | 06/Lexer.py:72-81 | reads the longest run of letters, digits, `_`, `.`, `$` and `:`, and returns it |
| HackLexer.Lexer.LexNumber | 06/Lexer.py:82-88 | reads the longest run of digits and returns it |
| HackLexer.Lexer.LexOther | 06/Lexer.py:89-104 | `//` skips the line; any other character is a one-character OPERATOR |
| HackLexer.Lexer.Lex | 06/Lexer.py:69-108 | one call gives exactly the symbol and position of `LexSymbol` |
| HackLexer.LexSymbol | 06/Lexer.py:69-108 | one `_lex` never moves backwards |
| HackLexer.LexSymbolAdvances | 06/Lexer.py:69-108 | every step except the final EOF moves forward; EOF is at the end of the text |
| HackLexer.LexSymbolMaximal | 06/Lexer.py:72-101 | identifiers and numbers are maximal runs; `/` without a second `/` is OPERATOR `/`, and the next character is kept as lookahead |
| HackLexer.LexSymbolWellFormed | 06/Lexer.py:72-104 | every symbol produced is well formed |
| HackLexer.WellFormedHasNoBlank | 06/Lexer.py:65-70 | no whitespace appears inside a lexeme |
| HackLexer.ScanStep | 06/Lexer.py:114-126 | one turn of `analyze`: the ERROR branch never occurs; EOF ends the run |
| HackLexer.Scan | 06/Lexer.py:114-126 | the symbols an `analyze` run collects from an index; ScanStep and ScanWellFormed state it, and `Lexer.Analyze` is proved to follow it |
| HackLexer.ScanWellFormed | 06/Lexer.py:114-126 | `analyze` never raises; the deque ends with its only EOF, and every symbol is well formed |
| HackLexer.Lexer.AnalyzeTurn | 06/Lexer.py:118-126 | one turn keeps the deque equal to the symbols scanned so far |
| HackLexer.Lexer.Analyze | 06/Lexer.py:114-126 | appends exactly the scanned symbols |
| HackLexer.SlashExamples | 06/Lexer.py:89-104 | `D/A` gives D, `/`, A, EOF; a comment line gives nothing |
| HackParser.Parser.constructor | 06/Parser.py:19-23 | runs the lexer over the text; both fields start unset |
| HackParser.Parser.GetNextSymbol | 06/Parser.py:26 | the front symbol, moved to the back of the deque; an empty deque gives `None` |
| HackParser.Parser.HasMoreCommands | 06/Parser.py:33-34 | holds exactly when the deque is non-empty and its front is not EOF |
| HackParser.Parser.ParseACommand | 06/Parser.py:25-31 | gives exactly the fields and deque of `ParseASpec` |
| HackParser.ParseASpec | 06/Parser.py:25-31 | `_parse_a_command`: an identifier or a number after `@` gives an A-command with that symbol, anything else raises; AdvanceACommand and AdvanceAFails state it |
| HackParser.Parser.Advance | 06/Parser.py:36-46 | gives exactly the fields and deque of `AdvanceSpec` |
| HackParser.AdvanceSpec | 06/Parser.py:36-46 | the fields, outcome and symbol queue after one `advance`; AdvanceReads, AdvanceACommand, AdvanceAFails, AdvanceLabel, AdvanceCCommand and AdvanceFails state it, and `Parser.Advance` is proved to follow it |
| HackParser.AdvanceReads | 06/Parser.py:36-46 | an `advance` reads two symbols after `@` and one otherwise; the deque keeps its contents |
| HackParser.AdvanceACommand | 06/Parser.py:25-40 | `@` followed by an identifier or a number is an A-command whose symbol is that lexeme |
| HackParser.AdvanceAFails | 06/Parser.py:30-31 | `@` followed by anything else raises and leaves the fields unchanged |
| HackParser.AdvanceLabel | 06/Parser.py:41-42 | `(` gives L_COMMAND, reads only that symbol and leaves `symbol` unchanged |
| HackParser.AdvanceCCommand | 06/Parser.py:45-46 | a non-operator gives C_COMMAND and reads exactly one symbol |
| HackParser.AdvanceFails | 06/Parser.py:36-46 | `advance` raises exactly on an empty deque, an operator other than `@` and `(`, or a bad A-command; a raise leaves the fields unchanged |
| HackParser.LabelDeclarationFails | 06/Parser.py:41-44 | as written, `(L)` parses as an L-command, then a C-command, then raises on `)` |
| HackParser.CorrectedLabel | 06/Parser.py:41-42 | with the label read whole, `(L)` is one L-command naming L |
| HackParser.CorrectedAdvanceSpec | 06/Parser.py:41-42 | `advance` with `(`, a name and `)` read together into an L-command; CorrectedLabel states it |
| SymbolTable.PredefinedRegisters | 06/SymbolTable.py:12-17 | R0 to R15 map to 0 to 15 |
| SymbolTable.PredefinedInRange | 06/SymbolTable.py:12-17 | every predefined address is below 2^15 |
| SymbolTable.SymbolTable.constructor | 06/SymbolTable.py:12-17 | the table starts as the predefined one |
| SymbolTable.SymbolTable.AddEntry | 06/SymbolTable.py:19-22 | afterwards the symbol is present with the new address, and every other entry is unchanged |
| SymbolTable.SymbolTable.Contains | 06/SymbolTable.py:24-29 | holds exactly when the symbol is a key |
| SymbolTable.SymbolTable.GetAddress | 06/SymbolTable.py:31-34 | `None` exactly when the symbol is absent, and its entry otherwise |
| Assembler.Assembler.constructor | 06/Assembler.py:15-18 | builds the parser over the lexed text, the predefined table, and the variable counter at 16 |
| Assembler.Resolve | 06/Assembler.py:60-71 | `_get_address`: a numeral is its value, a known symbol its entry, and an unknown symbol is entered at the next variable address, which moves on by one; ResolveAllocates, ResolveIdempotent and ResolveAllConsecutive state it, and `Assembler.GetAddress` is proved to follow it |
| Assembler.Assembler.GetAddress | 06/Assembler.py:60-71 | gives exactly the address, table and counter of `Resolve` |
| Assembler.ResolveAllocates | 06/Assembler.py:60-71 | a numeral is its own value; only an unknown non-numeral is allocated, at the counter; nothing else changes table or counter |
| Assembler.ResolveIdempotent | 06/Assembler.py:67-71 | a second lookup of the same symbol gives the same address and changes nothing |
| Assembler.ResolveAllConsecutive | 06/Assembler.py:67-70 | distinct new variables get consecutive addresses in order of first use |
| Assembler.Assembler.FirstPass | 06/Assembler.py:26-40 | the table gains each label of the commands parsed, at the count of A- and C-commands before it; a parser exception ends the pass with the entries so far; otherwise the final `advance` reads the EOF, which also sets the command type to C_COMMAND; the variable counter is unchanged |
| Assembler.Assembler.PassStep | 06/Assembler.py:28-38 | one turn of the loop: `advance`, then counting |
| Assembler.Assembler.CountCommand | 06/Assembler.py:30-38 | A- and C-commands count; an L-command enters its symbol at the count so far |
| Assembler.Commands | 06/Assembler.py:28-29 | the fields after each `advance` while `has_more_commands` holds, and where the loop stops; CommandsStep, CommandsTyped and CommandsStopAtEof state it |
| Assembler.Labels | 06/Assembler.py:26-38 | the table after the first pass: each label entered with the number of instructions before it; LabelAddress, LabelsKeep and LabelsSnoc state it |
| Assembler.Tally | 06/Assembler.py:30-38 | one command's bookkeeping: A- and C-commands count, an L-command enters its symbol at the count so far; `Assembler.CountCommand` is proved to follow it |
| Assembler.Instructions | 06/Assembler.py:30-33 | the number of A- and C-commands in a trace, the value `instr_count` reaches; LabelAddress uses it |
| Assembler.LabelAddress | 06/Assembler.py:26-38 | a label maps to the number of A- and C-commands before its last declaration |
| Assembler.LabelsKeep | 06/Assembler.py:26-38 | a symbol no label names keeps its entry, or its absence |
| Assembler.LabelsSnoc | 06/Assembler.py:30-35 | one more command updates the table and count exactly as the loop body does |
| Assembler.CommandsTyped | 06/Assembler.py:36-38 | every command has a type, so `Something went wrong!` is never raised |
| Assembler.CommandsStep | 06/Assembler.py:28-29 | a successful `advance` moves the EOF nearer the front; a failing one ends the trace |
| Assembler.AdvanceProgress | 06/Assembler.py:28-29 | an `advance` that does not raise reads only symbols before the first EOF |
| Assembler.EofIndex | 06/Assembler.py:28 | the index of the first EOF in the deque |
| Assembler.EofIndexUnique | 06/Assembler.py:28 | the first EOF's index is determined |
| Assembler.EofIndexRotated | 06/Assembler.py:28 | reading k symbols before the EOF brings it k places nearer the front |
| Assembler.CommandsStopAtEof | 06/Assembler.py:28 | a pass that does not raise stops with the first EOF at the front, having read every symbol before it |
| Assembler.FirstPassResetsQueue | 06/Assembler.py:39-40 | on the lexer's deque, the final `advance` restores the original order for the second pass |
| HackCode.Bin | 06/Code.py:15 | `bin(n)[2:]` is a non-empty string of binary digits |
| HackCode.BinValue | 06/Code.py:15 | that string denotes n |
| HackCode.LastChars | 06/Code.py:15 | `s[-15:]` has length `min(len(s), 15)` |
| HackCode.LastCharsValue | 06/Code.py:15 | the last k digits denote the value modulo 2^k |
| HackCode.ZFill | 06/Code.py:15 | `zfill(16)` widens to 16 characters |
| HackCode.GenACommand | 06/Code.py:8-15 | `gen_a_command`: the address in binary, cut to its last 15 digits and filled with zeros to 16; GenACommandValue, GenACommandRoundTrip and GenACommandExamples state it |
| HackCode.GenACommandValue | 06/Code.py:8-15 | the encoding is 16 binary digits, the first is 0, and it denotes the address modulo 32768 |
| HackCode.GenACommandRoundTrip | 06/Code.py:8-15 | decoding the encoding of an address below 32768 gives the address back |
| HackCode.GenACommandExamples | 06/Code.py:8-15 | 0 and 5 encode as `0000000000000000` and `0000000000000101` |
| JackTokens.MembersComplete | 10/JackKeyword.py:11-34 | every keyword appears in the list of the 21 members |
| JackTokens.LowerNameIsSpelling | 10/JackKeyword.py:11-34 | each member's name, lowercased, is its Jack spelling |
| JackTokens.SpellingInjective | 10/JackKeyword.py:11-34 | distinct keywords have distinct spellings |
| JackLexer.FindKeyword | 10/JackTokenizer.py:149-156 | the search finds a member whose lowercased name is the lexeme, or shows none matches |
| JackLexer.LookupKeywordIff | 10/JackTokenizer.py:149-156 | the lookup gives k exactly when the lexeme is k's spelling, case-sensitively |
| JackLexer.LookupKeywordNone | 10/JackTokenizer.py:149-156 | the lookup gives `None` exactly when the lexeme is no keyword's spelling |
| JackLexer.LookupKeyword | 10/JackTokenizer.py:149-156 | `_lookup_keyword`: the member whose lower-cased name is the lexeme, or None; LookupKeywordIff and LookupKeywordNone state it |
| JackLexer.WordKind | 10/JackTokenizer.py:169 | the kind of a word token: the keyword it spells, or no kind for an identifier |
| JackLexer.JackTokenizer.constructor | 10/JackTokenizer.py:31-39 | current kind EOF, no current token, an empty deque |
| JackLexer.JackTokenizer.CurrKeyword | 10/JackTokenizer.py:41-49 | the current keyword exactly when the current kind is KEYWORD, `None` otherwise |
| JackLexer.JackTokenizer.CurrSymbol | 10/JackTokenizer.py:51-59 | the current lexeme exactly when the current kind is SYMBOL |
| JackLexer.JackTokenizer.CurrIdentifier | 10/JackTokenizer.py:61-69 | the current lexeme exactly when the current kind is IDENTIFIER |
| JackLexer.JackTokenizer.CurrIntVal | 10/JackTokenizer.py:71-79 | the current lexeme exactly when the current kind is INT_CONST |
| JackLexer.JackTokenizer.CurrStringVal | 10/JackTokenizer.py:81-89 | the current lexeme exactly when the current kind is STRING_CONST |
| JackLexer.JackTokenizer.HasMoreTokens | 10/JackTokenizer.py:91-95 | holds exactly when the deque is non-empty and its front is not EOF |
| JackLexer.JackTokenizer.Advance | 10/JackTokenizer.py:97-107 | returns the front token and moves it to the back; an empty deque gives `None` |
| JackLexer.JackTokenizer.PeekNextToken | 10/JackTokenizer.py:109-116 | the front token, or `None` for an empty deque |
| JackLexer.JackTokenizer.GetChar | 10/JackTokenizer.py:129-143 | moves to the next character, or past the rest of the line, and sets its class; `_` is a letter |
| JackLexer.JackTokenizer.GetNonBlank | 10/JackTokenizer.py:145-147 | skips to the first non-blank character |
| JackLexer.JackTokenizer.LexWord | 10/JackTokenizer.py:161-167 | reads the longest run of letters and digits and returns it |
| JackLexer.JackTokenizer.LexNumber | 10/JackTokenizer.py:170-176 | reads the longest run of digits and returns it |
| JackLexer.JackTokenizer.LexOther | 10/JackTokenizer.py:177-192 | `//` skips the line; a lone `/` or any other character gives ERROR |
| JackLexer.JackTokenizer.Lex | 10/JackTokenizer.py:158-196 | one call gives exactly the token and position of `LexToken` |
| JackLexer.JackTokenizer.LexStep | 10/JackTokenizer.py:158-196 | one call, stated as what it means for the rest of the scan |
| JackLexer.LexToken | 10/JackTokenizer.py:158-196 | one `_lex` never moves backwards |
| JackLexer.LexTokenAdvances | 10/JackTokenizer.py:158-196 | a step that yields nothing, or a token other than EOF and ERROR, moves forward |
| JackLexer.LexTokenMaximal | 10/JackTokenizer.py:161-176 | a word is a maximal run and its kind is the keyword lookup, a keyword member or `None`, never IDENTIFIER; a number is a maximal digit run |
| JackLexer.ScanStep | 10/JackTokenizer.py:202-214 | one turn of `analyze`, as for the VM lexer |
| JackLexer.Scan | 10/JackTokenizer.py:202-214 | the tokens an `analyze` run collects, and the ERROR token that stops it; ScanStep, ScanKinds, ScanEofIsLast, ScanFailsWithoutEof and ScanSucceeds state it, and `JackTokenizer.Analyze` is proved to follow it |
| JackLexer.JackTokenizer.AnalyzeTurn | 10/JackTokenizer.py:206-214 | one turn keeps the deque equal to the tokens scanned so far |
| JackLexer.JackTokenizer.Analyze | 10/JackTokenizer.py:202-214 | appends exactly the scanned tokens and raises `Bad token!` exactly when the scan hit an ERROR |
| JackLexer.ScanKinds | 10/JackTokenizer.py:202-214 | only keyword members, `None`, INT_CONST and EOF are ever appended |
| JackLexer.ScanEofIsLast | 10/JackTokenizer.py:202-214 | no EOF appears before the last token |
| JackLexer.ScanFailsWithoutEof | 10/JackTokenizer.py:202-214 | the run ends with an EOF exactly when it does not raise |
| JackLexer.ScanSucceeds | 10/JackTokenizer.py:202-214 | after a run that does not raise, the deque ends with its only EOF and every kind in it is one the lexer can produce |
| JackLexer.SymbolFails | 10/JackTokenizer.py:14-15 | every entry of `_symbols`, other than the `//` of a comment, makes `analyze` raise |
| Text.Lower | 10/JackTokenizer.py:154 | `str.lower` on ASCII: same length, each letter lowercased |
| Text.LowerChar | 10/JackTokenizer.py:154 | uppercase ASCII letters become lowercase; everything else is unchanged |
| JackAnalyzer.GenXmlSucceeds | 10/JackAnalyzer.py:30-63 | a line is produced exactly for the five serialisable kinds, a keyword needing a keyword member as its lexeme; the line is the element of the kind's tag |
| JackAnalyzer.GenXml | 10/JackAnalyzer.py:30-63 | `_gen_xml`: one element per token, tagged by kind, or an error; GenXmlSucceeds, GenXmlRejects, KeywordLine and PlainLine state it |
| JackAnalyzer.Show | 10/JackAnalyzer.py:50-60 | Python's `str()` of a lexeme, as `format` writes it in the non-symbol elements |
| JackAnalyzer.GenXmlRejects | 10/JackAnalyzer.py:57-59 | EOF, ERROR, keyword members in the kind slot, and `None` all raise `Invalid or unknown token!` |
| JackAnalyzer.KeywordLine | 10/JackAnalyzer.py:33-36 | a keyword is written in its lowercase Jack spelling |
| JackAnalyzer.PlainLine | 10/JackAnalyzer.py:50-60 | identifiers and constants are written unescaped, with their own tags |
| JackAnalyzer.SymbolValue | 10/JackAnalyzer.py:37-49 | a symbol's value: `<`, `>`, `"` and `&` become their XML entities, anything else is written as it is; SymbolRoundTrip and LongSymbolUnescaped state it |
| JackAnalyzer.Unescape | 10/JackAnalyzer.py:37-49 | reading the four entities back; the inverse that SymbolRoundTrip uses |
| JackAnalyzer.SymbolRoundTrip | 10/JackAnalyzer.py:37-49 | a one-character symbol is written without a raw `<`, `>` or `"`; an `&` appears only at the start of an entity; reading the entities back gives the symbol |
| JackAnalyzer.LongSymbolUnescaped | 10/JackAnalyzer.py:37-49 | a symbol lexeme that is not one character passes through unescaped |
| JackAnalyzer.OutputNameReplacesExtension | 10/JackAnalyzer.py:73 | any four-character extension after the dot is replaced by `.xml` |
| JackAnalyzer.OutputName | 10/JackAnalyzer.py:73 | the output name: the input without its last four characters, then `xml`; OutputNameReplacesExtension states it |
| Text.ParseDecimalOfDecimal | 06/Assembler.py:63 | reading back the decimal numeral of n gives n |
| Text.Decimal | 08/CodeWriter.py:215 | the decimal spelling of a number is a numeral |
| Text.DecimalInjective | 08/CodeWriter.py:215 | different numbers have different spellings |
| Text.PrefixedDecimalInjective | 08/CodeWriter.py:215 | with a common prefix, different numbers still give different strings |

## Left out

- File input is replaced by the whole decoded text as a `string`, with lines ending in `\n`. File output and `print` become the sequence `out`. The context-manager methods of the project-8 writer are not modelled.
- The drivers (`VMtranslator.py` in projects 7 and 8, `JackAnalyzer._set_inputs` and `analyze`) and the assembler's output-path handling are not modelled. They are orchestration over `glob`, `os.path` and `open`.
- `__main__` blocks, `display_symbols`, and the script that runs when `06/Lexer.py` is imported are not modelled.
- Character classes cover ASCII only: `isalpha`, `isdecimal` and `isspace` on other Unicode characters are not modelled.
- `int()` is modelled on plain digit strings.
  - Assembler.Resolve: a symbol with a sign, surrounding spaces or underscores is treated as a name. `int()` would accept it, but the Hack lexer never yields such a lexeme.
  - CodeWriter08.PushCode: a temp index that `int()` accepts but that is not a plain digit string (a sign, surrounding whitespace, underscores between digits) gives InvalidSegmentIndex. The source pushes `R(5 + i)` for such an index when its value is 0 to 7, and raises "Segment index out of range" otherwise. The VM lexer never yields such a lexeme: its numbers are digit runs, and its words start with a letter, `_` or `.` and hold no sign or blank.
  - CodeWriter08.PushCodeAccepts, CodeWriter08.PushCodeErrors: the same restriction applies. Their "numeral index" means a plain digit string, so an in-range index with a sign, whitespace or underscores counts as invalid here.
- Stubs are not given behaviour:
  - the pop helpers and the unfinished part of return;
  - `gen_c_command`, `_dest`, `_comp` and `_jump`;
  - the 06 parser's `dest`, `comp` and `jump`.
  - So `_second_pass` and `assemble` are not modelled: every C-command line they write comes from a stub.
- The 06 lexer has no `get_next_symbol` or `has_more_symbols`. The 06 parser reads the lexer's `symbols` deque as the rotating queue the VM lexer implements.
- Some cross-module wiring does not work as written and is not reproduced: the `CommandType` import in `06/Assembler.py`, the extra `self` parameter of `gen_a_command`, and the `tokenize()` call in the analyzer.
- VmParser.Parser.Advance: the exception handler also sets a `_symbol` attribute, which nothing reads. It is not modelled, and the printed message is left out.
- The project-8 token enumeration serves both code writers. The project-7 enumeration lacks PUSH and POP, so `write_push_pop` could not compare against them.
- JackLexer.JackTokenizer: `char_class` is not set in `__init__`, so the model starts it at EOF. `analyze` always calls `_get_char` before reading it.
- JackLexer.JackTokenizer: the `curr_*` fields are never updated by the tokenizer. The accessors are modelled over fields that keep their initial values unless set.
- SymbolTable.SymbolTable: the table dictionary is a class attribute shared by every instance. The model gives each instance its own table, and the assembler builds exactly one.
- Assembler.Assembler.CountCommand: when an L-command's symbol is `None`, the source enters the key `None`. The model leaves the table unchanged, because a `None` key never matches a symbol looked up later.
- CodeWriter07.SplitExt: only `/` separates path components. `os.path.splitext` on Windows also splits at `\`, and that separator is not modelled.
- HackCode.GenACommand: modelled for non-negative addresses only. `bin` of a negative number starts with `-`, and the assembler only passes numerals and allocated addresses.
- CodeWriter08.CodeWriter.WriteCall, CodeWriter08.CodeWriter.WriteFunction: the argument count and the local count are integers here. The parser delivers them as strings, and `num_args + 5` and `range(num_locals)` would raise on a string.
- CodeWriter08.CodeWriter.WriteInit: `_a_command(256)` formats an integer. The model passes the string `"256"`, which gives the same line.
- JackAnalyzer.GenXml: the tokenizer gives word tokens a keyword member or `None` as their kind, so `_gen_xml` raises on every word it receives. `GenXmlRejects` states this rather than correcting the tokenizer.

## Findings

| source | as written | input that shows it | evidently intended | confidence | as-written member | corrected member |
|---|---|---|---|---|---|---|
| 08/CodeWriter.py:42-49 | `_unary` pops the operand into A, then computes `D=-D` or `D=!D` from the stale D register | `push constant 5` then `neg`, with D holding 0: the top becomes 0 | the comp reads the popped operand (`-A`, `!A`), so the top becomes -5 | high; not executed | StackEffects.NegLeavesWrongValue | StackEffects.UnaryCommandCorrected |
| 08/CodeWriter.py:99-103 | `index != "0" or index != "1"` holds for every index, so push pointer always raises | `push pointer 0` | push pointer 0 and 1 push THIS and THAT | high; not executed | CodeWriter08.PushPointerAlwaysFails | CodeWriter08.CorrectedPushPointer |
| 08/CodeWriter.py:268 | the comp of the jump is the integer 0, and appending it to the line raises a TypeError | any `call f n` | `0;JMP` followed by the return label | high; not executed | CodeWriter08.CodeWriter.WriteCall | CodeWriter08.CorrectedCallLines |
| 06/Parser.py:41-44 | `(` records L_COMMAND without reading the label name; the name is then taken for a C-command, and `)` raises | `(LOOP)` | `(`, the name and `)` read as one L-command naming the label | high; not executed | HackParser.LabelDeclarationFails | HackParser.CorrectedLabel |
