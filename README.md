# regexp2gen: the generation interpreter, modelled in Dafny

regexp2gen produces a string that matches a regular expression. It compiles
the pattern with the regexp2 engine, then walks the compiled instruction words
(`syntax.Code.Codes`) from the first to the last. These instructions append
text to an output buffer:

- a literal rune (`One` family);
- a random alphabet rune other than the operand, or any alphabet rune when the operand is `'.'` (`Notone` family);
- a random alphabet rune from a character class (`Set` family);
- a string-table entry (`Multi`);
- the text of an earlier group (`Ref`);
- the boundary filler (`Boundary`, `ECMABoundary`);
- one random alphabet rune (`Nonboundary`, `NonECMABoundary`).

Groups are handled by a stack of nested buffers: `Setmark` opens a group and `Capturemark`/`Getmark` close one.
Every other instruction is skipped.

This project models that core:

- `opcodes.dfy`: the instruction table of `opcodeSize`, with the 43
  `syntax.InstOp` values (`Onerep` = 0 … `NonECMABoundary` = 42) and the
  6-bit `Mask`.
- `runes.dfy`: Go's `rune(x)` truncation to 32 bits, and what
  `bytes.Buffer.WriteRune` stores for a rune (itself when it is a Unicode
  scalar value, U+FFFD otherwise).
- `state.go` → `state.dfy`: the `state` object as class `States.State`.
  - Its `randomRunes` loop is modelled over a random source `States.Rand`.
  - That source is an oracle fixed at construction. `Intn(bound)` reduces the
    oracle's answer for the next draw into `[0, bound)`.
  - The `Draw` specification function gives the output of `randomRunes` as a
    function of the oracle and of how many draws came before.
  - The default alphabet is `printableCharsNoNL`.
- `buffer.go` → `buffer.dfy`: `Buffer` as a class over `Segment` objects (each
  a `bytes.Buffer`), with the segment stack and the capture map. A recorded
  capture is the popped segment itself, as in Go. The invariant `Valid` shows
  that nothing writes to a recorded capture afterwards.
- `gen.go` → `gen.dfy`: two levels.
  - A specification: the machine state `MState`, one iteration `Step` (split
    into `DrawPlan`/`Perform`, `ExecCopy` and `ExecOther`) and the whole walk
    `Run`.
  - The loop of `generate` itself, `Gen.Generate`, over a `Buffer` and a
    `State`. It is proved to return `Run` of the initial state.
  - Go runtime panics (an operand read past the end of `Codes`, a string or
    class table index out of range, `Intn(0)`, an empty mark stack, an unknown
    opcode) are the outcome `Panicked`. The two
    errors `generate` returns are the outcome `Failed`.
- `properties.dfy`: what each instruction family does to the output, and that
  no iteration takes back output already written.
- `walk.dfy`: the properties of the whole walk. On well-laid instruction
  words the walk never meets a layout panic. It also proves four small
  programs: `a{2}a*` writes `aa`, `(a)\1` writes `aa`, a `Set` over a class
  with no usable member fails, and a `Setrep` over such a class with its count
  word missing panics.

The `switch` of `generate` has a case for every one of the 43 opcodes
`opcodeSize` accepts. Its `default` branch (gen.go:299-300) is therefore
unreachable, and the model has no such outcome: `Gen.Exec` is total on
`Opcode`.

Termination of the loop is `Gen.Run`'s `decreases |c.codes| - st.index`,
together with `Gen.Step`'s guarantee that the pointer advances by the
instruction's width, which is at least 1.

## Model

| member | source | states |
|---|---|---|
| Opcodes.OpcodeSize | gen.go:16-35 | defined exactly when the masked opcode is one of the 43 listed, and then 1, 2 or 3 as its list says; `None` is the panic |
| Opcodes.OpcodeSizeIgnoresModifiers | gen.go:17 | adding any multiple of 64 (modifier bits) to the word changes neither the width nor whether it panics |
| Opcodes.Masked | gen.go:95 | `op &= syntax.Mask` leaves a value in `[0, Mask]` that differs from the word by a multiple of 64 |
| Opcodes.DecodeEncode | gen.go:93-95 | decoding an instruction's number gives the instruction back |
| Opcodes.EncodeDecode | gen.go:93-95 | exactly the values 0 to 42 name an instruction, and each names the one whose number it is |
| Runes.RuneOf | gen.go:102 | `rune(x)` lies in the int32 range and is congruent to `x` modulo 2^32 |
| Runes.RuneOfFits | gen.go:102 | `rune(x)` leaves a value that fits in 32 bits unchanged |
| Runes.Written | gen.go:119 | `WriteRune` stores a scalar value as itself and anything else as U+FFFD |
| Runes.WrittenAll | gen.go:185-187 | writing runes one by one stores one character per rune, in order |
| Runes.WrittenAllAppend | gen.go:185-187 | writing `a + b` stores what writing `a` and then `b` stores |
| Runes.RunesOf | state.go:36 | `[]rune(s)` has one rune per character, the character's code point, which `WriteRune` stores back unchanged |
| States.Pick | state.go:26 | the index `Intn(len(chars))` draws lies in `[0, len(chars))` |
| States.Draw | state.go:23-30 | `randomRunes` returns `length` runes, none when `length <= 0` |
| States.DrawFromChars | state.go:26 | every rune `randomRunes` returns is an element of `chars` |
| States.DrawAt | state.go:25-27 | the `j`-th rune is decided by exactly the `j`-th draw after the call starts |
| States.DrawSplit | state.go:25-27 | `m + n` draws are `m` draws followed by `n` draws that continue the stream |
| States.DrawSingleton | state.go:26 | drawing from a one-rune slice repeats that rune |
| States.Rand.constructor | state.go:33 | `rand.New` starts a source that has made no draw; the oracle stands for the seeded generator |
| States.Rand.Intn | state.go:26 | the answer lies in `[0, bound)` and consumes exactly one draw |
| States.State.RandomRunes | state.go:23-30 | the loop returns `Draw` of the stream position at the call and consumes one draw per rune |
| States.ChosenChars | state.go:35-37 | a non-nil `chars` is kept as given; nil gives the 66 runes of `printableCharsNoNL`, with neither `'\n'` nor `'\r'` |
| States.State.constructor | state.go:32-46 | `NewState` stores `debug`, `limit` and the chosen alphabet, sets `boundary` to `' '`, and starts a fresh random source |
| Alphabet.PrintableCharsNoNL | state.go:5-7 | `printableChars` is the default alphabet followed by `"\n\r"` |
| Alphabet.PrintableCharsNoNLHasNoLineBreak | state.go:5-7 | the default alphabet has 66 characters, drops exactly the two trailing ones, and contains neither line terminator |
| Buffers.Segment.constructor | buffer.go:15 | a fresh `bytes.Buffer` is empty |
| Buffers.Segment.WriteRune | gen.go:119 | `bytes.Buffer.WriteRune` appends exactly the stored form of the rune |
| Buffers.Segment.Write | buffer.go:28 | the sink takes all of `p` and reports `len(p)` |
| Buffers.Buffer.constructor | buffer.go:13-19 | `NewBuffer` starts with an empty current segment, no enclosing segment and no capture |
| Buffers.Buffer.WriteRune | gen.go:119 | only the current segment grows, by the written character; the stack and the captures are unchanged |
| Buffers.Buffer.WriteAll | buffer.go:21-37 | the loop appends `p` exactly once to the current segment and returns `len(p)`; an empty `p` appends nothing |
| Buffers.Buffer.Setmark | buffer.go:40-43 | pushes the current segment and continues in a fresh empty one; the stack grows by exactly that text; the captures are unchanged |
| Buffers.Buffer.Pop | buffer.go:47-50 | the parent becomes current again and the stack shrinks by one; the popped segment is neither open nor recorded |
| Buffers.Buffer.Backmark | buffer.go:46-61 | the new current text is the parent's text followed by the popped text; with `capture` the popped segment is recorded under `index`, replacing any earlier one, otherwise the captures are unchanged |
| Buffers.Buffer.Getmark | buffer.go:63-66 | `ok` exactly when `index` was recorded, and then the recorded segment; `nil, false` otherwise |
| Buffers.Buffer.String | gen.go:308 | `buf.String()` is the text of the current segment alone |
| Gen.Filter | gen.go:142-147 | an element is in the result exactly when it is in the input and passes the test; the result is no longer than the input |
| Gen.NotoneChars | gen.go:136-148 | the operand `'.'` allows the whole alphabet; any other operand allows exactly the alphabet members that differ from it |
| Gen.SetChars | gen.go:156-162 | exactly the alphabet members that belong to the class |
| Gen.Count | gen.go:103-116 | the repeat count: 1 for the two-word form, the operand for the three-word form, 0 for the sentinel `MaxInt32`, and the panic when the operand lies past the end |
| Gen.OnePlan | gen.go:101-116 | the operand reading of the `One` family halts exactly when the rune operand, or for the three-word form the count operand, lies past the end, and then with the index panic |
| Gen.NotonePlan | gen.go:121-135 | the operand reading of the `Notone` family halts exactly when the count or the rune operand lies past the end, and then with the index panic |
| Gen.SetPlan | gen.go:153-179 | the operand reading of the `Set` family halts only with the index panic, the table panic or the no-suitable-chars error at its own instruction; the error's description of a three-word form reads its count word, so it panics when that word is missing; when it goes ahead its candidates are not empty, so `Intn(0)` never follows it |
| Gen.DrawPlan | gen.go:101-215 | the operand reading of every drawing instruction halts only with the index panic, the table panic or the no-suitable-chars error at its own instruction |
| Gen.Perform | gen.go:117-120 | carrying out a plan that goes ahead moves the pointer past the instruction; what it writes is `Properties.PerformAppendsCandidates` |
| Gen.ExecMulti | gen.go:184-187 | the `Multi` case moves the pointer past the instruction when it goes ahead; what it writes is `Properties.MultiWritesString` |
| Gen.ExecRef | gen.go:188-197 | the `Ref` case moves the pointer past the instruction when it goes ahead; what it writes is `Properties.RefRepeatsCapture` |
| Gen.ExecBackmark | gen.go:264-275 | closing a group moves the pointer past the instruction when it goes ahead; what it does to the groups is `Properties.BackmarkKeepsOutput` |
| Gen.ExecCopy | gen.go:184-212 | the copying cases move the pointer past the instruction when they go ahead |
| Gen.ExecOther | gen.go:254-298 | the group and no-op cases move the pointer past the instruction when they go ahead; `Properties.OthersOnlyAdvance` shows the no-op cases do nothing else |
| Gen.Exec | gen.go:97-301 | every case of the `switch` that goes ahead moves the pointer past the instruction by the width it is given |
| Gen.Step | gen.go:92-95 | an iteration that continues was on a known opcode and advances the pointer by exactly its `opcodeSize` |
| Gen.StepHaltsHere | gen.go:163-165 | an iteration that fails for want of characters names its own instruction, and one that meets an unknown opcode names a masked value from 43 to 63 |
| Gen.Run | gen.go:92-308 | the whole loop; a failure for want of characters names an instruction at or after the starting one, and an unknown opcode is a masked value from 43 to 63. What it returns is tied to `generate` by `Gen.Generate` |
| Gen.RunDrawn | gen.go:92-302 | the draws made when the walk ends; `Walk.RunDrawnGrows` and `Gen.Generate` state its properties |
| Gen.NotoneCandidates | gen.go:136-148 | the candidate loop of the `Notone` family computes `NotoneChars` |
| Gen.SetCandidates | gen.go:156-162 | the candidate loop of the `Set` family computes `SetChars` |
| Gen.RepeatCount | gen.go:103-116 | the count reading computes `Count` |
| Gen.ChooseOne | gen.go:101-116 | the operand reading of the `One` family computes its plan |
| Gen.ChooseNotone | gen.go:121-148 | the `Notone` family reads the count before the excluded rune, then computes its candidates |
| Gen.ChooseSet | gen.go:153-179 | the `Set` family reads the class, then fails on no candidate without using the count (panicking when the error's description of a three-word form finds no count word), and reads the count only to draw; the result is `SetPlan` |
| Gen.Choose | gen.go:101-215 | the operand reading of every drawing instruction computes `DrawPlan` |
| Gen.WriteRunes | gen.go:118-120 | writing the drawn runes appends `WrittenAll` of them to the current segment and nothing else |
| Gen.Carry | gen.go:117-120 | drawing and writing the planned runes reaches exactly the state `Perform` specifies, or its halt, which consumes no draw |
| Gen.GenerateMulti | gen.go:184-187 | the `Multi` case reaches the state `ExecMulti` specifies |
| Gen.GenerateRef | gen.go:188-197 | the `Ref` case reaches the state `ExecRef` specifies, including its error |
| Gen.GenerateBoundary | gen.go:204-212 | the boundary cases append the filler once |
| Gen.GenerateSetmark | gen.go:262-263 | the `Setmark` case opens a group on the abstract state |
| Gen.GenerateBackmark | gen.go:264-275 | the `Capturemark` and `Getmark` cases reach the state `ExecBackmark` specifies, or its panic |
| Gen.ExecuteDrawing | gen.go:101-183 | the drawing cases reach the state `Perform(DrawPlan(…))` specifies; a halt consumes no draw |
| Gen.ExecuteCopying | gen.go:184-212 | the copying cases reach the state `ExecCopy` specifies |
| Gen.ExecuteOther | gen.go:254-298 | the group and no-op cases reach the state `ExecOther` specifies |
| Gen.Execute | gen.go:97-301 | the whole `switch` reaches the state `Exec` specifies; a halt consumes no draw |
| Gen.StepAt | gen.go:93-302 | one iteration of the loop body reaches the state `Step` specifies; a halt consumes no draw |
| Gen.Generate | gen.go:84-309 | `generate` returns `Run` from the empty buffer at the stream position of the call, and leaves the random source after exactly `RunDrawn` draws |
| Properties.PerformAppendsCandidates | gen.go:117-120 | a drawing instruction panics exactly when it must draw from no candidate. Otherwise it appends exactly `max(count, 0)` characters, each the written form of a candidate, at one draw per character, and leaves the stack and captures alone |
| Properties.PerformSingleton | gen.go:117-120 | drawing from a single candidate always goes ahead and writes that candidate once per draw |
| Properties.PerformNothing | gen.go:108-117 | a count of zero (the sentinel) goes ahead even with no candidate, and writes and draws nothing |
| Properties.OneRepeatsOperand | gen.go:101-120 | `One`, `Onerep` and `Oneloop` write the truncated operand rune exactly `Count` times and still consume one draw per rune |
| Properties.UnboundedLoopWritesNothing | gen.go:101-183 | a three-word `One`, `Notone` or `Set` instruction with the sentinel count `MaxInt32` writes and draws nothing; the `One` and `Notone` forms always go ahead, the `Set` forms exactly when the class index is valid and the class has a usable member |
| Properties.NotoneAvoidsExcluded | gen.go:121-152 | `Notone`, `Notonerep` and `Notoneloop` panic exactly when a rune is asked for and no alphabet member qualifies. Otherwise they append exactly `Count` runes after the unchanged output, one draw each, every one an alphabet member other than the operand (any member when the operand is `'.'`), and leave the stack and captures alone |
| Properties.SetDrawsMembers | gen.go:153-183 | `Set`, `Setrep` and `Setloop` fail exactly when no alphabet member is in the class, even for count 0; otherwise every written rune is an alphabet member in the class |
| Properties.SetFailsWithoutMembers | gen.go:157-165 | for all three `Set` forms, a class with no usable member fails whatever the count says; for `Setrep` and `Setloop` whose count word lies past the end, describing the instruction for the error panics instead |
| Properties.SetExec | gen.go:153-183 | the three `Set` forms carry out the plan `SetPlan` describes |
| Properties.SetGoesAhead | gen.go:166-183 | with a usable member and a readable count, a `Set` form draws `Count` runes from the usable members and appends them |
| Properties.SetWritesMembers | gen.go:153-183 | with a usable member and a readable count, a `Set` form goes ahead and every rune it writes is an alphabet member of the class |
| Properties.SetWritesCount | gen.go:166-183 | for all three `Set` forms with a usable member, exactly `Count` runes are appended after the unchanged output, one draw each, and the stack and captures are unchanged |
| Properties.NonboundaryDrawsOne | gen.go:207-215 | `Nonboundary` and `NonECMABoundary` write exactly one alphabet rune with one draw and leave the groups alone, and panic exactly on an empty alphabet |
| Properties.MultiWritesString | gen.go:184-187 | `Multi` appends its string-table entry verbatim, without drawing |
| Properties.RefRepeatsCapture | gen.go:188-197 | `Ref` fails exactly when the group was never closed; otherwise it appends the captured text and nothing else changes |
| Properties.BoundaryWritesFiller | gen.go:204-212 | `Boundary` and `ECMABoundary` both write the boundary filler once |
| Properties.SetmarkKeepsOutput | gen.go:262-263 | opening a group pushes the current text, starts an empty segment and keeps the flattened output |
| Properties.BackmarkKeepsOutput | buffer.go:46-61 | closing a group panics exactly on an empty stack. Otherwise it pops one level and keeps the flattened output; with `capture` it records exactly the text written since the matching `Setmark` |
| Properties.CloseGroup | gen.go:264-275 | `Capturemark` closes and records under its first operand; `Getmark` closes without recording |
| Properties.OthersOnlyAdvance | gen.go:254-298 | lazy, anchor, jump, branch, count, `Nothing`, `Prune` and `Stop` instructions only move the pointer |
| Properties.StepExtendsOutput | gen.go:92-302 | no iteration takes back output: the old flattened output is a prefix of the new one |
| Properties.StepDrawsForward | gen.go:92-302 | no iteration gives back a draw: the count of draws made only grows |
| Walk.DrawPlanInRange | gen.go:101-183 | a drawing instruction whose operands lie inside `Codes` halts only on a table index or on a class with no usable member |
| Walk.CopyInRange | gen.go:184-212 | a copying instruction with its operand inside `Codes` halts only on a table index or a missing capture, never on a layout panic |
| Walk.OtherInRange | gen.go:262-275 | the group instructions, with their operands inside `Codes`, halt only on an empty mark stack |
| Walk.ExecInRange | gen.go:97-301 | an instruction whose operands lie inside `Codes` never halts on a layout panic |
| Walk.StepInRange | gen.go:92-302 | on well-laid words an iteration never meets a layout panic, and the rest of the words stays well laid |
| Walk.RunInRange | gen.go:92-303 | the walk over well-laid words never reads past the end nor meets an unknown opcode |
| Walk.RunDrawnGrows | gen.go:92-303 | the walk ends with at least the draws it started with |
| Walk.UnknownOpcodePanics | gen.go:32-33 | an unknown opcode the walk reaches ends it with the panic of `opcodeSize` |
| Walk.RepeatWritesTwice | gen.go:101-120 | `a{2}a*` generates exactly `aa`, whatever the random stream |
| Walk.GroupIsRepeated | gen.go:188-197 | `(a)\1` generates exactly `aa`: the backreference repeats the group's text |
| Walk.EmptyClassFails | gen.go:163-165 | the program `Set 0` over a class with no usable member fails with the no-suitable-chars error at instruction 0, whatever the alphabet |
| Walk.EmptyRepeatClassPanics | gen.go:163-165 | the program `Setrep 0`, over a class with no usable member and with no count word, panics in the description of the error |

## Left out

- `Generator.Generate` (gen.go:46-79) compiles the pattern with regexp2, runs `generate` and checks the result with the regexp2 matcher. The regexp2 compiler, parser and matcher are not part of this model. `Gen.Generate` starts from an already compiled `Code`.
- The instruction numbering (`syntax.InstOp`, `syntax.Mask`) comes from the regexp2 syntax package, which is not part of this model. The values used are that package's.
- A character class is seen only through `CharIn`, as an arbitrary predicate. The representation of `syntax.CharSet` is not part of this model.
- `NewGenerator` and the debug output (`fmt.Println`, `hex.Dump`) print or do nothing; they are not modelled. For `printCode`, see the `Gen.Generate` line below. The `debug` and `limit` fields are stored by `NewState`. `generate` reads `debug` (gen.go:85 and gen.go:304) only to decide whether to print the code and the buffer, and that printing is not modelled; it never reads `limit`.
- `math/rand` is an oracle: the `k`-th draw with a given bound is an arbitrary integer, reduced into range. The seeded generator's algorithm is not modelled, so no statement depends on particular random values.
- The buffers hold UTF-8 bytes in Go. The model holds the characters those bytes encode. `Ref` copies bytes, and that is the same as copying the characters, because `WriteRune` already replaced invalid runes by U+FFFD.
- Buffers.Buffer.WriteAll: the retry loop is modelled, but only for a sink that takes everything in one call, as `bytes.Buffer` does. The error return and the partial-write path are not exercised. That path would restart at `p[cnt-1:]` rather than `p[cnt:]`.
- Buffers.Buffer.Backmark: the `error` result is left out because it is always nil here. Go's panic on an empty stack is a precondition of the method, and `Gen.GenerateBackmark` checks it first, so `generate`'s panic appears as the outcome `Panicked(EmptyMarkStack)`.
- The flattened output (enclosing segments, then the current one) is defined and preserved on the abstract state `Gen.MState` (`Gen.Flat`), not as a function of the `Buffer` object.
- Properties.SetDrawsMembers: requires the count operand to be readable; `Properties.SetFailsWithoutMembers` covers a class with no usable member when it is not.
- Gen.SetPlan: regexp2's `Code.OpcodeDescription` is not part of this model. For a `Set` family instruction it is taken to read the opcode, the class and, for `Setrep` and `Setloop`, the count word. At gen.go:164 the class index has already been checked, so the count word is the only read that can fall out of range, and that panic is the only one of the description that is modelled.
- Gen.Generate: with `debug` set, `printCode` (gen.go:37-44) walks the words with `opcodeSize` and `OpcodeDescription` before `generate` starts, and can panic on words the walk would reject later or never reach. That pass is not modelled, so `Gen.Generate` describes a run with `debug` unset, or one in which `printCode` does not panic.
- `a{2,4}` (a repeat followed by a bounded loop writing four characters) is not proved as an example program. It follows from `Properties.OneRepeatsOperand` applied to the `Onerep` and then the `Oneloop` instruction.
