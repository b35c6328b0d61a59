# A verified model of a bytecode assembler, disassembler and two interpreters

This project models a small bytecode toolchain in Dafny. The toolchain has five parts.

- **The assembler** (`BytecodeAssembler`) turns the actions of a generated parser into a code buffer. Each instruction is one opcode byte, followed by one 4-byte big-endian word per operand. The assembler also keeps:
  - a constant pool of floats, strings and function symbols, searched with Java equality;
  - a label table with back-patching of forward references.
- **The instruction table** (`BytecodeDefBase`, `BytecodeDefinition`) maps every opcode to a mnemonic and its operand kinds.
- **The disassembler** (`DisAssembler`) decodes the code buffer back into mnemonics and operand text.
- **The stack interpreter** (`StackInterpreter`) runs a fetch-decode-execute cycle over one operand stack shared by all calls. Each call has a frame of locals.
- **The register interpreter** (`RegInterpreter`, `InterpreterBase`, `StackFrame`) gives every call its own register file. `r0` holds the return value, and the arguments start at `r1`.

The pure parts are datatypes, functions and lemmas:
- byte and word encoding, decimal text, instruction descriptors, function symbols and the constant pool;
- instruction semantics as functions on a `State`;
- bounded runs (`Run`).

The parts that change state in place are classes whose methods are proved against those functions:
- the assembler with its growing `code` array;
- the label symbol;
- the disassembler;
- both interpreters, with their operand, call and register arrays.

Every engine method ensures `Follows(F(old state), fault)`, where `F` is the pure function of its instruction. The class invariant is preserved by every step.

All host exceptions are one fault, `HostException`: an array index out of bounds, a `null` dereference, a failed cast, a negative array size. The interpreters' own error is `InvalidOpcode(opcode, at)`.

For an unknown mnemonic, `gen` reports the name and writes no opcode byte. The operand words are still written, and the model does the same.

## Model

| member | source | states |
|---|---|---|
| Encoding.WriteInt | lip-ch10/asm/src/org/jcm/asm/BytecodeAssembler.java:64-69 | the four bytes at `index` become the big-endian encoding of `value`; no other byte changes |
| Encoding.GetIntEncodeInt | lip-ch10/asm/src/org/jcm/asm/BytecodeAssembler.java:56-69 | `getInt` of the bytes `writeInt` produces is the value written, negative values included |
| Encoding.EncodeIntGetInt | lip-ch10/asm/src/org/jcm/asm/BytecodeAssembler.java:56-69 | re-encoding the word read from any four bytes gives back those bytes |
| Encoding.GetIntSplice | lip-ch10/asm/src/org/jcm/asm/BytecodeAssembler.java:56-69 | a word written into memory at an index is read back at that index |
| Encoding.GetIntLocal | lip-ch10/asm/src/org/jcm/asm/BytecodeAssembler.java:56-62 | the word at an index depends only on the four bytes there |
| Encoding.Wrap32 | lip-ch10/asm/src/org/jcm/reg/StackFrame.java:22 | the Java `int` a sum evaluates to: in the signed 32-bit range, congruent to the sum modulo 2^32, and the sum itself when it fits |
| Encoding.SignedByte | lip-ch10/asm/src/org/jcm/asm/DisAssembler.java:43 | a code byte read as a Java `byte`: in `-128..127` and congruent to the stored byte modulo 256 |
| Encoding.LowByte | lip-ch10/asm/src/org/jcm/asm/BytecodeAssembler.java:65-68 | the `(byte)` narrowing: the byte congruent to the value modulo 256 |
| Encoding.EncodeInt | lip-ch10/asm/src/org/jcm/asm/BytecodeAssembler.java:64-69 | four bytes; `GetIntEncodeInt` and `EncodeIntGetInt` prove it the inverse of `GetInt` |
| Encoding.GetInt | lip-ch10/asm/src/org/jcm/asm/BytecodeAssembler.java:56-62 | no contract of its own: `GetIntEncodeInt`, `EncodeIntGetInt` and `GetIntLocal` state what it reads |
| Encoding.Splice | lip-ch10/asm/src/org/jcm/asm/BytecodeAssembler.java:64-69 | the length is kept, the window holds `EncodeInt(value)`, and every byte outside the window is unchanged |
| Encoding.AppendWord | lip-ch10/asm/src/org/jcm/asm/BytecodeAssembler.java:194-196 | a word written just past a kept prefix leaves the memory, up to the end of the word, equal to the prefix followed by the encoding of the word |
| Decimal.ParseIntToString | lip-ch10/asm/src/org/jcm/asm/BytecodeAssembler.java:171-173 | `Integer.parseInt` accepts `String.valueOf(v)` and returns `v`, for every int |
| Decimal.NatToString | lip-ch10/asm/src/org/jcm/asm/DisAssembler.java:59-66 | at least one character, all decimal digits, no leading zero |
| Decimal.DigitsOfNat | lip-ch10/asm/src/org/jcm/asm/DisAssembler.java:59-66 | the digits `NatToString(n)` gives have the value `n` |
| Decimal.IntToString | lip-ch10/asm/src/org/jcm/asm/DisAssembler.java:59-66 | `String.valueOf(int)`: non-empty, and starting with `-` exactly when the value is negative; `ParseIntToString` proves `parseInt` reads it back |
| Decimal.ParseInt | lip-ch10/asm/src/org/jcm/asm/BytecodeAssembler.java:171-173 | no contract of its own: `ParseIntToString` states that it inverts `String.valueOf` on every int |
| Decimal.IsJavaInt | lip-ch10/asm/src/org/jcm/asm/BytecodeAssembler.java:172 | no contract of its own: the text `Integer.parseInt` accepts without throwing, an optional sign and ASCII digits whose value is an int; `ParseIntToString` proves every `String.valueOf` text is in it |
| InstructionSet.Instruction3 | lip-ch10/asm/src/org/jcm/asm/BytecodeDefBase.java:19-25 | a well-formed descriptor with that name, arity 3 and operand kinds `[a, b, c]` |
| InstructionSet.Instruction2 | lip-ch10/asm/src/org/jcm/asm/BytecodeDefBase.java:18 | a well-formed descriptor with that name, arity 2 and the given first two kinds |
| InstructionSet.Instruction1 | lip-ch10/asm/src/org/jcm/asm/BytecodeDefBase.java:17 | a well-formed descriptor with that name, arity 1 and the given first kind |
| InstructionSet.Instruction0 | lip-ch10/asm/src/org/jcm/asm/BytecodeDefBase.java:16 | a well-formed descriptor with that name and arity 0 |
| InstructionSet.TableLayout | lip-ch10/asm/src/org/jcm/asm/BytecodeDefinition.java:14-21 | slot 0 is the reserved invalid entry; opcode `INSTR_ADD` = 1 is `iadd` with three register operands; every entry is well formed |
| InstructionSet.KindsDistinct | lip-ch10/asm/src/org/jcm/asm/BytecodeDefBase.java:6-9 | the pool kind is distinct from the register, function and integer token types |
| Symbols.NameOnly | lip-ch10/asm/src/org/jcm/asm/FunctionSymbol.java:17 | the name-only symbol has that name, and arguments, locals and address all 0 |
| Symbols.PoolEqualsEquivalence | lip-ch10/asm/src/org/jcm/asm/FunctionSymbol.java:29-32 | the equality the pool searches with is reflexive, symmetric and transitive |
| Symbols.EqualsIgnoresAllButName | lip-ch10/asm/src/org/jcm/asm/FunctionSymbol.java:29-32 | two function symbols are equal exactly when their names are; a stub equals the full symbol |
| Symbols.HashConsistentWithEquals | lip-ch10/asm/src/org/jcm/asm/FunctionSymbol.java:26-32 | equal symbols have equal `hashCode` |
| Symbols.FunctionEquals | lip-ch10/asm/src/org/jcm/asm/FunctionSymbol.java:29-32 | no contract of its own: `EqualsIgnoresAllButName` states that it holds exactly when the names agree |
| Symbols.PoolEquals | lip-ch10/asm/src/org/jcm/asm/BytecodeAssembler.java:200-201 | no contract of its own: the `equals` that `indexOf` applies; `PoolEqualsEquivalence` proves it an equivalence and `EqualsIgnoresAllButName` states its function case |
| Symbols.StringHash | lip-ch10/asm/src/org/jcm/asm/FunctionSymbol.java:27 | no contract of its own: `HashConsistentWithEquals` states that symbols equal by name hash alike |
| Symbols.HashCode | lip-ch10/asm/src/org/jcm/asm/FunctionSymbol.java:27 | no contract of its own: `HashConsistentWithEquals` states that it agrees with `equals` |
| ConstantPool.IndexOf | lip-ch10/asm/src/org/jcm/asm/BytecodeAssembler.java:200-201 | the first index holding an equal entry, or -1 when no entry is equal |
| ConstantPool.IndexOfFirst | lip-ch10/asm/src/org/jcm/asm/BytecodeAssembler.java:200-201 | an equal entry with no equal entry before it is the one `indexOf` finds |
| ConstantPool.GetOrInsert | lip-ch10/asm/src/org/jcm/asm/BytecodeAssembler.java:199-206 | returns an index holding an equal entry, the first such; the pool changes exactly when no entry was equal, and then `o` is appended at index `size-1` |
| ConstantPool.GetOrInsertIdempotent | lip-ch10/asm/src/org/jcm/asm/BytecodeAssembler.java:199-206 | inserting the same constant a second time changes nothing and returns the same index |
| ConstantPool.EqualConstantsShareIndex | lip-ch10/asm/src/org/jcm/asm/BytecodeAssembler.java:199-206 | equal constants receive the same index, and the second adds nothing |
| ConstantPool.DistinctConstantsDistinctIndices | lip-ch10/asm/src/org/jcm/asm/BytecodeAssembler.java:199-206 | unequal constants never share an index |
| ConstantPool.GetOrInsertKeepsDistinct | lip-ch10/asm/src/org/jcm/asm/BytecodeAssembler.java:199-206 | a pool without duplicates stays without duplicates |
| ConstantPool.IndexStableUnderAppend | lip-ch10/asm/src/org/jcm/asm/BytecodeAssembler.java:199-206 | an index once found stays valid as the pool grows at the end |
| ConstantPool.FunctionIndex | lip-ch10/asm/src/org/jcm/asm/BytecodeAssembler.java:229-238 | returns the index of a function with that name; a name-only stub is appended exactly when none exists |
| ConstantPool.DefineInPool | lip-ch10/asm/src/org/jcm/asm/BytecodeAssembler.java:121-127 | an entry with the function's name is overwritten in place; otherwise the function is appended; no other entry changes |
| ConstantPool.DefineInPoolHoldsDefinition | lip-ch10/asm/src/org/jcm/asm/BytecodeAssembler.java:121-127 | after a definition, looking the name up finds the full symbol, at the same index as before when there was one |
| ConstantPool.DefineInPoolKeepsDistinct | lip-ch10/asm/src/org/jcm/asm/BytecodeAssembler.java:121-127 | defining a function keeps the pool free of duplicates |
| ConstantPool.ForwardFunctionReference | lip-ch10/asm/src/org/jcm/asm/BytecodeAssembler.java:114-128 | a call before `.def f` gets a stub's index; the definition completes exactly that entry without growing the pool, and later look-ups return the same index |
| Labels.PatchSites | lip-ch10/asm/src/org/jcm/asm/LabelSymbol.java:50-52 | the loop writes the value at every site in list order, which is `PatchAll` of the old code |
| Labels.PatchAllFrame | lip-ch10/asm/src/org/jcm/asm/LabelSymbol.java:46-53 | a byte outside every patched window keeps its value |
| Labels.PatchAllKeepsWord | lip-ch10/asm/src/org/jcm/asm/LabelSymbol.java:46-53 | a word that overlaps no patched window reads the same after patching |
| Labels.SpliceKeepsWord | lip-ch10/asm/src/org/jcm/asm/BytecodeAssembler.java:64-69 | `writeInt` at one window leaves a disjoint word unchanged |
| Labels.PatchAllHoldsAt | lip-ch10/asm/src/org/jcm/asm/LabelSymbol.java:46-53 | when the windows do not overlap, each patched site reads back the label's address |
| Labels.PatchAllHolds | lip-ch10/asm/src/org/jcm/asm/LabelSymbol.java:46-53 | every site of a list of separate windows holds the address after patching |
| Labels.AddReference | lip-ch10/asm/src/org/jcm/asm/LabelSymbol.java:39-44 | the list is created if missing and gains the site at its end; nothing else changes |
| Labels.PatchAll | lip-ch10/asm/src/org/jcm/asm/LabelSymbol.java:46-53 | keeps the length; `PatchAllFrame`, `PatchAllKeepsWord` and `PatchAllHolds` state what it changes |
| Labels.ForwardLabel | lip-ch10/asm/src/org/jcm/asm/LabelSymbol.java:29-37 | forward, address 0, `isDefined` at its default, and the site as the only pending reference |
| Labels.LabelSymbol.Named | lip-ch10/asm/src/org/jcm/asm/LabelSymbol.java:20-22 | the field initialisers: address 0, not forward, defined, no list |
| Labels.LabelSymbol.At | lip-ch10/asm/src/org/jcm/asm/LabelSymbol.java:24-27 | defined at the given address, not forward, no list |
| Labels.LabelSymbol.constructor | lip-ch10/asm/src/org/jcm/asm/LabelSymbol.java:29-37 | a forward symbol keeps address 0 and records the address as its only pending site; otherwise it is defined there; `isDefined` starts true either way |
| Labels.LabelSymbol.AddForwardReference | lip-ch10/asm/src/org/jcm/asm/LabelSymbol.java:39-44 | the symbol's pending sites gain one at the end, creating the list if needed |
| Labels.LabelSymbol.ResolveForwardReferences | lip-ch10/asm/src/org/jcm/asm/LabelSymbol.java:46-53 | clears `isForwardRef` and patches every pending site with the address; nothing else in the symbol changes |
| Assembler.BuildOpcodeMapping | lip-ch10/asm/src/org/jcm/asm/BytecodeAssembler.java:45-47 | every entry from index 1 on is found under its lower-cased name; each key maps to an entry with that name, and to the last one when names repeat |
| Assembler.LowerChar | lip-ch10/asm/src/org/jcm/asm/BytecodeAssembler.java:46 | never an upper-case ASCII letter; an upper-case letter becomes its lower-case partner, any other character is kept |
| Assembler.ToLower | lip-ch10/asm/src/org/jcm/asm/BytecodeAssembler.java:46 | the same length, with each character lower-cased |
| Assembler.ToLowerIdempotent | lip-ch10/asm/src/org/jcm/asm/BytecodeAssembler.java:46 | lower-casing a lower-cased name changes nothing |
| Assembler.BytecodeAssembler.constructor | lip-ch10/asm/src/org/jcm/asm/BytecodeAssembler.java:29-48 | 1024 zero bytes of code, `ip` 0, an empty pool and label table, no `main`, and the opcode map built as above |
| Assembler.RegisterNameRoundTrip | lip-ch10/asm/src/org/jcm/asm/BytecodeAssembler.java:240-246 | `getRegisterNumber("r" + N)` is N for every int N |
| Assembler.GetRegisterNumber | lip-ch10/asm/src/org/jcm/asm/BytecodeAssembler.java:240-246 | no contract of its own: `RegisterNameRoundTrip` states that `"r" + N` gives back N |
| Assembler.LabelLookup | lip-ch10/asm/src/org/jcm/asm/BytecodeAssembler.java:208-227 | an unknown label becomes forward with this site pending; a forward label gains this site; both yield 0; a defined label yields its address and the table is unchanged |
| Assembler.DefineView | lip-ch10/asm/src/org/jcm/asm/BytecodeAssembler.java:132-152 | a new or forward label becomes defined at `ip`, keeping its pending sites; a defined one leaves the table unchanged; other labels are untouched |
| Assembler.AppendKeepsSites | lip-ch10/asm/src/org/jcm/asm/BytecodeAssembler.java:194-196 | emitting code past `ip` keeps every recorded site holding what it held |
| Assembler.LabelOperandKeepsSites | lip-ch10/asm/src/org/jcm/asm/BytecodeAssembler.java:183-185 | a label operand keeps the invariant that forward sites hold 0 and resolved sites hold the address |
| Assembler.DefineLabelKeepsSites | lip-ch10/asm/src/org/jcm/asm/BytecodeAssembler.java:132-152 | defining a forward label and patching its sites keeps the site invariant for every label, others included, because no two sites overlap |
| Assembler.Unresolved | lip-ch10/asm/src/org/jcm/asm/BytecodeAssembler.java:105-112 | exactly the labels whose `isDefined` is false |
| Assembler.BytecodeAssembler.EnsureCapacity | lip-ch10/asm/src/org/jcm/asm/BytecodeAssembler.java:157-164 | an index at or past the end makes a new array of twice the index, holding the old bytes with zeros after them; otherwise the array is kept |
| Assembler.BytecodeAssembler.Gen | lip-ch10/asm/src/org/jcm/asm/BytecodeAssembler.java:74-88 | a known mnemonic, looked up as written, emits its opcode's low byte at `ip` and advances `ip` by one; an unknown one is reported with its line and nothing is emitted; the code up to `ip` is the old code followed by `OpcodeBytes` |
| Assembler.BytecodeAssembler.Gen1 | lip-ch10/asm/src/org/jcm/asm/BytecodeAssembler.java:90-93 | the code up to `ip` is the old code, then the opcode byte when the mnemonic is known, then the encoding of the operand's word; an unknown mnemonic adds one diagnostic; the pool and labels are those the operand's look-up gives |
| Assembler.BytecodeAssembler.Gen2 | lip-ch10/asm/src/org/jcm/asm/BytecodeAssembler.java:95-98 | the code up to `ip` is the old code, the opcode byte when known, then the encodings of both operand words, the second looked up in the pool and labels the first left; one diagnostic for an unknown mnemonic; the final pool and labels |
| Assembler.BytecodeAssembler.Gen3 | lip-ch10/asm/src/org/jcm/asm/BytecodeAssembler.java:100-103 | as `Gen2`, with three operand words, each looked up in the pool and labels the previous ones left |
| Assembler.BytecodeAssembler.GenOperand | lip-ch10/asm/src/org/jcm/asm/BytecodeAssembler.java:166-197 | the code up to `ip` is the old code followed by the big-endian encoding of the word the operand denotes; `ip` advances by 4; the pool and labels change as the operand's look-up says |
| Assembler.OpcodeBytes | lip-ch10/asm/src/org/jcm/asm/BytecodeAssembler.java:74-88 | the opcode's low byte for a known mnemonic, no byte for an unknown one |
| Assembler.OperandWord | lip-ch10/asm/src/org/jcm/asm/BytecodeAssembler.java:166-192 | no contract of its own: `GenOperand` and `EvalOperand` are proved to write exactly this word for every operand type |
| Assembler.OperandPool | lip-ch10/asm/src/org/jcm/asm/BytecodeAssembler.java:177-188 | the pool only grows, by at most one entry, keeping every old entry in place; literals, registers and labels leave it as it was |
| Assembler.OperandLabels | lip-ch10/asm/src/org/jcm/asm/BytecodeAssembler.java:183-185 | the table gains at most the operand's own name, and every other label is unchanged |
| Assembler.BytecodeAssembler.GenLabelOperand | lip-ch10/asm/src/org/jcm/asm/BytecodeAssembler.java:183-185 | the word written and the new label table are `LabelLookup` at this site |
| Assembler.BytecodeAssembler.GenValueOperand | lip-ch10/asm/src/org/jcm/asm/BytecodeAssembler.java:170-192 | the word written and the new pool are those of the operand's `switch` case |
| Assembler.BytecodeAssembler.EmitWord | lip-ch10/asm/src/org/jcm/asm/BytecodeAssembler.java:194-196 | after making room, the word is written at `ip` and `ip` advances by 4; earlier code is kept |
| Assembler.BytecodeAssembler.EvalOperand | lip-ch10/asm/src/org/jcm/asm/BytecodeAssembler.java:170-192 | integer text parses, a character gives its code, floats, strings and functions give their pool index, and `rN` gives N |
| Assembler.BytecodeAssembler.GetConstantPoolIndex | lip-ch10/asm/src/org/jcm/asm/BytecodeAssembler.java:199-206 | the pool and index are `GetOrInsert`; the pool keeps no duplicates |
| Assembler.BytecodeAssembler.GetFunctionIndex | lip-ch10/asm/src/org/jcm/asm/BytecodeAssembler.java:229-238 | the pool and index are `FunctionIndex` |
| Assembler.BytecodeAssembler.GetLabelAddress | lip-ch10/asm/src/org/jcm/asm/BytecodeAssembler.java:208-227 | the word and the new label table are `LabelLookup` at `ip` |
| Assembler.BytecodeAssembler.DefineLabel | lip-ch10/asm/src/org/jcm/asm/BytecodeAssembler.java:132-152 | the table becomes `DefineView`; a forward label's sites are patched with `ip`; a redefinition is reported with its line; the site invariant is kept |
| Assembler.BytecodeAssembler.AddLabel | lip-ch10/asm/src/org/jcm/asm/BytecodeAssembler.java:136-139 | a new label is defined at `ip` |
| Assembler.BytecodeAssembler.ResolveLabel | lip-ch10/asm/src/org/jcm/asm/BytecodeAssembler.java:141-145 | a forward label is defined at `ip` and every pending site is patched |
| Assembler.BytecodeAssembler.DefineFunction | lip-ch10/asm/src/org/jcm/asm/BytecodeAssembler.java:114-128 | the pool becomes `DefineInPool` of the symbol at `ip`; `main` is remembered |
| Assembler.BytecodeAssembler.DefineDataSize | lip-ch10/asm/src/org/jcm/asm/BytecodeAssembler.java:130 | the data size is set |
| Assembler.BytecodeAssembler.CheckForUnresolvedReferences | lip-ch10/asm/src/org/jcm/asm/BytecodeAssembler.java:105-112 | one `unresolved reference` message per undefined label, each label once, appended in table order |
| Assembler.BytecodeAssembler.Program | lip-ch10/asm/src/org/jcm/asm/gen/AssemblerParser.java:150-205 | after all actions and the unresolved-reference check, every site of a defined label holds its address and every site of an unresolved one holds 0 |
| Assembler.BytecodeAssembler.Step | lip-ch10/asm/src/org/jcm/asm/gen/AssemblerParser.java:390-452 | one parser action keeps the assembler's invariant and bounds how far `ip` and the pool grow |
| Disassembler.ShowConstPoolOperand | lip-ch10/asm/src/org/jcm/asm/DisAssembler.java:78-91 | `#index:` then the entry (a quoted string, or `name()@address`); an index outside the pool throws |
| Disassembler.ShowEntry | lip-ch10/asm/src/org/jcm/asm/DisAssembler.java:82-87 | no contract of its own: the entry text (a quoted string, `name()@address`, the host text of a float) inside the `#index:` format that `ShowConstPoolOperand` states |
| Disassembler.RenderOperand | lip-ch10/asm/src/org/jcm/asm/DisAssembler.java:57-68 | a register is `rN`, an integer its decimal text, a pool or function operand its pool rendering; other kinds are skipped; only a pool index out of range throws |
| Disassembler.OperandText | lip-ch10/asm/src/org/jcm/asm/DisAssembler.java:55-68 | a word past the end of memory throws; otherwise the word is rendered by kind |
| Disassembler.Operands | lip-ch10/asm/src/org/jcm/asm/DisAssembler.java:54-69 | at most `n` strings; success means all `n` words lie in memory; every failure is a host exception |
| Disassembler.DecodeAt | lip-ch10/asm/src/org/jcm/asm/DisAssembler.java:41-76 | a decoded instruction has a valid non-zero opcode, names its descriptor's mnemonic and ends after the opcode plus four bytes per operand, inside memory |
| Disassembler.OperandsStep | lip-ch10/asm/src/org/jcm/asm/DisAssembler.java:54-69 | one more loop iteration appends the next word's text, when it has one |
| Disassembler.OperandsStepErr | lip-ch10/asm/src/org/jcm/asm/DisAssembler.java:54-69 | an operand that throws makes the whole instruction throw |
| Disassembler.OperandsErrExtends | lip-ch10/asm/src/org/jcm/asm/DisAssembler.java:54-69 | a failing prefix of the operand loop makes every longer loop fail |
| Disassembler.OperandsCount | lip-ch10/asm/src/org/jcm/asm/DisAssembler.java:54-69 | operands of shown kinds give exactly one string each |
| Disassembler.OperandAt | lip-ch10/asm/src/org/jcm/asm/DisAssembler.java:54-69 | string `k` is the rendering of word `k` |
| Disassembler.DecodeOperands | lip-ch10/asm/src/org/jcm/asm/DisAssembler.java:54-74 | an instruction whose kinds are all shown prints exactly `n` operands; operand `k` renders the word at `ip + 1 + 4k` |
| Disassembler.RenderedWordsReadBack | lip-ch10/asm/src/org/jcm/asm/DisAssembler.java:57-68 | register and integer operands print as text the assembler parses back to the same word |
| Disassembler.Walk | lip-ch10/asm/src/org/jcm/asm/DisAssembler.java:31-39 | a successful walk that starts below `codeSize` decodes at least one instruction; `WalkAdvances` states where each entry comes from |
| Disassembler.WalkAdvances | lip-ch10/asm/src/org/jcm/asm/DisAssembler.java:33-37 | the walk visits strictly increasing addresses below `codeSize`, each starting where the previous ended and each entry being what `DecodeAt` gives at its start, and stops at or past `codeSize` |
| Disassembler.DisAssembler.constructor | lip-ch10/asm/src/org/jcm/asm/DisAssembler.java:20-29 | keeps the code, code size, pool and instruction table it is given |
| Disassembler.DisAssembler.DisassembleInstruction | lip-ch10/asm/src/org/jcm/asm/DisAssembler.java:41-76 | the result is `DecodeAt` of the code at `ip` |
| Disassembler.DisAssembler.ReadOperands | lip-ch10/asm/src/org/jcm/asm/DisAssembler.java:53-69 | the operand loop gives `Operands` of the code: the text of each word, or the fault of the first word that cannot be read or shown |
| Disassembler.DisAssembler.Disassemble | lip-ch10/asm/src/org/jcm/asm/DisAssembler.java:31-39 | the loop's result is `Walk` from address 0 |
| Machine.IntegerWrap | lip-ch10/asm/src/org/jcm/stack/StackInterpreter.java:152-169 | `+`, `-` and `*` wrap modulo 2^32, and agree with the exact result when it fits in an int |
| Machine.IntResult | lip-ch10/asm/src/org/jcm/stack/StackInterpreter.java:152-181 | no contract of its own: `IntegerWrap` states the wrapped `+ - *`; `StackMachine.IntegerOp` and `RegMachine.IntegerOp` state the comparisons and where the result goes |
| Machine.ToChar | lip-ch10/asm/src/org/jcm/stack/StackInterpreter.java:236 | `(char) w` keeps `w` modulo 2^16 |
| Machine.FetchOpcode | lip-ch10/asm/src/org/jcm/stack/StackInterpreter.java:143 | succeeds exactly inside the code array, with a value in `-128..127` that is congruent to the byte modulo 256 (the byte read as signed) |
| Machine.FetchWord | lip-ch10/asm/src/org/jcm/asm/InterpreterBase.java:41-46 | succeeds exactly when all four bytes lie in the array; otherwise a host exception |
| Machine.FetchWrittenWord | lip-ch10/asm/src/org/jcm/asm/InterpreterBase.java:41-46 | `getIntOperand` reads back the word `writeInt` stored |
| Machine.NullArray | lip-ch10/asm/src/org/jcm/asm/InterpreterBase.java:118 | `new Object[n]` is `n` nulls; a negative size throws |
| Machine.ArrayCopy | lip-ch10/asm/src/org/jcm/reg/RegInterpreter.java:211-212 | `System.arraycopy` succeeds exactly when both ranges are inside; then the destination range holds the source range and the rest of the destination is untouched |
| Machine.CopyArray | lip-ch10/asm/src/org/jcm/reg/RegInterpreter.java:211-212 | the array copy does what `ArrayCopy` says, or reports failure with the destination untouched |
| Machine.MainOrDefault | lip-ch10/asm/src/org/jcm/reg/RegInterpreter.java:29-30 | the defined `main`, or `main` with no arguments or locals at address 0 |
| StackMachine.NewFrame | lip-ch10/asm/src/org/jcm/stack/StackInterpreter.java:307 | a frame for the function returning to the address, with `LocalsCount` null locals; it throws exactly when that count is negative |
| StackMachine.LocalsCount | lip-ch10/asm/src/org/jcm/stack/StackInterpreter.java:307 | `numArgs + numLocals` as Java's `int` sum: the sum when it fits, otherwise wrapped by 2^32 (negative past the top, non-negative below the bottom) |
| StackMachine.FrameSizeWraps | lip-ch10/asm/src/org/jcm/stack/StackInterpreter.java:307 | `numArgs` = 2^31 - 1 with one local throws; two minimum counts give a frame with no locals |
| StackMachine.Push | lip-ch10/asm/src/org/jcm/stack/StackInterpreter.java:156 | `operands[++sp] = v` succeeds exactly when `sp + 1` is in range; the new top is `v`, every other slot and every other field are unchanged |
| StackMachine.PopValue | lip-ch10/asm/src/org/jcm/stack/StackInterpreter.java:274 | `operands[sp--]` succeeds exactly when `sp` is in range, yields the top entry, lowers `sp` and changes nothing else |
| StackMachine.Operand | lip-ch10/asm/src/org/jcm/stack/StackInterpreter.java:298-303 | the word at `ip`, with `ip` moved past it |
| StackMachine.Binary | lip-ch10/asm/src/org/jcm/stack/StackInterpreter.java:152-181 | no contract of its own: `IntegerOp` states it through `Execute` |
| StackMachine.ArgLocals | lip-ch10/asm/src/org/jcm/stack/StackInterpreter.java:311-314 | no contract of its own: `InvokeMovesArguments` states the locals it builds |
| StackMachine.Invoke | lip-ch10/asm/src/org/jcm/stack/StackInterpreter.java:305-317 | no contract of its own: `InvokeMovesArguments` states when it succeeds and the state it gives |
| StackMachine.Return | lip-ch10/asm/src/org/jcm/stack/StackInterpreter.java:220-223 | no contract of its own: `ReturnPopsFrame` states it through `Execute` |
| StackMachine.Branch | lip-ch10/asm/src/org/jcm/stack/StackInterpreter.java:227-234 | no contract of its own: `ConditionalBranch` states it through `Execute` |
| StackMachine.JumpTo | lip-ch10/asm/src/org/jcm/stack/StackInterpreter.java:224-226 | no contract of its own: `JumpUnconditional` states it through `Execute` |
| StackMachine.PushLiteral | lip-ch10/asm/src/org/jcm/stack/StackInterpreter.java:235-240 | no contract of its own: `Literal` states it through `Execute` |
| StackMachine.PushConst | lip-ch10/asm/src/org/jcm/stack/StackInterpreter.java:241-245 | no contract of its own: `ConstantPushed` states it |
| StackMachine.LoadLocal | lip-ch10/asm/src/org/jcm/stack/StackInterpreter.java:246-249 | no contract of its own: `LoadPushes` and `StoreThenLoadLocal` state it |
| StackMachine.StoreLocal | lip-ch10/asm/src/org/jcm/stack/StackInterpreter.java:259-262 | no contract of its own: `StoreThenLoadLocal` states it |
| StackMachine.LoadGlobal | lip-ch10/asm/src/org/jcm/stack/StackInterpreter.java:250-253 | no contract of its own: `LoadPushes` and `StoreThenLoadGlobal` state it |
| StackMachine.StoreGlobal | lip-ch10/asm/src/org/jcm/stack/StackInterpreter.java:263-266 | no contract of its own: `StoreThenLoadGlobal` states it |
| StackMachine.PrintTop | lip-ch10/asm/src/org/jcm/stack/StackInterpreter.java:273-275 | no contract of its own: `PrintAppends` states it |
| StackMachine.Discard | lip-ch10/asm/src/org/jcm/stack/StackInterpreter.java:283-285 | `sp` drops by one with no check; nothing else changes, the popped slot included |
| StackMachine.Execute | lip-ch10/asm/src/org/jcm/stack/StackInterpreter.java:147-288 | no contract of its own: `Advance`, `InvalidOpcodeReported` and the lemmas for each instruction state it |
| StackMachine.Run | lip-ch10/asm/src/org/jcm/stack/StackInterpreter.java:137-291 | no contract of its own: `RunStep`, `RunFetchFault`, `RunHalts`, `RunOutOfFuel`, `RunStops` and `RunMoreFuel` state it |
| StackMachine.Start | lip-ch10/asm/src/org/jcm/stack/StackInterpreter.java:124-134 | no contract of its own: `StartCallsMain` states it |
| StackMachine.Advance | lip-ch10/asm/src/org/jcm/stack/StackInterpreter.java:149-285 | an instruction that does not move control leaves `ip` after its opcode and operand words |
| StackMachine.IntegerOp | lip-ch10/asm/src/org/jcm/stack/StackInterpreter.java:152-181 | succeeds exactly when the top two entries are `Integer`s; the new state is the old one with `sp` one lower, `ip` past the opcode and the lower entry replaced by `second op top`, so frames, globals and output stay |
| StackMachine.CallMovesArguments | lip-ch10/asm/src/org/jcm/stack/StackInterpreter.java:216-218 | `call` invokes the operand's pool entry with `ip` after the operand |
| StackMachine.CallOperand | lip-ch10/asm/src/org/jcm/stack/StackInterpreter.java:216-218 | no contract of its own: `CallMovesArguments` states that `call` reads its pool index and then invokes with `ip` past it |
| StackMachine.InvokeMovesArguments | lip-ch10/asm/src/org/jcm/stack/StackInterpreter.java:305-317 | succeeds exactly when the entry is a function, a frame slot is free and the arguments are on the stack; then pushes a frame returning to `ip`, moves the top `numArgs` entries into locals in stack order, nulls the rest, and jumps to the function; other frames stay |
| StackMachine.ReturnPopsFrame | lip-ch10/asm/src/org/jcm/stack/StackInterpreter.java:220-223 | succeeds exactly when there is a top frame; pops it and continues at its return address |
| StackMachine.CallThenReturn | lip-ch10/asm/src/org/jcm/stack/StackInterpreter.java:216-223 | a `ret` from the frame a `call` pushed returns after the `call`, one frame down |
| StackMachine.ConditionalBranch | lip-ch10/asm/src/org/jcm/stack/StackInterpreter.java:227-234 | `brt`/`brf` succeed exactly when the operand word is in the code and a non-null entry is on top; the new state is the old one with that entry popped and `ip` at the operand when it is `true`/`false`, after the operand otherwise |
| StackMachine.JumpUnconditional | lip-ch10/asm/src/org/jcm/stack/StackInterpreter.java:224-226 | `br` sets `ip` to its operand and changes nothing else |
| StackMachine.Literal | lip-ch10/asm/src/org/jcm/stack/StackInterpreter.java:235-240 | `iconst`/`cconst` succeed exactly when the operand word is in the code and a stack slot is free; the new state is the old one with `ip` past the operand and the word, or its low 16 bits as a char, pushed |
| StackMachine.ConstantPushed | lip-ch10/asm/src/org/jcm/stack/StackInterpreter.java:241-245 | succeeds exactly when the operand lies in the code, names a pool entry and the stack has room; pushes that entry, moves `ip` past the operand, and changes nothing else |
| StackMachine.LoadPushes | lip-ch10/asm/src/org/jcm/stack/StackInterpreter.java:246-253 | succeeds exactly when the operand lies in the code, names a local of the top frame (or a global) and the stack has room; pushes a copy and changes nothing else |
| StackMachine.PrintAppends | lip-ch10/asm/src/org/jcm/stack/StackInterpreter.java:273-275 | succeeds exactly when the stack is not empty; pops the top entry onto the output |
| StackMachine.StoreThenLoadGlobal | lip-ch10/asm/src/org/jcm/stack/StackInterpreter.java:250-266 | `gstore` moves the top entry into the global; a later `gload` of that address pushes it back |
| StackMachine.StoreThenLoadLocal | lip-ch10/asm/src/org/jcm/stack/StackInterpreter.java:246-262 | `store` and `load` do the same with the top frame's locals |
| StackMachine.InvalidOpcodeReported | lip-ch10/asm/src/org/jcm/stack/StackInterpreter.java:286-287 | an opcode not in the `switch` stops with that opcode and its address |
| StackMachine.RunStep | lip-ch10/asm/src/org/jcm/stack/StackInterpreter.java:145-289 | a round that passes the loop condition executes the instruction and continues from the new state |
| StackMachine.RunFetchFault | lip-ch10/asm/src/org/jcm/stack/StackInterpreter.java:143 | fetching outside the code array throws |
| StackMachine.RunHalts | lip-ch10/asm/src/org/jcm/stack/StackInterpreter.java:145 | `halt`, or `ip >= codeSize`, stops the run at that state |
| StackMachine.RunOutOfFuel | lip-ch10/asm/src/org/jcm/stack/StackInterpreter.java:145 | with no fuel left, a run that would go on reports its state as still running |
| StackMachine.RunStops | lip-ch10/asm/src/org/jcm/stack/StackInterpreter.java:145 | a run that stops without fault stops at a `halt` or at or past `codeSize`, and only there |
| StackMachine.RunMoreFuel | lip-ch10/asm/src/org/jcm/stack/StackInterpreter.java:137-291 | more fuel than a stopped run needs gives the same result |
| StackMachine.StartCallsMain | lip-ch10/asm/src/org/jcm/stack/StackInterpreter.java:124-134 | `exec` pushes one frame for `main` returning to -1 and starts at `main`'s address (0 when synthesized) |
| StackMachine.StackInterpreter.constructor | lip-ch10/asm/src/org/jcm/stack/StackInterpreter.java:32-47 | 100 null operand slots, 1000 empty frame slots, `sp` = `fp` = -1, `ip` 0, null globals of the data size |
| StackMachine.StackInterpreter.GetIntOperand | lip-ch10/asm/src/org/jcm/stack/StackInterpreter.java:298-303 | the word at `ip`, with `ip` advanced by 4 on success |
| StackMachine.StackInterpreter.PushValue | lip-ch10/asm/src/org/jcm/stack/StackInterpreter.java:156 | follows `Push` |
| StackMachine.StackInterpreter.BinaryOp | lip-ch10/asm/src/org/jcm/stack/StackInterpreter.java:152-181 | follows `Binary` |
| StackMachine.StackInterpreter.PopArguments | lip-ch10/asm/src/org/jcm/stack/StackInterpreter.java:312-314 | succeeds exactly when the arguments are available; the locals are `ArgLocals` and `sp` drops by `numArgs` |
| StackMachine.StackInterpreter.CallFunction | lip-ch10/asm/src/org/jcm/stack/StackInterpreter.java:305-317 | follows `Invoke` |
| StackMachine.StackInterpreter.ReturnFromCall | lip-ch10/asm/src/org/jcm/stack/StackInterpreter.java:220-223 | follows `Return` |
| StackMachine.StackInterpreter.BranchIf | lip-ch10/asm/src/org/jcm/stack/StackInterpreter.java:227-234 | follows `Branch` |
| StackMachine.StackInterpreter.PushLiteralOperand | lip-ch10/asm/src/org/jcm/stack/StackInterpreter.java:235-240 | follows `PushLiteral` |
| StackMachine.StackInterpreter.PushConstOperand | lip-ch10/asm/src/org/jcm/stack/StackInterpreter.java:241-245 | follows `PushConst` |
| StackMachine.StackInterpreter.LoadLocalOperand | lip-ch10/asm/src/org/jcm/stack/StackInterpreter.java:246-249 | follows `LoadLocal` |
| StackMachine.StackInterpreter.StoreLocalOperand | lip-ch10/asm/src/org/jcm/stack/StackInterpreter.java:259-262 | follows `StoreLocal` |
| StackMachine.StackInterpreter.LoadGlobalOperand | lip-ch10/asm/src/org/jcm/stack/StackInterpreter.java:250-253 | follows `LoadGlobal` |
| StackMachine.StackInterpreter.StoreGlobalOperand | lip-ch10/asm/src/org/jcm/stack/StackInterpreter.java:263-266 | follows `StoreGlobal` |
| StackMachine.StackInterpreter.PrintTopOfStack | lip-ch10/asm/src/org/jcm/stack/StackInterpreter.java:273-275 | follows `PrintTop`: the popped entry is appended to the output |
| StackMachine.StackInterpreter.CallWithOperand | lip-ch10/asm/src/org/jcm/stack/StackInterpreter.java:216-219 | follows `CallOperand` |
| StackMachine.StackInterpreter.JumpToOperand | lip-ch10/asm/src/org/jcm/stack/StackInterpreter.java:224-226 | follows `JumpTo` |
| StackMachine.StackInterpreter.PopTopOfStack | lip-ch10/asm/src/org/jcm/stack/StackInterpreter.java:283-285 | follows `Discard`: `sp` drops by one, unchecked |
| StackMachine.StackInterpreter.TransferControl | lip-ch10/asm/src/org/jcm/stack/StackInterpreter.java:216-234 | follows `Transfer` |
| StackMachine.StackInterpreter.MoveData | lip-ch10/asm/src/org/jcm/stack/StackInterpreter.java:235-285 | follows `DataOp` |
| StackMachine.StackInterpreter.Step | lip-ch10/asm/src/org/jcm/stack/StackInterpreter.java:149-288 | follows `Execute` of the fetched opcode |
| StackMachine.StackInterpreter.FetchOpcodeByte | lip-ch10/asm/src/org/jcm/stack/StackInterpreter.java:143 | `FetchOpcode` at `ip` |
| StackMachine.StackInterpreter.Round | lip-ch10/asm/src/org/jcm/stack/StackInterpreter.java:145-289 | one iteration: a fault ends the run with that fault; otherwise the rest of the run is the run from the new state with one less fuel |
| StackMachine.StackInterpreter.Cpu | lip-ch10/asm/src/org/jcm/stack/StackInterpreter.java:137-291 | the loop ends exactly as `Run` of the state it started from says: fault, stopped state or out of fuel |
| StackMachine.StackInterpreter.Exec | lip-ch10/asm/src/org/jcm/stack/StackInterpreter.java:124-134 | `main` is set or synthesized, and the engine ends as `Run` from `Start` says |
| RegMachine.NewFrame | lip-ch10/asm/src/org/jcm/reg/StackFrame.java:18-23 | `RegisterCount` null registers, the sum wrapped as a Java `int`; it throws exactly when that count is negative |
| RegMachine.RegisterCount | lip-ch10/asm/src/org/jcm/reg/StackFrame.java:22 | `numArgs + numLocals + 1` as Java's `int` sum: the sum when it fits, otherwise wrapped by 2^32 (negative past the top, positive below the bottom) |
| RegMachine.FrameSizeWraps | lip-ch10/asm/src/org/jcm/reg/StackFrame.java:22 | `numArgs` = 2^31 - 1 with no locals throws; two minimum counts give one register |
| RegMachine.Operand | lip-ch10/asm/src/org/jcm/asm/InterpreterBase.java:41-46 | succeeds exactly when the four bytes lie in the code; the word read there, and `ip` past it |
| RegMachine.Reg | lip-ch10/asm/src/org/jcm/reg/RegInterpreter.java:49 | reading `r[i]` of the top frame succeeds exactly when `i` is a register, and gives its value |
| RegMachine.SetReg | lip-ch10/asm/src/org/jcm/reg/RegInterpreter.java:56 | writing `r[k]` succeeds exactly when `k` is a register; only that register of the top frame changes |
| RegMachine.IntArgs | lip-ch10/asm/src/org/jcm/reg/RegInterpreter.java:56 | succeeds exactly when both registers exist and hold `Integer`s, and gives their values |
| RegMachine.Arith | lip-ch10/asm/src/org/jcm/reg/RegInterpreter.java:52-82 | no contract of its own: `IntegerOp` states it |
| RegMachine.Compute | lip-ch10/asm/src/org/jcm/reg/RegInterpreter.java:56 | no contract of its own: `IntegerOp` states it through `Arith` |
| RegMachine.Callee | lip-ch10/asm/src/org/jcm/reg/RegInterpreter.java:205-212 | no contract of its own: `InvokeCopiesArguments` states the frame it builds |
| RegMachine.Invoke | lip-ch10/asm/src/org/jcm/reg/RegInterpreter.java:204-215 | no contract of its own: `InvokeCopiesArguments` states it |
| RegMachine.Return | lip-ch10/asm/src/org/jcm/reg/RegInterpreter.java:123-127 | no contract of its own: `ReturnCopiesResult` states it |
| RegMachine.Branch | lip-ch10/asm/src/org/jcm/reg/RegInterpreter.java:131-142 | no contract of its own: `ConditionalBranch` states it |
| RegMachine.SetLiteral | lip-ch10/asm/src/org/jcm/reg/RegInterpreter.java:143-150 | no contract of its own: `Literal` states it |
| RegMachine.SetConst | lip-ch10/asm/src/org/jcm/reg/RegInterpreter.java:151-156 | no contract of its own: `ConstantSet` states it |
| RegMachine.LoadGlobal | lip-ch10/asm/src/org/jcm/reg/RegInterpreter.java:157-161 | no contract of its own: `LoadGlobalSets` and `StoreThenLoadGlobal` state it |
| RegMachine.StoreGlobal | lip-ch10/asm/src/org/jcm/reg/RegInterpreter.java:162-166 | no contract of its own: `StoreThenLoadGlobal` states it |
| RegMachine.MoveReg | lip-ch10/asm/src/org/jcm/reg/RegInterpreter.java:179-183 | no contract of its own: `MoveCopies` states it |
| RegMachine.PrintReg | lip-ch10/asm/src/org/jcm/reg/RegInterpreter.java:184-187 | no contract of its own: `PrintAppends` states it |
| RegMachine.ClearReg | lip-ch10/asm/src/org/jcm/reg/RegInterpreter.java:193-196 | no contract of its own: `ClearSetsNull` states it |
| RegMachine.Execute | lip-ch10/asm/src/org/jcm/reg/RegInterpreter.java:47-199 | no contract of its own: `SwitchCases`, `Advance` and `InvalidOpcodeReported` state it |
| RegMachine.Run | lip-ch10/asm/src/org/jcm/reg/RegInterpreter.java:39-202 | no contract of its own: `RunStep`, `RunFetchFault`, `RunHalts`, `RunOutOfFuel` and `RunStops` state it |
| RegMachine.Start | lip-ch10/asm/src/org/jcm/reg/RegInterpreter.java:26-36 | no contract of its own: `StartCallsMain` states it |
| RegMachine.SwitchCases | lip-ch10/asm/src/org/jcm/reg/RegInterpreter.java:51-198 | each instruction runs its case's function with `ip` past the opcode; float, `fload`, `fstore` and `struct` are not modelled |
| RegMachine.Advance | lip-ch10/asm/src/org/jcm/reg/RegInterpreter.java:52-196 | an instruction that does not move control leaves `ip` after its operand words; the caller frames, the top frame's function and return address, and its register count all stay |
| RegMachine.IntegerOp | lip-ch10/asm/src/org/jcm/reg/RegInterpreter.java:52-82 | succeeds exactly when the operands are in memory and registers, with `r[i]` and `r[j]` `Integer`s; sets `r[k] = r[i] op r[j]` and nothing else |
| RegMachine.CallDecodes | lip-ch10/asm/src/org/jcm/reg/RegInterpreter.java:118-122 | `call` reads the pool index and the base register, then invokes with `ip` after both |
| RegMachine.CallOperands | lip-ch10/asm/src/org/jcm/reg/RegInterpreter.java:118-122 | no contract of its own: `CallDecodes` states that it reads the pool index and the base register, then invokes with `ip` after both, and faults when either word is outside the code |
| RegMachine.InvokeCopiesArguments | lip-ch10/asm/src/org/jcm/reg/RegInterpreter.java:204-215 | succeeds exactly when the entry is a function with a non-negative register count, a frame slot is free and the arguments fit; then pushes one frame returning to `ip`, with `r1..` copied from the caller's `r[base..]` and the rest null; other frames stay |
| RegMachine.ReturnCopiesResult | lip-ch10/asm/src/org/jcm/reg/RegInterpreter.java:123-127 | succeeds exactly when there is a caller and both frames have an `r0`; pops the frame, copies its `r0` into the caller's and continues at the return address |
| RegMachine.CallThenReturn | lip-ch10/asm/src/org/jcm/reg/RegInterpreter.java:118-127 | whatever the callee does, its `ret` returns after the `call` with the caller's registers as they were, except `r0`, which holds the callee's result |
| RegMachine.ConditionalBranch | lip-ch10/asm/src/org/jcm/reg/RegInterpreter.java:131-142 | succeeds exactly when `r[i]` is a `Boolean`; jumps exactly when it equals the branch's sense; registers unchanged |
| RegMachine.JumpUnconditional | lip-ch10/asm/src/org/jcm/reg/RegInterpreter.java:128-130 | `br` sets `ip` to its operand and changes nothing else |
| RegMachine.JumpTo | lip-ch10/asm/src/org/jcm/reg/RegInterpreter.java:128-130 | no contract of its own: `JumpUnconditional` states that it succeeds exactly when the operand lies in the code and sets `ip` to it |
| RegMachine.MoveCopies | lip-ch10/asm/src/org/jcm/reg/RegInterpreter.java:179-183 | `move i, j` sets `r[j] = r[i]` and nothing else |
| RegMachine.Literal | lip-ch10/asm/src/org/jcm/reg/RegInterpreter.java:143-150 | `iconst` writes its word into `r[i]`; `cconst` writes the word's low 16 bits as a char |
| RegMachine.ConstantSet | lip-ch10/asm/src/org/jcm/reg/RegInterpreter.java:151-156 | succeeds exactly when both operands lie in the code, `r[i]` exists and the index names a pool entry; `r[i]` becomes that entry and nothing else changes |
| RegMachine.LoadGlobalSets | lip-ch10/asm/src/org/jcm/reg/RegInterpreter.java:157-161 | succeeds exactly when both operands lie in the code, `r[i]` exists and the address is a global; `r[i]` becomes the global and nothing else changes |
| RegMachine.PrintAppends | lip-ch10/asm/src/org/jcm/reg/RegInterpreter.java:184-187 | succeeds exactly when the operand lies in the code and `r[i]` exists; `r[i]` is appended to the output and no register changes |
| RegMachine.ClearSetsNull | lip-ch10/asm/src/org/jcm/reg/RegInterpreter.java:193-196 | succeeds exactly when the operand lies in the code and `r[i]` exists; `r[i]` becomes `null` and nothing else changes |
| RegMachine.StoreThenLoadGlobal | lip-ch10/asm/src/org/jcm/reg/RegInterpreter.java:157-166 | `gstore` copies `r[i]` into the global; a later `gload` of that address brings it back into a register |
| RegMachine.InvalidOpcodeReported | lip-ch10/asm/src/org/jcm/reg/RegInterpreter.java:197-198 | an opcode not in the `switch` stops with that opcode and its address |
| RegMachine.RunStep | lip-ch10/asm/src/org/jcm/reg/RegInterpreter.java:43-200 | a round that passes the loop condition executes the instruction and continues from the new state |
| RegMachine.RunFetchFault | lip-ch10/asm/src/org/jcm/reg/RegInterpreter.java:41 | fetching outside the code array throws |
| RegMachine.RunHalts | lip-ch10/asm/src/org/jcm/reg/RegInterpreter.java:43 | `halt`, or `ip >= codeSize`, stops the run at that state |
| RegMachine.RunOutOfFuel | lip-ch10/asm/src/org/jcm/reg/RegInterpreter.java:43 | with no fuel left, a run that would go on reports its state as still running |
| RegMachine.RunStops | lip-ch10/asm/src/org/jcm/reg/RegInterpreter.java:43 | a run that stops without fault stops at a `halt` or at or past `codeSize`, and only there |
| RegMachine.StartCallsMain | lip-ch10/asm/src/org/jcm/reg/RegInterpreter.java:26-36 | `exec` pushes one all-null frame for `main` returning to the current `ip`, and starts at `main`'s address (0 when synthesized) |
| RegMachine.StackFrame.constructor | lip-ch10/asm/src/org/jcm/reg/StackFrame.java:18-23 | a fresh register file whose frame value is `NewFrame` |
| RegMachine.RegInterpreter.constructor | lip-ch10/asm/src/org/jcm/asm/InterpreterBase.java:21-32 | no frames, `ip` 0, null globals of the data size, no output; the invariant holds with no register file allocated |
| RegMachine.RegInterpreter.GetIntOperand | lip-ch10/asm/src/org/jcm/asm/InterpreterBase.java:41-46 | the word at `ip`, with `ip` advanced by 4 on success |
| RegMachine.RegInterpreter.ComputeInto | lip-ch10/asm/src/org/jcm/reg/RegInterpreter.java:56 | follows `Compute` |
| RegMachine.RegInterpreter.ArithOp | lip-ch10/asm/src/org/jcm/reg/RegInterpreter.java:52-82 | follows `Arith` |
| RegMachine.RegInterpreter.NewCallee | lip-ch10/asm/src/org/jcm/reg/RegInterpreter.java:205-212 | a fresh frame equal to `Callee`, or `Callee`'s fault |
| RegMachine.RegInterpreter.CallFunction | lip-ch10/asm/src/org/jcm/reg/RegInterpreter.java:204-215 | follows `Invoke` |
| RegMachine.RegInterpreter.CallWithOperands | lip-ch10/asm/src/org/jcm/reg/RegInterpreter.java:118-122 | follows `CallOperands` |
| RegMachine.RegInterpreter.ReturnFromCall | lip-ch10/asm/src/org/jcm/reg/RegInterpreter.java:123-127 | follows `Return` |
| RegMachine.RegInterpreter.JumpToOperand | lip-ch10/asm/src/org/jcm/reg/RegInterpreter.java:128-130 | follows `JumpTo` |
| RegMachine.RegInterpreter.BranchIf | lip-ch10/asm/src/org/jcm/reg/RegInterpreter.java:131-142 | follows `Branch` |
| RegMachine.RegInterpreter.SetLiteralOperand | lip-ch10/asm/src/org/jcm/reg/RegInterpreter.java:143-150 | follows `SetLiteral` |
| RegMachine.RegInterpreter.SetConstOperand | lip-ch10/asm/src/org/jcm/reg/RegInterpreter.java:151-156 | follows `SetConst` |
| RegMachine.RegInterpreter.LoadGlobalOperand | lip-ch10/asm/src/org/jcm/reg/RegInterpreter.java:157-161 | follows `LoadGlobal` |
| RegMachine.RegInterpreter.StoreGlobalOperand | lip-ch10/asm/src/org/jcm/reg/RegInterpreter.java:162-166 | follows `StoreGlobal` |
| RegMachine.RegInterpreter.MoveOperand | lip-ch10/asm/src/org/jcm/reg/RegInterpreter.java:179-183 | follows `MoveReg` |
| RegMachine.RegInterpreter.PrintOperand | lip-ch10/asm/src/org/jcm/reg/RegInterpreter.java:184-187 | follows `PrintReg`: `r[i]` is appended to the output |
| RegMachine.RegInterpreter.ClearOperand | lip-ch10/asm/src/org/jcm/reg/RegInterpreter.java:193-196 | follows `ClearReg` |
| RegMachine.RegInterpreter.TransferControl | lip-ch10/asm/src/org/jcm/reg/RegInterpreter.java:118-142 | follows `Transfer` |
| RegMachine.RegInterpreter.MoveData | lip-ch10/asm/src/org/jcm/reg/RegInterpreter.java:143-166 | follows `DataOp` |
| RegMachine.RegInterpreter.MoveRegisters | lip-ch10/asm/src/org/jcm/reg/RegInterpreter.java:179-196 | follows `RegisterOp` |
| RegMachine.RegInterpreter.Perform | lip-ch10/asm/src/org/jcm/reg/RegInterpreter.java:51-198 | follows `Dispatch` |
| RegMachine.RegInterpreter.Step | lip-ch10/asm/src/org/jcm/reg/RegInterpreter.java:47-199 | follows `Execute` of the fetched opcode; no frame means `calls[-1]` throws |
| RegMachine.RegInterpreter.FetchOpcodeByte | lip-ch10/asm/src/org/jcm/reg/RegInterpreter.java:41 | `FetchOpcode` at `ip` |
| RegMachine.RegInterpreter.Round | lip-ch10/asm/src/org/jcm/reg/RegInterpreter.java:43-200 | one iteration: a fault ends the run with that fault; otherwise the rest of the run is the run from the new state with one less fuel |
| RegMachine.RegInterpreter.Cpu | lip-ch10/asm/src/org/jcm/reg/RegInterpreter.java:39-202 | the loop ends exactly as `Run` of the state it started from says |
| RegMachine.RegInterpreter.Exec | lip-ch10/asm/src/org/jcm/reg/RegInterpreter.java:26-36 | `main` is set or synthesized, and the engine ends as `Run` from `Start` says |
| Loader.LoadStack | lip-ch10/asm/src/org/jcm/stack/StackInterpreter.java:98-121 | fails exactly on a negative data size; otherwise the engine shares the assembler's code array, with `codeSize` = `ip`, its pool and `main`, and null globals |
| Loader.LoadRegister | lip-ch10/asm/src/org/jcm/asm/InterpreterBase.java:100-126 | the same for the register engine |
| Loader.RunStack | lip-ch10/asm/src/org/jcm/stack/StackInterpreter.java:84-95 | `exec` runs exactly when loading succeeded and there was no syntax error; the result is then `Run` from `Start`, otherwise the engine is as loaded |
| Loader.RunRegister | lip-ch10/asm/src/org/jcm/asm/InterpreterBase.java:87-91 | the same for the register engine |

## Left out

- Parsing: the generated lexer and parser are not part of this model. Their actions are a list of `Event`s that the assembler runs in order (`Program`). The syntax-error count is a parameter of `RunStack` and `RunRegister`.
- I/O: command-line flags, the input file stream, `trace`, the core dump and the post-run disassembly are left out. What `print` writes is collected as a sequence of values; the text `println` makes of them is not modelled.
- Diagnostics: the assembler's messages are values (`Diagnostic`), not text on standard error.
- The disassembler's `printf` layout is not modelled. It returns each instruction's mnemonic, operand strings and next address; the padding, commas and newlines are left out.
- Floating point: `fadd`, `fsub`, `fmul`, `flt`, `feq`, `itof` and `struct`, `fload`, `fstore` (which work on the struct type of the engines' own package) stop the model with `Unmodelled`.
- Float literals carry the bit pattern the host's `Float.valueOf` gives them. `Float.toString` is a parameter of the disassembler.
- Opcode numbers: the engines' own definition tables (`INSTR_*`) are not part of this model, apart from `INSTR_ADD` = 1. Each engine takes a map from opcode byte to instruction.
- Faults are terminal. The model says which fault stops the engine, not the partly updated state the host leaves behind.
- Bounded runs: `Run` and `Cpu` take a fuel bound. A program that runs forever is seen only as "still running" after any number of steps.
- The stack engine's frame class is not part of this model. Its frames are values with `LocalsCount` null locals, the `int` sum `numArgs + numLocals`.
- The register engine's `StackFrame` is a class, and its register files are tracked against aliasing. The stack engine's frame slots hold values.
- Label symbols in the assembler's table are values under their names (`LabelInfo`). No symbol is ever shared, so aliasing does not arise. `LabelSymbol` as a class is modelled on its own with the same functions.
- `checkForUnresolvedReferences` visits the table in `HashMap` order, which nothing fixes. The model leaves the order open and returns it as a ghost value.
- `load` also builds a `DisAssembler` over the loaded program. `LoadStack` and `LoadRegister` do not, because only the left-out flags use it.
- Assembler.BytecodeAssembler.GenOperand: requires integer literals and register numbers in Java's int range, and character literals in one UTF-16 unit. Out of range, `Integer.parseInt` throws, and that is not modelled. `IsJavaInt` and `ParseInt` accept only the ASCII digits `0`-`9`, where `Integer.parseInt` takes any Unicode decimal digit through `Character.digit`. The lexer is not part of this model, so which digits its integer and register tokens can hold is left open.
- Assembler.BytecodeAssembler.EnsureCapacity: requires the index to be at most `MAX_CODE` and the pool to stay within `MAX_POOL`, so that `index * 2` and every pool index fit in an int. Doubling past that overflows in the host, and that is not modelled.
- Assembler.BytecodeAssembler.Step: states only the invariant and the growth bounds. What each action does is stated by the member it calls.
- RegMachine.StackFrame.constructor: requires a non-negative register count. The callers check it first, where `new Object[n]` would throw.
- Assembler.BuildOpcodeMapping: lower-cases only the ASCII letters `A`-`Z`. `String.toLowerCase` also folds other Unicode letters, using the host's default locale, and that is not modelled. The instruction names of the definition tables are ASCII, so only the mapping's treatment of non-ASCII names differs.
- Symbols.StringHash: folds `31 * h + c` over the characters of a Dafny string, which are Unicode scalar values. Java's `String.hashCode` folds over UTF-16 code units, so for names with characters outside the Basic Multilingual Plane `StringHash` and `HashCode` differ from the host's values.
