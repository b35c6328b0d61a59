/**
 * Instruction descriptors (`BytecodeDefBase.Instruction`) and the
 * opcode-indexed instruction table (`BytecodeDefinition.instructions`).
 */
module InstructionSet {
  import opened Wrappers

  /** Token types of the generated parser that double as operand kinds. */
  const REG: int := 8
  const ID: int := 9
  const FUNC: int := 10
  const INT: int := 11
  /** An imaginary token type for constant-pool operands. */
  const POOL: int := 1000

  /** Names `kinds` because `type` is a Dafny keyword; `n` is the arity. */
  datatype Instruction = Instruction(name: string, kinds: seq<int>, n: int)

  /** What every descriptor satisfies: three kind slots, unused slots zero. */
  predicate WellFormed(i: Instruction) {
    && |i.kinds| == 3
    && 0 <= i.n <= 3
    && forall k :: i.n <= k < 3 ==> i.kinds[k] == 0
  }

  /** `Instruction(name, a, b, c)`: the only constructor that fills the slots. */
  function Instruction3(name: string, a: int, b: int, c: int): (i: Instruction)
    ensures WellFormed(i) && i.name == name && i.n == 3 && i.kinds == [a, b, c]
  {
    Instruction(name, [a, b, c], 3)
  }

  /** `Instruction(name, a, b)` chains to the 3-operand constructor, then sets `n = 2`. */
  function Instruction2(name: string, a: int, b: int): (i: Instruction)
    ensures WellFormed(i) && i.name == name && i.n == 2 && i.kinds[0] == a && i.kinds[1] == b
  {
    Instruction3(name, a, b, 0).(n := 2)
  }

  /** `Instruction(name, a)`: chains through `(name, a, 0, 0)`, then `n = 1`. */
  function Instruction1(name: string, a: int): (i: Instruction)
    ensures WellFormed(i) && i.name == name && i.n == 1 && i.kinds[0] == a
  {
    Instruction3(name, a, 0, 0).(n := 1)
  }

  /** `Instruction(name)`: arity 0 although it goes through the 3-operand constructor. */
  function Instruction0(name: string): (i: Instruction)
    ensures WellFormed(i) && i.name == name && i.n == 0
  {
    Instruction3(name, 0, 0, 0).(n := 0)
  }

  /** `BytecodeDefinition.INSTR_ADD`. */
  const INSTR_ADD: int := 1

  /** The table: index 0 is reserved as invalid, every other index is its opcode. */
  const INSTRUCTIONS: seq<Option<Instruction>> := [None, Some(Instruction3("iadd", REG, REG, REG))]

  /** A table laid out like `instructions`: slot 0 empty, well-formed entries after it. */
  predicate TableOk(table: seq<Option<Instruction>>) {
    && |table| >= 1
    && table[0].None?
    && forall op :: 1 <= op < |table| ==> table[op].Some? && WellFormed(table[op].value)
  }

  lemma TableLayout()
    ensures TableOk(INSTRUCTIONS)
    ensures INSTRUCTIONS[0] == None
    ensures INSTRUCTIONS[INSTR_ADD].Some? && INSTRUCTIONS[INSTR_ADD].value.name == "iadd"
    ensures INSTRUCTIONS[INSTR_ADD].value.n == 3
    ensures INSTRUCTIONS[INSTR_ADD].value.kinds == [REG, REG, REG]
  {
  }

  /** The pool kind is an imaginary token type distinct from every real one. */
  lemma KindsDistinct()
    ensures POOL != REG && POOL != FUNC && POOL != INT
    ensures REG != FUNC && REG != INT && FUNC != INT
  {
  }
}
