/**
 * The disassembler (`DisAssembler`): decodes one instruction at a time
 * from code memory, each operand by the kind its descriptor declares, and
 * walks the code from address 0 to the end. What it prints is returned as
 * values: the mnemonic and the operand strings of every instruction.
 */
module Disassembler {
  import opened Wrappers
  import opened Encoding
  import opened Decimal
  import opened InstructionSet
  import opened Symbols

  /** One decoded instruction: its mnemonic, its operand strings and the next address. */
  datatype Decoded = Decoded(name: string, operands: seq<string>, next: int)

  /**
   * A pool entry as `showConstPoolOperand` renders it: a string in double
   * quotes, a function as `name()@address`, and a float by the host's
   * `Float.toString`, which is a parameter here.
   */
  function ShowEntry(e: PoolEntry, showFloat: Int32 -> string): string {
    match e
    case StringConst(t) => "\"" + t + "\""
    case FuncConst(f) => f.name + "()@" + IntToString(f.address)
    case FloatConst(bits) => showFloat(bits)
  }

  /** `showConstPoolOperand(index)`: `#index:entry`; an index outside the pool throws. */
  function ShowConstPoolOperand(pool: seq<PoolEntry>, index: Int32, showFloat: Int32 -> string): (r: Result<string, Fault>)
    ensures r.Err? <==> !(0 <= index < |pool|)
    ensures r.Ok? ==> r.value == "#" + IntToString(index) + ":" + ShowEntry(pool[index], showFloat)
  {
    if 0 <= index < |pool| then Ok("#" + IntToString(index) + ":" + ShowEntry(pool[index], showFloat))
    else Err(HostException)
  }

  /** The kinds the decoder's `switch` knows; an operand of any other kind is read but not shown. */
  predicate Shown(kind: int) {
    kind == REG || kind == FUNC || kind == POOL || kind == INT
  }

  /** The text of one operand word of the given kind, or `None` for a kind the `switch` skips. */
  function RenderOperand(kind: int, word: Int32, pool: seq<PoolEntry>, showFloat: Int32 -> string): (r: Result<Option<string>, Fault>)
    ensures r.Err? <==> (kind == FUNC || kind == POOL) && !(0 <= word < |pool|)
    ensures r.Ok? ==> (r.value.Some? <==> Shown(kind))
    ensures kind == REG ==> r == Ok(Some("r" + IntToString(word)))
    ensures kind == INT ==> r == Ok(Some(IntToString(word)))
  {
    if kind == REG then Ok(Some("r" + IntToString(word)))
    else if kind == FUNC || kind == POOL then
      match ShowConstPoolOperand(pool, word, showFloat)
      case Ok(s) => Ok(Some(s))
      case Err(e) => Err(e)
    else if kind == INT then Ok(Some(IntToString(word)))
    else Ok(None)
  }

  /** The operand word at `p` rendered by kind; a word past the end of memory throws. */
  function OperandText(code: seq<Byte>, p: int, kind: int, pool: seq<PoolEntry>,
                       showFloat: Int32 -> string): (r: Result<Option<string>, Fault>)
    requires 0 <= p
    ensures r.Ok? ==> p + 4 <= |code|
    ensures r.Err? ==> r.error == HostException
  {
    if p + 4 > |code| then Err(HostException)
    else RenderOperand(kind, GetInt(code, p), pool, showFloat)
  }

  /**
   * The first `count` operands of an instruction whose operand words start
   * at `at`, decoded in order; a word past the end of memory or a pool
   * index outside the pool throws.
   */
  function Operands(code: seq<Byte>, at: int, kinds: seq<int>, count: nat, pool: seq<PoolEntry>,
                    showFloat: Int32 -> string): (r: Result<seq<string>, Fault>)
    requires 0 <= at && count <= |kinds|
    ensures r.Ok? ==> |r.value| <= count
    ensures r.Ok? && count > 0 ==> at + 4 * count <= |code|
    ensures r.Err? ==> r.error == HostException
    decreases count
  {
    if count == 0 then Ok([])
    else
      match Operands(code, at, kinds, count - 1, pool, showFloat)
      case Err(e) => Err(e)
      case Ok(prev) =>
        match OperandText(code, at + 4 * (count - 1), kinds[count - 1], pool, showFloat)
        case Err(e) => Err(e)
        case Ok(None) => Ok(prev)
        case Ok(Some(s)) => Ok(prev + [s])
  }

  /**
   * `disassembleInstruction(ip)`: the opcode byte is read as a signed
   * Java byte and indexes the descriptor table; an index outside it, the
   * reserved empty slot or memory too short for the operands throws.
   * Otherwise the cursor moves past the opcode and four bytes per operand.
   */
  function DecodeAt(code: seq<Byte>, ip: int, pool: seq<PoolEntry>, table: seq<Option<Instruction>>,
                    showFloat: Int32 -> string): (r: Result<Decoded, Fault>)
    requires 0 <= ip && TableOk(table)
    ensures r.Ok? ==>
      && ip < |code|
      && var op := SignedByte(code[ip]);
      && 1 <= op < |table|
      && r.value.name == table[op].value.name
      && r.value.next == ip + 1 + 4 * table[op].value.n
      && r.value.next <= |code|
    ensures ip >= |code| ==> r.Err?
  {
    if ip >= |code| then Err(HostException)
    else
      var op := SignedByte(code[ip]);
      if !(0 <= op < |table|) || table[op].None? then Err(HostException)
      else
        var instr := table[op].value;
        if instr.n == 0 then Ok(Decoded(instr.name, [], ip + 1))
        else
          match Operands(code, ip + 1, instr.kinds, instr.n, pool, showFloat)
          case Err(e) => Err(e)
          case Ok(ops) => Ok(Decoded(instr.name, ops, ip + 1 + 4 * instr.n))
  }

  /** One more operand: the next word's text, when there is one, appended. */
  lemma OperandsStep(code: seq<Byte>, at: int, kinds: seq<int>, i: nat, ops: seq<string>,
                     text: Option<string>, pool: seq<PoolEntry>, showFloat: Int32 -> string)
    requires 0 <= at && i < |kinds|
    requires Operands(code, at, kinds, i, pool, showFloat) == Ok(ops)
    requires OperandText(code, at + 4 * i, kinds[i], pool, showFloat) == Ok(text)
    ensures Operands(code, at, kinds, i + 1, pool, showFloat) == Ok(if text.Some? then ops + [text.value] else ops)
  {
  }

  /** A word that throws makes the whole instruction throw. */
  lemma OperandsStepErr(code: seq<Byte>, at: int, kinds: seq<int>, i: nat, count: nat,
                        pool: seq<PoolEntry>, showFloat: Int32 -> string)
    requires 0 <= at && i < count <= |kinds|
    requires Operands(code, at, kinds, i, pool, showFloat).Ok?
    requires OperandText(code, at + 4 * i, kinds[i], pool, showFloat).Err?
    ensures Operands(code, at, kinds, count, pool, showFloat) == Err(HostException)
  {
    OperandsErrExtends(code, at, kinds, i + 1, count, pool, showFloat);
  }

  /** A prefix of the operands that throws makes the whole instruction throw. */
  lemma {:induction false} OperandsErrExtends(code: seq<Byte>, at: int, kinds: seq<int>, i: nat, count: nat,
                                              pool: seq<PoolEntry>, showFloat: Int32 -> string)
    requires 0 <= at && i <= count <= |kinds|
    requires Operands(code, at, kinds, i, pool, showFloat).Err?
    ensures Operands(code, at, kinds, count, pool, showFloat) == Err(HostException)
    decreases count
  {
    if count > i {
      OperandsErrExtends(code, at, kinds, i, count - 1, pool, showFloat);
    }
  }

  /** Operands of shown kinds give one string each. */
  lemma {:induction false} OperandsCount(code: seq<Byte>, at: int, kinds: seq<int>, count: nat,
                                         pool: seq<PoolEntry>, showFloat: Int32 -> string)
    requires 0 <= at && count <= |kinds|
    requires forall k :: 0 <= k < count ==> Shown(kinds[k])
    requires Operands(code, at, kinds, count, pool, showFloat).Ok?
    ensures |Operands(code, at, kinds, count, pool, showFloat).value| == count
  {
    if count > 0 {
      OperandsCount(code, at, kinds, count - 1, pool, showFloat);
    }
  }

  /** Operand `k` is the rendering of the `k`-th word after `at`. */
  lemma {:induction false} OperandAt(code: seq<Byte>, at: int, kinds: seq<int>, count: nat, k: nat,
                                     pool: seq<PoolEntry>, showFloat: Int32 -> string)
    requires 0 <= at && k < count <= |kinds|
    requires forall j :: 0 <= j < count ==> Shown(kinds[j])
    requires Operands(code, at, kinds, count, pool, showFloat).Ok?
    ensures var ops := Operands(code, at, kinds, count, pool, showFloat).value;
      |ops| == count && OperandText(code, at + 4 * k, kinds[k], pool, showFloat) == Ok(Some(ops[k]))
  {
    OperandsCount(code, at, kinds, count, pool, showFloat);
    var prev := Operands(code, at, kinds, count - 1, pool, showFloat).value;
    OperandsCount(code, at, kinds, count - 1, pool, showFloat);
    if k < count - 1 {
      OperandAt(code, at, kinds, count - 1, k, pool, showFloat);
      assert Operands(code, at, kinds, count, pool, showFloat).value[k] == prev[k];
    }
  }

  /**
   * An instruction whose operand kinds are all shown decodes to exactly
   * `n` strings, operand `k` rendered from the word at `ip + 1 + 4k`.
   */
  lemma DecodeOperands(code: seq<Byte>, ip: int, pool: seq<PoolEntry>, table: seq<Option<Instruction>>,
                       showFloat: Int32 -> string)
    requires 0 <= ip && TableOk(table)
    requires DecodeAt(code, ip, pool, table, showFloat).Ok?
    requires var instr := table[SignedByte(code[ip])].value;
      forall k :: 0 <= k < instr.n ==> Shown(instr.kinds[k])
    ensures var instr := table[SignedByte(code[ip])].value;
      var d := DecodeAt(code, ip, pool, table, showFloat).value;
      && |d.operands| == instr.n
      && forall k :: 0 <= k < instr.n ==>
           RenderOperand(instr.kinds[k], GetInt(code, ip + 1 + 4 * k), pool, showFloat) == Ok(Some(d.operands[k]))
  {
    var instr := table[SignedByte(code[ip])].value;
    var d := DecodeAt(code, ip, pool, table, showFloat).value;
    if instr.n > 0 {
      forall k | 0 <= k < instr.n
        ensures RenderOperand(instr.kinds[k], GetInt(code, ip + 1 + 4 * k), pool, showFloat) == Ok(Some(d.operands[k]))
      {
        OperandAt(code, ip + 1, instr.kinds, instr.n, k, pool, showFloat);
      }
      OperandsCount(code, ip + 1, instr.kinds, instr.n, pool, showFloat);
    }
  }

  /**
   * The words of register and integer operands decode to text that the
   * assembler reads back as the same word: `rN` and `N`.
   */
  lemma RenderedWordsReadBack(kind: int, word: Int32, pool: seq<PoolEntry>, showFloat: Int32 -> string)
    requires kind == REG || kind == INT
    ensures var s := RenderOperand(kind, word, pool, showFloat).value.value;
      kind == REG ==> |s| >= 1 && IsJavaInt(s[1..]) && ParseInt(s[1..]) == word
    ensures var s := RenderOperand(kind, word, pool, showFloat).value.value;
      kind == INT ==> IsJavaInt(s) && ParseInt(s) == word
  {
    ParseIntToString(word);
    assert ("r" + IntToString(word))[1..] == IntToString(word);
  }

  /** The decoder's walk: the instructions from `ip` on while `ip < codeSize`, in order. */
  function Walk(code: seq<Byte>, codeSize: int, ip: int, pool: seq<PoolEntry>, table: seq<Option<Instruction>>,
                showFloat: Int32 -> string): (r: Result<seq<Decoded>, Fault>)
    requires 0 <= ip && TableOk(table)
    ensures r.Ok? && ip < codeSize ==> |r.value| >= 1
    decreases codeSize - ip
  {
    if ip >= codeSize then Ok([])
    else
      match DecodeAt(code, ip, pool, table, showFloat)
      case Err(e) => Err(e)
      case Ok(d) =>
        match Walk(code, codeSize, d.next, pool, table, showFloat)
        case Err(e) => Err(e)
        case Ok(rest) => Ok([d] + rest)
  }

  /** `lines` followed by the rest of a walk, or the walk's fault. */
  function Prepend(lines: seq<Decoded>, rest: Result<seq<Decoded>, Fault>): (r: Result<seq<Decoded>, Fault>)
    ensures r.Ok? <==> rest.Ok?
    ensures r.Ok? ==> r.value == lines + rest.value
    ensures lines == [] ==> r == rest
  {
    match rest
    case Err(e) => Err(e)
    case Ok(tail) => assert lines == [] ==> lines + tail == tail; Ok(lines + tail)
  }

  /** Proof helper: prefixing twice is prefixing once with both parts. */
  lemma PrependTwice(a: seq<Decoded>, b: seq<Decoded>, rest: Result<seq<Decoded>, Fault>)
    ensures Prepend(a, Prepend(b, rest)) == Prepend(a + b, rest)
  {
    if rest.Ok? {
      assert a + (b + rest.value) == (a + b) + rest.value;
    }
  }

  /** The address each decoded instruction of a walk from `ip` starts at. */
  function Starts(ds: seq<Decoded>, ip: int): (r: seq<int>)
    ensures |r| == |ds|
  {
    if ds == [] then [] else [ip] + Starts(ds[1..], ds[0].next)
  }

  /**
   * A walk visits strictly increasing addresses below `codeSize`, each
   * instruction starting where the previous one ended and being what
   * `DecodeAt` gives at its start, and stops at or after `codeSize`.
   */
  lemma {:induction false} WalkAdvances(code: seq<Byte>, codeSize: int, ip: int, pool: seq<PoolEntry>,
                                        table: seq<Option<Instruction>>, showFloat: Int32 -> string)
    requires 0 <= ip && TableOk(table)
    requires Walk(code, codeSize, ip, pool, table, showFloat).Ok?
    ensures var ds := Walk(code, codeSize, ip, pool, table, showFloat).value;
      var starts := Starts(ds, ip);
      && (forall k :: 0 <= k < |ds| ==> ip <= starts[k] < codeSize && starts[k] < ds[k].next)
      && (forall k :: 0 <= k < |ds| ==> DecodeAt(code, starts[k], pool, table, showFloat) == Ok(ds[k]))
      && (forall k :: 0 <= k < |ds| - 1 ==> starts[k + 1] == ds[k].next)
      && (ds != [] ==> codeSize <= ds[|ds| - 1].next)
      && (ds == [] <==> codeSize <= ip)
    decreases codeSize - ip
  {
    if ip < codeSize {
      var d := DecodeAt(code, ip, pool, table, showFloat).value;
      WalkAdvances(code, codeSize, d.next, pool, table, showFloat);
      var ds := Walk(code, codeSize, ip, pool, table, showFloat).value;
      var rest := Walk(code, codeSize, d.next, pool, table, showFloat).value;
      assert ds == [d] + rest;
      assert ds[1..] == rest;
      var starts := Starts(ds, ip);
      assert starts == [ip] + Starts(rest, d.next);
    }
  }

  class DisAssembler {
    const code: array<Byte>
    const codeSize: int
    const constPool: seq<PoolEntry>
    const instructions: seq<Option<Instruction>>
    /** `Float.toString` of the host, for float pool entries. */
    const showFloat: Int32 -> string

    constructor (code: array<Byte>, codeSize: int, constPool: seq<PoolEntry>,
                 instructions: seq<Option<Instruction>>, showFloat: Int32 -> string)
      requires TableOk(instructions)
      ensures this.code == code && this.codeSize == codeSize && this.constPool == constPool
      ensures this.instructions == instructions && this.showFloat == showFloat
    {
      this.code := code;
      this.codeSize := codeSize;
      this.constPool := constPool;
      this.instructions := instructions;
      this.showFloat := showFloat;
    }

    /** `disassembleInstruction(ip)`: decode at `ip`, reading operands in a loop. */
    method DisassembleInstruction(ip: int) returns (r: Result<Decoded, Fault>)
      requires 0 <= ip && TableOk(instructions)
      ensures r == DecodeAt(code[..], ip, constPool, instructions, showFloat)
    {
      if ip >= code.Length {
        return Err(HostException);
      }
      var opcode := SignedByte(code[ip]);
      if !(0 <= opcode < |instructions|) || instructions[opcode].None? {
        return Err(HostException);
      }
      var instr := instructions[opcode].value;
      var p := ip + 1;
      if instr.n == 0 {
        return Ok(Decoded(instr.name, [], p));
      }
      assert WellFormed(instr);
      var operands := ReadOperands(p, instr.kinds, instr.n);
      if operands.Err? {
        return Err(operands.error);
      }
      return Ok(Decoded(instr.name, operands.value, p + 4 * instr.n));
    }

    /** The operand loop of `disassembleInstruction`: the text of `count` words from `at`. */
    method ReadOperands(at: int, kinds: seq<int>, count: nat) returns (r: Result<seq<string>, Fault>)
      requires 0 <= at && count <= |kinds|
      ensures r == Operands(code[..], at, kinds, count, constPool, showFloat)
    {
      var memory := code[..];
      var operands: seq<string> := [];
      var p := at;
      var i := 0;
      while i < count
        invariant 0 <= i <= count
        invariant p == at + 4 * i
        invariant Operands(memory, at, kinds, i, constPool, showFloat) == Ok(operands)
      {
        // `getInt` past the end of memory and a pool index outside the pool both throw
        var shown := OperandText(memory, p, kinds[i], constPool, showFloat);
        if shown.Err? {
          OperandsStepErr(memory, at, kinds, i, count, constPool, showFloat);
          return Err(HostException);
        }
        OperandsStep(memory, at, kinds, i, operands, shown.value, constPool, showFloat);
        p := p + 4;
        if shown.value.Some? {
          operands := operands + [shown.value.value];
        }
        i := i + 1;
      }
      return Ok(operands);
    }

    /** `disassemble()`: decode from address 0 while the address is below `codeSize`. */
    method Disassemble() returns (r: Result<seq<Decoded>, Fault>)
      requires TableOk(instructions)
      ensures r == Walk(code[..], codeSize, 0, constPool, instructions, showFloat)
    {
      var lines: seq<Decoded> := [];
      var i := 0;
      ghost var memory := code[..];
      assert Walk(memory, codeSize, 0, constPool, instructions, showFloat)
          == Prepend([], Walk(memory, codeSize, 0, constPool, instructions, showFloat));
      while i < codeSize
        invariant 0 <= i
        invariant Walk(memory, codeSize, 0, constPool, instructions, showFloat)
               == Prepend(lines, Walk(memory, codeSize, i, constPool, instructions, showFloat))
        decreases codeSize - i
      {
        var d := DisassembleInstruction(i);
        if d.Err? {
          return Err(d.error);
        }
        ghost var rest := Walk(memory, codeSize, d.value.next, constPool, instructions, showFloat);
        assert Walk(memory, codeSize, i, constPool, instructions, showFloat) == Prepend([d.value], rest);
        PrependTwice(lines, [d.value], rest);
        lines := lines + [d.value];
        i := d.value.next;
      }
      assert lines + [] == lines;
      return Ok(lines);
    }
  }
}
