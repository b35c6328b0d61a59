/**
 * The register machine (`RegInterpreter`): every call has its own frame
 * (`StackFrame`) holding a register file, `r0` reserved for the return
 * value and the arguments from `r1` on; instructions name registers of the
 * top frame. The instruction semantics are pure functions on a `State`;
 * the classes below run the fetch-decode-execute cycle on arrays and are
 * proved to follow them.
 */
module RegMachine {
  import opened Wrappers
  import opened Encoding
  import opened Symbols
  import opened Machine

  /**
   * The instructions the engine's `switch` knows. Their numeric codes
   * (`INSTR_*` of the register machine's definition table, which is not
   * part of this model) are not fixed here: an engine is given a map from
   * opcode byte to instruction.
   */
  datatype Op =
    | Iadd | Isub | Imul | Ilt | Ieq
    | Fadd | Fsub | Fmul | Flt | Feq | Itof
    | Call | Ret | Br | Brt | Brf
    | Cconst | Iconst | Fconst | Sconst
    | Gload | Gstore | Fload | Fstore
    | Move | Print | Struct | LoadNull | Halt

  /** The integer instructions `rk = ri op rj`. */
  predicate IntBinary(op: Op) {
    op == Iadd || op == Isub || op == Imul || op == Ilt || op == Ieq
  }

  /** The shared integer operation an integer instruction performs. */
  function Arithmetic(op: Op): IntOp
    requires IntBinary(op)
  {
    match op
    case Iadd => Add
    case Isub => Sub
    case Imul => Mul
    case Ilt => Less
    case Ieq => Equal
  }

  /** A `StackFrame` as a value: the function, where to return to, and its registers. */
  datatype Frame = Frame(sym: FunctionSymbol, returnAddress: int, registers: seq<Value>)

  /**
   * The number of registers a frame for `sym` has: one per argument and
   * local, and `r0`, summed in Java `int` arithmetic, so a sum past the
   * `int` range wraps around (and a wrapped negative size throws).
   */
  function RegisterCount(sym: FunctionSymbol): (n: Int32)
    ensures var sum := sym.numArgs + sym.numLocals + 1;
      && (-0x8000_0000 <= sum < 0x8000_0000 ==> n == sum)
      && (sum >= 0x8000_0000 ==> n == sum - TWO_32 && n < 0)
      && (sum < -0x8000_0000 ==> n == sum + TWO_32 && n > 0)
  {
    Wrap32(sym.numArgs + sym.numLocals + 1)
  }

  /** `new StackFrame(sym, returnAddress)`: all registers `null`; a negative count throws. */
  function NewFrame(sym: FunctionSymbol, returnAddress: int): (r: Result<Frame, Fault>)
    ensures r.Ok? <==> RegisterCount(sym) >= 0
    ensures r.Ok? ==> r.value.sym == sym && r.value.returnAddress == returnAddress
    ensures r.Ok? ==> |r.value.registers| == RegisterCount(sym)
    ensures r.Ok? ==> forall k :: 0 <= k < |r.value.registers| ==> r.value.registers[k] == Null
  {
    match NullArray(RegisterCount(sym))
    case Err(e) => Err(e)
    case Ok(registers) => Ok(Frame(sym, returnAddress, registers))
  }

  /** The register count wraps as Java's `int` sum does: past the top it throws, two minima give one register. */
  lemma FrameSizeWraps(name: string, address: Int32)
    ensures NewFrame(FunctionSymbol(name, 0x7fff_ffff, 0, address), 0).Err?
    ensures var f := NewFrame(FunctionSymbol(name, -0x8000_0000, -0x8000_0000, address), 0);
      f.Ok? && |f.value.registers| == 1
  {
  }

  /** The program the engine runs: code memory, its used size, the pool and the opcode assignment. */
  datatype Env = Env(code: seq<Byte>, codeSize: int, constPool: seq<PoolEntry>, opcodes: map<int, Op>)

  /**
   * The registers and memories the cycle changes. `frames` are the live
   * slots `calls[0..fp]`, so `fp` is `|frames| - 1` and the top frame is
   * the last; `output` collects what `print` writes.
   */
  datatype State = State(ip: int, frames: seq<Frame>, globals: seq<Value>, output: seq<Value>)

  /** The top frame, whose registers every instruction addresses. */
  function Top(s: State): Frame
    requires |s.frames| > 0
  {
    s.frames[|s.frames| - 1]
  }

  // ----- Register and operand primitives --------------------------------

  /** `getIntOperand()` (and `getRegOperand()`): the word at `ip`, and the state with `ip` past it. */
  function Operand(env: Env, s: State): (r: Result<(Int32, State), Fault>)
    ensures r.Ok? <==> FetchWord(env.code, s.ip).Ok?
    ensures r.Ok? ==> r.value == (GetInt(env.code, s.ip), s.(ip := s.ip + 4))
  {
    match FetchWord(env.code, s.ip)
    case Err(e) => Err(e)
    case Ok(w) => Ok((w, s.(ip := s.ip + 4)))
  }

  /** Reading `r[i]` of the top frame. */
  function Reg(s: State, i: int): (r: Result<Value, Fault>)
    requires |s.frames| > 0
    ensures r.Ok? <==> 0 <= i < |Top(s).registers|
    ensures r.Ok? ==> r.value == Top(s).registers[i]
  {
    if 0 <= i < |Top(s).registers| then Ok(Top(s).registers[i]) else Err(HostException)
  }

  /** Writing `v` into register `k` of the top frame; nothing else changes. */
  function SetReg(s: State, k: int, v: Value): (r: Result<State, Fault>)
    requires |s.frames| > 0
    ensures r.Ok? <==> 0 <= k < |Top(s).registers|
    ensures r.Ok? ==> r.value.ip == s.ip && r.value.globals == s.globals && r.value.output == s.output
    ensures r.Ok? ==> |r.value.frames| == |s.frames| && r.value.frames[..|s.frames| - 1] == s.frames[..|s.frames| - 1]
    ensures r.Ok? ==> Top(r.value) == Top(s).(registers := Top(s).registers[k := v])
  {
    var top := Top(s);
    if 0 <= k < |top.registers| then
      Ok(s.(frames := s.frames[|s.frames| - 1 := top.(registers := top.registers[k := v])]))
    else Err(HostException)
  }

  // ----- Instruction semantics ------------------------------------------

  /** The values of registers `i` and `j`, both of which must hold an `Integer`. */
  function IntArgs(s: State, i: int, j: int): (r: Result<(Int32, Int32), Fault>)
    requires |s.frames| > 0
    ensures var regs := Top(s).registers;
      r.Ok? <==> 0 <= i < |regs| && 0 <= j < |regs| && regs[i].IntV? && regs[j].IntV?
    ensures r.Ok? ==> r.value == (Top(s).registers[i].i, Top(s).registers[j].i)
  {
    match Reg(s, i)
    case Err(e) => Err(e)
    case Ok(a) =>
      match Reg(s, j)
      case Err(e) => Err(e)
      case Ok(b) => if a.IntV? && b.IntV? then Ok((a.i, b.i)) else Err(HostException)
  }

  /**
   * Three register operands `i, j, k`; register `k` gets `op` of registers
   * `i` and `j`, which must both hold an `Integer` (a `null` or another
   * object throws).
   */
  function Arith(env: Env, s: State, op: IntOp): (r: Result<State, Fault>)
    requires |s.frames| > 0
  {
    match Operand(env, s)
    case Err(e) => Err(e)
    case Ok((i, s1)) =>
      match Operand(env, s1)
      case Err(e) => Err(e)
      case Ok((j, s2)) =>
        match Operand(env, s2)
        case Err(e) => Err(e)
        case Ok((k, s3)) =>
          Compute(s3, op, i, j, k)
  }

  /** Register `k` gets `op` of registers `i` and `j`, both holding an `Integer`. */
  function Compute(s: State, op: IntOp, i: Int32, j: Int32, k: Int32): (r: Result<State, Fault>)
    requires |s.frames| > 0
  {
    match IntArgs(s, i, j)
    case Err(e) => Err(e)
    case Ok((a, b)) => SetReg(s, k, IntResult(op, a, b))
  }

  /**
   * The callee's frame in `call`: `new StackFrame(f, s.ip)`, with the
   * caller's `r[base..base+numArgs)` copied into its `r1..` unless
   * `numArgs` is negative (then nothing is copied).
   */
  function Callee(s: State, f: FunctionSymbol, base: Int32): (r: Result<Frame, Fault>)
    requires |s.frames| > 0
  {
    match NewFrame(f, s.ip)
    case Err(e) => Err(e)
    case Ok(callee) =>
      if f.numArgs < 0 then Ok(callee)
      else
        match ArrayCopy(Top(s).registers, base, callee.registers, 1, f.numArgs)
        case Err(e) => Err(e)
        case Ok(registers) => Ok(callee.(registers := registers))
  }

  /**
   * `call(index, base)` with `ip` past both operands: the pool entry must
   * be a function; its frame, returning to `ip` and holding the copied
   * arguments, is pushed and control moves to the function.
   */
  function Invoke(env: Env, s: State, index: Int32, base: Int32): (r: Result<State, Fault>)
    requires |s.frames| > 0
  {
    if !(0 <= index < |env.constPool|) || !env.constPool[index].FuncConst? then Err(HostException)
    else
      var f := env.constPool[index].sym;
      match Callee(s, f, base)
      case Err(e) => Err(e)
      case Ok(callee) =>
        if |s.frames| >= DEFAULT_CALL_STACK_SIZE then Err(HostException)
        else Ok(s.(frames := s.frames + [callee], ip := f.address))
  }

  /** `call` with its pool operand and its base register. */
  function CallOperands(env: Env, s: State): (r: Result<State, Fault>)
    requires |s.frames| > 0
  {
    match Operand(env, s)
    case Err(e) => Err(e)
    case Ok((index, s1)) =>
      match Operand(env, s1)
      case Err(e) => Err(e)
      case Ok((base, s2)) => Invoke(env, s2, index, base)
  }

  /**
   * `ret`: pop the top frame, copy its `r0` into the caller's `r0` and
   * continue at its return address. Popping the last frame leaves no
   * caller, and `calls[-1]` throws.
   */
  function Return(s: State): (r: Result<State, Fault>)
    requires |s.frames| > 0
  {
    var f := Top(s);
    var rest := s.frames[..|s.frames| - 1];
    if |rest| == 0 then Err(HostException)
    else
      var caller := rest[|rest| - 1];
      if |caller.registers| == 0 || |f.registers| == 0 then Err(HostException)
      else
        Ok(s.(frames := rest[|rest| - 1 := caller.(registers := caller.registers[0 := f.registers[0]])],
              ip := f.returnAddress))
  }

  /** `br addr`. */
  function JumpTo(env: Env, s: State): (r: Result<State, Fault>)
  {
    match Operand(env, s)
    case Err(e) => Err(e)
    case Ok((addr, s1)) => Ok(s1.(ip := addr))
  }

  /**
   * `brt i, addr` (`jumpOn` true) and `brf i, addr`: `r[i]` must be a
   * `Boolean` (a `null` throws on unboxing); the register is left as it is.
   */
  function Branch(env: Env, s: State, jumpOn: bool): (r: Result<State, Fault>)
    requires |s.frames| > 0
  {
    match Operand(env, s)
    case Err(e) => Err(e)
    case Ok((i, s1)) =>
      match Operand(env, s1)
      case Err(e) => Err(e)
      case Ok((addr, s2)) =>
        match Reg(s2, i)
        case Err(e) => Err(e)
        case Ok(v) =>
          if !v.BoolV? then Err(HostException)
          else if v.b == jumpOn then Ok(s2.(ip := addr))
          else Ok(s2)
  }

  /** `iconst i, w` and `cconst i, w`: `r[i]` becomes the word, or its low 16 bits as a `char`. */
  function SetLiteral(env: Env, s: State, asChar: bool): (r: Result<State, Fault>)
    requires |s.frames| > 0
  {
    match Operand(env, s)
    case Err(e) => Err(e)
    case Ok((i, s1)) =>
      match Operand(env, s1)
      case Err(e) => Err(e)
      case Ok((w, s2)) => SetReg(s2, i, if asChar then CharV(ToChar(w)) else IntV(w))
  }

  /** `fconst i, index` and `sconst i, index`: `r[i]` becomes the pool entry. */
  function SetConst(env: Env, s: State): (r: Result<State, Fault>)
    requires |s.frames| > 0
  {
    match Operand(env, s)
    case Err(e) => Err(e)
    case Ok((i, s1)) =>
      match Operand(env, s1)
      case Err(e) => Err(e)
      case Ok((index, s2)) =>
        if 0 <= index < |env.constPool| then SetReg(s2, i, Const(env.constPool[index])) else Err(HostException)
  }

  /** `gload i, addr`: register `i` gets a copy of a global. */
  function LoadGlobal(env: Env, s: State): (r: Result<State, Fault>)
    requires |s.frames| > 0
  {
    match Operand(env, s)
    case Err(e) => Err(e)
    case Ok((i, s1)) =>
      match Operand(env, s1)
      case Err(e) => Err(e)
      case Ok((addr, s2)) =>
        if 0 <= addr < |s2.globals| then SetReg(s2, i, s2.globals[addr]) else Err(HostException)
  }

  /** `gstore i, addr`: a global gets a copy of register `i`. */
  function StoreGlobal(env: Env, s: State): (r: Result<State, Fault>)
    requires |s.frames| > 0
  {
    match Operand(env, s)
    case Err(e) => Err(e)
    case Ok((i, s1)) =>
      match Operand(env, s1)
      case Err(e) => Err(e)
      case Ok((addr, s2)) =>
        match Reg(s2, i)
        case Err(e) => Err(e)
        case Ok(v) =>
          if 0 <= addr < |s2.globals| then Ok(s2.(globals := s2.globals[addr := v])) else Err(HostException)
  }

  /** `move i, j`: register `j` gets a copy of register `i`. */
  function MoveReg(env: Env, s: State): (r: Result<State, Fault>)
    requires |s.frames| > 0
  {
    match Operand(env, s)
    case Err(e) => Err(e)
    case Ok((i, s1)) =>
      match Operand(env, s1)
      case Err(e) => Err(e)
      case Ok((j, s2)) =>
        match Reg(s2, i)
        case Err(e) => Err(e)
        case Ok(v) => SetReg(s2, j, v)
  }

  /** `print i`: `r[i]` goes to the output. */
  function PrintReg(env: Env, s: State): (r: Result<State, Fault>)
    requires |s.frames| > 0
  {
    match Operand(env, s)
    case Err(e) => Err(e)
    case Ok((i, s1)) =>
      match Reg(s1, i)
      case Err(e) => Err(e)
      case Ok(v) => Ok(s1.(output := s1.output + [v]))
  }

  /** `null i`: register `i` becomes `null`. */
  function ClearReg(env: Env, s: State): (r: Result<State, Fault>)
    requires |s.frames| > 0
  {
    match Operand(env, s)
    case Err(e) => Err(e)
    case Ok((i, s1)) => SetReg(s1, i, Null)
  }

  /** The instructions that move control: `call`, `ret`, `br`, `brt`, `brf`. */
  predicate Transfers(op: Op) {
    op.Call? || op.Ret? || op.Br? || op.Brt? || op.Brf?
  }

  /** The `switch` cases that move control, with `ip` already past the opcode. */
  function Transfer(env: Env, s: State, op: Op): (r: Result<State, Fault>)
    requires |s.frames| > 0 && Transfers(op)
  {
    match op
    case Call => CallOperands(env, s)
    case Ret => Return(s)
    case Br => JumpTo(env, s)
    case Brt => Branch(env, s, true)
    case Brf => Branch(env, s, false)
  }

  /**
   * The `switch` cases that move data, with `ip` already past the opcode;
   * the float instructions, `fload`, `fstore` and `struct` are not modelled.
   */
  function DataOp(env: Env, s: State, op: Op): (r: Result<State, Fault>)
    requires |s.frames| > 0
  {
    match op
    case Cconst => SetLiteral(env, s, true)
    case Iconst => SetLiteral(env, s, false)
    case Fconst => SetConst(env, s)
    case Sconst => SetConst(env, s)
    case Gload => LoadGlobal(env, s)
    case Gstore => StoreGlobal(env, s)
    case _ => RegisterOp(env, s, op)
  }

  /** The rest of `DataOp`: the cases that work on registers alone. */
  function RegisterOp(env: Env, s: State, op: Op): (r: Result<State, Fault>)
    requires |s.frames| > 0
  {
    match op
    case Move => MoveReg(env, s)
    case Print => PrintReg(env, s)
    case LoadNull => ClearReg(env, s)
    case _ => Err(Unmodelled)
  }

  /**
   * One pass of the loop body, for the opcode fetched at `s.ip`: `ip`
   * moves past the opcode and the top frame's registers are looked up
   * (with no frame, `calls[-1]` throws), then the instruction runs. An
   * opcode the `switch` does not know (`halt` among them: the loop stops
   * before it) is an invalid-opcode error naming the opcode's address.
   */
  function Execute(env: Env, s: State, opcode: int): (r: Result<State, Fault>)
  {
    var s1 := s.(ip := s.ip + 1);
    if |s.frames| == 0 then Err(HostException)
    else if opcode !in env.opcodes || env.opcodes[opcode] == Halt then Err(InvalidOpcode(opcode, s.ip))
    else Dispatch(env, s1, env.opcodes[opcode])
  }

  /** The `switch` on a known instruction, by group. */
  function Dispatch(env: Env, s: State, op: Op): (r: Result<State, Fault>)
    requires |s.frames| > 0
  {
    if IntBinary(op) then Arith(env, s, Arithmetic(op))
    else if Transfers(op) then Transfer(env, s, op)
    else DataOp(env, s, op)
  }

  /** The loop condition's first half: the fetched opcode is `halt`. */
  predicate IsHalt(env: Env, opcode: int) {
    opcode in env.opcodes && env.opcodes[opcode] == Halt
  }

  /** How a bounded run ends without a fault: stopped by the loop condition, or out of fuel. */
  datatype Outcome = Stopped(s: State) | Running(s: State)

  /**
   * `cpu()` for at most `fuel` instructions. Each round fetches the byte at
   * `ip` (which throws outside the code array), stops on `halt` or when
   * `ip >= codeSize`, and otherwise executes it.
   */
  function Run(env: Env, s: State, fuel: nat): (r: Result<Outcome, Fault>)
    decreases fuel, 2
  {
    match FetchOpcode(env.code, s.ip)
    case Err(e) => Err(e)
    case Ok(opcode) =>
      if IsHalt(env, opcode) || s.ip >= env.codeSize then Ok(Stopped(s))
      else Proceed(env, s, opcode, fuel)
  }

  /** A round of `Run` past the loop condition: out of fuel, or on to the instruction. */
  function Proceed(env: Env, s: State, opcode: int, fuel: nat): (r: Result<Outcome, Fault>)
    decreases fuel, 1
  {
    if fuel == 0 then Ok(Running(s)) else Continue(env, s, opcode, fuel - 1)
  }

  /** The rest of a round of `Run`: execute the fetched instruction, then go on with `fuel` more. */
  function Continue(env: Env, s: State, opcode: int, fuel: nat): (r: Result<Outcome, Fault>)
    decreases fuel, 3
  {
    match Execute(env, s, opcode)
    case Err(e) => Err(e)
    case Ok(s1) => Run(env, s1, fuel)
  }

  /**
   * The state `exec` hands to `cpu`: a frame for `main` returning to the
   * current `ip`, and `ip` at `main`'s address.
   */
  function Start(s: State, mainFunction: FunctionSymbol): (r: Result<State, Fault>)
  {
    match NewFrame(mainFunction, s.ip)
    case Err(e) => Err(e)
    case Ok(frame) =>
      if |s.frames| < DEFAULT_CALL_STACK_SIZE then Ok(s.(frames := s.frames + [frame], ip := mainFunction.address))
      else Err(HostException)
  }

  // ----- Properties of the instruction semantics ------------------------

  /** The operand words an instruction reads after its opcode byte. */
  function Arity(op: Op): nat {
    match op
    case Iadd | Isub | Imul | Ilt | Ieq | Fadd | Fsub | Fmul | Flt | Feq | Fload | Fstore => 3
    case Itof | Call | Brt | Brf | Cconst | Iconst | Fconst | Sconst | Gload | Gstore | Move | Struct => 2
    case Br | Print | LoadNull => 1
    case Ret | Halt => 0
  }

  /** A known instruction other than `halt` runs its `switch` case with `ip` past the opcode. */
  lemma Dispatches(env: Env, s: State, opcode: int)
    requires opcode in env.opcodes && env.opcodes[opcode] != Halt && |s.frames| > 0
    ensures Execute(env, s, opcode) == Dispatch(env, s.(ip := s.ip + 1), env.opcodes[opcode])
  {
  }

  /**
   * The cases of `cpu`'s `switch`: with `ip` moved past the opcode, each
   * instruction runs the function of its case; the float instructions,
   * `fload`, `fstore` and `struct` are not modelled.
   */
  lemma SwitchCases(env: Env, s: State, opcode: int)
    requires opcode in env.opcodes && env.opcodes[opcode] != Halt && |s.frames| > 0
    ensures var s1, op, r := s.(ip := s.ip + 1), env.opcodes[opcode], Execute(env, s, opcode);
      && (IntBinary(op) ==> r == Arith(env, s1, Arithmetic(op)))
      && (op == Call ==> r == CallOperands(env, s1))
      && (op == Ret ==> r == Return(s1))
      && (op == Br ==> r == JumpTo(env, s1))
      && (op == Brt || op == Brf ==> r == Branch(env, s1, op == Brt))
      && (op == Iconst || op == Cconst ==> r == SetLiteral(env, s1, op == Cconst))
      && (op == Fconst || op == Sconst ==> r == SetConst(env, s1))
      && (op == Gload ==> r == LoadGlobal(env, s1))
      && (op == Gstore ==> r == StoreGlobal(env, s1))
      && (op == Move ==> r == MoveReg(env, s1))
      && (op == Print ==> r == PrintReg(env, s1))
      && (op == LoadNull ==> r == ClearReg(env, s1))
      && (op.Fadd? || op.Fsub? || op.Fmul? || op.Flt? || op.Feq? || op.Itof? || op.Fload? || op.Fstore? || op.Struct? ==>
            r == Err(Unmodelled))
  {
    var s1, op := s.(ip := s.ip + 1), env.opcodes[opcode];
    Dispatches(env, s, opcode);
    if IntBinary(op) {
      assert Dispatch(env, s1, op) == Arith(env, s1, Arithmetic(op));
    } else if Transfers(op) {
      assert Dispatch(env, s1, op) == Transfer(env, s1, op);
    } else {
      assert Dispatch(env, s1, op) == DataOp(env, s1, op);
    }
  }

  /**
   * An instruction that does not transfer control, run with `ip` past its
   * opcode, moves `ip` past its operand words and changes no frame but the top one,
   * which keeps its function, return address and register count.
   */
  lemma Advance(env: Env, s: State, op: Op)
    requires |s.frames| > 0 && !Transfers(op) && Dispatch(env, s, op).Ok?
    ensures var r := Dispatch(env, s, op).value;
      && r.ip == s.ip + 4 * Arity(op)
      && |r.frames| == |s.frames|
      && r.frames[..|s.frames| - 1] == s.frames[..|s.frames| - 1]
      && Top(r).sym == Top(s).sym && Top(r).returnAddress == Top(s).returnAddress
      && |Top(r).registers| == |Top(s).registers|
  {
    if IntBinary(op) {
      assert Dispatch(env, s, op) == Arith(env, s, Arithmetic(op));
      IntegerOp(env, s, Arithmetic(op));
    } else {
      assert Dispatch(env, s, op) == DataOp(env, s, op);
      DataAdvance(env, s, op);
    }
  }

  /** `r` is `s` moved past `k` operand words, with only the top frame's register values changed. */
  ghost predicate Advanced(s: State, r: State, k: int)
    requires |s.frames| > 0
  {
    && r.ip == s.ip + 4 * k
    && |r.frames| == |s.frames|
    && r.frames[..|s.frames| - 1] == s.frames[..|s.frames| - 1]
    && Top(r).sym == Top(s).sym && Top(r).returnAddress == Top(s).returnAddress
    && |Top(r).registers| == |Top(s).registers|
  }

  /** `Advance` for the cases `DataOp` runs. */
  lemma DataAdvance(env: Env, s: State, op: Op)
    requires |s.frames| > 0 && DataOp(env, s, op).Ok?
    ensures Advanced(s, DataOp(env, s, op).value, Arity(op))
  {
    match op {
      case Cconst => Literal(env, s, true);
      case Iconst => Literal(env, s, false);
      case Fconst => ConstantSet(env, s);
      case Sconst => ConstantSet(env, s);
      case Gload => LoadGlobalSets(env, s);
      case Gstore =>
      case Move | Print | LoadNull =>
        assert DataOp(env, s, op) == RegisterOp(env, s, op);
        RegisterAdvance(env, s, op);
    }
  }

  /** `Advance` for the cases `RegisterOp` runs. */
  lemma RegisterAdvance(env: Env, s: State, op: Op)
    requires |s.frames| > 0 && RegisterOp(env, s, op).Ok?
    ensures Advanced(s, RegisterOp(env, s, op).value, Arity(op))
  {
    match op {
      case Move => MoveCopies(env, s);
      case Print => PrintAppends(env, s);
      case LoadNull => ClearSetsNull(env, s);
    }
  }

  /*
   * The instructions one by one, each with `ip` at its first operand word
   * (`Execute` has moved it past the opcode; see `SwitchCases`).
   */

  /**
   * `iadd`, `isub`, `imul`, `ilt`, `ieq` with register operands `i, j, k`
   * need `Integer`s in registers `i` and `j` and a register `k`; register
   * `k` gets the result and nothing else changes.
   */
  lemma IntegerOp(env: Env, s: State, op: IntOp)
    requires |s.frames| > 0
    ensures Arith(env, s, op).Ok? <==>
      && 0 <= s.ip && s.ip + 12 <= |env.code|
      && var i, j, k := GetInt(env.code, s.ip), GetInt(env.code, s.ip + 4), GetInt(env.code, s.ip + 8);
         var r := Top(s).registers;
         0 <= i < |r| && 0 <= j < |r| && 0 <= k < |r| && r[i].IntV? && r[j].IntV?
    ensures Arith(env, s, op).Ok? ==>
      var i, j, k := GetInt(env.code, s.ip), GetInt(env.code, s.ip + 4), GetInt(env.code, s.ip + 8);
      var r := Top(s).registers;
      Arith(env, s, op).value ==
        s.(ip := s.ip + 12, frames := s.frames[|s.frames| - 1 := Top(s).(registers := r[k := IntResult(op, r[i].i, r[j].i)])])
  {
  }

  /**
   * `call index, base` reads both operands and invokes the pool entry with
   * `ip` after them, which becomes the callee's return address.
   */
  lemma CallDecodes(env: Env, s: State)
    requires |s.frames| > 0
    ensures CallOperands(env, s) ==
      if 0 <= s.ip && s.ip + 8 <= |env.code| then
        Invoke(env, s.(ip := s.ip + 8), GetInt(env.code, s.ip), GetInt(env.code, s.ip + 4))
      else Err(HostException)
  {
  }

  /**
   * `call(index, base)` succeeds exactly when the entry is a function with
   * a non-negative register count, a frame slot is free and, when it takes
   * arguments, they lie in the caller's registers and fit the callee's. It
   * then pushes one frame returning to `ip` and leaves every other frame,
   * the caller's included, as it was; the callee's `r1..r{numArgs}` are
   * the caller's `r[base..base+numArgs)`, its other registers `null`.
   */
  lemma InvokeCopiesArguments(env: Env, s: State, index: Int32, base: Int32)
    requires |s.frames| > 0
    ensures Invoke(env, s, index, base).Ok? <==>
      && 0 <= index < |env.constPool| && env.constPool[index].FuncConst?
      && RegisterCount(env.constPool[index].sym) >= 0
      && |s.frames| < DEFAULT_CALL_STACK_SIZE
      && (var f := env.constPool[index].sym;
          f.numArgs >= 0 ==> 0 <= base && base + f.numArgs <= |Top(s).registers| && f.numLocals >= 0)
    ensures Invoke(env, s, index, base).Ok? ==>
      var f := env.constPool[index].sym;
      var r := Invoke(env, s, index, base).value;
      && r.ip == f.address && r.globals == s.globals && r.output == s.output
      && |r.frames| == |s.frames| + 1 && r.frames[..|s.frames|] == s.frames
      && Top(r).sym == f && Top(r).returnAddress == s.ip
      && |Top(r).registers| == RegisterCount(f)
      && (forall m :: 1 <= m <= f.numArgs ==> Top(r).registers[m] == Top(s).registers[base + (m - 1)])
      && (forall m :: 0 <= m < |Top(r).registers| && !(1 <= m <= f.numArgs) ==> Top(r).registers[m] == Null)
  {
  }

  /**
   * `ret` needs a caller and an `r0` in both frames; it pops the top
   * frame, copies its `r0` into the caller's `r0` and continues at its
   * return address. In particular a `ret` from the only frame throws.
   */
  lemma ReturnCopiesResult(s: State)
    requires |s.frames| > 0
    ensures Return(s).Ok? <==>
      |s.frames| >= 2 && |Top(s).registers| >= 1 && |s.frames[|s.frames| - 2].registers| >= 1
    ensures Return(s).Ok? ==>
      var n := |s.frames|;
      var caller := s.frames[n - 2];
      Return(s).value ==
        s.(frames := s.frames[..n - 1][n - 2 := caller.(registers := caller.registers[0 := Top(s).registers[0]])],
           ip := Top(s).returnAddress)
  {
  }

  /**
   * Whatever the callee does to its own frame, a `ret` from it goes back
   * to the instruction after the `call`, one frame down, with the caller's
   * registers as they were except `r0`, which holds the callee's `r0`.
   */
  lemma CallThenReturn(env: Env, s: State, t: State)
    requires |s.frames| > 0 && CallOperands(env, s).Ok?
    requires |t.frames| == |s.frames| + 1 && t.frames[..|s.frames|] == s.frames
    requires Top(t).returnAddress == Top(CallOperands(env, s).value).returnAddress
    requires |Top(t).registers| >= 1 && |Top(s).registers| >= 1
    ensures Return(t).Ok?
    ensures Return(t).value.ip == s.ip + 8
    ensures Return(t).value.frames ==
      s.frames[|s.frames| - 1 := Top(s).(registers := Top(s).registers[0 := Top(t).registers[0]])]
  {
    CallDecodes(env, s);
    InvokeCopiesArguments(env, s.(ip := s.ip + 8), GetInt(env.code, s.ip), GetInt(env.code, s.ip + 4));
    ReturnCopiesResult(t);
    assert t.frames[|s.frames| - 1] == Top(s);
    assert t.frames[..|t.frames| - 1] == s.frames;
  }

  /**
   * `brt i, addr` (`jumpOn` true) and `brf i, addr` need a `Boolean` in
   * `r[i]`; they jump to `addr` exactly when it equals `jumpOn`, otherwise
   * continue after the operands, and leave every register as it was.
   */
  lemma ConditionalBranch(env: Env, s: State, jumpOn: bool)
    requires |s.frames| > 0
    ensures Branch(env, s, jumpOn).Ok? <==>
      && 0 <= s.ip && s.ip + 8 <= |env.code|
      && var i := GetInt(env.code, s.ip); 0 <= i < |Top(s).registers| && Top(s).registers[i].BoolV?
    ensures Branch(env, s, jumpOn).Ok? ==>
      var i, addr := GetInt(env.code, s.ip), GetInt(env.code, s.ip + 4);
      Branch(env, s, jumpOn).value == s.(ip := if Top(s).registers[i] == BoolV(jumpOn) then addr else s.ip + 8)
  {
  }

  /** `br addr` jumps to its operand and changes nothing else. */
  lemma JumpUnconditional(env: Env, s: State)
    ensures JumpTo(env, s).Ok? <==> 0 <= s.ip && s.ip + 4 <= |env.code|
    ensures JumpTo(env, s).Ok? ==> JumpTo(env, s).value == s.(ip := GetInt(env.code, s.ip))
  {
  }

  /** `move i, j` copies `r[i]` into `r[j]` and changes nothing else. */
  lemma MoveCopies(env: Env, s: State)
    requires |s.frames| > 0
    ensures MoveReg(env, s).Ok? <==>
      && 0 <= s.ip && s.ip + 8 <= |env.code|
      && var i, j := GetInt(env.code, s.ip), GetInt(env.code, s.ip + 4);
         0 <= i < |Top(s).registers| && 0 <= j < |Top(s).registers|
    ensures MoveReg(env, s).Ok? ==>
      var i, j := GetInt(env.code, s.ip), GetInt(env.code, s.ip + 4);
      var r := Top(s).registers;
      MoveReg(env, s).value == s.(ip := s.ip + 8, frames := s.frames[|s.frames| - 1 := Top(s).(registers := r[j := r[i]])])
  {
  }

  /** `iconst i, w` writes `w` into `r[i]`; `cconst i, w` (`asChar`) its low 16 bits as a `char`. */
  lemma Literal(env: Env, s: State, asChar: bool)
    requires |s.frames| > 0
    ensures SetLiteral(env, s, asChar).Ok? <==>
      0 <= s.ip && s.ip + 8 <= |env.code| && 0 <= GetInt(env.code, s.ip) < |Top(s).registers|
    ensures SetLiteral(env, s, asChar).Ok? ==>
      var i, w := GetInt(env.code, s.ip), GetInt(env.code, s.ip + 4);
      var v := if asChar then CharV(ToChar(w)) else IntV(w);
      SetLiteral(env, s, asChar).value ==
        s.(ip := s.ip + 8, frames := s.frames[|s.frames| - 1 := Top(s).(registers := Top(s).registers[i := v])])
  {
  }

  /**
   * `fconst i, index` and `sconst i, index` write the pool entry `index`
   * into `r[i]`; an index outside the pool or a missing register throws.
   */
  lemma ConstantSet(env: Env, s: State)
    requires |s.frames| > 0
    ensures SetConst(env, s).Ok? <==>
      && 0 <= s.ip && s.ip + 8 <= |env.code|
      && 0 <= GetInt(env.code, s.ip) < |Top(s).registers|
      && 0 <= GetInt(env.code, s.ip + 4) < |env.constPool|
    ensures SetConst(env, s).Ok? ==>
      var i, index := GetInt(env.code, s.ip), GetInt(env.code, s.ip + 4);
      SetConst(env, s).value ==
        s.(ip := s.ip + 8,
           frames := s.frames[|s.frames| - 1 := Top(s).(registers := Top(s).registers[i := Const(env.constPool[index])])])
  {
  }

  /** `gload i, addr` writes `globals[addr]` into `r[i]` and changes no global. */
  lemma LoadGlobalSets(env: Env, s: State)
    requires |s.frames| > 0
    ensures LoadGlobal(env, s).Ok? <==>
      && 0 <= s.ip && s.ip + 8 <= |env.code|
      && 0 <= GetInt(env.code, s.ip) < |Top(s).registers|
      && 0 <= GetInt(env.code, s.ip + 4) < |s.globals|
    ensures LoadGlobal(env, s).Ok? ==>
      var i, addr := GetInt(env.code, s.ip), GetInt(env.code, s.ip + 4);
      LoadGlobal(env, s).value ==
        s.(ip := s.ip + 8,
           frames := s.frames[|s.frames| - 1 := Top(s).(registers := Top(s).registers[i := s.globals[addr]])])
  {
  }

  /** `print i` appends `r[i]` to the output and changes no register. */
  lemma PrintAppends(env: Env, s: State)
    requires |s.frames| > 0
    ensures PrintReg(env, s).Ok? <==>
      0 <= s.ip && s.ip + 4 <= |env.code| && 0 <= GetInt(env.code, s.ip) < |Top(s).registers|
    ensures PrintReg(env, s).Ok? ==>
      PrintReg(env, s).value == s.(ip := s.ip + 4, output := s.output + [Top(s).registers[GetInt(env.code, s.ip)]])
  {
  }

  /** `null i` sets `r[i]` to `null` and changes nothing else. */
  lemma ClearSetsNull(env: Env, s: State)
    requires |s.frames| > 0
    ensures ClearReg(env, s).Ok? <==>
      0 <= s.ip && s.ip + 4 <= |env.code| && 0 <= GetInt(env.code, s.ip) < |Top(s).registers|
    ensures ClearReg(env, s).Ok? ==>
      ClearReg(env, s).value ==
        s.(ip := s.ip + 4,
           frames := s.frames[|s.frames| - 1 := Top(s).(registers := Top(s).registers[GetInt(env.code, s.ip) := Null])])
  {
  }

  /**
   * `gstore i, addr` (with `ip` at its operands) writes `r[i]` into
   * `globals[addr]` and changes no register; a later `gload j, addr` of
   * the same address writes it back into `r[j]` and changes no global.
   */
  lemma StoreThenLoadGlobal(env: Env, s: State, loadAt: int)
    requires |s.frames| > 0 && StoreGlobal(env, s).Ok?
    requires FetchWord(env.code, loadAt + 4) == FetchWord(env.code, s.ip + 4)
    requires FetchWord(env.code, loadAt).Ok? && 0 <= GetInt(env.code, loadAt) < |Top(s).registers|
    ensures var i, addr := GetInt(env.code, s.ip), GetInt(env.code, s.ip + 4);
      var t := StoreGlobal(env, s).value;
      && 0 <= i < |Top(s).registers| && 0 <= addr < |s.globals|
      && t.globals == s.globals[addr := Top(s).registers[i]]
      && t.frames == s.frames
      && LoadGlobal(env, t.(ip := loadAt)).Ok?
      && LoadGlobal(env, t.(ip := loadAt)).value.globals == t.globals
      && Reg(LoadGlobal(env, t.(ip := loadAt)).value, GetInt(env.code, loadAt)) == Ok(Top(s).registers[i])
  {
  }

  /** An opcode the `switch` does not know stops the engine with its value and address. */
  lemma InvalidOpcodeReported(env: Env, s: State, opcode: int)
    requires opcode !in env.opcodes || env.opcodes[opcode] == Halt
    requires |s.frames| > 0
    ensures Execute(env, s, opcode) == Err(InvalidOpcode(opcode, s.ip))
  {
  }

  /** One round of `Run` that executes an instruction. */
  lemma RunStep(env: Env, s: State, fuel: nat, opcode: int)
    requires FetchOpcode(env.code, s.ip) == Ok(opcode)
    requires !IsHalt(env, opcode) && s.ip < env.codeSize && fuel > 0
    ensures Run(env, s, fuel) ==
      match Execute(env, s, opcode)
      case Err(e) => Err(e)
      case Ok(s1) => Run(env, s1, fuel - 1)
  {
    assert Run(env, s, fuel) == Proceed(env, s, opcode, fuel);
    assert Proceed(env, s, opcode, fuel) == Continue(env, s, opcode, fuel - 1);
  }

  /** A fetch outside the code array ends the run with a fault. */
  lemma RunFetchFault(env: Env, s: State, fuel: nat)
    requires FetchOpcode(env.code, s.ip).Err?
    ensures Run(env, s, fuel) == Err(HostException)
  {
  }

  /** `halt`, or an address at or past `codeSize`, ends the run there. */
  lemma RunHalts(env: Env, s: State, fuel: nat, opcode: int)
    requires FetchOpcode(env.code, s.ip) == Ok(opcode)
    requires IsHalt(env, opcode) || s.ip >= env.codeSize
    ensures Run(env, s, fuel) == Ok(Stopped(s))
  {
  }

  /** With no fuel left a run that would go on reports where it is. */
  lemma RunOutOfFuel(env: Env, s: State, opcode: int)
    requires FetchOpcode(env.code, s.ip) == Ok(opcode)
    requires !IsHalt(env, opcode) && s.ip < env.codeSize
    ensures Run(env, s, 0) == Ok(Running(s))
  {
  }

  /**
   * A run that stops without a fault stops at a `halt` or at an address
   * at or past `codeSize`, and only there.
   */
  lemma {:induction false} RunStops(env: Env, s: State, fuel: nat)
    requires Run(env, s, fuel).Ok? && Run(env, s, fuel).value.Stopped?
    ensures var t := Run(env, s, fuel).value.s;
      && 0 <= t.ip < |env.code|
      && (IsHalt(env, SignedByte(env.code[t.ip])) || t.ip >= env.codeSize)
    decreases fuel
  {
    var opcode := FetchOpcode(env.code, s.ip).value;
    if !(IsHalt(env, opcode) || s.ip >= env.codeSize) {
      RunStep(env, s, fuel, opcode);
      RunStops(env, Execute(env, s, opcode).value, fuel - 1);
    }
  }

  /**
   * `exec` from no frames: exactly one frame, for `main`, with all
   * registers `null` and returning to the `ip` it started from; `ip` at
   * `main`'s address, which is 0 for the synthesized `main`.
   */
  lemma StartCallsMain(s: State, mainFunction: Option<FunctionSymbol>)
    requires s.frames == []
    ensures var m := MainOrDefault(mainFunction);
      Start(s, m).Ok? <==> RegisterCount(m) >= 0
    ensures var m := MainOrDefault(mainFunction);
      var r := Start(s, m);
      r.Ok? ==>
        && |r.value.frames| == 1
        && r.value.frames[0].sym == m && r.value.frames[0].returnAddress == s.ip
        && |r.value.frames[0].registers| == RegisterCount(m)
        && (forall k :: 0 <= k < |r.value.frames[0].registers| ==> r.value.frames[0].registers[k] == Null)
        && r.value.ip == m.address
        && (mainFunction.None? ==> r.value.ip == 0)
        && r.value.globals == s.globals
  {
  }

  // ----- The engine ------------------------------------------------------

  /** `StackFrame`: a call's function, return address and register file, allocated here. */
  class StackFrame {
    const sym: FunctionSymbol
    const returnAddress: int
    const registers: array<Value>

    /** `new StackFrame(sym, returnAddress)`; the caller has checked that the register count is not negative. */
    constructor (sym: FunctionSymbol, returnAddress: int)
      requires RegisterCount(sym) >= 0
      ensures fresh(registers)
      ensures NewFrame(sym, returnAddress) == Ok(View())
    {
      this.sym := sym;
      this.returnAddress := returnAddress;
      registers := new Value[RegisterCount(sym)](_ => Null);
      new;
      assert registers[..] == seq(RegisterCount(sym), _ => Null);
    }

    /** The frame as a value. */
    function View(): Frame
      reads registers
    {
      Frame(sym, returnAddress, registers[..])
    }
  }

  /**
   * `RegInterpreter` after `load`: code memory, pool and `main` as the
   * assembler left them, the frame stack `calls` of fixed capacity with
   * `fp` at its top, and the globals.
   */
  class RegInterpreter {
    const code: array<Byte>
    const codeSize: int
    const constPool: seq<PoolEntry>
    /** Which instruction each opcode byte selects (`INSTR_*`). */
    const opcodes: map<int, Op>
    var mainFunction: Option<FunctionSymbol>
    var ip: int
    const calls: array<StackFrame?>
    var fp: int
    const globals: array<Value>
    /** What `print` has written, in order. */
    var output: seq<Value>
    /** The live frames `calls[0..fp]` as values, bottom first. */
    ghost var frames: seq<Frame>
    /** For each live register file, the slot of `calls` whose frame owns it. */
    ghost var owner: map<array<Value>, int>

    /**
     * Slot `k` of `calls` holds a frame, which is what `frames[k]` records
     * and which owns its register file.
     */
    ghost predicate LiveSlot(k: int)
      reads this`frames, this`owner, calls
      reads if 0 <= k < calls.Length && calls[k] != null then {calls[k].registers} else {}
    {
      && 0 <= k < calls.Length && k < |frames|
      && calls[k] != null
      && calls[k].registers in owner && owner[calls[k].registers] == k
      && frames[k] == calls[k].View()
    }

    /**
     * The live slots `calls[0..fp]` hold frames owning distinct register
     * files (each is owned by its own slot), none of which is the globals
     * array; `frames` is what they hold.
     */
    ghost predicate Valid()
      reads this`fp, this`frames, this`owner, calls, Files()
    {
      && calls.Length == DEFAULT_CALL_STACK_SIZE
      && -1 <= fp < calls.Length
      && |frames| == fp + 1
      && globals !in owner
      && (forall k :: 0 <= k <= fp ==> LiveSlot(k))
    }

    /** `r` is the top frame's register file, `calls[fp].registers`. */
    ghost predicate TopFile(r: array<Value>)
      reads this`fp, calls
    {
      0 <= fp < calls.Length && calls[fp] != null && calls[fp].registers == r
    }

    /** The register files of the live frames. */
    function Files(): set<array<Value>>
      reads this`fp, calls
    {
      set k | 0 <= k <= fp && k < calls.Length && calls[k] != null :: calls[k].registers
    }

    function Environment(): Env
      reads code
    {
      Env(code[..], codeSize, constPool, opcodes)
    }

    ghost function Snapshot(): State
      reads this, globals
    {
      State(ip, frames, globals[..], output)
    }

    /** The engine is now in state `r`, or stopped with `r`'s fault. */
    ghost predicate Follows(r: Result<State, Fault>, fault: Option<Fault>)
      reads this, globals
    {
      match r
      case Ok(t) => fault == None && Snapshot() == t
      case Err(e) => fault == Some(e)
    }

    /** The engine ended a bounded run as `r` says. */
    ghost predicate Ran(r: Result<Outcome, Fault>, fault: Option<Fault>, stopped: bool)
      reads this, globals
    {
      match r
      case Err(e) => fault == Some(e)
      case Ok(Stopped(t)) => fault == None && stopped && Snapshot() == t
      case Ok(Running(t)) => fault == None && !stopped && Snapshot() == t
    }

    /** The loaded program with no frames and `null` globals; `ip` and `fp` as Java initialises them. */
    constructor (code: array<Byte>, codeSize: int, constPool: seq<PoolEntry>, mainFunction: Option<FunctionSymbol>,
                 dataSize: nat, opcodes: map<int, Op>)
      ensures Valid()
      ensures fresh(calls) && fresh(globals) && Files() == {}
      ensures this.code == code && Environment() == Env(code[..], codeSize, constPool, opcodes)
      ensures this.mainFunction == mainFunction
      ensures Snapshot() == State(0, [], seq(dataSize, _ => Null), [])
    {
      this.code := code;
      this.codeSize := codeSize;
      this.constPool := constPool;
      this.opcodes := opcodes;
      this.mainFunction := mainFunction;
      ip := 0;
      calls := new StackFrame?[DEFAULT_CALL_STACK_SIZE](_ => null);
      fp := -1;
      globals := new Value[dataSize](_ => Null);
      output := [];
      frames := [];
      owner := map[];
    }

    // ----- Primitive steps: one field or one array element at a time -----

    /** `getIntOperand()`: the word at `ip`; `ip` moves past it. */
    method GetIntOperand() returns (r: Result<Int32, Fault>)
      requires Valid()
      modifies this`ip
      ensures Valid()
      ensures r == FetchWord(code[..], old(ip))
      ensures match Operand(Environment(), old(Snapshot()))
        case Ok((w, t)) => r == Ok(w) && Snapshot() == t
        case Err(e) => r == Err(e)
    {
      if !(0 <= ip && ip + 4 <= code.Length) {
        return Err(HostException);
      }
      var word := GetInt(code[..], ip);
      ip := ip + 4;
      return Ok(word);
    }

    /** `r[i]` on the top frame's registers `r`; outside the array it throws. */
    method ReadRegister(r: array<Value>, i: int) returns (v: Result<Value, Fault>)
      requires Valid() && TopFile(r)
      ensures v == Reg(Snapshot(), i)
    {
      assert LiveSlot(fp);
      if !(0 <= i < r.Length) {
        return Err(HostException);
      }
      return Ok(r[i]);
    }

    /** The `Integer`s held by registers `i` and `j`. */
    method ReadIntegers(r: array<Value>, i: int, j: int) returns (v: Result<(Int32, Int32), Fault>)
      requires Valid() && TopFile(r)
      ensures v == IntArgs(Snapshot(), i, j)
    {
      assert LiveSlot(fp);
      if !(0 <= i < r.Length) || !(0 <= j < r.Length) || !r[i].IntV? || !r[j].IntV? {
        return Err(HostException);
      }
      return Ok((r[i].i, r[j].i));
    }

    /** Writes `v` into register `k` of the top frame's registers `r`. */
    method SetRegister(r: array<Value>, k: int, v: Value) returns (fault: Option<Fault>)
      requires Valid() && TopFile(r)
      modifies this`frames, r
      ensures Valid()
      ensures Follows(SetReg(old(Snapshot()), k, v), fault)
    {
      assert LiveSlot(fp);
      if !(0 <= k < r.Length) {
        return Some(HostException);
      }
      r[k] := v;
      frames := frames[fp := calls[fp].View()];
      forall m | 0 <= m <= fp
        ensures LiveSlot(m)
      {
        assert old(LiveSlot(m));
      }
      return None;
    }

    /** Writes `v` into a global. */
    method SetGlobal(addr: int, v: Value)
      requires Valid() && 0 <= addr < globals.Length
      modifies globals
      ensures Valid()
      ensures Snapshot() == old(Snapshot()).(globals := old(Snapshot()).globals[addr := v])
    {
      globals[addr] := v;
      forall m | 0 <= m <= fp
        ensures LiveSlot(m)
      {
        assert old(LiveSlot(m));
      }
    }

    /** Pushes the frame `f`, whose register file no live frame uses, onto the call stack. */
    method PushFrame(f: StackFrame)
      requires Valid() && fp + 1 < calls.Length && f.registers !in Files() && f.registers != globals
      modifies this`fp, this`frames, this`owner, calls
      ensures Valid()
      ensures Snapshot() == old(Snapshot()).(frames := old(Snapshot()).frames + [f.View()])
      ensures Files() <= old(Files()) + {f.registers}
    {
      fp := fp + 1;
      calls[fp] := f;
      frames := frames + [f.View()];
      owner := owner[f.registers := fp];
      forall m | 0 <= m <= fp
        ensures LiveSlot(m)
      {
        if m < fp {
          assert old(LiveSlot(m));
        }
      }
    }

    /** `ip = addr`. */
    method SetIp(addr: int)
      requires Valid()
      modifies this`ip
      ensures Valid()
      ensures Snapshot() == old(Snapshot()).(ip := addr)
    {
      ip := addr;
    }

    // ----- The cases of the `switch` -------------------------------------

    /** Register `k` gets `op` of registers `i` and `j`, on the top frame's registers `r`. */
    method ComputeInto(r: array<Value>, op: IntOp, i: Int32, j: Int32, k: Int32) returns (fault: Option<Fault>)
      requires Valid() && TopFile(r)
      modifies this`frames, r
      ensures Valid()
      ensures Follows(Compute(old(Snapshot()), op, i, j, k), fault)
    {
      var ab := ReadIntegers(r, i, j);
      if ab.Err? {
        return Some(HostException);
      }
      fault := SetRegister(r, k, IntResult(op, ab.value.0, ab.value.1));
    }

    /** The integer cases: registers `i, j, k`, then `rk = ri op rj`. */
    method ArithOp(r: array<Value>, op: IntOp) returns (fault: Option<Fault>)
      requires Valid() && TopFile(r)
      modifies this`ip, this`frames, r
      ensures Valid()
      ensures Follows(Arith(Environment(), old(Snapshot()), op), fault)
    {
      var i := GetIntOperand();
      if i.Err? {
        return Some(HostException);
      }
      var j := GetIntOperand();
      if j.Err? {
        return Some(HostException);
      }
      var k := GetIntOperand();
      if k.Err? {
        return Some(HostException);
      }
      fault := ComputeInto(r, op, i.value, j.value, k.value);
    }

    /** `new StackFrame(fs, ip)` and the `arraycopy` of the arguments into it from `r[base..]`. */
    method NewCallee(r: array<Value>, fs: FunctionSymbol, base: Int32) returns (f: Result<StackFrame, Fault>)
      requires Valid() && TopFile(r)
      ensures f.Ok? ==> fresh(f.value.registers) && Callee(Snapshot(), fs, base) == Ok(f.value.View())
      ensures f.Err? ==> Callee(Snapshot(), fs, base) == Err(f.error)
    {
      assert LiveSlot(fp);
      if RegisterCount(fs) < 0 {
        return Err(HostException);
      }
      var callee := new StackFrame(fs, ip);
      if fs.numArgs >= 0 {
        var ok := CopyArray(r, base, callee.registers, 1, fs.numArgs);
        if !ok {
          return Err(HostException);
        }
      }
      return Ok(callee);
    }

    /**
     * `call(index, base)`: the frame for the pool's function, returning to
     * `ip` and holding the arguments, goes on top of `calls`, and control
     * moves to the function.
     */
    method CallFunction(r: array<Value>, index: Int32, base: Int32) returns (fault: Option<Fault>)
      requires Valid() && TopFile(r)
      modifies this`ip, this`fp, this`frames, this`owner, calls
      ensures Valid()
      ensures Follows(Invoke(Environment(), old(Snapshot()), index, base), fault)
      ensures fresh(Files() - old(Files()))
    {
      if !(0 <= index < |constPool|) || !constPool[index].FuncConst? {
        return Some(HostException);
      }
      var fs := constPool[index].sym;
      var f := NewCallee(r, fs, base);
      if f.Err? || fp + 1 >= calls.Length {
        return Some(HostException);
      }
      PushFrame(f.value);
      SetIp(fs.address);
      return None;
    }

    /** `call`: the pool operand and the base register, then `call`. */
    method CallWithOperands(r: array<Value>) returns (fault: Option<Fault>)
      requires Valid() && TopFile(r)
      modifies this`ip, this`fp, this`frames, this`owner, calls
      ensures Valid()
      ensures Follows(CallOperands(Environment(), old(Snapshot())), fault)
      ensures fresh(Files() - old(Files()))
    {
      var index := GetIntOperand();
      if index.Err? {
        return Some(HostException);
      }
      var base := GetIntOperand();
      if base.Err? {
        return Some(HostException);
      }
      fault := CallFunction(r, index.value, base.value);
    }

    /** `ret`: pop the top frame, hand its `r0` to the caller's `r0`, return. */
    method ReturnFromCall() returns (fault: Option<Fault>)
      requires Valid() && fp >= 0
      modifies this`ip, this`fp, this`frames, Files()
      ensures Valid()
      ensures Follows(Return(old(Snapshot())), fault)
      ensures Files() <= old(Files())
    {
      if fp - 1 < 0 {
        return Some(HostException);
      }
      assert LiveSlot(fp) && LiveSlot(fp - 1);
      var f := calls[fp];
      var caller := calls[fp - 1].registers;
      if caller.Length == 0 || f.registers.Length == 0 {
        return Some(HostException);
      }
      caller[0] := f.registers[0];
      fp := fp - 1;
      ip := f.returnAddress;
      frames := frames[..fp + 1][fp := calls[fp].View()];
      forall m | 0 <= m <= fp
        ensures LiveSlot(m)
      {
        assert old(LiveSlot(m));
      }
      return None;
    }

    /** `br`: `ip = getIntOperand()`. */
    method JumpToOperand() returns (fault: Option<Fault>)
      requires Valid()
      modifies this`ip
      ensures Valid()
      ensures Follows(JumpTo(Environment(), old(Snapshot())), fault)
    {
      var addr := GetIntOperand();
      if addr.Err? {
        return Some(HostException);
      }
      SetIp(addr.value);
      return None;
    }

    /** `brt`/`brf`: jump to the target when `r[i]`, a `Boolean`, equals `jumpOn`. */
    method BranchIf(r: array<Value>, jumpOn: bool) returns (fault: Option<Fault>)
      requires Valid() && TopFile(r)
      modifies this`ip
      ensures Valid()
      ensures Follows(Branch(Environment(), old(Snapshot()), jumpOn), fault)
    {
      var i := GetIntOperand();
      if i.Err? {
        return Some(HostException);
      }
      var addr := GetIntOperand();
      if addr.Err? {
        return Some(HostException);
      }
      var v := ReadRegister(r, i.value);
      if v.Err? || !v.value.BoolV? {
        return Some(HostException);
      }
      if v.value.b == jumpOn {
        SetIp(addr.value);
      }
      return None;
    }

    /** `iconst`/`cconst`: `r[i]` becomes the operand, as an `Integer` or a `char`. */
    method SetLiteralOperand(r: array<Value>, asChar: bool) returns (fault: Option<Fault>)
      requires Valid() && TopFile(r)
      modifies this`ip, this`frames, r
      ensures Valid()
      ensures Follows(SetLiteral(Environment(), old(Snapshot()), asChar), fault)
    {
      var i := GetIntOperand();
      if i.Err? {
        return Some(HostException);
      }
      var w := GetIntOperand();
      if w.Err? {
        return Some(HostException);
      }
      fault := SetRegister(r, i.value, if asChar then CharV(ToChar(w.value)) else IntV(w.value));
    }

    /** `fconst`/`sconst`: register `i` gets the pool entry the operand names. */
    method SetConstOperand(r: array<Value>) returns (fault: Option<Fault>)
      requires Valid() && TopFile(r)
      modifies this`ip, this`frames, r
      ensures Valid()
      ensures Follows(SetConst(Environment(), old(Snapshot())), fault)
    {
      var i := GetIntOperand();
      if i.Err? {
        return Some(HostException);
      }
      var index := GetIntOperand();
      if index.Err? || !(0 <= index.value < |constPool|) {
        return Some(HostException);
      }
      fault := SetRegister(r, i.value, Const(constPool[index.value]));
    }

    /** `gload`: register `i` gets a copy of a global. */
    method LoadGlobalOperand(r: array<Value>) returns (fault: Option<Fault>)
      requires Valid() && TopFile(r)
      modifies this`ip, this`frames, r
      ensures Valid()
      ensures Follows(LoadGlobal(Environment(), old(Snapshot())), fault)
    {
      var i := GetIntOperand();
      if i.Err? {
        return Some(HostException);
      }
      var addr := GetIntOperand();
      if addr.Err? || !(0 <= addr.value < globals.Length) {
        return Some(HostException);
      }
      fault := SetRegister(r, i.value, globals[addr.value]);
    }

    /** `gstore`: a global gets a copy of register `i`. */
    method StoreGlobalOperand(r: array<Value>) returns (fault: Option<Fault>)
      requires Valid() && TopFile(r)
      modifies this`ip, globals
      ensures Valid()
      ensures Follows(StoreGlobal(Environment(), old(Snapshot())), fault)
    {
      var i := GetIntOperand();
      if i.Err? {
        return Some(HostException);
      }
      var addr := GetIntOperand();
      if addr.Err? {
        return Some(HostException);
      }
      var v := ReadRegister(r, i.value);
      if v.Err? || !(0 <= addr.value < globals.Length) {
        return Some(HostException);
      }
      SetGlobal(addr.value, v.value);
      return None;
    }

    /** `move`: register `j` gets a copy of register `i`. */
    method MoveOperand(r: array<Value>) returns (fault: Option<Fault>)
      requires Valid() && TopFile(r)
      modifies this`ip, this`frames, r
      ensures Valid()
      ensures Follows(MoveReg(Environment(), old(Snapshot())), fault)
    {
      var i := GetIntOperand();
      if i.Err? {
        return Some(HostException);
      }
      var j := GetIntOperand();
      if j.Err? {
        return Some(HostException);
      }
      var v := ReadRegister(r, i.value);
      if v.Err? {
        return Some(HostException);
      }
      fault := SetRegister(r, j.value, v.value);
    }

    /** `print`: register `i`'s value goes to the output. */
    method PrintOperand(r: array<Value>) returns (fault: Option<Fault>)
      requires Valid() && TopFile(r)
      modifies this`ip, this`output
      ensures Valid()
      ensures Follows(PrintReg(Environment(), old(Snapshot())), fault)
    {
      var i := GetIntOperand();
      if i.Err? {
        return Some(HostException);
      }
      var v := ReadRegister(r, i.value);
      if v.Err? {
        return Some(HostException);
      }
      output := output + [v.value];
      return None;
    }

    /** `null`: register `i` becomes `null`. */
    method ClearOperand(r: array<Value>) returns (fault: Option<Fault>)
      requires Valid() && TopFile(r)
      modifies this`ip, this`frames, r
      ensures Valid()
      ensures Follows(ClearReg(Environment(), old(Snapshot())), fault)
    {
      var i := GetIntOperand();
      if i.Err? {
        return Some(HostException);
      }
      fault := SetRegister(r, i.value, Null);
    }

    // ----- The fetch-decode-execute cycle --------------------------------

    /** The `switch` cases that move control. */
    method TransferControl(r: array<Value>, op: Op) returns (fault: Option<Fault>)
      requires Valid() && TopFile(r) && Transfers(op)
      modifies this`ip, this`fp, this`frames, this`owner, calls, Files()
      ensures Valid()
      ensures Follows(Transfer(Environment(), old(Snapshot()), op), fault)
      ensures fresh(Files() - old(Files()))
    {
      match op {
        case Call => fault := CallWithOperands(r);
        case Ret => fault := ReturnFromCall();
        case Br => fault := JumpToOperand();
        case Brt => fault := BranchIf(r, true);
        case Brf => fault := BranchIf(r, false);
      }
    }

    /** The `switch` cases that move data; the float, field and `struct` cases are not modelled. */
    method MoveData(r: array<Value>, op: Op) returns (fault: Option<Fault>)
      requires Valid() && TopFile(r)
      modifies this`ip, this`output, this`frames, globals, r
      ensures Valid()
      ensures Follows(DataOp(Environment(), old(Snapshot()), op), fault)
    {
      ghost var env, s := Environment(), Snapshot();
      match op {
        case Cconst => assert DataOp(env, s, op) == SetLiteral(env, s, true); fault := SetLiteralOperand(r, true);
        case Iconst => assert DataOp(env, s, op) == SetLiteral(env, s, false); fault := SetLiteralOperand(r, false);
        case Fconst => assert DataOp(env, s, op) == SetConst(env, s); fault := SetConstOperand(r);
        case Sconst => assert DataOp(env, s, op) == SetConst(env, s); fault := SetConstOperand(r);
        case Gload => assert DataOp(env, s, op) == LoadGlobal(env, s); fault := LoadGlobalOperand(r);
        case Gstore => assert DataOp(env, s, op) == StoreGlobal(env, s); fault := StoreGlobalOperand(r);
        case _ => assert DataOp(env, s, op) == RegisterOp(env, s, op); fault := MoveRegisters(r, op);
      }
    }

    /** `RegisterOp` on the top frame's registers `r`. */
    method MoveRegisters(r: array<Value>, op: Op) returns (fault: Option<Fault>)
      requires Valid() && TopFile(r)
      modifies this`ip, this`output, this`frames, r
      ensures Valid()
      ensures Follows(RegisterOp(Environment(), old(Snapshot()), op), fault)
    {
      ghost var env, s := Environment(), Snapshot();
      match op {
        case Move => assert RegisterOp(env, s, op) == MoveReg(env, s); fault := MoveOperand(r);
        case Print => assert RegisterOp(env, s, op) == PrintReg(env, s); fault := PrintOperand(r);
        case LoadNull => assert RegisterOp(env, s, op) == ClearReg(env, s); fault := ClearOperand(r);
        case _ => fault := Some(Unmodelled);
      }
    }

    /** The `switch` on a known instruction, by group, on the top frame's registers `r`. */
    method Perform(r: array<Value>, op: Op) returns (fault: Option<Fault>)
      requires Valid() && TopFile(r)
      modifies this`ip, this`fp, this`output, this`frames, this`owner, calls, globals, Files()
      ensures Valid()
      ensures Follows(Dispatch(Environment(), old(Snapshot()), op), fault)
      ensures fresh(Files() - old(Files()))
    {
      if IntBinary(op) {
        fault := ArithOp(r, Arithmetic(op));
      } else if Transfers(op) {
        fault := TransferControl(r, op);
      } else {
        fault := MoveData(r, op);
      }
    }

    /**
     * One pass of `cpu`'s loop body after the fetch: `ip++`, the top
     * frame's registers `r = calls[fp].registers`, then the `switch`.
     */
    method Step(opcode: int) returns (fault: Option<Fault>)
      requires Valid()
      modifies this`ip, this`fp, this`output, this`frames, this`owner, calls, globals, Files()
      ensures Valid()
      ensures Follows(Execute(Environment(), old(Snapshot()), opcode), fault)
      ensures fresh(Files() - old(Files()))
    {
      ghost var env, s0 := Environment(), Snapshot();
      SetIp(ip + 1);
      if fp < 0 {
        return Some(HostException);
      }
      assert LiveSlot(fp);
      var r := calls[fp].registers;
      if opcode !in opcodes || opcodes[opcode] == Halt {
        return Some(InvalidOpcode(opcode, ip - 1));
      }
      assert Execute(env, s0, opcode) == Dispatch(env, Snapshot(), opcodes[opcode]);
      fault := Perform(r, opcodes[opcode]);
    }

    /** Fetch the opcode byte at `ip`, read as signed. */
    method FetchOpcodeByte() returns (r: Result<int, Fault>)
      ensures r == FetchOpcode(code[..], ip)
    {
      if !(0 <= ip < code.Length) {
        return Err(HostException);
      }
      return Ok(SignedByte(code[ip]));
    }

    /**
     * One round of `cpu`'s loop for an opcode that is not `halt`, fetched
     * below `codeSize`: the instruction runs, and what is left of the run
     * from the new state is what was left before it, one instruction less.
     */
    method Round(opcode: int, ghost fuel: nat) returns (fault: Option<Fault>)
      requires Valid()
      requires FetchOpcode(code[..], ip) == Ok(opcode) && !IsHalt(Environment(), opcode) && ip < codeSize
      modifies this`ip, this`fp, this`output, this`frames, this`owner, calls, globals, Files()
      ensures Valid()
      ensures fault.Some? ==> Run(Environment(), old(Snapshot()), fuel + 1) == Err(fault.value)
      ensures fault.None? ==> Run(Environment(), old(Snapshot()), fuel + 1) == Run(Environment(), Snapshot(), fuel)
      ensures fresh(Files() - old(Files()))
    {
      RunStep(Environment(), Snapshot(), fuel + 1, opcode);
      fault := Step(opcode);
    }

    /**
     * `cpu()` for at most `fuel` instructions: fetch, stop on `halt` or
     * once `ip >= codeSize`, otherwise execute and fetch again.
     */
    method Cpu(fuel: nat) returns (fault: Option<Fault>, stopped: bool)
      requires Valid()
      modifies this`ip, this`fp, this`output, this`frames, this`owner, calls, globals, Files()
      ensures Valid()
      ensures Ran(Run(Environment(), old(Snapshot()), fuel), fault, stopped)
    {
      ghost var env := Environment();
      ghost var result := Run(env, Snapshot(), fuel);
      var fetched := FetchOpcodeByte();
      if fetched.Err? {
        RunFetchFault(env, Snapshot(), fuel);
        return Some(HostException), false;
      }
      var opcode := fetched.value;
      var n := fuel;
      while !(opcode in opcodes && opcodes[opcode] == Halt) && ip < codeSize
        invariant Valid() && env == Environment()
        invariant FetchOpcode(code[..], ip) == Ok(opcode)
        invariant result == Run(env, Snapshot(), n)
        invariant fresh(Files() - old(Files()))
        decreases n
      {
        if n == 0 {
          RunOutOfFuel(env, Snapshot(), opcode);
          return None, false;
        }
        fault := Round(opcode, n - 1);
        if fault.Some? {
          return fault, false;
        }
        n := n - 1;
        fetched := FetchOpcodeByte();
        if fetched.Err? {
          RunFetchFault(env, Snapshot(), n);
          return Some(HostException), false;
        }
        opcode := fetched.value;
      }
      RunHalts(env, Snapshot(), n, opcode);
      return None, true;
    }

    /**
     * `exec()`: synthesize `main` if there is none, push its frame
     * returning to the current `ip`, start at its address and run the
     * cycle.
     */
    method Exec(fuel: nat) returns (fault: Option<Fault>, stopped: bool)
      requires Valid()
      modifies this`mainFunction, this`ip, this`fp, this`output, this`frames, this`owner, calls, globals, Files()
      ensures Valid()
      ensures mainFunction == Some(MainOrDefault(old(mainFunction)))
      ensures match Start(old(Snapshot()), MainOrDefault(old(mainFunction)))
        case Err(e) => fault == Some(e)
        case Ok(t) => Ran(Run(Environment(), t, fuel), fault, stopped)
    {
      if mainFunction.None? {
        mainFunction := Some(FunctionSymbol("main", 0, 0, 0));
      }
      var main := mainFunction.value;
      if RegisterCount(main) < 0 {
        return Some(HostException), false;
      }
      var f := new StackFrame(main, ip);
      if fp + 1 >= calls.Length {
        return Some(HostException), false;
      }
      PushFrame(f);
      SetIp(main.address);
      fault, stopped := Cpu(fuel);
    }
  }
}
