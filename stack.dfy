/**
 * The stack machine (`StackInterpreter`): one operand stack shared by all
 * calls, a stack of frames holding each call's locals, and a global data
 * memory. The instruction semantics are pure functions on a `State`; the
 * class below runs the fetch-decode-execute cycle on arrays and is proved
 * to follow them.
 */
module StackMachine {
  import opened Wrappers
  import opened Encoding
  import opened Symbols
  import opened Machine

  /**
   * The instructions the engine's `switch` knows. Their numeric codes
   * (`INSTR_*` of the engine's own definition table) are not fixed here:
   * an engine is given a map from opcode byte to instruction.
   */
  datatype Op =
    | Iadd | Isub | Imul | Ilt | Ieq
    | Fadd | Fsub | Fmul | Flt | Feq | Itof
    | Call | Ret | Br | Brt | Brf
    | Cconst | Iconst | Fconst | Sconst
    | Load | Gload | Fload | Store | Gstore | Fstore
    | Print | Struct | PushNull | Pop | Halt

  /** The integer operations that combine the two topmost entries. */
  predicate IntBinary(op: Op) {
    op == Iadd || op == Isub || op == Imul || op == Ilt || op == Ieq
  }

  /**
   * A call frame: the function, where to return to, and the locals. The
   * engine's frame class is not part of this model; its locals are taken to
   * be `numArgs + numLocals` slots, all `null` at first.
   */
  datatype Frame = Frame(sym: FunctionSymbol, returnAddress: int, locals: seq<Value>)

  /**
   * The number of locals a frame for `sym` has, `numArgs + numLocals` in
   * Java `int` arithmetic: a sum past the `int` range wraps around.
   */
  function LocalsCount(sym: FunctionSymbol): (n: Int32)
    ensures var sum := sym.numArgs + sym.numLocals;
      && (-0x8000_0000 <= sum < 0x8000_0000 ==> n == sum)
      && (sum >= 0x8000_0000 ==> n == sum - TWO_32 && n < 0)
      && (sum < -0x8000_0000 ==> n == sum + TWO_32 && n >= 0)
  {
    Wrap32(sym.numArgs + sym.numLocals)
  }

  /** What a frame starts as; a negative locals size throws. */
  function NewFrame(sym: FunctionSymbol, returnAddress: int): (r: Result<Frame, Fault>)
    ensures r.Ok? <==> LocalsCount(sym) >= 0
    ensures r.Ok? ==> r.value.sym == sym && r.value.returnAddress == returnAddress
    ensures r.Ok? ==> |r.value.locals| == LocalsCount(sym)
    ensures r.Ok? ==> forall k :: 0 <= k < |r.value.locals| ==> r.value.locals[k] == Null
  {
    match NullArray(LocalsCount(sym))
    case Err(e) => Err(e)
    case Ok(locals) => Ok(Frame(sym, returnAddress, locals))
  }

  /** The locals size wraps as Java's `int` sum does: past the top it throws, two minima give none. */
  lemma FrameSizeWraps(name: string, address: Int32)
    ensures NewFrame(FunctionSymbol(name, 0x7fff_ffff, 1, address), 0).Err?
    ensures var f := NewFrame(FunctionSymbol(name, -0x8000_0000, -0x8000_0000, address), 0);
      f.Ok? && |f.value.locals| == 0
  {
  }

  /** The program the engine runs: code memory, its used size, the pool and the opcode assignment. */
  datatype Env = Env(code: seq<Byte>, codeSize: int, constPool: seq<PoolEntry>, opcodes: map<int, Op>)

  /**
   * The registers and memories the cycle changes. `operands[0..sp]` is
   * the stack (top at `sp`); `calls[0..fp]` the frames (an unused slot is
   * `null`, here `None`); `output` collects what `print` writes.
   */
  datatype State = State(ip: int, operands: seq<Value>, sp: int, calls: seq<Option<Frame>>, fp: int,
                         globals: seq<Value>, output: seq<Value>)

  // ----- Stack and operand primitives -----------------------------------

  /** Push `v`: `sp` moves up one slot, which then holds `v`; past the array it throws. */
  function Push(s: State, v: Value): (r: Result<State, Fault>)
    ensures r.Ok? <==> 0 <= s.sp + 1 < |s.operands|
    ensures r.Ok? ==> var t := r.value;
      && t.sp == s.sp + 1 && |t.operands| == |s.operands| && t.operands[t.sp] == v
      && (forall k :: 0 <= k < |s.operands| && k != t.sp ==> t.operands[k] == s.operands[k])
      && t.(sp := s.sp, operands := s.operands) == s
  {
    if 0 <= s.sp + 1 < |s.operands| then Ok(s.(sp := s.sp + 1, operands := s.operands[s.sp + 1 := v]))
    else Err(HostException)
  }

  /** Pop: the entry at `sp`, and the state with `sp` one lower; outside the array it throws. */
  function PopValue(s: State): (r: Result<(Value, State), Fault>)
    ensures r.Ok? <==> 0 <= s.sp < |s.operands|
    ensures r.Ok? ==> var (v, t) := r.value;
      v == s.operands[s.sp] && t.sp == s.sp - 1 && t.(sp := s.sp) == s
  {
    if 0 <= s.sp < |s.operands| then Ok((s.operands[s.sp], s.(sp := s.sp - 1))) else Err(HostException)
  }

  /** `getIntOperand()`: the word at `ip`, and the state with `ip` past it. */
  function Operand(env: Env, s: State): (r: Result<(Int32, State), Fault>)
    ensures r.Ok? <==> FetchWord(env.code, s.ip).Ok?
    ensures r.Ok? ==> r.value == (GetInt(env.code, s.ip), s.(ip := s.ip + 4))
  {
    match FetchWord(env.code, s.ip)
    case Err(e) => Err(e)
    case Ok(w) => Ok((w, s.(ip := s.ip + 4)))
  }

  /** The shared integer operation an integer instruction performs. */
  function Arithmetic(op: Op): IntOp
    requires IntBinary(op)
  {
    match op
    case Iadd => Add
    case Isub => Sub
    case Imul => Mul
    case Ilt => Less
    case Ieq => Equal
  }

  // ----- Instruction semantics ------------------------------------------

  /**
   * Pops two `Integer`s, the lower one as the left operand, and pushes
   * `a op b`. A missing entry or one that is not an `Integer` throws.
   */
  function Binary(s: State, op: IntOp): (r: Result<State, Fault>)
  {
    if !(0 <= s.sp - 1 && s.sp < |s.operands|) then Err(HostException)
    else
      var a, b := s.operands[s.sp - 1], s.operands[s.sp];
      if !a.IntV? || !b.IntV? then Err(HostException)
      else Push(s.(sp := s.sp - 2), IntResult(op, a.i, b.i))
  }

  /** The callee's locals: the top `numArgs` entries in stack order, then `null`s. */
  function ArgLocals(s: State, f: FunctionSymbol): seq<Value>
    requires LocalsCount(f) >= 0
    requires f.numArgs > 0 ==> 0 <= s.sp - f.numArgs + 1 && s.sp < |s.operands|
  {
    seq(LocalsCount(f), k requires 0 <= k < LocalsCount(f) =>
      if k < f.numArgs then s.operands[s.sp - f.numArgs + 1 + k] else Null)
  }

  /** Whether `call` can move the arguments: they are on the stack and fit the locals. */
  predicate ArgsAvailable(s: State, f: FunctionSymbol) {
    && LocalsCount(f) >= 0
    && (f.numArgs > 0 ==> f.numLocals >= 0 && 0 <= s.sp - f.numArgs + 1 && s.sp < |s.operands|)
  }

  /**
   * `call(index)` with `ip` already past the operand: the pool entry must
   * be a function; a frame returning to `ip` is pushed, the arguments are
   * popped into its first locals, and control moves to the function.
   */
  function Invoke(env: Env, s: State, index: Int32): (r: Result<State, Fault>)
  {
    if !(0 <= index < |env.constPool|) || !env.constPool[index].FuncConst? then Err(HostException)
    else
      var f := env.constPool[index].sym;
      if !(0 <= s.fp + 1 < |s.calls|) || !ArgsAvailable(s, f) then Err(HostException)
      else
        var frame := Frame(f, s.ip, ArgLocals(s, f));
        Ok(s.(calls := s.calls[s.fp + 1 := Some(frame)], fp := s.fp + 1,
              sp := if f.numArgs > 0 then s.sp - f.numArgs else s.sp, ip := f.address))
  }

  /** `call` with its pool operand. */
  function CallOperand(env: Env, s: State): (r: Result<State, Fault>)
  {
    match Operand(env, s)
    case Err(e) => Err(e)
    case Ok((index, s1)) => Invoke(env, s1, index)
  }

  /** `br addr`. */
  function JumpTo(env: Env, s: State): (r: Result<State, Fault>)
  {
    match Operand(env, s)
    case Err(e) => Err(e)
    case Ok((addr, s1)) => Ok(s1.(ip := addr))
  }

  /** `pop` lowers `sp` by one without a check; the entry itself stays in the array. */
  function Discard(s: State): (r: State)
    ensures r.sp == s.sp - 1 && r.(sp := s.sp) == s
  {
    s.(sp := s.sp - 1)
  }

  /** `ret`: pop the top frame and continue at its return address. */
  function Return(s: State): (r: Result<State, Fault>)
  {
    if !(0 <= s.fp < |s.calls|) || s.calls[s.fp].None? then Err(HostException)
    else Ok(s.(fp := s.fp - 1, ip := s.calls[s.fp].value.returnAddress))
  }

  /**
   * `brt`/`brf`: pop the top entry and jump when it equals `jumpOn`;
   * `null.equals(...)` throws.
   */
  function Branch(env: Env, s: State, jumpOn: bool): (r: Result<State, Fault>)
  {
    match Operand(env, s)
    case Err(e) => Err(e)
    case Ok((addr, s1)) =>
      match PopValue(s1)
      case Err(e) => Err(e)
      case Ok((v, s2)) =>
        if v == Null then Err(HostException)
        else if v == BoolV(jumpOn) then Ok(s2.(ip := addr))
        else Ok(s2)
  }

  /** `iconst`, `cconst`: push the operand word as an `Integer` or as a `char`. */
  function PushLiteral(env: Env, s: State, asChar: bool): (r: Result<State, Fault>)
  {
    match Operand(env, s)
    case Err(e) => Err(e)
    case Ok((w, s1)) => Push(s1, if asChar then CharV(ToChar(w)) else IntV(w))
  }

  /** `fconst`, `sconst`: push the pool entry the operand names. */
  function PushConst(env: Env, s: State): (r: Result<State, Fault>)
  {
    match Operand(env, s)
    case Err(e) => Err(e)
    case Ok((index, s1)) =>
      if 0 <= index < |env.constPool| then Push(s1, Const(env.constPool[index])) else Err(HostException)
  }

  /** Whether the top frame exists and has a local `addr`. */
  predicate HasLocal(s: State, addr: int) {
    0 <= s.fp < |s.calls| && s.calls[s.fp].Some? && 0 <= addr < |s.calls[s.fp].value.locals|
  }

  /** `load addr`: push the top frame's local. */
  function LoadLocal(env: Env, s: State): (r: Result<State, Fault>)
  {
    match Operand(env, s)
    case Err(e) => Err(e)
    case Ok((addr, s1)) =>
      if HasLocal(s1, addr) then Push(s1, s1.calls[s1.fp].value.locals[addr]) else Err(HostException)
  }

  /** `store addr`: pop into the top frame's local. */
  function StoreLocal(env: Env, s: State): (r: Result<State, Fault>)
  {
    match Operand(env, s)
    case Err(e) => Err(e)
    case Ok((addr, s1)) =>
      if !HasLocal(s1, addr) then Err(HostException)
      else
        match PopValue(s1)
        case Err(e) => Err(e)
        case Ok((v, s2)) =>
          var fr := s2.calls[s2.fp].value;
          Ok(s2.(calls := s2.calls[s2.fp := Some(fr.(locals := fr.locals[addr := v]))]))
  }

  /** `gload addr`: push a global. */
  function LoadGlobal(env: Env, s: State): (r: Result<State, Fault>)
  {
    match Operand(env, s)
    case Err(e) => Err(e)
    case Ok((addr, s1)) =>
      if 0 <= addr < |s1.globals| then Push(s1, s1.globals[addr]) else Err(HostException)
  }

  /** `gstore addr`: pop into a global. */
  function StoreGlobal(env: Env, s: State): (r: Result<State, Fault>)
  {
    match Operand(env, s)
    case Err(e) => Err(e)
    case Ok((addr, s1)) =>
      if !(0 <= addr < |s1.globals|) then Err(HostException)
      else
        match PopValue(s1)
        case Err(e) => Err(e)
        case Ok((v, s2)) => Ok(s2.(globals := s2.globals[addr := v]))
  }

  /** `print`: pop the top entry onto the output. */
  function PrintTop(s: State): (r: Result<State, Fault>)
  {
    match PopValue(s)
    case Err(e) => Err(e)
    case Ok((v, s1)) => Ok(s1.(output := s1.output + [v]))
  }

  /** The instructions that move control: `call`, `ret`, `br`, `brt`, `brf`. */
  predicate Transfers(op: Op) {
    op.Call? || op.Ret? || op.Br? || op.Brt? || op.Brf?
  }

  /** The `switch` cases that move control, with `ip` already past the opcode. */
  function Transfer(env: Env, s: State, op: Op): (r: Result<State, Fault>)
    requires Transfers(op)
  {
    match op
    case Call => CallOperand(env, s)
    case Ret => Return(s)
    case Br => JumpTo(env, s)
    case Brt => Branch(env, s, true)
    case Brf => Branch(env, s, false)
  }

  /**
   * The `switch` cases that move data, with `ip` already past the opcode;
   * the float instructions, `fload`, `fstore` and `struct` are not modelled.
   */
  function DataOp(env: Env, s: State, op: Op): (r: Result<State, Fault>)
  {
    match op
    case Cconst => PushLiteral(env, s, true)
    case Iconst => PushLiteral(env, s, false)
    case Fconst => PushConst(env, s)
    case Sconst => PushConst(env, s)
    case Load => LoadLocal(env, s)
    case Gload => LoadGlobal(env, s)
    case Store => StoreLocal(env, s)
    case Gstore => StoreGlobal(env, s)
    case Print => PrintTop(s)
    case PushNull => Push(s, Null)
    case Pop => Ok(Discard(s))
    case _ => Err(Unmodelled)
  }

  /**
   * One pass of the `switch`, for the opcode fetched at `s.ip`: `ip` moves
   * past the opcode, then the instruction runs. An opcode the `switch`
   * does not know (`halt` among them: the loop stops before it) is an
   * invalid-opcode error naming the opcode's address.
   */
  function Execute(env: Env, s: State, opcode: int): (r: Result<State, Fault>)
  {
    var s1 := s.(ip := s.ip + 1);
    if opcode !in env.opcodes || env.opcodes[opcode] == Halt then Err(InvalidOpcode(opcode, s.ip))
    else
      var op := env.opcodes[opcode];
      if IntBinary(op) then Binary(s1, Arithmetic(op))
      else if Transfers(op) then Transfer(env, s1, op)
      else DataOp(env, s1, op)
  }

  /** The loop condition's first half: the fetched opcode is `halt`. */
  predicate IsHalt(env: Env, opcode: int) {
    opcode in env.opcodes && env.opcodes[opcode] == Halt
  }

  /** How a bounded run ends without a fault: stopped by the loop condition, or out of fuel. */
  datatype Outcome = Stopped(s: State) | Running(s: State)

  /**
   * `cpu()` for at most `fuel` instructions. Each round fetches the byte at
   * `ip` (which throws outside the code array, even at `codeSize`), stops
   * on `halt` or when `ip >= codeSize`, and otherwise executes it.
   */
  function Run(env: Env, s: State, fuel: nat): (r: Result<Outcome, Fault>)
    decreases fuel, 2
  {
    match FetchOpcode(env.code, s.ip)
    case Err(e) => Err(e)
    case Ok(opcode) =>
      if IsHalt(env, opcode) || s.ip >= env.codeSize then Ok(Stopped(s))
      else Proceed(env, s, opcode, fuel)
  }

  function Proceed(env: Env, s: State, opcode: int, fuel: nat): (r: Result<Outcome, Fault>)
    decreases fuel, 1
  {
    if fuel == 0 then Ok(Running(s)) else Continue(env, s, opcode, fuel - 1)
  }

  /** The rest of a round of `Run`: execute the fetched instruction, then go on with `fuel` more. */
  function Continue(env: Env, s: State, opcode: int, fuel: nat): (r: Result<Outcome, Fault>)
    decreases fuel, 3
  {
    match Execute(env, s, opcode)
    case Err(e) => Err(e)
    case Ok(s1) => Run(env, s1, fuel)
  }

  /** The state `exec` hands to `cpu`: one frame for `main` returning to -1, `ip` at its address. */
  function Start(s: State, mainFunction: FunctionSymbol): (r: Result<State, Fault>)
  {
    match NewFrame(mainFunction, -1)
    case Err(e) => Err(e)
    case Ok(frame) =>
      if 0 <= s.fp + 1 < |s.calls| then
        Ok(s.(calls := s.calls[s.fp + 1 := Some(frame)], fp := s.fp + 1, ip := mainFunction.address))
      else Err(HostException)
  }

  // ----- Properties of the instruction semantics ------------------------

  /** The operand words an instruction reads after its opcode byte. */
  function Arity(op: Op): nat {
    match op
    case Call | Br | Brt | Brf | Cconst | Iconst | Fconst | Sconst | Load | Gload | Store | Gstore | Struct | Fload | Fstore => 1
    case _ => 0
  }

  /** An instruction that does not transfer control moves `ip` past its opcode and its operand words. */
  lemma Advance(env: Env, s: State, opcode: int)
    requires opcode in env.opcodes
    requires env.opcodes[opcode] !in {Call, Ret, Br, Brt, Brf}
    requires Execute(env, s, opcode).Ok?
    ensures Execute(env, s, opcode).value.ip == s.ip + 1 + 4 * Arity(env.opcodes[opcode])
  {
  }

  /**
   * `iadd`, `isub`, `imul`, `ilt`, `ieq` need two `Integer` entries on top;
   * they replace them by `second op top`, so the stack shrinks by one and
   * nothing below changes.
   */
  lemma IntegerOp(env: Env, s: State, opcode: int)
    requires opcode in env.opcodes && IntBinary(env.opcodes[opcode])
    ensures var r := Execute(env, s, opcode);
      r.Ok? <==> 1 <= s.sp < |s.operands| && s.operands[s.sp - 1].IntV? && s.operands[s.sp].IntV?
    ensures var r := Execute(env, s, opcode);
      r.Ok? ==>
        r.value == s.(sp := s.sp - 1, ip := s.ip + 1,
                      operands := s.operands[s.sp - 1 := IntResult(Arithmetic(env.opcodes[opcode]), s.operands[s.sp - 1].i, s.operands[s.sp].i)])
  {
  }

  /**
   * `call` reads its pool operand and invokes that entry with `ip` after
   * the operand, which becomes the callee's return address.
   */
  lemma CallMovesArguments(env: Env, s: State, opcode: int)
    requires opcode in env.opcodes && env.opcodes[opcode] == Call
    requires Execute(env, s, opcode).Ok?
    ensures 0 <= s.ip + 1 && s.ip + 5 <= |env.code|
    ensures Execute(env, s, opcode) == Invoke(env, s.(ip := s.ip + 5), GetInt(env.code, s.ip + 1))
  {
    var s1 := s.(ip := s.ip + 1);
    assert Execute(env, s, opcode) == CallOperand(env, s1);
  }

  /**
   * `call(index)` succeeds exactly when the entry is a function, a frame
   * slot is free and the arguments are on the stack. It then pushes a frame
   * for that function returning to `ip`; the top `numArgs` entries become
   * its first locals with the deepest one in local 0, the rest are `null`;
   * the stack shrinks by `numArgs`, control moves to the function, and no
   * other frame changes.
   */
  lemma InvokeMovesArguments(env: Env, s: State, index: Int32)
    ensures Invoke(env, s, index).Ok? <==>
      && 0 <= index < |env.constPool| && env.constPool[index].FuncConst?
      && 0 <= s.fp + 1 < |s.calls| && ArgsAvailable(s, env.constPool[index].sym)
    ensures Invoke(env, s, index).Ok? ==>
      var f := env.constPool[index].sym;
      var r := Invoke(env, s, index).value;
      && r.fp == s.fp + 1
      && r.ip == f.address
      && r.sp == s.sp - (if f.numArgs > 0 then f.numArgs else 0)
      && r.operands == s.operands
      && |r.calls| == |s.calls| && r.calls[r.fp].Some?
      && r.calls[r.fp].value.sym == f
      && r.calls[r.fp].value.returnAddress == s.ip
      && |r.calls[r.fp].value.locals| == LocalsCount(f)
      && (forall k :: 0 <= k < f.numArgs ==> r.calls[r.fp].value.locals[k] == s.operands[s.sp - f.numArgs + 1 + k])
      && (forall k :: 0 <= k && f.numArgs <= k < LocalsCount(f) ==> r.calls[r.fp].value.locals[k] == Null)
      && (forall k :: 0 <= k < |s.calls| && k != r.fp ==> r.calls[k] == s.calls[k])
  {
  }

  /** `ret` pops the top frame and continues at its return address; the operand stack is untouched. */
  lemma ReturnPopsFrame(env: Env, s: State, opcode: int)
    requires opcode in env.opcodes && env.opcodes[opcode] == Ret
    ensures Execute(env, s, opcode).Ok? <==> 0 <= s.fp < |s.calls| && s.calls[s.fp].Some?
    ensures Execute(env, s, opcode).Ok? ==>
      Execute(env, s, opcode).value == s.(fp := s.fp - 1, ip := s.calls[s.fp].value.returnAddress)
  {
  }

  /**
   * A `ret` executed while the frame a `call` pushed is on top goes back
   * to the instruction after that `call`, one frame down.
   */
  lemma CallThenReturn(env: Env, s: State, callOp: int, t: State, retOp: int)
    requires callOp in env.opcodes && env.opcodes[callOp] == Call
    requires retOp in env.opcodes && env.opcodes[retOp] == Ret
    requires Execute(env, s, callOp).Ok?
    requires t.fp == Execute(env, s, callOp).value.fp && t.calls == Execute(env, s, callOp).value.calls
    ensures Execute(env, t, retOp).Ok?
    ensures Execute(env, t, retOp).value.ip == s.ip + 5 && Execute(env, t, retOp).value.fp == s.fp
  {
    CallMovesArguments(env, s, callOp);
    InvokeMovesArguments(env, s.(ip := s.ip + 5), GetInt(env.code, s.ip + 1));
  }

  /**
   * `brt` and `brf` always pop the top entry; they jump to the operand
   * exactly when that entry is `true` (respectively `false`), and otherwise
   * continue after the operand.
   */
  lemma ConditionalBranch(env: Env, s: State, opcode: int)
    requires opcode in env.opcodes && (env.opcodes[opcode] == Brt || env.opcodes[opcode] == Brf)
    ensures Execute(env, s, opcode).Ok? <==>
      && 0 <= s.ip + 1 && s.ip + 5 <= |env.code|
      && 0 <= s.sp < |s.operands| && s.operands[s.sp] != Null
    ensures Execute(env, s, opcode).Ok? ==>
      var jumpOn := env.opcodes[opcode] == Brt;
      Execute(env, s, opcode).value ==
        s.(sp := s.sp - 1, ip := if s.operands[s.sp] == BoolV(jumpOn) then GetInt(env.code, s.ip + 1) else s.ip + 5)
  {
    var s1 := s.(ip := s.ip + 1);
    assert Execute(env, s, opcode) == Branch(env, s1, env.opcodes[opcode] == Brt);
  }

  /** `br` jumps to its operand unconditionally and changes nothing else. */
  lemma JumpUnconditional(env: Env, s: State, opcode: int)
    requires opcode in env.opcodes && env.opcodes[opcode] == Br
    requires Execute(env, s, opcode).Ok?
    ensures Execute(env, s, opcode).value == s.(ip := GetInt(env.code, s.ip + 1))
  {
  }

  /** `iconst` pushes its operand; `cconst` pushes its low 16 bits as a `char`. Nothing else changes. */
  lemma Literal(env: Env, s: State, opcode: int)
    requires opcode in env.opcodes && (env.opcodes[opcode] == Iconst || env.opcodes[opcode] == Cconst)
    ensures Execute(env, s, opcode).Ok? <==>
      0 <= s.ip + 1 && s.ip + 5 <= |env.code| && 0 <= s.sp + 1 < |s.operands|
    ensures Execute(env, s, opcode).Ok? ==>
      var w := GetInt(env.code, s.ip + 1);
      Execute(env, s, opcode).value ==
        s.(ip := s.ip + 5, sp := s.sp + 1,
           operands := s.operands[s.sp + 1 := if env.opcodes[opcode] == Iconst then IntV(w) else CharV(ToChar(w))])
  {
  }

  /**
   * `fconst` and `sconst` (with `ip` at their operand) push the pool entry
   * the operand names; an index outside the pool or a full stack throws.
   */
  lemma ConstantPushed(env: Env, s: State)
    ensures PushConst(env, s).Ok? <==>
      && 0 <= s.ip && s.ip + 4 <= |env.code|
      && 0 <= GetInt(env.code, s.ip) < |env.constPool|
      && 0 <= s.sp + 1 < |s.operands|
    ensures PushConst(env, s).Ok? ==>
      PushConst(env, s).value ==
        s.(ip := s.ip + 4, sp := s.sp + 1,
           operands := s.operands[s.sp + 1 := Const(env.constPool[GetInt(env.code, s.ip)])])
  {
  }

  /**
   * `load addr` and `gload addr` (with `ip` at their operand) push the top
   * frame's local or the global at `addr` and change nothing else.
   */
  lemma LoadPushes(env: Env, s: State)
    ensures LoadLocal(env, s).Ok? <==>
      && 0 <= s.ip && s.ip + 4 <= |env.code|
      && HasLocal(s, GetInt(env.code, s.ip))
      && 0 <= s.sp + 1 < |s.operands|
    ensures LoadLocal(env, s).Ok? ==>
      LoadLocal(env, s).value ==
        s.(ip := s.ip + 4, sp := s.sp + 1,
           operands := s.operands[s.sp + 1 := s.calls[s.fp].value.locals[GetInt(env.code, s.ip)]])
    ensures LoadGlobal(env, s).Ok? <==>
      && 0 <= s.ip && s.ip + 4 <= |env.code|
      && 0 <= GetInt(env.code, s.ip) < |s.globals|
      && 0 <= s.sp + 1 < |s.operands|
    ensures LoadGlobal(env, s).Ok? ==>
      LoadGlobal(env, s).value ==
        s.(ip := s.ip + 4, sp := s.sp + 1, operands := s.operands[s.sp + 1 := s.globals[GetInt(env.code, s.ip)]])
  {
  }

  /** `print` pops the top entry onto the output; an empty stack throws. */
  lemma PrintAppends(s: State)
    ensures PrintTop(s).Ok? <==> 0 <= s.sp < |s.operands|
    ensures PrintTop(s).Ok? ==> PrintTop(s).value == s.(sp := s.sp - 1, output := s.output + [s.operands[s.sp]])
  {
  }

  /**
   * `gstore` pops the top entry into `globals[addr]` (with `ip` at its
   * operand), and a later `gload` whose operand is the same word pushes it
   * back without changing the globals.
   */
  lemma StoreThenLoadGlobal(env: Env, s: State, loadAt: int)
    requires StoreGlobal(env, s).Ok?
    requires FetchWord(env.code, loadAt) == FetchWord(env.code, s.ip)
    ensures var t := StoreGlobal(env, s).value;
      var addr := GetInt(env.code, s.ip);
      && 0 <= addr < |s.globals| && 0 <= s.sp < |s.operands|
      && t.globals == s.globals[addr := s.operands[s.sp]]
      && t.sp == s.sp - 1
      && LoadGlobal(env, t.(ip := loadAt)).Ok?
      && LoadGlobal(env, t.(ip := loadAt)).value.globals == t.globals
      && LoadGlobal(env, t.(ip := loadAt)).value.sp == s.sp
      && LoadGlobal(env, t.(ip := loadAt)).value.operands[s.sp] == s.operands[s.sp]
  {
  }

  /** `store` and `load` do the same against the top frame's locals. */
  lemma StoreThenLoadLocal(env: Env, s: State, loadAt: int)
    requires StoreLocal(env, s).Ok?
    requires FetchWord(env.code, loadAt) == FetchWord(env.code, s.ip)
    ensures var t := StoreLocal(env, s).value;
      var addr := GetInt(env.code, s.ip);
      && HasLocal(s, addr) && 0 <= s.sp < |s.operands|
      && t.calls[t.fp].value.locals == s.calls[s.fp].value.locals[addr := s.operands[s.sp]]
      && t.sp == s.sp - 1
      && LoadLocal(env, t.(ip := loadAt)).Ok?
      && LoadLocal(env, t.(ip := loadAt)).value.calls == t.calls
      && LoadLocal(env, t.(ip := loadAt)).value.sp == s.sp
      && LoadLocal(env, t.(ip := loadAt)).value.operands[s.sp] == s.operands[s.sp]
  {
  }

  /** An opcode the `switch` does not know stops the engine with its value and address. */
  lemma InvalidOpcodeReported(env: Env, s: State, opcode: int)
    requires opcode !in env.opcodes || env.opcodes[opcode] == Halt
    ensures Execute(env, s, opcode) == Err(InvalidOpcode(opcode, s.ip))
  {
  }

  /** One round of `Run` that executes an instruction. */
  lemma RunStep(env: Env, s: State, fuel: nat, opcode: int)
    requires FetchOpcode(env.code, s.ip) == Ok(opcode)
    requires !IsHalt(env, opcode) && s.ip < env.codeSize && fuel > 0
    ensures Run(env, s, fuel) ==
      match Execute(env, s, opcode)
      case Err(e) => Err(e)
      case Ok(s1) => Run(env, s1, fuel - 1)
  {
    assert Run(env, s, fuel) == Proceed(env, s, opcode, fuel);
    assert Proceed(env, s, opcode, fuel) == Continue(env, s, opcode, fuel - 1);
  }

  /** A fetch outside the code array ends the run with a fault. */
  lemma RunFetchFault(env: Env, s: State, fuel: nat)
    requires FetchOpcode(env.code, s.ip).Err?
    ensures Run(env, s, fuel) == Err(HostException)
  {
  }

  /** `halt`, or an address at or past `codeSize`, ends the run there. */
  lemma RunHalts(env: Env, s: State, fuel: nat, opcode: int)
    requires FetchOpcode(env.code, s.ip) == Ok(opcode)
    requires IsHalt(env, opcode) || s.ip >= env.codeSize
    ensures Run(env, s, fuel) == Ok(Stopped(s))
  {
  }

  /** With no fuel left a run that would go on reports where it is. */
  lemma RunOutOfFuel(env: Env, s: State, opcode: int)
    requires FetchOpcode(env.code, s.ip) == Ok(opcode)
    requires !IsHalt(env, opcode) && s.ip < env.codeSize
    ensures Run(env, s, 0) == Ok(Running(s))
  {
  }

  /**
   * A run that stops without a fault stops at a `halt` or at an address
   * at or past `codeSize`, and only there.
   */
  lemma {:induction false} RunStops(env: Env, s: State, fuel: nat)
    requires Run(env, s, fuel).Ok? && Run(env, s, fuel).value.Stopped?
    ensures var t := Run(env, s, fuel).value.s;
      && 0 <= t.ip < |env.code|
      && (IsHalt(env, SignedByte(env.code[t.ip])) || t.ip >= env.codeSize)
    decreases fuel
  {
    var opcode := FetchOpcode(env.code, s.ip).value;
    if !(IsHalt(env, opcode) || s.ip >= env.codeSize) {
      RunStep(env, s, fuel, opcode);
      RunStops(env, Execute(env, s, opcode).value, fuel - 1);
    }
  }

  /** Fuel beyond what a stopped run needs changes nothing. */
  lemma {:induction false} RunMoreFuel(env: Env, s: State, fuel: nat, more: nat)
    requires Run(env, s, fuel).Ok? && Run(env, s, fuel).value.Stopped?
    requires fuel <= more
    ensures Run(env, s, more) == Run(env, s, fuel)
    decreases fuel
  {
    var opcode := FetchOpcode(env.code, s.ip).value;
    if IsHalt(env, opcode) || s.ip >= env.codeSize {
      RunHalts(env, s, fuel, opcode);
      RunHalts(env, s, more, opcode);
    } else {
      RunStep(env, s, fuel, opcode);
      RunStep(env, s, more, opcode);
      var s1 := Execute(env, s, opcode).value;
      RunMoreFuel(env, s1, fuel - 1, more - 1);
    }
  }

  /**
   * `exec` from empty stacks: exactly one frame, for `main`, returning to
   * -1, and `ip` at `main`'s address.
   */
  lemma StartCallsMain(s: State, mainFunction: Option<FunctionSymbol>)
    requires s.fp == -1 && s.sp == -1 && |s.calls| == DEFAULT_CALL_STACK_SIZE
    requires var m := MainOrDefault(mainFunction); LocalsCount(m) >= 0
    ensures var m := MainOrDefault(mainFunction);
      var r := Start(s, m);
      && r.Ok?
      && r.value.fp == 0 && r.value.sp == -1
      && r.value.calls[0].Some?
      && r.value.calls[0].value.sym == m && r.value.calls[0].value.returnAddress == -1
      && r.value.ip == m.address
      && (mainFunction.None? ==> r.value.ip == 0)
  {
  }

  // ----- The engine ------------------------------------------------------

  /**
   * `StackInterpreter` after `load`: code memory, pool and `main` as the
   * assembler left them, the two stacks at their fixed capacities, and the
   * registers `ip`, `sp`, `fp`.
   */
  class StackInterpreter {
    const code: array<Byte>
    const codeSize: int
    const constPool: seq<PoolEntry>
    /** Which instruction each opcode byte selects (`INSTR_*`). */
    const opcodes: map<int, Op>
    var mainFunction: Option<FunctionSymbol>
    var ip: int
    const operands: array<Value>
    var sp: int
    const calls: array<Option<Frame>>
    var fp: int
    const globals: array<Value>
    /** What `print` has written, in order. */
    var output: seq<Value>

    function Environment(): Env
      reads code
    {
      Env(code[..], codeSize, constPool, opcodes)
    }

    function Snapshot(): State
      reads this, operands, calls, globals
    {
      State(ip, operands[..], sp, calls[..], fp, globals[..], output)
    }

    /** The operand stack and the globals are distinct arrays. */
    predicate Valid() {
      operands != globals
    }

    /** The engine is now in state `r`, or stopped with `r`'s fault. */
    predicate Follows(r: Result<State, Fault>, fault: Option<Fault>)
      reads this, operands, calls, globals
    {
      match r
      case Ok(t) => fault == None && Snapshot() == t
      case Err(e) => fault == Some(e)
    }

    /** The engine ended a bounded run as `r` says. */
    predicate Ran(r: Result<Outcome, Fault>, fault: Option<Fault>, stopped: bool)
      reads this, operands, calls, globals
    {
      match r
      case Err(e) => fault == Some(e)
      case Ok(Stopped(t)) => fault == None && stopped && Snapshot() == t
      case Ok(Running(t)) => fault == None && !stopped && Snapshot() == t
    }

    /** The loaded program with empty stacks and `null` globals; `ip`, `sp`, `fp` as Java initialises them. */
    constructor (code: array<Byte>, codeSize: int, constPool: seq<PoolEntry>, mainFunction: Option<FunctionSymbol>,
                 dataSize: nat, opcodes: map<int, Op>)
      ensures Valid()
      ensures fresh(operands) && fresh(calls) && fresh(globals)
      ensures this.code == code && Environment() == Env(code[..], codeSize, constPool, opcodes)
      ensures this.mainFunction == mainFunction
      ensures Snapshot() == State(0, seq(DEFAULT_OPERAND_STACK_SIZE, _ => Null), -1,
                                  seq(DEFAULT_CALL_STACK_SIZE, _ => None), -1, seq(dataSize, _ => Null), [])
    {
      this.code := code;
      this.codeSize := codeSize;
      this.constPool := constPool;
      this.opcodes := opcodes;
      this.mainFunction := mainFunction;
      ip := 0;
      operands := new Value[DEFAULT_OPERAND_STACK_SIZE](_ => Null);
      sp := -1;
      calls := new Option<Frame>[DEFAULT_CALL_STACK_SIZE](_ => None);
      fp := -1;
      globals := new Value[dataSize](_ => Null);
      output := [];
    }

    /** `getIntOperand()`: the word at `ip`; `ip` moves past it. */
    method GetIntOperand() returns (r: Result<Int32, Fault>)
      modifies this`ip
      ensures r == FetchWord(code[..], old(ip))
      ensures ip == if r.Ok? then old(ip) + 4 else old(ip)
    {
      if !(0 <= ip && ip + 4 <= code.Length) {
        return Err(HostException);
      }
      var word := GetInt(code[..], ip);
      ip := ip + 4;
      return Ok(word);
    }

    /** Push `v` onto the operand stack. */
    method PushValue(v: Value) returns (fault: Option<Fault>)
      requires Valid()
      modifies this`sp, operands
      ensures Follows(Push(old(Snapshot()), v), fault)
    {
      if !(0 <= sp + 1 < operands.Length) {
        return Some(HostException);
      }
      sp := sp + 1;
      operands[sp] := v;
      return None;
    }

    /** The integer cases of the `switch`. */
    method BinaryOp(op: IntOp) returns (fault: Option<Fault>)
      requires Valid()
      modifies this`sp, operands
      ensures Follows(Binary(old(Snapshot()), op), fault)
    {
      if !(0 <= sp - 1 && sp < operands.Length) {
        return Some(HostException);
      }
      var a, b := operands[sp - 1], operands[sp];
      if !a.IntV? || !b.IntV? {
        return Some(HostException);
      }
      sp := sp - 2;
      fault := PushValue(IntResult(op, a.i, b.i));
    }

    /**
     * The argument loop of `call`: pops `numArgs` entries into a fresh
     * all-`null` locals array, the top entry into the last argument slot.
     */
    method PopArguments(f: FunctionSymbol, empty: seq<Value>) returns (locals: seq<Value>, ok: bool)
      requires LocalsCount(f) >= 0 && |empty| == LocalsCount(f)
      requires forall k :: 0 <= k < |empty| ==> empty[k] == Null
      modifies this`sp
      ensures ok <==> ArgsAvailable(old(Snapshot()), f)
      ensures ok ==> locals == ArgLocals(old(Snapshot()), f)
      ensures ok ==> sp == old(sp) - (if f.numArgs > 0 then f.numArgs else 0)
    {
      ghost var s0 := Snapshot();
      locals := empty;
      var n := f.numArgs;
      var a := n - 1;
      while a >= 0
        invariant if n > 0 then -1 <= a < n else a == n - 1
        invariant sp == s0.sp - (n - 1 - a)
        invariant a < n - 1 ==> 0 <= sp + 1 && s0.sp < |s0.operands| && f.numLocals >= 0
        invariant |locals| == |empty|
        invariant forall k :: a < k < n && 0 <= k < |locals| ==> locals[k] == s0.operands[s0.sp - n + 1 + k]
        invariant forall k :: 0 <= k < |locals| && (k <= a || n <= k) ==> locals[k] == Null
      {
        if !(0 <= sp < operands.Length) || a >= |locals| {
          return locals, false;
        }
        locals := locals[a := operands[sp]];
        sp := sp - 1;
        a := a - 1;
      }
      assert ArgsAvailable(s0, f);
      return locals, true;
    }

    /** `call(index)`: push a frame for the pool's function, move the arguments into it, jump. */
    method CallFunction(index: Int32) returns (fault: Option<Fault>)
      requires Valid()
      modifies this`sp, this`fp, this`ip, calls
      ensures Follows(Invoke(Environment(), old(Snapshot()), index), fault)
    {
      if !(0 <= index < |constPool|) || !constPool[index].FuncConst? {
        return Some(HostException);
      }
      var funSym := constPool[index].sym;
      var frame := NewFrame(funSym, ip);
      if frame.Err? || !(0 <= fp + 1 < calls.Length) {
        return Some(HostException);
      }
      var locals, ok := PopArguments(funSym, frame.value.locals);
      if !ok {
        return Some(HostException);
      }
      fp := fp + 1;
      calls[fp] := Some(Frame(funSym, ip, locals));
      ip := funSym.address;
      return None;
    }
  
    /** `ret`: pops the top frame and continues at its return address. */
    method ReturnFromCall() returns (fault: Option<Fault>)
      modifies this`fp, this`ip
      ensures Follows(Return(old(Snapshot())), fault)
    {
      if !(0 <= fp < calls.Length) || calls[fp].None? {
        return Some(HostException);
      }
      var fr := calls[fp].value;
      fp := fp - 1;
      ip := fr.returnAddress;
      return None;
    }

    /** `brt`/`brf`: read the target, pop the condition, jump when it equals `jumpOn`. */
    method BranchIf(jumpOn: bool) returns (fault: Option<Fault>)
      modifies this`ip, this`sp
      ensures Follows(Branch(Environment(), old(Snapshot()), jumpOn), fault)
    {
      var addr := GetIntOperand();
      if addr.Err? || !(0 <= sp < operands.Length) {
        return Some(HostException);
      }
      var v := operands[sp];
      sp := sp - 1;
      if v == Null {
        return Some(HostException);
      }
      if v == BoolV(jumpOn) {
        ip := addr.value;
      }
      return None;
    }

    /** `iconst`/`cconst`: push the operand as an `Integer` or a `char`. */
    method PushLiteralOperand(asChar: bool) returns (fault: Option<Fault>)
      requires Valid()
      modifies this`ip, this`sp, operands
      ensures Follows(PushLiteral(Environment(), old(Snapshot()), asChar), fault)
    {
      var w := GetIntOperand();
      if w.Err? {
        return Some(HostException);
      }
      fault := PushValue(if asChar then CharV(ToChar(w.value)) else IntV(w.value));
    }

    /** `fconst`/`sconst`: push the pool entry the operand names. */
    method PushConstOperand() returns (fault: Option<Fault>)
      requires Valid()
      modifies this`ip, this`sp, operands
      ensures Follows(PushConst(Environment(), old(Snapshot())), fault)
    {
      var index := GetIntOperand();
      if index.Err? || !(0 <= index.value < |constPool|) {
        return Some(HostException);
      }
      fault := PushValue(Const(constPool[index.value]));
    }

    /** `load addr`: push a local of the top frame. */
    method LoadLocalOperand() returns (fault: Option<Fault>)
      requires Valid()
      modifies this`ip, this`sp, operands
      ensures Follows(LoadLocal(Environment(), old(Snapshot())), fault)
    {
      var addr := GetIntOperand();
      if addr.Err? || !(0 <= fp < calls.Length) || calls[fp].None? || !(0 <= addr.value < |calls[fp].value.locals|) {
        return Some(HostException);
      }
      fault := PushValue(calls[fp].value.locals[addr.value]);
    }

    /** `store addr`: pop the top entry into a local of the top frame. */
    method StoreLocalOperand() returns (fault: Option<Fault>)
      modifies this`ip, this`sp, calls
      ensures Follows(StoreLocal(Environment(), old(Snapshot())), fault)
    {
      var addr := GetIntOperand();
      if addr.Err? || !(0 <= fp < calls.Length) || calls[fp].None? || !(0 <= addr.value < |calls[fp].value.locals|) {
        return Some(HostException);
      }
      if !(0 <= sp < operands.Length) {
        return Some(HostException);
      }
      var v := operands[sp];
      sp := sp - 1;
      var fr := calls[fp].value;
      calls[fp] := Some(fr.(locals := fr.locals[addr.value := v]));
      return None;
    }

    /** `gload addr`: push a global. */
    method LoadGlobalOperand() returns (fault: Option<Fault>)
      requires Valid()
      modifies this`ip, this`sp, operands
      ensures Follows(LoadGlobal(Environment(), old(Snapshot())), fault)
    {
      var addr := GetIntOperand();
      if addr.Err? || !(0 <= addr.value < globals.Length) {
        return Some(HostException);
      }
      fault := PushValue(globals[addr.value]);
    }

    /** `gstore addr`: pop the top entry into a global. */
    method StoreGlobalOperand() returns (fault: Option<Fault>)
      requires Valid()
      modifies this`ip, this`sp, globals
      ensures Follows(StoreGlobal(Environment(), old(Snapshot())), fault)
    {
      var addr := GetIntOperand();
      if addr.Err? || !(0 <= addr.value < globals.Length) || !(0 <= sp < operands.Length) {
        return Some(HostException);
      }
      var v := operands[sp];
      sp := sp - 1;
      globals[addr.value] := v;
      return None;
    }

    /** `print`: pop the top entry onto the output. */
    method PrintTopOfStack() returns (fault: Option<Fault>)
      modifies this`sp, this`output
      ensures Follows(PrintTop(old(Snapshot())), fault)
    {
      if !(0 <= sp < operands.Length) {
        return Some(HostException);
      }
      output := output + [operands[sp]];
      sp := sp - 1;
      return None;
    }
  
    /** `call`: `call(getIntOperand())`. */
    method CallWithOperand() returns (fault: Option<Fault>)
      requires Valid()
      modifies this`sp, this`fp, this`ip, calls
      ensures Follows(CallOperand(Environment(), old(Snapshot())), fault)
    {
      var index := GetIntOperand();
      if index.Err? {
        return Some(HostException);
      }
      fault := CallFunction(index.value);
    }

    /** `br`: `ip = getIntOperand()`. */
    method JumpToOperand() returns (fault: Option<Fault>)
      modifies this`ip
      ensures Follows(JumpTo(Environment(), old(Snapshot())), fault)
    {
      var addr := GetIntOperand();
      if addr.Err? {
        return Some(HostException);
      }
      ip := addr.value;
      return None;
    }

    /** `pop`: drop the top entry. */
    method PopTopOfStack() returns (fault: Option<Fault>)
      modifies this`sp
      ensures Follows(Ok(Discard(old(Snapshot()))), fault)
    {
      sp := sp - 1;
      return None;
    }

    /** The `switch` cases that move control. */
    method TransferControl(op: Op) returns (fault: Option<Fault>)
      requires Valid() && Transfers(op)
      modifies this`ip, this`sp, this`fp, calls
      ensures Follows(Transfer(Environment(), old(Snapshot()), op), fault)
    {
      match op {
        case Call => fault := CallWithOperand();
        case Ret => fault := ReturnFromCall();
        case Br => fault := JumpToOperand();
        case Brt => fault := BranchIf(true);
        case Brf => fault := BranchIf(false);
      }
    }

    /** The `switch` cases that move data. */
    method MoveData(op: Op) returns (fault: Option<Fault>)
      requires Valid()
      modifies this`ip, this`sp, this`output, operands, calls, globals
      ensures Follows(DataOp(Environment(), old(Snapshot()), op), fault)
    {
      match op {
        case Cconst => fault := PushLiteralOperand(true);
        case Iconst => fault := PushLiteralOperand(false);
        case Fconst => fault := PushConstOperand();
        case Sconst => fault := PushConstOperand();
        case Load => fault := LoadLocalOperand();
        case Gload => fault := LoadGlobalOperand();
        case Store => fault := StoreLocalOperand();
        case Gstore => fault := StoreGlobalOperand();
        case Print => fault := PrintTopOfStack();
        case PushNull => fault := PushValue(Null);
        case Pop => fault := PopTopOfStack();
        case _ => fault := Some(Unmodelled);
      }
    }

    /** One pass of `cpu`'s loop body after the fetch: `ip++`, then the `switch`. */
    method Step(opcode: int) returns (fault: Option<Fault>)
      requires Valid()
      modifies this`ip, this`sp, this`fp, this`output, operands, calls, globals
      ensures Follows(Execute(Environment(), old(Snapshot()), opcode), fault)
    {
      ip := ip + 1;
      if opcode !in opcodes || opcodes[opcode] == Halt {
        return Some(InvalidOpcode(opcode, ip - 1));
      }
      var op := opcodes[opcode];
      if IntBinary(op) {
        fault := BinaryOp(Arithmetic(op));
      } else if Transfers(op) {
        fault := TransferControl(op);
      } else {
        fault := MoveData(op);
      }
    }

    /** Fetch the opcode byte at `ip`, read as signed. */
    method FetchOpcodeByte() returns (r: Result<int, Fault>)
      ensures r == FetchOpcode(code[..], ip)
    {
      if !(0 <= ip < code.Length) {
        return Err(HostException);
      }
      return Ok(SignedByte(code[ip]));
    }

    /**
     * One round of `cpu`'s loop for an opcode that is not `halt`, fetched
     * below `codeSize`: the instruction runs, and what is left of the run
     * from the new state is what was left before it, one instruction less.
     */
    method Round(opcode: int, ghost fuel: nat) returns (fault: Option<Fault>)
      requires Valid()
      requires FetchOpcode(code[..], ip) == Ok(opcode) && !IsHalt(Environment(), opcode) && ip < codeSize
      modifies this`ip, this`sp, this`fp, this`output, operands, calls, globals
      ensures fault.Some? ==> Run(Environment(), old(Snapshot()), fuel + 1) == Err(fault.value)
      ensures fault.None? ==> Run(Environment(), old(Snapshot()), fuel + 1) == Run(Environment(), Snapshot(), fuel)
    {
      RunStep(Environment(), Snapshot(), fuel + 1, opcode);
      fault := Step(opcode);
    }

    /**
     * `cpu()` for at most `fuel` instructions: fetch, stop on `halt` or
     * once `ip >= codeSize`, otherwise execute and fetch again.
     */
    method Cpu(fuel: nat) returns (fault: Option<Fault>, stopped: bool)
      requires Valid()
      modifies this`ip, this`sp, this`fp, this`output, operands, calls, globals
      ensures Ran(Run(Environment(), old(Snapshot()), fuel), fault, stopped)
    {
      ghost var env := Environment();
      ghost var result := Run(env, Snapshot(), fuel);
      var fetched := FetchOpcodeByte();
      if fetched.Err? {
        RunFetchFault(env, Snapshot(), fuel);
        return Some(HostException), false;
      }
      var opcode := fetched.value;
      var n := fuel;
      while !(opcode in opcodes && opcodes[opcode] == Halt) && ip < codeSize
        invariant env == Environment()
        invariant FetchOpcode(code[..], ip) == Ok(opcode)
        invariant result == Run(env, Snapshot(), n)
        decreases n
      {
        if n == 0 {
          RunOutOfFuel(env, Snapshot(), opcode);
          return None, false;
        }
        fault := Round(opcode, n - 1);
        if fault.Some? {
          return fault, false;
        }
        n := n - 1;
        fetched := FetchOpcodeByte();
        if fetched.Err? {
          RunFetchFault(env, Snapshot(), n);
          return Some(HostException), false;
        }
        opcode := fetched.value;
      }
      RunHalts(env, Snapshot(), n, opcode);
      return None, true;
    }

    /**
     * `exec()`: synthesize `main` if there is none, push its frame with
     * return address -1, start at its address and run the cycle.
     */
    method Exec(fuel: nat) returns (fault: Option<Fault>, stopped: bool)
      requires Valid()
      modifies this`mainFunction, this`ip, this`sp, this`fp, this`output, operands, calls, globals
      ensures Valid()
      ensures mainFunction == Some(MainOrDefault(old(mainFunction)))
      ensures match Start(old(Snapshot()), MainOrDefault(old(mainFunction)))
        case Err(e) => fault == Some(e)
        case Ok(t) => Ran(Run(Environment(), t, fuel), fault, stopped)
    {
      if mainFunction.None? {
        mainFunction := Some(FunctionSymbol("main", 0, 0, 0));
      }
      var main := mainFunction.value;
      var mainFrame := NewFrame(main, -1);
      if mainFrame.Err? || !(0 <= fp + 1 < calls.Length) {
        return Some(HostException), false;
      }
      fp := fp + 1;
      calls[fp] := Some(mainFrame.value);
      ip := main.address;
      fault, stopped := Cpu(fuel);
    }
  }
}
