/**
 * `InterpreterBase.load` and `run`: the assembler's results become the
 * interpreter's program (the code array itself, shared with the
 * assembler; `codeSize` is the assembler's `ip`; the constant pool;
 * `main`; a `null`-filled globals array of the declared data size), and
 * `exec` runs only when the parser reported no syntax error. The parser
 * is not part of this model: its error count is a parameter, and the
 * assembler's own reports (an undefined label, say) do not stop `exec`.
 */
module Loader {
  import opened Wrappers
  import opened Machine
  import Assembler
  import StackMachine
  import RegMachine

  /** `load` into a stack engine; `new Object[dataSize]` throws on a negative size. */
  method LoadStack(asm: Assembler.BytecodeAssembler, opcodes: map<int, StackMachine.Op>)
    returns (r: Result<StackMachine.StackInterpreter, Fault>)
    ensures r.Ok? <==> asm.dataSize >= 0
    ensures r.Ok? ==>
      && fresh(r.value) && fresh(r.value.operands) && fresh(r.value.calls) && fresh(r.value.globals)
      && r.value.Valid() && r.value.code == asm.code
      && r.value.Environment() == StackMachine.Env(asm.code[..], asm.ip, asm.constPool, opcodes)
      && r.value.mainFunction == asm.mainFunction
      && r.value.Snapshot() ==
           StackMachine.State(0, seq(DEFAULT_OPERAND_STACK_SIZE, _ => Null), -1,
                              seq(DEFAULT_CALL_STACK_SIZE, _ => None), -1, seq(asm.dataSize, _ => Null), [])
  {
    if asm.dataSize < 0 {
      return Err(HostException);
    }
    var interp := new StackMachine.StackInterpreter(asm.code, asm.ip, asm.constPool, asm.mainFunction, asm.dataSize, opcodes);
    return Ok(interp);
  }

  /** `load` into a register engine. */
  method LoadRegister(asm: Assembler.BytecodeAssembler, opcodes: map<int, RegMachine.Op>)
    returns (r: Result<RegMachine.RegInterpreter, Fault>)
    ensures r.Ok? <==> asm.dataSize >= 0
    ensures r.Ok? ==>
      && fresh(r.value) && fresh(r.value.calls) && fresh(r.value.globals) && r.value.Files() == {}
      && r.value.Valid() && r.value.code == asm.code
      && r.value.Environment() == RegMachine.Env(asm.code[..], asm.ip, asm.constPool, opcodes)
      && r.value.mainFunction == asm.mainFunction
      && r.value.Snapshot() == RegMachine.State(0, [], seq(asm.dataSize, _ => Null), [])
  {
    if asm.dataSize < 0 {
      return Err(HostException);
    }
    var interp := new RegMachine.RegInterpreter(asm.code, asm.ip, asm.constPool, asm.mainFunction, asm.dataSize, opcodes);
    return Ok(interp);
  }

  /**
   * `run` on a stack engine, for at most `fuel` instructions: `load`,
   * then `exec` exactly when there was no syntax error. Without `exec`
   * the loaded engine is left as `load` made it.
   */
  method RunStack(asm: Assembler.BytecodeAssembler, syntaxErrors: nat, opcodes: map<int, StackMachine.Op>, fuel: nat)
    returns (r: Result<StackMachine.StackInterpreter, Fault>, executed: bool, fault: Option<Fault>, stopped: bool)
    ensures r.Ok? <==> asm.dataSize >= 0
    ensures executed <==> r.Ok? && syntaxErrors == 0
    ensures r.Ok? ==> fresh(r.value) && r.value.Valid() && r.value.Environment() == StackMachine.Env(asm.code[..], asm.ip, asm.constPool, opcodes)
    ensures r.Ok? && !executed ==>
      && fault == None
      && r.value.mainFunction == asm.mainFunction
      && r.value.Snapshot() ==
           StackMachine.State(0, seq(DEFAULT_OPERAND_STACK_SIZE, _ => Null), -1,
                              seq(DEFAULT_CALL_STACK_SIZE, _ => None), -1, seq(asm.dataSize, _ => Null), [])
    ensures executed ==>
      var initial := StackMachine.State(0, seq(DEFAULT_OPERAND_STACK_SIZE, _ => Null), -1,
                                        seq(DEFAULT_CALL_STACK_SIZE, _ => None), -1, seq(asm.dataSize, _ => Null), []);
      && r.value.mainFunction == Some(MainOrDefault(asm.mainFunction))
      && match StackMachine.Start(initial, MainOrDefault(asm.mainFunction))
         case Err(e) => fault == Some(e)
         case Ok(t) => r.value.Ran(StackMachine.Run(r.value.Environment(), t, fuel), fault, stopped)
  {
    r := LoadStack(asm, opcodes);
    executed, fault, stopped := false, None, false;
    if r.Ok? && syntaxErrors == 0 {
      executed := true;
      fault, stopped := r.value.Exec(fuel);
    }
  }

  /** `run` on a register engine, as `RunStack`. */
  method RunRegister(asm: Assembler.BytecodeAssembler, syntaxErrors: nat, opcodes: map<int, RegMachine.Op>, fuel: nat)
    returns (r: Result<RegMachine.RegInterpreter, Fault>, executed: bool, fault: Option<Fault>, stopped: bool)
    ensures r.Ok? <==> asm.dataSize >= 0
    ensures executed <==> r.Ok? && syntaxErrors == 0
    ensures r.Ok? ==> fresh(r.value) && r.value.Valid() && r.value.Environment() == RegMachine.Env(asm.code[..], asm.ip, asm.constPool, opcodes)
    ensures r.Ok? && !executed ==>
      && fault == None
      && r.value.mainFunction == asm.mainFunction
      && r.value.Snapshot() == RegMachine.State(0, [], seq(asm.dataSize, _ => Null), [])
    ensures executed ==>
      && r.value.mainFunction == Some(MainOrDefault(asm.mainFunction))
      && match RegMachine.Start(RegMachine.State(0, [], seq(asm.dataSize, _ => Null), []), MainOrDefault(asm.mainFunction))
         case Err(e) => fault == Some(e)
         case Ok(t) => r.value.Ran(RegMachine.Run(r.value.Environment(), t, fuel), fault, stopped)
  {
    r := LoadRegister(asm, opcodes);
    executed, fault, stopped := false, None, false;
    if r.Ok? && syntaxErrors == 0 {
      executed := true;
      fault, stopped := r.value.Exec(fuel);
    }
  }
}
