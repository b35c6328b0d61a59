/** Small failure-carrying datatypes shared by the whole model. */
module Wrappers {
  datatype Option<+T> = None | Some(value: T)

  datatype Result<+T, +E> = Ok(value: T) | Err(error: E)

  /**
   * How a run stops abnormally. `HostException` is any exception the Java
   * runtime raises on its own (an index out of bounds, a null dereference,
   * a failed cast); `InvalidOpcode` is the interpreters' own error naming
   * the opcode and the address it was fetched from; `Unmodelled` marks a
   * floating-point or structure instruction, which this model does not
   * execute.
   */
  datatype Fault = HostException | InvalidOpcode(opcode: int, at: int) | Unmodelled
}
