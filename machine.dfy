/**
 * What the two interpreters share (`InterpreterBase`): the values held in
 * stacks, registers and globals, the stack capacities, and the operand
 * fetch `getIntOperand`, which reads the big-endian word at `ip` and
 * moves `ip` past it.
 */
module Machine {
  import opened Wrappers
  import opened Encoding
  import opened Symbols

  const DEFAULT_OPERAND_STACK_SIZE: int := 100
  const DEFAULT_CALL_STACK_SIZE: int := 1000

  /** A Java `char`: 16 unsigned bits. */
  type Char16 = c: int | 0 <= c < 0x1_0000

  /**
   * The objects the interpreters move around: `null`, a boxed `Integer`,
   * `Boolean` or `Character`, or an object taken from the constant pool
   * (a `String`, a `Float` or a `FunctionSymbol`).
   */
  datatype Value = Null | IntV(i: Int32) | BoolV(b: bool) | CharV(c: Char16) | Const(entry: PoolEntry)

  /**
   * The integer operations both engines perform on two `Integer`s `a`
   * (the left operand) and `b`: `+`, `-`, `*`, `<`, `==`.
   */
  datatype IntOp = Add | Sub | Mul | Less | Equal

  /** Java's `int` arithmetic wraps to 32 bits; the comparisons box a `Boolean`. */
  function IntResult(op: IntOp, a: Int32, b: Int32): Value
  {
    match op
    case Add => IntV(Wrap32(a + b))
    case Sub => IntV(Wrap32(a - b))
    case Mul => IntV(Wrap32(a * b))
    case Less => BoolV(a < b)
    case Equal => BoolV(a == b)
  }

  /** Integer results wrap around at 32 bits, and agree with the exact result when it fits. */
  lemma IntegerWrap(op: IntOp, a: Int32, b: Int32)
    requires op == Add || op == Sub || op == Mul
    ensures var exact := if op == Add then a + b else if op == Sub then a - b else a * b;
      && IntResult(op, a, b).IntV?
      && (IntResult(op, a, b).i - exact) % TWO_32 == 0
      && (-0x8000_0000 <= exact < 0x8000_0000 ==> IntResult(op, a, b).i == exact)
  {
  }

  /** Java's `(char) w`: the low 16 bits of the word. */
  function ToChar(w: Int32): (c: Char16)
    ensures (c - w) % 0x1_0000 == 0
  {
    w % 0x1_0000
  }

  /** The opcode byte at `ip`, read as signed; outside the array it throws. */
  function FetchOpcode(code: seq<Byte>, ip: int): (r: Result<int, Fault>)
    ensures r.Ok? <==> 0 <= ip < |code|
    ensures r.Ok? ==> -0x80 <= r.value < 0x80 && r.value % 0x100 == code[ip]
  {
    if 0 <= ip < |code| then Ok(SignedByte(code[ip])) else Err(HostException)
  }

  /** `getInt(code, ip)` as `getIntOperand` uses it: the four bytes must lie in the array. */
  function FetchWord(code: seq<Byte>, ip: int): (r: Result<Int32, Fault>)
    ensures r.Ok? <==> 0 <= ip && ip + 4 <= |code|
    ensures r.Err? ==> r.error == HostException
  {
    if 0 <= ip && ip + 4 <= |code| then Ok(GetInt(code, ip)) else Err(HostException)
  }

  /** A word written with `writeInt` is fetched back by `getIntOperand`. */
  lemma FetchWrittenWord(code: seq<Byte>, ip: int, value: Int32)
    requires 0 <= ip && ip + 4 <= |code|
    ensures FetchWord(Splice(code, ip, value), ip) == Ok(value)
  {
    GetIntSplice(code, ip, value);
  }

  /** `new Object[n]`: `n` nulls; a negative size throws. */
  function NullArray(n: int): (r: Result<seq<Value>, Fault>)
    ensures r.Ok? <==> n >= 0
    ensures r.Ok? ==> |r.value| == n && forall k :: 0 <= k < n ==> r.value[k] == Null
  {
    if n >= 0 then Ok(seq(n, _ => Null)) else Err(HostException)
  }

  /**
   * `System.arraycopy(src, srcPos, dest, destPos, n)` between two distinct
   * arrays: `dest[destPos..destPos+n)` becomes `src[srcPos..srcPos+n)`. A
   * negative position or length, or a range past either end, throws.
   */
  function ArrayCopy(src: seq<Value>, srcPos: int, dest: seq<Value>, destPos: int, n: int): (r: Result<seq<Value>, Fault>)
    ensures r.Ok? <==> 0 <= srcPos && 0 <= destPos && 0 <= n && srcPos + n <= |src| && destPos + n <= |dest|
    ensures r.Ok? ==> |r.value| == |dest|
    ensures r.Ok? ==> forall k :: destPos <= k < destPos + n ==> r.value[k] == src[srcPos + (k - destPos)]
    ensures r.Ok? ==> forall k :: 0 <= k < |dest| && !(destPos <= k < destPos + n) ==> r.value[k] == dest[k]
  {
    if 0 <= srcPos && 0 <= destPos && 0 <= n && srcPos + n <= |src| && destPos + n <= |dest| then
      Ok(dest[..destPos] + src[srcPos..srcPos + n] + dest[destPos + n..])
    else Err(HostException)
  }

  /**
   * `System.arraycopy` on arrays: the copy `ArrayCopy` describes, or a
   * fault with `dest` untouched. All values are read before any is
   * written, as `arraycopy` does when the ranges overlap.
   */
  method CopyArray(src: array<Value>, srcPos: int, dest: array<Value>, destPos: int, n: int) returns (ok: bool)
    modifies dest
    ensures ok == ArrayCopy(old(src[..]), srcPos, old(dest[..]), destPos, n).Ok?
    ensures ok ==> dest[..] == ArrayCopy(old(src[..]), srcPos, old(dest[..]), destPos, n).value
    ensures !ok ==> dest[..] == old(dest[..])
  {
    if !(0 <= srcPos && 0 <= destPos && 0 <= n && srcPos + n <= src.Length && destPos + n <= dest.Length) {
      return false;
    }
    ghost var s, d := src[..], dest[..];
    forall k | destPos <= k < destPos + n {
      dest[k] := src[srcPos + (k - destPos)];
    }
    assert dest[..] == ArrayCopy(s, srcPos, d, destPos, n).value;
    return true;
  }

  /** `exec` with no `main` defined runs a synthesized `main` of no arguments at address 0. */
  function MainOrDefault(mainFunction: Option<FunctionSymbol>): (f: FunctionSymbol)
    ensures mainFunction.Some? ==> f == mainFunction.value
    ensures mainFunction.None? ==> f == FunctionSymbol("main", 0, 0, 0)
  {
    if mainFunction.Some? then mainFunction.value else FunctionSymbol("main", 0, 0, 0)
  }
}
