/**
 * Function symbols (`FunctionSymbol`) and the values the constant pool
 * holds, with the Java equality the pool's `contains`/`indexOf` use.
 */
module Symbols {
  import opened Encoding

  /**
   * A function descriptor. The fields are set once by a constructor and
   * never changed afterwards, so the symbol is a value; the getters
   * `getName`, `getNumArgs`, `getNumLocals`, `getAddress` are the fields.
   */
  datatype FunctionSymbol = FunctionSymbol(name: string, numArgs: Int32, numLocals: Int32, address: Int32)

  /** `new FunctionSymbol(name)`: a name-only stub; the numbers keep Java's default 0. */
  function NameOnly(name: string): (f: FunctionSymbol)
    ensures f.name == name && f.numArgs == 0 && f.numLocals == 0 && f.address == 0
  {
    FunctionSymbol(name, 0, 0, 0)
  }

  /**
   * A constant-pool entry: a `Float` (held as its `floatToIntBits`
   * pattern, which is what `Float.equals` compares), a `String`, or a
   * `FunctionSymbol`.
   */
  datatype PoolEntry = FloatConst(bits: Int32) | StringConst(text: string) | FuncConst(sym: FunctionSymbol)

  /** `f.equals(o)`: `o` is a function symbol with the same name. */
  predicate FunctionEquals(f: FunctionSymbol, o: PoolEntry) {
    o.FuncConst? && o.sym.name == f.name
  }

  /** `o.equals(e)` as `List.contains` and `List.indexOf` call it. */
  predicate PoolEquals(o: PoolEntry, e: PoolEntry) {
    match o
    case FloatConst(b) => e.FloatConst? && e.bits == b
    case StringConst(t) => e.StringConst? && e.text == t
    case FuncConst(f) => FunctionEquals(f, e)
  }

  /** The pool's equality is an equivalence relation. */
  lemma PoolEqualsEquivalence(a: PoolEntry, b: PoolEntry, c: PoolEntry)
    ensures PoolEquals(a, a)
    ensures PoolEquals(a, b) ==> PoolEquals(b, a)
    ensures PoolEquals(a, b) && PoolEquals(b, c) ==> PoolEquals(a, c)
  {
  }

  /** Java's `String.hashCode`: `h = 31 * h + c` over the characters, in `int` arithmetic. */
  function StringHash(s: string): Int32
  {
    if s == [] then 0 else Wrap32(31 * StringHash(s[..|s| - 1]) + s[|s| - 1] as int)
  }

  /** `FunctionSymbol.hashCode()`: the name's hash. */
  function HashCode(f: FunctionSymbol): Int32 {
    StringHash(f.name)
  }

  /** `equals` ignores everything but the name ... */
  lemma EqualsIgnoresAllButName(f: FunctionSymbol, g: FunctionSymbol)
    ensures FunctionEquals(f, FuncConst(g)) <==> f.name == g.name
    ensures FunctionEquals(f, FuncConst(NameOnly(f.name)))
  {
  }

  /** ... and `hashCode` agrees with it: equal symbols hash alike. */
  lemma HashConsistentWithEquals(f: FunctionSymbol, g: FunctionSymbol)
    requires FunctionEquals(f, FuncConst(g))
    ensures HashCode(f) == HashCode(g)
  {
  }
}
