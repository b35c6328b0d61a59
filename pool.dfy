/**
 * The assembler's constant pool as a list searched with Java equality:
 * `getConstantPoolIndex` (get-or-insert), `getFunctionIndex` (find a
 * function by name or append a name-only stub) and the pool half of
 * `defineFunction` (complete a stub in place).
 */
module ConstantPool {
  import opened Symbols

  /** `pool.indexOf(o)`: the first index whose entry `o` equals, or -1. */
  function IndexOf(pool: seq<PoolEntry>, o: PoolEntry): (i: int)
    ensures -1 <= i < |pool|
    ensures i >= 0 ==> PoolEquals(o, pool[i]) && forall j :: 0 <= j < i ==> !PoolEquals(o, pool[j])
    ensures i == -1 ==> forall j :: 0 <= j < |pool| ==> !PoolEquals(o, pool[j])
  {
    if pool == [] then -1
    else if PoolEquals(o, pool[0]) then 0
    else
      var k := IndexOf(pool[1..], o);
      if k < 0 then -1 else k + 1
  }

  /** An index holding an equal entry with none before it is what `indexOf` finds. */
  lemma IndexOfFirst(pool: seq<PoolEntry>, o: PoolEntry, i: int)
    requires 0 <= i < |pool| && PoolEquals(o, pool[i])
    requires forall j :: 0 <= j < i ==> !PoolEquals(o, pool[j])
    ensures IndexOf(pool, o) == i
  {
  }

  /** `pool.contains(o)`. */
  predicate Contains(pool: seq<PoolEntry>, o: PoolEntry) {
    IndexOf(pool, o) >= 0
  }

  /** No two entries of the pool are equal. */
  predicate Distinct(pool: seq<PoolEntry>) {
    forall i, j :: 0 <= i < j < |pool| ==> !PoolEquals(pool[i], pool[j])
  }

  /**
   * `getConstantPoolIndex(o)`: the index of the first entry equal to `o`;
   * when there is none, `o` is appended and its new index returned.
   * Existing entries are never changed.
   */
  function GetOrInsert(pool: seq<PoolEntry>, o: PoolEntry): (r: (seq<PoolEntry>, nat))
    ensures r.1 < |r.0| && PoolEquals(o, r.0[r.1])
    ensures forall j :: 0 <= j < r.1 ==> !PoolEquals(o, r.0[j])
    ensures |pool| <= |r.0| <= |pool| + 1 && r.0[..|pool|] == pool
    ensures Contains(pool, o) <==> r.0 == pool
    ensures !Contains(pool, o) ==> r.1 == |pool| && r.0[r.1] == o
  {
    if Contains(pool, o) then (pool, IndexOf(pool, o))
    else (pool + [o], |pool|)
  }

  /** Inserting the same value twice changes nothing the second time. */
  lemma GetOrInsertIdempotent(pool: seq<PoolEntry>, o: PoolEntry)
    ensures GetOrInsert(GetOrInsert(pool, o).0, o) == GetOrInsert(pool, o)
  {
    var (p1, i) := GetOrInsert(pool, o);
    assert IndexOf(p1, o) == i;
  }

  /** Two equal constants get the same index, and the second adds nothing. */
  lemma EqualConstantsShareIndex(pool: seq<PoolEntry>, a: PoolEntry, b: PoolEntry)
    requires PoolEquals(a, b)
    ensures var (p1, i) := GetOrInsert(pool, a); GetOrInsert(p1, b) == (p1, i)
  {
    var (p1, i) := GetOrInsert(pool, a);
    forall j | 0 <= j < i ensures !PoolEquals(b, p1[j]) {
      PoolEqualsEquivalence(a, b, p1[j]);
    }
    PoolEqualsEquivalence(b, a, p1[i]);
    assert IndexOf(p1, b) == i;
  }

  /** Two unequal constants never share an index. */
  lemma DistinctConstantsDistinctIndices(pool: seq<PoolEntry>, a: PoolEntry, b: PoolEntry)
    requires !PoolEquals(a, b)
    ensures var (p1, i) := GetOrInsert(pool, a); GetOrInsert(p1, b).1 != i
  {
    var (p1, i) := GetOrInsert(pool, a);
    PoolEqualsEquivalence(b, p1[i], a);
  }

  /** Get-or-insert keeps a pool free of duplicates. */
  lemma GetOrInsertKeepsDistinct(pool: seq<PoolEntry>, o: PoolEntry)
    requires Distinct(pool)
    ensures Distinct(GetOrInsert(pool, o).0)
  {
    var p1 := GetOrInsert(pool, o).0;
    if !Contains(pool, o) {
      forall i, j | 0 <= i < j < |p1| ensures !PoolEquals(p1[i], p1[j]) {
        if j == |pool| {
          PoolEqualsEquivalence(p1[i], o, o);
        }
      }
    }
  }

  /** An index, once found, stays put while the pool grows at the end. */
  lemma IndexStableUnderAppend(pool: seq<PoolEntry>, ext: seq<PoolEntry>, o: PoolEntry)
    requires Contains(pool, o)
    ensures IndexOf(pool + ext, o) == IndexOf(pool, o)
  {
    var i := IndexOf(pool, o);
    var p := pool + ext;
    assert p[i] == pool[i];
    assert forall j :: 0 <= j < i ==> p[j] == pool[j];
  }

  /**
   * `getFunctionIndex(id)`: the index of the function named `id`; when
   * there is none, a name-only stub is appended.
   */
  function FunctionIndex(pool: seq<PoolEntry>, id: string): (r: (seq<PoolEntry>, nat))
    ensures r.1 < |r.0| && r.0[r.1].FuncConst? && r.0[r.1].sym.name == id
    ensures |pool| <= |r.0| <= |pool| + 1 && r.0[..|pool|] == pool
    ensures Contains(pool, FuncConst(NameOnly(id))) ==> r.0 == pool
    ensures !Contains(pool, FuncConst(NameOnly(id))) ==> r.0 == pool + [FuncConst(NameOnly(id))]
  {
    var i := IndexOf(pool, FuncConst(NameOnly(id)));
    if i >= 0 then (pool, i) else GetOrInsert(pool, FuncConst(NameOnly(id)))
  }

  /**
   * The pool half of `defineFunction(f)`: an entry with `f`'s name is
   * overwritten by `f` at the same index; otherwise `f` is appended.
   */
  function DefineInPool(pool: seq<PoolEntry>, f: FunctionSymbol): (p: seq<PoolEntry>)
    ensures Contains(pool, FuncConst(f)) ==> |p| == |pool|
    ensures !Contains(pool, FuncConst(f)) ==> p == pool + [FuncConst(f)]
    ensures forall j :: 0 <= j < |pool| && j != IndexOf(pool, FuncConst(f)) ==> p[j] == pool[j]
  {
    var i := IndexOf(pool, FuncConst(f));
    if i >= 0 then pool[i := FuncConst(f)] else GetOrInsert(pool, FuncConst(f)).0
  }

  /** The entry for `f`'s name is `f` itself after the definition. */
  lemma DefineInPoolHoldsDefinition(pool: seq<PoolEntry>, f: FunctionSymbol)
    ensures var p := DefineInPool(pool, f);
      IndexOf(p, FuncConst(f)) >= 0 && p[IndexOf(p, FuncConst(f))] == FuncConst(f)
    ensures Contains(pool, FuncConst(f)) ==>
      IndexOf(DefineInPool(pool, f), FuncConst(f)) == IndexOf(pool, FuncConst(f))
  {
    var p := DefineInPool(pool, f);
    var i := IndexOf(pool, FuncConst(f));
    if i >= 0 {
      forall j | 0 <= j < i ensures !PoolEquals(FuncConst(f), p[j]) {
        assert p[j] == pool[j];
      }
      assert PoolEquals(FuncConst(f), p[i]);
      assert IndexOf(p, FuncConst(f)) == i;
    } else {
      assert IndexOf(p, FuncConst(f)) == |pool|;
    }
  }

  /** Defining a function keeps a pool free of duplicates. */
  lemma DefineInPoolKeepsDistinct(pool: seq<PoolEntry>, f: FunctionSymbol)
    requires Distinct(pool)
    ensures Distinct(DefineInPool(pool, f))
  {
    var i := IndexOf(pool, FuncConst(f));
    var p := DefineInPool(pool, f);
    if i >= 0 {
      forall a, b | 0 <= a < b < |p| ensures !PoolEquals(p[a], p[b]) {
        if a == i {
          PoolEqualsEquivalence(FuncConst(f), pool[i], pool[b]);
        } else if b == i {
          PoolEqualsEquivalence(pool[a], FuncConst(f), pool[i]);
          PoolEqualsEquivalence(FuncConst(f), pool[i], pool[i]);
        }
      }
    } else {
      GetOrInsertKeepsDistinct(pool, FuncConst(f));
    }
  }

  /**
   * A call to `f` placed before `.def f` gets a stub's index; the later
   * definition completes exactly that entry, leaves the pool size alone,
   * and later look-ups of the name return the same index.
   */
  lemma {:induction false} ForwardFunctionReference(pool: seq<PoolEntry>, f: FunctionSymbol)
    ensures var (p1, i) := FunctionIndex(pool, f.name);
      var p2 := DefineInPool(p1, f);
      && |p2| == |p1|
      && p2[i] == FuncConst(f)
      && (forall j :: 0 <= j < |p1| && j != i ==> p2[j] == p1[j])
      && FunctionIndex(p2, f.name) == (p2, i)
  {
    var (p1, i) := FunctionIndex(pool, f.name);
    assert IndexOf(p1, FuncConst(NameOnly(f.name))) == i by {
      if Contains(pool, FuncConst(NameOnly(f.name))) {
      } else {
        assert p1 == pool + [FuncConst(NameOnly(f.name))];
      }
    }
    forall j | 0 <= j < |p1| ensures PoolEquals(FuncConst(f), p1[j]) <==> PoolEquals(FuncConst(NameOnly(f.name)), p1[j]) {
    }
    assert IndexOf(p1, FuncConst(f)) == i;
    var p2 := DefineInPool(p1, f);
    forall j | 0 <= j < i ensures !PoolEquals(FuncConst(NameOnly(f.name)), p2[j]) {
      assert p2[j] == p1[j];
    }
    assert p2[i] == FuncConst(f);
    IndexOfFirst(p2, FuncConst(NameOnly(f.name)), i);
  }
}
