/**
 * Label symbols (`LabelSymbol`) with their list of pending patch sites,
 * and what back-patching those sites does to the code buffer.
 */
module Labels {
  import opened Wrappers
  import opened Encoding

  /** Every site's 4-byte window lies inside `memory`. */
  predicate SitesInside(memory: seq<Byte>, sites: seq<int>) {
    forall k :: 0 <= k < |sites| ==> 0 <= sites[k] && sites[k] + 4 <= |memory|
  }

  /** Two sites are the same or their windows do not overlap. */
  predicate Separate(sites: seq<int>) {
    forall i, j :: 0 <= i < |sites| && 0 <= j < |sites| ==>
      sites[i] == sites[j] || sites[i] + 4 <= sites[j] || sites[j] + 4 <= sites[i]
  }

  /** `memory` after `writeInt(memory, p, value)` for each site `p`, in list order. */
  function PatchAll(memory: seq<Byte>, sites: seq<int>, value: Int32): (r: seq<Byte>)
    requires SitesInside(memory, sites)
    ensures |r| == |memory|
  {
    if sites == [] then memory
    else Splice(PatchAll(memory, sites[..|sites| - 1], value), sites[|sites| - 1], value)
  }

  /** Back-patching touches only the windows of the sites. */
  lemma {:induction false} PatchAllFrame(memory: seq<Byte>, sites: seq<int>, value: Int32, k: int)
    requires SitesInside(memory, sites)
    requires 0 <= k < |memory|
    requires forall j :: 0 <= j < |sites| ==> !(sites[j] <= k < sites[j] + 4)
    ensures PatchAll(memory, sites, value)[k] == memory[k]
  {
    if sites != [] {
      PatchAllFrame(memory, sites[..|sites| - 1], value, k);
    }
  }

  /** A word whose window misses every site reads the same after back-patching. */
  lemma PatchAllKeepsWord(memory: seq<Byte>, sites: seq<int>, value: Int32, q: int)
    requires SitesInside(memory, sites)
    requires 0 <= q && q + 4 <= |memory|
    requires forall j :: 0 <= j < |sites| ==> sites[j] + 4 <= q || q + 4 <= sites[j]
    ensures GetInt(PatchAll(memory, sites, value), q) == GetInt(memory, q)
  {
    var r := PatchAll(memory, sites, value);
    forall k | q <= k < q + 4 ensures r[k] == memory[k] {
      PatchAllFrame(memory, sites, value, k);
    }
    assert r[q..q + 4] == memory[q..q + 4];
    GetIntLocal(r, memory, q);
  }

  /** A write at `p` leaves a word whose window misses `p`'s window as it was. */
  lemma SpliceKeepsWord(memory: seq<Byte>, p: int, value: Int32, q: int)
    requires 0 <= p && p + 4 <= |memory| && 0 <= q && q + 4 <= |memory|
    requires p + 4 <= q || q + 4 <= p
    ensures GetInt(Splice(memory, p, value), q) == GetInt(memory, q)
  {
    var r := Splice(memory, p, value);
    assert r[q..q + 4] == memory[q..q + 4];
    GetIntLocal(r, memory, q);
  }

  /** After back-patching separate sites, site `j` holds the value. */
  lemma {:induction false} PatchAllHoldsAt(memory: seq<Byte>, sites: seq<int>, value: Int32, j: int)
    requires SitesInside(memory, sites)
    requires Separate(sites)
    requires 0 <= j < |sites|
    ensures GetInt(PatchAll(memory, sites, value), sites[j]) == value
  {
    var init := sites[..|sites| - 1];
    var last := sites[|sites| - 1];
    assert SitesInside(memory, init);
    var before := PatchAll(memory, init, value);
    if sites[j] == last {
      GetIntSplice(before, last, value);
    } else {
      assert j < |init| && sites[j] == init[j];
      assert Separate(init);
      PatchAllHoldsAt(memory, init, value, j);
      SpliceKeepsWord(before, last, value, sites[j]);
    }
  }

  /** After back-patching separate sites, every site holds the value. */
  lemma PatchAllHolds(memory: seq<Byte>, sites: seq<int>, value: Int32)
    requires SitesInside(memory, sites)
    requires Separate(sites)
    ensures forall j :: 0 <= j < |sites| ==> GetInt(PatchAll(memory, sites, value), sites[j]) == value
  {
    forall j | 0 <= j < |sites| ensures GetInt(PatchAll(memory, sites, value), sites[j]) == value {
      PatchAllHoldsAt(memory, sites, value, j);
    }
  }

  /**
   * A 4-byte write of `value` at each site in turn, the loop of
   * `resolveForwardReferences`.
   */
  method PatchSites(code: array<Byte>, sites: seq<int>, value: Int32)
    requires SitesInside(code[..], sites)
    modifies code
    ensures code[..] == PatchAll(old(code[..]), sites, value)
  {
    ghost var mem := code[..];
    for i := 0 to |sites|
      invariant code.Length == |mem|
      invariant code[..] == PatchAll(mem, sites[..i], value)
    {
      ghost var prefix := sites[..i + 1];
      assert prefix[..i] == sites[..i] && prefix[i] == sites[i];
      assert SitesInside(mem, prefix);
      WriteInt(code, sites[i], value);
    }
    assert sites[..|sites|] == sites;
  }

  /** What a label symbol holds, as a value. */
  datatype LabelInfo = LabelInfo(address: Int32, isForwardRef: bool, isDefined: bool, refs: Option<seq<int>>)

  /** `addForwardReference(site)`: one more pending site, creating the list if needed. */
  function AddReference(info: LabelInfo, site: int): (r: LabelInfo)
    ensures r.refs.Some? && r.refs.value == (if info.refs.Some? then info.refs.value else []) + [site]
    ensures r.(refs := info.refs) == info
  {
    info.(refs := Some((if info.refs.Some? then info.refs.value else []) + [site]))
  }

  /**
   * A symbol made by `LabelSymbol(name, site, true)`: forward, address 0,
   * `site` as its only pending site, and `isDefined` still at its default.
   */
  function ForwardLabel(site: int): (r: LabelInfo)
    ensures r.address == 0 && r.isForwardRef && r.isDefined && r.refs == Some([site])
  {
    assert [] + [site] == [site];
    AddReference(LabelInfo(0, true, true, None), site)
  }

  class LabelSymbol {
    const name: string
    var address: Int32
    var isForwardRef: bool
    var isDefined: bool
    /** `null` until the first forward reference is recorded. */
    var forwardReferences: Option<seq<int>>

    function Info(): LabelInfo
      reads this
    {
      LabelInfo(address, isForwardRef, isDefined, forwardReferences)
    }

    /** `LabelSymbol(name)`: Java's field defaults, `isDefined` initialised to true. */
    constructor Named(name: string)
      ensures this.name == name && Info() == LabelInfo(0, false, true, None)
    {
      this.name := name;
      address := 0;
      isForwardRef := false;
      isDefined := true;
      forwardReferences := None;
    }

    /** `LabelSymbol(name, address)`. */
    constructor At(name: string, address: Int32)
      ensures this.name == name && Info() == LabelInfo(address, false, true, None)
    {
      this.name := name;
      this.address := address;
      isForwardRef := false;
      isDefined := true;
      forwardReferences := None;
    }

    /**
     * `LabelSymbol(name, address, forward)`: a forward label records
     * `address` as its first pending site and keeps address 0; otherwise
     * the label is defined at `address`. Either way `isDefined` starts true.
     */
    constructor (name: string, address: Int32, forward: bool)
      ensures this.name == name
      ensures Info() == if forward then ForwardLabel(address) else LabelInfo(address, false, true, None)
    {
      this.name := name;
      this.address := 0;
      isForwardRef := forward;
      isDefined := true;
      forwardReferences := None;
      new;
      if forward {
        AddForwardReference(address);
      } else {
        this.address := address;
      }
    }

    /** `addForwardReference(address)`: appends one pending site, creating the list if needed. */
    method AddForwardReference(address: int)
      modifies this`forwardReferences
      ensures Info() == AddReference(old(Info()), address)
    {
      if forwardReferences == None {
        forwardReferences := Some([]);
      }
      forwardReferences := Some(forwardReferences.value + [address]);
    }

    /**
     * `resolveForwardReferences(code)`: clears `isForwardRef` and writes
     * `address` into the window of every pending site, in list order.
     * The list must exist (it does whenever `isForwardRef` was set) and
     * every window must lie inside `code`.
     */
    method ResolveForwardReferences(code: array<Byte>)
      requires forwardReferences.Some?
      requires SitesInside(code[..], forwardReferences.value)
      modifies this`isForwardRef, code
      ensures Info() == old(Info()).(isForwardRef := false)
      ensures code[..] == PatchAll(old(code[..]), forwardReferences.value, address)
    {
      isForwardRef := false;
      var operandsToPatch := forwardReferences.value;
      PatchSites(code, operandsToPatch, address);
    }
  }
}
