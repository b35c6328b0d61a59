/**
 * The bytecode assembler (`BytecodeAssembler`): the actions the generated
 * parser calls while it reads an assembly program, the code buffer they
 * fill, the constant pool and the label table with back-patching.
 *
 * The invariant that carries the proofs is `SitesOk`: every operand site
 * recorded for a label holds 0 while the label is a forward reference and
 * the label's address once it is defined.
 */
module Assembler {
  import opened Wrappers
  import opened Encoding
  import opened Decimal
  import opened InstructionSet
  import opened Symbols
  import opened ConstantPool
  import opened Labels

  const INITIAL_CODE_SIZE: int := 1024
  /** Largest `ip` the model admits; doubling it stays inside Java's `int`. */
  const MAX_CODE: int := 0x3FFF_FFF0
  /** Largest constant pool the model admits; every index fits in an `int`. */
  const MAX_POOL: int := 0x7FFF_FFFF

  // ----- Opcode map -------------------------------------------------------

  /** ASCII lower-casing of one character. */
  function LowerChar(c: char): (r: char)
    ensures !('A' <= r <= 'Z')
    ensures 'A' <= c <= 'Z' ==> 'a' <= r <= 'z' && r as int - c as int == 'a' as int - 'A' as int
    ensures !('A' <= c <= 'Z') ==> r == c
  {
    if 'A' <= c <= 'Z' then (c as int + 32) as char else c
  }

  /** `String.toLowerCase`, character by character, on ASCII letters. */
  function ToLower(s: string): (r: string)
    ensures |r| == |s|
    ensures forall k :: 0 <= k < |s| ==> r[k] == LowerChar(s[k])
  {
    seq(|s|, k requires 0 <= k < |s| => LowerChar(s[k]))
  }

  /** Lower-casing a lower-cased name changes nothing. */
  lemma ToLowerIdempotent(s: string)
    ensures ToLower(ToLower(s)) == ToLower(s)
  {
  }

  /**
   * `m` maps the lower-cased name of every entry from index 1 on to an
   * index carrying that name; when two entries share a name, the later wins.
   */
  ghost predicate MapsNames(instructions: seq<Option<Instruction>>, m: map<string, int>)
    requires forall i :: 1 <= i < |instructions| ==> instructions[i].Some?
  {
    && (forall i :: 1 <= i < |instructions| ==> ToLower(instructions[i].value.name) in m)
    && (forall key :: key in m ==>
          && 1 <= m[key] < |instructions|
          && ToLower(instructions[m[key]].value.name) == key
          && (forall j :: m[key] < j < |instructions| ==> ToLower(instructions[j].value.name) != key))
  }

  /** The constructor's loop filling `instructionOpcodeMapping`. */
  method BuildOpcodeMapping(instructions: seq<Option<Instruction>>) returns (m: map<string, int>)
    requires forall i :: 1 <= i < |instructions| ==> instructions[i].Some?
    ensures MapsNames(instructions, m)
  {
    m := map[];
    var i := 1;
    while i < |instructions|
      invariant 1 <= i && (i <= |instructions| || |instructions| <= 1)
      invariant forall j :: 1 <= j < i && j < |instructions| ==> ToLower(instructions[j].value.name) in m
      invariant forall key :: key in m ==>
        && 1 <= m[key] < i && m[key] < |instructions|
        && ToLower(instructions[m[key]].value.name) == key
        && (forall j :: m[key] < j < i && j < |instructions| ==> ToLower(instructions[j].value.name) != key)
    {
      m := m[ToLower(instructions[i].value.name) := i];
      i := i + 1;
    }
  }

  // ----- Operands and diagnostics ----------------------------------------

  /**
   * An operand token: its type and text. A float literal carries the bits
   * of the `Float` the host parses from its text.
   */
  datatype Operand =
    | IntLit(text: string)
    | CharLit(text: string)
    | FloatLit(bits: Int32)
    | StringLit(text: string)
    | Ident(text: string)
    | FuncRef(text: string)
    | RegName(text: string)

  /**
   * What the lexer guarantees about a token's text: integer literals and
   * register numbers parse as Java ints, and a character literal `'c'`
   * has its character (one UTF-16 unit) at position 1.
   */
  predicate OperandOk(t: Operand) {
    match t
    case IntLit(text) => IsJavaInt(text)
    case CharLit(text) => |text| >= 2 && text[1] as int < 0x1_0000
    case RegName(text) => |text| >= 1 && IsJavaInt(text[1..])
    case _ => true
  }

  /** The messages the assembler writes to standard error. */
  datatype Diagnostic =
    | UnknownInstruction(line: int, name: string)
    | Redefinition(line: int, name: string)
    | UnresolvedReference(name: string)

  /** `getRegisterNumber`: `"rN"` denotes register N. */
  function GetRegisterNumber(text: string): Int32
    requires |text| >= 1 && IsJavaInt(text[1..])
  {
    ParseInt(text[1..])
  }

  /** Register names as the disassembler prints them read back as the same number. */
  lemma RegisterNameRoundTrip(v: Int32)
    ensures var text := "r" + IntToString(v);
      |text| >= 1 && IsJavaInt(text[1..]) && GetRegisterNumber(text) == v
  {
    ParseIntToString(v);
    assert ("r" + IntToString(v))[1..] == IntToString(v);
  }

  // ----- Label table as a value ------------------------------------------

  type LabelView = map<string, LabelInfo>

  /**
   * `getLabelAddress(id)` with the operand site at `site`: the word to
   * emit and the new label table. An unknown name becomes a forward label
   * with `site` pending; a forward label gets `site` appended; a defined
   * label yields its address and changes nothing.
   */
  function LabelLookup(view: LabelView, id: string, site: int): (r: (Int32, LabelView))
    ensures r.1.Keys == view.Keys + {id}
    ensures forall n :: n in view && n != id ==> r.1[n] == view[n]
    ensures !r.1[id].isForwardRef ==> id in view && r.1 == view && r.0 == view[id].address
    ensures r.1[id].isForwardRef ==>
      && r.0 == 0 && r.1[id].refs.Some?
      && r.1[id].refs.value == (if id in view && view[id].refs.Some? then view[id].refs.value else []) + [site]
  {
    if id !in view then (0, view[id := ForwardLabel(site).(isDefined := false)])
    else if view[id].isForwardRef then (0, view[id := AddReference(view[id], site)])
    else (view[id].address, view)
  }

  /** Whether looking `id` up records `site` as a pending patch site. */
  predicate RecordsSite(view: LabelView, id: string) {
    id !in view || view[id].isForwardRef
  }

  /** The label table after `defineLabel(id)` at address `ip`. */
  function DefineView(view: LabelView, id: string, ip: Int32): (r: LabelView)
    ensures r.Keys == view.Keys + {id}
    ensures forall n :: n in view && n != id ==> r[n] == view[n]
    ensures id in view && !view[id].isForwardRef ==> r == view
    ensures RecordsSite(view, id) ==>
      r[id] == LabelInfo(ip, false, true, if id in view then view[id].refs else None)
  {
    if id !in view then view[id := LabelInfo(ip, false, true, None)]
    else if view[id].isForwardRef then view[id := view[id].(isDefined := true, address := ip, isForwardRef := false)]
    else view
  }

  // ----- The patch-site invariant ----------------------------------------

  /** Every site in `refs` belongs to label `n`, lies below `ip` and holds `value`. */
  ghost predicate SitesHold(n: string, refs: seq<int>, mem: seq<Byte>, ip: int, owner: map<int, string>, value: int) {
    forall k :: 0 <= k < |refs| ==>
      && refs[k] in owner && owner[refs[k]] == n
      && 0 <= refs[k] && refs[k] + 4 <= ip && refs[k] + 4 <= |mem|
      && GetInt(mem, refs[k]) == value
  }

  /**
   * A forward label has pending sites, is not defined and has address 0;
   * any other label is defined at an address already emitted. Every site
   * holds 0 for a forward label and the address for a defined one.
   */
  ghost predicate InfoOk(n: string, info: LabelInfo, mem: seq<Byte>, ip: int, owner: map<int, string>) {
    && (info.isForwardRef ==> info.refs.Some? && !info.isDefined && info.address == 0)
    && (!info.isForwardRef ==> info.isDefined && 0 <= info.address <= ip)
    && (info.refs.Some? ==>
          SitesHold(n, info.refs.value, mem, ip, owner, if info.isForwardRef then 0 else info.address))
  }

  /** Recorded sites are 4-byte windows below `ip` that never overlap. */
  ghost predicate Disjoint(owner: map<int, string>) {
    forall p, q :: p in owner && q in owner ==> p == q || p + 4 <= q || q + 4 <= p
  }

  ghost predicate SitesOk(view: LabelView, mem: seq<Byte>, ip: int, owner: map<int, string>) {
    && ip <= |mem|
    && (forall p :: p in owner ==> 0 <= p && p + 4 <= ip)
    && Disjoint(owner)
    && (forall n :: n in view ==> InfoOk(n, view[n], mem, ip, owner))
  }

  /** Emitting more code after `ip` keeps every recorded site as it was. */
  lemma AppendKeepsSites(view: LabelView, mem: seq<Byte>, ip: int, owner: map<int, string>,
                         mem': seq<Byte>, ip': int)
    requires SitesOk(view, mem, ip, owner)
    requires 0 <= ip <= ip' <= |mem'| && mem'[..ip] == mem[..ip]
    ensures SitesOk(view, mem', ip', owner)
  {
    forall n | n in view ensures InfoOk(n, view[n], mem', ip', owner) {
      var info := view[n];
      if info.refs.Some? {
        var refs := info.refs.value;
        forall k | 0 <= k < |refs| ensures GetInt(mem', refs[k]) == GetInt(mem, refs[k]) {
          var p := refs[k];
          assert mem'[p..p + 4] == mem[p..p + 4] by {
            assert mem'[p..p + 4] == mem'[..ip][p..p + 4];
            assert mem[p..p + 4] == mem[..ip][p..p + 4];
          }
          GetIntLocal(mem', mem, p);
        }
      }
    }
  }

  /**
   * A label operand written at `ip` keeps the invariant: when the look-up
   * records `ip` as a pending site, that site, now owned by `id`, holds 0;
   * otherwise the word written is the label's address.
   */
  lemma LabelOperandKeepsSites(view: LabelView, mem: seq<Byte>, ip: int, owner: map<int, string>,
                               id: string, mem': seq<Byte>)
    requires SitesOk(view, mem, ip, owner)
    requires 0 <= ip && ip + 4 <= |mem'| && mem'[..ip] == mem[..ip]
    requires GetInt(mem', ip) == LabelLookup(view, id, ip).0
    ensures SitesOk(LabelLookup(view, id, ip).1, mem', ip + 4,
                    if RecordsSite(view, id) then owner[ip := id] else owner)
  {
    AppendKeepsSites(view, mem, ip, owner, mem', ip + 4);
    if RecordsSite(view, id) {
      var view' := LabelLookup(view, id, ip).1;
      var owner' := owner[ip := id];
      assert ip !in owner;
      forall n | n in view' ensures InfoOk(n, view'[n], mem', ip + 4, owner') {
        if n == id {
          var refs := view'[id].refs.value;
          var old_refs := if id in view && view[id].refs.Some? then view[id].refs.value else [];
          assert refs == old_refs + [ip];
          forall k | 0 <= k < |refs|
            ensures refs[k] in owner' && owner'[refs[k]] == id
            ensures 0 <= refs[k] && refs[k] + 4 <= ip + 4 && GetInt(mem', refs[k]) == 0
          {
            if k < |old_refs| {
              assert refs[k] == old_refs[k];
              assert InfoOk(id, view[id], mem', ip + 4, owner);
            }
          }
        } else {
          assert view'[n] == view[n];
          assert InfoOk(n, view[n], mem', ip + 4, owner);
        }
      }
    }
  }

  /**
   * `defineLabel(id)` at `ip` keeps the invariant; when `id` was a forward
   * label, its sites are back-patched with `ip`, and every other label's
   * sites are left alone because no two recorded windows overlap.
   */
  lemma DefineLabelKeepsSites(view: LabelView, mem: seq<Byte>, ip: Int32, owner: map<int, string>, id: string)
    requires SitesOk(view, mem, ip, owner) && 0 <= ip
    ensures id in view && view[id].isForwardRef ==>
      SitesInside(mem, view[id].refs.value) &&
      SitesOk(DefineView(view, id, ip), PatchAll(mem, view[id].refs.value, ip), ip, owner)
    ensures !(id in view && view[id].isForwardRef) ==> SitesOk(DefineView(view, id, ip), mem, ip, owner)
  {
    var view' := DefineView(view, id, ip);
    if id in view && view[id].isForwardRef {
      var refs := view[id].refs.value;
      assert InfoOk(id, view[id], mem, ip, owner);
      assert SitesInside(mem, refs);
      assert Separate(refs) by {
        forall i, j | 0 <= i < |refs| && 0 <= j < |refs|
          ensures refs[i] == refs[j] || refs[i] + 4 <= refs[j] || refs[j] + 4 <= refs[i]
        {
          assert refs[i] in owner && refs[j] in owner;
        }
      }
      var mem' := PatchAll(mem, refs, ip);
      PatchAllHolds(mem, refs, ip);
      forall n | n in view' ensures InfoOk(n, view'[n], mem', ip, owner) {
        if n != id {
          var info := view[n];
          assert InfoOk(n, info, mem, ip, owner);
          if info.refs.Some? {
            var other := info.refs.value;
            forall k | 0 <= k < |other| ensures GetInt(mem', other[k]) == GetInt(mem, other[k]) {
              var q := other[k];
              forall j | 0 <= j < |refs| ensures refs[j] + 4 <= q || q + 4 <= refs[j] {
                assert owner[refs[j]] == id && owner[q] == n;
              }
              PatchAllKeepsWord(mem, refs, ip, q);
            }
          }
        }
      }
    } else if id !in view {
      forall n | n in view' ensures InfoOk(n, view'[n], mem, ip, owner) {
        if n != id {
          assert InfoOk(n, view[n], mem, ip, owner);
        }
      }
    }
  }

  // ----- Parser events ---------------------------------------------------

  /** One action of the generated parser, in input order. */
  datatype Event =
    | DataSize(n: Int32)
    | Function(line: int, name: string, args: Int32, locals: Int32)
    | Label(line: int, name: string)
    | Instr(line: int, mnemonic: string, operands: seq<Operand>)

  predicate EventOk(e: Event) {
    e.Instr? ==> |e.operands| <= 3 && forall k :: 0 <= k < |e.operands| ==> OperandOk(e.operands[k])
  }

  /** One `unresolved reference` message per name, in order. */
  function Reports(names: seq<string>): seq<Diagnostic> {
    if names == [] then [] else Reports(names[..|names| - 1]) + [UnresolvedReference(names[|names| - 1])]
  }

  /** Code bytes an event can emit at most. */
  function CodeDemand(events: seq<Event>): nat {
    if events == [] then 0
    else (if events[0].Instr? then 1 + 4 * |events[0].operands| else 0) + CodeDemand(events[1..])
  }

  // ----- The assembler ---------------------------------------------------

  /** The names of the labels used but still not defined. */
  function Unresolved(view: LabelView): (r: set<string>)
    ensures forall n :: n in r <==> n in view && !view[n].isDefined
  {
    set n | n in view && !view[n].isDefined
  }

  class BytecodeAssembler {
    var dataSize: Int32
    var code: array<Byte>
    var mainFunction: Option<FunctionSymbol>
    var constPool: seq<PoolEntry>
    var ip: nat
    const instructionOpcodeMapping: map<string, int>
    /** The label table, each symbol held by value under its name. */
    var labels: LabelView
    /** The messages written to standard error, in order. */
    var diagnostics: seq<Diagnostic>
    /** For every recorded patch site, the label it belongs to. */
    ghost var siteOwner: map<int, string>

    ghost predicate SitesValid()
      reads this`labels, this`code, this`ip, this`siteOwner, code
    {
      SitesOk(labels, code[..], ip, siteOwner)
    }

    ghost predicate PoolValid()
      reads this`constPool
    {
      Distinct(constPool) && |constPool| <= MAX_POOL
    }

    ghost predicate Valid()
      reads this, code
    {
      && ip <= MAX_CODE
      && SitesValid()
      && PoolValid()
      && (mainFunction.Some? ==> mainFunction.value.name == "main")
    }

    constructor (instructions: seq<Option<Instruction>>)
      requires forall i :: 1 <= i < |instructions| ==> instructions[i].Some?
      ensures Valid() && fresh(code)
      ensures code[..] == seq(INITIAL_CODE_SIZE, _ => 0)
      ensures ip == 0 && dataSize == 0 && constPool == [] && mainFunction == None
      ensures labels == map[] && diagnostics == []
      ensures MapsNames(instructions, instructionOpcodeMapping)
    {
      var m := BuildOpcodeMapping(instructions);
      instructionOpcodeMapping := m;
      dataSize := 0;
      code := new Byte[INITIAL_CODE_SIZE](_ => 0);
      mainFunction := None;
      constPool := [];
      ip := 0;
      labels := map[];
      diagnostics := [];
      siteOwner := map[];
    }

    /** `ensureCapacity(index)`: doubles to `2 * index` when `index` is past the end. */
    method EnsureCapacity(index: int)
      requires 1 <= index <= MAX_CODE
      modifies this`code
      ensures index < code.Length
      ensures old(code.Length) <= code.Length && code[..old(code.Length)] == old(code[..])
      ensures index < old(code.Length) ==> code == old(code)
      ensures old(code.Length) <= index ==>
        fresh(code) && code.Length == 2 * index &&
        forall k :: old(code.Length) <= k < code.Length ==> code[k] == 0
    {
      if index >= code.Length {
        var newSize := index * 2;
        var bigger := new Byte[newSize](_ => 0);
        forall k | 0 <= k < code.Length {
          bigger[k] := code[k];
        }
        code := bigger;
      }
    }

    /**
     * `gen(instr)`: emits the opcode byte of a known mnemonic; an unknown
     * one is reported and emits nothing. The look-up uses the text as
     * written against the lower-cased keys.
     */
    method Gen(line: int, instrName: string)
      requires Valid() && ip + 1 <= MAX_CODE
      modifies this`code, this`ip, this`diagnostics, code
      ensures Valid()
      ensures code == old(code) || fresh(code)
      ensures old(ip) <= ip <= code.Length && code[..old(ip)] == old(code[..ip])
      ensures instrName in instructionOpcodeMapping ==>
        && ip == old(ip) + 1
        && code[old(ip)] == LowByte(instructionOpcodeMapping[instrName])
        && diagnostics == old(diagnostics)
      ensures instrName !in instructionOpcodeMapping ==>
        ip == old(ip) && code == old(code) && diagnostics == old(diagnostics) + [UnknownInstruction(line, instrName)]
      ensures code[..ip] == old(code[..ip]) + OpcodeBytes(instructionOpcodeMapping, instrName)
    {
      if instrName !in instructionOpcodeMapping {
        diagnostics := diagnostics + [UnknownInstruction(line, instrName)];
        return;
      }
      var opcode := instructionOpcodeMapping[instrName];
      ghost var mem := code[..];
      ghost var site := ip;
      EnsureCapacity(ip + 1);
      code[ip] := LowByte(opcode);
      ip := ip + 1;
      assert code[..site] == mem[..site];
      assert code[..ip] == code[..site] + [code[site]];
      AppendKeepsSites(labels, mem, site, siteOwner, code[..], ip);
    }

    /** `gen(instr, a)`. */
    method Gen1(line: int, instrName: string, a: Operand)
      requires Valid() && ip + 5 <= MAX_CODE && |constPool| + 1 <= MAX_POOL && OperandOk(a)
      modifies this`code, this`ip, this`diagnostics, this`constPool, this`labels, this`siteOwner, code
      ensures Valid()
      ensures code == old(code) || fresh(code)
      ensures ip <= code.Length
      ensures |constPool| <= old(|constPool|) + 1
      ensures ip == old(ip) + 4 + (if instrName in instructionOpcodeMapping then 1 else 0)
      ensures diagnostics == old(diagnostics) +
        (if instrName in instructionOpcodeMapping then [] else [UnknownInstruction(line, instrName)])
      ensures code[..ip] == old(code[..ip]) + OpcodeBytes(instructionOpcodeMapping, instrName)
        + EncodeInt(OperandWord(a, old(constPool), old(labels), ip - 4))
      ensures constPool == OperandPool(a, old(constPool))
      ensures labels == OperandLabels(a, old(labels), ip - 4)
    {
      Gen(line, instrName);
      GenOperand(a);
    }

    /** `gen(instr, a, b)`. */
    method Gen2(line: int, instrName: string, a: Operand, b: Operand)
      requires Valid() && ip + 9 <= MAX_CODE && |constPool| + 2 <= MAX_POOL && OperandOk(a) && OperandOk(b)
      modifies this`code, this`ip, this`diagnostics, this`constPool, this`labels, this`siteOwner, code
      ensures Valid()
      ensures code == old(code) || fresh(code)
      ensures ip <= code.Length
      ensures |constPool| <= old(|constPool|) + 2
      ensures ip == old(ip) + 8 + (if instrName in instructionOpcodeMapping then 1 else 0)
      ensures diagnostics == old(diagnostics) +
        (if instrName in instructionOpcodeMapping then [] else [UnknownInstruction(line, instrName)])
      ensures var pool1, view1 := OperandPool(a, old(constPool)), OperandLabels(a, old(labels), ip - 8);
        && code[..ip] == old(code[..ip]) + OpcodeBytes(instructionOpcodeMapping, instrName)
          + EncodeInt(OperandWord(a, old(constPool), old(labels), ip - 8))
          + EncodeInt(OperandWord(b, pool1, view1, ip - 4))
        && constPool == OperandPool(b, pool1)
        && labels == OperandLabels(b, view1, ip - 4)
    {
      Gen1(line, instrName, a);
      GenOperand(b);
    }

    /** `gen(instr, a, b, c)`. */
    method Gen3(line: int, instrName: string, a: Operand, b: Operand, c: Operand)
      requires Valid() && ip + 13 <= MAX_CODE && |constPool| + 3 <= MAX_POOL
      requires OperandOk(a) && OperandOk(b) && OperandOk(c)
      modifies this`code, this`ip, this`diagnostics, this`constPool, this`labels, this`siteOwner, code
      ensures Valid()
      ensures code == old(code) || fresh(code)
      ensures ip <= code.Length
      ensures |constPool| <= old(|constPool|) + 3
      ensures ip == old(ip) + 12 + (if instrName in instructionOpcodeMapping then 1 else 0)
      ensures diagnostics == old(diagnostics) +
        (if instrName in instructionOpcodeMapping then [] else [UnknownInstruction(line, instrName)])
      ensures var pool1, view1 := OperandPool(a, old(constPool)), OperandLabels(a, old(labels), ip - 12);
        var pool2, view2 := OperandPool(b, pool1), OperandLabels(b, view1, ip - 8);
        && code[..ip] == old(code[..ip]) + OpcodeBytes(instructionOpcodeMapping, instrName)
          + EncodeInt(OperandWord(a, old(constPool), old(labels), ip - 12))
          + EncodeInt(OperandWord(b, pool1, view1, ip - 8))
          + EncodeInt(OperandWord(c, pool2, view2, ip - 4))
        && constPool == OperandPool(c, pool2)
        && labels == OperandLabels(c, view2, ip - 4)
    {
      Gen2(line, instrName, a, b);
      GenOperand(c);
    }

    /**
     * `genOperand(t)`: the operand's word is written big-endian at `ip`
     * and `ip` advances by 4. Pool constants and functions are looked up
     * or added; a label operand is looked up or recorded as pending.
     */
    method GenOperand(t: Operand)
      requires Valid() && OperandOk(t) && ip + 4 <= MAX_CODE && |constPool| < MAX_POOL
      modifies this`code, this`ip, this`constPool, this`labels, this`siteOwner, code
      ensures Valid()
      ensures code == old(code) || fresh(code)
      ensures ip == old(ip) + 4
      ensures old(ip) <= ip <= code.Length && code[..old(ip)] == old(code[..ip])
      ensures code[..ip] == old(code[..ip]) + EncodeInt(OperandWord(t, old(constPool), old(labels), old(ip)))
      ensures constPool == OperandPool(t, old(constPool))
      ensures labels == OperandLabels(t, old(labels), old(ip))
    {
      ghost var mem, site := code[..], ip;
      if t.Ident? {
        GenLabelOperand(t.text);
      } else {
        GenValueOperand(t);
      }
      AppendWord(mem, code[..], site, GetInt(code[..], site));
    }

    /** `genOperand` for a label operand (`case ID`). */
    method GenLabelOperand(id: string)
      requires Valid() && ip + 4 <= MAX_CODE
      modifies this`code, this`ip, this`labels, this`siteOwner, code
      ensures Valid()
      ensures code == old(code) || fresh(code)
      ensures ip == old(ip) + 4
      ensures old(ip) <= ip <= code.Length && code[..old(ip)] == old(code[..ip])
      ensures (GetInt(code[..], old(ip)), labels) == LabelLookup(old(labels), id, old(ip))
    {
      ghost var view := labels;
      ghost var mem := code[..];
      ghost var site := ip;
      ghost var owner := siteOwner;
      var v := GetLabelAddress(id);
      EmitWord(v);
      siteOwner := if RecordsSite(view, id) then owner[site := id] else owner;
      LabelOperandKeepsSites(view, mem, site, owner, id, code[..]);
      assert SitesValid();
    }

    /** `genOperand` for every other operand type. */
    method GenValueOperand(t: Operand)
      requires Valid() && OperandOk(t) && !t.Ident? && ip + 4 <= MAX_CODE && |constPool| < MAX_POOL
      modifies this`code, this`ip, this`constPool, code
      ensures Valid()
      ensures code == old(code) || fresh(code)
      ensures ip == old(ip) + 4
      ensures old(ip) <= ip <= code.Length && code[..old(ip)] == old(code[..ip])
      ensures GetInt(code[..], old(ip)) == OperandWord(t, old(constPool), labels, old(ip))
      ensures constPool == OperandPool(t, old(constPool))
    {
      ghost var mem := code[..];
      ghost var site := ip;
      var v := EvalOperand(t);
      EmitWord(v);
      AppendKeepsSites(labels, mem, site, siteOwner, code[..], ip);
    }

    /** The tail of `genOperand`: make room, write `v` at `ip`, advance `ip` by 4. */
    method EmitWord(v: Int32)
      requires ip + 4 <= MAX_CODE && ip <= code.Length
      modifies this`code, this`ip, code
      ensures code == old(code) || fresh(code)
      ensures ip == old(ip) + 4 && ip <= code.Length
      ensures code[..old(ip)] == old(code[..ip])
      ensures GetInt(code[..], old(ip)) == v
    {
      ghost var mem := code[..];
      EnsureCapacity(ip + 4);
      ghost var grown := code[..];
      WriteInt(code, ip, v);
      GetIntSplice(grown, ip, v);
      assert code[..ip] == mem[..ip];
      ip := ip + 4;
    }

    /** The `switch` of `genOperand` for the operand types other than labels. */
    method EvalOperand(t: Operand) returns (v: Int32)
      requires OperandOk(t) && !t.Ident? && PoolValid() && |constPool| < MAX_POOL
      modifies this`constPool
      ensures PoolValid()
      ensures v == OperandWord(t, old(constPool), labels, ip)
      ensures constPool == OperandPool(t, old(constPool))
    {
      v := 0;
      match t {
        case IntLit(text) => v := ParseInt(text);
        case CharLit(text) => v := text[1] as int;
        case FloatLit(bits) => v := GetConstantPoolIndex(FloatConst(bits));
        case StringLit(text) => v := GetConstantPoolIndex(StringConst(text));
        case FuncRef(text) => v := GetFunctionIndex(text);
        case RegName(text) => v := GetRegisterNumber(text);
      }
    }

    /** `getConstantPoolIndex(o)`: the index of an equal constant, appending `o` if none. */
    method GetConstantPoolIndex(o: PoolEntry) returns (r: Int32)
      requires Distinct(constPool) && |constPool| < MAX_POOL
      modifies this`constPool
      ensures (constPool, r as int) == GetOrInsert(old(constPool), o)
      ensures Distinct(constPool) && |constPool| <= MAX_POOL
    {
      GetOrInsertKeepsDistinct(constPool, o);
      if Contains(constPool, o) {
        return IndexOf(constPool, o);
      }
      constPool := constPool + [o];
      return |constPool| - 1;
    }

    /** `getFunctionIndex(id)`: the pool index of function `id`, appending a stub if none. */
    method GetFunctionIndex(id: string) returns (r: Int32)
      requires Distinct(constPool) && |constPool| < MAX_POOL
      modifies this`constPool
      ensures (constPool, r as int) == FunctionIndex(old(constPool), id)
      ensures Distinct(constPool) && |constPool| <= MAX_POOL
    {
      var i := IndexOf(constPool, FuncConst(NameOnly(id)));
      if i >= 0 {
        return i;
      }
      r := GetConstantPoolIndex(FuncConst(NameOnly(id)));
    }

    /**
     * `getLabelAddress(id)` with the operand about to be written at `ip`:
     * an unknown name becomes a forward symbol with `ip` pending, a
     * forward symbol gets `ip` appended, a defined one yields its address.
     */
    method GetLabelAddress(id: string) returns (v: Int32)
      modifies this`labels
      ensures (v, labels) == LabelLookup(old(labels), id, ip)
    {
      if id !in labels {
        var sym := ForwardLabel(ip);
        sym := sym.(isDefined := false);
        labels := labels[id := sym];
      } else {
        var sym := labels[id];
        if sym.isForwardRef {
          labels := labels[id := AddReference(sym, ip)];
        } else {
          return sym.address;
        }
      }
      return 0;
    }

    /**
     * `defineLabel(id)`: a new name is defined at `ip`; a forward label is
     * defined at `ip` and its sites are back-patched; a name already
     * defined is reported as a redefinition and nothing else changes.
     */
    method DefineLabel(line: int, id: string)
      requires Valid()
      modifies this`labels, this`diagnostics, code
      ensures Valid()
      ensures labels == DefineView(old(labels), id, ip)
      ensures var view := old(labels);
        code[..] == if id in view && view[id].isForwardRef then PatchAll(old(code[..]), view[id].refs.value, ip)
                    else old(code[..])
      ensures diagnostics == old(diagnostics) +
        (if id in old(labels) && !old(labels)[id].isForwardRef then [Redefinition(line, id)] else [])
    {
      if id !in labels {
        AddLabel(id);
      } else if labels[id].isForwardRef {
        ResolveLabel(id);
      } else {
        diagnostics := diagnostics + [Redefinition(line, id)];
      }
    }

    /** The first branch of `defineLabel`: a new label defined at `ip`. */
    method AddLabel(id: string)
      requires Valid() && id !in labels
      modifies this`labels
      ensures Valid()
      ensures labels == DefineView(old(labels), id, ip)
    {
      DefineLabelKeepsSites(labels, code[..], ip, siteOwner, id);
      var labelSym := LabelInfo(ip as Int32, false, true, None);
      labels := labels[id := labelSym];
    }

    /** The second branch of `defineLabel`: a forward label is defined at `ip` and back-patched. */
    method ResolveLabel(id: string)
      requires Valid() && id in labels && labels[id].isForwardRef
      modifies this`labels, code
      ensures Valid()
      ensures labels == DefineView(old(labels), id, ip)
      ensures code[..] == PatchAll(old(code[..]), old(labels)[id].refs.value, ip)
    {
      DefineLabelKeepsSites(labels, code[..], ip, siteOwner, id);
      var sym := labels[id];
      sym := sym.(isDefined := true, address := ip as Int32);
      PatchSites(code, sym.refs.value, sym.address);
      labels := labels[id := sym.(isForwardRef := false)];
    }

    /**
     * `defineFunction(name, args, locals)`: the function starts at `ip`;
     * `main` is remembered, and the pool entry for the name is replaced
     * or added.
     */
    method DefineFunction(name: string, args: Int32, locals: Int32)
      requires Valid() && |constPool| < MAX_POOL
      modifies this`mainFunction, this`constPool
      ensures Valid()
      ensures constPool == DefineInPool(old(constPool), FunctionSymbol(name, args, locals, ip))
      ensures mainFunction == if name == "main" then Some(FunctionSymbol(name, args, locals, ip)) else old(mainFunction)
    {
      var f := FunctionSymbol(name, args, locals, ip as Int32);
      if name == "main" {
        mainFunction := Some(f);
      }
      DefineInPoolKeepsDistinct(constPool, f);
      if Contains(constPool, FuncConst(f)) {
        constPool := constPool[IndexOf(constPool, FuncConst(f)) := FuncConst(f)];
      } else {
        var _ := GetConstantPoolIndex(FuncConst(f));
      }
    }

    /** `defineDataSize(n)`. */
    method DefineDataSize(n: Int32)
      requires Valid()
      modifies this`dataSize
      ensures Valid() && dataSize == n
    {
      dataSize := n;
    }

    /**
     * `checkForUnresolvedReferences()`: one message per label that was
     * used but never defined, in the table's iteration order, which the
     * model leaves open and returns as `order`.
     */
    method CheckForUnresolvedReferences() returns (ghost order: seq<string>)
      modifies this`diagnostics
      ensures diagnostics == old(diagnostics) + Reports(order)
      ensures forall n :: n in order <==> n in Unresolved(labels)
      ensures forall i, j :: 0 <= i < j < |order| ==> order[i] != order[j]
    {
      var table := labels;
      var remaining := table.Keys;
      order := [];
      var messages := [];
      while remaining != {}
        invariant remaining <= table.Keys
        invariant messages == Reports(order)
        invariant forall n :: n in order <==> n in table && n !in remaining && !table[n].isDefined
        invariant forall i, j :: 0 <= i < j < |order| ==> order[i] != order[j]
        decreases |remaining|
      {
        var name :| name in remaining;
        var sym := table[name];
        if !sym.isDefined {
          messages := messages + [UnresolvedReference(name)];
          assert name !in order;
          assert (order + [name])[..|order|] == order;
          order := order + [name];
        }
        remaining := remaining - {name};
      }
      diagnostics := diagnostics + messages;
    }

    /**
     * The parser's `program` rule: run the actions in order, then report
     * unresolved labels. Afterwards every site of a defined label holds
     * its address and every site of an unresolved one still holds 0.
     */
    method Program(events: seq<Event>)
      requires Valid()
      requires forall k :: 0 <= k < |events| ==> EventOk(events[k])
      requires ip + CodeDemand(events) <= MAX_CODE
      requires |constPool| + 3 * |events| <= MAX_POOL
      modifies this, code
      ensures Valid()
      ensures code == old(code) || fresh(code)
      ensures forall n :: n in labels && labels[n].refs.Some? ==>
        var refs := labels[n].refs.value;
        forall k :: 0 <= k < |refs| ==>
          0 <= refs[k] && refs[k] + 4 <= ip && refs[k] + 4 <= code.Length &&
          GetInt(code[..], refs[k]) == (if labels[n].isDefined then labels[n].address else 0)
    {
      var i := 0;
      while i < |events|
        invariant 0 <= i <= |events|
        invariant Valid()
        invariant code == old(code) || fresh(code)
        invariant ip + CodeDemand(events[i..]) <= MAX_CODE
        invariant |constPool| + 3 * (|events| - i) <= MAX_POOL
      {
        assert events[i..][1..] == events[i + 1..];
        Step(events[i]);
        i := i + 1;
      }
      var _ := CheckForUnresolvedReferences();
      forall n | n in labels && labels[n].refs.Some?
        ensures var refs := labels[n].refs.value;
          forall k :: 0 <= k < |refs| ==>
            0 <= refs[k] && refs[k] + 4 <= ip && refs[k] + 4 <= code.Length &&
            GetInt(code[..], refs[k]) == (if labels[n].isDefined then labels[n].address else 0)
      {
        assert InfoOk(n, labels[n], code[..], ip, siteOwner);
      }
    }

    /** One parser action. */
    method Step(e: Event)
      requires Valid() && EventOk(e)
      requires ip + (if e.Instr? then 1 + 4 * |e.operands| else 0) <= MAX_CODE
      requires |constPool| + 3 <= MAX_POOL
      modifies this, code
      ensures Valid()
      ensures code == old(code) || fresh(code)
      ensures ip <= old(ip) + (if e.Instr? then 1 + 4 * |e.operands| else 0)
      ensures |constPool| <= old(|constPool|) + 3
    {
      match e {
        case DataSize(n) => DefineDataSize(n);
        case Function(_, name, args, locals) =>
          DefineFunction(name, args, locals);
          assert |constPool| <= old(|constPool|) + 1 by {
            assert Contains(old(constPool), FuncConst(FunctionSymbol(name, args, locals, ip))) ==> |constPool| == old(|constPool|);
          }
        case Label(line, name) => DefineLabel(line, name);
        case Instr(line, mnemonic, ops) =>
          if |ops| == 0 {
            Gen(line, mnemonic);
          } else if |ops| == 1 {
            Gen1(line, mnemonic, ops[0]);
          } else if |ops| == 2 {
            Gen2(line, mnemonic, ops[0], ops[1]);
          } else {
            Gen3(line, mnemonic, ops[0], ops[1], ops[2]);
          }
      }
    }
  }

  // ----- What an operand writes ------------------------------------------

  /** The byte `gen(instr)` emits: the opcode of a known mnemonic, nothing otherwise. */
  function OpcodeBytes(mapping: map<string, int>, name: string): (bs: seq<Byte>)
    ensures name in mapping ==> bs == [LowByte(mapping[name])]
    ensures name !in mapping ==> bs == []
  {
    if name in mapping then [LowByte(mapping[name])] else []
  }

  /** The word `genOperand` writes for `t`, written at `site`. */
  function OperandWord(t: Operand, pool: seq<PoolEntry>, view: LabelView, site: int): Int32
    requires OperandOk(t) && |pool| < MAX_POOL
  {
    match t
    case IntLit(text) => ParseInt(text)
    case CharLit(text) => text[1] as int
    case FloatLit(bits) => GetOrInsert(pool, FloatConst(bits)).1
    case StringLit(text) => GetOrInsert(pool, StringConst(text)).1
    case Ident(text) => LabelLookup(view, text, site).0
    case FuncRef(text) => FunctionIndex(pool, text).1
    case RegName(text) => GetRegisterNumber(text)
  }

  /** The constant pool after `genOperand(t)`. */
  function OperandPool(t: Operand, pool: seq<PoolEntry>): (p: seq<PoolEntry>)
    ensures |pool| <= |p| <= |pool| + 1 && p[..|pool|] == pool
    ensures (t.IntLit? || t.CharLit? || t.RegName? || t.Ident?) ==> p == pool
  {
    match t
    case FloatLit(bits) => GetOrInsert(pool, FloatConst(bits)).0
    case StringLit(text) => GetOrInsert(pool, StringConst(text)).0
    case FuncRef(text) => FunctionIndex(pool, text).0
    case _ => pool
  }

  /** The label table after `genOperand(t)` at `site`. */
  function OperandLabels(t: Operand, view: LabelView, site: int): (r: LabelView)
    ensures r.Keys == view.Keys + (if t.Ident? then {t.text} else {})
    ensures forall n :: n in view && !(t.Ident? && n == t.text) ==> r[n] == view[n]
  {
    if t.Ident? then LabelLookup(view, t.text, site).1 else view
  }
}
