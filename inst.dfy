/**
 * The instruction layer of the LLHD IR: the instruction record, its closed
 * operation taxonomy, the mnemonic encoding, and the iterator that resolves a
 * sequence of instruction handles through the unit's lookup context.
 */
module Instructions {
  import opened Wrappers
  import opened Value

  // ---------------------------------------------------------------------------
  // Operation taxonomy and mnemonics
  // ---------------------------------------------------------------------------

  /** A lower-case ASCII opcode token. */
  predicate IsToken(s: string) {
    |s| > 0 && forall k :: 0 <= k < |s| ==> 'a' <= s[k] <= 'z'
  }

  /** The opcodes of the binary family. */
  datatype BinaryMnemonic = Add {

    /** The textual representation. */
    function AsStr(): (s: string)
      ensures IsToken(s)
    {
      match this
      case Add => "add"
    }

    /** Reads a token back: the inverse of `AsStr`. */
    static function FromStr(s: string): (r: Option<BinaryMnemonic>)
      ensures r.Some? ==> r.value.AsStr() == s
      ensures forall m: BinaryMnemonic :: m.AsStr() == s ==> r == Some(m)
    {
      if s == "add" then
        assert forall m: BinaryMnemonic :: m.AsStr() == s ==> m == BinaryMnemonic.Add;
        Some(BinaryMnemonic.Add)
      else
        None
    }
  }

  /** Mnemonics, one sub-taxonomy per operation family. */
  datatype Mnemonic = Binary(binary: BinaryMnemonic) {

    /** The textual representation: that of the family's own mnemonic. */
    function AsStr(): (s: string)
      ensures IsToken(s)
    {
      match this
      case Binary(m) => m.AsStr()
    }

    /** Reads a token back: the inverse of `AsStr`. */
    static function FromStr(s: string): (r: Option<Mnemonic>)
      ensures r.Some? ==> r.value.AsStr() == s
      ensures forall m: Mnemonic :: m.AsStr() == s ==> r == Some(m)
    {
      match BinaryMnemonic.FromStr(s)
      case Some(b) => Some(Binary(b))
      case None => None
    }
  }

  /** The binary operators. */
  datatype BinaryOp = Add {

    /** The opcode of the operator within the binary family. */
    function Mnemonic(): BinaryMnemonic {
      match this
      case Add => BinaryMnemonic.Add
    }
  }

  /** The closed union of instruction kinds. */
  datatype InstKind = BinaryInst(op: BinaryOp, ty: Type, lhs: ValueRef, rhs: ValueRef) {

    /** The result type of the instruction. */
    function Ty(): Type {
      match this
      case BinaryInst(_, t, _, _) => t
    }

    /** The mnemonic of the instruction. */
    function Mnemonic(): Mnemonic {
      match this
      case BinaryInst(op, _, _, _) => Binary(op.Mnemonic())
    }
  }

  // ---------------------------------------------------------------------------
  // Instructions
  // ---------------------------------------------------------------------------

  /** An instruction: its handle, an optional display name and its payload. */
  datatype Inst = Inst(id: InstRef, name: Option<string>, kind: InstKind) {

    /** The instruction's own handle. */
    function AsRef(): InstRef {
      id
    }

    /** The operation payload. */
    function Kind(): InstKind {
      kind
    }

    /** The mnemonic, that of the payload. */
    function Mnemonic(): Mnemonic {
      kind.Mnemonic()
    }

    /** The generic value identifier. */
    function Id(): ValueId {
      id.ToValueId()
    }

    /** The result type, that of the payload. */
    function Ty(): Type {
      kind.Ty()
    }

    /** The display name, if any. */
    function Name(): Option<string> {
      name
    }

    /** Instructions are never global values. */
    function IsGlobal(): bool {
      false
    }
  }

  /**
   * Creates an instruction: takes exactly one fresh id from the allocator and
   * stores the name and the payload unchanged.
   */
  method NewInst(alloc: IdAllocator, name: Option<string>, kind: InstKind) returns (inst: Inst)
    requires alloc.Valid()
    modifies alloc
    ensures alloc.Valid()
    ensures inst.Name() == name && inst.Kind() == kind
    ensures inst.AsRef() == InstRef(old(alloc.next)) && alloc.next == old(alloc.next) + 1
    ensures alloc.issued == old(alloc.issued) + [inst.Id()]
    ensures forall k :: 0 <= k < |old(alloc.issued)| ==> old(alloc.issued)[k] < inst.Id()
  {
    var id := alloc.Alloc();
    inst := Inst(InstRef(id), name, kind);
  }

  /** The result type is the stored one, whatever the operands. */
  lemma TyIsStored(op: BinaryOp, t: Type, lhs: ValueRef, rhs: ValueRef)
    ensures BinaryInst(op, t, lhs, rhs).Ty() == t
  {
  }

  /** The instruction answers type and mnemonic queries through its payload. */
  lemma InstDelegatesToKind(inst: Inst)
    ensures inst.Ty() == inst.Kind().Ty()
    ensures inst.Mnemonic() == inst.Kind().Mnemonic()
  {
  }

  /** A binary instruction's mnemonic is the operator's, in the binary family. */
  lemma BinaryInstMnemonic(op: BinaryOp, t: Type, lhs: ValueRef, rhs: ValueRef)
    ensures BinaryInst(op, t, lhs, rhs).Mnemonic() == Binary(op.Mnemonic())
  {
  }

  /** The operator-to-mnemonic mapping is one-to-one. */
  lemma BinaryOpMnemonicInjective(a: BinaryOp, b: BinaryOp)
    ensures a.Mnemonic() == b.Mnemonic() ==> a == b
  {
  }

  /** The family tag does not change the text. */
  lemma FamilyKeepsText(m: BinaryMnemonic)
    ensures Binary(m).AsStr() == m.AsStr()
  {
  }

  /** As-str is one-to-one, and parsing the text gives the mnemonic back. */
  lemma MnemonicRoundTrip(a: Mnemonic, b: Mnemonic)
    ensures Mnemonic.FromStr(a.AsStr()) == Some(a)
    ensures a.AsStr() == b.AsStr() ==> a == b
  {
  }

  /** An addition instruction reads as "add". */
  lemma AddInstText(inst: Inst)
    requires inst.Kind().op == BinaryOp.Add
    ensures inst.Mnemonic().AsStr() == "add"
  {
  }

  /** No instruction is global. */
  lemma NeverGlobal(inst: Inst)
    ensures !inst.IsGlobal()
  {
  }

  /** The value id of an instruction is its handle's id. */
  lemma IdIsHandle(inst: Inst)
    ensures inst.Id() == inst.AsRef().ToValueId() && InstRef(inst.Id()) == inst.AsRef()
  {
  }

  /** Two instructions constructed back to back get distinct, ordered ids. */
  method NewTwo(alloc: IdAllocator, n1: Option<string>, k1: InstKind, n2: Option<string>, k2: InstKind)
    returns (first: Inst, second: Inst)
    requires alloc.Valid()
    modifies alloc
    ensures alloc.Valid()
    ensures first.AsRef() != second.AsRef() && Before(first.AsRef(), second.AsRef())
    ensures first.AsRef() == InstRef(old(alloc.next)) && second.AsRef() == InstRef(old(alloc.next) + 1)
    ensures alloc.next == old(alloc.next) + 2
    ensures alloc.issued == old(alloc.issued) + [first.Id(), second.Id()]
    ensures first.Name() == n1 && first.Kind() == k1
    ensures second.Name() == n2 && second.Kind() == k2
  {
    first := NewInst(alloc, n1, k1);
    second := NewInst(alloc, n2, k2);
  }

  // ---------------------------------------------------------------------------
  // Iteration over instruction handles
  // ---------------------------------------------------------------------------

  /** Every handle resolves in the unit's context. */
  predicate Resolvable(refs: seq<InstRef>, ctx: map<InstRef, Inst>) {
    forall k :: 0 <= k < |refs| ==> refs[k] in ctx
  }

  /** The instructions the handles stand for, in order. */
  function Resolve(refs: seq<InstRef>, ctx: map<InstRef, Inst>): (r: seq<Inst>)
    requires Resolvable(refs, ctx)
    ensures |r| == |refs|
    ensures forall k :: 0 <= k < |refs| ==> r[k] == ctx[refs[k]]
  {
    if refs == [] then [] else [ctx[refs[0]]] + Resolve(refs[1..], ctx)
  }

  /** Resolving one more handle appends its instruction. */
  lemma ResolveSnoc(refs: seq<InstRef>, ctx: map<InstRef, Inst>, n: nat)
    requires Resolvable(refs, ctx) && n < |refs|
    ensures Resolve(refs[..n + 1], ctx) == Resolve(refs[..n], ctx) + [ctx[refs[n]]]
  {
  }

  /**
   * The iterator over a sequence of handles: one call to `Next` resolves the
   * handle under the cursor and advances it.
   */
  class InstIter {
    const refs: seq<InstRef>
    const ctx: map<InstRef, Inst>
    var pos: nat

    ghost predicate Valid()
      reads this
    {
      pos <= |refs| && Resolvable(refs, ctx)
    }

    /** What the iterator has produced so far. */
    ghost function Yielded(): seq<Inst>
      reads this
      requires Valid()
    {
      Resolve(refs[..pos], ctx)
    }

    constructor (refs: seq<InstRef>, ctx: map<InstRef, Inst>)
      requires Resolvable(refs, ctx)
      ensures Valid() && this.refs == refs && this.ctx == ctx
      ensures pos == 0 && Yielded() == []
    {
      this.refs := refs;
      this.ctx := ctx;
      pos := 0;
    }

    method Next() returns (r: Option<Inst>)
      requires Valid()
      modifies this
      ensures Valid()
      ensures old(pos) < |refs| ==> r == Some(ctx[refs[old(pos)]]) && pos == old(pos) + 1
      ensures old(pos) == |refs| ==> r == None && pos == old(pos)
      ensures r.Some? ==> Yielded() == old(Yielded()) + [r.value]
      ensures r.None? ==> Yielded() == old(Yielded()) == Resolve(refs, ctx)
    {
      if pos < |refs| {
        ResolveSnoc(refs, ctx, pos);
        r := Some(ctx[refs[pos]]);
        pos := pos + 1;
      } else {
        assert refs[..pos] == refs;
        r := None;
      }
    }
  }

  /**
   * Three handles through one iterator: their instructions in order, then
   * nothing, and nothing again.
   */
  method IterateThree(ctx: map<InstRef, Inst>, r1: InstRef, r2: InstRef, r3: InstRef)
    returns (o1: Option<Inst>, o2: Option<Inst>, o3: Option<Inst>, o4: Option<Inst>, o5: Option<Inst>)
    requires r1 in ctx && r2 in ctx && r3 in ctx
    ensures o1 == Some(ctx[r1]) && o2 == Some(ctx[r2]) && o3 == Some(ctx[r3])
    ensures o4 == None && o5 == None
  {
    var it := new InstIter([r1, r2, r3], ctx);
    o1 := it.Next();
    o2 := it.Next();
    o3 := it.Next();
    o4 := it.Next();
    o5 := it.Next();
  }
}
