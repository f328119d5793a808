/**
 * The identity system the instruction layer relies on: process-wide value
 * identifiers, the typed instruction handle wrapping one, and the allocator
 * that issues them. The collaborators the instruction layer treats as opaque
 * (the type descriptor and the generic operand reference) are abstract types
 * here: only equality and copying matter to the model.
 */
module Value {

  /** An identifier shared by every kind of value in the IR. */
  type ValueId = nat

  /** A result type descriptor; opaque beyond equality. */
  type Type(==)

  /** A non-owning reference to any value, used as an instruction operand. */
  type ValueRef(==)

  /**
   * A typed handle denoting an instruction. Equality is that of the wrapped
   * id (datatype equality), and so is order (`Before`).
   */
  datatype InstRef = InstRef(id: ValueId) {

    /** The lossless conversion back to the generic identifier (`into()`). */
    function ToValueId(): ValueId {
      id
    }
  }

  /** The order on handles, taken from the wrapped ids. */
  predicate Before(a: InstRef, b: InstRef) {
    a.id < b.id
  }

  /** Each element is smaller than the one after it. */
  ghost predicate StrictlyIncreasing(s: seq<ValueId>) {
    forall k :: 0 <= k < |s| - 1 ==> s[k] < s[k + 1]
  }

  /**
   * Adjacent increase gives increase between any two positions, hence
   * pairwise distinct ids ordered by their position.
   */
  lemma {:induction false} IncreasingIsOrdered(s: seq<ValueId>, i: nat, j: nat)
    requires StrictlyIncreasing(s)
    requires i < j < |s|
    ensures s[i] < s[j]
    decreases j - i
  {
    if i + 1 < j {
      IncreasingIsOrdered(s, i + 1, j);
    }
  }

  /** Any two ids one allocator has issued are distinct and ordered by issue. */
  lemma IssuedIdsDistinct(alloc: IdAllocator, i: nat, j: nat)
    requires alloc.Valid()
    requires i < j < |alloc.issued|
    ensures alloc.issued[i] < alloc.issued[j]
  {
    IncreasingIsOrdered(alloc.issued, i, j);
  }

  /**
   * The allocator behind `ValueId::alloc`: a counter whose every call hands
   * out a fresh id, strictly greater than every id handed out before.
   * `issued` records the ids handed out, in order.
   */
  class IdAllocator {
    var next: ValueId
    ghost var issued: seq<ValueId>

    ghost predicate Valid()
      reads this
    {
      StrictlyIncreasing(issued) &&
      forall k :: 0 <= k < |issued| ==> issued[k] < next
    }

    constructor ()
      ensures Valid() && next == 0 && issued == []
    {
      next := 0;
      issued := [];
    }

    method Alloc() returns (id: ValueId)
      requires Valid()
      modifies this
      ensures Valid()
      ensures id == old(next) && next == old(next) + 1
      ensures issued == old(issued) + [id]
      ensures forall k :: 0 <= k < |old(issued)| ==> old(issued)[k] < id
    {
      id := next;
      next := next + 1;
      issued := issued + [id];
    }
  }
}
