# LLHD instruction layer, modelled in Dafny

This project models the instruction layer of the LLHD compiler IR (`src/inst.rs`):

- the **identity system** it draws on: `ValueId`, the typed handle `InstRef`, and the id allocator behind `ValueId::alloc`, as a counter class (`Value.IdAllocator`) whose every call hands out an id strictly greater than all earlier ones;
- the **instruction record** `Inst` (handle, optional display name, payload) with its accessors `as_ref`, `kind`, `mnemonic` and the `Value` interface (`id`, `ty`, `name`, `is_global`), and its constructor `Inst::new` as the method `Instructions.NewInst`, which takes exactly one id from the allocator;
- the **operation taxonomy** `InstKind` (today only `BinaryInst(op, ty, lhs, rhs)`) with its total projections `ty()` and `mnemonic()`;
- the **mnemonic encoding** `BinaryOp -> BinaryMnemonic -> Mnemonic -> "add"`. The model adds two functions the source does not have, one per level: `BinaryMnemonic.FromStr` and `Mnemonic.FromStr`, the inverses of the two `as_str`. They are there to state that the encoding is one-to-one and can be read back;
- the **instruction iterator** `InstIter`, as a class holding the handle sequence, the unit's lookup context (a map from handle to instruction) and a cursor. `Next` resolves one handle per call. The ghost function `Yielded` keeps what has been produced so far equal to `Resolve` of the consumed prefix.

Files: `wrappers.dfy` (Option), `value.dfy` (identity system and opaque collaborators), `inst.dfy` (everything in `src/inst.rs`).

## Model

| member | source | states |
|---|---|---|
| `Value.IdAllocator.Alloc` | src/inst.rs:22 | returns the counter's value and advances it by one; the new id is greater than every id issued before and is appended to the issued record, which stays strictly increasing |
| `Value.IncreasingIsOrdered` | src/inst.rs:22 | in a strictly increasing record of issued ids, an earlier position holds a strictly smaller id, so ids are pairwise distinct and ordered by issue |
| `Instructions.NewInst` | src/inst.rs:20-26 | consumes exactly one fresh id; the handle is that id; the name and payload are stored unchanged; the new id exceeds every id issued earlier |
| `Instructions.NewTwo` | src/inst.rs:20-26 | two instructions built back to back have distinct handles, the first ordered before the second; they receive the counter's next two ids, which are appended to the issued record in that order |
| `Value.IssuedIdsDistinct` | src/inst.rs:22 | any two ids one allocator has issued are distinct and ordered by issue |
| `Instructions.IdIsHandle` | src/inst.rs:29-49 | the generic value id is the handle's id, and converting back gives the same handle |
| `Instructions.InstDelegatesToKind` | src/inst.rs:36-53 | an instruction's type and mnemonic are those of its payload |
| `Instructions.NeverGlobal` | src/inst.rs:59-61 | `is_global` is false for every instruction, whatever its name and payload |
| `Instructions.TyIsStored` | src/inst.rs:97-101 | the result type of a binary instruction is the stored type, whatever the operator and operands |
| `Instructions.BinaryInstMnemonic` | src/inst.rs:103-107 | a binary instruction's mnemonic is the operator's mnemonic wrapped in the binary family |
| `Instructions.BinaryOpMnemonicInjective` | src/inst.rs:116-122 | distinct operators have distinct mnemonics |
| `Instructions.BinaryMnemonic.AsStr` | src/inst.rs:144-150 | the text of a binary mnemonic is a non-empty lower-case ASCII token |
| `Instructions.BinaryMnemonic.FromStr` | src/inst.rs:144-150 | a token reads back as a binary mnemonic exactly when that mnemonic's text is the token, so the text is one-to-one |
| `Instructions.Mnemonic.AsStr` | src/inst.rs:135-142 | the text of any mnemonic is a non-empty lower-case ASCII token |
| `Instructions.Mnemonic.FromStr` | src/inst.rs:135-150 | a token reads back as a mnemonic exactly when that mnemonic's text is the token |
| `Instructions.FamilyKeepsText` | src/inst.rs:137-141 | wrapping a binary mnemonic in its family does not change its text |
| `Instructions.MnemonicRoundTrip` | src/inst.rs:135-150 | reading back a mnemonic's text gives the mnemonic, and two mnemonics with the same text are equal |
| `Instructions.AddInstText` | src/inst.rs:36-38 | an addition instruction's mnemonic text is `"add"` |
| `Instructions.Resolve` | src/inst.rs:84-87 | the resolved sequence has one instruction per handle, the context's instruction for each handle, in handle order |
| `Instructions.ResolveSnoc` | src/inst.rs:84-87 | resolving one more handle appends exactly its instruction |
| `Instructions.InstIter.constructor` | src/inst.rs:73-78 | keeps the handles and context as given, cursor at the start, nothing produced yet |
| `Instructions.InstIter.Next` | src/inst.rs:84-87 | while handles remain, returns the context's instruction for the handle under the cursor and advances one; once exhausted, returns None and stays put; what has been produced is always `Resolve` of the consumed handles, and all of them once None comes back |
| `Instructions.IterateThree` | src/inst.rs:67-87 | an iterator over three handles yields their three instructions in order, then None, and None again |

## Left out

- The internals of `ValueId::alloc` and of the `declare_ref!` macro (`value.rs`) are not part of this model. The allocator is a counter starting at 0. Only freshness and increase are relied on. `ValueId` is an unbounded `nat`, so the source's fixed-width counter and any overflow of it are not modelled.
- `Type` and `ValueRef` (`ty.rs`, `value.rs`) are not part of this model. They are abstract types with equality. `Type::clone` is identity on them.
- The `UnitContext` (`unit.rs`) is not part of this model. It is a map from handle to instruction. That every handle resolves is a precondition of the iterator's constructor, since the source assumes resolution never fails.
- The process-wide, unsynchronised allocator is an explicit object passed to `NewInst`. Concurrency and thread safety are not modelled.
- Rust lifetimes and borrowing (`&'tf Inst`, `Option<&str>`) are not modelled. The model returns instruction and name values, which are equal to what the references point at.
- The `Hash` / `PartialOrd` / `Ord` derives are not modelled. Order on handles is the predicate `Value.Before` on the wrapped ids. Equality is datatype equality.
- `Instructions.BinaryMnemonic.FromStr` and `Instructions.Mnemonic.FromStr` have no counterpart in the source. They are the reference inverse used to state that `as_str` is one-to-one.
