# OperationBuilder, modelled in Dafny

This project models `OperationBuilder` from `src/ir/builder.rs`. The builder is the stateful context that assembles one IR `Operation`. It accumulates:

- operands;
- a string-keyed attribute map;
- regions;
- successors;
- the "latest" result vars;
- a cursor `(region_count, block_count)`. The active region is `cursor.0 - 1` and the active block within it is `cursor.1 - 1`.

It also models the small part of the IR core that the builder calls: `Var`, `BasicBlock`, `Region` and `Operation`.

Modules:

- `Core` (core.dfy): `Var`, `Block`, `Region`, `Operation`, `Option`, `Result`, and the region operations the builder relies on. `PushBlock` appends. `PushArg(i)` mints a fresh argument var for block `i`, or fails when there is no block `i`. `PushOp(i, op)` appends an operation and mints its result var. Vars are minted from a per-region counter. A region is *supplied* when every argument already in its blocks was drawn below that counter. In a supplied region a minted var is new to the region. `PushArg` and `PushOp` keep a region supplied; `PushBlock` does so exactly when the new block's args were drawn below the counter.
- `BuilderState` (builder_state.dfy): the builder's fields as a value (`State`), with one function per builder method.
- `Builder` (builder.dfy): the class `OperationBuilder<I, A>`. Its fields are updated in place. Each method states its effect field by field, including what stays unchanged. Each method also agrees with its `BuilderState` function on the whole `Snapshot()`.
- `Traces` (traces.dfy): sequences of builder calls. `Run` applies calls in order and aborts where the Rust code would panic. The lemmas relate the finished state to counts taken from the calls alone. They cover the cursor invariant, the number of regions and of blocks per region, and the operand count. Concrete scenarios are included, among them the carry-over of the block cursor across `push_region`.

The intrinsic and the attribute payload are the type parameters `I` and `A`. The core never looks inside them.

How the code treats a missing region or block:

- The code has no error for a missing region or block. `BuilderError` has two variants, `BuilderCreationFailure` and `Caseless`, and nothing in the builder constructs either of them.
- The active region is `self.regions[self.cursor.0 - 1]`. When `cursor.0` is 0 or past the regions, this indexing panics. With overflow checks on, as in a debug build, the subtraction panics first. In a release build it wraps to `usize::MAX`, which also indexes past the end and panics.
- The active block index is `self.cursor.1 - 1`. With overflow checks on, a `cursor.1` of 0 panics. In a release build the index wraps to `usize::MAX` and is passed on to the core's `Region::push_arg`, `get_block` or `push_op`.
- The model makes all of these `requires` clauses on the class methods, and aborted runs (`None`) in `Traces.Run`.
- `push_region` appends whatever region the caller passes, blocks included.
- A failed `push_arg` leaves the builder unchanged in this model, because `Core.PushArg` returns the region unchanged on failure. The code mutates the region in place through `&mut`. Whether the core's `Region::push_arg` leaves it untouched on failure is not part of this model.

## Model

| member | source | states |
|---|---|---|
| Core.PushBlock | src/ir/builder.rs:118-119 | The region accepts the block. It is appended as the new last block, and the earlier blocks are kept. The result is supplied exactly when the region was and the block's args were drawn below its counter. |
| Core.PushArg | src/ir/builder.rs:79-80 | Succeeds exactly when block `i` exists. On success, only block `i` changes: its args gain the returned var at the end. On failure the region is unchanged. The var comes from the region's supply. In a supplied region, the var is not yet an argument of any block, and the region stays supplied. |
| Core.PushOp | src/ir/builder.rs:134-135 | Only block `i` changes: its ops gain `op` at the end and its args are kept. The returned result var comes from the region's supply. In a supplied region, it is an argument of no block, before or after, and the region stays supplied. |
| Core.MintsNeverRepeat | src/ir/builder.rs:77-139 | Take any interleaving of `push_block`, `push_arg` and `push_op` on one region. No two minted vars are equal, and all of them are drawn from between the old and the new counter. In a supplied region, none of them was already an argument of its blocks. |
| BuilderState.Default | src/ir/builder.rs:37-47 | A fresh state has cursor `(0, 0)`, the given intrinsic, and empty latest, operands, attributes, regions and successors. |
| BuilderState.InsertAttrThenGet | src/ir/builder.rs:91-101 | After inserting `a` under `k`, looking up `k` gives `Some(a)`, so the last write wins. Any other key reads as before. An absent key reads as `None`. |
| Builder.OperationBuilder.Default | src/ir/builder.rs:37-47 | The constructor sets cursor `(0, 0)`, stores the intrinsic, and leaves every list and the map empty. |
| Builder.OperationBuilder.GetLatest | src/ir/builder.rs:49-51 | Returns the latest result vars. |
| Builder.OperationBuilder.GetIntrinsic | src/ir/builder.rs:53-55 | Returns the intrinsic the builder was created with. |
| Builder.OperationBuilder.PushOperand | src/ir/builder.rs:57-59 | The operand count grows by exactly one, with the new var last. Nothing else changes. |
| Builder.OperationBuilder.SetOperands | src/ir/builder.rs:61-63 | The operands become exactly the given list. Nothing else changes. |
| Builder.OperationBuilder.GetOperands | src/ir/builder.rs:65-67 | Returns the current operands and ignores its argument. |
| Builder.OperationBuilder.SetCursor | src/ir/builder.rs:69-71 | The cursor becomes `(reg, blk)`, so `GetCursor` then returns it. Nothing else changes. |
| Builder.OperationBuilder.GetCursor | src/ir/builder.rs:73-75 | Returns the cursor. |
| Builder.OperationBuilder.PushArg | src/ir/builder.rs:77-89 | Succeeds exactly when the active region has block `cursor.1 - 1`. On success, only that block's args change, gaining the returned var at the end. The var is also appended to the operands exactly when `cursor.1 - 1 == 0`; otherwise the operands are unchanged. On failure the whole state is unchanged. The cursor, latest and attributes are never touched. |
| Builder.OperationBuilder.InsertAttr | src/ir/builder.rs:91-93 | `k` maps to the new attribute. Every other key keeps its presence and its value. The other fields are unchanged. |
| Builder.OperationBuilder.GetAttrs | src/ir/builder.rs:95-97 | Returns the attribute map. |
| Builder.OperationBuilder.GetAttr | src/ir/builder.rs:99-101 | Returns `Some` of the stored attribute exactly when the key is present, and `None` otherwise. |
| Builder.OperationBuilder.PushRegion | src/ir/builder.rs:103-106 | The region becomes the last element of `regions`. `cursor.0` grows by one and `cursor.1` is kept. Operands, attributes, latest and successors are unchanged. |
| Builder.OperationBuilder.GetRegion | src/ir/builder.rs:108-111 | Returns region `cursor.0 - 1`. It requires that this index neither underflows nor runs past the end. |
| Builder.OperationBuilder.GetRegions | src/ir/builder.rs:113-115 | Returns the regions. |
| Builder.OperationBuilder.PushBlock | src/ir/builder.rs:117-122 | When the region accepts the block, it is appended to region `cursor.0 - 1` only, and `cursor.1` grows by exactly one. A refusal would leave the whole state unchanged, cursor included. |
| Builder.OperationBuilder.GetBlock | src/ir/builder.rs:124-129 | Returns block `cursor.1 - 1` of the active region. |
| Builder.OperationBuilder.PushOp | src/ir/builder.rs:131-139 | Only the active block of the active region changes: its ops gain `v` at the end and its args are kept. `latest` becomes exactly the one result var, discarding the old value. The cursor, operands and attributes are unchanged. The builder itself is returned. |
| Builder.OperationBuilder.Finish | src/ir/builder.rs:143-151 | Always returns `Ok`. The operation's intrinsic, operands, attributes, regions and successors equal the builder's fields. |
| Traces.StepShape | src/ir/builder.rs:69-139 | Gives the effect of any one call on the cursor, on the number of regions, and on each region's block count. |
| Traces.CursorTracksRegions | src/ir/builder.rs:103-106 | Starting from a state where `cursor.0 == \|regions\|`, any run without `set_cursor` keeps that equality. Each `push_region` adds exactly one region, and the intrinsic and successors never change. |
| Traces.OperandsOnlyGrow | src/ir/builder.rs:57-89 | Without `set_operands`, a run only appends to the operands. |
| Traces.CountsFromDefault | src/ir/builder.rs:103-122 | From a fresh builder and without `set_cursor`, the cursor equals (number of `push_region` calls, number of `push_block` calls), so the block half is never reset. Each region holds as many blocks as it was pushed with, plus one per `push_block` call issued while it was the last region. |
| Traces.OperandCountFromDefault | src/ir/builder.rs:77-89 | From a fresh builder, without `set_cursor` or `set_operands`, the operand count equals the number of `push_operand` calls plus the number of arguments minted for an entry block. |
| Traces.EntryArgumentIsOperand | src/ir/builder.rs:77-89 | The calls are `push_region`, `push_block`, `push_arg`. Afterwards there is one operand, and it is the entry block's only argument. |
| Traces.PushBlockWithoutRegionPanics | src/ir/builder.rs:108-111 | `push_block` on a fresh builder aborts, because `cursor.0 - 1` underflows. |
| Traces.BlockCursorCarriesOver | src/ir/builder.rs:103-106 | After two blocks in a first region and an empty second region, the cursor is `(2, 2)`. `push_arg` then fails, and `push_op` aborts. |
| Traces.FinishReportsWhatWasPushed | src/ir/builder.rs:143-151 | The calls push two regions with 3 and 1 blocks, two operands and four attributes. The finished operation reports exactly those, and no successors. |

## Left out

- Dynamic dispatch over `Box<dyn Intrinsic>` and `Box<dyn Attribute>`, and the serde serialization of attributes. Both are foreign trait objects, so they become the opaque type parameters `I` and `A`.
- Hashing in `HashMap`. The attributes are a Dafny `map<string, A>`.
- The internals of `Region`, `BasicBlock` and `Operation::new`. `crate::ir::core` is not part of this model. Only the contract the builder relies on is modelled.
- How the IR core really names the vars it mints. The per-region counter in `Core.Region` is this model's stand-in for it.
- Core.PushArg, Core.PushOp: freshness is promised only within one supplied region. A caller-built region or block whose args were not drawn from the region's counter can hold a var equal to the next one minted. Two regions with equal counters mint equal vars, so entry-block args of different regions can coincide in the builder's operands. The core's real naming scheme is not part of this model, so nothing stronger is claimed.
- Builder.OperationBuilder.PushBlock: the conditions under which the core's `Region::push_block` fails are not known. The modelled region accepts every block, so the refusal branch of the `?` is stated in the contract but never taken.
- The error payloads of `anyhow::Result`. Failure is a payload-free `Result.Err`.
- `BuilderError`, because nothing in the builder constructs it.
- `usize` overflow of `cursor.0 + 1` and `cursor.1 + 1`. The cursor halves are unbounded naturals.
- Underflow and index panics are not returned as errors. They are method preconditions, and aborts in `Traces.Run`. A release build's wrapped `cursor.1 - 1` handed to the core's region methods is not modelled.
- Builder.OperationBuilder.GetRegion: returns the active region by value, not as a `&mut` reference. Aliasing through the reference is not modelled; the mutating methods write the changed region back.
- Builder.OperationBuilder.GetBlock: returns the active block by value, not as a `&mut` reference. A missing block is a precondition, because the core's `Region::get_block` is not part of this model.
- Builder.OperationBuilder.PushOp: the Rust method consumes the builder and hands it back. Here it updates the object in place and returns it. A missing active block is a precondition, since the core's `Region::push_op` returns a bare var.
- Builder.OperationBuilder.Finish: Rust's move semantics are not modelled. The builder object stays readable after `Finish`.
- Successors. No method writes them, so they stay as `Default` left them.
