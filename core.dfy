/** The minimal IR data model the builder consumes: values (`Var`), basic
    blocks, regions and operations, together with the three region
    operations the builder calls. Only their contract as seen from the
    builder is modelled; how the IR core really mints vars is not. */
module Core {

  datatype Option<+T> = None | Some(value: T)

  /** An `anyhow::Result` with its error payload abstracted away. */
  datatype Result<+T> = Ok(value: T) | Err

  /** An opaque handle to a produced value; only its identity matters. */
  datatype Var = Var(id: nat)

  /** A basic block: its argument vars and its operations, in program order. */
  datatype Block<I, A> = Block(args: seq<Var>, ops: seq<Operation<I, A>>)

  /** A region: its blocks (index 0 is the entry block) and the counter from
      which it mints fresh vars. */
  datatype Region<I, A> = Region(blocks: seq<Block<I, A>>, supply: nat)

  /** A finished operation, generic over the intrinsic `I` and the attribute
      payload `A`, both opaque here. */
  datatype Operation<I, A> = Operation(
    intrinsic: I,
    operands: seq<Var>,
    attrs: map<string, A>,
    regions: seq<Region<I, A>>,
    successors: seq<Block<I, A>>)

  /** Every argument var of `b` was drawn below `supply`. */
  predicate ArgsBelow<I, A>(b: Block<I, A>, supply: nat) {
    forall k :: 0 <= k < |b.args| ==> b.args[k].id < supply
  }

  /** Every argument var already in the region's blocks was drawn from its
      supply, so that a var minted from the supply is new to the region. */
  predicate Supplied<I, A>(r: Region<I, A>) {
    forall j :: 0 <= j < |r.blocks| ==> ArgsBelow(r.blocks[j], r.supply)
  }

  /** The var `v` is an argument of some block of `r`. */
  predicate HasArg<I, A>(r: Region<I, A>, v: Var) {
    exists j :: 0 <= j < |r.blocks| && v in r.blocks[j].args
  }

  /** In a supplied region every argument var was drawn below the supply. */
  lemma ArgsOfSuppliedBelow<I, A>(r: Region<I, A>)
    requires Supplied(r)
    ensures forall v :: HasArg(r, v) ==> v.id < r.supply
  {
    forall v | HasArg(r, v) ensures v.id < r.supply {
      var j :| 0 <= j < |r.blocks| && v in r.blocks[j].args;
      assert ArgsBelow(r.blocks[j], r.supply);
    }
  }

  /** Every var a region mints is taken from its supply, so that later mints
      never repeat it. */
  function Mint<I, A>(r: Region<I, A>): (out: (Var, Region<I, A>))
    ensures out.1.blocks == r.blocks
    ensures out.0.id < out.1.supply
    ensures forall v: Var :: v.id < r.supply ==> v != out.0
  {
    (Var(r.supply), r.(supply := r.supply + 1))
  }

  /** Appends a block to the region; the region accepts every block. */
  function PushBlock<I, A>(r: Region<I, A>, b: Block<I, A>): (out: (Result<()>, Region<I, A>))
    ensures out.0 == Ok(())
    ensures |out.1.blocks| == |r.blocks| + 1
    ensures out.1.blocks[..|r.blocks|] == r.blocks && out.1.blocks[|r.blocks|] == b
    ensures out.1.supply == r.supply
    ensures Supplied(out.1) <==> Supplied(r) && ArgsBelow(b, r.supply)
  {
    var r' := r.(blocks := r.blocks + [b]);
    assert forall j :: 0 <= j < |r.blocks| ==> r'.blocks[j] == r.blocks[j];
    (Ok(()), r')
  }

  /** Mints a fresh var as a new argument of block `i`; fails, leaving the
      region as it was, when there is no block `i`. In a supplied region the
      var is no argument of any block yet, and the region stays supplied. */
  function PushArg<I, A>(r: Region<I, A>, i: nat): (out: (Result<Var>, Region<I, A>))
    ensures out.0.Ok? <==> i < |r.blocks|
    ensures out.0.Err? ==> out.1 == r
    ensures out.0.Ok? ==>
      && |out.1.blocks| == |r.blocks|
      && out.1.blocks[i] == Block(r.blocks[i].args + [out.0.value], r.blocks[i].ops)
      && (forall j :: 0 <= j < |r.blocks| && j != i ==> out.1.blocks[j] == r.blocks[j])
      && r.supply <= out.0.value.id < out.1.supply
    ensures Supplied(r) ==> Supplied(out.1)
    ensures Supplied(r) && out.0.Ok? ==> !HasArg(r, out.0.value)
  {
    if i < |r.blocks| then
      var (v, r') := Mint(r);
      var b := r.blocks[i];
      var out := (Ok(v), r'.(blocks := r.blocks[i := b.(args := b.args + [v])]));
      assert Supplied(r) ==> Supplied(out.1) by {
        if Supplied(r) {
          forall j | 0 <= j < |out.1.blocks| ensures ArgsBelow(out.1.blocks[j], out.1.supply) {
            assert ArgsBelow(r.blocks[j], r.supply);
          }
        }
      }
      out
    else
      (Err, r)
  }

  /** Appends `op` to block `i` and returns the fresh var that names its
      primary result. In a supplied region that var is no argument of any
      block, and the region stays supplied. */
  function PushOp<I, A>(r: Region<I, A>, i: nat, op: Operation<I, A>): (out: (Var, Region<I, A>))
    requires i < |r.blocks|
    ensures |out.1.blocks| == |r.blocks|
    ensures out.1.blocks[i] == Block(r.blocks[i].args, r.blocks[i].ops + [op])
    ensures forall j :: 0 <= j < |r.blocks| && j != i ==> out.1.blocks[j] == r.blocks[j]
    ensures r.supply <= out.0.id < out.1.supply
    ensures Supplied(r) ==> Supplied(out.1)
    ensures Supplied(r) ==> !HasArg(r, out.0) && !HasArg(out.1, out.0)
  {
    var (v, r') := Mint(r);
    var b := r.blocks[i];
    var out := (v, r'.(blocks := r.blocks[i := b.(ops := b.ops + [op])]));
    assert forall j :: 0 <= j < |r.blocks| ==> out.1.blocks[j].args == r.blocks[j].args;
    out
  }

  /** A sequence of the region operations the builder issues. */
  datatype RegionCall<I, A> = AddBlock(block: Block<I, A>) | AddArg(index: nat) | AddOp(index: nat, op: Operation<I, A>)

  /** The region after `calls`, with the vars minted along the way, in order;
      `None` once a `push_op` names a missing block. A failed `push_arg`
      mints nothing. */
  function Apply<I, A>(r: Region<I, A>, calls: seq<RegionCall<I, A>>): Option<(Region<I, A>, seq<Var>)>
    decreases |calls|
  {
    if calls == [] then Some((r, []))
    else match Apply(r, calls[..|calls| - 1])
      case None => None
      case Some((r1, minted)) =>
        match calls[|calls| - 1]
        case AddBlock(b) => Some((PushBlock(r1, b).1, minted))
        case AddArg(i) =>
          var (res, r2) := PushArg(r1, i);
          Some((r2, if res.Ok? then minted + [res.value] else minted))
        case AddOp(i, op) =>
          if i < |r1.blocks| then
            var (v, r2) := PushOp(r1, i, op);
            Some((r2, minted + [v]))
          else None
  }

  /** However the operations are interleaved, a region never mints the same
      var twice, every var it mints is drawn between its old and its new
      supply, and in a supplied region none of them was already an argument
      of one of its blocks. */
  lemma {:induction false} MintsNeverRepeat<I, A>(r: Region<I, A>, calls: seq<RegionCall<I, A>>)
    requires Apply(r, calls).Some?
    ensures var (r', minted) := Apply(r, calls).value;
      && r.supply <= r'.supply
      && (forall k :: 0 <= k < |minted| ==> r.supply <= minted[k].id < r'.supply)
      && (forall k, l :: 0 <= k < l < |minted| ==> minted[k] != minted[l])
      && (Supplied(r) ==> forall k :: 0 <= k < |minted| ==> !HasArg(r, minted[k]))
  {
    if calls != [] {
      MintsNeverRepeat(r, calls[..|calls| - 1]);
    }
    if Supplied(r) {
      ArgsOfSuppliedBelow(r);
    }
  }
}
