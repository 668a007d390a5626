/** Sequences of builder calls. A run applies the calls one after the other
    to a builder state and aborts where the builder would panic: an
    underflowing `cursor.0 - 1` or `cursor.1 - 1`, or an index past the
    regions or blocks. The lemmas relate what a run leaves in the builder to
    counts taken from the calls alone. */
module Traces {
  import opened Core
  import opened BuilderState

  datatype Call<I, A> =
    | CallPushOperand(v: Var)
    | CallSetOperands(vs: seq<Var>)
    | CallSetCursor(reg: nat, blk: nat)
    | CallPushArg
    | CallInsertAttr(key: string, attr: A)
    | CallPushRegion(region: Region<I, A>)
    | CallPushBlock(block: Block<I, A>)
    | CallPushOp(op: Operation<I, A>)

  /** One call; `None` where the builder would panic. */
  function Step<I, A>(s: State<I, A>, c: Call<I, A>): Option<State<I, A>> {
    match c
    case CallPushOperand(v) => Some(PushOperand(s, v))
    case CallSetOperands(vs) => Some(SetOperands(s, vs))
    case CallSetCursor(reg, blk) => Some(SetCursor(s, reg, blk))
    case CallPushArg => if BlockActive(s) then Some(BuilderState.PushArg(s).1) else None
    case CallInsertAttr(k, a) => Some(InsertAttr(s, k, a))
    case CallPushRegion(r) => Some(PushRegion(s, r))
    case CallPushBlock(b) => if RegionActive(s) then Some(BuilderState.PushBlock(s, b).1) else None
    case CallPushOp(op) => if BlockExists(s) then Some(BuilderState.PushOp(s, op).1) else None
  }

  function Front<T>(xs: seq<T>): seq<T>
    requires xs != []
  {
    xs[..|xs| - 1]
  }

  function Last<T>(xs: seq<T>): T
    requires xs != []
  {
    xs[|xs| - 1]
  }

  /** The calls applied in order from `s`; `None` once one of them panics. */
  function Run<I, A>(s: State<I, A>, calls: seq<Call<I, A>>): Option<State<I, A>>
    decreases |calls|
  {
    if calls == [] then Some(s)
    else match Run(s, Front(calls))
      case None => None
      case Some(t) => Step(t, Last(calls))
  }

  predicate NoSetCursor<I, A>(calls: seq<Call<I, A>>) {
    forall i :: 0 <= i < |calls| ==> !calls[i].CallSetCursor?
  }

  predicate NoSetOperands<I, A>(calls: seq<Call<I, A>>) {
    forall i :: 0 <= i < |calls| ==> !calls[i].CallSetOperands?
  }

  function RegionPushes<I, A>(calls: seq<Call<I, A>>): nat {
    if calls == [] then 0
    else RegionPushes(Front(calls)) + if Last(calls).CallPushRegion? then 1 else 0
  }

  function BlockPushes<I, A>(calls: seq<Call<I, A>>): nat {
    if calls == [] then 0
    else BlockPushes(Front(calls)) + if Last(calls).CallPushBlock? then 1 else 0
  }

  function OperandPushes<I, A>(calls: seq<Call<I, A>>): nat {
    if calls == [] then 0
    else OperandPushes(Front(calls)) + if Last(calls).CallPushOperand? then 1 else 0
  }

  /** The number of blocks region `k` holds after `calls`, read off the calls:
      as many as it was pushed with, plus one per `push_block` issued while
      it was the last region pushed. */
  function BlockCount<I, A>(calls: seq<Call<I, A>>, k: nat): nat {
    if calls == [] then 0
    else
      var front := Front(calls);
      match Last(calls)
      case CallPushRegion(r) => if k == RegionPushes(front) then |r.blocks| else BlockCount(front, k)
      case CallPushBlock(_) => BlockCount(front, k) + if k + 1 == RegionPushes(front) then 1 else 0
      case _ => BlockCount(front, k)
  }

  /** The number of `push_arg` calls that minted an argument of an entry
      block: exactly one `push_block` issued so far, and the last region
      pushed has a block 0. */
  function EntryArgs<I, A>(calls: seq<Call<I, A>>): nat {
    if calls == [] then 0
    else
      var front := Front(calls);
      var n := RegionPushes(front);
      EntryArgs(front) +
        if Last(calls).CallPushArg? && BlockPushes(front) == 1 && n >= 1 && BlockCount(front, n - 1) >= 1
        then 1 else 0
  }

  lemma RunFront<I, A>(s: State<I, A>, calls: seq<Call<I, A>>)
    requires calls != [] && Run(s, calls).Some?
    ensures Run(s, Front(calls)).Some?
    ensures Run(s, calls) == Step(Run(s, Front(calls)).value, Last(calls))
  {
  }

  lemma RunSnoc<I, A>(s: State<I, A>, calls: seq<Call<I, A>>, c: Call<I, A>)
    ensures Run(s, calls + [c]) == match Run(s, calls) case None => None case Some(t) => Step(t, c)
  {
  }

  /** Starting from a builder whose cursor counts its regions, the cursor keeps
      counting them as long as nobody calls `set_cursor`; the intrinsic and
      the successors never change. */
  lemma {:induction false} CursorTracksRegions<I, A>(s: State<I, A>, calls: seq<Call<I, A>>)
    requires s.cursor.0 == |s.regions|
    requires NoSetCursor(calls)
    requires Run(s, calls).Some?
    ensures Run(s, calls).value.cursor.0 == |Run(s, calls).value.regions|
    ensures |Run(s, calls).value.regions| == |s.regions| + RegionPushes(calls)
    ensures Run(s, calls).value.intrinsic == s.intrinsic
    ensures Run(s, calls).value.successors == s.successors
  {
    if calls != [] {
      RunFront(s, calls);
      assert NoSetCursor(Front(calls));
      CursorTracksRegions(s, Front(calls));
    }
  }

  /** Without `set_operands`, operands are only ever appended. */
  lemma {:induction false} OperandsOnlyGrow<I, A>(s: State<I, A>, calls: seq<Call<I, A>>)
    requires NoSetOperands(calls)
    requires Run(s, calls).Some?
    ensures s.operands <= Run(s, calls).value.operands
  {
    if calls != [] {
      RunFront(s, calls);
      assert NoSetOperands(Front(calls));
      OperandsOnlyGrow(s, Front(calls));
    }
  }

  /** What one call does to the cursor and to the number of regions and of
      blocks in each region. */
  lemma StepShape<I, A>(s: State<I, A>, c: Call<I, A>)
    requires Step(s, c).Some?
    ensures var t := Step(s, c).value;
      && t.cursor == (match c
                      case CallSetCursor(reg, blk) => (reg, blk)
                      case CallPushRegion(_) => (s.cursor.0 + 1, s.cursor.1)
                      case CallPushBlock(_) => (s.cursor.0, s.cursor.1 + 1)
                      case _ => s.cursor)
      && |t.regions| == |s.regions| + (if c.CallPushRegion? then 1 else 0)
      && (c.CallPushRegion? ==> t.regions[|s.regions|] == c.region)
      && (forall k :: 0 <= k < |s.regions| ==>
            |t.regions[k].blocks| == |s.regions[k].blocks| + if c.CallPushBlock? && k == s.cursor.0 - 1 then 1 else 0)
  {
  }

  /** From a fresh builder and without `set_cursor`, the cursor is
      `(region pushes, block pushes)` (the block half is never reset) and
      every region holds as many blocks as `BlockCount` reads off the calls. */
  lemma {:induction false} CountsFromDefault<I, A>(intr: I, calls: seq<Call<I, A>>)
    requires NoSetCursor(calls)
    requires Run(Default(intr), calls).Some?
    ensures var t := Run(Default<I, A>(intr), calls).value;
      && t.cursor == (RegionPushes(calls), BlockPushes(calls))
      && |t.regions| == RegionPushes(calls)
      && (forall k :: 0 <= k < |t.regions| ==> |t.regions[k].blocks| == BlockCount(calls, k))
  {
    if calls != [] {
      var front := Front(calls);
      RunFront(Default(intr), calls);
      assert NoSetCursor(front);
      CountsFromDefault(intr, front);
      var t0 := Run(Default<I, A>(intr), front).value;
      StepShape(t0, Last(calls));
    }
  }

  /** What one call other than `set_operands` does to the number of operands. */
  lemma StepOperands<I, A>(s: State<I, A>, c: Call<I, A>)
    requires Step(s, c).Some? && !c.CallSetOperands?
    ensures |Step(s, c).value.operands| == |s.operands| +
      if c.CallPushOperand? then 1
      else if c.CallPushArg? && s.cursor.1 == 1 && 0 < |ActiveRegion(s).blocks| then 1
      else 0
  {
  }

  /** From a fresh builder and without `set_cursor` or `set_operands`, the
      operands are the explicitly pushed ones plus one per argument minted for
      an entry block. */
  lemma {:induction false} OperandCountFromDefault<I, A>(intr: I, calls: seq<Call<I, A>>)
    requires NoSetCursor(calls) && NoSetOperands(calls)
    requires Run(Default(intr), calls).Some?
    ensures |Run(Default<I, A>(intr), calls).value.operands| == OperandPushes(calls) + EntryArgs(calls)
  {
    if calls != [] {
      var front := Front(calls);
      RunFront(Default(intr), calls);
      assert NoSetCursor(front) && NoSetOperands(front);
      OperandCountFromDefault(intr, front);
      CountsFromDefault(intr, front);
      StepOperands(Run(Default<I, A>(intr), front).value, Last(calls));
    }
  }

  /** A var minted for the entry block of a region is also the builder's
      operand. */
  lemma {:induction false} EntryArgumentIsOperand<I, A>(intr: I)
    ensures var r := Run(Default<I, A>(intr), [CallPushRegion(Region([], 0)), CallPushBlock(Block([], [])), CallPushArg]);
      && r.Some?
      && |r.value.operands| == 1
      && |r.value.regions| == 1 && |r.value.regions[0].blocks| == 1
      && r.value.regions[0].blocks[0].args == r.value.operands
  {
  }

  /** `push_block` before any `push_region` underflows `cursor.0 - 1`. */
  lemma PushBlockWithoutRegionPanics<I, A>(intr: I, b: Block<I, A>)
    ensures Run(Default<I, A>(intr), [CallPushBlock(b)]) == None
  {
  }

  /** `push_region` keeps the block half of the cursor: after two blocks in
      the first region, a fresh empty region is addressed at block index 1,
      so `push_arg` fails and `push_op` panics until its own blocks are
      pushed. */
  lemma {:induction false} BlockCursorCarriesOver<I, A>(intr: I, b0: Block<I, A>, b1: Block<I, A>, op: Operation<I, A>)
    ensures var calls := [CallPushRegion(Region([], 0)), CallPushBlock(b0), CallPushBlock(b1), CallPushRegion(Region([], 0))];
      var r := Run(Default<I, A>(intr), calls);
      && r.Some?
      && r.value.cursor == (2, 2) && |r.value.regions| == 2
      && BuilderState.PushArg(r.value).0 == Err
      && Run(Default<I, A>(intr), calls + [CallPushOp(op)]) == None
  {
    var s0 := Default<I, A>(intr);
    var c1, c2, c3, c4 := CallPushRegion(Region([], 0)), CallPushBlock(b0), CallPushBlock(b1), CallPushRegion(Region([], 0));
    RunSnoc(s0, [], c1);
    assert [] + [c1] == [c1];
    RunSnoc(s0, [c1], c2);
    assert [c1] + [c2] == [c1, c2];
    RunSnoc(s0, [c1, c2], c3);
    assert [c1, c2] + [c3] == [c1, c2, c3];
    RunSnoc(s0, [c1, c2, c3], c4);
    assert [c1, c2, c3] + [c4] == [c1, c2, c3, c4];
    RunSnoc(s0, [c1, c2, c3, c4], CallPushOp(op));
  }

  lemma {:induction false} RunConcat<I, A>(s: State<I, A>, xs: seq<Call<I, A>>, ys: seq<Call<I, A>>)
    ensures Run(s, xs + ys) == match Run(s, xs) case None => None case Some(t) => Run(t, ys)
    decreases |ys|
  {
    if ys == [] {
      assert xs + ys == xs;
    } else {
      RunConcat(s, xs, Front(ys));
      assert Front(xs + ys) == xs + Front(ys);
      assert Last(xs + ys) == Last(ys);
      match Run(s, xs)
      case None =>
      case Some(t) =>
        assert Run(s, xs + Front(ys)) == Run(t, Front(ys));
    }
  }

  function EmptyBlock<I, A>(): Block<I, A> {
    Block([], [])
  }

  function EmptyRegion<I, A>(): Region<I, A> {
    Region([], 0)
  }

  lemma {:induction false} TwoRegionsFourBlocks<I, A>(intr: I)
    ensures var b, r := EmptyBlock<I, A>(), EmptyRegion<I, A>();
      Run(Default<I, A>(intr), [CallPushRegion(r), CallPushBlock(b), CallPushBlock(b), CallPushBlock(b), CallPushRegion(r), CallPushBlock(b)])
      == Some(Default<I, A>(intr).(regions := [Region([b, b, b], 0), Region([b], 0)], cursor := (2, 4)))
  {
    var b, r := EmptyBlock<I, A>(), EmptyRegion<I, A>();
    var t0 := Default<I, A>(intr);
    var c1, c2 := CallPushRegion(r), CallPushBlock(b);
    var t1 := t0.(regions := [r], cursor := (1, 0));
    var t2 := t0.(regions := [Region([b], 0)], cursor := (1, 1));
    var t3 := t0.(regions := [Region([b, b], 0)], cursor := (1, 2));
    var t4 := t0.(regions := [Region([b, b, b], 0)], cursor := (1, 3));
    var t5 := t0.(regions := [Region([b, b, b], 0), r], cursor := (2, 3));
    var t6 := t0.(regions := [Region([b, b, b], 0), Region([b], 0)], cursor := (2, 4));
    RunSnoc(t0, [], c1);
    assert [] + [c1] == [c1];
    assert t0.regions + [r] == [r];
    assert Run(t0, [c1]) == Some(t1);
    RunSnoc(t0, [c1], c2);
    assert [c1] + [c2] == [c1, c2];
    assert r.blocks + [b] == [b];
    assert t1.regions[0 := Region([b], 0)] == [Region([b], 0)];
    assert Run(t0, [c1, c2]) == Some(t2);
    RunSnoc(t0, [c1, c2], c2);
    assert [c1, c2] + [c2] == [c1, c2, c2];
    assert [b] + [b] == [b, b];
    assert t2.regions[0 := Region([b, b], 0)] == [Region([b, b], 0)];
    assert Run(t0, [c1, c2, c2]) == Some(t3);
    RunSnoc(t0, [c1, c2, c2], c2);
    assert [c1, c2, c2] + [c2] == [c1, c2, c2, c2];
    assert [b, b] + [b] == [b, b, b];
    assert t3.regions[0 := Region([b, b, b], 0)] == [Region([b, b, b], 0)];
    assert Run(t0, [c1, c2, c2, c2]) == Some(t4);
    RunSnoc(t0, [c1, c2, c2, c2], c1);
    assert [c1, c2, c2, c2] + [c1] == [c1, c2, c2, c2, c1];
    assert t4.regions + [r] == [Region([b, b, b], 0), r];
    assert Run(t0, [c1, c2, c2, c2, c1]) == Some(t5);
    RunSnoc(t0, [c1, c2, c2, c2, c1], c2);
    assert [c1, c2, c2, c2, c1] + [c2] == [c1, c2, c2, c2, c1, c2];
    assert r.blocks + [b] == [b];
    assert t5.regions[1 := Region([b], 0)] == t6.regions;
  }

  lemma {:induction false} TwoOperands<I, A>(s: State<I, A>, v: Var, w: Var)
    ensures Run(s, [CallPushOperand(v), CallPushOperand(w)]) == Some(s.(operands := s.operands + [v, w]))
  {
    var c1, c2 := CallPushOperand(v), CallPushOperand(w);
    RunSnoc(s, [], c1);
    assert [] + [c1] == [c1];
    RunSnoc(s, [c1], c2);
    assert [c1] + [c2] == [c1, c2];
    assert s.operands + [v] + [w] == s.operands + [v, w];
  }

  lemma {:induction false} FourAttrs<I, A>(s: State<I, A>, a: A)
    ensures Run(s, [CallInsertAttr("a", a), CallInsertAttr("b", a), CallInsertAttr("c", a), CallInsertAttr("d", a)])
      == Some(s.(attrs := s.attrs["a" := a]["b" := a]["c" := a]["d" := a]))
  {
    var c1, c2, c3, c4 := CallInsertAttr("a", a), CallInsertAttr("b", a), CallInsertAttr("c", a), CallInsertAttr("d", a);
    RunSnoc(s, [], c1);
    assert [] + [c1] == [c1];
    RunSnoc(s, [c1], c2);
    assert [c1] + [c2] == [c1, c2];
    RunSnoc(s, [c1, c2], c3);
    assert [c1, c2] + [c3] == [c1, c2, c3];
    RunSnoc(s, [c1, c2, c3], c4);
    assert [c1, c2, c3] + [c4] == [c1, c2, c3, c4];
  }

  /** Two regions with three and one blocks, two explicit operands and four
      attributes finish into an operation with exactly those. */
  lemma {:induction false} FinishReportsWhatWasPushed<I, A>(intr: I, v: Var, w: Var, a: A)
    ensures var b, r := EmptyBlock<I, A>(), EmptyRegion<I, A>();
      var regionCalls := [CallPushRegion(r), CallPushBlock(b), CallPushBlock(b), CallPushBlock(b), CallPushRegion(r), CallPushBlock(b)];
      var operandCalls := [CallPushOperand(v), CallPushOperand(w)];
      var attrCalls := [CallInsertAttr("a", a), CallInsertAttr("b", a), CallInsertAttr("c", a), CallInsertAttr("d", a)];
      var t := Run(Default<I, A>(intr), regionCalls + operandCalls + attrCalls);
      && t.Some?
      && var op := Finish(t.value);
      && op.intrinsic == intr
      && |op.regions| == 2 && |op.regions[0].blocks| == 3 && |op.regions[1].blocks| == 1
      && op.operands == [v, w]
      && |op.attrs| == 4
      && op.successors == []
  {
    var b, r := EmptyBlock<I, A>(), EmptyRegion<I, A>();
    var regionCalls := [CallPushRegion(r), CallPushBlock(b), CallPushBlock(b), CallPushBlock(b), CallPushRegion(r), CallPushBlock(b)];
    var operandCalls := [CallPushOperand(v), CallPushOperand(w)];
    var attrCalls := [CallInsertAttr("a", a), CallInsertAttr("b", a), CallInsertAttr("c", a), CallInsertAttr("d", a)];
    var s0 := Default<I, A>(intr);
    TwoRegionsFourBlocks<I, A>(intr);
    var t1 := Run(s0, regionCalls).value;
    TwoOperands(t1, v, w);
    RunConcat(s0, regionCalls, operandCalls);
    var t2 := Run(t1, operandCalls).value;
    FourAttrs(t2, a);
    RunConcat(s0, regionCalls + operandCalls, attrCalls);
    var m: map<string, A> := map[]["a" := a]["b" := a]["c" := a]["d" := a];
    assert m.Keys == {"a", "b", "c", "d"};
  }
}
