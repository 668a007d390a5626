/** `OperationBuilder`: the stateful context that assembles one operation.
    Each method updates the fields in place, states its effect on them, and
    agrees with the matching function of module BuilderState on the whole
    `Snapshot()`. */
module Builder {
  import opened Core
  import BuilderState

  class OperationBuilder<I, A> {
    var latest: seq<Var>
    /** `(region_count, block_count)`: the active region is index
        `cursor.0 - 1`, the active block within it index `cursor.1 - 1`. */
    var cursor: (nat, nat)
    const intrinsic: I
    var operands: seq<Var>
    var attrs: map<string, A>
    var regions: seq<Region<I, A>>
    var successors: seq<Block<I, A>>

    function Snapshot(): BuilderState.State<I, A>
      reads this
    {
      BuilderState.State(latest, cursor, intrinsic, operands, attrs, regions, successors)
    }

    constructor Default(intr: I)
      ensures cursor == (0, 0) && intrinsic == intr
      ensures latest == [] && operands == [] && attrs == map[]
      ensures regions == [] && successors == []
      ensures Snapshot() == BuilderState.Default(intr)
    {
      latest := [];
      cursor := (0, 0);
      intrinsic := intr;
      operands := [];
      attrs := map[];
      regions := [];
      successors := [];
    }

    method GetLatest() returns (vs: seq<Var>)
      ensures vs == latest
    {
      vs := latest;
    }

    method GetIntrinsic() returns (intr: I)
      ensures intr == intrinsic
    {
      intr := intrinsic;
    }

    method PushOperand(arg: Var)
      modifies this
      ensures operands == old(operands) + [arg]
      ensures |operands| == |old(operands)| + 1 && operands[|operands| - 1] == arg
      ensures latest == old(latest) && cursor == old(cursor) && attrs == old(attrs)
      ensures regions == old(regions) && successors == old(successors)
      ensures Snapshot() == BuilderState.PushOperand(old(Snapshot()), arg)
    {
      operands := operands + [arg];
    }

    method SetOperands(args: seq<Var>)
      modifies this
      ensures operands == args
      ensures latest == old(latest) && cursor == old(cursor) && attrs == old(attrs)
      ensures regions == old(regions) && successors == old(successors)
      ensures Snapshot() == BuilderState.SetOperands(old(Snapshot()), args)
    {
      operands := args;
    }

    /** The argument is not used: the whole operand list is returned. */
    method GetOperands(arg: Var) returns (vs: seq<Var>)
      ensures vs == operands
    {
      vs := operands;
    }

    method SetCursor(reg: nat, blk: nat)
      modifies this
      ensures cursor == (reg, blk)
      ensures latest == old(latest) && operands == old(operands) && attrs == old(attrs)
      ensures regions == old(regions) && successors == old(successors)
      ensures Snapshot() == BuilderState.SetCursor(old(Snapshot()), reg, blk)
    {
      cursor := (reg, blk);
    }

    method GetCursor() returns (c: (nat, nat))
      ensures c == cursor
    {
      c := cursor;
    }

    /** Mints an argument of the active block. The var is appended to the
        operands exactly when the active block is the entry block; a failure
        changes nothing. */
    method PushArg() returns (res: Result<Var>)
      requires cursor.0 >= 1 && cursor.0 - 1 < |regions| && cursor.1 >= 1
      modifies this
      ensures var reg, blk := old(cursor.0) - 1, old(cursor.1) - 1;
        res.Ok? <==> blk < |old(regions)[reg].blocks|
      ensures var reg, blk := old(cursor.0) - 1, old(cursor.1) - 1;
        res.Ok? ==>
          && |regions| == |old(regions)|
          && |regions[reg].blocks| == |old(regions)[reg].blocks|
          && regions[reg].blocks[blk].args == old(regions)[reg].blocks[blk].args + [res.value]
          && regions[reg].blocks[blk].ops == old(regions)[reg].blocks[blk].ops
          && (forall j :: 0 <= j < |regions[reg].blocks| && j != blk ==>
                regions[reg].blocks[j] == old(regions)[reg].blocks[j])
          && (forall i :: 0 <= i < |regions| && i != reg ==> regions[i] == old(regions)[i])
          && operands == (if blk == 0 then old(operands) + [res.value] else old(operands))
      ensures res.Err? ==> Snapshot() == old(Snapshot())
      ensures cursor == old(cursor) && latest == old(latest) && attrs == old(attrs)
      ensures successors == old(successors)
      ensures (res, Snapshot()) == BuilderState.PushArg(old(Snapshot()))
    {
      var blk := cursor.1 - 1;
      var r := GetRegion();
      var out := Core.PushArg(r, blk);
      regions := regions[cursor.0 - 1 := out.1];
      match out.0
      case Ok(v) =>
        if blk == 0 {
          PushOperand(v);
        }
        res := Ok(v);
      case Err =>
        res := Err;
    }

    /** Inserts or overwrites the attribute under `k`. */
    method InsertAttr(k: string, attr: A)
      modifies this
      ensures attrs == old(attrs)[k := attr]
      ensures k in attrs && attrs[k] == attr
      ensures forall k' :: k' != k ==> (k' in attrs <==> k' in old(attrs))
      ensures forall k' :: k' != k && k' in attrs ==> attrs[k'] == old(attrs)[k']
      ensures latest == old(latest) && cursor == old(cursor) && operands == old(operands)
      ensures regions == old(regions) && successors == old(successors)
      ensures Snapshot() == BuilderState.InsertAttr(old(Snapshot()), k, attr)
    {
      attrs := attrs[k := attr];
    }

    method GetAttrs() returns (m: map<string, A>)
      ensures m == attrs
    {
      m := attrs;
    }

    /** An absent key reads as `None`, not as a failure. */
    method GetAttr(key: string) returns (a: Option<A>)
      ensures a.Some? <==> key in attrs
      ensures a.Some? ==> a.value == attrs[key]
      ensures a == BuilderState.GetAttr(Snapshot(), key)
    {
      if key in attrs {
        a := Some(attrs[key]);
      } else {
        a := None;
      }
    }

    /** Appends `r` as the last region and advances the region half of the
        cursor; the block half carries over unchanged. */
    method PushRegion(r: Region<I, A>)
      modifies this
      ensures regions == old(regions) + [r]
      ensures cursor == (old(cursor.0) + 1, old(cursor.1))
      ensures latest == old(latest) && operands == old(operands) && attrs == old(attrs)
      ensures successors == old(successors)
      ensures Snapshot() == BuilderState.PushRegion(old(Snapshot()), r)
    {
      regions := regions + [r];
      cursor := (cursor.0 + 1, cursor.1);
    }

    /** The active region, by value. */
    method GetRegion() returns (r: Region<I, A>)
      requires cursor.0 >= 1 && cursor.0 - 1 < |regions|
      ensures r == regions[cursor.0 - 1]
    {
      var reg := cursor.0 - 1;
      r := regions[reg];
    }

    method GetRegions() returns (rs: seq<Region<I, A>>)
      ensures rs == regions
    {
      rs := regions;
    }

    /** Appends `b` to the active region only. The block half of the cursor
        advances by one after the region accepts the block; if the region
        refused it, nothing would change. */
    method PushBlock(b: Block<I, A>) returns (res: Result<()>)
      requires cursor.0 >= 1 && cursor.0 - 1 < |regions|
      modifies this
      ensures var reg := old(cursor.0) - 1;
        res.Ok? ==>
          && cursor == (old(cursor.0), old(cursor.1) + 1)
          && |regions| == |old(regions)|
          && regions[reg].blocks == old(regions)[reg].blocks + [b]
          && (forall i :: 0 <= i < |regions| && i != reg ==> regions[i] == old(regions)[i])
      ensures res.Err? ==> Snapshot() == old(Snapshot())
      ensures latest == old(latest) && operands == old(operands) && attrs == old(attrs)
      ensures successors == old(successors)
      ensures (res, Snapshot()) == BuilderState.PushBlock(old(Snapshot()), b)
    {
      var r := GetRegion();
      var out := Core.PushBlock(r, b);
      match out.0
      case Err =>
        res := Err;
      case Ok(_) =>
        regions := regions[cursor.0 - 1 := out.1];
        cursor := (cursor.0, cursor.1 + 1);
        res := Ok(());
    }

    /** The active block, by value. */
    method GetBlock() returns (b: Block<I, A>)
      requires cursor.0 >= 1 && cursor.0 - 1 < |regions| && cursor.1 >= 1
      requires cursor.1 - 1 < |regions[cursor.0 - 1].blocks|
      ensures b == regions[cursor.0 - 1].blocks[cursor.1 - 1]
    {
      var blk := cursor.1 - 1;
      var r := GetRegion();
      b := r.blocks[blk];
    }

    /** Appends `v` to the active block of the active region, and nowhere
        else; its result var becomes the only latest var. Returns the builder
        itself for chaining. */
    method PushOp(v: Operation<I, A>) returns (self: OperationBuilder<I, A>)
      requires cursor.0 >= 1 && cursor.0 - 1 < |regions| && cursor.1 >= 1
      requires cursor.1 - 1 < |regions[cursor.0 - 1].blocks|
      modifies this
      ensures self == this
      ensures var reg, blk := old(cursor.0) - 1, old(cursor.1) - 1;
        && |regions| == |old(regions)|
        && |regions[reg].blocks| == |old(regions)[reg].blocks|
        && regions[reg].blocks[blk].ops == old(regions)[reg].blocks[blk].ops + [v]
        && regions[reg].blocks[blk].args == old(regions)[reg].blocks[blk].args
        && (forall j :: 0 <= j < |regions[reg].blocks| && j != blk ==>
              regions[reg].blocks[j] == old(regions)[reg].blocks[j])
        && (forall i :: 0 <= i < |regions| && i != reg ==> regions[i] == old(regions)[i])
      ensures |latest| == 1
      ensures cursor == old(cursor) && operands == old(operands) && attrs == old(attrs)
      ensures successors == old(successors)
      ensures (latest[0], Snapshot()) == BuilderState.PushOp(old(Snapshot()), v)
    {
      var blk := cursor.1 - 1;
      var r := GetRegion();
      var out := Core.PushOp(r, blk, v);
      regions := regions[cursor.0 - 1 := out.1];
      latest := [out.0];
      self := this;
    }

    /** Packages the accumulated state, unchanged, as an operation; this
        never fails. */
    method Finish() returns (res: Result<Operation<I, A>>)
      ensures res.Ok?
      ensures res.value.intrinsic == intrinsic && res.value.operands == operands
      ensures res.value.attrs == attrs && res.value.regions == regions
      ensures res.value.successors == successors
      ensures res.value == BuilderState.Finish(Snapshot())
    {
      res := Ok(Operation(intrinsic, operands, attrs, regions, successors));
    }
  }
}
