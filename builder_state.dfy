/** The state of an `OperationBuilder` as a value, and what each of its
    methods does to that value. The class in module Builder is tied to these
    functions through its `Snapshot()`, and module Traces reasons about
    sequences of them. */
module BuilderState {
  import opened Core

  /** One builder's fields: the latest result vars, the cursor
      `(region_count, block_count)`, the intrinsic, the operands, the
      attributes, the regions and the successors. */
  datatype State<I, A> = State(
    latest: seq<Var>,
    cursor: (nat, nat),
    intrinsic: I,
    operands: seq<Var>,
    attrs: map<string, A>,
    regions: seq<Region<I, A>>,
    successors: seq<Block<I, A>>)

  /** A fresh builder for `intr`: cursor `(0, 0)`, everything else empty. */
  function Default<I, A>(intr: I): (s: State<I, A>)
    ensures s.cursor == (0, 0) && s.intrinsic == intr
    ensures s.latest == [] && s.operands == [] && s.attrs == map[]
    ensures s.regions == [] && s.successors == []
  {
    State([], (0, 0), intr, [], map[], [], [])
  }

  /** `cursor.0 - 1` neither underflows nor indexes past the regions. */
  predicate RegionActive<I, A>(s: State<I, A>) {
    s.cursor.0 >= 1 && s.cursor.0 - 1 < |s.regions|
  }

  /** In addition, `cursor.1 - 1` does not underflow. */
  predicate BlockActive<I, A>(s: State<I, A>) {
    RegionActive(s) && s.cursor.1 >= 1
  }

  /** The region the cursor points at. */
  function ActiveRegion<I, A>(s: State<I, A>): Region<I, A>
    requires RegionActive(s)
  {
    s.regions[s.cursor.0 - 1]
  }

  /** In addition, the active region has the block the cursor points at. */
  predicate BlockExists<I, A>(s: State<I, A>) {
    BlockActive(s) && s.cursor.1 - 1 < |ActiveRegion(s).blocks|
  }

  function PushOperand<I, A>(s: State<I, A>, v: Var): State<I, A> {
    s.(operands := s.operands + [v])
  }

  function SetOperands<I, A>(s: State<I, A>, vs: seq<Var>): State<I, A> {
    s.(operands := vs)
  }

  function SetCursor<I, A>(s: State<I, A>, reg: nat, blk: nat): State<I, A> {
    s.(cursor := (reg, blk))
  }

  /** Mints an argument of the active block; a var minted for the entry block
      (index 0) also becomes an operand of the builder. */
  function PushArg<I, A>(s: State<I, A>): (Result<Var>, State<I, A>)
    requires BlockActive(s)
  {
    var blk := s.cursor.1 - 1;
    var reg := s.cursor.0 - 1;
    var (res, r) := Core.PushArg(s.regions[reg], blk);
    var s' := s.(regions := s.regions[reg := r]);
    match res
    case Ok(v) => (res, if blk == 0 then PushOperand(s', v) else s')
    case Err => (res, s')
  }

  function InsertAttr<I, A>(s: State<I, A>, k: string, a: A): State<I, A> {
    s.(attrs := s.attrs[k := a])
  }

  function GetAttr<I, A>(s: State<I, A>, k: string): Option<A> {
    if k in s.attrs then Some(s.attrs[k]) else None
  }

  /** Appends `r` and advances only the region half of the cursor. */
  function PushRegion<I, A>(s: State<I, A>, r: Region<I, A>): State<I, A> {
    s.(regions := s.regions + [r], cursor := (s.cursor.0 + 1, s.cursor.1))
  }

  /** Appends `b` to the active region; the block half of the cursor advances
      only once the region has accepted the block. */
  function PushBlock<I, A>(s: State<I, A>, b: Block<I, A>): (Result<()>, State<I, A>)
    requires RegionActive(s)
  {
    var reg := s.cursor.0 - 1;
    var (res, r) := Core.PushBlock(s.regions[reg], b);
    match res
    case Err => (Err, s)
    case Ok(_) => (Ok(()), s.(regions := s.regions[reg := r], cursor := (s.cursor.0, s.cursor.1 + 1)))
  }

  /** Appends `op` to the active block and makes its result the only latest
      var. */
  function PushOp<I, A>(s: State<I, A>, op: Operation<I, A>): (Var, State<I, A>)
    requires BlockExists(s)
  {
    var reg := s.cursor.0 - 1;
    var (ret, r) := Core.PushOp(s.regions[reg], s.cursor.1 - 1, op);
    (ret, s.(regions := s.regions[reg := r], latest := [ret]))
  }

  function Finish<I, A>(s: State<I, A>): Operation<I, A> {
    Operation(s.intrinsic, s.operands, s.attrs, s.regions, s.successors)
  }

  /** Last write wins for the key written; every other key reads as before,
      present or absent. */
  lemma InsertAttrThenGet<I, A>(s: State<I, A>, k: string, a: A, k': string)
    ensures GetAttr(InsertAttr(s, k, a), k') == if k' == k then Some(a) else GetAttr(s, k')
  {
  }
}
