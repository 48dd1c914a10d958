/**
 The transfer kernel: launches of four objects, work-groups over tiles of
 blocks, lanes striding through a tile, units copied byte for byte.
 */
module TransferKernel {
  import opened Radix
  import opened KvFormat
  import opened TransferMap
  import opened ByteMoves
  import opened TransferJob
  import opened WorkGrid

  function Max(a: nat, b: nat): nat { if a <= b then b else a }

  // ---------------------------------------------------------------- launches

  /** One launch covers the flat blocks [first, end) of up to four objects. */
  datatype Launch = Launch(start: nat, first: nat, end: nat)

  function LaunchAt(j: Job, start: nat): Launch
    requires start <= |j.objs|
  {
    var count := Min(OBJECTS_PER_LAUNCH, |j.objs| - start);
    Launch(start, Max(j.skip, Mul(start, j.perObject)), Min(|j.ids|, Mul(start + count, j.perObject)))
  }

  predicate LaunchOk(j: Job, at: Launch)
  {
    at.start < |j.objs| && at == LaunchAt(j, at.start) && at.first < at.end
  }

  /** The launch whose objects hold a block starts at the last multiple of four. */
  function LaunchStart(j: Job, blk: nat): nat
    requires Ready(j)
  {
    Quot(Quot(blk, j.perObject), OBJECTS_PER_LAUNCH) * OBJECTS_PER_LAUNCH
  }

  lemma Bracket(x: nat, n: nat, lo: nat, hi: nat)
    requires n > 0
    ensures lo * n <= x < hi * n <==> lo <= x / n < hi
  {
    Split(x, n);
    var q := x / n;
    if lo <= q { Monotone(lo, q, n); } else { Monotone(q + 1, lo, n); Distribute(q, 1, n); }
    if q < hi { Monotone(q + 1, hi, n); Distribute(q, 1, n); } else { Monotone(hi, q, n); }
  }

  /** A block from skip on is covered by the launch of its objects and by no other. */
  lemma LaunchedOnce(j: Job, blk: nat, start: nat)
    requires Ready(j) && j.skip <= blk < |j.ids| && start < |j.objs| && start % OBJECTS_PER_LAUNCH == 0
    ensures LaunchAt(j, start).first <= blk < LaunchAt(j, start).end <==> start == LaunchStart(j, blk)
    ensures LaunchStart(j, blk) < |j.objs|
  {
    ObjectExists(j, blk);
    var count := Min(OBJECTS_PER_LAUNCH, |j.objs| - start);
    Bracket(blk, j.perObject, start, start + count);
  }

  function GridFor(j: Job, at: Launch): (g: Grid)
    requires Ready(j) && at.first < at.end
    ensures GridOk(g)
  {
    Grid(j.d.kv, j.d.nl, at.first, at.end - at.first, TILE_BYTES / j.unit, BlockUnits(j))
  }

  /** Objects of the launch, as copied into the kernel's argument. */
  function Batch(j: Job, at: Launch): (b: seq<nat>)
    requires at.start < |j.objs|
  {
    j.objs[at.start..at.start + Min(OBJECTS_PER_LAUNCH, |j.objs| - at.start)]
  }

  lemma BatchObject(j: Job, at: Launch, blk: nat)
    requires Ready(j) && LaunchOk(j, at) && at.first <= blk < at.end
    ensures at.start <= blk / j.perObject < at.start + |Batch(j, at)|
    ensures Batch(j, at)[blk / j.perObject - at.start] == j.objs[blk / j.perObject]
  {
    Bracket(blk, j.perObject, at.start, at.start + Min(OBJECTS_PER_LAUNCH, |j.objs| - at.start));
  }

  // ------------------------------------------------------------------ copies

  /** The bytes of one unit. */
  ghost function UnitMoves(dst: int, src: int, unit: nat): Moves
  {
    iset m: Move | dst <= m.dst < dst + unit && m.src - src == m.dst - dst
  }

  method CopyUnit(mem: array<bv8>, dst: nat, src: nat, unit: nat)
    requires dst + unit <= mem.Length && src + unit <= mem.Length
    requires dst + unit <= src || src + unit <= dst
    modifies mem
    ensures Copied(old(mem[..]), mem[..], UnitMoves(dst, src, unit))
  {
    var b := 0;
    while b < unit
      invariant b <= unit
      invariant forall a :: 0 <= a < mem.Length && !(dst <= a < dst + b) ==> mem[a] == old(mem[a])
      invariant forall a :: dst <= a < dst + b ==> mem[a] == old(mem[src + (a - dst)])
    {
      mem[dst + b] := mem[src + b];
      b := b + 1;
    }
    forall a | 0 <= a < mem.Length
      ensures if Hit(UnitMoves(dst, src, unit), a) then From(UnitMoves(dst, src, unit), a, mem[a], old(mem[..])) else mem[a] == old(mem[a])
    {
      if dst <= a < dst + unit {
        assert Move(a, src + (a - dst)) in UnitMoves(dst, src, unit);
      }
    }
  }

  /** The addresses the kernel computes for unit i of a block. */
  function EngineUnitAddress(j: Job, kv: nat, layer: nat, blk: nat, i: nat): int
    requires Ready(j) && blk < |j.ids| && GoodId(j, blk) && kv < j.d.kv && layer < j.d.nl
  {
    var l := LayoutOf(j);
    var pointer := Mul(layer, l.pointerLayerStride) + Mul(kv, l.pointerKvStride);
    Monotone(layer, j.d.nl - 1, l.pointerLayerStride);
    Monotone(kv, j.d.kv - 1, l.pointerKvStride);
    j.ptrs[pointer] + Mul(j.ids[blk], l.blockStride) + Mul(layer, l.layerStride) + Mul(kv, l.kvStride) + EngineUnit(j, i) * j.unit
  }

  function ObjectUnitAddress(j: Job, base: nat, kv: nat, layer: nat, blk: nat, i: nat): int
    requires Ready(j)
  {
    var chunk := Mul(j.perObject, j.d.bs);
    base + (Mul(Mul(Mul(kv, j.d.nl) + layer, chunk), RowUnits(j)) + Mul(blk % j.perObject, BlockUnits(j))) * j.unit + i * j.unit
  }

  lemma ObjectUnits(j: Job, plane: nat, place: nat)
    requires Ready(j)
    ensures (plane * (j.perObject * j.d.bs) * RowUnits(j) + place * BlockUnits(j)) * j.unit == (plane * j.perObject + place) * BlockBytes(j.d)
  {
    var (p, bs, ru, bu, u) := (j.perObject, j.d.bs, RowUnits(j), BlockUnits(j), j.unit);
    Assoc(plane, p, bs);
    Assoc(plane * p, bs, ru);
    Distribute(plane * p, place, bu);
    Assoc(plane * p + place, bu, u);
    assert bu * u == BlockBytes(j.d) by {
      Assoc(j.d.nh, HeadUnits(j), u);
      Assoc(bs, ru, u);
    }
  }

  /** Byte b of unit i: the kernel's addresses are those of its site. */
  lemma UnitAddresses(j: Job, kv: nat, layer: nat, blk: nat, i: nat, b: nat)
    requires Ready(j) && j.skip <= blk < |j.ids| && GoodId(j, blk) && kv < j.d.kv && layer < j.d.nl && i < BlockUnits(j) && b < j.unit
    requires blk / j.perObject < |j.objs|
    ensures var s := SiteOf(j, kv, layer, blk, i, b);
            && InJob(j, s)
            && EngineUnitAddress(j, kv, layer, blk, i) + b == EngineAddress(j, s)
            && ObjectUnitAddress(j, j.objs[blk / j.perObject], kv, layer, blk, i) + b == ObjectAddress(j, s)
  {
    UnitIsBytes(j, kv, layer, blk, i, b);
    ObjectUnits(j, kv * j.d.nl + layer, blk % j.perObject);
  }

  // ------------------------------------------------------------------ kernel

  ghost predicate Has(j: Job, p: Moves, s: Site)
    requires Ready(j)
  {
    InJob(j, s) && MoveOf(j, s) in p
  }

  function UnitDst(j: Job, base: nat, kv: nat, layer: nat, blk: nat, i: nat): int
    requires Ready(j) && blk < |j.ids| && GoodId(j, blk) && kv < j.d.kv && layer < j.d.nl
  {
    if j.toEngine then EngineUnitAddress(j, kv, layer, blk, i) else ObjectUnitAddress(j, base, kv, layer, blk, i)
  }

  function UnitSrc(j: Job, base: nat, kv: nat, layer: nat, blk: nat, i: nat): int
    requires Ready(j) && blk < |j.ids| && GoodId(j, blk) && kv < j.d.kv && layer < j.d.nl
  {
    if j.toEngine then ObjectUnitAddress(j, base, kv, layer, blk, i) else EngineUnitAddress(j, kv, layer, blk, i)
  }

  /** The moves of one unit are moves of the transfer. */
  lemma UnitMovesOfJob(j: Job, kv: nat, layer: nat, blk: nat, i: nat)
    requires Ready(j) && j.skip <= blk < |j.ids| && GoodId(j, blk) && kv < j.d.kv && layer < j.d.nl && i < BlockUnits(j)
    requires blk / j.perObject < |j.objs|
    ensures var base := j.objs[blk / j.perObject];
            var p := UnitMoves(UnitDst(j, base, kv, layer, blk, i), UnitSrc(j, base, kv, layer, blk, i), j.unit);
            p <= JobMoves(j) && forall b: nat :: b < j.unit ==> Has(j, p, SiteOf(j, kv, layer, blk, i, b))
  {
    var base := j.objs[blk / j.perObject];
    var (dst, src) := (UnitDst(j, base, kv, layer, blk, i), UnitSrc(j, base, kv, layer, blk, i));
    var p := UnitMoves(dst, src, j.unit);
    forall b: nat | b < j.unit
      ensures Has(j, p, SiteOf(j, kv, layer, blk, i, b)) && MoveOf(j, SiteOf(j, kv, layer, blk, i, b)) == Move(dst + b, src + b)
    {
      UnitAddresses(j, kv, layer, blk, i, b);
    }
    forall m | m in p
      ensures m in JobMoves(j)
    {
      var b := m.dst - dst;
      assert m == MoveOf(j, SiteOf(j, kv, layer, blk, i, b));
    }
  }

  /** Units read and write in memory, and never overlap. */
  lemma UnitApart(p: Moves, dst: int, src: int, unit: nat, zone: iset<int>, size: nat)
    requires unit > 0 && UnitMoves(dst, src, unit) <= p && Into(p, zone)
    requires forall m :: m in p ==> 0 <= m.dst < size && 0 <= m.src < size
    ensures 0 <= dst && dst + unit <= size && 0 <= src && src + unit <= size
    ensures dst + unit <= src || src + unit <= dst
  {
    UnitPlace(p, dst, src, unit, zone, size, 0);
    UnitPlace(p, dst, src, unit, zone, size, unit - 1);
    if dst <= src < dst + unit {
      UnitPlace(p, dst, src, unit, zone, size, src - dst);
    } else if src <= dst < src + unit {
      UnitPlace(p, dst, src, unit, zone, size, dst - src);
    }
  }

  lemma UnitPlace(p: Moves, dst: int, src: int, unit: nat, zone: iset<int>, size: nat, k: nat)
    requires k < unit && UnitMoves(dst, src, unit) <= p && Into(p, zone)
    requires forall m :: m in p ==> 0 <= m.dst < size && 0 <= m.src < size
    ensures 0 <= dst + k < size && 0 <= src + k < size && dst + k in zone && src + k !in zone
  {
    assert Move(dst + k, src + k) in UnitMoves(dst, src, unit);
  }

  method CopyAt(j: Job, mem: array<bv8>, base: nat, kv: nat, layer: nat, blk: nat, i: nat) returns (ghost p: Moves)
    requires Ready(j) && Placed(j, mem.Length)
    requires j.skip <= blk < |j.ids| && GoodId(j, blk) && kv < j.d.kv && layer < j.d.nl && i < BlockUnits(j)
    requires blk / j.perObject < |j.objs| && base == j.objs[blk / j.perObject]
    modifies mem
    ensures Copied(old(mem[..]), mem[..], p) && p <= JobMoves(j)
    ensures forall b: nat :: b < j.unit ==> Has(j, p, SiteOf(j, kv, layer, blk, i, b))
  {
    var dst, src := UnitDst(j, base, kv, layer, blk, i), UnitSrc(j, base, kv, layer, blk, i);
    p := UnitMoves(dst, src, j.unit);
    UnitMovesOfJob(j, kv, layer, blk, i);
    MovesInto(j, mem.Length);
    UnitApart(JobMoves(j), dst, src, j.unit, Zone(j), mem.Length);
    CopyUnit(mem, dst, src, j.unit);
  }

  /** Every byte of the units up to i of a lane has been moved. */
  ghost predicate LaneDone(j: Job, g: Grid, it: Item, lane: nat, i: nat, p: Moves)
    requires Ready(j)
  {
    forall k: nat, b: nat :: InLane(g, it.tile, lane, k) && k < i && b < j.unit ==> Has(j, p, SiteOf(j, it.kv, it.layer, it.blk, k, b))
  }

  lemma LaneStep(j: Job, g: Grid, it: Item, lane: nat, i: nat, p: Moves, q: Moves)
    requires Ready(j) && LaneDone(j, g, it, lane, i, p) && InLane(g, it.tile, lane, i)
    requires forall b: nat :: b < j.unit ==> Has(j, q, SiteOf(j, it.kv, it.layer, it.blk, i, b))
    ensures LaneDone(j, g, it, lane, i + WORK_GROUP, p + q)
  {
    forall k: nat, b: nat | InLane(g, it.tile, lane, k) && k < i + WORK_GROUP && b < j.unit
      ensures Has(j, p + q, SiteOf(j, it.kv, it.layer, it.blk, k, b))
    {
      if k < i {
        assert Has(j, p, SiteOf(j, it.kv, it.layer, it.blk, k, b));
      } else {
        assert k == i;
        assert Has(j, q, SiteOf(j, it.kv, it.layer, it.blk, k, b));
      }
    }
  }

  lemma OnStride(g: Grid, tile: nat, lane: nat, turn: nat)
    requires lane < WORK_GROUP && tile * g.tileUnits + lane + 256 * turn < TileEnd(g, tile)
    ensures InLane(g, tile, lane, tile * g.tileUnits + lane + 256 * turn)
  {
    Digits(turn, lane, WORK_GROUP);
  }

  /** One lane strides through its tile. */
  method Stride(j: Job, g: Grid, it: Item, base: nat, mem: array<bv8>, lane: nat) returns (ghost p: Moves)
    requires Ready(j) && Placed(j, mem.Length) && g.blockUnits == BlockUnits(j) && lane < WORK_GROUP
    requires j.skip <= it.blk < |j.ids| && GoodId(j, it.blk) && it.kv < j.d.kv && it.layer < j.d.nl
    requires it.blk / j.perObject < |j.objs| && base == j.objs[it.blk / j.perObject]
    modifies mem
    ensures Copied(old(mem[..]), mem[..], p) && p <= JobMoves(j)
    ensures LaneDone(j, g, it, lane, TileEnd(g, it.tile), p)
  {
    MovesInto(j, mem.Length);
    p := iset{};
    CopiedNone(mem[..]);
    var from := Mul(it.tile, g.tileUnits);
    var i := from + lane;
    ghost var turn: nat := 0;
    while i < TileEnd(g, it.tile)
      invariant i == from + lane + 256 * turn
      invariant Copied(old(mem[..]), mem[..], p) && p <= JobMoves(j)
      invariant LaneDone(j, g, it, lane, i, p)
      decreases TileEnd(g, it.tile) - i
    {
      ghost var before := mem[..];
      ghost var q := CopyAt(j, mem, base, it.kv, it.layer, it.blk, i);
      CopiedThen(old(mem[..]), before, mem[..], p, q, Zone(j));
      OnStride(g, it.tile, lane, turn);
      LaneStep(j, g, it, lane, i, p, q);
      p := p + q;
      turn := turn + 1;
      i := i + WORK_GROUP;
    }
  }

  /** The work of one lane of one group: trap on a bad id, else stride through the tile. */
  method RunLane(j: Job, at: Launch, batch: seq<nat>, mem: array<bv8>, group: nat, lane: nat) returns (trapped: bool, ghost p: Moves)
    requires Ready(j) && LaunchOk(j, at) && batch == Batch(j, at) && Placed(j, mem.Length)
    requires group < Groups(GridFor(j, at)) && lane < WORK_GROUP
    modifies mem
    ensures Copied(old(mem[..]), mem[..], p) && p <= JobMoves(j)
    ensures var it := ItemOf(GridFor(j, at), group);
            && it.blk < |j.ids|
            && trapped == !GoodId(j, it.blk)
            && (!trapped ==> LaneDone(j, GridFor(j, at), it, lane, TileEnd(GridFor(j, at), it.tile), p))
  {
    var g := GridFor(j, at);
    var it := ItemOf(g, group);
    GroupItem(g, group);
    trapped := !GoodId(j, it.blk);
    if trapped {
      p := iset{};
      CopiedNone(mem[..]);
    } else {
      BatchObject(j, at, it.blk);
      p := Stride(j, g, it, batch[it.blk / j.perObject - at.start], mem, lane);
    }
  }

  // ------------------------------------------------------------- one launch

  /** Work items of a launch: every lane of every group. */
  function Pairs(groups: nat, lanes: nat): (r: set<(nat, nat)>)
    ensures forall x: nat, y: nat :: (x, y) in r <==> x < groups && y < lanes
  {
    if groups == 0 then {} else Pairs(groups - 1, lanes) + Row(groups - 1, lanes)
  }

  function Row(group: nat, lanes: nat): (r: set<(nat, nat)>)
    ensures forall x: nat, y: nat :: (x, y) in r <==> x == group && y < lanes
  {
    if lanes == 0 then {} else Row(group, lanes - 1) + {(group, lanes - 1)}
  }

  ghost predicate ItemDone(j: Job, at: Launch, group: nat, lane: nat, p: Moves)
    requires Ready(j) && LaunchOk(j, at)
  {
    var it := ItemOf(GridFor(j, at), group);
    it.blk < |j.ids| && GoodId(j, it.blk) && LaneDone(j, GridFor(j, at), it, lane, TileEnd(GridFor(j, at), it.tile), p)
  }

  lemma ItemDoneMore(j: Job, at: Launch, group: nat, lane: nat, p: Moves, q: Moves)
    requires Ready(j) && LaunchOk(j, at) && ItemDone(j, at, group, lane, p) && p <= q
    ensures ItemDone(j, at, group, lane, q)
  {
    var (g, it) := (GridFor(j, at), ItemOf(GridFor(j, at), group));
    forall k: nat, b: nat | InLane(g, it.tile, lane, k) && k < TileEnd(g, it.tile) && b < j.unit
      ensures Has(j, q, SiteOf(j, it.kv, it.layer, it.blk, k, b))
    {
      assert Has(j, p, SiteOf(j, it.kv, it.layer, it.blk, k, b));
    }
  }

  /** A range of blocks is fully moved. */
  ghost predicate BlocksDone(j: Job, first: nat, end: nat, p: Moves)
    requires Ready(j) && end <= |j.ids|
  {
    && (forall blk: nat :: first <= blk < end ==> GoodId(j, blk))
    && (forall s :: InShape(j.d, s) && first <= s.blk < end ==> Has(j, p, s))
  }

  /** A site is moved by the lane that visits its unit. */
  lemma SiteDone(j: Job, at: Launch, p: Moves, s: Site)
    requires Ready(j) && LaunchOk(j, at) && InShape(j.d, s) && at.first <= s.blk < at.end
    requires forall group: nat, lane: nat :: group < Groups(GridFor(j, at)) && lane < WORK_GROUP ==> ItemDone(j, at, group, lane, p)
    ensures Has(j, p, s)
  {
    var g := GridFor(j, at);
    var i, b := ByteHasUnit(j, s);
    VisitedOnce(g, s.kv, s.layer, s.blk, i, 0, 0);
    var (group, lane) := (GroupFor(g, s.kv, s.layer, s.blk, i), LaneFor(g, i));
    VisitedOnce(g, s.kv, s.layer, s.blk, i, group, lane);
    assert Visits(g, group, lane, s.kv, s.layer, s.blk, i);
    assert ItemDone(j, at, group, lane, p);
    assert Has(j, p, SiteOf(j, s.kv, s.layer, s.blk, i, b));
  }

  lemma LaunchDone(j: Job, at: Launch, p: Moves)
    requires Ready(j) && LaunchOk(j, at)
    requires forall group: nat, lane: nat :: group < Groups(GridFor(j, at)) && lane < WORK_GROUP ==> ItemDone(j, at, group, lane, p)
    ensures BlocksDone(j, at.first, at.end, p)
  {
    forall s | InShape(j.d, s) && at.first <= s.blk < at.end
      ensures Has(j, p, s)
    {
      SiteDone(j, at, p, s);
    }
    forall blk: nat | at.first <= blk < at.end
      ensures GoodId(j, blk)
    {
      var s := Site(0, 0, blk, 0, 0, 0);
      assert Has(j, p, s);
    }
  }

  /** The lanes of a launch in any order; the first bad id stops everything. */
  method Submit(j: Job, at: Launch, mem: array<bv8>) returns (trapped: bool, ghost p: Moves)
    requires Ready(j) && LaunchOk(j, at) && Placed(j, mem.Length)
    modifies mem
    ensures Copied(old(mem[..]), mem[..], p) && p <= JobMoves(j)
    ensures trapped ==> exists blk: nat :: at.first <= blk < at.end && !GoodId(j, blk)
    ensures !trapped ==> BlocksDone(j, at.first, at.end, p)
  {
    var g := GridFor(j, at);
    var batch := Batch(j, at);
    var todo := Pairs(Groups(g), WORK_GROUP);
    p := iset{};
    CopiedNone(mem[..]);
    MovesInto(j, mem.Length);
    while todo != {}
      invariant Copied(old(mem[..]), mem[..], p) && p <= JobMoves(j)
      invariant forall x: nat, y: nat :: (x, y) in todo ==> x < Groups(g) && y < WORK_GROUP
      invariant forall x: nat, y: nat :: x < Groups(g) && y < WORK_GROUP && (x, y) !in todo ==> ItemDone(j, at, x, y, p)
      decreases |todo|
    {
      var w :| w in todo;
      ghost var before := mem[..];
      assert w == (w.0, w.1);
      ghost var q;
      trapped, q := RunLane(j, at, batch, mem, w.0, w.1);
      CopiedThen(old(mem[..]), before, mem[..], p, q, Zone(j));
      if trapped {
        GroupItem(g, w.0);
        p := p + q;
        return;
      }
      ItemsMore(j, at, Groups(g), todo, p, q, w);
      p := p + q;
      todo := todo - {w};
    }
    LaunchDone(j, at, p);
    trapped := false;
  }

  lemma ItemsMore(j: Job, at: Launch, groups: nat, todo: set<(nat, nat)>, p: Moves, q: Moves, w: (nat, nat))
    requires Ready(j) && LaunchOk(j, at)
    requires forall x: nat, y: nat :: x < groups && y < WORK_GROUP && (x, y) !in todo ==> ItemDone(j, at, x, y, p)
    requires ItemDone(j, at, w.0, w.1, q)
    ensures forall x: nat, y: nat :: x < groups && y < WORK_GROUP && (x, y) !in todo - {w} ==> ItemDone(j, at, x, y, p + q)
  {
    forall x: nat, y: nat | x < groups && y < WORK_GROUP && (x, y) !in todo - {w}
      ensures ItemDone(j, at, x, y, p + q)
    {
      if (x, y) in todo {
        ItemDoneMore(j, at, x, y, q, p + q);
      } else {
        ItemDoneMore(j, at, x, y, p, p + q);
      }
    }
  }
}
