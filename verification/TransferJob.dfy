/**
 One block transfer: its arguments, the byte moves it stands for, and the unit
 arithmetic of the kernel tied to them.
 */
module TransferJob {
  import opened Radix
  import opened KvFormat
  import opened TransferMap
  import opened ByteMoves

  const OBJECTS_PER_LAUNCH := 4
  const TILE_BYTES := 16384

  /** Pointers are addresses in one flat memory; unit is the width of one copy. */
  datatype Job = Job(d: Shape, f: Format, unit: nat, perObject: nat, ptrs: seq<nat>, objs: seq<nat>, ids: seq<int>, skip: nat, toEngine: bool)

  predicate UnitOk(d: Shape, f: Format, unit: nat)
    requires Positive(d)
  {
    && (unit == 1 || unit == 2 || unit == 4 || unit == 16)
    && HeadBytes(d) % unit == 0
    && (f == NL_X_NB_BSV_BSS ==> unit == 1 || unit == 4)
  }

  /** The widest copy the head size allows; scale columns are never split. */
  function UnitFor(d: Shape, f: Format): (unit: nat)
    requires Positive(d)
    ensures UnitOk(d, f, unit) && forall v: nat :: UnitOk(d, f, v) ==> v <= unit
  {
    var h := HeadBytes(d);
    if f == NL_X_NB_BSV_BSS then (if h % 4 == 0 then 4 else 1)
    else if h % 16 == 0 then 16
    else if h % 4 == 0 then 4
    else if h % 2 == 0 then 2
    else 1
  }

  /** What the argument checks establish. */
  predicate Ready(j: Job)
  {
    && Positive(j.d) && Supported(j.d, j.f) && InnerOk(j.d, LayoutFor(j.d, j.f)) && j.d.kv > 0
    && UnitOk(j.d, j.f, j.unit)
    && j.perObject > 0
    && |j.ids| <= |j.objs| * j.perObject
    && |j.ptrs| == PointerCount(j.d, LayoutFor(j.d, j.f))
  }

  function LayoutOf(j: Job): Layout
    requires Ready(j)
  {
    LayoutFor(j.d, j.f)
  }

  predicate GoodId(j: Job, blk: nat)
    requires blk < |j.ids|
  {
    0 <= j.ids[blk] < j.d.nb
  }

  predicate InJob(j: Job, s: Site)
    requires Ready(j)
  {
    InShape(j.d, s) && j.skip <= s.blk < |j.ids| && GoodId(j, s.blk)
  }

  lemma ObjectExists(j: Job, blk: nat)
    requires Ready(j) && blk < |j.ids|
    ensures blk / j.perObject < |j.objs|
  {
    HighDigit(blk, |j.objs|, j.perObject);
  }

  function EngineAddress(j: Job, s: Site): nat
    requires Ready(j) && InJob(j, s)
  {
    EngineInBounds(j.d, LayoutOf(j), s, j.ids[s.blk]);
    j.ptrs[PointerIndex(LayoutOf(j), s)] + EngineOffset(j.d, LayoutOf(j), s, j.ids[s.blk])
  }

  function ObjectAddress(j: Job, s: Site): nat
    requires Ready(j) && InJob(j, s)
  {
    ObjectExists(j, s.blk);
    j.objs[ObjectIndex(s, j.perObject)] + ObjectOffset(j.d, s, j.perObject)
  }

  function MoveOf(j: Job, s: Site): Move
    requires Ready(j) && InJob(j, s)
  {
    if j.toEngine then Move(EngineAddress(j, s), ObjectAddress(j, s)) else Move(ObjectAddress(j, s), EngineAddress(j, s))
  }

  ghost predicate IsMove(j: Job, m: Move)
    requires Ready(j)
  {
    exists s :: InJob(j, s) && m == MoveOf(j, s)
  }

  /** The transfer as a set of byte moves: one per byte of every block from skip on. */
  ghost function JobMoves(j: Job): Moves
    requires Ready(j)
  {
    iset m | IsMove(j, m)
  }

  // ----------------------------------------------------------------- memory

  predicate Owns(base: nat, span: nat, a: int)
  {
    base <= a < base + span
  }

  ghost predicate InSome(bases: seq<nat>, span: nat, a: int)
  {
    exists i :: 0 <= i < |bases| && Owns(bases[i], span, a)
  }

  ghost predicate Apart(x: nat, xs: nat, y: nat, ys: nat)
  {
    x + xs <= y || y + ys <= x
  }

  /** Every region lies in memory and no paged region meets an object. */
  ghost predicate Placed(j: Job, size: nat)
    requires Ready(j)
  {
    var es, os := EngineSpan(j.d, LayoutOf(j)), ObjectSpan(j.d, j.perObject);
    && (forall i :: 0 <= i < |j.ptrs| ==> j.ptrs[i] + es <= size)
    && (forall i :: 0 <= i < |j.objs| ==> j.objs[i] + os <= size)
    && (forall i, k :: 0 <= i < |j.ptrs| && 0 <= k < |j.objs| ==> Apart(j.ptrs[i], es, j.objs[k], os))
  }

  ghost predicate Disjoint(bases: seq<nat>, span: nat)
  {
    forall i, k :: 0 <= i < k < |bases| ==> Apart(bases[i], span, bases[k], span)
  }

  /** The memory a transfer may write. */
  ghost function Zone(j: Job): iset<int>
    requires Ready(j)
  {
    if j.toEngine then iset a | InSome(j.ptrs, EngineSpan(j.d, LayoutOf(j)), a)
    else iset a | InSome(j.objs, ObjectSpan(j.d, j.perObject), a)
  }

  lemma Addresses(j: Job, s: Site, size: nat)
    requires Ready(j) && InJob(j, s) && Placed(j, size)
    ensures 0 <= EngineAddress(j, s) < size && 0 <= ObjectAddress(j, s) < size
    ensures InSome(j.ptrs, EngineSpan(j.d, LayoutOf(j)), EngineAddress(j, s))
    ensures InSome(j.objs, ObjectSpan(j.d, j.perObject), ObjectAddress(j, s))
  {
    var l := LayoutOf(j);
    EngineInBounds(j.d, l, s, j.ids[s.blk]);
    ObjectInBounds(j.d, s, j.perObject);
    ObjectExists(j, s.blk);
    assert Owns(j.ptrs[PointerIndex(l, s)], EngineSpan(j.d, l), EngineAddress(j, s));
    assert Owns(j.objs[ObjectIndex(s, j.perObject)], ObjectSpan(j.d, j.perObject), ObjectAddress(j, s));
  }

  lemma NoMix(j: Job, size: nat, a: int)
    requires Ready(j) && Placed(j, size)
    requires InSome(j.ptrs, EngineSpan(j.d, LayoutOf(j)), a)
    ensures !InSome(j.objs, ObjectSpan(j.d, j.perObject), a)
  {
    var i :| 0 <= i < |j.ptrs| && Owns(j.ptrs[i], EngineSpan(j.d, LayoutOf(j)), a);
    forall k | 0 <= k < |j.objs|
      ensures !Owns(j.objs[k], ObjectSpan(j.d, j.perObject), a)
    {
      assert Apart(j.ptrs[i], EngineSpan(j.d, LayoutOf(j)), j.objs[k], ObjectSpan(j.d, j.perObject));
    }
  }

  /** A move writes inside the zone, reads outside it, and stays in memory. */
  lemma MovesInto(j: Job, size: nat)
    requires Ready(j) && Placed(j, size)
    ensures Into(JobMoves(j), Zone(j))
    ensures forall m :: m in JobMoves(j) ==> 0 <= m.dst < size && 0 <= m.src < size
  {
    forall m | m in JobMoves(j)
      ensures m.dst in Zone(j) && m.src !in Zone(j) && 0 <= m.dst < size && 0 <= m.src < size
    {
      var s :| InJob(j, s) && m == MoveOf(j, s);
      Addresses(j, s, size);
      NoMix(j, size, EngineAddress(j, s));
    }
  }

  // ------------------------------------------------------- units and bytes

  function HeadUnits(j: Job): (r: nat)
    requires Ready(j)
    ensures r > 0 && r * j.unit == HeadBytes(j.d)
  {
    Split(HeadBytes(j.d), j.unit);
    HeadBytes(j.d) / j.unit
  }

  function RowUnits(j: Job): (r: nat)
    requires Ready(j)
    ensures r > 0 && r == j.d.nh * HeadUnits(j)
  {
    MulPositive(j.d.nh, HeadUnits(j));
    j.d.nh * HeadUnits(j)
  }

  function BlockUnits(j: Job): (r: nat)
    requires Ready(j)
    ensures r > 0 && r == j.d.bs * RowUnits(j)
  {
    MulPositive(j.d.bs, RowUnits(j));
    j.d.bs * RowUnits(j)
  }

  /** Where unit i of a block goes inside the engine's block: the kernel's division arithmetic. */
  function EngineUnit(j: Job, i: nat): int
    requires Ready(j)
  {
    var (hu, ru) := (HeadUnits(j), RowUnits(j));
    if LayoutOf(j).hnd then
      (i % ru / hu * j.d.bs + i / ru) * hu + i % hu
    else if LayoutOf(j).blockedScale then
      var valueUnits := ru - 4 / j.unit;
      if i % ru < valueUnits then i / ru * valueUnits + i % ru
      else j.d.bs * valueUnits + i / ru * (4 / j.unit) + i % ru - valueUnits
    else i
  }

  /** The site of byte b of unit i. */
  function SiteOf(j: Job, kv: nat, layer: nat, blk: nat, i: nat, b: nat): (s: Site)
    requires Ready(j)
  {
    Site(kv, layer, blk, i / RowUnits(j), i % RowUnits(j) / HeadUnits(j), Mul(i % HeadUnits(j), j.unit) + b)
  }

  /** Reading a unit index apart: token, head and unit within the head. */
  lemma UnitDigits(j: Job, i: nat)
    requires Ready(j) && i < BlockUnits(j)
    ensures var (hu, ru) := (HeadUnits(j), RowUnits(j));
            && i / ru < j.d.bs && i % ru / hu < j.d.nh && i % hu < hu
            && i == (i / ru * j.d.nh + i % ru / hu) * hu + i % hu
            && i % ru == i % ru / hu * hu + i % hu
  {
    ThreeDigits(i, j.d.bs, j.d.nh, HeadUnits(j), RowUnits(j));
  }

  lemma UnitInShape(j: Job, kv: nat, layer: nat, blk: nat, i: nat, b: nat)
    requires Ready(j) && i < BlockUnits(j) && b < j.unit && kv < j.d.kv && layer < j.d.nl
    ensures InShape(j.d, SiteOf(j, kv, layer, blk, i, b))
  {
    UnitDigits(j, i);
    Less(i % HeadUnits(j), b, HeadUnits(j), j.unit);
  }

  /** Scaling a position in units by the unit gives the position in bytes. */
  lemma Scale(row: nat, hu: nat, x: nat, unit: nat, b: nat, h: nat)
    requires hu * unit == h
    ensures (row * hu + x) * unit + b == row * h + (x * unit + b)
  {
    Distribute(row * hu, x, unit);
    Assoc(row, hu, unit);
  }

  lemma PlainUnit(j: Job, kv: nat, layer: nat, blk: nat, i: nat, b: nat)
    requires Ready(j) && i < BlockUnits(j) && b < j.unit && kv < j.d.kv && layer < j.d.nl
    requires InShape(j.d, SiteOf(j, kv, layer, blk, i, b))
    ensures i * j.unit + b == TokenMajor(j.d, SiteOf(j, kv, layer, blk, i, b))
  {
    UnitDigits(j, i);
    var (hu, ru) := (HeadUnits(j), RowUnits(j));
    Scale(i / ru * j.d.nh + i % ru / hu, hu, i % hu, j.unit, b, HeadBytes(j.d));
  }

  lemma HeadUnit(j: Job, kv: nat, layer: nat, blk: nat, i: nat, b: nat)
    requires Ready(j) && i < BlockUnits(j) && b < j.unit && kv < j.d.kv && layer < j.d.nl && LayoutOf(j).hnd
    requires InShape(j.d, SiteOf(j, kv, layer, blk, i, b))
    ensures EngineUnit(j, i) * j.unit + b == HeadMajorAt(j.d, SiteOf(j, kv, layer, blk, i, b))
  {
    UnitDigits(j, i);
    var (hu, ru) := (HeadUnits(j), RowUnits(j));
    Scale(i % ru / hu * j.d.bs + i / ru, hu, i % hu, j.unit, b, HeadBytes(j.d));
  }

  lemma ScaleUnit(j: Job, kv: nat, layer: nat, blk: nat, i: nat, b: nat)
    requires Ready(j) && i < BlockUnits(j) && b < j.unit && kv < j.d.kv && layer < j.d.nl && LayoutOf(j).blockedScale
    requires InShape(j.d, SiteOf(j, kv, layer, blk, i, b))
    ensures EngineUnit(j, i) * j.unit + b == ValuesThenScales(j.d, SiteOf(j, kv, layer, blk, i, b))
  {
    UnitDigits(j, i);
    var (hu, ru, token, column) := (HeadUnits(j), RowUnits(j), i / RowUnits(j), i % RowUnits(j));
    var (sc, vu, values) := (4 / j.unit, ru - 4 / j.unit, HeadBytes(j.d) - 4);
    assert hu == ru && i % hu == column && sc * j.unit == 4;
    Distribute(ru, -sc, j.unit);
    assert vu * j.unit == values;
    if column < vu {
      Less(column, b, vu, j.unit);
      Scale(token, vu, column, j.unit, b, values);
    } else {
      Monotone(vu, column, j.unit);
      var y := column - vu;
      Distribute(vu, y, j.unit);
      Scale(token, sc, y, j.unit, b, 4);
      Distribute(j.d.bs * vu, token * sc + y, j.unit);
      Assoc(j.d.bs, vu, j.unit);
    }
  }

  /** Copying whole units moves exactly the bytes a byte-by-byte copy would, on both sides. */
  lemma UnitIsBytes(j: Job, kv: nat, layer: nat, blk: nat, i: nat, b: nat)
    requires Ready(j) && i < BlockUnits(j) && b < j.unit && kv < j.d.kv && layer < j.d.nl
    ensures var s := SiteOf(j, kv, layer, blk, i, b);
            && InShape(j.d, s)
            && EngineUnit(j, i) * j.unit + b == InBlock(j.d, LayoutOf(j), s)
            && i * j.unit + b == TokenMajor(j.d, s)
  {
    UnitInShape(j, kv, layer, blk, i, b);
    PlainUnit(j, kv, layer, blk, i, b);
    if LayoutOf(j).hnd {
      HeadUnit(j, kv, layer, blk, i, b);
    } else if LayoutOf(j).blockedScale {
      ScaleUnit(j, kv, layer, blk, i, b);
    }
  }

  /** Every byte of a block belongs to one unit. */
  lemma ByteHasUnit(j: Job, s: Site) returns (i: nat, b: nat)
    requires Ready(j) && InShape(j.d, s)
    ensures i < BlockUnits(j) && b < j.unit && SiteOf(j, s.kv, s.layer, s.blk, i, b) == s
  {
    var (hu, ru) := (HeadUnits(j), RowUnits(j));
    var row := s.token * j.d.nh + s.head;
    Split(s.x, j.unit);
    HighDigit(s.x, hu, j.unit);
    b := s.x % j.unit;
    var x := s.x / j.unit;
    i := Mul(row, hu) + x;
    Digits(row, x, hu);
    Less(s.head, x, j.d.nh, hu);
    Less(s.token, s.head, j.d.bs, j.d.nh);
    Less(row, x, j.d.bs * j.d.nh, hu);
    Assoc(j.d.bs, j.d.nh, hu);
    Distribute(s.token * j.d.nh, s.head, hu);
    Assoc(s.token, j.d.nh, hu);
    assert i == s.token * ru + (s.head * hu + x);
    Digits(s.token, s.head * hu + x, ru);
    Digits(s.head, x, hu);
  }
}
