/**
 Block KV transfer between paged engine memory and LMCache objects: the entry
 point, and what moving out and back again preserves.
 */
module Transfer {
  import opened Radix
  import opened KvFormat
  import opened TransferMap
  import opened ByteMoves
  import opened TransferJob
  import opened TransferBytes
  import opened TransferKernel

  // ------------------------------------------------------------- launch loop

  /** Flat blocks held by the objects before start. */
  function BlocksBefore(j: Job, start: nat): nat
  {
    Min(|j.ids|, Mul(Min(start, |j.objs|), j.perObject))
  }

  lemma LaunchExtends(j: Job, start: nat, p: Moves, q: Moves)
    requires Ready(j) && start < |j.objs|
    requires BlocksDone(j, j.skip, BlocksBefore(j, start), p)
    requires var at := LaunchAt(j, start); at.first < at.end ==> BlocksDone(j, at.first, at.end, q)
    ensures BlocksDone(j, j.skip, BlocksBefore(j, start + OBJECTS_PER_LAUNCH), p + q)
  {
    var (at, before, upto) := (LaunchAt(j, start), BlocksBefore(j, start), BlocksBefore(j, start + OBJECTS_PER_LAUNCH));
    Monotone(start, Min(start + OBJECTS_PER_LAUNCH, |j.objs|), j.perObject);
    assert upto == at.end;
    forall s | InShape(j.d, s) && j.skip <= s.blk < upto
      ensures Has(j, p + q, s)
    {
      if s.blk < before {
        assert Has(j, p, s);
      } else {
        assert Has(j, q, s);
      }
    }
    forall blk: nat | j.skip <= blk < upto
      ensures GoodId(j, blk)
    {
      assert blk < before || at.first <= blk < at.end;
    }
  }

  lemma AllDone(j: Job, p: Moves)
    requires Ready(j) && BlocksDone(j, j.skip, |j.ids|, p) && p <= JobMoves(j)
    ensures p == JobMoves(j)
  {
    forall m | m in JobMoves(j)
      ensures m in p
    {
      var s :| InJob(j, s) && m == MoveOf(j, s);
      assert Has(j, p, s);
    }
  }

  ghost predicate BadId(j: Job)
  {
    exists blk: nat :: j.skip <= blk < |j.ids| && !GoodId(j, blk)
  }

  /** After the launches for the objects before start. */
  ghost predicate Launched(j: Job, start: nat, m0: seq<bv8>, m: seq<bv8>, p: Moves)
    requires Ready(j)
  {
    Copied(m0, m, p) && p <= JobMoves(j) && BlocksDone(j, j.skip, BlocksBefore(j, start), p)
  }

  /** One launch, unless it has no block. */
  method LaunchOne(j: Job, start: nat, mem: array<bv8>, ghost m0: seq<bv8>, ghost p: Moves) returns (trapped: bool, ghost p1: Moves)
    requires Ready(j) && Placed(j, mem.Length) && start < |j.objs| && Into(JobMoves(j), Zone(j))
    requires Launched(j, start, m0, mem[..], p)
    modifies mem
    ensures Copied(m0, mem[..], p1) && p1 <= JobMoves(j)
    ensures if trapped then BadId(j) else Launched(j, start + OBJECTS_PER_LAUNCH, m0, mem[..], p1)
  {
    var at := LaunchAt(j, start);
    ghost var before := mem[..];
    ghost var q: Moves := iset{};
    CopiedNone(before);
    trapped := false;
    if at.first < at.end {
      trapped, q := Submit(j, at, mem);
    }
    CopiedThen(m0, before, mem[..], p, q, Zone(j));
    p1 := p + q;
    if !trapped {
      LaunchExtends(j, start, p, q);
    }
  }

  /** All launches in turn: exactly the moves of the transfer, or a trap when an id is bad. */
  method LaunchBlocks(j: Job, mem: array<bv8>) returns (trapped: bool, ghost p: Moves)
    requires Ready(j) && Placed(j, mem.Length)
    modifies mem
    ensures Copied(old(mem[..]), mem[..], p) && p <= JobMoves(j)
    ensures trapped <==> BadId(j)
    ensures !trapped ==> p == JobMoves(j)
  {
    MovesInto(j, mem.Length);
    p := iset{};
    CopiedNone(mem[..]);
    trapped := false;
    var start: nat := 0;
    while start < |j.objs|
      invariant Launched(j, start, old(mem[..]), mem[..], p)
    {
      trapped, p := LaunchOne(j, start, mem, old(mem[..]), p);
      if trapped {
        return;
      }
      start := start + OBJECTS_PER_LAUNCH;
    }
    AllDone(j, p);
  }

  // ------------------------------------------------------------- entry point

  datatype Direction = H2D | D2H

  datatype Outcome = Done | Trapped | BadShape | BadChunk | BadSkip | BadLayout(error: LayoutError) | BadPointers | NoRoom | NullObject

  /** What the argument checks let through. */
  predicate Accepted(d: Shape, f: Format, chunk: int, ptrs: seq<nat>, objs: seq<nat>, ids: seq<int>, skip: int)
  {
    && Positive(d)
    && chunk > 0 && chunk % d.bs == 0
    && skip >= 0
    && Supported(d, f)
    && |ptrs| == PointerCount(d, LayoutFor(d, f))
    && |ids| <= |objs| * (chunk / d.bs)
    && (forall i :: 0 <= i < |objs| ==> objs[i] != 0)
  }

  function JobFor(d: Shape, f: Format, chunk: int, ptrs: seq<nat>, objs: seq<nat>, ids: seq<int>, skip: int, to: Direction): (j: Job)
    requires Accepted(d, f, chunk, ptrs, objs, ids, skip)
    ensures Ready(j)
  {
    LayoutInner(d, f);
    WholeBlocks(chunk, d.bs);
    Job(d, f, UnitFor(d, f), chunk / d.bs, ptrs, objs, ids, skip, to == H2D)
  }

  lemma WholeBlocks(chunk: nat, bs: nat)
    requires chunk > 0 && bs > 0 && chunk % bs == 0
    ensures chunk / bs > 0 && chunk / bs * bs == chunk
  {
    Split(chunk, bs);
  }

  /** Every region lies in memory and no paged region meets an object. */
  ghost predicate Separate(d: Shape, f: Format, chunk: nat, ptrs: seq<nat>, objs: seq<nat>, size: nat)
    requires Positive(d) && d.kv > 0
  {
    var es, os := EngineSpan(d, LayoutFor(d, f)), ObjectBytes(d, chunk);
    && (forall i :: 0 <= i < |ptrs| ==> ptrs[i] + es <= size)
    && (forall i :: 0 <= i < |objs| ==> objs[i] + os <= size)
    && (forall i, k :: 0 <= i < |ptrs| && 0 <= k < |objs| ==> Apart(ptrs[i], es, objs[k], os))
  }

  lemma SeparatePlaced(d: Shape, f: Format, chunk: nat, ptrs: seq<nat>, objs: seq<nat>, ids: seq<int>, skip: int, to: Direction, size: nat)
    requires Accepted(d, f, chunk, ptrs, objs, ids, skip) && d.kv > 0 && Separate(d, f, chunk, ptrs, objs, size)
    ensures Placed(JobFor(d, f, chunk, ptrs, objs, ids, skip, to), size)
    ensures ObjectSpan(d, chunk / d.bs) == ObjectBytes(d, chunk)
  {
    WholeBlocks(chunk, d.bs);
    ObjectBytesIs(d, chunk / d.bs, chunk);
  }

  /** Loading writes the paged buffers only, storing the objects only. */
  ghost predicate FrameKept(d: Shape, f: Format, chunk: nat, ptrs: seq<nat>, objs: seq<nat>, to: Direction, before: seq<bv8>, after: seq<bv8>)
    requires Positive(d) && d.kv > 0
  {
    && |after| == |before|
    && (to == H2D ==> forall a: nat :: a < |before| && !InSome(ptrs, EngineSpan(d, LayoutFor(d, f)), a) ==> after[a] == before[a])
    && (to == D2H ==> forall a: nat :: a < |before| && !InSome(objs, ObjectBytes(d, chunk), a) ==> after[a] == before[a])
  }

  /** Storing needs objects that do not overlap; loading needs buffers that do not overlap and no id twice. */
  ghost predicate Unshared(d: Shape, f: Format, chunk: nat, ptrs: seq<nat>, objs: seq<nat>, ids: seq<int>, skip: int, to: Direction)
    requires Positive(d) && d.kv > 0
  {
    match to
    case D2H => Disjoint(objs, ObjectBytes(d, chunk))
    case H2D => Disjoint(ptrs, EngineSpan(d, LayoutFor(d, f))) && forall m: nat, n: nat :: skip <= m < n < |ids| ==> ids[m] != ids[n]
  }

  /** Storing leaves the old engine byte in the object, loading the old object byte in the engine. */
  ghost predicate ByteMoved(d: Shape, f: Format, chunk: nat, ptrs: seq<nat>, objs: seq<nat>, ids: seq<int>, to: Direction, before: seq<bv8>, after: seq<bv8>, s: Site)
    requires Positive(d) && chunk > 0 && s.blk < |ids|
  {
    var (engine, stored) := (EngineByte(d, f, ptrs, ids[s.blk], s), ObjectByte(d, chunk, objs, s));
    && |after| == |before| && 0 <= engine < |before| && 0 <= stored < |before|
    && match to
       case D2H => after[stored] == before[engine]
       case H2D => after[engine] == before[stored]
  }

  lemma KeepsFrame(d: Shape, f: Format, chunk: nat, ptrs: seq<nat>, objs: seq<nat>, ids: seq<int>, skip: int, to: Direction, before: seq<bv8>, after: seq<bv8>, p: Moves)
    requires Accepted(d, f, chunk, ptrs, objs, ids, skip) && d.kv > 0 && Separate(d, f, chunk, ptrs, objs, |before|)
    requires p <= JobMoves(JobFor(d, f, chunk, ptrs, objs, ids, skip, to)) && Copied(before, after, p)
    ensures FrameKept(d, f, chunk, ptrs, objs, to, before, after)
  {
    var j := JobFor(d, f, chunk, ptrs, objs, ids, skip, to);
    SeparatePlaced(d, f, chunk, ptrs, objs, ids, skip, to, |before|);
    MovesInto(j, |before|);
    forall a: nat | a < |before| && a !in Zone(j)
      ensures after[a] == before[a]
    {
      assert !Hit(p, a);
    }
  }

  /** A byte of the transfer arrives. */
  lemma MovesByte(j: Job, chunk: nat, before: seq<bv8>, after: seq<bv8>, s: Site)
    requires Ready(j) && Placed(j, |before|) && InJob(j, s) && chunk == j.perObject * j.d.bs > 0
    requires Copied(before, after, JobMoves(j)) && DistinctTargets(JobMoves(j))
    ensures ByteMoved(j.d, j.f, chunk, j.ptrs, j.objs, j.ids, if j.toEngine then H2D else D2H, before, after, s)
  {
    EngineByteIs(j, s);
    ObjectByteIs(j, s, chunk);
    Addresses(j, s, |before|);
    assert MoveOf(j, s) in JobMoves(j);
    CopiedExactly(before, after, JobMoves(j), MoveOf(j, s));
  }

  /** What a finished call did to one byte of a block that it was asked to move. */
  lemma MovesAll(d: Shape, f: Format, chunk: nat, ptrs: seq<nat>, objs: seq<nat>, ids: seq<int>, skip: int, to: Direction, before: seq<bv8>, after: seq<bv8>, s: Site)
    requires Accepted(d, f, chunk, ptrs, objs, ids, skip) && d.kv > 0 && Separate(d, f, chunk, ptrs, objs, |before|)
    requires Unshared(d, f, chunk, ptrs, objs, ids, skip, to)
    requires Copied(before, after, JobMoves(JobFor(d, f, chunk, ptrs, objs, ids, skip, to)))
    requires InShape(d, s) && skip <= s.blk < |ids| && 0 <= ids[s.blk] < d.nb
    ensures ByteMoved(d, f, chunk, ptrs, objs, ids, to, before, after, s)
  {
    var j := JobFor(d, f, chunk, ptrs, objs, ids, skip, to);
    SeparatePlaced(d, f, chunk, ptrs, objs, ids, skip, to, |before|);
    WholeBlocks(chunk, d.bs);
    TargetsDistinct(j);
    MovesByte(j, chunk, before, after, s);
  }

  /** Every byte of every block from skip on. */
  ghost predicate BlocksMoved(d: Shape, f: Format, chunk: nat, ptrs: seq<nat>, objs: seq<nat>, ids: seq<int>, skip: int, to: Direction, before: seq<bv8>, after: seq<bv8>)
    requires Positive(d) && chunk > 0
  {
    forall s: Site :: InShape(d, s) && skip <= s.blk < |ids| ==> ByteMoved(d, f, chunk, ptrs, objs, ids, to, before, after, s)
  }

  lemma MovesBlocks(d: Shape, f: Format, chunk: nat, ptrs: seq<nat>, objs: seq<nat>, ids: seq<int>, skip: int, to: Direction, before: seq<bv8>, after: seq<bv8>)
    requires Accepted(d, f, chunk, ptrs, objs, ids, skip) && d.kv > 0 && Separate(d, f, chunk, ptrs, objs, |before|)
    requires Unshared(d, f, chunk, ptrs, objs, ids, skip, to) && !BadId(JobFor(d, f, chunk, ptrs, objs, ids, skip, to))
    requires Copied(before, after, JobMoves(JobFor(d, f, chunk, ptrs, objs, ids, skip, to)))
    ensures BlocksMoved(d, f, chunk, ptrs, objs, ids, skip, to, before, after)
  {
    forall s: Site | InShape(d, s) && skip <= s.blk < |ids|
      ensures ByteMoved(d, f, chunk, ptrs, objs, ids, to, before, after, s)
    {
      assert GoodId(JobFor(d, f, chunk, ptrs, objs, ids, skip, to), s.blk);
      MovesAll(d, f, chunk, ptrs, objs, ids, skip, to, before, after, s);
    }
  }

  /** An id the transfer reads is not a block of the engine. */
  ghost predicate SomeBadId(d: Shape, ids: seq<int>, skip: int)
  {
    exists blk: nat :: skip <= blk < |ids| && !(0 <= ids[blk] < d.nb)
  }

  lemma BadIdIs(d: Shape, f: Format, chunk: nat, ptrs: seq<nat>, objs: seq<nat>, ids: seq<int>, skip: int, to: Direction)
    requires Accepted(d, f, chunk, ptrs, objs, ids, skip)
    ensures BadId(JobFor(d, f, chunk, ptrs, objs, ids, skip, to)) <==> SomeBadId(d, ids, skip)
  {
    var j := JobFor(d, f, chunk, ptrs, objs, ids, skip, to);
    if BadId(j) {
      var blk: nat :| j.skip <= blk < |j.ids| && !GoodId(j, blk);
      assert !(0 <= ids[blk] < d.nb);
    }
    if SomeBadId(d, ids, skip) {
      var blk: nat :| skip <= blk < |ids| && !(0 <= ids[blk] < d.nb);
      assert !GoodId(j, blk);
    }
  }

  /** Tensors in the list the format's name describes. */
  function NamedPointers(d: Shape, f: Format): int
  {
    match FamilyOf(f)
    case CrossLayer => 1
    case KvList => 2 * d.nl
    case LayerTuples => 2 * d.nl
    case _ => d.nl
  }

  lemma PointerCountIs(d: Shape, f: Format)
    requires Positive(d) && Supported(d, f)
    ensures d.kv > 0 && PointerCount(d, LayoutFor(d, f)) == NamedPointers(d, f)
  {
    if FamilyOf(f) == LayerTuples {
      assert Mul(d.nl - 1, 2) == 2 * d.nl - 2;
    }
  }

  /** The outcome in the order of the checks. */
  ghost predicate Answers(r: Outcome, d: Shape, f: Format, chunk: int, ptrs: seq<nat>, objs: seq<nat>, ids: seq<int>, skip: int)
  {
    if !(d.nl > 0 && d.nb > 0 && d.bs > 0 && d.nh > 0 && d.hs > 0 && d.strideElems >= 0 && (d.elem == 1 || d.elem == 2 || d.elem == 4)) then r == BadShape
    else if chunk <= 0 || chunk % d.bs != 0 then r == BadChunk
    else if skip < 0 then r == BadSkip
    else if !Supported(d, f) then r.BadLayout? && Refused(d, f, r.error)
    else if |ptrs| != NamedPointers(d, f) then r == BadPointers
    else if |ids| > |objs| * (chunk / d.bs) then r == NoRoom
    else if exists i :: 0 <= i < |objs| && objs[i] == 0 then r == NullObject
    else if SomeBadId(d, ids, skip) then r == Trapped
    else r == Done
  }

  /**
   Refuses exactly the arguments the checks name, traps exactly on a bad id,
   writes nothing outside the side it copies to, and otherwise leaves every byte
   of every block from skip on where the arguments say.
   */
  method MultiLayerBlockTransfer(d: Shape, f: Format, chunk: int, ptrs: seq<nat>, objs: seq<nat>, ids: seq<int>, skip: int, to: Direction, mem: array<bv8>)
      returns (r: Outcome, ghost p: Moves)
    requires Accepted(d, f, chunk, ptrs, objs, ids, skip) ==> d.kv > 0 && Separate(d, f, chunk, ptrs, objs, mem.Length)
    modifies mem
    ensures Answers(r, d, f, chunk, ptrs, objs, ids, skip)
    ensures (r == Done || r == Trapped) <==> Accepted(d, f, chunk, ptrs, objs, ids, skip)
    ensures !(r == Done || r == Trapped) ==> mem[..] == old(mem[..])
    ensures Accepted(d, f, chunk, ptrs, objs, ids, skip) ==>
              && (r == Trapped <==> SomeBadId(d, ids, skip))
              && FrameKept(d, f, chunk, ptrs, objs, to, old(mem[..]), mem[..])
              && p <= JobMoves(JobFor(d, f, chunk, ptrs, objs, ids, skip, to)) && Copied(old(mem[..]), mem[..], p)
              && (r == Done ==> p == JobMoves(JobFor(d, f, chunk, ptrs, objs, ids, skip, to)))
    ensures r == Done && Unshared(d, f, chunk, ptrs, objs, ids, skip, to) ==>
              BlocksMoved(d, f, chunk, ptrs, objs, ids, skip, to, old(mem[..]), mem[..])
  {
    p := iset{};
    if !Positive(d) { return BadShape, p; }
    if !(chunk > 0 && chunk % d.bs == 0) { return BadChunk, p; }
    if skip < 0 { return BadSkip, p; }
    var layout := ResolveLayout(d, f);
    if layout.Err? { return BadLayout(layout.error), p; }
    LayoutInner(d, f);
    PointerCountIs(d, f);
    if |ptrs| != PointerCount(d, layout.layout) { return BadPointers, p; }
    WholeBlocks(chunk, d.bs);
    if |ids| > Mul(|objs|, chunk / d.bs) { return NoRoom, p; }
    if exists i :: 0 <= i < |objs| && objs[i] == 0 { return NullObject, p; }
    r, p := RunTransfer(d, f, chunk, ptrs, objs, ids, skip, to, mem);
  }

  /** Past the checks. */
  method RunTransfer(d: Shape, f: Format, chunk: int, ptrs: seq<nat>, objs: seq<nat>, ids: seq<int>, skip: int, to: Direction, mem: array<bv8>)
      returns (r: Outcome, ghost p: Moves)
    requires Accepted(d, f, chunk, ptrs, objs, ids, skip) && d.kv > 0 && Separate(d, f, chunk, ptrs, objs, mem.Length)
    modifies mem
    ensures r == Done || r == Trapped
    ensures r == Trapped <==> SomeBadId(d, ids, skip)
    ensures FrameKept(d, f, chunk, ptrs, objs, to, old(mem[..]), mem[..])
    ensures p <= JobMoves(JobFor(d, f, chunk, ptrs, objs, ids, skip, to)) && Copied(old(mem[..]), mem[..], p)
    ensures r == Done ==> p == JobMoves(JobFor(d, f, chunk, ptrs, objs, ids, skip, to))
    ensures r == Done && Unshared(d, f, chunk, ptrs, objs, ids, skip, to) ==>
              BlocksMoved(d, f, chunk, ptrs, objs, ids, skip, to, old(mem[..]), mem[..])
  {
    ghost var before := mem[..];
    SeparatePlaced(d, f, chunk, ptrs, objs, ids, skip, to, mem.Length);
    var trapped;
    trapped, p := LaunchBlocks(JobFor(d, f, chunk, ptrs, objs, ids, skip, to), mem);
    r := if trapped then Trapped else Done;
    KeepsFrame(d, f, chunk, ptrs, objs, ids, skip, to, before, mem[..], p);
    BadIdIs(d, f, chunk, ptrs, objs, ids, skip, to);
    if !trapped && Unshared(d, f, chunk, ptrs, objs, ids, skip, to) {
      MovesBlocks(d, f, chunk, ptrs, objs, ids, skip, to, before, mem[..]);
    }
  }

  // -------------------------------------------------------------- round trips

  function Reverse(j: Job): Job
  {
    j.(toEngine := !j.toEngine)
  }

  lemma ReverseMoves(j: Job)
    requires Ready(j)
    ensures Ready(Reverse(j)) && JobMoves(Reverse(j)) == Back(JobMoves(j))
  {
    var k := Reverse(j);
    forall m
      ensures m in JobMoves(k) <==> Move(m.src, m.dst) in JobMoves(j)
    {
      if m in JobMoves(k) {
        var s :| InJob(k, s) && m == MoveOf(k, s);
        assert InJob(j, s) && Move(m.src, m.dst) == MoveOf(j, s);
      }
      if Move(m.src, m.dst) in JobMoves(j) {
        var s :| InJob(j, s) && Move(m.src, m.dst) == MoveOf(j, s);
        assert InJob(k, s) && m == MoveOf(k, s);
      }
    }
  }

  /** An address inside two disjoint regions lies in one of them only. */
  lemma SameRegion(bases: seq<nat>, span: nat, i: nat, k: nat, a: nat)
    requires Disjoint(bases, span) && i < |bases| && k < |bases| && Owns(bases[i], span, a) && Owns(bases[k], span, a)
    ensures i == k
  {
  }

  lemma ObjectsDistinct(j: Job, s: Site, t: Site)
    requires Ready(j) && InJob(j, s) && InJob(j, t) && Disjoint(j.objs, ObjectSpan(j.d, j.perObject))
    requires ObjectAddress(j, s) == ObjectAddress(j, t)
    ensures s == t
  {
    ObjectInBounds(j.d, s, j.perObject);
    ObjectInBounds(j.d, t, j.perObject);
    ObjectExists(j, s.blk);
    ObjectExists(j, t.blk);
    SameRegion(j.objs, ObjectSpan(j.d, j.perObject), ObjectIndex(s, j.perObject), ObjectIndex(t, j.perObject), ObjectAddress(j, s));
    ObjectInjective(j.d, s, t, j.perObject);
  }

  ghost predicate UniqueIds(j: Job)
  {
    forall m: nat, n: nat :: j.skip <= m < n < |j.ids| ==> j.ids[m] != j.ids[n]
  }

  lemma EnginesDistinct(j: Job, s: Site, t: Site)
    requires Ready(j) && InJob(j, s) && InJob(j, t) && Disjoint(j.ptrs, EngineSpan(j.d, LayoutOf(j))) && UniqueIds(j)
    requires EngineAddress(j, s) == EngineAddress(j, t)
    ensures s == t
  {
    var l := LayoutOf(j);
    EngineInBounds(j.d, l, s, j.ids[s.blk]);
    EngineInBounds(j.d, l, t, j.ids[t.blk]);
    SameRegion(j.ptrs, EngineSpan(j.d, l), PointerIndex(l, s), PointerIndex(l, t), EngineAddress(j, s));
    EngineInjective(j.d, j.f, s, j.ids[s.blk], t, j.ids[t.blk]);
  }

  /** Destinations are distinct: objects always, engine bytes when ids are unique. */
  lemma TargetsDistinct(j: Job)
    requires Ready(j)
    requires !j.toEngine ==> Disjoint(j.objs, ObjectSpan(j.d, j.perObject))
    requires j.toEngine ==> Disjoint(j.ptrs, EngineSpan(j.d, LayoutOf(j))) && UniqueIds(j)
    ensures DistinctTargets(JobMoves(j))
  {
    forall m, n | m in JobMoves(j) && n in JobMoves(j) && m.dst == n.dst
      ensures m == n
    {
      var s :| InJob(j, s) && m == MoveOf(j, s);
      var t :| InJob(j, t) && n == MoveOf(j, t);
      if j.toEngine {
        EnginesDistinct(j, s, t);
      } else {
        ObjectsDistinct(j, s, t);
      }
    }
  }

  /** Offload then restore with the same ids: all memory but the objects is as it was, even with repeated ids. */
  lemma OffloadRestore(j: Job, before: seq<bv8>, mid: seq<bv8>, after: seq<bv8>, a: nat)
    requires Ready(j) && Placed(j, |before|) && !j.toEngine && Disjoint(j.objs, ObjectSpan(j.d, j.perObject))
    requires Ready(Reverse(j)) && Copied(before, mid, JobMoves(j)) && Copied(mid, after, JobMoves(Reverse(j)))
    requires a < |before| && !InSome(j.objs, ObjectSpan(j.d, j.perObject), a)
    ensures after[a] == before[a]
  {
    ReverseMoves(j);
    TargetsDistinct(j);
    MovesInto(j, |before|);
    RoundTrip(before, mid, after, JobMoves(j), Zone(j), a);
  }

  /** Restore with unique ids then offload: all memory but the paged buffers is as it was. */
  lemma RestoreOffload(j: Job, before: seq<bv8>, mid: seq<bv8>, after: seq<bv8>, a: nat)
    requires Ready(j) && Placed(j, |before|) && j.toEngine && Disjoint(j.ptrs, EngineSpan(j.d, LayoutOf(j))) && UniqueIds(j)
    requires Ready(Reverse(j)) && Copied(before, mid, JobMoves(j)) && Copied(mid, after, JobMoves(Reverse(j)))
    requires a < |before| && !InSome(j.ptrs, EngineSpan(j.d, LayoutOf(j)), a)
    ensures after[a] == before[a]
  {
    ReverseMoves(j);
    TargetsDistinct(j);
    MovesInto(j, |before|);
    RoundTrip(before, mid, after, JobMoves(j), Zone(j), a);
  }

  lemma ReverseFor(d: Shape, f: Format, chunk: nat, ptrs: seq<nat>, objs: seq<nat>, ids: seq<int>, skip: int)
    requires Accepted(d, f, chunk, ptrs, objs, ids, skip)
    ensures var (out, back) := (JobFor(d, f, chunk, ptrs, objs, ids, skip, D2H), JobFor(d, f, chunk, ptrs, objs, ids, skip, H2D));
            Reverse(out) == back && Reverse(back) == out && !out.toEngine && back.toEngine
  {
  }

  /** Storing and loading again with the same arguments: all memory but the objects is as it was. */
  method StoreThenLoad(d: Shape, f: Format, chunk: int, ptrs: seq<nat>, objs: seq<nat>, ids: seq<int>, skip: int, mem: array<bv8>)
      returns (stored: Outcome, loaded: Outcome)
    requires Accepted(d, f, chunk, ptrs, objs, ids, skip) && d.kv > 0 && Separate(d, f, chunk, ptrs, objs, mem.Length)
    requires Disjoint(objs, ObjectBytes(d, chunk))
    modifies mem
    ensures stored == loaded
    ensures loaded == Done ==> forall a: nat :: a < mem.Length && !InSome(objs, ObjectBytes(d, chunk), a) ==> mem[a] == old(mem[a])
  {
    ghost var (before, p, q) := (mem[..], iset{}, iset{});
    stored, p := MultiLayerBlockTransfer(d, f, chunk, ptrs, objs, ids, skip, D2H, mem);
    ghost var mid := mem[..];
    loaded, q := MultiLayerBlockTransfer(d, f, chunk, ptrs, objs, ids, skip, H2D, mem);
    if loaded == Done {
      SeparatePlaced(d, f, chunk, ptrs, objs, ids, skip, D2H, mem.Length);
      ReverseFor(d, f, chunk, ptrs, objs, ids, skip);
      forall a: nat | a < mem.Length && !InSome(objs, ObjectBytes(d, chunk), a)
        ensures mem[a] == before[a]
      {
        OffloadRestore(JobFor(d, f, chunk, ptrs, objs, ids, skip, D2H), before, mid, mem[..], a);
      }
    }
  }

  /** Loading with unique ids and storing again: all memory but the paged buffers is as it was. */
  method LoadThenStore(d: Shape, f: Format, chunk: int, ptrs: seq<nat>, objs: seq<nat>, ids: seq<int>, skip: int, mem: array<bv8>)
      returns (loaded: Outcome, stored: Outcome)
    requires Accepted(d, f, chunk, ptrs, objs, ids, skip) && d.kv > 0 && Separate(d, f, chunk, ptrs, objs, mem.Length)
    requires Unshared(d, f, chunk, ptrs, objs, ids, skip, H2D)
    modifies mem
    ensures loaded == stored
    ensures stored == Done ==> forall a: nat :: a < mem.Length && !InSome(ptrs, EngineSpan(d, LayoutFor(d, f)), a) ==> mem[a] == old(mem[a])
  {
    ghost var (before, p, q) := (mem[..], iset{}, iset{});
    loaded, p := MultiLayerBlockTransfer(d, f, chunk, ptrs, objs, ids, skip, H2D, mem);
    ghost var mid := mem[..];
    stored, q := MultiLayerBlockTransfer(d, f, chunk, ptrs, objs, ids, skip, D2H, mem);
    if stored == Done {
      SeparatePlaced(d, f, chunk, ptrs, objs, ids, skip, H2D, mem.Length);
      ReverseFor(d, f, chunk, ptrs, objs, ids, skip);
      forall a: nat | a < mem.Length && !InSome(ptrs, EngineSpan(d, LayoutFor(d, f)), a)
        ensures mem[a] == before[a]
      {
        RestoreOffload(JobFor(d, f, chunk, ptrs, objs, ids, skip, H2D), before, mid, mem[..], a);
      }
    }
  }

  // ------------------------------------------------------------ left untouched

  /** Where a place of an object lies, whether or not a block of the transfer sits there. */
  function PlaceAddress(j: Job, o: nat, kv: nat, layer: nat, place: nat, q: nat): nat
    requires Ready(j) && o < |j.objs|
  {
    j.objs[o] + Mul(Mul(Mul(kv, j.d.nl) + layer, j.perObject) + place, BlockBytes(j.d)) + q
  }

  /** Offloading never writes the place of a skipped block or of a block past the last id. */
  lemma PlacesKept(j: Job, before: seq<bv8>, after: seq<bv8>, o: nat, kv: nat, layer: nat, place: nat, q: nat)
    requires Ready(j) && Placed(j, |before|) && !j.toEngine && Disjoint(j.objs, ObjectSpan(j.d, j.perObject))
    requires Copied(before, after, JobMoves(j))
    requires o < |j.objs| && kv < j.d.kv && layer < j.d.nl && place < j.perObject && q < BlockBytes(j.d)
    requires !(j.skip <= o * j.perObject + place < |j.ids|)
    ensures PlaceAddress(j, o, kv, layer, place, q) < |before|
    ensures after[PlaceAddress(j, o, kv, layer, place, q)] == before[PlaceAddress(j, o, kv, layer, place, q)]
  {
    var a := PlaceAddress(j, o, kv, layer, place, q);
    PlaceInObject(j, o, kv, layer, place, q);
    forall m | m in JobMoves(j)
      ensures m.dst != a
    {
      var s :| InJob(j, s) && m == MoveOf(j, s);
      if m.dst == a {
        PlaceIsBlock(j, o, kv, layer, place, q, s);
      }
    }
    assert !Hit(JobMoves(j), a);
  }

  lemma PlaceInObject(j: Job, o: nat, kv: nat, layer: nat, place: nat, q: nat)
    requires Ready(j) && o < |j.objs| && kv < j.d.kv && layer < j.d.nl && place < j.perObject && q < BlockBytes(j.d)
    ensures Owns(j.objs[o], ObjectSpan(j.d, j.perObject), PlaceAddress(j, o, kv, layer, place, q))
  {
    Less(kv, layer, j.d.kv, j.d.nl);
    Less(kv * j.d.nl + layer, place, j.d.kv * j.d.nl, j.perObject);
    Less((kv * j.d.nl + layer) * j.perObject + place, q, j.d.kv * j.d.nl * j.perObject, BlockBytes(j.d));
  }

  lemma PlaceIsBlock(j: Job, o: nat, kv: nat, layer: nat, place: nat, q: nat, s: Site)
    requires Ready(j) && InJob(j, s) && Disjoint(j.objs, ObjectSpan(j.d, j.perObject))
    requires o < |j.objs| && kv < j.d.kv && layer < j.d.nl && place < j.perObject && q < BlockBytes(j.d)
    requires ObjectAddress(j, s) == PlaceAddress(j, o, kv, layer, place, q)
    ensures s.blk == o * j.perObject + place
  {
    PlaceInObject(j, o, kv, layer, place, q);
    ObjectInBounds(j.d, s, j.perObject);
    ObjectExists(j, s.blk);
    SameRegion(j.objs, ObjectSpan(j.d, j.perObject), ObjectIndex(s, j.perObject), o, ObjectAddress(j, s));
    TokenMajorLess(j.d, s);
    var (x, y) := ((s.kv * j.d.nl + s.layer) * j.perObject + s.blk % j.perObject, (kv * j.d.nl + layer) * j.perObject + place);
    Unique(x, TokenMajor(j.d, s), y, q, BlockBytes(j.d));
    Unique(s.kv * j.d.nl + s.layer, s.blk % j.perObject, kv * j.d.nl + layer, place, j.perObject);
    Split(s.blk, j.perObject);
  }

  /** Restoring never writes the padding between a block and the next one. */
  lemma PaddingKept(j: Job, before: seq<bv8>, after: seq<bv8>, layer: nat, id: nat, q: nat)
    requires Ready(j) && Placed(j, |before|) && j.toEngine && Disjoint(j.ptrs, EngineSpan(j.d, LayoutOf(j)))
    requires Copied(before, after, JobMoves(j))
    requires FamilyOf(j.f) == SinglePlane && layer < j.d.nl && layer < |j.ptrs| && id + 1 < j.d.nb
    requires BlockBytes(j.d) <= q < LayoutOf(j).blockStride
    ensures var a := j.ptrs[layer] + id * LayoutOf(j).blockStride + q;
            0 <= a < |before| && after[a] == before[a]
  {
    var l := LayoutOf(j);
    var a := j.ptrs[layer] + id * l.blockStride + q;
    Less(id, q, j.d.nb - 1, l.blockStride);
    assert Owns(j.ptrs[layer], EngineSpan(j.d, l), a);
    forall m | m in JobMoves(j)
      ensures m.dst != a
    {
      var s :| InJob(j, s) && m == MoveOf(j, s);
      if m.dst == a {
        EngineInBounds(j.d, l, s, j.ids[s.blk]);
        SameRegion(j.ptrs, EngineSpan(j.d, l), PointerIndex(l, s), layer, a);
        InBlockLess(j.d, l, s);
        Unique(j.ids[s.blk], InBlock(j.d, l, s), id, q, l.blockStride);
      }
    }
    assert !Hit(JobMoves(j), a);
  }

  /** Restoring never writes a block whose id is not among those from skip on. */
  lemma OtherBlocksKept(j: Job, before: seq<bv8>, after: seq<bv8>, t: Site, id: nat)
    requires Ready(j) && Placed(j, |before|) && j.toEngine && Disjoint(j.ptrs, EngineSpan(j.d, LayoutOf(j)))
    requires Copied(before, after, JobMoves(j))
    requires InShape(j.d, t) && id < j.d.nb && forall n: nat :: j.skip <= n < |j.ids| ==> j.ids[n] != id
    requires PointerIndex(LayoutOf(j), t) < |j.ptrs|
    ensures var a := j.ptrs[PointerIndex(LayoutOf(j), t)] + EngineOffset(j.d, LayoutOf(j), t, id);
            0 <= a < |before| && after[a] == before[a]
  {
    var l := LayoutOf(j);
    var a := j.ptrs[PointerIndex(l, t)] + EngineOffset(j.d, l, t, id);
    EngineInBounds(j.d, l, t, id);
    forall m | m in JobMoves(j)
      ensures m.dst != a
    {
      var s :| InJob(j, s) && m == MoveOf(j, s);
      if m.dst == a {
        EngineInBounds(j.d, l, s, j.ids[s.blk]);
        SameRegion(j.ptrs, EngineSpan(j.d, l), PointerIndex(l, s), PointerIndex(l, t), a);
        EngineInjective(j.d, j.f, s, j.ids[s.blk], t, id);
      }
    }
    assert !Hit(JobMoves(j), a);
  }
}
