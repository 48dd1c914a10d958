/**
 Where every byte of a block transfer lives: in the engine's paged memory and in
 the LMCache objects.
 */
module TransferMap {
  import opened Radix
  import opened KvFormat

  /** One byte of one head of one token of a block, per layer and K/V plane. */
  datatype Site = Site(kv: nat, layer: nat, blk: nat, token: nat, head: nat, x: nat)

  predicate InShape(d: Shape, s: Site)
    requires Positive(d)
  {
    s.kv < d.kv && s.layer < d.nl && s.token < d.bs && s.head < d.nh && s.x < HeadBytes(d)
  }

  // ------------------------------------------------------- inside one block

  /** Token-major position, as the objects store a block. */
  function TokenMajor(d: Shape, s: Site): (r: nat)
    requires Positive(d) && InShape(d, s)
  {
    Mul(Mul(s.token, d.nh) + s.head, HeadBytes(d)) + s.x
  }

  function HeadMajorAt(d: Shape, s: Site): nat
    requires Positive(d) && InShape(d, s)
  {
    Mul(Mul(s.head, d.bs) + s.token, HeadBytes(d)) + s.x
  }

  /** All value bytes of the block, then the 4 scale bytes of every token. */
  function ValuesThenScales(d: Shape, s: Site): nat
    requires Positive(d) && InShape(d, s) && HeadBytes(d) > 4
  {
    var values := HeadBytes(d) - 4;
    if s.x < values then Mul(s.token, values) + s.x else Mul(d.bs, values) + s.token * 4 + (s.x - values)
  }

  predicate InnerOk(d: Shape, l: Layout)
    requires Positive(d)
  {
    l.blockedScale ==> !l.hnd && d.nh == 1 && HeadBytes(d) > 4
  }

  function InBlock(d: Shape, l: Layout, s: Site): nat
    requires Positive(d) && InShape(d, s) && InnerOk(d, l)
  {
    if l.hnd then HeadMajorAt(d, s) else if l.blockedScale then ValuesThenScales(d, s) else TokenMajor(d, s)
  }

  lemma TokenMajorLess(d: Shape, s: Site)
    requires Positive(d) && InShape(d, s)
    ensures TokenMajor(d, s) < BlockBytes(d)
  {
    Less(s.token, s.head, d.bs, d.nh);
    Less(s.token * d.nh + s.head, s.x, d.bs * d.nh, HeadBytes(d));
    Assoc(d.bs, d.nh, HeadBytes(d));
  }

  lemma HeadMajorLess(d: Shape, s: Site)
    requires Positive(d) && InShape(d, s)
    ensures HeadMajorAt(d, s) < BlockBytes(d)
  {
    Less(s.head, s.token, d.nh, d.bs);
    Less(s.head * d.bs + s.token, s.x, d.nh * d.bs, HeadBytes(d));
    Assoc(d.bs, d.nh, HeadBytes(d));
  }

  lemma ScalesLess(d: Shape, s: Site)
    requires Positive(d) && InShape(d, s) && d.nh == 1 && HeadBytes(d) > 4
    ensures ValuesThenScales(d, s) < BlockBytes(d)
  {
    var values := HeadBytes(d) - 4;
    Distribute(values, 4, d.bs);
    assert BlockBytes(d) == d.bs * values + d.bs * 4;
    if s.x < values {
      Less(s.token, s.x, d.bs, values);
    } else {
      Less(s.token, s.x - values, d.bs, 4);
    }
  }

  lemma InBlockLess(d: Shape, l: Layout, s: Site)
    requires Positive(d) && InShape(d, s) && InnerOk(d, l)
    ensures InBlock(d, l, s) < BlockBytes(d)
  {
    if l.hnd { HeadMajorLess(d, s); } else if l.blockedScale { ScalesLess(d, s); } else { TokenMajorLess(d, s); }
  }

  ghost predicate SameInner(s: Site, t: Site)
  {
    s.token == t.token && s.head == t.head && s.x == t.x
  }

  lemma TokenMajorUnique(d: Shape, s: Site, t: Site)
    requires Positive(d) && InShape(d, s) && InShape(d, t) && TokenMajor(d, s) == TokenMajor(d, t)
    ensures SameInner(s, t)
  {
    Unique(s.token * d.nh + s.head, s.x, t.token * d.nh + t.head, t.x, HeadBytes(d));
    Unique(s.token, s.head, t.token, t.head, d.nh);
  }

  lemma HeadMajorUnique(d: Shape, s: Site, t: Site)
    requires Positive(d) && InShape(d, s) && InShape(d, t) && HeadMajorAt(d, s) == HeadMajorAt(d, t)
    ensures SameInner(s, t)
  {
    Unique(s.head * d.bs + s.token, s.x, t.head * d.bs + t.token, t.x, HeadBytes(d));
    Unique(s.head, s.token, t.head, t.token, d.bs);
  }

  /** Value bytes lie before all scale bytes. */
  lemma ValuesBefore(d: Shape, s: Site)
    requires Positive(d) && InShape(d, s) && HeadBytes(d) > 4
    ensures var values := HeadBytes(d) - 4;
            s.x < values <==> ValuesThenScales(d, s) < d.bs * values
  {
    var values := HeadBytes(d) - 4;
    if s.x < values {
      Less(s.token, s.x, d.bs, values);
    }
  }

  lemma ScalesUnique(d: Shape, s: Site, t: Site)
    requires Positive(d) && InShape(d, s) && InShape(d, t) && d.nh == 1 && HeadBytes(d) > 4
    requires ValuesThenScales(d, s) == ValuesThenScales(d, t)
    ensures SameInner(s, t)
  {
    var values := HeadBytes(d) - 4;
    ValuesBefore(d, s);
    ValuesBefore(d, t);
    if s.x < values {
      Unique(s.token, s.x, t.token, t.x, values);
    } else {
      Unique(s.token, s.x - values, t.token, t.x - values, 4);
    }
  }

  /** Every inner permutation is injective. */
  lemma InBlockUnique(d: Shape, l: Layout, s: Site, t: Site)
    requires Positive(d) && InShape(d, s) && InShape(d, t) && InnerOk(d, l) && InBlock(d, l, s) == InBlock(d, l, t)
    ensures SameInner(s, t)
  {
    if l.hnd { HeadMajorUnique(d, s, t); } else if l.blockedScale { ScalesUnique(d, s, t); } else { TokenMajorUnique(d, s, t); }
  }

  // ------------------------------------------------------------ paged memory

  function PointerIndex(l: Layout, s: Site): nat
  {
    Mul(s.layer, l.pointerLayerStride) + Mul(s.kv, l.pointerKvStride)
  }

  function PointerCount(d: Shape, l: Layout): (r: nat)
    requires Positive(d) && d.kv > 0
    ensures r > 0
  {
    Mul(d.nl - 1, l.pointerLayerStride) + Mul(d.kv - 1, l.pointerKvStride) + 1
  }

  /** Byte offset of the block under its pointer. */
  function BlockAt(l: Layout, s: Site, id: nat): nat
  {
    Mul(id, l.blockStride) + Mul(s.layer, l.layerStride) + Mul(s.kv, l.kvStride)
  }

  function EngineOffset(d: Shape, l: Layout, s: Site, id: nat): nat
    requires Positive(d) && InShape(d, s) && InnerOk(d, l)
  {
    BlockAt(l, s, id) + InBlock(d, l, s)
  }

  /** Bytes a pointer must own: up to the last byte of the last block. */
  function EngineSpan(d: Shape, l: Layout): nat
    requires Positive(d) && d.kv > 0
  {
    Mul(d.nb - 1, l.blockStride) + Mul(d.nl - 1, l.layerStride) + Mul(d.kv - 1, l.kvStride) + BlockBytes(d)
  }

  lemma LayoutInner(d: Shape, f: Format)
    requires Positive(d) && Supported(d, f)
    ensures InnerOk(d, LayoutFor(d, f)) && d.kv > 0
  {
  }

  lemma EngineInBounds(d: Shape, l: Layout, s: Site, id: nat)
    requires Positive(d) && d.kv > 0 && InShape(d, s) && InnerOk(d, l) && id < d.nb
    ensures EngineOffset(d, l, s, id) < EngineSpan(d, l)
    ensures PointerIndex(l, s) < PointerCount(d, l)
  {
    InBlockLess(d, l, s);
    Monotone(id, d.nb - 1, l.blockStride);
    Monotone(s.layer, d.nl - 1, l.layerStride);
    Monotone(s.kv, d.kv - 1, l.kvStride);
    Monotone(s.layer, d.nl - 1, l.pointerLayerStride);
    Monotone(s.kv, d.kv - 1, l.pointerKvStride);
  }

  /** The outer position: how many blocks of the same pointer come before. */
  function Slot(d: Shape, family: Family, s: Site, id: nat): nat
    requires Positive(d)
  {
    match family
    case CrossLayer => Mul(Mul(id, d.nl) + s.layer, 2) + s.kv
    case TwoMajor => Mul(s.kv, d.nb) + id
    case BlockPairs => Mul(id, 2) + s.kv
    case _ => id
  }

  /** Bytes from one slot to the next. */
  function Step(d: Shape, f: Format): nat
    requires Positive(d)
  {
    if FamilyOf(f) == SinglePlane then LayoutFor(d, f).blockStride else BlockBytes(d)
  }

  lemma CrossSlot(id: nat, layer: nat, kv: nat, nl: nat, b: nat)
    ensures id * ((2 * nl) * b) + layer * (2 * b) + kv * b == (((id * nl) + layer) * 2 + kv) * b
  {
    Assoc(id, 2 * nl, b);
    Assoc(layer, 2, b);
    Distribute(id * (2 * nl), layer * 2, b);
    Distribute(id * (2 * nl) + layer * 2, kv, b);
    assert id * (2 * nl) == (id * nl) * 2;
  }

  lemma PairSlot(hi: nat, lo: nat, n: nat, b: nat)
    ensures hi * (n * b) + lo * b == (hi * n + lo) * b
  {
    Assoc(hi, n, b);
    Distribute(hi * n, lo, b);
  }

  lemma BlockAtSlot(d: Shape, f: Format, s: Site, id: nat)
    requires Positive(d) && Supported(d, f) && s.kv < d.kv
    ensures BlockAt(LayoutFor(d, f), s, id) == Slot(d, FamilyOf(f), s, id) * Step(d, f)
  {
    var b := BlockBytes(d);
    match FamilyOf(f)
    case CrossLayer => CrossSlot(id, s.layer, s.kv, d.nl, b);
    case TwoMajor => PairSlot(s.kv, id, d.nb, b);
    case BlockPairs => PairSlot(id, s.kv, 2, b);
    case _ =>
  }

  lemma StepFits(d: Shape, f: Format)
    requires Positive(d) && Supported(d, f)
    ensures BlockBytes(d) <= Step(d, f)
  {
  }

  /** Pointer and slot together name layer, plane and block. */
  lemma SlotUnique(d: Shape, f: Format, s: Site, id: nat, t: Site, id1: nat)
    requires Positive(d) && Supported(d, f) && InShape(d, s) && InShape(d, t) && id < d.nb && id1 < d.nb
    requires PointerIndex(LayoutFor(d, f), s) == PointerIndex(LayoutFor(d, f), t)
    requires Slot(d, FamilyOf(f), s, id) == Slot(d, FamilyOf(f), t, id1)
    ensures s.layer == t.layer && s.kv == t.kv && id == id1
  {
    match FamilyOf(f)
    case CrossLayer =>
      Unique(id * d.nl + s.layer, s.kv, id1 * d.nl + t.layer, t.kv, 2);
      Unique(id, s.layer, id1, t.layer, d.nl);
    case KvList => Unique(s.kv, s.layer, t.kv, t.layer, d.nl);
    case LayerTuples => Unique(s.layer, s.kv, t.layer, t.kv, 2);
    case TwoMajor => Unique(s.kv, id, t.kv, id1, d.nb);
    case BlockPairs => Unique(id, s.kv, id1, t.kv, 2);
    case SinglePlane =>
  }

  /** Distinct sites of distinct blocks never share an engine byte. */
  lemma EngineInjective(d: Shape, f: Format, s: Site, id: nat, t: Site, id1: nat)
    requires Positive(d) && Supported(d, f) && InShape(d, s) && InShape(d, t) && id < d.nb && id1 < d.nb
    requires InnerOk(d, LayoutFor(d, f))
    requires PointerIndex(LayoutFor(d, f), s) == PointerIndex(LayoutFor(d, f), t)
    requires EngineOffset(d, LayoutFor(d, f), s, id) == EngineOffset(d, LayoutFor(d, f), t, id1)
    ensures s.(blk := 0) == t.(blk := 0) && id == id1
  {
    var l := LayoutFor(d, f);
    BlockAtSlot(d, f, s, id);
    BlockAtSlot(d, f, t, id1);
    InBlockLess(d, l, s);
    InBlockLess(d, l, t);
    StepFits(d, f);
    Unique(Slot(d, FamilyOf(f), s, id), InBlock(d, l, s), Slot(d, FamilyOf(f), t, id1), InBlock(d, l, t), Step(d, f));
    SlotUnique(d, f, s, id, t, id1);
    InBlockUnique(d, l, s, t);
  }

  // ----------------------------------------------------------------- objects

  /** Object that holds a flat block, and the block's place in it. */
  function ObjectIndex(s: Site, perObject: nat): nat
    requires perObject > 0
  {
    s.blk / perObject
  }

  function ObjectOffset(d: Shape, s: Site, perObject: nat): nat
    requires Positive(d) && InShape(d, s) && perObject > 0
  {
    Mul(Mul(Mul(s.kv, d.nl) + s.layer, perObject) + s.blk % perObject, BlockBytes(d)) + TokenMajor(d, s)
  }

  function ObjectSpan(d: Shape, perObject: nat): nat
    requires Positive(d) && d.kv > 0
  {
    Mul(Mul(Mul(d.kv, d.nl), perObject), BlockBytes(d))
  }

  lemma ObjectInBounds(d: Shape, s: Site, perObject: nat)
    requires Positive(d) && d.kv > 0 && InShape(d, s) && perObject > 0
    ensures ObjectOffset(d, s, perObject) < ObjectSpan(d, perObject)
  {
    Less(s.kv, s.layer, d.kv, d.nl);
    Less(s.kv * d.nl + s.layer, s.blk % perObject, d.kv * d.nl, perObject);
    TokenMajorLess(d, s);
    Less((s.kv * d.nl + s.layer) * perObject + s.blk % perObject, TokenMajor(d, s), d.kv * d.nl * perObject, BlockBytes(d));
  }

  lemma ObjectInjective(d: Shape, s: Site, t: Site, perObject: nat)
    requires Positive(d) && InShape(d, s) && InShape(d, t) && perObject > 0
    requires ObjectIndex(s, perObject) == ObjectIndex(t, perObject)
    requires ObjectOffset(d, s, perObject) == ObjectOffset(d, t, perObject)
    ensures s == t
  {
    TokenMajorLess(d, s);
    TokenMajorLess(d, t);
    var (p, q) := ((s.kv * d.nl + s.layer) * perObject + s.blk % perObject, (t.kv * d.nl + t.layer) * perObject + t.blk % perObject);
    Unique(p, TokenMajor(d, s), q, TokenMajor(d, t), BlockBytes(d));
    Unique(s.kv * d.nl + s.layer, s.blk % perObject, t.kv * d.nl + t.layer, t.blk % perObject, perObject);
    Unique(s.kv, s.layer, t.kv, t.layer, d.nl);
    TokenMajorUnique(d, s, t);
    Split(s.blk, perObject);
    Split(t.blk, perObject);
  }

  // ------------------------------------------------ what the names stand for

  /** One more axis of size n to the right. */
  function Axis(i: nat, n: nat, j: nat): nat
  {
    Mul(i, n) + j
  }

  /** Row-major element index in the tensor of the format's name; e runs over the trailing axis. */
  function NamedElement(f: Format, d: Shape, s: Site, id: nat, e: nat): nat
    requires Positive(d)
  {
    match f
    case NB_NL_TWO_BS_NH_HS => Axis(Axis(Axis(Axis(Axis(id, d.nl, s.layer), 2, s.kv), d.bs, s.token), d.nh, s.head), d.hs, e)
    case NB_NL_TWO_NH_BS_HS => Axis(Axis(Axis(Axis(Axis(id, d.nl, s.layer), 2, s.kv), d.nh, s.head), d.bs, s.token), d.hs, e)
    case NL_X_TWO_NB_BS_NH_HS => Axis(Axis(Axis(Axis(s.kv, d.nb, id), d.bs, s.token), d.nh, s.head), d.hs, e)
    case NL_X_TWO_NB_NH_BS_HS => Axis(Axis(Axis(Axis(s.kv, d.nb, id), d.nh, s.head), d.bs, s.token), d.hs, e)
    case NL_X_TWO_NB_NH_ONE_BS_HS => Axis(Axis(Axis(Axis(Axis(s.kv, d.nb, id), d.nh, s.head), 1, 0), d.bs, s.token), d.hs, e)
    case NL_X_NB_TWO_BS_NH_HS => Axis(Axis(Axis(Axis(id, 2, s.kv), d.bs, s.token), d.nh, s.head), d.hs, e)
    case NL_X_NB_TWO_NH_BS_HS => Axis(Axis(Axis(Axis(id, 2, s.kv), d.nh, s.head), d.bs, s.token), d.hs, e)
    case NL_X_NB_TWO_NH_ONE_BS_HS => Axis(Axis(Axis(Axis(Axis(id, 2, s.kv), d.nh, s.head), 1, 0), d.bs, s.token), d.hs, e)
    case TWO_X_NL_X_NBBS_NH_HS => Axis(Axis(Axis(id, d.bs, s.token), d.nh, s.head), d.hs, e)
    case TWO_X_NL_X_NB_BS_NH_HS => Axis(Axis(Axis(id, d.bs, s.token), d.nh, s.head), d.hs, e)
    case NL_X_TWO_X_NB_BS_NH_HS => Axis(Axis(Axis(id, d.bs, s.token), d.nh, s.head), d.hs, e)
    case NL_X_NB_BS_NH_HS => Axis(Axis(Axis(id, d.bs, s.token), d.nh, s.head), d.hs, e)
    case NL_X_NB_BS_NH_CS => Axis(Axis(Axis(id, d.bs, s.token), d.nh, s.head), d.hs, e)
    case NL_X_NB_BS_NH_TWO_HS => Axis(Axis(Axis(id, d.bs, s.token), d.nh, s.head), d.hs, e)
    case NL_X_NB_NH_BS_CS => Axis(Axis(Axis(id, d.nh, s.head), d.bs, s.token), d.hs, e)
    case NL_X_NB_NH_BS_TWO_HS => Axis(Axis(Axis(id, d.nh, s.head), d.bs, s.token), d.hs, e)
    case NL_X_NB_BS_HS => Axis(Axis(id, d.bs, s.token), d.hs, e)
    case NL_X_NBBS_ONE_HS => Axis(Axis(Axis(id, d.bs, s.token), 1, 0), d.hs, e)
    case NL_X_NP_X_NB_BS_ONE_HS => Axis(Axis(Axis(id, d.bs, s.token), 1, 0), d.hs, e)
    case NL_X_NB_BSV_BSS =>
      if e + 4 < d.hs then Axis(id, BlockBytes(d), Axis(s.token, d.hs - 4, e))
      else if d.hs < 4 then 0
      else Axis(id, BlockBytes(d), Mul(d.bs, d.hs - 4) + Axis(s.token, 4, e + 4 - d.hs))
  }

  /** Which tensor of the (possibly nested) list. */
  function NamedPointer(f: Format, d: Shape, s: Site): nat
    requires Positive(d)
  {
    match FamilyOf(f)
    case CrossLayer => 0
    case KvList => Axis(s.kv, d.nl, s.layer)
    case LayerTuples => Axis(s.layer, 2, s.kv)
    case _ => s.layer
  }

  lemma TokenAxes(slot: nat, d: Shape, s: Site, e: nat, b: nat)
    requires Positive(d) && InShape(d, s) && b < d.elem && s.x == e * d.elem + b
    ensures slot * BlockBytes(d) + TokenMajor(d, s) == Axis(Axis(Axis(slot, d.bs, s.token), d.nh, s.head), d.hs, e) * d.elem + b
  {
    var (h, row) := (HeadBytes(d), s.token * d.nh + s.head);
    calc {
      Axis(Axis(Axis(slot, d.bs, s.token), d.nh, s.head), d.hs, e) * d.elem + b;
      (((slot * d.bs + s.token) * d.nh + s.head) * d.hs + e) * d.elem + b;
      { Distribute(((slot * d.bs + s.token) * d.nh + s.head) * d.hs, e, d.elem); Assoc((slot * d.bs + s.token) * d.nh + s.head, d.hs, d.elem); }
      ((slot * d.bs + s.token) * d.nh + s.head) * h + s.x;
      { Distribute(slot * d.bs, s.token, d.nh); Assoc(slot, d.bs, d.nh); }
      (slot * (d.bs * d.nh) + row) * h + s.x;
      { Distribute(slot * (d.bs * d.nh), row, h); Assoc(slot, d.bs * d.nh, h); Assoc(d.bs, d.nh, h); }
      slot * BlockBytes(d) + (row * h + s.x);
    }
  }

  lemma HeadAxes(slot: nat, d: Shape, s: Site, e: nat, b: nat)
    requires Positive(d) && InShape(d, s) && b < d.elem && s.x == e * d.elem + b
    ensures slot * BlockBytes(d) + HeadMajorAt(d, s) == Axis(Axis(Axis(slot, d.nh, s.head), d.bs, s.token), d.hs, e) * d.elem + b
  {
    var (h, row) := (HeadBytes(d), s.head * d.bs + s.token);
    calc {
      Axis(Axis(Axis(slot, d.nh, s.head), d.bs, s.token), d.hs, e) * d.elem + b;
      (((slot * d.nh + s.head) * d.bs + s.token) * d.hs + e) * d.elem + b;
      { Distribute(((slot * d.nh + s.head) * d.bs + s.token) * d.hs, e, d.elem); Assoc((slot * d.nh + s.head) * d.bs + s.token, d.hs, d.elem); }
      ((slot * d.nh + s.head) * d.bs + s.token) * h + s.x;
      { Distribute(slot * d.nh, s.head, d.bs); Assoc(slot, d.nh, d.bs); }
      (slot * (d.nh * d.bs) + row) * h + s.x;
      { Distribute(slot * (d.nh * d.bs), row, h); Assoc(slot, d.nh * d.bs, h); Assoc(d.bs, d.nh, h); }
      slot * BlockBytes(d) + (row * h + s.x);
    }
  }

  /** Dropping or adding an axis of size one changes nothing. */
  lemma UnitAxis(i: nat)
    ensures Axis(i, 1, 0) == i
  {
  }

  /** The element index of the outer slot and the inner order of the family. */
  function FamilyElement(f: Format, d: Shape, s: Site, id: nat, e: nat): nat
    requires Positive(d)
  {
    var slot := Slot(d, FamilyOf(f), s, id);
    if HeadMajor(f) then Axis(Axis(Axis(slot, d.nh, s.head), d.bs, s.token), d.hs, e)
    else Axis(Axis(Axis(slot, d.bs, s.token), d.nh, s.head), d.hs, e)
  }

  lemma NameIsFamily(f: Format, d: Shape, s: Site, id: nat, e: nat)
    requires Positive(d) && Supported(d, f) && InShape(d, s) && f != NL_X_NB_BSV_BSS
    ensures NamedElement(f, d, s, id, e) == FamilyElement(f, d, s, id, e)
  {
    if f == NL_X_TWO_NB_NH_ONE_BS_HS || f == NL_X_NB_TWO_NH_ONE_BS_HS {
      UnitAxis(Axis(Slot(d, FamilyOf(f), s, id), d.nh, s.head));
    } else if Latent(f) {
      UnitAxis(Axis(id, d.bs, s.token));
    }
  }

  /** The code's strides are the row-major strides of the tensor the format's name describes, for every supported format. */
  lemma LayoutIsNamed(f: Format, d: Shape, s: Site, id: nat, e: nat, b: nat)
    requires Positive(d) && Supported(d, f) && d.strideElems == 0 && InShape(d, s) && InnerOk(d, LayoutFor(d, f))
    requires b < d.elem && s.x == e * d.elem + b
    ensures EngineOffset(d, LayoutFor(d, f), s, id) == NamedElement(f, d, s, id, e) * d.elem + b
    ensures PointerIndex(LayoutFor(d, f), s) == NamedPointer(f, d, s)
  {
    BlockAtSlot(d, f, s, id);
    var slot := Slot(d, FamilyOf(f), s, id);
    if f != NL_X_NB_BSV_BSS {
      NameIsFamily(f, d, s, id, e);
      if HeadMajor(f) {
        HeadAxes(slot, d, s, e, b);
      } else {
        TokenAxes(slot, d, s, e, b);
      }
    }
  }
}
