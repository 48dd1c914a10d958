/**
 A block transfer in the caller's terms: which byte of the paged buffers and which
 byte of the objects belong together, written out from the arguments alone.
 */
module TransferBytes {
  import opened Radix
  import opened KvFormat
  import opened TransferMap
  import opened TransferJob

  // ------------------------------------------------------------------ objects

  /**
   The tokens of the transfer are numbered through, a chunk of them per object;
   an object holds, per plane and layer, its tokens' rows one after the other.
   */
  function ObjectByte(d: Shape, chunk: int, objs: seq<nat>, s: Site): int
    requires d.bs > 0 && chunk > 0
  {
    var token := s.blk * d.bs + s.token;
    var k := token / chunk;
    if 0 <= k < |objs| then
      objs[k] + (((s.kv * d.nl + s.layer) * chunk + token % chunk) * d.nh + s.head) * (d.hs * d.elem) + s.x
    else -1
  }

  /** Bytes of one object. */
  function ObjectBytes(d: Shape, chunk: nat): (r: nat)
    requires Positive(d) && d.kv > 0
    ensures r == d.kv * d.nl * chunk * d.nh * (d.hs * d.elem)
  {
    Mul(Mul(Mul(Mul(d.kv, d.nl), chunk), d.nh), Mul(d.hs, d.elem))
  }

  lemma TokenDigits(blk: nat, token: nat, per: nat, bs: nat)
    requires per > 0 && token < bs
    ensures per * bs > 0
    ensures (blk * bs + token) / (per * bs) == blk / per && (blk * bs + token) % (per * bs) == blk % per * bs + token
  {
    MulPositive(per, bs);
    Split(blk, per);
    var (q, p) := (blk / per, blk % per);
    Less(p, token, per, bs);
    Assoc(q, per, bs);
    Distribute(q * per, p, bs);
    Digits(q, p * bs + token, per * bs);
  }

  /** Rows of a block, planes and layers in front. */
  lemma ObjectRows(top: nat, per: nat, place: nat, bs: nat, token: nat, nh: nat, head: nat, h: nat, x: nat)
    ensures (top * per + place) * (bs * (nh * h)) + ((token * nh + head) * h + x)
         == ((top * (per * bs) + (place * bs + token)) * nh + head) * h + x
  {
    var row := top * per + place;
    Assoc(bs, nh, h);
    Assoc(row, bs * nh, h);
    Distribute(row * (bs * nh), token * nh + head, h);
    Assoc(row, bs, nh);
    Distribute(row * bs, token, nh);
    Distribute(top * per, place, bs);
    Assoc(top, per, bs);
  }

  lemma ObjectByteIs(j: Job, s: Site, chunk: nat)
    requires Ready(j) && InJob(j, s) && chunk == j.perObject * j.d.bs > 0
    ensures ObjectByte(j.d, chunk, j.objs, s) == ObjectAddress(j, s)
  {
    var (d, per) := (j.d, j.perObject);
    TokenDigits(s.blk, s.token, per, d.bs);
    ObjectExists(j, s.blk);
    ObjectRows(s.kv * d.nl + s.layer, per, s.blk % per, d.bs, s.token, d.nh, s.head, HeadBytes(d), s.x);
  }

  lemma ObjectBytesIs(d: Shape, per: nat, chunk: nat)
    requires Positive(d) && d.kv > 0 && chunk == per * d.bs
    ensures ObjectBytes(d, chunk) == ObjectSpan(d, per)
  {
    var (n, h) := (d.kv * d.nl, HeadBytes(d));
    assert n * chunk == n * per * d.bs by { Assoc(n, per, d.bs); }
    Assoc(n * per, d.bs, d.nh);
    Assoc(n * per, d.bs * d.nh, h);
    Assoc(d.bs, d.nh, h);
  }

  // ------------------------------------------------------------ paged buffers

  /**
   The byte in the tensor the format's name describes; a wider block stride moves
   whole blocks apart.
   */
  function EngineByte(d: Shape, f: Format, ptrs: seq<nat>, id: int, s: Site): int
    requires Positive(d)
  {
    var (tensor, e, b) := (NamedPointer(f, d, s), s.x / d.elem, s.x % d.elem);
    if !(0 <= tensor < |ptrs| && id >= 0) then -1
    else if d.strideElems == 0 then ptrs[tensor] + NamedElement(f, d, s, id, e) * d.elem + b
    else ptrs[tensor] + id * (d.strideElems * d.elem) + NamedElement(f, d, s, 0, e) * d.elem + b
  }

  function Tightened(d: Shape): Shape
  {
    d.(strideElems := 0)
  }

  lemma TightenedSame(d: Shape, f: Format, s: Site, e: nat)
    requires Positive(d) && Supported(d, f) && InShape(d, s) && InnerOk(d, LayoutFor(d, f))
    ensures Positive(Tightened(d)) && Supported(Tightened(d), f) && InShape(Tightened(d), s) && InnerOk(Tightened(d), LayoutFor(Tightened(d), f))
    ensures InBlock(Tightened(d), LayoutFor(Tightened(d), f), s) == InBlock(d, LayoutFor(d, f), s)
    ensures NamedElement(f, Tightened(d), s, 0, e) == NamedElement(f, d, s, 0, e)
  {
  }

  lemma PaddedByte(d: Shape, f: Format, s: Site, id: nat, e: nat, b: nat)
    requires Positive(d) && Supported(d, f) && d.strideElems != 0 && InShape(d, s) && InnerOk(d, LayoutFor(d, f))
    requires b < d.elem && s.x == e * d.elem + b
    ensures EngineOffset(d, LayoutFor(d, f), s, id) == id * (d.strideElems * d.elem) + NamedElement(f, d, s, 0, e) * d.elem + b
    ensures PointerIndex(LayoutFor(d, f), s) == NamedPointer(f, d, s)
  {
    var t := Tightened(d);
    TightenedSame(d, f, s, e);
    LayoutIsNamed(f, t, s, 0, e, b);
    assert BlockAt(LayoutFor(t, f), s, 0) == 0;
    assert BlockAt(LayoutFor(d, f), s, id) == id * (d.strideElems * d.elem);
  }

  lemma EngineByteIs(j: Job, s: Site)
    requires Ready(j) && InJob(j, s)
    ensures EngineByte(j.d, j.f, j.ptrs, j.ids[s.blk], s) == EngineAddress(j, s)
  {
    var (d, f, id) := (j.d, j.f, j.ids[s.blk]);
    var (e, b) := (s.x / d.elem, s.x % d.elem);
    Split(s.x, d.elem);
    EngineInBounds(d, LayoutOf(j), s, id);
    if d.strideElems == 0 {
      LayoutIsNamed(f, d, s, id, e, b);
    } else {
      PaddedByte(d, f, s, id, e, b);
    }
  }

  // ------------------------------------------------------------ tight spans

  function LastSite(d: Shape): Site
    requires Positive(d) && d.kv > 0
  {
    Site(d.kv - 1, d.nl - 1, 0, d.bs - 1, d.nh - 1, HeadBytes(d) - 1)
  }

  lemma LastScale(bs: nat, h: nat)
    requires bs > 0 && h > 4
    ensures bs * (h - 4) + (bs - 1) * 4 + 3 == bs * h - 1
  {
    Distribute(h - 4, 4, bs);
  }

  lemma LastInBlock(d: Shape, l: Layout)
    requires Positive(d) && d.kv > 0 && InnerOk(d, l)
    ensures InShape(d, LastSite(d)) && InBlock(d, l, LastSite(d)) == BlockBytes(d) - 1
  {
    var h := HeadBytes(d);
    Assoc(d.bs, d.nh, h);
    if l.hnd {
      LastRow(d.nh, d.bs, h);
    } else if l.blockedScale {
      LastScale(d.bs, h);
    } else {
      LastRow(d.bs, d.nh, h);
    }
  }

  lemma LastRow(m: nat, n: nat, h: nat)
    requires m > 0 && n > 0 && h > 0
    ensures ((m - 1) * n + (n - 1)) * h + (h - 1) == m * n * h - 1
  {
    Distribute(m, -1, n);
    assert (m - 1) * n + (n - 1) == m * n - 1;
    Distribute(m * n, -1, h);
  }

  /** A paged buffer is used up to its last byte: the span is no larger than the blocks need. */
  lemma EngineSpanTight(d: Shape, l: Layout)
    requires Positive(d) && d.kv > 0 && InnerOk(d, l)
    ensures InShape(d, LastSite(d)) && EngineOffset(d, l, LastSite(d), d.nb - 1) == EngineSpan(d, l) - 1
  {
    LastInBlock(d, l);
  }
}
