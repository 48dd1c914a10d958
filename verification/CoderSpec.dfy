/**
 The arithmetic coder of one (layer, channel) pair as functions: which bits the
 encoder emits for a symbol sequence and which symbols the decoder reads off a
 bit stream.  Numbers are mathematical; the kernels' 32-bit steps are shown to
 stay within these in CoderKernel.
 */
module CoderSpec {
  import opened Bits

  const FULL: nat := 0x1_0000_0000
  const HALF: nat := 0x8000_0000
  const QUARTER: nat := 0x4000_0000
  const THREE_QUARTERS: nat := 0xC000_0000
  const SCALE: nat := 0x1_0000

  /** lp entries; the last one is never read: symbols are 0 .. lp-2. */
  ghost predicate ValidCdf(cdf: seq<nat>)
  {
    && |cdf| >= 2
    && cdf[0] == 0
    && (forall i :: 0 <= i < |cdf| - 1 ==> cdf[i] < SCALE)
    && (forall i, j :: 0 <= i < j < |cdf| - 1 ==> cdf[i] < cdf[j])
  }

  ghost predicate ValidSyms(cdf: seq<nat>, syms: seq<nat>)
  {
    forall i :: 0 <= i < |syms| ==> syms[i] < |cdf| - 1
  }

  function CLow(cdf: seq<nat>, s: nat): nat
    requires s < |cdf| - 1
  {
    cdf[s]
  }

  function CHigh(cdf: seq<nat>, s: nat): nat
    requires s < |cdf| - 1
  {
    if s == |cdf| - 2 then SCALE else cdf[s + 1]
  }

  ghost predicate Interval(low: nat, high: nat)
  {
    low <= high < FULL
  }

  /** Neither half nor the middle two quarters contains the interval. */
  ghost predicate Settled(low: nat, high: nat)
  {
    && low < HALF <= high < FULL
    && (low < QUARTER || high >= THREE_QUARTERS)
  }

  function Span(low: nat, high: nat): nat
    requires low <= high
  {
    high - low + 1
  }

  function NarrowLow(low: nat, high: nat, c: nat): nat
    requires low <= high
  {
    low + Span(low, high) * c / SCALE
  }

  function NarrowHigh(low: nat, high: nat, c: nat): int
    requires low <= high
  {
    low + Span(low, high) * c / SCALE - 1
  }

  lemma MulLe(x: nat, a: nat, b: nat)
    requires a <= b
    ensures x * a <= x * b
  {
  }

  /** A narrowed interval lies in the old one and keeps at least 2^14 values. */
  lemma NarrowInside(low: nat, high: nat, cLow: nat, cHigh: nat)
    requires Settled(low, high)
    requires cLow < cHigh <= SCALE
    ensures low <= NarrowLow(low, high, cLow)
    ensures NarrowLow(low, high, cLow) + 0x3FFF <= NarrowHigh(low, high, cHigh) <= high
  {
    var span := Span(low, high);
    MulLe(span, cLow + 1, cHigh);
    MulLe(span, cHigh, SCALE);
    assert span * (cLow + 1) == span * cLow + span;
    assert span * SCALE / SCALE == span;
  }

  // ---------------------------------------------------------------- encoder

  /** Bits still to be emitted: state (low, high, pending), then the symbols. */
  function EncodeFrom(cdf: seq<nat>, low: nat, high: nat, pending: nat, syms: seq<nat>): (r: seq<bit>)
    requires ValidCdf(cdf) && ValidSyms(cdf, syms) && Settled(low, high)
    decreases |syms|, 0, 0
  {
    if syms == [] then
      var b: bit := if low < QUARTER then 0 else 1;
      [b] + Rep(1 - b, pending + 1)
    else
      var s := syms[0];
      NarrowInside(low, high, CLow(cdf, s), CHigh(cdf, s));
      EncodeShift(cdf, NarrowLow(low, high, CLow(cdf, s)), NarrowHigh(low, high, CHigh(cdf, s)), pending, syms[1..])
  }

  /** Renormalisation with output, then the rest of the symbols. */
  function EncodeShift(cdf: seq<nat>, low: nat, high: nat, pending: nat, syms: seq<nat>): (r: seq<bit>)
    requires ValidCdf(cdf) && ValidSyms(cdf, syms) && Interval(low, high)
    decreases |syms|, 1, FULL - (high - low)
  {
    if high < HALF then
      ([0] + Rep(1, pending)) + EncodeShift(cdf, 2 * low, 2 * high + 1, 0, syms)
    else if low >= HALF then
      ([1] + Rep(0, pending)) + EncodeShift(cdf, 2 * low - FULL, 2 * high + 1 - FULL, 0, syms)
    else if low >= QUARTER && high < THREE_QUARTERS then
      EncodeShift(cdf, 2 * low - HALF, 2 * high + 1 - HALF, pending + 1, syms)
    else
      EncodeFrom(cdf, low, high, pending, syms)
  }

  /** The complete bit string for one channel. */
  function EncodeBits(cdf: seq<nat>, syms: seq<nat>): seq<bit>
    requires ValidCdf(cdf) && ValidSyms(cdf, syms)
  {
    EncodeFrom(cdf, 0, FULL - 1, 0, syms)
  }

  // ---------------------------------------------------------------- decoder

  /** Streams read as zero past their end, whatever the length. */
  function Head(stream: seq<bit>): bit
  {
    if stream == [] then 0 else stream[0]
  }

  function Tail(stream: seq<bit>): seq<bit>
  {
    if stream == [] then [] else stream[1..]
  }

  /** The index the kernel computes from the current value. */
  function Count(low: nat, high: nat, value: nat): nat
    requires low <= value <= high
  {
    ((value - low + 1) * SCALE - 1) / Span(low, high)
  }

  /** s is the symbol whose table slot contains count. */
  predicate InSlot(cdf: seq<nat>, s: nat, count: nat)
  {
    s < |cdf| - 1 && CLow(cdf, s) <= count < CHigh(cdf, s)
  }

  /** The slots of a valid table partition 0 .. 0xFFFF. */
  function FindSlot(cdf: seq<nat>, count: nat, upTo: nat): (s: nat)
    requires ValidCdf(cdf) && count < SCALE
    requires upTo < |cdf| - 1 && count < CHigh(cdf, upTo)
    ensures InSlot(cdf, s, count)
  {
    if cdf[upTo] <= count then upTo else FindSlot(cdf, count, upTo - 1)
  }

  lemma SlotUnique(cdf: seq<nat>, s: nat, t: nat, count: nat)
    requires ValidCdf(cdf) && InSlot(cdf, s, count) && InSlot(cdf, t, count)
    ensures s == t
  {
  }

  lemma CountBound(low: nat, high: nat, value: nat)
    requires low <= value <= high
    ensures Count(low, high, value) < SCALE
  {
    var span := Span(low, high);
    MulLe(SCALE, value - low + 1, span);
    assert (value - low + 1) * SCALE - 1 < span * SCALE;
    DivLess((value - low + 1) * SCALE - 1, span, SCALE);
  }

  lemma DivLess(x: nat, d: nat, q: nat)
    requires d > 0
    ensures x / d < q <==> x < q * d
  {
    if x / d < q {
      assert x < d * (x / d) + d;
      MulLe(d, x / d + 1, q);
      assert d * (x / d + 1) == d * (x / d) + d;
      assert q * d == d * q;
    } else {
      MulLe(d, q, x / d);
      assert q * d == d * q;
    }
  }

  /** Comparing the count with a table entry is comparing the value with the narrowed bound. */
  lemma CountCompare(low: nat, high: nat, value: nat, c: nat)
    requires low <= value <= high
    ensures Count(low, high, value) < c <==> value < low + Span(low, high) * c / SCALE
  {
    var span := Span(low, high);
    var x := value - low;
    DivLess((x + 1) * SCALE - 1, span, c);
    DivLess(span * c, SCALE, x + 1);
    assert span * c == c * span;
  }

  /** The count formula picks a symbol exactly when the narrowed interval contains the value. */
  lemma SlotIffInterval(cdf: seq<nat>, low: nat, high: nat, value: nat, s: nat)
    requires ValidCdf(cdf) && s < |cdf| - 1 && low <= value <= high
    ensures InSlot(cdf, s, Count(low, high, value)) <==>
            NarrowLow(low, high, CLow(cdf, s)) <= value <= NarrowHigh(low, high, CHigh(cdf, s))
  {
    CountCompare(low, high, value, CLow(cdf, s));
    CountCompare(low, high, value, CHigh(cdf, s));
  }

  function SymbolAt(cdf: seq<nat>, low: nat, high: nat, value: nat): (s: nat)
    requires ValidCdf(cdf) && low <= value <= high
    ensures s < |cdf| - 1
    ensures NarrowLow(low, high, CLow(cdf, s)) <= value <= NarrowHigh(low, high, CHigh(cdf, s))
  {
    CountBound(low, high, value);
    var s := FindSlot(cdf, Count(low, high, value), |cdf| - 2);
    SlotIffInterval(cdf, low, high, value, s);
    s
  }

  /** Symbols read from a value register and the stream behind it; the last one needs no shift. */
  function DecodeFrom(cdf: seq<nat>, low: nat, high: nat, value: nat, stream: seq<bit>, n: nat): (r: seq<nat>)
    requires ValidCdf(cdf) && Settled(low, high) && low <= value <= high
    decreases n, 0, 0
  {
    if n == 0 then []
    else
      var s := SymbolAt(cdf, low, high, value);
      NarrowInside(low, high, CLow(cdf, s), CHigh(cdf, s));
      [s] + (if n == 1 then []
             else DecodeShift(cdf, NarrowLow(low, high, CLow(cdf, s)), NarrowHigh(low, high, CHigh(cdf, s)), value, stream, n - 1))
  }

  function DecodeShift(cdf: seq<nat>, low: nat, high: nat, value: nat, stream: seq<bit>, n: nat): (r: seq<nat>)
    requires ValidCdf(cdf) && Interval(low, high) && low <= value <= high
    decreases n, 1, FULL - (high - low)
  {
    if high < HALF then
      DecodeShift(cdf, 2 * low, 2 * high + 1, 2 * value + Head(stream), Tail(stream), n)
    else if low >= HALF then
      DecodeShift(cdf, 2 * low - FULL, 2 * high + 1 - FULL, 2 * value + Head(stream) - FULL, Tail(stream), n)
    else if low >= QUARTER && high < THREE_QUARTERS then
      DecodeShift(cdf, 2 * low - HALF, 2 * high + 1 - HALF, 2 * value + Head(stream) - HALF, Tail(stream), n)
    else
      DecodeFrom(cdf, low, high, value, stream, n)
  }

  /** How many stream bits the decoder shifts in. */
  function ShiftsFrom(cdf: seq<nat>, low: nat, high: nat, value: nat, stream: seq<bit>, n: nat): nat
    requires ValidCdf(cdf) && Settled(low, high) && low <= value <= high
    decreases n, 0, 0
  {
    if n <= 1 then 0
    else
      var s := SymbolAt(cdf, low, high, value);
      NarrowInside(low, high, CLow(cdf, s), CHigh(cdf, s));
      ShiftsIn(cdf, NarrowLow(low, high, CLow(cdf, s)), NarrowHigh(low, high, CHigh(cdf, s)), value, stream, n - 1)
  }

  function ShiftsIn(cdf: seq<nat>, low: nat, high: nat, value: nat, stream: seq<bit>, n: nat): nat
    requires ValidCdf(cdf) && Interval(low, high) && low <= value <= high
    decreases n, 1, FULL - (high - low)
  {
    if high < HALF then
      1 + ShiftsIn(cdf, 2 * low, 2 * high + 1, 2 * value + Head(stream), Tail(stream), n)
    else if low >= HALF then
      1 + ShiftsIn(cdf, 2 * low - FULL, 2 * high + 1 - FULL, 2 * value + Head(stream) - FULL, Tail(stream), n)
    else if low >= QUARTER && high < THREE_QUARTERS then
      1 + ShiftsIn(cdf, 2 * low - HALF, 2 * high + 1 - HALF, 2 * value + Head(stream) - HALF, Tail(stream), n)
    else
      ShiftsFrom(cdf, low, high, value, stream, n)
  }

  /** The symbols the decoder reads off a stream of at least 32 bits. */
  function DecodeBits(cdf: seq<nat>, stream: seq<bit>, n: nat): seq<nat>
    requires ValidCdf(cdf) && |stream| >= 32
  {
    WordBound(stream[..32]);
    DecodeFrom(cdf, 0, FULL - 1, Val(stream[..32]), stream[32..], n)
  }

  function ShiftsBits(cdf: seq<nat>, stream: seq<bit>, n: nat): nat
    requires ValidCdf(cdf) && |stream| >= 32
  {
    WordBound(stream[..32]);
    ShiftsFrom(cdf, 0, FULL - 1, Val(stream[..32]), stream[32..], n)
  }

  lemma WordBound(w: seq<bit>)
    requires |w| == 32
    ensures Val(w) < FULL
  {
    ValBound(w);
    Pow2Constants();
  }
}
