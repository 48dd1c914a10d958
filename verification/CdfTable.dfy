/**
 The frequency table of one channel: histogram, prefix sum and normalisation in
 16-bit steps, and the chain table -> encoder -> decoder.
 */
module CdfTable {
  import opened Bits
  import opened Sequences
  import opened CoderSpec
  import opened CoderProof

  const U16: nat := 0x1_0000
  const MAX_BINS_SUPPORTED: nat := 64

  /** Occurrences of v. */
  function CountEq(input: seq<nat>, v: nat): (c: nat)
    ensures c <= |input|
  {
    if input == [] then 0
    else CountEq(input[..|input| - 1], v) + (if input[|input| - 1] == v then 1 else 0)
  }

  /** Tokens with a value below i. */
  function CountBelow(input: seq<nat>, i: nat): (c: nat)
    ensures c <= |input|
  {
    if input == [] then 0
    else CountBelow(input[..|input| - 1], i) + (if input[|input| - 1] < i then 1 else 0)
  }

  lemma {:induction false} CountBelowStep(input: seq<nat>, i: nat)
    ensures CountBelow(input, i + 1) == CountBelow(input, i) + CountEq(input, i)
  {
    if input != [] {
      CountBelowStep(input[..|input| - 1], i);
    }
  }

  lemma {:induction false} CountBelowEnds(input: seq<nat>, maxBins: nat)
    requires forall k :: 0 <= k < |input| ==> input[k] < maxBins
    ensures CountBelow(input, 0) == 0
    ensures CountBelow(input, maxBins) == |input|
  {
    if input != [] {
      CountBelowEnds(input[..|input| - 1], maxBins);
    }
  }

  function Scaled(s: nat, c: nat, n: nat): (r: nat)
    requires n > 0
  {
    MulLe(c, 0, s);
    s * c / n
  }

  /** Table entry i: the share of tokens below i, scaled to leave one step per bin. */
  function Entry(input: seq<nat>, maxBins: nat, i: nat): nat
    requires maxBins < U16
  {
    if input == [] then i else Scaled(0xFFFF - maxBins, CountBelow(input, i), |input|) + i
  }

  function Table(input: seq<nat>, maxBins: nat): (t: seq<nat>)
    requires maxBins < U16
    ensures |t| == maxBins + 1
  {
    seq(maxBins + 1, i requires 0 <= i <= maxBins => Entry(input, maxBins, i))
  }

  lemma EntryIncreases(input: seq<nat>, maxBins: nat, i: nat)
    requires maxBins < U16
    ensures Entry(input, maxBins, i) < Entry(input, maxBins, i + 1)
  {
    CountBelowStep(input, i);
    if input != [] {
      DivMonotone((0xFFFF - maxBins), CountBelow(input, i), CountBelow(input, i + 1), |input|);
    }
  }

  lemma DivMonotone(s: nat, a: nat, b: nat, d: nat)
    requires a <= b && d > 0
    ensures s * a / d <= s * b / d
  {
    MulLe(s, a, b);
    DivLe(s * a, s * b, d);
  }

  lemma DivLe(x: nat, y: nat, d: nat)
    requires x <= y && d > 0
    ensures x / d <= y / d
  {
    DivLess(x, d, y / d + 1);
    assert y < d * (y / d) + d;
    assert (y / d + 1) * d == d * (y / d) + d;
  }

  lemma {:induction false} EntryMonotone(input: seq<nat>, maxBins: nat, i: nat, j: nat)
    requires maxBins < U16 && i < j
    ensures Entry(input, maxBins, i) < Entry(input, maxBins, j)
    decreases j
  {
    EntryIncreases(input, maxBins, j - 1);
    if i < j - 1 {
      EntryMonotone(input, maxBins, i, j - 1);
    }
  }

  lemma EntryEnds(input: seq<nat>, maxBins: nat)
    requires maxBins < U16 && forall k :: 0 <= k < |input| ==> input[k] < maxBins
    ensures Entry(input, maxBins, 0) == 0
    ensures Entry(input, maxBins, maxBins) == if input == [] then maxBins else 0xFFFF
  {
    CountBelowEnds(input, maxBins);
    if input != [] {
      MulDiv(0xFFFF - maxBins, |input|);
    }
  }

  lemma MulDiv(s: nat, d: nat)
    requires d > 0
    ensures s * d / d == s
  {
    DivLess(s * d, d, s + 1);
    DivLess(s * d, d, s);
    assert (s + 1) * d == s * d + d;
  }

  /** The table of any channel meets the coder's demands on it, and covers its own tokens. */
  lemma TableIsValid(input: seq<nat>, maxBins: nat)
    requires 1 <= maxBins < U16 && forall k :: 0 <= k < |input| ==> input[k] < maxBins
    ensures ValidCdf(Table(input, maxBins)) && ValidSyms(Table(input, maxBins), input)
    ensures forall i, j :: 0 <= i < j <= maxBins ==> Table(input, maxBins)[i] < Table(input, maxBins)[j]
    ensures input != [] ==> Table(input, maxBins)[maxBins] == 0xFFFF
  {
    EntryEnds(input, maxBins);
    forall i, j | 0 <= i < j <= maxBins
      ensures Entry(input, maxBins, i) < Entry(input, maxBins, j)
    {
      EntryMonotone(input, maxBins, i, j);
    }
  }

  /** Every channel survives table building, encoding and decoding, whatever follows the stream. */
  lemma ChannelRoundTrip(input: seq<nat>, maxBins: nat, pad: seq<bit>)
    requires 1 <= maxBins < U16 && forall k :: 0 <= k < |input| ==> input[k] < maxBins
    requires |pad| >= 32
    ensures ValidCdf(Table(input, maxBins)) && ValidSyms(Table(input, maxBins), input)
    ensures var cdf := Table(input, maxBins);
            DecodeBits(cdf, EncodeBits(cdf, input) + pad, |input|) == input
  {
    TableIsValid(input, maxBins);
    RoundTrip(Table(input, maxBins), input, pad);
  }

  /**
   The byte buffers: a row that starts with the encoder's bytes decodes to the
   symbols, and the decoder reads no byte past length + 3, whatever it holds.
   */
  lemma BytesRoundTrip(cdf: seq<nat>, syms: seq<nat>, e: seq<bit>, bytes: seq<byte>, len: nat)
    requires ValidCdf(cdf) && ValidSyms(cdf, syms) && e == EncodeBits(cdf, syms)
    requires len == (|e| + 7) / 8 && len + 4 <= |bytes|
    requires Unpack(bytes[..len]) == e + Rep(0, 8 * len - |e|)
    ensures DecodeBits(cdf, Unpack(bytes), |syms|) == syms
    ensures 4 + ShiftsBits(cdf, Unpack(bytes), |syms|) / 8 <= len + 3
  {
    var pad := RowPad(bytes, len, e);
    StreamRoundTrip(cdf, syms, e, Unpack(bytes), pad, len);
  }

  lemma StreamRoundTrip(cdf: seq<nat>, syms: seq<nat>, e: seq<bit>, stream: seq<bit>, pad: seq<bit>, len: nat)
    requires ValidCdf(cdf) && ValidSyms(cdf, syms) && e == EncodeBits(cdf, syms)
    requires |pad| >= 32 && stream == e + pad && len == (|e| + 7) / 8
    ensures DecodeBits(cdf, stream, |syms|) == syms
    ensures 4 + ShiftsBits(cdf, stream, |syms|) / 8 <= len + 3
  {
    RoundTrip(cdf, syms, pad);
    LastByte(ShiftsBits(cdf, stream, |syms|), |e|, len);
  }

  /** What follows the stream in the row: zero bits up to a byte, then the bytes behind it. */
  lemma RowPad(bytes: seq<byte>, len: nat, e: seq<bit>) returns (pad: seq<bit>)
    requires |e| <= 8 * len && len + 4 <= |bytes| && Unpack(bytes[..len]) == e + Rep(0, 8 * len - |e|)
    ensures Unpack(bytes) == e + pad && |pad| >= 32
  {
    var zeros := Rep(0, 8 * len - |e|);
    RowStream(bytes, len, e, zeros);
    pad := zeros + Unpack(bytes[len..]);
  }

  lemma LastByte(shifts: nat, bits: nat, len: nat)
    requires shifts + 2 <= bits && len == (bits + 7) / 8
    ensures 4 + shifts / 8 <= len + 3
  {
  }

  lemma RowStream(bytes: seq<byte>, len: nat, e: seq<bit>, zeros: seq<bit>)
    requires len <= |bytes| && Unpack(bytes[..len]) == e + zeros
    ensures Unpack(bytes) == e + (zeros + Unpack(bytes[len..]))
  {
    FrontAndBack(bytes, len);
    UnpackConcat(bytes[..len], bytes[len..]);
    ConcatAssoc(e, zeros, Unpack(bytes[len..]));
  }

  // ------------------------------------------------------------- the kernel

  /** The int16 with the same 16 bits, and back. */
  function ToI16(x: nat): int { if x % U16 < 0x8000 then x % U16 else x % U16 - U16 }
  function ToU16(y: int): nat { y % U16 }

  function NormalizeCdfValue(cdfValue: nat, total: nat, maxBins: nat): nat
    requires maxBins < U16 && total > 0
  {
    (0xFFFF - maxBins) * cdfValue % 0x1_0000_0000 / total % U16
  }

  /** No 16- or 32-bit step of the normalisation wraps. */
  lemma NormalizeExact(input: seq<nat>, maxBins: nat, i: nat)
    requires 1 <= |input| < U16 && i <= maxBins < U16
    requires forall k :: 0 <= k < |input| ==> input[k] < maxBins
    ensures (NormalizeCdfValue(CountBelow(input, i), |input|, maxBins) + i) % U16 == Entry(input, maxBins, i) < U16
  {
    var s, c, n := 0xFFFF - maxBins, CountBelow(input, i), |input|;
    ProductFits(s, c, n);
    EntryEnds(input, maxBins);
    if i < maxBins {
      EntryMonotone(input, maxBins, i, maxBins);
    }
    StepsExact(s * c, n, i);
  }

  lemma StepsExact(p: nat, n: nat, i: nat)
    requires p < 0x1_0000_0000 && n > 0 && p / n + i < U16
    ensures (p % 0x1_0000_0000 / n % U16 + i) % U16 == p / n + i
  {
    assert p % 0x1_0000_0000 == p;
    var q := p / n;
    assert q >= 0 by { DivLess(p, n, 0); }
    assert q % U16 == q;
  }

  lemma ProductFits(s: nat, c: nat, n: nat)
    requires s <= 0xFFFF && c <= n < U16
    ensures 0 <= s * c < 0x1_0000_0000
  {
    MulLe(s, c, n);
    MulLe(n, s, 0xFFFF);
  }

  method Histogram(input: seq<nat>, maxBins: nat, hist: array<nat>)
    requires hist.Length == maxBins + 1
    requires forall k :: 0 <= k < |input| ==> input[k] < maxBins
    modifies hist
    ensures hist[0] == 0 && forall v :: 0 <= v < maxBins ==> hist[v + 1] == CountEq(input, v) % U16
  {
    for i := 0 to maxBins + 1
      invariant forall j :: 0 <= j < i ==> hist[j] == 0
    {
      hist[i] := 0;
    }
    for i := 0 to |input|
      invariant hist[0] == 0 && forall v :: 0 <= v < maxBins ==> hist[v + 1] == CountEq(input[..i], v) % U16
    {
      assert input[..i + 1][..i] == input[..i];
      hist[input[i] + 1] := (hist[input[i] + 1] + 1) % U16;
    }
    assert input[..|input|] == input;
  }

  lemma AddMod(a: nat, b: nat)
    ensures (a % U16 + b % U16) % U16 == (a + b) % U16
  {
  }

  method PrefixSum(input: seq<nat>, maxBins: nat, hist: array<nat>) returns (total: nat)
    requires hist.Length == maxBins + 1
    requires forall k :: 0 <= k < |input| ==> input[k] < maxBins
    requires hist[0] == 0 && forall v :: 0 <= v < maxBins ==> hist[v + 1] == CountEq(input, v) % U16
    modifies hist
    ensures total == |input| % U16
    ensures forall i :: 0 <= i <= maxBins ==> hist[i] == CountBelow(input, i) % U16
  {
    CountBelowEnds(input, maxBins);
    total := 0;
    for i := 0 to maxBins
      invariant total == CountBelow(input, i) % U16
      invariant forall j :: 0 <= j <= i ==> hist[j] == CountBelow(input, j) % U16
      invariant forall v :: i <= v < maxBins ==> hist[v + 1] == CountEq(input, v) % U16
    {
      CountBelowStep(input, i);
      AddMod(CountBelow(input, i), CountEq(input, i));
      var value := hist[i + 1];
      hist[i + 1] := (total + value) % U16;
      total := (total + value) % U16;
    }
  }

  /** Entry i from a 16-bit count and a 16-bit total. */
  function Stored(count: nat, total: nat, maxBins: nat, i: nat): (r: nat)
    requires maxBins < U16
    ensures r < U16
  {
    if total == 0 then i % U16 else (NormalizeCdfValue(count, total, maxBins) + i) % U16
  }

  /** What the 16-bit counters make of any number of tokens: the first n entries. */
  function StoredTable(input: seq<nat>, maxBins: nat, n: nat): (t: seq<nat>)
    requires maxBins < U16
    ensures |t| == n && forall i :: 0 <= i < n ==> t[i] < U16
  {
    if n == 0 then []
    else StoredTable(input, maxBins, n - 1) + [Stored(CountBelow(input, n - 1) % U16, |input| % U16, maxBins, n - 1)]
  }

  lemma Below16(x: nat)
    requires x < U16
    ensures x % U16 == x
  {
  }

  lemma StoredIsEntry(input: seq<nat>, maxBins: nat, i: nat, c: nat, n: nat)
    requires |input| < U16 && i <= maxBins < U16 && c == CountBelow(input, i) && n == |input|
    requires forall k :: 0 <= k < |input| ==> input[k] < maxBins
    ensures Stored(c, n, maxBins, i) == Entry(input, maxBins, i)
  {
    if input == [] {
      Below16(i);
    } else {
      NormalizeExact(input, maxBins, i);
    }
  }

  /** Up to 65535 tokens that is the table. */
  lemma {:induction false} StoredIsTable(input: seq<nat>, maxBins: nat, n: nat)
    requires |input| < U16 && n <= maxBins + 1 <= U16
    requires forall k :: 0 <= k < |input| ==> input[k] < maxBins
    ensures StoredTable(input, maxBins, n) == Table(input, maxBins)[..n]
  {
    if n > 0 {
      StoredIsTable(input, maxBins, n - 1);
      Below16(CountBelow(input, n - 1));
      Below16(|input|);
      StoredIsEntry(input, maxBins, n - 1, CountBelow(input, n - 1), |input|);
      assert Table(input, maxBins)[..n] == Table(input, maxBins)[..n - 1] + [Entry(input, maxBins, n - 1)];
    }
  }

  /** For any number of tokens, in whole numbers: the wrapped share plus the bin, wrapped again. */
  lemma {:induction false} StoredExactly(input: seq<nat>, maxBins: nat, n: nat, i: nat)
    requires i < n <= maxBins + 1 <= 0x1_0000
    ensures var (total, below) := (|input| % 0x1_0000, CountBelow(input, i) % 0x1_0000);
            StoredTable(input, maxBins, n)[i] == if total == 0 then i else ((0xFFFF - maxBins) * below / total % 0x1_0000 + i) % 0x1_0000
  {
    if i < n - 1 {
      StoredExactly(input, maxBins, n - 1, i);
    } else {
      StoredIs(CountBelow(input, i) % U16, |input| % U16, maxBins, i);
    }
  }

  lemma StoredIs(count: nat, total: nat, maxBins: nat, i: nat)
    requires count < 0x1_0000 && i <= maxBins < 0x1_0000
    ensures Stored(count, total, maxBins, i) == if total == 0 then i else ((0xFFFF - maxBins) * count / total % 0x1_0000 + i) % 0x1_0000
  {
    ProductBelow(0xFFFF - maxBins, count);
    Below16(i);
  }

  /** The 32-bit product does not wrap. */
  lemma ProductBelow(s: nat, c: nat)
    requires s <= 0xFFFF && c <= 0xFFFF
    ensures 0 <= s * c < 0x1_0000_0000 && s * c % 0x1_0000_0000 == s * c
  {
    MulLe(s, c, 0xFFFF);
    MulLe(0xFFFF, s, 0xFFFF);
    MulLe(s, 0, c);
  }

  method NormaliseOne(count: nat, total: nat, maxBins: nat, i: nat) returns (r: nat)
    requires i <= maxBins < MAX_BINS_SUPPORTED
    ensures r == Stored(count, total, maxBins, i)
  {
    if total > 0 {
      r := (NormalizeCdfValue(count, total, maxBins) + i) % U16;
    } else {
      r := i;
    }
  }

  method Normalise(input: seq<nat>, maxBins: nat, hist: array<nat>, total: nat)
    requires hist.Length == maxBins + 1 && maxBins < MAX_BINS_SUPPORTED
    requires total == |input| % U16 && forall i :: 0 <= i <= maxBins ==> hist[i] == CountBelow(input, i) % U16
    modifies hist
    ensures hist[..] == StoredTable(input, maxBins, maxBins + 1)
  {
    for i := 0 to maxBins + 1
      invariant hist[..i] == StoredTable(input, maxBins, i)
      invariant forall j :: i <= j <= maxBins ==> hist[j] == CountBelow(input, j) % U16
    {
      ghost var done := hist[..i];
      hist[i] := NormaliseOne(hist[i], total, maxBins, i);
      assert hist[..i + 1] == done + [hist[i]];
    }
  }

  /** The kernel's output: what the counters make of the tokens, which up to 65535 is the table, entries from 0x8000 on as negative numbers. */
  method CalculateCdf(input: seq<nat>, maxBins: nat) returns (output: seq<int>)
    requires maxBins < MAX_BINS_SUPPORTED
    requires forall k :: 0 <= k < |input| ==> input[k] < maxBins
    ensures |output| == maxBins + 1
    ensures forall i :: 0 <= i <= maxBins ==>
              var e := StoredTable(input, maxBins, maxBins + 1)[i];
              e < 0x1_0000 && output[i] + (if e < 0x8000 then 0 else 0x1_0000) == e
    ensures |input| < U16 ==> StoredTable(input, maxBins, maxBins + 1) == Table(input, maxBins)
  {
    var hist := new nat[maxBins + 1](_ => 0);
    Histogram(input, maxBins, hist);
    var total := PrefixSum(input, maxBins, hist);
    Normalise(input, maxBins, hist, total);
    output := StoreI16(hist[..]);
    if |input| < U16 {
      StoredIsTable(input, maxBins, maxBins + 1);
      assert Table(input, maxBins)[..maxBins + 1] == Table(input, maxBins);
    }
  }

  method StoreI16(words: seq<nat>) returns (output: seq<int>)
    requires forall i :: 0 <= i < |words| ==> words[i] < U16
    ensures |output| == |words|
    ensures forall i :: 0 <= i < |words| ==> output[i] + (if words[i] < 0x8000 then 0 else 0x1_0000) == words[i]
  {
    output := [];
    for i := 0 to |words|
      invariant |output| == i
      invariant forall j :: 0 <= j < i ==> output[j] + (if words[j] < 0x8000 then 0 else 0x1_0000) == words[j]
    {
      output := output + [ToI16(words[i])];
    }
  }
}
