/**
 The three kernels of one channel in a row: table, encoder, decoder.
 */
module ChannelKernel {
  import opened Bits
  import opened CoderSpec
  import opened CoderKernel
  import opened CdfTable
  import opened ChannelLength

  const MAX_LP: nat := 48

  /** The stored int16 entries as the coder kernels load them. */
  method LoadCdf(words: seq<int>) returns (cdf: seq<nat>)
    requires forall i :: 0 <= i < |words| ==> -0x8000 <= words[i] < 0x8000
    ensures |cdf| == |words| && forall i :: 0 <= i < |words| ==> cdf[i] == if words[i] >= 0 then words[i] else words[i] + 0x1_0000
  {
    cdf := [];
    for i := 0 to |words|
      invariant |cdf| == i && forall j :: 0 <= j < i ==> cdf[j] == if words[j] >= 0 then words[j] else words[j] + 0x1_0000
    {
      cdf := cdf + [ToU16(words[i])];
    }
  }

  /** Table and encoder: the stream always fits the channel's row. */
  method StoreChannel(input: seq<nat>, maxBins: nat, out: array<byte>, base: nat) returns (cdf: seq<nat>, len: nat)
    requires 1 <= maxBins < MAX_BINS_SUPPORTED && |input| <= MAX_TOKENS && Tokens(input, maxBins)
    requires base + ROW <= out.Length
    modifies out
    ensures cdf == Table(input, maxBins) && ValidCdf(cdf) && ValidSyms(cdf, input)
    ensures len == (|EncodeBits(cdf, input)| + 7) / 8 && len + 4 <= ROW
    ensures Unpack(out[base..base + len]) == EncodeBits(cdf, input) + Rep(0, 8 * len - |EncodeBits(cdf, input)|)
    ensures forall k :: 0 <= k < out.Length && !(base <= k < base + len) ==> out[k] == old(out[k])
  {
    OwnRowFits(input, maxBins);
    var words := CalculateCdf(input, maxBins);
    cdf := LoadCdf(words);
    assert cdf == Table(input, maxBins);
    len := EncodeChannel(cdf, input, out, base);
  }

  /** Decoder: from the row alone, whatever follows the stream in it. */
  method LoadChannel(cdf: seq<nat>, row: seq<byte>, n: nat, ghost input: seq<nat>, ghost len: nat) returns (syms: seq<nat>)
    requires ValidCdf(cdf) && ValidSyms(cdf, input) && |input| == n
    requires |row| == ROW && len == (|EncodeBits(cdf, input)| + 7) / 8 && len + 4 <= ROW
    requires Unpack(row[..len]) == EncodeBits(cdf, input) + Rep(0, 8 * len - |EncodeBits(cdf, input)|)
    ensures syms == input
  {
    BytesRoundTrip(cdf, input, EncodeBits(cdf, input), row, len);
    syms := DecodeChannel(cdf, row, n);
  }

  datatype Verdict = Stored | TooManyBins | ShortTable | TooManyTokens | LongTable

  /** What the host functions refuse, in the order of their checks. */
  predicate Refuses(bins: nat, tokens: nat, v: Verdict)
  {
    if bins >= 64 then v == TooManyBins
    else if bins == 0 then v == ShortTable
    else if tokens > 256 then v == TooManyTokens
    else if bins > 47 then v == LongTable
    else v == Stored
  }

  /** Storing a channel in its row and loading it returns the tokens; no byte outside the row is touched or read. */
  method ThroughRow(input: seq<nat>, maxBins: nat, out: array<byte>, base: nat) returns (v: Verdict, syms: seq<nat>)
    requires Tokens(input, maxBins) && base + ROW <= out.Length
    modifies out
    ensures Refuses(maxBins, |input|, v)
    ensures v == Stored ==> syms == input
    ensures forall k :: 0 <= k < out.Length && (v != Stored || !(base <= k < base + ROW)) ==> out[k] == old(out[k])
  {
    syms := [];
    if maxBins >= MAX_BINS_SUPPORTED { return TooManyBins, syms; }
    var lp := maxBins + 1;
    if lp < 2 { return ShortTable, syms; }
    if |input| > MAX_TOKENS { return TooManyTokens, syms; }
    if lp > MAX_LP { return LongTable, syms; }
    var cdf, len := StoreChannel(input, maxBins, out, base);
    var row := out[base..base + ROW];
    assert row[..len] == out[base..base + len];
    syms := LoadChannel(cdf, row, |input|, input, len);
    v := Stored;
  }
}
