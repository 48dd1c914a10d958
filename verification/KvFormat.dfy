/**
 Engine KV-cache formats: the facts table, the strides resolved from it, and
 the tensor axes each format's name stands for.
 */
module KvFormat {
  import opened Radix

  datatype Format =
    | NB_NL_TWO_BS_NH_HS
    | NL_X_TWO_NB_BS_NH_HS
    | NL_X_NB_TWO_BS_NH_HS
    | NL_X_NB_BS_HS
    | TWO_X_NL_X_NBBS_NH_HS
    | NL_X_NBBS_ONE_HS
    | NL_X_TWO_NB_NH_BS_HS
    | NL_X_NB_TWO_NH_BS_HS
    | NB_NL_TWO_NH_BS_HS
    | TWO_X_NL_X_NB_BS_NH_HS
    | NL_X_NB_NH_BS_TWO_HS
    | NL_X_NB_BS_NH_TWO_HS
    | NL_X_NB_NH_BS_CS
    | NL_X_NB_BS_NH_CS
    | NL_X_NB_BSV_BSS
    | NL_X_TWO_NB_NH_ONE_BS_HS
    | NL_X_TWO_X_NB_BS_NH_HS
    | NL_X_NP_X_NB_BS_ONE_HS
    | NL_X_NB_BS_NH_HS
    | NL_X_NB_TWO_NH_ONE_BS_HS

  datatype Facts = Facts(crossLayer: bool, kvList: bool, layerList: bool, mla: bool, hnd: bool,
                         fusedPacked: bool, twoMajor: bool, pbsFused: bool, kvSecondTuple: bool)

  const NO_FACTS := Facts(false, false, false, false, false, false, false, false, false)
  const LAYER_LIST := NO_FACTS.(layerList := true)

  function FormatFacts(f: Format): Facts
  {
    match f
    case NB_NL_TWO_BS_NH_HS => NO_FACTS.(crossLayer := true)
    case NL_X_TWO_NB_BS_NH_HS => LAYER_LIST.(twoMajor := true)
    case NL_X_NB_TWO_BS_NH_HS => LAYER_LIST
    case NL_X_NB_BS_HS => LAYER_LIST.(mla := true)
    case TWO_X_NL_X_NBBS_NH_HS => NO_FACTS.(kvList := true)
    case NL_X_NBBS_ONE_HS => LAYER_LIST.(mla := true, pbsFused := true)
    case NL_X_TWO_NB_NH_BS_HS => LAYER_LIST.(hnd := true, twoMajor := true)
    case NL_X_NB_TWO_NH_BS_HS => LAYER_LIST.(hnd := true)
    case NB_NL_TWO_NH_BS_HS => NO_FACTS.(crossLayer := true, hnd := true)
    case TWO_X_NL_X_NB_BS_NH_HS => NO_FACTS.(kvList := true)
    case NL_X_NB_NH_BS_TWO_HS => LAYER_LIST.(hnd := true, fusedPacked := true)
    case NL_X_NB_BS_NH_TWO_HS => LAYER_LIST.(fusedPacked := true)
    case NL_X_NB_NH_BS_CS => LAYER_LIST.(hnd := true, fusedPacked := true)
    case NL_X_NB_BS_NH_CS => LAYER_LIST.(fusedPacked := true)
    case NL_X_NB_BSV_BSS => LAYER_LIST.(mla := true)
    case NL_X_TWO_NB_NH_ONE_BS_HS => LAYER_LIST.(hnd := true, twoMajor := true)
    case NL_X_TWO_X_NB_BS_NH_HS => LAYER_LIST.(kvSecondTuple := true)
    case NL_X_NP_X_NB_BS_ONE_HS => LAYER_LIST.(mla := true, kvSecondTuple := true)
    case NL_X_NB_BS_NH_HS => LAYER_LIST
    case NL_X_NB_TWO_NH_ONE_BS_HS => LAYER_LIST.(hnd := true)
  }

  // ------------------------------------------------------------------ shapes

  datatype Shape = Shape(kv: int, nl: int, nb: int, bs: int, nh: int, hs: int, elem: int, strideElems: int)

  predicate Positive(d: Shape)
  {
    d.nl > 0 && d.nb > 0 && d.bs > 0 && d.nh > 0 && d.hs > 0 && d.strideElems >= 0 && (d.elem == 1 || d.elem == 2 || d.elem == 4)
  }

  /** Bytes of one head of one token. */
  function HeadBytes(d: Shape): (r: nat)
    requires Positive(d)
    ensures r > 0
  {
    MulPositive(d.hs, d.elem);
    d.hs * d.elem
  }

  function RowBytes(d: Shape): (r: nat)
    requires Positive(d)
    ensures r > 0 && r == d.nh * HeadBytes(d)
  {
    MulPositive(d.nh, HeadBytes(d));
    d.nh * HeadBytes(d)
  }

  function BlockBytes(d: Shape): (r: nat)
    requires Positive(d)
    ensures r > 0 && r == d.bs * RowBytes(d)
  {
    MulPositive(d.bs, RowBytes(d));
    d.bs * RowBytes(d)
  }

  datatype Layout = Layout(blockStride: nat, layerStride: nat, kvStride: nat, pointerLayerStride: nat, pointerKvStride: nat,
                           hnd: bool, blockedScale: bool)

  datatype LayoutError = VariableWidth | KvSizeMismatch | MlaHeads | StrideUnsupported | StrideTooSmall | BlockedScaleRows

  datatype Resolved = Ok(layout: Layout) | Err(error: LayoutError)

  /** How layers, K/V planes and blocks nest, read off the format's name. */
  datatype Family = CrossLayer | KvList | LayerTuples | TwoMajor | BlockPairs | SinglePlane

  function FamilyOf(f: Format): Family
  {
    match f
    case NB_NL_TWO_BS_NH_HS => CrossLayer
    case NB_NL_TWO_NH_BS_HS => CrossLayer
    case TWO_X_NL_X_NBBS_NH_HS => KvList
    case TWO_X_NL_X_NB_BS_NH_HS => KvList
    case NL_X_TWO_X_NB_BS_NH_HS => LayerTuples
    case NL_X_NP_X_NB_BS_ONE_HS => LayerTuples
    case NL_X_TWO_NB_BS_NH_HS => TwoMajor
    case NL_X_TWO_NB_NH_BS_HS => TwoMajor
    case NL_X_TWO_NB_NH_ONE_BS_HS => TwoMajor
    case NL_X_NB_TWO_BS_NH_HS => BlockPairs
    case NL_X_NB_TWO_NH_BS_HS => BlockPairs
    case NL_X_NB_TWO_NH_ONE_BS_HS => BlockPairs
    case NL_X_NB_BS_HS => SinglePlane
    case NL_X_NBBS_ONE_HS => SinglePlane
    case NL_X_NB_NH_BS_TWO_HS => SinglePlane
    case NL_X_NB_BS_NH_TWO_HS => SinglePlane
    case NL_X_NB_NH_BS_CS => SinglePlane
    case NL_X_NB_BS_NH_CS => SinglePlane
    case NL_X_NB_BSV_BSS => SinglePlane
    case NL_X_NB_BS_NH_HS => SinglePlane
  }

  /** Heads come before tokens inside a block. */
  predicate HeadMajor(f: Format)
  {
    f in {NL_X_TWO_NB_NH_BS_HS, NL_X_NB_TWO_NH_BS_HS, NB_NL_TWO_NH_BS_HS, NL_X_NB_NH_BS_TWO_HS, NL_X_NB_NH_BS_CS,
          NL_X_TWO_NB_NH_ONE_BS_HS, NL_X_NB_TWO_NH_ONE_BS_HS}
  }

  /** One latent head per token. */
  predicate Latent(f: Format)
  {
    f in {NL_X_NB_BS_HS, NL_X_NBBS_ONE_HS, NL_X_NB_BSV_BSS, NL_X_NP_X_NB_BS_ONE_HS}
  }

  function Planes(f: Format): nat
  {
    if FamilyOf(f) == SinglePlane then 1 else 2
  }

  /** A block stride wider than the block can be asked for. */
  predicate Paddable(f: Format)
  {
    FamilyOf(f) == SinglePlane && f != NL_X_NBBS_ONE_HS
  }

  /** What resolve_layout accepts. */
  predicate Supported(d: Shape, f: Format)
    requires Positive(d)
  {
    && f != NL_X_NP_X_NB_BS_ONE_HS
    && d.kv == Planes(f)
    && (Latent(f) ==> d.nh == 1)
    && (d.strideElems != 0 ==> Paddable(f) && d.strideElems * d.elem >= BlockBytes(d))
    && (f == NL_X_NB_BSV_BSS ==> d.elem == 1 && d.hs > 4)
  }

  function LayoutFor(d: Shape, f: Format): Layout
    requires Positive(d)
  {
    var tight := Tight(d, FamilyOf(f), HeadMajor(f), f == NL_X_NB_BSV_BSS);
    if FamilyOf(f) == SinglePlane && d.strideElems != 0 then tight.(blockStride := Mul(d.strideElems, d.elem)) else tight
  }

  /** The strides of a family without padding between blocks. */
  function Tight(d: Shape, family: Family, hnd: bool, blockedScale: bool): Layout
    requires Positive(d)
  {
    var b := BlockBytes(d);
    match family
    case CrossLayer => Layout(Mul(2 * d.nl, b), 2 * b, b, 0, 0, hnd, blockedScale)
    case KvList => Layout(b, 0, 0, 1, d.nl, hnd, blockedScale)
    case LayerTuples => Layout(b, 0, 0, 2, 1, hnd, blockedScale)
    case TwoMajor => Layout(b, 0, Mul(d.nb, b), 1, 0, hnd, blockedScale)
    case BlockPairs => Layout(2 * b, 0, b, 1, 0, hnd, blockedScale)
    case SinglePlane => Layout(b, 0, 0, 1, 0, hnd, blockedScale)
  }

  /** The strides set branch by branch from the facts. */
  method TightLayout(d: Shape, facts: Facts, blockedScale: bool, ghost family: Family) returns (layout: Layout)
    requires Positive(d) && FactsFor(facts, family) && d.kv == (if family == SinglePlane then 1 else 2)
    ensures layout == Tight(d, family, facts.hnd, blockedScale)
  {
    var b := BlockBytes(d);
    layout := Layout(b, 0, 0, 1, 0, facts.hnd, blockedScale);
    if facts.crossLayer {
      layout := layout.(blockStride := Mul(Mul(d.nl, d.kv), b), layerStride := Mul(d.kv, b), kvStride := b, pointerLayerStride := 0);
    } else if facts.kvList {
      layout := layout.(pointerKvStride := d.nl);
    } else if facts.kvSecondTuple {
      layout := layout.(pointerLayerStride := 2, pointerKvStride := 1);
    } else if facts.twoMajor {
      layout := layout.(kvStride := Mul(d.nb, b));
    } else if d.kv == 2 {
      layout := layout.(blockStride := Mul(d.kv, b), kvStride := b);
    }
  }

  predicate FactsFor(x: Facts, family: Family)
  {
    && x.crossLayer == (family == CrossLayer)
    && x.kvList == (family == KvList)
    && x.kvSecondTuple == (family == LayerTuples)
    && x.twoMajor == (family == TwoMajor)
  }

  /** The strides from the facts table are those of the format's name; every refusal has its reason. */
  method ResolveLayout(d: Shape, f: Format) returns (r: Resolved)
    requires Positive(d)
    ensures r.Ok? <==> Supported(d, f)
    ensures r.Ok? ==> r.layout == LayoutFor(d, f)
    ensures r.Err? ==> Refused(d, f, r.error)
  {
    var facts := FormatFacts(f);
    FactsMatchName(f);
    if f == NL_X_NP_X_NB_BS_ONE_HS {
      return Err(VariableWidth);
    }
    var expectedKv := if facts.mla || facts.fusedPacked || f == NL_X_NB_BS_NH_HS then 1 else 2;
    if d.kv != expectedKv {
      return Err(KvSizeMismatch);
    }
    if facts.mla && d.nh != 1 {
      return Err(MlaHeads);
    }
    var layout := TightLayout(d, facts, f == NL_X_NB_BSV_BSS, FamilyOf(f));
    if d.strideElems != 0 {
      if !(f == NL_X_NB_BS_HS || f == NL_X_NB_BSV_BSS || f == NL_X_NB_BS_NH_HS || facts.fusedPacked) {
        return Err(StrideUnsupported);
      }
      var stride := Mul(d.strideElems, d.elem);
      if stride < BlockBytes(d) {
        return Err(StrideTooSmall);
      }
      layout := layout.(blockStride := stride);
    }
    if layout.blockedScale {
      if !(d.elem == 1 && d.hs > 4) {
        return Err(BlockedScaleRows);
      }
    }
    return Ok(layout);
  }

  /** The facts table agrees with the names. */
  lemma FactsMatchName(f: Format)
    ensures var x := FormatFacts(f);
            && x.hnd == HeadMajor(f)
            && x.mla == Latent(f)
            && FactsFor(x, FamilyOf(f))
            && (f != NL_X_NP_X_NB_BS_ONE_HS ==> ((x.mla || x.fusedPacked || f == NL_X_NB_BS_NH_HS) == (FamilyOf(f) == SinglePlane)))
            && (f == NL_X_NB_BS_HS || f == NL_X_NB_BSV_BSS || f == NL_X_NB_BS_NH_HS || x.fusedPacked) == Paddable(f)
  {
  }

  /** The first check that fails decides the error. */
  predicate Refused(d: Shape, f: Format, e: LayoutError)
    requires Positive(d)
  {
    if f == NL_X_NP_X_NB_BS_ONE_HS then e == VariableWidth
    else if d.kv != Planes(f) then e == KvSizeMismatch
    else if Latent(f) && d.nh != 1 then e == MlaHeads
    else if d.strideElems != 0 && !Paddable(f) then e == StrideUnsupported
    else if d.strideElems != 0 && d.strideElems * d.elem < BlockBytes(d) then e == StrideTooSmall
    else f == NL_X_NB_BSV_BSS && !(d.elem == 1 && d.hs > 4) && e == BlockedScaleRows
  }
}
