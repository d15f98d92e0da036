/**
 * The inner-product (fully connected) primitive descriptor family:
 * a base descriptor with shape accessors plus forward, backward-data and
 * backward-weights variants.
 *
 * The class hierarchy becomes one value, `PrimitiveDesc`, carrying an
 * explicit variant tag, the frozen operator description, and the
 * variant's own copies of its argument descriptors. The shape accessors
 * read the operator description; the slot accessors and
 * `ICTotalPadded` read the copies. `Build` makes the copies as each
 * variant's constructor does; no member of this file changes them, but
 * an implementation may later give them their final layouts, so every
 * other member accepts any copies.
 */
module InnerProductPd {
  import opened DnnlTypes

  /** The operator description the caller builds and the descriptor freezes. */
  datatype InnerProductDesc = InnerProductDesc(
    propKind: PropKind,
    srcDesc: MemoryDesc,
    diffSrcDesc: MemoryDesc,
    weightsDesc: MemoryDesc,
    diffWeightsDesc: MemoryDesc,
    biasDesc: MemoryDesc,
    diffBiasDesc: MemoryDesc,
    dstDesc: MemoryDesc,
    diffDstDesc: MemoryDesc,
    accumDataType: DataType)

  datatype Variant = Fwd | BwdData | BwdWeights

  /** The argument descriptors a variant keeps for itself (`src_md_`, `weights_md_`, ...);
      a variant without a field of that name leaves the entry unused. */
  datatype SlotDescs = SlotDescs(
    src: MemoryDesc,
    weights: MemoryDesc,
    bias: MemoryDesc,
    dst: MemoryDesc,
    diffSrc: MemoryDesc,
    diffWeights: MemoryDesc,
    diffBias: MemoryDesc,
    diffDst: MemoryDesc)

  datatype PrimitiveDesc = PrimitiveDesc(variant: Variant, desc: InnerProductDesc, slots: SlotDescs)

  /** The descriptor a variant's constructor builds: it copies the operator-description
      fields it keeps; the unused entries are the zero descriptor. */
  function Build(variant: Variant, d: InnerProductDesc): PrimitiveDesc {
    var z := ZeroMd;
    var slots :=
      match variant
      case Fwd => SlotDescs(d.srcDesc, d.weightsDesc, d.biasDesc, d.dstDesc, z, z, z, z)
      case BwdData => SlotDescs(z, d.weightsDesc, z, z, d.diffSrcDesc, z, z, d.diffDstDesc)
      case BwdWeights => SlotDescs(d.srcDesc, z, z, z, z, d.diffWeightsDesc, d.diffBiasDesc, d.diffDstDesc);
    PrimitiveDesc(variant, d, slots)
  }

  /** The descriptor copies are still as the constructor left them. */
  predicate AsBuilt(pd: PrimitiveDesc) {
    pd == Build(pd.variant, pd.desc)
  }

  predicate IsFwdKind(k: PropKind) {
    k == ForwardTraining || k == ForwardInference
  }

  /** The variant tag agrees with the propagation kind it was built for. */
  predicate Consistent(pd: PrimitiveDesc) {
    match pd.variant
    case Fwd => IsFwdKind(pd.desc.propKind)
    case BwdData => pd.desc.propKind == BackwardData
    case BwdWeights => pd.desc.propKind == BackwardWeights
  }

  // ---------------------------------------------------------------------
  // Propagation-invariant selectors. Their bodies live outside this model;
  // the table below is the modelling assumption: a backward kind reads the
  // "diff" counterpart of the argument it computes.

  function PropInvariantSrc(d: InnerProductDesc): MemoryDesc {
    if d.propKind == BackwardData then d.diffSrcDesc else d.srcDesc
  }

  function PropInvariantWei(d: InnerProductDesc): MemoryDesc {
    if d.propKind == BackwardWeights then d.diffWeightsDesc else d.weightsDesc
  }

  function PropInvariantBia(d: InnerProductDesc): MemoryDesc {
    if d.propKind == BackwardWeights then d.diffBiasDesc else d.biasDesc
  }

  function PropInvariantDst(d: InnerProductDesc): MemoryDesc {
    if IsFwdKind(d.propKind) then d.dstDesc else d.diffDstDesc
  }

  // ---------------------------------------------------------------------
  // Query interface

  datatype QueryKind = InnerProductD | OtherQuery(code: int)

  /** `GenericQuery` stands for the generic descriptor's answer to any other query. */
  datatype QueryResult = DescResult(desc: InnerProductDesc) | GenericQuery

  function Query(pd: PrimitiveDesc, what: QueryKind): (r: QueryResult)
    ensures r.DescResult? <==> what == InnerProductD
    ensures r.DescResult? ==> r.desc == pd.desc
  {
    match what
    case InnerProductD => DescResult(pd.desc)
    case OtherQuery(_) => GenericQuery
  }

  // ---------------------------------------------------------------------
  // Shape accessors

  function Ndims(pd: PrimitiveDesc): Rank {
    PropInvariantSrc(pd.desc).ndims
  }

  function MB(pd: PrimitiveDesc): int { PropInvariantSrc(pd.desc).dims[0] }
  function IC(pd: PrimitiveDesc): int { PropInvariantSrc(pd.desc).dims[1] }
  function OC(pd: PrimitiveDesc): int { PropInvariantDst(pd.desc).dims[1] }

  /** Depth, height and width of `md` read at rank `n`: 1 when the rank has no such axis. */
  function Depth(md: MemoryDesc, n: Rank): int { if n >= 5 then md.dims[n - 3] else 1 }
  function Height(md: MemoryDesc, n: Rank): int { if n >= 4 then md.dims[n - 2] else 1 }
  function Width(md: MemoryDesc, n: Rank): int { if n >= 3 then md.dims[n - 1] else 1 }

  function ID(pd: PrimitiveDesc): int { Depth(PropInvariantSrc(pd.desc), Ndims(pd)) }
  function IH(pd: PrimitiveDesc): int { Height(PropInvariantSrc(pd.desc), Ndims(pd)) }
  function IW(pd: PrimitiveDesc): int { Width(PropInvariantSrc(pd.desc), Ndims(pd)) }

  function OD(pd: PrimitiveDesc): int { Depth(PropInvariantDst(pd.desc), Ndims(pd)) }
  function OH(pd: PrimitiveDesc): int { Height(PropInvariantDst(pd.desc), Ndims(pd)) }
  function OW(pd: PrimitiveDesc): int { Width(PropInvariantDst(pd.desc), Ndims(pd)) }

  function KD(pd: PrimitiveDesc): int { Depth(PropInvariantWei(pd.desc), Ndims(pd)) }
  function KH(pd: PrimitiveDesc): int { Height(PropInvariantWei(pd.desc), Ndims(pd)) }
  function KW(pd: PrimitiveDesc): int { Width(PropInvariantWei(pd.desc), Ndims(pd)) }

  /** Product of every non-batch extent of the invariant source. */
  function ICTotal(pd: PrimitiveDesc): int
    requires Ndims(pd) >= 1
  {
    Product(PropInvariantSrc(pd.desc).dims[1..Ndims(pd)])
  }

  /** The descriptor whose padding `ICTotalPadded` reads. */
  function PaddedSource(pd: PrimitiveDesc): MemoryDesc {
    if pd.desc.propKind == BackwardData then DiffSrcMd(pd, 0) else SrcMd(pd, 0)
  }

  /** Padded counterpart of `ICTotal`; -1 when the descriptor is not blocked. */
  function ICTotalPadded(pd: PrimitiveDesc): int
    requires PaddedSource(pd).isBlocking ==> Ndims(pd) >= 1
  {
    var md := PaddedSource(pd);
    if !md.isBlocking then -1 else Product(md.paddedDims[1..Ndims(pd)])
  }

  predicate WithBias(pd: PrimitiveDesc) {
    !IsZero(PropInvariantBia(pd.desc))
  }

  predicate HasZeroDimMemory(pd: PrimitiveDesc) {
    HasZeroDim(PropInvariantSrc(pd.desc)) || HasZeroDim(PropInvariantDst(pd.desc))
  }

  predicate IsFwd(pd: PrimitiveDesc) {
    IsFwdKind(pd.desc.propKind)
  }

  /** Each expectation is either `Undef` ("don't care") or the exact type required. */
  predicate ExpectDataTypes(pd: PrimitiveDesc, srcDt: DataType, weiDt: DataType,
                            biaDt: DataType, dstDt: DataType, accDt: DataType)
  {
    var ok :=
      && (srcDt == Undef || PropInvariantSrc(pd.desc).dataType == srcDt)
      && (weiDt == Undef || PropInvariantWei(pd.desc).dataType == weiDt)
      && (dstDt == Undef || PropInvariantDst(pd.desc).dataType == dstDt)
      && (accDt == Undef || pd.desc.accumDataType == accDt);
    if WithBias(pd) && biaDt != Undef then ok && PropInvariantBia(pd.desc).dataType == biaDt
    else ok
  }

  // ---------------------------------------------------------------------
  // Per-variant argument contract

  datatype Arg =
    | ArgSrc | ArgWeights | ArgBias | ArgDst
    | ArgDiffSrc | ArgDiffWeights | ArgDiffBias | ArgDiffDst
    | ArgOther(id: int)   // workspace, scratchpad, attribute arguments, ...

  /** `Delegated` stands for the generic descriptor's answer (never a data slot of this family). */
  datatype ArgUsage = Input | Output | Delegated

  function ArgUsageOf(pd: PrimitiveDesc, arg: Arg): ArgUsage {
    match pd.variant
    case Fwd =>
      if arg == ArgSrc || arg == ArgWeights then Input
      else if arg == ArgBias && WithBias(pd) then Input
      else if arg == ArgDst then Output
      else Delegated
    case BwdData =>
      if arg == ArgWeights || arg == ArgDiffDst then Input
      else if arg == ArgDiffSrc then Output
      else Delegated
    case BwdWeights =>
      if arg == ArgSrc || arg == ArgDiffDst then Input
      else if arg == ArgDiffWeights then Output
      else if arg == ArgDiffBias && WithBias(pd) then Output
      else Delegated
  }

  // Slot accessors; a slot a variant does not define is the zero descriptor,
  // as is every index other than the ones listed.

  function SrcMd(pd: PrimitiveDesc, index: int): MemoryDesc {
    if index == 0 && (pd.variant == Fwd || pd.variant == BwdWeights) then pd.slots.src else ZeroMd
  }

  function DstMd(pd: PrimitiveDesc, index: int): MemoryDesc {
    if index == 0 && pd.variant == Fwd then pd.slots.dst else ZeroMd
  }

  function WeightsMd(pd: PrimitiveDesc, index: int): MemoryDesc {
    match pd.variant
    case Fwd =>
      if index == 0 then pd.slots.weights
      else if index == 1 && WithBias(pd) then pd.slots.bias
      else ZeroMd
    case BwdData => if index == 0 then pd.slots.weights else ZeroMd
    case BwdWeights => ZeroMd
  }

  function DiffSrcMd(pd: PrimitiveDesc, index: int): MemoryDesc {
    if index == 0 && pd.variant == BwdData then pd.slots.diffSrc else ZeroMd
  }

  function DiffDstMd(pd: PrimitiveDesc, index: int): MemoryDesc {
    if index == 0 && (pd.variant == BwdData || pd.variant == BwdWeights) then pd.slots.diffDst else ZeroMd
  }

  function DiffWeightsMd(pd: PrimitiveDesc, index: int): MemoryDesc {
    if pd.variant != BwdWeights then ZeroMd
    else if index == 0 then pd.slots.diffWeights
    else if index == 1 && WithBias(pd) then pd.slots.diffBias
    else ZeroMd
  }

  /** The descriptor bound to an argument id: bias slots are index 1 of the weights slots. */
  function ArgMd(pd: PrimitiveDesc, arg: Arg): MemoryDesc {
    match arg
    case ArgSrc => SrcMd(pd, 0)
    case ArgWeights => WeightsMd(pd, 0)
    case ArgBias => WeightsMd(pd, 1)
    case ArgDst => DstMd(pd, 0)
    case ArgDiffSrc => DiffSrcMd(pd, 0)
    case ArgDiffWeights => DiffWeightsMd(pd, 0)
    case ArgDiffBias => DiffWeightsMd(pd, 1)
    case ArgDiffDst => DiffDstMd(pd, 0)
    case ArgOther(_) => ZeroMd
  }

  function NInputs(pd: PrimitiveDesc): nat {
    match pd.variant
    case Fwd => 2 + (if WithBias(pd) then 1 else 0)
    case BwdData => 2
    case BwdWeights => 2
  }

  function NOutputs(pd: PrimitiveDesc): nat {
    match pd.variant
    case Fwd => 1
    case BwdData => 1
    case BwdWeights => 1 + (if WithBias(pd) then 1 else 0)
  }

  /** Every data argument id of the family, each once. */
  const DataArgs: seq<Arg> :=
    [ArgSrc, ArgWeights, ArgBias, ArgDst, ArgDiffSrc, ArgDiffWeights, ArgDiffBias, ArgDiffDst]

  function CountUsage(pd: PrimitiveDesc, args: seq<Arg>, u: ArgUsage): nat {
    if args == [] then 0
    else (if ArgUsageOf(pd, args[0]) == u then 1 else 0) + CountUsage(pd, args[1..], u)
  }

  /** The operator-description field a data argument id names. */
  function DescOf(d: InnerProductDesc, arg: Arg): MemoryDesc {
    match arg
    case ArgSrc => d.srcDesc
    case ArgWeights => d.weightsDesc
    case ArgBias => d.biasDesc
    case ArgDst => d.dstDesc
    case ArgDiffSrc => d.diffSrcDesc
    case ArgDiffWeights => d.diffWeightsDesc
    case ArgDiffBias => d.diffBiasDesc
    case ArgDiffDst => d.diffDstDesc
    case ArgOther(_) => ZeroMd
  }

  /** The descriptor copy a data argument id names. */
  function SlotOf(s: SlotDescs, arg: Arg): MemoryDesc {
    match arg
    case ArgSrc => s.src
    case ArgWeights => s.weights
    case ArgBias => s.bias
    case ArgDst => s.dst
    case ArgDiffSrc => s.diffSrc
    case ArgDiffWeights => s.diffWeights
    case ArgDiffBias => s.diffBias
    case ArgDiffDst => s.diffDst
    case ArgOther(_) => ZeroMd
  }

  /** Spatial extents (depth, height, width) of a rank-`n` tensor, left-padded with ones. */
  function SpatialOf(dims: Dims, n: Rank): seq<int>
    requires 2 <= n <= 5
  {
    seq(5 - n, _ => 1) + dims[2..n]
  }

  // =====================================================================
  // Properties

  /** Depth/height/width read at rank 2..5 are the trailing axes after N and C, padded with ones. */
  lemma SpatialExtents(md: MemoryDesc, n: Rank)
    requires 2 <= n <= 5
    ensures [Depth(md, n), Height(md, n), Width(md, n)] == SpatialOf(md.dims, n)
  {
    var sp := SpatialOf(md.dims, n);
    assert |sp| == 3;
    assert sp[0] == Depth(md, n);
    assert sp[1] == Height(md, n);
    assert sp[2] == Width(md, n);
  }

  /** Input, output and kernel extents are the spatial axes of the invariant src, dst and weights. */
  lemma ShapeAccessorsByRank(pd: PrimitiveDesc)
    requires 2 <= Ndims(pd) <= 5
    ensures [ID(pd), IH(pd), IW(pd)] == SpatialOf(PropInvariantSrc(pd.desc).dims, Ndims(pd))
    ensures [OD(pd), OH(pd), OW(pd)] == SpatialOf(PropInvariantDst(pd.desc).dims, Ndims(pd))
    ensures [KD(pd), KH(pd), KW(pd)] == SpatialOf(PropInvariantWei(pd.desc).dims, Ndims(pd))
  {
    SpatialExtents(PropInvariantSrc(pd.desc), Ndims(pd));
    SpatialExtents(PropInvariantDst(pd.desc), Ndims(pd));
    SpatialExtents(PropInvariantWei(pd.desc), Ndims(pd));
  }

  /** The total input-channel count is IC times the input spatial extents; at rank 2 it is IC. */
  lemma ICTotalFactors(pd: PrimitiveDesc)
    requires 2 <= Ndims(pd) <= 5
    ensures ICTotal(pd) == IC(pd) * ID(pd) * IH(pd) * IW(pd)
    ensures Ndims(pd) == 2 ==> ICTotal(pd) == IC(pd)
  {
    var s := PropInvariantSrc(pd.desc).dims;
    var n := Ndims(pd);
    var t := s[1..n];
    assert t[0] == s[1];
    assert Product(t) == s[1] * Product(t[1..]);
    if n == 2 {
      assert t[1..] == [];
    } else if n == 3 {
      assert t[1..] == [s[2]];
      assert Product([s[2]]) == s[2] * Product([]);
    } else if n == 4 {
      assert t[1..] == [s[2], s[3]];
      assert [s[2], s[3]][1..] == [s[3]];
      assert Product([s[3]]) == s[3] * Product([]);
    } else {
      assert t[1..] == [s[2], s[3], s[4]];
      assert [s[2], s[3], s[4]][1..] == [s[3], s[4]];
      assert [s[3], s[4]][1..] == [s[4]];
      assert Product([s[4]]) == s[4] * Product([]);
    }
  }

  /** For a descriptor built for its own direction and still as its constructor left it,
      each invariant selector picks the descriptor that variant itself exposes for that role. */
  lemma InvariantAgreesWithVariant(pd: PrimitiveDesc)
    requires Consistent(pd) && AsBuilt(pd)
    ensures PropInvariantSrc(pd.desc) == (if pd.variant == BwdData then DiffSrcMd(pd, 0) else SrcMd(pd, 0))
    ensures PropInvariantDst(pd.desc) == (if pd.variant == Fwd then DstMd(pd, 0) else DiffDstMd(pd, 0))
    ensures PropInvariantWei(pd.desc) == (if pd.variant == BwdWeights then DiffWeightsMd(pd, 0) else WeightsMd(pd, 0))
    ensures pd.variant == Fwd && WithBias(pd) ==> PropInvariantBia(pd.desc) == WeightsMd(pd, 1)
    ensures pd.variant == BwdWeights && WithBias(pd) ==> PropInvariantBia(pd.desc) == DiffWeightsMd(pd, 1)
    ensures PaddedSource(pd) == PropInvariantSrc(pd.desc)
    ensures IsFwd(pd) <==> pd.variant == Fwd
    ensures var src := if pd.variant == BwdData then DiffSrcMd(pd, 0) else SrcMd(pd, 0);
            MB(pd) == src.dims[0] && IC(pd) == src.dims[1] && Ndims(pd) == src.ndims
    ensures OC(pd) == (if pd.variant == Fwd then DstMd(pd, 0) else DiffDstMd(pd, 0)).dims[1]
  {
  }

  /** The padded count is the sentinel -1 exactly when the descriptor it reads is not blocked. */
  lemma ICTotalPaddedSentinel(pd: PrimitiveDesc)
    requires PaddedSource(pd).isBlocking ==> Ndims(pd) >= 1
    requires forall i :: 1 <= i < Ndims(pd) ==> PaddedSource(pd).paddedDims[i] >= 0
    ensures ICTotalPadded(pd) == -1 <==> !PaddedSource(pd).isBlocking
  {
    var md := PaddedSource(pd);
    if md.isBlocking {
      var t := md.paddedDims[1..Ndims(pd)];
      forall i | 0 <= i < |t|
        ensures 0 <= t[i]
      {
        assert t[i] == md.paddedDims[i + 1];
      }
      ProductNonNegative(t);
    }
  }

  /** When the padded extents of the descriptor copy are no smaller than the logical
      extents of the invariant source, the padded count bounds the logical count. */
  lemma ICTotalPaddedCoversICTotal(pd: PrimitiveDesc)
    requires Ndims(pd) >= 1
    requires PaddedSource(pd).isBlocking
    requires forall i :: 1 <= i < Ndims(pd) ==>
               0 <= PropInvariantSrc(pd.desc).dims[i] <= PaddedSource(pd).paddedDims[i]
    ensures 0 <= ICTotal(pd) <= ICTotalPadded(pd)
  {
    var n := Ndims(pd);
    var a, b := PropInvariantSrc(pd.desc).dims[1..n], PaddedSource(pd).paddedDims[1..n];
    forall i | 0 <= i < |a|
      ensures 0 <= a[i] <= b[i]
    {
      assert a[i] == PropInvariantSrc(pd.desc).dims[i + 1] && b[i] == PaddedSource(pd).paddedDims[i + 1];
    }
    ProductMonotone(a, b);
  }

  /** Zero-dim memory means the invariant src or dst holds no elements. */
  lemma ZeroDimMemoryIffEmpty(pd: PrimitiveDesc)
    ensures HasZeroDimMemory(pd) <==>
              Nelems(PropInvariantSrc(pd.desc)) == 0 || Nelems(PropInvariantDst(pd.desc)) == 0
  {
    ZeroDimIffEmpty(PropInvariantSrc(pd.desc));
    ZeroDimIffEmpty(PropInvariantDst(pd.desc));
  }

  /** A passing check guarantees every stated expectation; bias only when present. */
  lemma ExpectDataTypesSound(pd: PrimitiveDesc, srcDt: DataType, weiDt: DataType,
                             biaDt: DataType, dstDt: DataType, accDt: DataType)
    requires ExpectDataTypes(pd, srcDt, weiDt, biaDt, dstDt, accDt)
    ensures srcDt != Undef ==> PropInvariantSrc(pd.desc).dataType == srcDt
    ensures weiDt != Undef ==> PropInvariantWei(pd.desc).dataType == weiDt
    ensures dstDt != Undef ==> PropInvariantDst(pd.desc).dataType == dstDt
    ensures accDt != Undef ==> pd.desc.accumDataType == accDt
    ensures WithBias(pd) && biaDt != Undef ==> PropInvariantBia(pd.desc).dataType == biaDt
  {
  }

  /** `Undef` never causes failure: expecting nothing always passes. */
  lemma ExpectNothingPasses(pd: PrimitiveDesc)
    ensures ExpectDataTypes(pd, Undef, Undef, Undef, Undef, Undef)
  {
  }

  /** Relaxing any one expectation to `Undef` keeps a pass a pass. */
  lemma ExpectUndefWeakens(pd: PrimitiveDesc, srcDt: DataType, weiDt: DataType,
                           biaDt: DataType, dstDt: DataType, accDt: DataType)
    requires ExpectDataTypes(pd, srcDt, weiDt, biaDt, dstDt, accDt)
    ensures ExpectDataTypes(pd, Undef, weiDt, biaDt, dstDt, accDt)
    ensures ExpectDataTypes(pd, srcDt, Undef, biaDt, dstDt, accDt)
    ensures ExpectDataTypes(pd, srcDt, weiDt, Undef, dstDt, accDt)
    ensures ExpectDataTypes(pd, srcDt, weiDt, biaDt, Undef, accDt)
    ensures ExpectDataTypes(pd, srcDt, weiDt, biaDt, dstDt, Undef)
  {
  }

  /** Expecting exactly the descriptor's own types passes. */
  lemma ExpectOwnTypesPass(pd: PrimitiveDesc)
    ensures ExpectDataTypes(pd, PropInvariantSrc(pd.desc).dataType, PropInvariantWei(pd.desc).dataType,
                            PropInvariantBia(pd.desc).dataType, PropInvariantDst(pd.desc).dataType,
                            pd.desc.accumDataType)
  {
  }

  /** Without a bias the bias expectation is never consulted. */
  lemma ExpectBiasIgnoredWithoutBias(pd: PrimitiveDesc, srcDt: DataType, weiDt: DataType,
                                     biaDt: DataType, biaDt': DataType, dstDt: DataType, accDt: DataType)
    requires !WithBias(pd)
    ensures ExpectDataTypes(pd, srcDt, weiDt, biaDt, dstDt, accDt) ==
            ExpectDataTypes(pd, srcDt, weiDt, biaDt', dstDt, accDt)
  {
  }

  /** Forward: src and weights in, bias in iff present, dst out; weights index 1 is the bias. */
  lemma FwdArgContract(pd: PrimitiveDesc)
    requires pd.variant == Fwd
    ensures ArgUsageOf(pd, ArgSrc) == Input && ArgUsageOf(pd, ArgWeights) == Input
    ensures ArgUsageOf(pd, ArgBias) == Input <==> WithBias(pd)
    ensures ArgUsageOf(pd, ArgDst) == Output
    ensures WeightsMd(pd, 0) == pd.slots.weights
    ensures WeightsMd(pd, 1) == (if WithBias(pd) then pd.slots.bias else ZeroMd)
    ensures forall i :: i != 0 && i != 1 ==> WeightsMd(pd, i) == ZeroMd
    ensures forall i :: i != 0 ==> SrcMd(pd, i) == ZeroMd && DstMd(pd, i) == ZeroMd
    ensures Consistent(pd) && AsBuilt(pd) ==> (WithBias(pd) <==> !IsZero(WeightsMd(pd, 1)))
    ensures NInputs(pd) == 2 + (if WithBias(pd) then 1 else 0) && NOutputs(pd) == 1
  {
  }

  /** Backward-data: weights and diff-dst in, diff-src out, no bias slot at all. */
  lemma BwdDataArgContract(pd: PrimitiveDesc)
    requires pd.variant == BwdData
    ensures ArgUsageOf(pd, ArgWeights) == Input && ArgUsageOf(pd, ArgDiffDst) == Input
    ensures ArgUsageOf(pd, ArgDiffSrc) == Output
    ensures ArgUsageOf(pd, ArgBias) == Delegated && ArgUsageOf(pd, ArgDiffBias) == Delegated
    ensures forall i :: i != 0 ==> WeightsMd(pd, i) == ZeroMd
    ensures forall i :: i != 0 ==> DiffSrcMd(pd, i) == ZeroMd && DiffDstMd(pd, i) == ZeroMd
    ensures NInputs(pd) == 2 && NOutputs(pd) == 1
  {
  }

  /** Backward-weights: src and diff-dst in, diff-weights out, diff-bias out iff present. */
  lemma BwdWeightsArgContract(pd: PrimitiveDesc)
    requires pd.variant == BwdWeights
    ensures ArgUsageOf(pd, ArgSrc) == Input && ArgUsageOf(pd, ArgDiffDst) == Input
    ensures ArgUsageOf(pd, ArgDiffWeights) == Output
    ensures ArgUsageOf(pd, ArgDiffBias) == Output <==> WithBias(pd)
    ensures DiffWeightsMd(pd, 0) == pd.slots.diffWeights
    ensures DiffWeightsMd(pd, 1) == (if WithBias(pd) then pd.slots.diffBias else ZeroMd)
    ensures forall i :: i != 0 && i != 1 ==> DiffWeightsMd(pd, i) == ZeroMd
    ensures Consistent(pd) && AsBuilt(pd) ==> (WithBias(pd) <==> !IsZero(DiffWeightsMd(pd, 1)))
    ensures NInputs(pd) == 2 && NOutputs(pd) == 1 + (if WithBias(pd) then 1 else 0)
  {
  }

  /** The reported input and output counts are the numbers of data arguments the
      variant claims as inputs and as outputs. */
  lemma ArgCountsMatchUsage(pd: PrimitiveDesc)
    ensures CountUsage(pd, DataArgs, Input) == NInputs(pd)
    ensures CountUsage(pd, DataArgs, Output) == NOutputs(pd)
  {
    CountUsageOfDataArgs(pd, Input);
    CountUsageOfDataArgs(pd, Output);
  }

  /** `CountUsage` over `DataArgs`, unfolded one argument at a time. */
  lemma CountUsageOfDataArgs(pd: PrimitiveDesc, u: ArgUsage)
    ensures CountUsage(pd, DataArgs, u) ==
      (if ArgUsageOf(pd, ArgSrc) == u then 1 else 0) + (if ArgUsageOf(pd, ArgWeights) == u then 1 else 0)
      + (if ArgUsageOf(pd, ArgBias) == u then 1 else 0) + (if ArgUsageOf(pd, ArgDst) == u then 1 else 0)
      + (if ArgUsageOf(pd, ArgDiffSrc) == u then 1 else 0) + (if ArgUsageOf(pd, ArgDiffWeights) == u then 1 else 0)
      + (if ArgUsageOf(pd, ArgDiffBias) == u then 1 else 0) + (if ArgUsageOf(pd, ArgDiffDst) == u then 1 else 0)
  {
    var a := DataArgs;
    assert a[1..] == [ArgWeights, ArgBias, ArgDst, ArgDiffSrc, ArgDiffWeights, ArgDiffBias, ArgDiffDst];
    assert a[2..] == [ArgBias, ArgDst, ArgDiffSrc, ArgDiffWeights, ArgDiffBias, ArgDiffDst];
    assert a[3..] == [ArgDst, ArgDiffSrc, ArgDiffWeights, ArgDiffBias, ArgDiffDst];
    assert a[4..] == [ArgDiffSrc, ArgDiffWeights, ArgDiffBias, ArgDiffDst];
    assert a[5..] == [ArgDiffWeights, ArgDiffBias, ArgDiffDst];
    assert a[6..] == [ArgDiffBias, ArgDiffDst];
    assert a[7..] == [ArgDiffDst];
    assert a[8..] == [];
    assert CountUsage(pd, a[8..], u) == 0;
    assert CountUsage(pd, a[7..], u) == (if ArgUsageOf(pd, ArgDiffDst) == u then 1 else 0);
    assert CountUsage(pd, a[6..], u) == (if ArgUsageOf(pd, ArgDiffBias) == u then 1 else 0) + CountUsage(pd, a[7..], u);
    assert CountUsage(pd, a[5..], u) == (if ArgUsageOf(pd, ArgDiffWeights) == u then 1 else 0) + CountUsage(pd, a[6..], u);
    assert CountUsage(pd, a[4..], u) == (if ArgUsageOf(pd, ArgDiffSrc) == u then 1 else 0) + CountUsage(pd, a[5..], u);
    assert CountUsage(pd, a[3..], u) == (if ArgUsageOf(pd, ArgDst) == u then 1 else 0) + CountUsage(pd, a[4..], u);
    assert CountUsage(pd, a[2..], u) == (if ArgUsageOf(pd, ArgBias) == u then 1 else 0) + CountUsage(pd, a[3..], u);
    assert CountUsage(pd, a[1..], u) == (if ArgUsageOf(pd, ArgWeights) == u then 1 else 0) + CountUsage(pd, a[2..], u);
  }

  /** A data argument the variant claims is bound to its own copy, which the constructor
      takes from the operator description; every argument it leaves to the generic
      descriptor reads as the zero descriptor. */
  lemma ArgBindingMatchesUsage(pd: PrimitiveDesc, arg: Arg)
    ensures ArgUsageOf(pd, arg) != Delegated ==> ArgMd(pd, arg) == SlotOf(pd.slots, arg)
    ensures AsBuilt(pd) && ArgUsageOf(pd, arg) != Delegated ==> ArgMd(pd, arg) == DescOf(pd.desc, arg)
    ensures ArgUsageOf(pd, arg) == Delegated ==> ArgMd(pd, arg) == ZeroMd
  {
  }

  /** The shape accessors read only the frozen operator description: giving the descriptor
      copies other layouts changes none of them. */
  lemma ShapeIgnoresSlots(pd: PrimitiveDesc, slots: SlotDescs)
    ensures var pd' := pd.(slots := slots);
      && Ndims(pd') == Ndims(pd) && MB(pd') == MB(pd) && IC(pd') == IC(pd) && OC(pd') == OC(pd)
      && [ID(pd'), IH(pd'), IW(pd')] == [ID(pd), IH(pd), IW(pd)]
      && [OD(pd'), OH(pd'), OW(pd')] == [OD(pd), OH(pd), OW(pd)]
      && [KD(pd'), KH(pd'), KW(pd')] == [KD(pd), KH(pd), KW(pd)]
      && (Ndims(pd) >= 1 ==> ICTotal(pd') == ICTotal(pd))
      && WithBias(pd') == WithBias(pd) && HasZeroDimMemory(pd') == HasZeroDimMemory(pd)
      && IsFwd(pd') == IsFwd(pd)
      && Query(pd', InnerProductD) == Query(pd, InnerProductD)
  {
  }
}
