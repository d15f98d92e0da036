/**
 * The batch-normalization descriptor planner for the "ncsp" layout family
 * (channel-major layouts nc, nchw, ncdhw), forward and backward.
 *
 * `init()` is a feasibility check followed by side effects on the
 * descriptor: it may create a workspace and it books named scratchpad
 * buffers whose byte sizes are closed-form functions of the shape and the
 * thread count. Each descriptor is a class with the workspace and the
 * scratchpad registry (key -> byte size) as fields; the facts the
 * generic batch-normalization descriptor supplies are fields of an
 * immutable `BnormConfig`, and the thread count and the avx512_core
 * capability are parameters of `Init`.
 */
module NcspBatchNormalization {
  import opened DnnlTypes

  datatype Option<T> = None | Some(value: T)

  /** Layout a source descriptor matches. */
  datatype FormatTag = Nc | Ncw | Nchw | Ncdhw | Nwc | Nhwc | Ndhwc | Blocked

  /** The layouts this implementation accepts: ncdhw, nchw, nc. */
  predicate IsNcspTag(t: FormatTag) {
    t == Ncdhw || t == Nchw || t == Nc
  }

  datatype ScratchKey = BnormReduction | BnormTmpMean | BnormTmpVar | BnormTmpDiffSs | BnormBf16Cvt

  /** A workspace descriptor: bits per source element and the number of source elements. */
  datatype Workspace = NoWorkspace | Workspace(bitsPerElement: nat, nelems: nat)

  /** Width of the thread pool; the runtime never reports fewer than one thread. */
  type ThreadCount = n: int | n >= 1 witness 1

  /** Size of the accumulation type (float). */
  const AccBytes: nat := 4

  /** Vector width the low-precision conversion buffer is rounded to. */
  const SimdW: nat := 16

  /** What the generic batch-normalization descriptor reports about the configuration. */
  datatype BnormConfig = BnormConfig(
    propKind: PropKind,
    isFwd: bool,
    isBwd: bool,
    isTraining: bool,
    statsIsSrc: bool,
    useScaleshift: bool,
    useGlobalStats: bool,
    fuseNormRelu: bool,
    hasZeroDimMemory: bool,
    srcDt: DataType,
    diffSrcDt: DataType,
    weightsDt: DataType,
    diffWeightsDt: DataType,
    srcTag: FormatTag,
    diffSrcTag: FormatTag,
    attrDefault: bool,       // the attribute set holds only default values
    withReluPostOp: bool,    // the only attribute in use is a ReLU post-op
    ndims: int,
    c: nat,
    d: nat,
    h: nat,
    w: nat,
    srcNelems: nat)

  /** The relations the generic batch-normalization descriptor keeps between the facts it
      reports: forward and backward are complementary and follow the propagation kind,
      training means forward training, and a descriptor without zero-dim memory has
      non-empty extents. */
  predicate WellFormed(cfg: BnormConfig) {
    && (cfg.isFwd <==> cfg.propKind == ForwardTraining || cfg.propKind == ForwardInference)
    && cfg.isBwd == !cfg.isFwd
    && (cfg.isTraining <==> cfg.propKind == ForwardTraining)
    && (!cfg.hasZeroDimMemory ==> cfg.c > 0 && cfg.d > 0 && cfg.h > 0 && cfg.w > 0 && cfg.srcNelems > 0)
  }

  // ---------------------------------------------------------------------
  // Acceptance rules

  predicate FwdAccepts(dType: DataType, cfg: BnormConfig, hasAvx512Core: bool) {
    && cfg.isFwd
    && !cfg.hasZeroDimMemory
    && cfg.srcDt == dType
    && (dType == Bf16 ==> hasAvx512Core)
    && (cfg.useScaleshift ==> cfg.weightsDt == F32)
    && IsNcspTag(cfg.srcTag)
    && (cfg.attrDefault || cfg.withReluPostOp)
  }

  predicate BwdAccepts(dType: DataType, cfg: BnormConfig, hasAvx512Core: bool) {
    && cfg.isBwd
    && !cfg.hasZeroDimMemory
    && cfg.srcDt == dType && cfg.diffSrcDt == dType
    && (dType == Bf16 ==> hasAvx512Core)
    && (cfg.useScaleshift ==> cfg.weightsDt == F32 && cfg.diffWeightsDt == F32)
    && IsNcspTag(cfg.srcTag)
    && IsNcspTag(cfg.diffSrcTag)
    && cfg.attrDefault
  }

  /** The workspace `init_default_ws(bits)` describes: `bits` per source element. */
  function DefaultWorkspace(cfg: BnormConfig, bits: nat): Workspace {
    Workspace(bits, cfg.srcNelems)
  }

  /** The forward descriptor's workspace has to be present and equal to ours. */
  predicate CompareWs(ws: Workspace, hintFwdWs: Option<Workspace>) {
    hintFwdWs.Some? && hintFwdWs.value == ws
  }

  /** Outcome of the backward `init()`. */
  function BwdInitStatus(dType: DataType, cfg: BnormConfig, hasAvx512Core: bool,
                         hintFwdWs: Option<Workspace>): Status
  {
    if !BwdAccepts(dType, cfg, hasAvx512Core) then Unimplemented
    else if cfg.fuseNormRelu && !CompareWs(DefaultWorkspace(cfg, 8), hintFwdWs) then Unimplemented
    else Success
  }

  /** The workspace a forward descriptor holds after `init()`. */
  function FwdWorkspaceAfterInit(dType: DataType, cfg: BnormConfig, hasAvx512Core: bool): Workspace {
    if FwdAccepts(dType, cfg, hasAvx512Core) && cfg.isTraining && cfg.fuseNormRelu
    then DefaultWorkspace(cfg, 8) else NoWorkspace
  }

  // ---------------------------------------------------------------------
  // Scratchpad sizes

  /** Round `a` up to a multiple of `b`, as `div_up(a, b) * b`. */
  function RndUp(a: nat, b: nat): (r: nat)
    requires b > 0
    ensures r % b == 0 && a <= r < a + b
  {
    var q := (a + b - 1) / b;
    MulMod(q, b);
    q * b
  }

  lemma MulMod(q: nat, b: nat)
    requires b > 0
    ensures (q * b) % b == 0
  {
    var x := q * b;
    var q', r' := x / b, x % b;
    assert (q - q') * b == r';
    if q > q' {
      MulAtLeast(q - q', b);
    }
  }

  lemma MulAtLeast(k: int, b: int)
    requires k >= 1 && b > 0
    ensures k * b >= b
  {
  }

  /** Spatial extent: D*H*W for 4D and 5D tensors, 1 otherwise. */
  function SpatialSize(cfg: BnormConfig): nat {
    if cfg.ndims == 4 || cfg.ndims == 5 then cfg.d * cfg.h * cfg.w else 1
  }

  /** Bytes of the bf16 conversion buffer: `nbufs` rounded-up spatial rows per thread. */
  function Bf16CvtBytes(cfg: BnormConfig, nbufs: nat, nthr: ThreadCount): nat {
    AccBytes * nbufs * nthr * RndUp(SpatialSize(cfg), SimdW)
  }

  /** The registry the forward `init_scratchpad()` books. */
  function FwdScratchpad(dType: DataType, cfg: BnormConfig, nthr: ThreadCount): map<ScratchKey, nat> {
    FwdStatsBuffers(cfg, nthr) + FwdCvtBuffer(dType, cfg, nthr)
  }

  /** Reduction buffer, and temporary mean and variance, unless statistics are supplied. */
  function FwdStatsBuffers(cfg: BnormConfig, nthr: ThreadCount): map<ScratchKey, nat> {
    if cfg.statsIsSrc then map[]
    else if cfg.isTraining then map[BnormReduction := AccBytes * cfg.c * nthr]
    else map[BnormReduction := AccBytes * cfg.c * nthr,
             BnormTmpMean := AccBytes * cfg.c, BnormTmpVar := AccBytes * cfg.c]
  }

  function FwdCvtBuffer(dType: DataType, cfg: BnormConfig, nthr: ThreadCount): map<ScratchKey, nat> {
    if dType == Bf16 then map[BnormBf16Cvt := Bf16CvtBytes(cfg, 2, nthr)] else map[]
  }

  /** The registry the backward `init_scratchpad()` books. */
  function BwdScratchpad(dType: DataType, cfg: BnormConfig, nthr: ThreadCount): map<ScratchKey, nat> {
    map[BnormReduction := AccBytes * 2 * cfg.c * nthr]
    + (if !(cfg.useScaleshift && cfg.propKind == Backward)
       then map[BnormTmpDiffSs := AccBytes * 2 * cfg.c]
       else map[])
    + (if dType == Bf16
       then map[BnormBf16Cvt := Bf16CvtBytes(cfg, 2 + (if cfg.useGlobalStats then 0 else 1), nthr)]
       else map[])
  }

  // ---------------------------------------------------------------------
  // Descriptors

  class NcspBnormFwdPd {
    const dType: DataType
    const cfg: BnormConfig
    var workspace: Workspace
    var scratchpad: map<ScratchKey, nat>

    constructor (dType: DataType, cfg: BnormConfig)
      ensures this.dType == dType && this.cfg == cfg
      ensures workspace == NoWorkspace && scratchpad == map[]
    {
      this.dType := dType;
      this.cfg := cfg;
      workspace := NoWorkspace;
      scratchpad := map[];
    }

    /** Rejects unsupported configurations without touching the descriptor; otherwise
        creates the ReLU mask workspace when training with fused ReLU and books the scratchpad. */
    method Init(nthr: ThreadCount, hasAvx512Core: bool) returns (st: Status)
      modifies this
      ensures st == Success <==> FwdAccepts(dType, cfg, hasAvx512Core)
      ensures st == Unimplemented ==> workspace == old(workspace) && scratchpad == old(scratchpad)
      ensures st == Success ==>
                workspace == (if cfg.isTraining && cfg.fuseNormRelu then DefaultWorkspace(cfg, 8)
                              else old(workspace))
      ensures old(workspace) == NoWorkspace ==> workspace == FwdWorkspaceAfterInit(dType, cfg, hasAvx512Core)
      ensures st == Success ==> scratchpad == old(scratchpad) + FwdScratchpad(dType, cfg, nthr)
    {
      if !FwdAccepts(dType, cfg, hasAvx512Core) {
        return Unimplemented;
      }
      if cfg.isTraining && cfg.fuseNormRelu {
        workspace := DefaultWorkspace(cfg, 8);
      }
      InitScratchpad(nthr);
      return Success;
    }

    method InitScratchpad(nthr: ThreadCount)
      modifies this`scratchpad
      ensures scratchpad == old(scratchpad) + FwdScratchpad(dType, cfg, nthr)
    {
      ghost var s0 := scratchpad;
      if !cfg.statsIsSrc {
        scratchpad := scratchpad[BnormReduction := AccBytes * cfg.c * nthr];
        if !cfg.isTraining {
          scratchpad := scratchpad[BnormTmpMean := AccBytes * cfg.c];
          scratchpad := scratchpad[BnormTmpVar := AccBytes * cfg.c];
        }
      }
      ghost var s1 := scratchpad;
      assert s1 == s0 + FwdStatsBuffers(cfg, nthr);
      if dType == Bf16 {
        scratchpad := scratchpad[BnormBf16Cvt := Bf16CvtBytes(cfg, 2, nthr)];
      }
      assert scratchpad == s1 + FwdCvtBuffer(dType, cfg, nthr);
    }
  }

  class NcspBnormBwdPd {
    const dType: DataType
    const cfg: BnormConfig
    /** Workspace of the paired forward descriptor; `None` when none was given. */
    const hintFwdWs: Option<Workspace>
    var workspace: Workspace
    var scratchpad: map<ScratchKey, nat>

    constructor (dType: DataType, cfg: BnormConfig, hintFwdWs: Option<Workspace>)
      ensures this.dType == dType && this.cfg == cfg && this.hintFwdWs == hintFwdWs
      ensures workspace == NoWorkspace && scratchpad == map[]
    {
      this.dType := dType;
      this.cfg := cfg;
      this.hintFwdWs := hintFwdWs;
      workspace := NoWorkspace;
      scratchpad := map[];
    }

    /** Rejects unsupported configurations without touching the descriptor; with fused ReLU
        it builds the mask workspace and rejects unless the forward descriptor's is identical;
        on success it books the scratchpad. */
    method Init(nthr: ThreadCount, hasAvx512Core: bool) returns (st: Status)
      modifies this
      ensures st == BwdInitStatus(dType, cfg, hasAvx512Core, hintFwdWs)
      ensures !BwdAccepts(dType, cfg, hasAvx512Core) ==> workspace == old(workspace)
      ensures BwdAccepts(dType, cfg, hasAvx512Core) ==>
                workspace == (if cfg.fuseNormRelu then DefaultWorkspace(cfg, 8) else old(workspace))
      ensures scratchpad == (if st == Success then old(scratchpad) + BwdScratchpad(dType, cfg, nthr)
                             else old(scratchpad))
    {
      if !BwdAccepts(dType, cfg, hasAvx512Core) {
        return Unimplemented;
      }
      if cfg.fuseNormRelu {
        workspace := DefaultWorkspace(cfg, 8);
        if !CompareWs(workspace, hintFwdWs) {
          return Unimplemented;
        }
      }
      InitScratchpad(nthr);
      return Success;
    }

    method InitScratchpad(nthr: ThreadCount)
      modifies this`scratchpad
      ensures scratchpad == old(scratchpad) + BwdScratchpad(dType, cfg, nthr)
    {
      scratchpad := scratchpad[BnormReduction := AccBytes * 2 * cfg.c * nthr];
      if !(cfg.useScaleshift && cfg.propKind == Backward) {
        scratchpad := scratchpad[BnormTmpDiffSs := AccBytes * 2 * cfg.c];
      }
      if dType == Bf16 {
        var nbufs := 2 + (if cfg.useGlobalStats then 0 else 1);
        scratchpad := scratchpad[BnormBf16Cvt := Bf16CvtBytes(cfg, nbufs, nthr)];
      }
    }
  }

  // =====================================================================
  // Properties

  /** `RndUp(a, b)` is the least multiple of `b` that is at least `a`. */
  lemma RndUpLeast(a: nat, b: nat, m: int)
    requires b > 0 && a <= m && m % b == 0
    ensures RndUp(a, b) <= m
  {
    var r := RndUp(a, b);
    if m < r {
      var qm, qr := m / b, r / b;
      assert m == qm * b && r == qr * b;
      assert (qr - qm) * b == r - m;
      MulAtLeast(qr - qm, b);
    }
  }

  /** The conversion buffer gives every thread `nbufs` rows covering the whole spatial
      extent, padded by less than one vector. */
  lemma Bf16CvtCoversSpatial(cfg: BnormConfig, nbufs: nat, nthr: ThreadCount)
    ensures AccBytes * nbufs * nthr * SpatialSize(cfg) <= Bf16CvtBytes(cfg, nbufs, nthr)
    ensures nbufs > 0 ==>
              Bf16CvtBytes(cfg, nbufs, nthr) < AccBytes * nbufs * nthr * (SpatialSize(cfg) + SimdW)
  {
    var k := AccBytes * nbufs * nthr;
    var sp := SpatialSize(cfg);
    var r := RndUp(sp, SimdW);
    assert Bf16CvtBytes(cfg, nbufs, nthr) == k * r;
    MulMonotone(k, sp, k, r);
    if nbufs > 0 {
      assert k > 0;
      MulStrict(k, r, sp + SimdW);
    }
  }

  lemma MulStrict(k: int, x: int, y: int)
    requires k > 0 && x < y
    ensures k * x < k * y
  {
    assert k * y - k * x == k * (y - x);
    MulAtLeast(y - x, k);
    assert (y - x) * k == k * (y - x);
  }

  /** Forward scratchpad: reduction buffer of 4*C*T bytes iff statistics are computed;
      temporary mean and variance of 4*C bytes each iff they are computed for inference;
      the bf16 conversion buffer iff the data type is bf16; nothing else. */
  lemma FwdScratchpadLayout(dType: DataType, cfg: BnormConfig, nthr: ThreadCount)
    ensures var m := FwdScratchpad(dType, cfg, nthr);
      && (BnormReduction in m <==> !cfg.statsIsSrc)
      && (BnormReduction in m ==> m[BnormReduction] == 4 * cfg.c * nthr)
      && (BnormTmpMean in m <==> !cfg.statsIsSrc && !cfg.isTraining)
      && (BnormTmpVar in m <==> !cfg.statsIsSrc && !cfg.isTraining)
      && (BnormTmpMean in m ==> m[BnormTmpMean] == 4 * cfg.c && m[BnormTmpVar] == 4 * cfg.c)
      && (BnormBf16Cvt in m <==> dType == Bf16)
      && (BnormBf16Cvt in m ==> m[BnormBf16Cvt] == 4 * 2 * nthr * RndUp(SpatialSize(cfg), 16))
      && BnormTmpDiffSs !in m
  {
  }

  /** With 64 channels and 8 threads the forward reduction buffer is 2048 bytes. */
  lemma FwdReductionExample(dType: DataType, cfg: BnormConfig)
    requires !cfg.statsIsSrc && cfg.c == 64
    ensures FwdScratchpad(dType, cfg, 8)[BnormReduction] == 2048
  {
    FwdScratchpadLayout(dType, cfg, 8);
  }

  /** Backward scratchpad: reduction buffer of 4*2*C*T bytes always; temporary diff
      scale-shift of 4*2*C bytes unless scale-shift is used in the combined backward kind;
      a bf16 conversion buffer with 2 rows, plus one when global statistics are not used. */
  lemma BwdScratchpadLayout(dType: DataType, cfg: BnormConfig, nthr: ThreadCount)
    ensures var m := BwdScratchpad(dType, cfg, nthr);
      && BnormReduction in m && m[BnormReduction] == 4 * 2 * cfg.c * nthr
      && (BnormTmpDiffSs in m <==> !(cfg.useScaleshift && cfg.propKind == Backward))
      && (BnormTmpDiffSs in m ==> m[BnormTmpDiffSs] == 4 * 2 * cfg.c)
      && (BnormBf16Cvt in m <==> dType == Bf16)
      && (BnormBf16Cvt in m ==>
            m[BnormBf16Cvt] == 4 * (if cfg.useGlobalStats then 2 else 3) * nthr * RndUp(SpatialSize(cfg), 16))
      && BnormTmpMean !in m && BnormTmpVar !in m
  {
  }

  /** The conversion buffer's spatial extent is D*H*W only for 4D and 5D tensors. */
  lemma SpatialSizeByRank(cfg: BnormConfig)
    ensures cfg.ndims != 4 && cfg.ndims != 5 ==> RndUp(SpatialSize(cfg), SimdW) == SimdW
    ensures cfg.ndims == 4 || cfg.ndims == 5 ==> SpatialSize(cfg) == cfg.d * cfg.h * cfg.w
  {
    if cfg.ndims != 4 && cfg.ndims != 5 {
      RndUpLeast(1, SimdW, SimdW);
    }
  }

  /** For a well-formed configuration at most one variant accepts, and every buffer an
      accepted descriptor books, and the workspace it builds, is non-empty. */
  lemma AcceptedBuffersNonEmpty(dType: DataType, cfg: BnormConfig, hasAvx512Core: bool,
                                nthr: ThreadCount)
    requires WellFormed(cfg)
    ensures !(FwdAccepts(dType, cfg, hasAvx512Core) && BwdAccepts(dType, cfg, hasAvx512Core))
    ensures FwdAccepts(dType, cfg, hasAvx512Core) ==>
              forall k :: k in FwdScratchpad(dType, cfg, nthr) ==> FwdScratchpad(dType, cfg, nthr)[k] > 0
    ensures BwdAccepts(dType, cfg, hasAvx512Core) ==>
              forall k :: k in BwdScratchpad(dType, cfg, nthr) ==> BwdScratchpad(dType, cfg, nthr)[k] > 0
    ensures FwdAccepts(dType, cfg, hasAvx512Core) || BwdAccepts(dType, cfg, hasAvx512Core) ==>
              DefaultWorkspace(cfg, 8).nelems > 0
  {
    if FwdAccepts(dType, cfg, hasAvx512Core) || BwdAccepts(dType, cfg, hasAvx512Core) {
      var sp := SpatialSize(cfg);
      if cfg.ndims == 4 || cfg.ndims == 5 {
        MulPos(cfg.d, cfg.h);
        MulPos(cfg.d * cfg.h, cfg.w);
      }
      assert sp > 0;
      var r := RndUp(sp, SimdW);
      MulPos(AccBytes * cfg.c, nthr);
      MulPos(AccBytes * 2 * cfg.c, nthr);
      forall nbufs: nat | nbufs > 0
        ensures Bf16CvtBytes(cfg, nbufs, nthr) > 0
      {
        MulPos(AccBytes * nbufs, nthr);
        MulPos(AccBytes * nbufs * nthr, r);
      }
      assert Bf16CvtBytes(cfg, 2, nthr) > 0 && Bf16CvtBytes(cfg, 3, nthr) > 0;
    }
  }

  lemma MulPos(x: int, y: int)
    requires x > 0 && y > 0
    ensures x * y > 0
  {
    MulAtLeast(x, y);
  }

  /** bf16 without avx512_core is rejected by both variants, whatever the shapes and layouts. */
  lemma Bf16NeedsAvx512Core(cfg: BnormConfig, hintFwdWs: Option<Workspace>)
    ensures !FwdAccepts(Bf16, cfg, false)
    ensures BwdInitStatus(Bf16, cfg, false, hintFwdWs) == Unimplemented
  {
  }

  /** A ReLU post-op is as good as default attributes for the forward variant, and any
      non-default attribute makes the backward variant reject. */
  lemma ReluPostOpForwardOnly(dType: DataType, cfg: BnormConfig, hasAvx512Core: bool,
                              hintFwdWs: Option<Workspace>)
    ensures cfg.withReluPostOp ==>
              FwdAccepts(dType, cfg, hasAvx512Core) == FwdAccepts(dType, cfg.(attrDefault := true), hasAvx512Core)
    ensures !cfg.attrDefault ==> BwdInitStatus(dType, cfg, hasAvx512Core, hintFwdWs) == Unimplemented
  {
  }

  /** With fused ReLU, an acceptable backward configuration succeeds exactly when the forward
      descriptor's workspace is identical to the one it builds; without fusion the forward
      workspace is not consulted. */
  lemma BwdWorkspacePairing(dType: DataType, cfg: BnormConfig, hasAvx512Core: bool,
                            hintFwdWs: Option<Workspace>)
    requires BwdAccepts(dType, cfg, hasAvx512Core)
    ensures cfg.fuseNormRelu ==>
              (BwdInitStatus(dType, cfg, hasAvx512Core, hintFwdWs) == Success
               <==> hintFwdWs == Some(DefaultWorkspace(cfg, 8)))
    ensures !cfg.fuseNormRelu ==> BwdInitStatus(dType, cfg, hasAvx512Core, hintFwdWs) == Success
  {
  }

  /** A fused backward descriptor paired with a forward one trained with fused ReLU succeeds
      iff both see the same number of source elements; paired with a forward descriptor that
      made no workspace it is rejected. */
  lemma PairedWorkspaceRoundTrip(dType: DataType, fwdCfg: BnormConfig, bwdCfg: BnormConfig,
                                 hasAvx512Core: bool)
    requires FwdAccepts(dType, fwdCfg, hasAvx512Core)
    requires BwdAccepts(dType, bwdCfg, hasAvx512Core) && bwdCfg.fuseNormRelu
    ensures var st := BwdInitStatus(dType, bwdCfg, hasAvx512Core,
                                    Some(FwdWorkspaceAfterInit(dType, fwdCfg, hasAvx512Core)));
      && (fwdCfg.isTraining && fwdCfg.fuseNormRelu ==> (st == Success <==> fwdCfg.srcNelems == bwdCfg.srcNelems))
      && (!(fwdCfg.isTraining && fwdCfg.fuseNormRelu) ==> st == Unimplemented)
  {
  }
}
