# Inner-product and ncsp batch-normalization descriptors, in Dafny

This project models two parts of the descriptor-and-planning layer of a
neural-network primitive library. In this layer, a primitive descriptor
checks whether one implementation can handle an operator description.
It then fixes the role and memory descriptor of each argument, and it
plans the workspace and scratchpad memory the numeric kernel will use.

- `dnnl_types.dfy` (module `DnnlTypes`): element data types, propagation
  kinds, status codes and memory descriptors. Extents live in a fixed
  12-entry array (`dims_t`). Only the first `ndims` entries are
  meaningful. `Product` plays the role of `array_product`.
- `inner_product_pd.dfy` (module `InnerProductPd`): the inner-product
  descriptor family. The base class and its forward, backward-data and
  backward-weights subclasses become one `PrimitiveDesc` value. It holds
  a `Variant` tag, the frozen `InnerProductDesc` and the variant's own
  copies of its argument descriptors (`SlotDescs`: `src_md_`,
  `weights_md_`, ...). `Build` makes those copies as each variant's
  constructor does. The shape accessors read the frozen description; the
  slot accessors and IC_total_padded read the copies. Every member is a
  pure function: the query, the shape accessors (MB, IC, OC, ID..KW,
  IC_total, IC_total_padded, ndims), with_bias, has_zero_dim_memory,
  is_fwd, expect_data_types, arg_usage, the `*_md(index)` slot accessors
  and n_inputs/n_outputs.
- `ncsp_batch_normalization.dfy` (module `NcspBatchNormalization`): the
  forward and backward `pd_t` of the ncsp batch normalization. Each is a
  class whose fields are the workspace and the scratchpad registry (a
  key → byte-size map). `Init` and `InitScratchpad` change them step by
  step, as the source does. Each method is proved against a pure
  specification: the acceptance predicates `FwdAccepts`/`BwdAccepts`,
  the status function `BwdInitStatus`, and the layout functions
  `FwdScratchpad`/`BwdScratchpad`. Lemmas state the source's promises
  about those.

Modelling assumptions:
- The bodies of the `ip_prop_invariant_*` selectors are not part of this
  model. They are modelled by this table:
  - src: `diff_src` under backward_data, `src` otherwise;
  - weights and bias: `diff_weights` and `diff_bias` under
    backward_weights, `weights` and `bias` otherwise;
  - dst: `dst` under a forward kind, `diff_dst` under any backward kind.
- The shared `glob_zero_md` is the value `ZeroMd`, which has no axes.
  A descriptor "is zero" when its rank is 0.
- A slot accessor that a variant does not override (for example
  `src_md` of the backward-data variant) returns the zero descriptor, as
  the generic descriptor does.
- The generic `arg_usage` and the generic `query` fallback are not
  modelled. They appear as the results `Delegated` and `GenericQuery`.
- The facts the generic batch-normalization descriptor supplies become
  fields of `BnormConfig`. These are is_fwd, is_bwd, is_training,
  stats_is_src, use_scaleshift, use_global_stats, fuse_norm_relu,
  has_zero_dim_memory, the data types, the layouts matched, the attribute
  facts, C/D/H/W, ndims and the element count of src.
- The thread count is a `ThreadCount` (at least 1) parameter.
  `mayiuse(avx512_core)` is a boolean parameter.
- A layout is a `FormatTag`. `memory_desc_matches_one_of_tag(md, ncdhw,
  nchw, nc)` is membership of the tag in that set.
- `init_default_ws(8)` builds `Workspace(8, srcNelems)`: 8 bits per
  source element. `compare_ws` succeeds when a forward descriptor was
  given and its workspace equals this one. `Option.None` is the absent
  forward descriptor, and `NoWorkspace` is a forward descriptor's zero
  workspace.
- `sizeof(acc_data_t)` is 4 (float). Byte sizes are unbounded integers.
- `BnormConfig` fields are independent. `WellFormed` states the relations
  the generic descriptor keeps between them: is_bwd is the negation of
  is_fwd, is_fwd means a forward kind, is_training means forward_training,
  and a configuration without zero-dim memory has non-empty extents. Only
  `AcceptedBuffersNonEmpty` needs it; the other lemmas hold for every
  configuration.

## Model

| member | source | states |
|---|---|---|
| InnerProductPd.Query | src/common/inner_product_pd.hpp:56-64 | the inner_product_d query returns exactly the frozen operator description; every other query goes to the generic descriptor |
| InnerProductPd.InvariantAgreesWithVariant | src/common/inner_product_pd.hpp:29-36 | for a descriptor built for its own direction whose copies are still as its constructor made them, each invariant selector picks the descriptor the variant itself exposes for that role (src/diff_src, dst/diff_dst, weights/diff_weights, bias in weights or diff_weights slot 1); MB, IC and ndims come from that src-role descriptor and OC from the dst-role one; IC_total_padded reads the invariant src; is_fwd holds iff the variant is forward |
| InnerProductPd.ShapeAccessorsByRank | src/common/inner_product_pd.hpp:72-109 | at ranks 2..5, (ID,IH,IW), (OD,OH,OW) and (KD,KH,KW) are the axes after N and C of the invariant src, dst and weights, left-padded with 1 for missing depth/height/width |
| InnerProductPd.SpatialExtents | src/common/inner_product_pd.hpp:72-83 | depth/height/width read at rank n are 1 below rank 5/4/3 and otherwise axes n-3/n-2/n-1 |
| InnerProductPd.ICTotalFactors | src/common/inner_product_pd.hpp:111-114 | IC_total = IC·ID·IH·IW at ranks 2..5; for a rank-2 src [N, C], IC_total = IC = C |
| InnerProductPd.ICTotalPaddedSentinel | src/common/inner_product_pd.hpp:116-123 | with non-negative padded extents, IC_total_padded is -1 exactly when the selected descriptor (diff_src for backward_data, src otherwise) is not blocked |
| InnerProductPd.ICTotalPaddedCoversICTotal | src/common/inner_product_pd.hpp:116-123 | when the padded extents of the src copy (diff_src for backward_data) are no smaller than the logical extents of the invariant src, 0 ≤ IC_total ≤ IC_total_padded, whatever layout the copy has been given |
| InnerProductPd.ZeroDimMemoryIffEmpty | src/common/inner_product_pd.hpp:131-135 | has_zero_dim_memory holds iff the invariant src or the invariant dst has no elements |
| DnnlTypes.ZeroDimIffEmpty | src/common/inner_product_pd.hpp:134 | a descriptor has a zero-sized axis exactly when its element count is 0 |
| InnerProductPd.ExpectDataTypesSound | src/common/inner_product_pd.hpp:146-160 | a passing check means every non-undef expectation equals the type of its descriptor; the bias type is guaranteed only when a bias is present |
| InnerProductPd.ExpectNothingPasses | src/common/inner_product_pd.hpp:146-160 | expecting undef everywhere always passes |
| InnerProductPd.ExpectUndefWeakens | src/common/inner_product_pd.hpp:146-160 | relaxing any single expectation to undef never turns a pass into a failure |
| InnerProductPd.ExpectOwnTypesPass | src/common/inner_product_pd.hpp:146-160 | expecting the descriptors' own types (and the accumulation type) passes |
| InnerProductPd.ExpectBiasIgnoredWithoutBias | src/common/inner_product_pd.hpp:157-158 | without a bias the bias expectation does not affect the result |
| InnerProductPd.FwdArgContract | src/common/inner_product_pd.hpp:190-214 | forward: SRC and WEIGHTS are inputs, BIAS is an input iff with_bias, DST is the output; weights_md(0) is the weights copy and weights_md(1) the bias copy iff with_bias, every other non-zero index is the zero descriptor; n_inputs = 2 + with_bias, n_outputs = 1 |
| InnerProductPd.BwdDataArgContract | src/common/inner_product_pd.hpp:235-255 | backward-data: WEIGHTS and DIFF_DST in, DIFF_SRC out, no bias slot, weights_md(i≠0) is the zero descriptor; n_inputs = 2, n_outputs = 1 |
| InnerProductPd.BwdWeightsArgContract | src/common/inner_product_pd.hpp:276-301 | backward-weights: SRC and DIFF_DST in, DIFF_WEIGHTS out, DIFF_BIAS out iff with_bias; diff_weights_md(0) is the diff-weights copy and diff_weights_md(1) the diff-bias copy iff with_bias; n_inputs = 2, n_outputs = 1 + with_bias |
| InnerProductPd.ArgCountsMatchUsage | src/common/inner_product_pd.hpp:190-301 | in every variant, n_inputs and n_outputs equal the number of data argument ids arg_usage reports as input and as output |
| InnerProductPd.ArgBindingMatchesUsage | src/common/inner_product_pd.hpp:183-307 | an argument the variant claims is bound to the variant's own copy of that descriptor, which as built is the operator description's field; an argument it leaves to the generic descriptor reads as the zero descriptor |
| InnerProductPd.ShapeIgnoresSlots | src/common/inner_product_pd.hpp:66-140 | ndims, MB, IC, OC, the nine spatial extents, IC_total, with_bias, has_zero_dim_memory, is_fwd and the inner_product_d query read only the frozen description, so giving the copies other layouts changes none of them |
| NcspBatchNormalization.NcspBnormFwdPd.Init | src/cpu/ncsp_batch_normalization.hpp:42-63 | returns success iff forward, no zero-dim memory, src type = d_type, bf16 only with avx512_core, scale-shift only with f32 weights, src in ncdhw/nchw/nc, attributes default or a ReLU post-op; on rejection nothing changes; on success an 8-bit workspace is created iff training with fused ReLU, and the forward scratchpad is booked |
| NcspBatchNormalization.NcspBnormFwdPd.InitScratchpad | src/cpu/ncsp_batch_normalization.hpp:66-90 | the registry afterwards is the old one plus the forward layout `FwdScratchpad` |
| NcspBatchNormalization.NcspBnormBwdPd.Init | src/cpu/ncsp_batch_normalization.hpp:117-143 | the status is `BwdInitStatus`: reject unless backward, no zero-dim memory, src and diff_src types = d_type, bf16 only with avx512_core, f32 weights and diff weights under scale-shift, src and diff_src in ncdhw/nchw/nc, default attributes; with fused ReLU the 8-bit workspace is built and must equal the forward descriptor's; a rejection books nothing |
| NcspBatchNormalization.NcspBnormBwdPd.InitScratchpad | src/cpu/ncsp_batch_normalization.hpp:146-164 | the registry afterwards is the old one plus the backward layout `BwdScratchpad` |
| NcspBatchNormalization.FwdScratchpadLayout | src/cpu/ncsp_batch_normalization.hpp:66-90 | reduction 4·C·T bytes iff !stats_is_src; tmp_mean and tmp_var 4·C bytes each iff !stats_is_src and !is_training; bf16cvt 4·2·T·rnd_up(SP,16) iff d_type is bf16; no tmp_diff_ss |
| NcspBatchNormalization.FwdReductionExample | src/cpu/ncsp_batch_normalization.hpp:69-71 | C = 64 and T = 8 give a 2048-byte reduction buffer |
| NcspBatchNormalization.BwdScratchpadLayout | src/cpu/ncsp_batch_normalization.hpp:146-164 | reduction 4·2·C·T bytes always; tmp_diff_ss 4·2·C bytes unless scale-shift is used with prop_kind backward; bf16cvt 4·(2 + !use_global_stats)·T·rnd_up(SP,16) iff bf16; no tmp_mean/tmp_var |
| NcspBatchNormalization.RndUp | src/cpu/ncsp_batch_normalization.hpp:86-87 | rnd_up(a, b) is a multiple of b in [a, a + b) |
| NcspBatchNormalization.RndUpLeast | src/cpu/ncsp_batch_normalization.hpp:86-87 | rnd_up(a, b) is no larger than any multiple of b that is at least a, so it is the least such multiple |
| NcspBatchNormalization.Bf16CvtCoversSpatial | src/cpu/ncsp_batch_normalization.hpp:81-89 | the conversion buffer holds at least nbufs·T full spatial rows of floats, and less than one extra vector of 16 per row |
| NcspBatchNormalization.SpatialSizeByRank | src/cpu/ncsp_batch_normalization.hpp:83-84 | SP is D·H·W for ranks 4 and 5; at any other rank one 16-float vector per row is booked |
| NcspBatchNormalization.AcceptedBuffersNonEmpty | src/cpu/ncsp_batch_normalization.hpp:45-164 | for a well-formed configuration at most one variant accepts, and every buffer an accepted descriptor books, and its default workspace, has a positive size |
| NcspBatchNormalization.Bf16NeedsAvx512Core | src/cpu/ncsp_batch_normalization.hpp:47-56 | bf16 without avx512_core is rejected by both variants whatever the shapes and layouts |
| NcspBatchNormalization.ReluPostOpForwardOnly | src/cpu/ncsp_batch_normalization.hpp:121-133 | a ReLU post-op is accepted forward exactly as default attributes are; any non-default attribute is rejected backward |
| NcspBatchNormalization.BwdWorkspacePairing | src/cpu/ncsp_batch_normalization.hpp:135-138 | with fused ReLU an acceptable backward configuration succeeds iff the forward workspace is present and identical; without fusion the forward workspace is not consulted |
| NcspBatchNormalization.PairedWorkspaceRoundTrip | src/cpu/ncsp_batch_normalization.hpp:58 | a fused backward descriptor paired with a forward one trained with fused ReLU succeeds iff both see the same source element count; paired with a forward one that made no workspace, it is rejected |

## Left out

- `execute`, `execute_forward` and `execute_backward`: these are the multi-threaded floating-point kernels, and only their declarations exist in these files.
- `init_info` and the `DECLARE_COMMON_PD_T` registration: diagnostics formatting and factory registration.
- `op_desc()`: it is a pointer reinterpretation of `desc()`, so the model has no separate value for it.
- The `hint_fwd_pd_` pointer of the inner-product family: no member of these files reads it.
- The generic `primitive_desc_t::query` and `arg_usage` fallbacks: they are not part of this model. They appear as `GenericQuery` and `Delegated`.
- `memory_desc_wrapper`, `memory_desc_matches_one_of_tag`, `attr()`, `init_default_ws`, `compare_ws` and the scratchpad registry storage: these are abstracted as described above. The registry's offsets and alignment are not modelled, only key → size.
- The debug `assert` in `IC_total_padded`: only the release path that returns -1 is modelled.
- Later changes to the variants' descriptor copies: the implementations that give `src_md_`, `weights_md_` and the others their final layouts are not part of this model. Every member accepts any copies, and only `InvariantAgreesWithVariant`, the `Consistent(pd) && AsBuilt(pd)` clauses of the argument contracts and the second clause of `ArgBindingMatchesUsage` are stated for copies as the constructor made them.
- InnerProductPd.ICTotal: requires rank ≥ 1. At rank 0 the source passes a negative count to `array_product`, and that count wraps around as `size_t`.
- Integer widths: `dim_t`, `int` and `size_t` overflow is not modelled. All sizes are unbounded integers, and C/D/H/W are non-negative.
- `dnnl_get_max_threads()` and `mayiuse(avx512_core)`: these are runtime queries, so they are parameters.
- The template parameter `d_type` is the `dType` field of each descriptor class.
