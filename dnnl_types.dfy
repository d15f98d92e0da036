/**
 * Vocabulary shared by the descriptor layer: element data types,
 * propagation kinds, status codes and memory descriptors.
 *
 * A memory descriptor keeps its extents in a fixed-size array of
 * MaxNdims entries (the library's `dims_t`), of which only the first
 * `ndims` are meaningful.
 */
module DnnlTypes {

  datatype DataType = Undef | F16 | Bf16 | F32 | S32 | S8 | U8

  datatype PropKind =
    | ForwardTraining
    | ForwardInference
    | Backward          // combined backward: data and weights
    | BackwardData
    | BackwardWeights
    | BackwardBias

  datatype Status = Success | Unimplemented

  /** Capacity of every extent array (`DNNL_MAX_NDIMS`). */
  const MaxNdims: int := 12

  type Rank = n: int | 0 <= n <= MaxNdims

  type Dims = s: seq<int> | |s| == MaxNdims witness [0, 0, 0, 0, 0, 0, 0, 0, 0, 0, 0, 0]

  /**
   * One tensor argument: rank, logical extents, padded extents, element
   * type, and whether its format kind is "blocked".
   */
  datatype MemoryDesc = MemoryDesc(
    ndims: Rank,
    dims: Dims,
    paddedDims: Dims,
    dataType: DataType,
    isBlocking: bool)

  const ZeroDims: Dims := [0, 0, 0, 0, 0, 0, 0, 0, 0, 0, 0, 0]

  /** The shared "zero/absent" descriptor returned for slots a descriptor does not define. */
  const ZeroMd: MemoryDesc := MemoryDesc(0, ZeroDims, ZeroDims, Undef, false)

  /** A descriptor is the zero descriptor when it has no axes at all. */
  predicate IsZero(md: MemoryDesc) {
    md.ndims == 0
  }

  /** Some meaningful axis of the descriptor has extent zero. */
  predicate HasZeroDim(md: MemoryDesc) {
    exists i :: 0 <= i < md.ndims && md.dims[i] == 0
  }

  /** Product of a run of extents (`utils::array_product`). */
  function Product(s: seq<int>): int {
    if s == [] then 1 else s[0] * Product(s[1..])
  }

  /** Number of logical elements of a descriptor. */
  function Nelems(md: MemoryDesc): int {
    Product(md.dims[..md.ndims])
  }

  /** A product vanishes exactly when one of its factors does. */
  lemma {:induction false} ProductZeroIff(s: seq<int>)
    ensures Product(s) == 0 <==> exists i :: 0 <= i < |s| && s[i] == 0
  {
    if s != [] {
      ProductZeroIff(s[1..]);
      if Product(s[1..]) == 0 {
        var j :| 0 <= j < |s[1..]| && s[1..][j] == 0;
        assert s[j + 1] == 0;
      }
      if s[0] != 0 && Product(s[1..]) != 0 {
        forall i | 0 <= i < |s|
          ensures s[i] != 0
        {
          if i > 0 { assert s[i] == s[1..][i - 1]; }
        }
      }
    }
  }

  /** A descriptor has a zero-sized axis exactly when it holds no elements. */
  lemma ZeroDimIffEmpty(md: MemoryDesc)
    ensures HasZeroDim(md) <==> Nelems(md) == 0
  {
    var s := md.dims[..md.ndims];
    ProductZeroIff(s);
    if Nelems(md) == 0 {
      var i :| 0 <= i < |s| && s[i] == 0;
      assert md.dims[i] == 0;
    }
    if HasZeroDim(md) {
      var i :| 0 <= i < md.ndims && md.dims[i] == 0;
      assert s[i] == 0;
    }
  }

  /** Extents that are pointwise no larger give a product no larger. */
  lemma {:induction false} ProductMonotone(a: seq<int>, b: seq<int>)
    requires |a| == |b|
    requires forall i :: 0 <= i < |a| ==> 0 <= a[i] <= b[i]
    ensures 0 <= Product(a) <= Product(b)
  {
    if a != [] {
      ProductMonotone(a[1..], b[1..]);
      assert 0 <= a[0] <= b[0];
      MulMonotone(a[0], Product(a[1..]), b[0], Product(b[1..]));
    }
  }

  lemma MulMonotone(x: int, y: int, x': int, y': int)
    requires 0 <= x <= x' && 0 <= y <= y'
    ensures 0 <= x * y <= x' * y'
  {
    assert x * y <= x' * y;
    assert x' * y <= x' * y';
  }

  /** Non-negative extents have a non-negative product. */
  lemma {:induction false} ProductNonNegative(s: seq<int>)
    requires forall i :: 0 <= i < |s| ==> 0 <= s[i]
    ensures Product(s) >= 0
  {
    if s != [] {
      ProductNonNegative(s[1..]);
      MulMonotone(0, 0, s[0], Product(s[1..]));
    }
  }
}
