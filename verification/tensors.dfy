/**
 * Dense tensors as the collator allocates them: a shape, an element type and
 * row-major contents. A batch tensor is kept as one row-major slot per entry of
 * its first (batch) dimension, which is how the collator fills it.
 */
module Tensors {

  /** An unsigned 8-bit value, the element type of images. */
  newtype byte = x: int | 0 <= x < 256

  /** The element types the collator allocates: torch.uint8, torch.float32, torch.int64. */
  datatype DType = UInt8 | Float32 | Int64

  /** Number of elements of a tensor of the given shape (1 for the empty shape of a scalar). */
  function Product(shape: seq<nat>): nat
  {
    if shape == [] then 1 else shape[0] * Product(shape[1..])
  }

  /** A constant sequence, as `torch.zeros` or a scalar fill produces. */
  function Fill<T>(n: nat, x: T): (s: seq<T>)
    ensures |s| == n
    ensures forall p :: 0 <= p < n ==> s[p] == x
  {
    seq(n, _ => x)
  }

  /** `idx` addresses an element of a tensor of shape `shape`. */
  predicate InBounds(shape: seq<nat>, idx: seq<nat>)
  {
    |idx| == |shape| && forall d :: 0 <= d < |idx| ==> idx[d] < shape[d]
  }

  lemma MulMonotone(a: nat, b: nat, c: nat)
    requires a <= b
    ensures a * c <= b * c
  {
  }

  lemma MulStep(a: nat, b: nat, c: nat, o: nat)
    requires a < b && o < c
    ensures a * c + o < b * c
  {
    assert a * c + c == (a + 1) * c;
    MulMonotone(a + 1, b, c);
  }

  /** Row-major position of element `idx` of a tensor of shape `shape`; it is always in range. */
  function Offset(shape: seq<nat>, idx: seq<nat>): (r: nat)
    requires InBounds(shape, idx)
    ensures r < Product(shape)
    decreases |shape|
  {
    if shape == [] then 0
    else
      assert InBounds(shape[1..], idx[1..]);
      var inner := Offset(shape[1..], idx[1..]);
      MulStep(idx[0], shape[0], Product(shape[1..]), inner);
      idx[0] * Product(shape[1..]) + inner
  }

  /** The offset of row `r` of a tensor whose first dimension has size `n`: r rows of `Product(inner)` come first. */
  lemma OffsetOfRow(n: nat, inner: seq<nat>, r: nat, idx: seq<nat>)
    requires r < n && InBounds(inner, idx)
    ensures InBounds([n] + inner, [r] + idx)
    ensures Offset([n] + inner, [r] + idx) == r * Product(inner) + Offset(inner, idx)
  {
    assert ([n] + inner)[1..] == inner;
    assert ([r] + idx)[1..] == idx;
  }

  /**
   * A tensor whose first dimension is the batch: `slots[i]` holds the row-major
   * contents of entry `i`, of shape `shape[1..]`.
   */
  datatype Tensor<T> = Tensor(shape: seq<nat>, dtype: DType, slots: seq<seq<T>>)
  {
    ghost predicate Valid()
    {
      && |shape| > 0
      && |slots| == shape[0]
      && forall i :: 0 <= i < |slots| ==> |slots[i]| == Product(shape[1..])
    }

    /** Element `idx` (batch index first), as `t[idx]` reads it. */
    function At(idx: seq<nat>): T
      requires Valid() && InBounds(shape, idx)
    {
      assert InBounds(shape[1..], idx[1..]);
      slots[idx[0]][Offset(shape[1..], idx[1..])]
    }
  }
}
