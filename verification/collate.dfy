/**
 * `fast_collate`: stacks a list of (image, annotation dict) samples into one
 * uint8 image tensor and one zero-padded tensor per annotation key.
 *
 * The output layout is decided by sample 0 alone. The tensors are allocated
 * zero-filled and then filled in place, sample by sample; each failing write
 * raises, which the model returns as an `Err`.
 */
module Collate {
  import opened Wrappers
  import opened Tensors

  /** Capacity of the padded instance dimension. */
  const MAX_NUM_INSTANCES: nat := 100

  type Key = string

  /** An annotation value as the collator distinguishes them. */
  datatype AnnValue =
    | PyFloat(f: real)                           // a Python float (numpy.float64 included)
    | PyInt(n: int)                              // a Python int or bool, or a numpy integer
    | PyOther                                    // any other non-array value: str, None, list, tuple, ...
    | NdArray(shape: seq<nat>, elems: seq<real>) // a numpy array, row-major
  {
    /** The numpy invariant: an array holds exactly as many elements as its shape says. */
    predicate WellFormed()
    {
      NdArray? ==> |elems| == Product(shape)
    }

    /** `isinstance(tv, np.ndarray) and len(tv.shape)`: the value is copied row-wise. */
    predicate IsArrayWrite()
    {
      NdArray? && |shape| > 0
    }

    /** A number `t[i] = tv` accepts: a tensor element can be set from a Python int, bool or float only. */
    predicate IsNumber()
    {
      PyFloat? || PyInt?
    }

    /** The number a Python number stands for. */
    function ScalarValue(): real
      requires IsNumber()
    {
      match this
      case PyFloat(f) => f
      case PyInt(n) => n as real
    }

    /** Element `idx` of an array value. */
    function ArrayAt(idx: seq<nat>): real
      requires NdArray? && WellFormed() && InBounds(shape, idx)
    {
      elems[Offset(shape, idx)]
    }
  }

  datatype Image = Image(shape: seq<nat>, pixels: seq<byte>)
  {
    function PixelAt(idx: seq<nat>): byte
      requires |pixels| == Product(shape) && InBounds(shape, idx)
    {
      pixels[Offset(shape, idx)]
    }
  }

  /** A Python dict, as its items in insertion order. */
  type Annotations = seq<(Key, AnnValue)>

  datatype Sample = Sample(image: Image, ann: Annotations)

  /** What numpy arrays and Python dicts guarantee: well-formed values under distinct keys. */
  predicate WellFormedItems(items: Annotations)
  {
    && (forall p :: 0 <= p < |items| ==> items[p].1.WellFormed())
    && (forall p, q :: 0 <= p < q < |items| ==> items[p].0 != items[q].0)
  }

  predicate WellFormedSample(s: Sample)
  {
    |s.image.pixels| == Product(s.image.shape) && WellFormedItems(s.ann)
  }

  predicate WellFormedBatch(batch: seq<Sample>)
  {
    forall i :: 0 <= i < |batch| ==> WellFormedSample(batch[i])
  }

  /** `d[k]`, or None when `k` is not a key; of repeated keys the last one wins, as in a dict built by assignment. */
  function Lookup(items: Annotations, k: Key): Option<AnnValue>
  {
    if items == [] then None
    else if items[|items| - 1].0 == k then Some(items[|items| - 1].1)
    else Lookup(items[..|items| - 1], k)
  }

  lemma {:induction false} LookupAbsent(items: Annotations, k: Key)
    requires forall p :: 0 <= p < |items| ==> items[p].0 != k
    ensures Lookup(items, k) == None
  {
    if items != [] {
      LookupAbsent(items[..|items| - 1], k);
    }
  }

  /** Extending a dict by one item changes only that item's key. */
  lemma LookupStep(items: Annotations, j: nat)
    requires j < |items|
    ensures forall k :: Lookup(items[..j + 1], k) ==
              if items[j].0 == k then Some(items[j].1) else Lookup(items[..j], k)
  {
    var prefix := items[..j + 1];
    assert prefix != [] && prefix[..|prefix| - 1] == items[..j] && prefix[|prefix| - 1] == items[j];
    forall k
      ensures Lookup(prefix, k) == if items[j].0 == k then Some(items[j].1) else Lookup(items[..j], k)
    {
    }
  }

  // ---------------------------------------------------------------------------
  // The output layout of one annotation key

  /** Per-sample layout of an annotation tensor: padded instances, or one scalar per sample. */
  datatype Layout = Padded(inner: seq<nat>) | Scalar(dtype: DType)

  /** Shape of one sample's entry of the output tensor (the output shape without the batch dimension). */
  function SlotShape(l: Layout): seq<nat>
  {
    match l
    case Padded(inner) => [MAX_NUM_INSTANCES] + inner
    case Scalar(_) => []
  }

  function SlotSize(l: Layout): nat
  {
    Product(SlotShape(l))
  }

  function DTypeOf(l: Layout): DType
  {
    match l
    case Padded(_) => Float32
    case Scalar(d) => d
  }

  /**
   * The layout chosen from sample 0's value for a key: an array gives
   * `(MAX_NUM_INSTANCES,) + v.shape[1:]` in float32, a Python float a float32
   * scalar, anything else an int64 scalar.
   */
  function FieldLayout(v: AnnValue): (l: Layout)
    ensures v.NdArray? ==> SlotShape(l) == [MAX_NUM_INSTANCES] + (if |v.shape| > 1 then v.shape[1..] else [])
    ensures v.NdArray? ==> DTypeOf(l) == Float32
    ensures !v.NdArray? ==> SlotShape(l) == []
    ensures !v.NdArray? ==> (DTypeOf(l) == Float32 <==> v.PyFloat?)
    ensures !v.NdArray? ==> (DTypeOf(l) == Int64 <==> !v.PyFloat?)
  {
    match v
    case NdArray(shape, _) => Padded(if |shape| > 1 then shape[1..] else [])
    case PyFloat(_) => Scalar(Float32)
    case PyInt(_) => Scalar(Int64)
    case PyOther => Scalar(Int64)
  }

  /** Truncation toward zero, what storing a float into an integer tensor does. */
  function TruncateToInt(x: real): (r: int)
    ensures 0.0 <= x ==> r as real <= x < r as real + 1.0
    ensures x < 0.0 ==> r as real - 1.0 < x <= r as real
  {
    if 0.0 <= x then x.Floor else -((-x).Floor)
  }

  /** A number as stored into a tensor of element type `d` (float32 rounding is not modelled). */
  function Cast(d: DType, x: real): real
  {
    if d == Int64 then TruncateToInt(x) as real else x
  }

  /** The write `target[tk][i, 0:n] = tv` succeeds: the destination has n rows of the same inner shape. */
  predicate WriteFits(l: Layout, tv: AnnValue)
  {
    if tv.IsArrayWrite() then
      l.Padded? && tv.shape[0] <= MAX_NUM_INSTANCES && tv.shape[1..] == l.inner
    else
      tv.IsNumber()
  }

  predicate ValueFits(l: Layout, v: Option<AnnValue>)
  {
    v.Some? ==> v.value.WellFormed() && WriteFits(l, v.value)
  }

  lemma ArrayWithinSlot(l: Layout, tv: AnnValue)
    requires tv.WellFormed() && tv.IsArrayWrite() && WriteFits(l, tv)
    ensures |tv.elems| <= SlotSize(l)
  {
    assert ([MAX_NUM_INSTANCES] + l.inner)[1..] == l.inner;
    MulMonotone(tv.shape[0], MAX_NUM_INSTANCES, Product(l.inner));
  }

  /**
   * Contents of one sample's entry of an annotation tensor: zeros when the
   * sample lacks the key; its instances followed by zero rows for an array; the
   * value, converted to the element type, in every position for a scalar.
   */
  function SlotValue(l: Layout, v: Option<AnnValue>): (s: seq<real>)
    requires ValueFits(l, v)
    ensures |s| == SlotSize(l)
  {
    match v
    case None => Fill(SlotSize(l), 0.0)
    case Some(tv) =>
      if tv.IsArrayWrite() then
        ArrayWithinSlot(l, tv);
        tv.elems + Fill(SlotSize(l) - |tv.elems|, 0.0)
      else
        Fill(SlotSize(l), Cast(DTypeOf(l), tv.ScalarValue()))
  }

  // ---------------------------------------------------------------------------
  // Failures

  /** The exceptions `fast_collate` can raise. */
  datatype CollateError =
    | EmptyBatch                               // IndexError from batch[0]
    | ImageShapeMismatch(sample: nat)          // RuntimeError from tensor[i] += image
    | UnknownKey(sample: nat, key: Key)        // KeyError from target[tk]
    | TooManyIndices(sample: nat, key: Key)    // IndexError: [i, 0:n] on a one-dimensional tensor
    | ShapeMismatch(sample: nat, key: Key)     // RuntimeError: the rows do not fit [i, 0:n]
    | NotAssignable(sample: nat, key: Key)     // TypeError from target[tk][i] = tv: tv is no number

  /** The exception, if any, that writing item (k, tv) of sample i raises. */
  function ItemError(ann0: Annotations, i: nat, k: Key, tv: AnnValue): Option<CollateError>
  {
    match Lookup(ann0, k)
    case None => Some(UnknownKey(i, k))
    case Some(v0) =>
      var l := FieldLayout(v0);
      if WriteFits(l, tv) then None
      else if !tv.IsArrayWrite() then Some(NotAssignable(i, k))
      else if l.Scalar? then Some(TooManyIndices(i, k))
      else Some(ShapeMismatch(i, k))
  }

  /** The first exception raised while writing `items` in order. */
  function FirstItemError(ann0: Annotations, i: nat, items: Annotations): Option<CollateError>
  {
    if items == [] then None
    else match ItemError(ann0, i, items[0].0, items[0].1)
      case Some(e) => Some(e)
      case None => FirstItemError(ann0, i, items[1..])
  }

  /** The exception, if any, that copying sample i raises: its image first, then its items. */
  function SampleError(batch: seq<Sample>, i: nat): Option<CollateError>
    requires 0 < |batch| && i < |batch|
  {
    if batch[i].image.shape != batch[0].image.shape then Some(ImageShapeMismatch(i))
    else FirstItemError(batch[0].ann, i, batch[i].ann)
  }

  /** The first exception raised while copying samples j, j+1, ... */
  function ErrorFrom(batch: seq<Sample>, j: nat): Option<CollateError>
    requires 0 < |batch| && j <= |batch|
    decreases |batch| - j
  {
    if j == |batch| then None
    else match SampleError(batch, j)
      case Some(e) => Some(e)
      case None => ErrorFrom(batch, j + 1)
  }

  /** The exception `fast_collate(batch)` raises, or None when it returns. */
  function FirstError(batch: seq<Sample>): Option<CollateError>
  {
    if |batch| == 0 then Some(EmptyBatch) else ErrorFrom(batch, 0)
  }

  // ---------------------------------------------------------------------------
  // The result

  /** The returned pair: the image tensor and the annotation dict. */
  datatype Batch = Batch(images: Tensor<byte>, target: map<Key, Tensor<real>>)

  /** Tensor `t` holds key `k` of every sample, laid out as `l`. */
  ghost predicate FieldCollated(batch: seq<Sample>, k: Key, l: Layout, t: Tensor<real>)
  {
    && t.shape == [|batch|] + SlotShape(l)
    && t.dtype == DTypeOf(l)
    && |t.slots| == |batch|
    && forall i :: 0 <= i < |batch| ==>
         ValueFits(l, Lookup(batch[i].ann, k)) && t.slots[i] == SlotValue(l, Lookup(batch[i].ann, k))
  }

  /** `out` is the batch made of `batch`: images stacked, one tensor per key of sample 0. */
  ghost predicate Collates(batch: seq<Sample>, out: Batch)
  {
    && |batch| > 0
    && out.images.shape == [|batch|] + batch[0].image.shape
    && out.images.dtype == UInt8
    && |out.images.slots| == |batch|
    && (forall i :: 0 <= i < |batch| ==>
          batch[i].image.shape == batch[0].image.shape && out.images.slots[i] == batch[i].image.pixels)
    && (forall k :: k in out.target <==> Lookup(batch[0].ann, k).Some?)
    && (forall k :: k in out.target ==>
          FieldCollated(batch, k, FieldLayout(Lookup(batch[0].ann, k).value), out.target[k]))
  }

  // ---------------------------------------------------------------------------
  // The collator

  /** `tensor[i] += image` on uint8 tensors: element-wise addition modulo 256. */
  function AddBytes(a: seq<byte>, b: seq<byte>): (r: seq<byte>)
    requires |a| == |b|
    ensures |r| == |a|
  {
    seq(|a|, p requires 0 <= p < |a| => ((a[p] as int + b[p] as int) % 256) as byte)
  }

  /** Adding an image onto a zero-filled entry copies it. */
  lemma AddToZeroIsCopy(b: seq<byte>)
    ensures AddBytes(Fill(|b|, 0 as byte), b) == b
  {
  }

  /** An annotation tensor under construction: its layout and its slots, one per sample. */
  datatype Buffer = Buffer(layout: Layout, slots: array<seq<real>>)

  /** `target` has one buffer per key of `ann0`, laid out as that key's value decides. */
  ghost predicate Allocated(ann0: Annotations, n: nat, target: map<Key, Buffer>)
  {
    && (forall k :: k in target <==> Lookup(ann0, k).Some?)
    && (forall k :: k in target ==>
          target[k].layout == FieldLayout(Lookup(ann0, k).value) && target[k].slots.Length == n)
  }

  /** No two keys share a buffer. */
  ghost predicate Disjoint(target: map<Key, Buffer>)
  {
    forall k1, k2 :: k1 in target && k2 in target && k1 != k2 ==> target[k1].slots != target[k2].slots
  }

  /** The first loop of `fast_collate`: one zero-filled tensor per key of sample 0. */
  method AllocateTargets(ann0: Annotations, n: nat) returns (target: map<Key, Buffer>)
    ensures Allocated(ann0, n, target) && Disjoint(target)
    ensures forall k :: k in target ==> fresh(target[k].slots)
    ensures forall k, i :: k in target && 0 <= i < n ==>
              target[k].slots[i] == Fill(SlotSize(target[k].layout), 0.0)
  {
    target := map[];
    var j := 0;
    while j < |ann0|
      invariant 0 <= j <= |ann0|
      invariant Allocated(ann0[..j], n, target) && Disjoint(target)
      invariant forall k :: k in target ==> fresh(target[k].slots)
      invariant forall k, i :: k in target && 0 <= i < n ==>
                  target[k].slots[i] == Fill(SlotSize(target[k].layout), 0.0)
    {
      var (k, v) := ann0[j];
      var layout := FieldLayout(v);
      var slots := new seq<real>[n](_ => Fill(SlotSize(layout), 0.0));
      target := target[k := Buffer(layout, slots)];
      assert ann0[..j + 1][..j] == ann0[..j];
      j := j + 1;
    }
    assert ann0[..j] == ann0;
  }

  /**
   * One write of `fast_collate` onto a zero entry: `target[tk][i, 0:n] = tv`
   * for an array, `target[tk][i] = tv` for a scalar.
   */
  method WriteItem(buf: Buffer, i: nat, tv: AnnValue)
    requires i < buf.slots.Length && tv.WellFormed() && WriteFits(buf.layout, tv)
    requires buf.slots[i] == Fill(SlotSize(buf.layout), 0.0)
    modifies buf.slots
    ensures buf.slots[..] == old(buf.slots[..])[i := SlotValue(buf.layout, Some(tv))]
  {
    if tv.IsArrayWrite() {
      ArrayWithinSlot(buf.layout, tv);
      buf.slots[i] := tv.elems + buf.slots[i][|tv.elems|..];
    } else {
      buf.slots[i] := Fill(|buf.slots[i]|, Cast(DTypeOf(buf.layout), tv.ScalarValue()));
    }
    assert buf.slots[i] == SlotValue(buf.layout, Some(tv));
  }

  /**
   * The inner loop of `fast_collate` for sample i: writes each item of the
   * sample into its key's tensor, stopping at the first write that raises.
   */
  method CopyAnnotations(ann0: Annotations, n: nat, target: map<Key, Buffer>, i: nat, items: Annotations)
    returns (err: Option<CollateError>)
    requires Allocated(ann0, n, target) && Disjoint(target) && i < n
    requires WellFormedItems(items)
    requires forall k :: k in target ==> target[k].slots[i] == Fill(SlotSize(target[k].layout), 0.0)
    modifies set k | k in target :: target[k].slots
    ensures err == FirstItemError(ann0, i, items)
    ensures forall k, i' :: k in target && 0 <= i' < n && i' != i ==>
              target[k].slots[i'] == old(target[k].slots[i'])
    ensures err.None? ==> SlotHolds(target, i, items)
  {
    var j := 0;
    while j < |items|
      invariant 0 <= j <= |items|
      invariant FirstItemError(ann0, i, items) == FirstItemError(ann0, i, items[j..])
      invariant forall k, i' :: k in target && 0 <= i' < n && i' != i ==>
                  target[k].slots[i'] == old(target[k].slots[i'])
      invariant SlotHolds(target, i, items[..j])
    {
      var (k, tv) := items[j];
      assert items[j..][0] == items[j] && items[j..][1..] == items[j + 1..];
      var e := ItemError(ann0, i, k, tv);
      if e.Some? {
        return e;
      }
      CopyItem(ann0, n, target, i, items, j);
      j := j + 1;
    }
    assert items[..j] == items;
    return None;
  }

  /** Entry i of every key's tensor holds what `items` assigns that key (zeros for a key it lacks). */
  ghost predicate SlotHolds(target: map<Key, Buffer>, i: nat, items: Annotations)
    reads set k | k in target :: target[k].slots
  {
    forall k :: k in target ==>
      i < target[k].slots.Length &&
      ValueFits(target[k].layout, Lookup(items, k)) &&
      target[k].slots[i] == SlotValue(target[k].layout, Lookup(items, k))
  }

  /** One iteration of the annotation loop: item j, which raises nothing, is written to its key's tensor. */
  method CopyItem(ann0: Annotations, n: nat, target: map<Key, Buffer>, i: nat, items: Annotations, j: nat)
    requires Allocated(ann0, n, target) && Disjoint(target) && i < n
    requires WellFormedItems(items) && j < |items|
    requires ItemError(ann0, i, items[j].0, items[j].1).None?
    requires SlotHolds(target, i, items[..j])
    modifies set k | k in target :: target[k].slots
    ensures forall k, i' :: k in target && 0 <= i' < n && i' != i ==>
              target[k].slots[i'] == old(target[k].slots[i'])
    ensures SlotHolds(target, i, items[..j + 1])
  {
    var (k, tv) := items[j];
    LookupStep(items, j);
    LookupAbsent(items[..j], k);
    var buf := target[k];
    WriteItem(buf, i, tv);
  }

  /** Samples 0..i-1 are copied: entry i' of the image tensor and of every key's tensor holds sample i'. */
  ghost predicate CopiedBelow(batch: seq<Sample>, target: map<Key, Buffer>, images: array<seq<byte>>, i: nat)
    requires 0 < |batch|
    reads images, set k | k in target :: target[k].slots
  {
    && i <= |batch| && images.Length == |batch|
    && (forall i' :: 0 <= i' < i ==>
          batch[i'].image.shape == batch[0].image.shape && images[i'] == batch[i'].image.pixels)
    && (forall i' :: 0 <= i' < i ==> SlotHolds(target, i', batch[i'].ann))
  }

  /** Entries i..n-1 of the image tensor and of every key's tensor are still zero. */
  ghost predicate ZeroFrom(batch: seq<Sample>, target: map<Key, Buffer>, images: array<seq<byte>>, i: nat)
    requires 0 < |batch|
    reads images, set k | k in target :: target[k].slots
  {
    && images.Length == |batch|
    && (forall i' :: i <= i' < |batch| ==> images[i'] == Fill(Product(batch[0].image.shape), 0 as byte))
    && (forall k, i' :: k in target && i <= i' < |batch| ==>
          i' < target[k].slots.Length && target[k].slots[i'] == Fill(SlotSize(target[k].layout), 0.0))
  }

  /** One iteration of the sample loop of `fast_collate`: the image of sample i, then its annotations. */
  method CopySample(batch: seq<Sample>, target: map<Key, Buffer>, images: array<seq<byte>>, i: nat)
    returns (err: Option<CollateError>)
    requires WellFormedBatch(batch) && i < |batch|
    requires Allocated(batch[0].ann, |batch|, target) && Disjoint(target)
    requires CopiedBelow(batch, target, images, i) && ZeroFrom(batch, target, images, i)
    modifies images, set k | k in target :: target[k].slots
    ensures err == SampleError(batch, i)
    ensures err.None? ==> CopiedBelow(batch, target, images, i + 1) && ZeroFrom(batch, target, images, i + 1)
  {
    var sample := batch[i];
    if sample.image.shape != batch[0].image.shape {
      return Some(ImageShapeMismatch(i));
    }
    // tensor[i] += torch.from_numpy(image)
    AddToZeroIsCopy(sample.image.pixels);
    images[i] := AddBytes(images[i], sample.image.pixels);
    assert forall k :: k in target ==> target[k].slots[i] == Fill(SlotSize(target[k].layout), 0.0);
    err := CopyAnnotations(batch[0].ann, |batch|, target, i, sample.ann);
    if err.None? {
      // entries below i were left as they were
      forall i' | 0 <= i' < i
        ensures SlotHolds(target, i', batch[i'].ann)
      {
        assert old(SlotHolds(target, i', batch[i'].ann));
      }
    }
  }

  /** The returned pair, read off the filled buffers once every sample has been copied. */
  method Assemble(batch: seq<Sample>, target: map<Key, Buffer>, images: array<seq<byte>>) returns (out: Batch)
    requires 0 < |batch| && images.Length == |batch|
    requires Allocated(batch[0].ann, |batch|, target)
    requires CopiedBelow(batch, target, images, |batch|)
    ensures Collates(batch, out)
  {
    var n := |batch|;
    var fields := map k | k in target ::
      Tensor([n] + SlotShape(target[k].layout), DTypeOf(target[k].layout), target[k].slots[..]);
    out := Batch(Tensor([n] + batch[0].image.shape, UInt8, images[..]), fields);
    forall k | k in fields
      ensures FieldCollated(batch, k, target[k].layout, fields[k])
    {
      var l := target[k].layout;
      var slots := target[k].slots[..];
      assert fields[k] == Tensor([n] + SlotShape(l), DTypeOf(l), slots);
      assert forall i :: 0 <= i < n ==> slots[i] == target[k].slots[i];
    }
  }

  /** The sample loop of `fast_collate`: copies samples 0, 1, ... until one raises. */
  method CopySamples(batch: seq<Sample>, target: map<Key, Buffer>, images: array<seq<byte>>)
    returns (err: Option<CollateError>)
    requires WellFormedBatch(batch) && 0 < |batch| && images.Length == |batch|
    requires Allocated(batch[0].ann, |batch|, target) && Disjoint(target)
    requires ZeroFrom(batch, target, images, 0)
    modifies images, set k | k in target :: target[k].slots
    ensures err == ErrorFrom(batch, 0)
    ensures err.None? ==> CopiedBelow(batch, target, images, |batch|)
  {
    var n := |batch|;
    var i := 0;
    while i < n
      invariant 0 <= i <= n
      invariant ErrorFrom(batch, 0) == ErrorFrom(batch, i)
      invariant CopiedBelow(batch, target, images, i) && ZeroFrom(batch, target, images, i)
      invariant Allocated(batch[0].ann, n, target) && Disjoint(target)
    {
      err := CopySample(batch, target, images, i);
      if err.Some? {
        return;
      }
      i := i + 1;
    }
    err := None;
  }

  /**
   * `fast_collate(batch)`: returns the collated batch, or the exception the
   * first failing write raises.
   */
  method FastCollate(batch: seq<Sample>) returns (res: Result<Batch, CollateError>)
    requires WellFormedBatch(batch)
    ensures FirstError(batch).Some? ==> res == Err(FirstError(batch).value)
    ensures FirstError(batch).None? ==> res.Ok? && Collates(batch, res.value)
  {
    if |batch| == 0 {
      return Err(EmptyBatch);
    }
    var target := AllocateTargets(batch[0].ann, |batch|);
    var images := new seq<byte>[|batch|](_ => Fill(Product(batch[0].image.shape), 0 as byte));
    var err := CopySamples(batch, target, images);
    if err.Some? {
      return Err(err.value);
    }
    var out := Assemble(batch, target, images);
    return Ok(out);
  }

  // ---------------------------------------------------------------------------
  // Properties of the collated batch

  // Collates(batch, out) gives FieldCollated(batch, k, FieldLayout(v0), out.target[k])
  // for every key k of sample 0, v0 being its value there; the lemmas below
  // read one such tensor element by element.

  /** A collated field tensor is well formed: one slot per sample, each of the slot shape. */
  lemma FieldTensorValid(batch: seq<Sample>, k: Key, l: Layout, t: Tensor<real>)
    requires FieldCollated(batch, k, l, t)
    ensures t.Valid() && t.shape[1..] == SlotShape(l)
  {
    assert t.shape[1..] == SlotShape(l);
    forall i | 0 <= i < |t.slots|
      ensures |t.slots[i]| == Product(t.shape[1..])
    {
      assert ValueFits(l, Lookup(batch[i].ann, k));
    }
  }

  /**
   * Every output key is a key of sample 0, and its tensor is shaped by sample
   * 0's value v0 alone: [n, MAX_NUM_INSTANCES, *v0.shape[1:]] float32 for an
   * array, [n] float32 for a float, [n] int64 otherwise; the tensor holds the
   * key of every sample laid out that way.
   */
  lemma FieldOfKey(batch: seq<Sample>, out: Batch, k: Key)
    requires Collates(batch, out) && k in out.target
    ensures Lookup(batch[0].ann, k).Some?
    ensures var v0 := Lookup(batch[0].ann, k).value;
      var t := out.target[k];
      && FieldCollated(batch, k, FieldLayout(v0), t)
      && (v0.NdArray? ==>
            t.dtype == Float32 &&
            t.shape == [|batch|, MAX_NUM_INSTANCES] + (if |v0.shape| > 1 then v0.shape[1..] else []))
      && (v0.PyFloat? ==> t.shape == [|batch|] && t.dtype == Float32)
      && (!v0.NdArray? && !v0.PyFloat? ==> t.shape == [|batch|] && t.dtype == Int64)
  {
    var v0 := Lookup(batch[0].ann, k).value;
    assert FieldCollated(batch, k, FieldLayout(v0), out.target[k]);
  }

  /** Entry i of the image tensor is image i, element by element, and the tensor has shape [batch_size, *image_shape]. */
  lemma {:induction false} ImageSlotCopied(batch: seq<Sample>, out: Batch, i: nat, idx: seq<nat>)
    requires WellFormedBatch(batch) && Collates(batch, out)
    requires i < |batch| && InBounds(batch[i].image.shape, idx)
    ensures out.images.shape == [|batch|] + batch[0].image.shape && out.images.dtype == UInt8
    ensures out.images.Valid() && InBounds(out.images.shape, [i] + idx)
    ensures out.images.At([i] + idx) == batch[i].image.PixelAt(idx)
  {
    assert out.images.shape[1..] == batch[0].image.shape;
    assert ([i] + idx)[1..] == idx && ([i] + idx)[0] == i;
    forall j | 0 <= j < |batch|
      ensures |out.images.slots[j]| == Product(out.images.shape[1..])
    {
      assert WellFormedSample(batch[j]);
    }
  }

  /**
   * Element [r, ...idx] of the slot an array write fills: row r of the array
   * for r below its row count n, zero padding from row n on.
   */
  lemma {:induction false} PaddedSlotAt(l: Layout, tv: AnnValue, r: nat, idx: seq<nat>)
    requires tv.WellFormed() && tv.IsArrayWrite() && WriteFits(l, tv)
    requires r < MAX_NUM_INSTANCES && InBounds(l.inner, idx)
    ensures InBounds(SlotShape(l), [r] + idx)
    ensures r < tv.shape[0] ==>
      InBounds(tv.shape, [r] + idx) &&
      SlotValue(l, Some(tv))[Offset(SlotShape(l), [r] + idx)] == tv.ArrayAt([r] + idx)
    ensures tv.shape[0] <= r ==> SlotValue(l, Some(tv))[Offset(SlotShape(l), [r] + idx)] == 0.0
  {
    var inner := l.inner;
    var p := Product(inner);
    var o := Offset(inner, idx);
    OffsetOfRow(MAX_NUM_INSTANCES, inner, r, idx);
    var s := SlotValue(l, Some(tv));
    assert s == tv.elems + Fill(SlotSize(l) - |tv.elems|, 0.0);
    assert tv.shape == [tv.shape[0]] + inner;
    assert |tv.elems| == tv.shape[0] * p;
    if r < tv.shape[0] {
      OffsetOfRow(tv.shape[0], inner, r, idx);
    } else {
      MulMonotone(tv.shape[0], r, p);
    }
  }

  /**
   * Rows 0..n-1 of entry i of an array key hold sample i's n instances: element
   * [i, r, ...idx] of the output is element [r, ...idx] of the sample's array.
   */
  lemma {:induction false} PaddedRowCopied(batch: seq<Sample>, k: Key, l: Layout, t: Tensor<real>,
                                           i: nat, tv: AnnValue, r: nat, idx: seq<nat>)
    requires FieldCollated(batch, k, l, t) && i < |batch|
    requires Lookup(batch[i].ann, k) == Some(tv) && tv.IsArrayWrite()
    requires r < tv.shape[0] && InBounds(tv.shape[1..], idx)
    ensures l == Padded(tv.shape[1..]) && tv.shape[0] <= MAX_NUM_INSTANCES
    ensures t.Valid() && InBounds(t.shape, [i, r] + idx)
    ensures tv.WellFormed() && InBounds(tv.shape, [r] + idx)
    ensures t.At([i, r] + idx) == tv.ArrayAt([r] + idx)
  {
    FieldTensorValid(batch, k, l, t);
    assert ValueFits(l, Some(tv));
    PaddedSlotAt(l, tv, r, idx);
    assert [i, r] + idx == [i] + ([r] + idx);
    assert ([i] + ([r] + idx))[1..] == [r] + idx;
    assert t.slots[i] == SlotValue(l, Some(tv));
  }

  /** Rows n..MAX_NUM_INSTANCES-1 of entry i of an array key stay zero. */
  lemma {:induction false} PaddingStaysZero(batch: seq<Sample>, k: Key, l: Layout, t: Tensor<real>,
                                            i: nat, tv: AnnValue, r: nat, idx: seq<nat>)
    requires FieldCollated(batch, k, l, t) && i < |batch|
    requires Lookup(batch[i].ann, k) == Some(tv) && tv.IsArrayWrite()
    requires tv.shape[0] <= r < MAX_NUM_INSTANCES && InBounds(tv.shape[1..], idx)
    ensures t.Valid() && InBounds(t.shape, [i, r] + idx)
    ensures t.At([i, r] + idx) == 0.0
  {
    FieldTensorValid(batch, k, l, t);
    assert ValueFits(l, Some(tv));
    PaddedSlotAt(l, tv, r, idx);
    assert [i, r] + idx == [i] + ([r] + idx);
    assert ([i] + ([r] + idx))[1..] == [r] + idx;
    assert t.slots[i] == SlotValue(l, Some(tv));
  }

  /** A key that sample i lacks leaves entry i of its tensor all zero. */
  lemma {:induction false} MissingKeyLeavesZero(batch: seq<Sample>, k: Key, l: Layout, t: Tensor<real>,
                                                i: nat, idx: seq<nat>)
    requires FieldCollated(batch, k, l, t) && i < |batch|
    requires Lookup(batch[i].ann, k) == None && InBounds(SlotShape(l), idx)
    ensures t.Valid() && InBounds(t.shape, [i] + idx)
    ensures t.At([i] + idx) == 0.0
  {
    FieldTensorValid(batch, k, l, t);
    assert ([i] + idx)[1..] == idx;
  }

  /**
   * A key whose sample-0 value v0 is not an array gets one entry per sample:
   * float32 for a float, int64 otherwise. In a collated batch sample i's value
   * is then a number, and entry i is that number converted to the element type
   * (a float stored as int64 is truncated toward zero).
   */
  lemma {:induction false} ScalarEntry(batch: seq<Sample>, k: Key, v0: AnnValue, t: Tensor<real>, i: nat, tv: AnnValue)
    requires FieldCollated(batch, k, FieldLayout(v0), t) && !v0.NdArray?
    requires i < |batch| && Lookup(batch[i].ann, k) == Some(tv)
    ensures t.shape == [|batch|] && t.dtype == (if v0.PyFloat? then Float32 else Int64)
    ensures t.Valid() && InBounds(t.shape, [i]) && tv.IsNumber()
    ensures v0.PyFloat? && tv.PyFloat? ==> t.At([i]) == tv.f
    ensures tv.PyInt? ==> t.At([i]) == tv.n as real
    ensures !v0.PyFloat? && tv.PyFloat? ==> t.At([i]) == TruncateToInt(tv.f) as real
  {
    var l := FieldLayout(v0);
    FieldTensorValid(batch, k, l, t);
    assert ValueFits(l, Some(tv));
    assert t.At([i]) == Cast(DTypeOf(l), tv.ScalarValue()) by {
      assert t.slots[i] == Fill(1, Cast(DTypeOf(l), tv.ScalarValue()));
      assert [i][1..] == [];
    }
    if tv.PyInt? {
      CastIntegral(DTypeOf(l), tv.n);
    }
  }

  /** Storing an integer loses nothing, whatever the element type. */
  lemma CastIntegral(d: DType, n: int)
    ensures Cast(d, n as real) == n as real
  {
    if n < 0 {
      assert (-(n as real)).Floor == -n;
    }
  }

  /** `Collates` pins the batch down: two batches that both collate `batch` are equal. */
  lemma CollatesIsDeterministic(batch: seq<Sample>, out1: Batch, out2: Batch)
    requires Collates(batch, out1) && Collates(batch, out2)
    ensures out1 == out2
  {
    assert out1.images.slots == out2.images.slots;
    assert out1.target.Keys == out2.target.Keys;
    forall k | k in out1.target
      ensures out1.target[k] == out2.target[k]
    {
      var l := FieldLayout(Lookup(batch[0].ann, k).value);
      assert FieldCollated(batch, k, l, out1.target[k]) && FieldCollated(batch, k, l, out2.target[k]);
      assert out1.target[k].slots == out2.target[k].slots;
    }
  }

  // ---------------------------------------------------------------------------
  // When `fast_collate` raises

  /** A sample's items are all written exactly when none of them raises. */
  lemma {:induction false} ItemsAccepted(ann0: Annotations, i: nat, items: Annotations)
    ensures FirstItemError(ann0, i, items).None? <==>
              forall p :: 0 <= p < |items| ==> ItemError(ann0, i, items[p].0, items[p].1).None?
  {
    if items != [] {
      ItemsAccepted(ann0, i, items[1..]);
      assert forall p :: 1 <= p < |items| ==> items[1..][p - 1] == items[p];
    }
  }

  /** Samples j.. are all copied exactly when none of them raises. */
  lemma {:induction false} SamplesAccepted(batch: seq<Sample>, j: nat)
    requires 0 < |batch| && j <= |batch|
    ensures ErrorFrom(batch, j).None? <==> forall i :: j <= i < |batch| ==> SampleError(batch, i).None?
    decreases |batch| - j
  {
    if j < |batch| {
      SamplesAccepted(batch, j + 1);
    }
  }

  /**
   * `fast_collate` returns exactly when the batch is non-empty, every image has
   * sample 0's shape and every item of every sample can be written.
   */
  lemma Accepted(batch: seq<Sample>)
    ensures FirstError(batch).None? <==>
      && |batch| > 0
      && (forall i :: 0 <= i < |batch| ==> batch[i].image.shape == batch[0].image.shape)
      && (forall i, p :: 0 <= i < |batch| && 0 <= p < |batch[i].ann| ==>
            ItemError(batch[0].ann, i, batch[i].ann[p].0, batch[i].ann[p].1).None?)
  {
    if |batch| > 0 {
      SamplesAccepted(batch, 0);
      forall i | 0 <= i < |batch|
        ensures SampleError(batch, i).None? <==>
          batch[i].image.shape == batch[0].image.shape &&
          forall p :: 0 <= p < |batch[i].ann| ==> ItemError(batch[0].ann, i, batch[i].ann[p].0, batch[i].ann[p].1).None?
      {
        ItemsAccepted(batch[0].ann, i, batch[i].ann);
      }
    }
  }

  /**
   * An array with more than MAX_NUM_INSTANCES instances is not truncated: the
   * whole call raises.
   */
  lemma OverlongArrayRejected(batch: seq<Sample>, i: nat, p: nat)
    requires i < |batch| && p < |batch[i].ann|
    requires batch[i].ann[p].1.IsArrayWrite() && batch[i].ann[p].1.shape[0] > MAX_NUM_INSTANCES
    ensures FirstError(batch).Some?
  {
    Accepted(batch);
    assert ItemError(batch[0].ann, i, batch[i].ann[p].0, batch[i].ann[p].1).Some?;
  }

  /**
   * A value that is neither an array with a dimension nor a Python number (a
   * 0-d array, a string, None, a list, ...) makes the call raise: the element
   * write refuses it.
   */
  lemma NonNumberRejected(batch: seq<Sample>, i: nat, p: nat)
    requires i < |batch| && p < |batch[i].ann|
    requires !batch[i].ann[p].1.IsArrayWrite() && !batch[i].ann[p].1.IsNumber()
    ensures FirstError(batch).Some?
  {
    Accepted(batch);
    assert ItemError(batch[0].ann, i, batch[i].ann[p].0, batch[i].ann[p].1).Some?;
  }

  /** Sample 1 gives a 0-d array where sample 0 gave a float: the write of sample 1 raises TypeError. */
  lemma ZeroDimArrayRaises(img: Image)
    ensures FirstError([Sample(img, [("k", PyFloat(1.0))]), Sample(img, [("k", NdArray([], [2.5]))])])
            == Some(NotAssignable(1, "k"))
  {
    var batch := [Sample(img, [("k", PyFloat(1.0))]), Sample(img, [("k", NdArray([], [2.5]))])];
    var ann0 := batch[0].ann;
    assert Lookup(ann0, "k") == Some(PyFloat(1.0));
    assert ItemError(ann0, 0, "k", PyFloat(1.0)) == None;
    assert FirstItemError(ann0, 0, ann0[1..]) == None;
    assert SampleError(batch, 0) == None;
    assert ItemError(ann0, 1, "k", NdArray([], [2.5])) == Some(NotAssignable(1, "k"));
    assert SampleError(batch, 1) == Some(NotAssignable(1, "k"));
    assert ErrorFrom(batch, 1) == Some(NotAssignable(1, "k"));
  }

  /** A key that sample 0 lacks raises (KeyError) when a later sample has it. */
  lemma UnseenKeyRejected(batch: seq<Sample>, i: nat, p: nat)
    requires i < |batch| && p < |batch[i].ann|
    requires Lookup(batch[0].ann, batch[i].ann[p].0).None?
    ensures FirstError(batch).Some?
  {
    Accepted(batch);
    assert ItemError(batch[0].ann, i, batch[i].ann[p].0, batch[i].ann[p].1).Some?;
  }
}
