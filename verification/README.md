# Padding collation and one-batch prefetching, modelled in Dafny

This project models the batching core of an object-detection data loader
(`data/loader.py`):

- `fast_collate` stacks a list of samples into one batch. Each sample is an
  image (a uint8 array) and an annotation dict. The output is one uint8 image
  tensor `[batch_size, *image_shape]` and one tensor per annotation key.
  - A key whose sample-0 value is a numpy array gets a float32 tensor
    `[batch_size, MAX_NUM_INSTANCES, *shape[1:]]`. Each sample's rows are
    written at the top of its entry and the rest stays zero.
  - A key whose sample-0 value is a Python number gets a tensor
    `[batch_size]`: float32 for a float, int64 otherwise.
  - The layout of every key is decided by sample 0 alone.
- `PrefetchLoader` wraps a batch loader. It transfers each batch as soon as
  it is taken and hands it on one step later, so one batch is always in
  flight. `__len__` and `sampler` forward to the wrapped loader.

Files:

- `wrappers.dfy`: `Option` and `Result`.
- `tensors.dfy`: shapes, the element types used (uint8, float32, int64),
  row-major offsets, and batch tensors kept as one flat slot per batch entry.
- `collate.dfy`: `fast_collate`. The tensors are allocated zero-filled as
  arrays (one `array<seq<...>>` per tensor, one element per sample) and
  filled in place, sample by sample, as the code does.
  - A dict is its items in insertion order. An annotation value is a Python
    float, a Python int or bool (or numpy integer), a numpy array, or some
    other value (a string, None, a list, a tuple). For these values, with
    every number within the range of the element type it is stored into,
    every exception the code can raise is an `Err` of `CollateError`, in the
    order the code reaches it.
  - An element write `target[k][i] = v` accepts only a Python number. A 0-d
    array, a string, None, a list or a tuple makes it raise `TypeError`
    (`NotAssignable`). A 0-d array counts here: it has no dimension, so it is
    written element-wise rather than row by row.
  - `Collates(batch, out)` says what a returned batch holds.
  - The lemmas read it element by element, in tensor indices.
- `prefetch.dfy`: `PrefetchLoader`.
  - The transfer to the device and the normalisation form one function `T`,
    passed to the iteration.
  - A pass is recorded as its events, `Take(j)` or `Yield(d)`, together with
    how it ends.
  - The wrapped loader may raise while fetching the batch after its last one,
    as it does when its collate function raises. The pass then ends with that
    exception, and the batch still pending is never yielded.

An array of more than `MAX_NUM_INSTANCES` rows raises. The slice `[i, 0:n]`
has only 100 rows while the array has n, so the assignment is a shape error,
and the model returns `ShapeMismatch`.

## Model

| member | source | states |
|---|---|---|
| Collate.FastCollate | data/loader.py:12-37 | for numbers within the range of their element type, `fast_collate` raises exactly the first exception the code reaches (`FirstError`); otherwise it returns a batch that `Collates` the samples |
| Collate.Accepted | data/loader.py:12-37 | the call returns iff the batch is non-empty, every image has sample 0's shape, and every item of every sample can be written: its key is a key of sample 0, and it is either an array whose rows fit that key's padded entry or a Python number |
| Collate.FieldLayout | data/loader.py:17-25 | the layout of a key follows from its sample-0 value: an array (a 0-d one included) gives `[MAX_NUM_INSTANCES] + shape[1:]` per entry, float32; a float gives a float32 scalar; anything else (int, bool, string, None, list, ...) gives an int64 scalar |
| Collate.FieldOfKey | data/loader.py:16-26 | every output key is a key of sample 0; its tensor is `[n, MAX_NUM_INSTANCES, *v0.shape[1:]]` float32, `[n]` float32 or `[n]` int64, as sample 0's value decides, and it holds that key of every sample |
| Collate.AllocateTargets | data/loader.py:16-26 | one fresh, zero-filled, unaliased tensor per key of sample 0, laid out by `FieldLayout`, with one entry per sample |
| Collate.WriteItem | data/loader.py:32-35 | writing one item changes entry i only: an array fills its rows and keeps the zero padding; a Python number fills the entry, converted to the element type |
| Collate.CopyItem | data/loader.py:31-35 | writing one item that raises nothing makes entry i of every key hold the items written so far, and leaves all other entries as they were |
| Collate.CopyAnnotations | data/loader.py:31-35 | the item loop of sample i raises its first failing item's exception; otherwise entry i of each key holds sample i's value, or zeros if sample i lacks the key; other entries are unchanged |
| Collate.CopySample | data/loader.py:29-35 | copying sample i raises on a different image shape, then on the first failing item; otherwise it extends the copied prefix by entry i and keeps the rest zero |
| Collate.CopySamples | data/loader.py:29-36 | the sample loop raises the first exception over samples 0, 1, ...; otherwise every entry of every tensor holds its sample |
| Collate.Assemble | data/loader.py:37 | the returned pair read off the filled buffers satisfies `Collates` |
| Collate.AddToZeroIsCopy | data/loader.py:28-30 | adding an image onto a zero-filled uint8 entry (addition mod 256) yields the image itself |
| Collate.ImageSlotCopied | data/loader.py:28-30 | the image tensor is uint8 of shape `[n] + shape of image 0`, and element `[i, ...idx]` is element `idx` of image i |
| Collate.PaddedRowCopied | data/loader.py:32-33 | for an array value with n rows, element `[i, r, ...idx]` equals the array's element `[r, ...idx]` for every r < n; the layout has the array's inner shape and n ≤ MAX_NUM_INSTANCES |
| Collate.PaddingStaysZero | data/loader.py:26-33 | rows n..MAX_NUM_INSTANCES-1 of entry i stay zero |
| Collate.MissingKeyLeavesZero | data/loader.py:26-31 | a key that sample i lacks leaves entry i of its tensor all zero |
| Collate.ScalarEntry | data/loader.py:23-35 | a key whose sample-0 value is no array has tensor `[n]`, float32 iff that value is a float; in a collated batch sample i's value is a Python number, and entry i is that number, a float stored as int64 being truncated toward zero |
| Collate.TruncateToInt | data/loader.py:35 | truncation toward zero: the result lies within 1 of x, on the side of zero |
| Collate.CastIntegral | data/loader.py:35 | storing an integer loses nothing, whatever the element type |
| Collate.OverlongArrayRejected | data/loader.py:32-33 | an array with more than MAX_NUM_INSTANCES rows makes the call raise; it is never truncated |
| Collate.NonNumberRejected | data/loader.py:34-35 | a value that is neither an array with a dimension nor a Python number (a 0-d array, a string, None, a list) makes the call raise |
| Collate.ZeroDimArrayRaises | data/loader.py:34-35 | concretely: a float for key k in sample 0 and a 0-d array for k in sample 1 make the call raise `NotAssignable` at sample 1 |
| Collate.UnseenKeyRejected | data/loader.py:16-33 | a key absent from sample 0 makes the call raise when a later sample has it |
| Collate.ItemsAccepted | data/loader.py:31-35 | a sample's items raise nothing iff no single item raises |
| Collate.SamplesAccepted | data/loader.py:29-35 | the samples from j on raise nothing iff no single sample raises |
| Collate.CollatesIsDeterministic | data/loader.py:12-37 | `Collates` determines the batch: two batches that both collate the samples are equal |
| Collate.FieldTensorValid | data/loader.py:26 | a collated key tensor is well formed: one entry per sample, each of the slot shape |
| Prefetch.PrefetchLoader.constructor | data/loader.py:42-47 | the prefetcher wraps the given loader |
| Prefetch.PrefetchLoader.Iterate | data/loader.py:51-70 | as written: all k batches are taken in order, and each item is yielded only after the next batch, or every batch, has been taken. If the wrapped loader raises after its k batches, the pass ends with that exception having yielded `T(source[0..k-1])`, the pending last batch dropped. Otherwise, with k > 0 the items yielded are `T(source[0]), ..., T(source[k-1])` and the pass ends normally; with k = 0 nothing happens and the final yield raises (unbound `input`) |
| Prefetch.PrefetchLoader.IterateGuarded | data/loader.py:51-70 | corrected: the same take order and lookahead; when the wrapped loader raises, the same items as `Iterate` are yielded; otherwise, for every k, including 0, exactly `T(source[0..k])` is yielded and the pass ends normally |
| Prefetch.EmptyLoaderCounterexample | data/loader.py:55-70 | on an empty loader that does not raise, the code as written raises at the final yield; the corrected iteration ends normally; neither yields anything |
| Prefetch.OrderingsAt | data/loader.py:61-68 | read at any point of a pass: a take takes the batch after those already taken, and when item m is yielded, min(m+2, k) batches have been taken |
| Prefetch.TakeNext | data/loader.py:55-59 | taking the next batch keeps both orderings |
| Prefetch.YieldNext | data/loader.py:61-70 | yielding with the required lookahead keeps both orderings and appends the item |
| Prefetch.PrefetchLoader.Len | data/loader.py:72-73 | `__len__` is the wrapped loader's length, whatever its batches |
| Prefetch.PrefetchLoader.Sampler | data/loader.py:75-77 | `sampler` is the wrapped loader's sampler, unchanged |

## Left out

- CUDA streams, `non_blocking` copies and `wait_stream`. These overlap work with the device, which is concurrency. The model keeps only the order of takes and yields.
- The normalisation `(x.float() - mean*255) / std*255` and the `view(1, 3, 1, 1)` broadcast. This is floating-point arithmetic on the device, folded into the transfer function `T`.
- Prefetch.PrefetchLoader.constructor does not keep `mean` and `std`, because they belong to `T`. The unused `fp16` flag is left out too.
- `create_loader`. It wires a `torch.utils.data.DataLoader` to transforms from `data/transforms`, and `data/transforms` is not part of this model. Its training path stops at `assert False` before building anything.
- Collate.FastCollate does not model annotation values that are torch tensors, complex numbers, or numpy scalars other than integers and float64, because whether `target[k][i] = v` accepts them depends on torch conversion rules not captured here. Nor does it model overflow: a Python int outside the signed 64-bit range, or a float the element type cannot hold (1e20 into an int64 key, 1e300 into a float32 key), makes that write raise `RuntimeError` in the code, where the model returns `Ok` with the exact number.
- The wrapped loader is given as a value: its batches, reported length and sampler. How a `DataLoader` produces them (workers, sampling, shuffling) is not modelled.
- Broadcasting beyond the cases that appear: exact shapes, and a scalar written into a padded entry, which fills the entry. An image or array of a different shape raises in the model even where torch would broadcast it, for example a shape with a leading 1.
- Float32 rounding is not modelled: elements are reals. The ranges of int64 and float32 are not modelled either: numbers are unbounded, so the overflow errors of the write (see the Collate.FastCollate line above) are missing.
- numpy dtypes of annotation arrays and images: arrays are reals and images are bytes. Python bool values are treated as int, as `isinstance(v, float)` treats them.
- Which exception the wrapped loader raises is not carried: the pass only records that it ended with one.
- Collate.FastCollate requires distinct keys in each sample's dict, as every Python dict has, and arrays that hold as many elements as their shape says.

## Findings

| source | as written | input that shows it | evidently intended | confidence | as-written member | corrected member |
|---|---|---|---|---|---|---|
| data/loader.py:53-70 | the final `yield input, target` runs after the loop even when the loop never ran, so `input` and `target` are unbound | a wrapped loader with no batches: `UnboundLocalError` at the final yield | an empty loader yields nothing and the pass ends normally | not executed | Prefetch.PrefetchLoader.Iterate | Prefetch.PrefetchLoader.IterateGuarded |
