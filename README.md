# Dropout layer (Caffe, CPU path)

This project models Caffe's `DropoutLayer` as it runs on the CPU. The layer has three steps:

- **Setup.** `LayerSetUp` stores the drop ratio as `threshold_`. It also stores the keep-scale `scale_ = 1/(1 - threshold_)` and the `scale_train_` flag. `Reshape` gives the mask buffer `rand_vec_` one slot per element of the bottom blob.
- **Forward.** In the training phase, forward fills the mask with independent 0/1 draws. It then writes `top[i] = bottom[i] * mask[i] * scale` when `scale_train` is set, and `top[i] = bottom[i] * mask[i]` otherwise. In the testing phase it copies the bottom blob to the top blob. When `scale_train` is not set, it then multiplies every element by `1/scale`.
- **Backward.** When `propagate_down[0]` is false, backward does nothing. In training it uses the mask the last forward pass stored and writes `bottomDiff[i] = topDiff[i] * mask[i] * scale` (or `* mask[i]`). In testing it copies the gradient, scaled by `1/scale` when `scale_train` is not set.

Everything is in one Dafny module, `Dropout` (`dropout.dfy`):

- **The layer.** A class `DropoutLayer` holds the fields `threshold`, `scale` and `scaleTrain`, plus the mask buffer `mask: array<int>`. Its methods are `SetUp`, `Reshape`, `Forward` and `Backward`. As in the source, `Forward` and `Backward` branch on `scaleTrain` first, and each branch has its own `while` loop with its invariants. The mask fill that stands for `caffe_rng_bernoulli` is a loop too, and so are `Copy` and `Scal`.
- **The copy and scale helpers.** `Copy` and `Scal` model `caffe_copy` and `caffe_scal` by their element-wise effect.
- **The specification.** Pure functions describe the whole-buffer transforms: `TrainOutput` for training and `TestOutput` for testing. `Forward` and `Backward` are proved equal to these functions. The lemmas then state what the source promises about them.

Elements are `real`. The random draw is a parameter of `Forward`, a sequence whose entries are all 0 or 1, and the loop copies it into the mask. The phase (`phase_`) is a `train` parameter, as is the `propagate_down[0]` flag.

Input and output may be the same array: `Forward(b, b, …)` and `Backward(d, d, …)` model Caffe's in-place dropout. `caffe_copy` does nothing when source and destination coincide, and each loop reads element `i` before it writes element `i`.

`Dot` is the inner product of two buffers. The adjoint lemmas use it: for a fixed mask, forward is a diagonal linear map, so backward computes its transpose. That transpose is the map itself, applied to the gradient.

The client method `ForwardThenBackward` runs a training forward pass and then the backward pass. It shows that the two use the same stored mask, so the adjoint law holds for them. `Scenarios` works through two examples with a drop ratio of one half:
- with `scale_train` on, the input `[1,2,3,4]` and the mask `[1,0,1,0]`, forward gives `[2,0,6,0]`, and backward of `[1,1,1,1]` gives `[2,0,2,0]`;
- with `scale_train` off, testing forward of `[1,2,3,4]` gives `[0.5,1,1.5,2]`.

## Model

| member | source | states |
|---|---|---|
| `Dropout.KeepScale` | caffe/src/caffe/layers/dropout_layer.cpp:14-17 | for a drop ratio strictly between 0 and 1, the keep-scale is greater than 1, `scale * (1 - threshold) == 1`, and `1/scale == 1 - threshold` |
| `Dropout.DropoutLayer.SetUp` | caffe/src/caffe/layers/dropout_layer.cpp:11-20 | requires `0 < ratio < 1` (the two `DCHECK`s); stores `threshold == ratio`, `scale == 1/(1 - ratio)` and the `scale_train` flag; establishes `Valid()`, hence `scale > 1` and `scale * (1 - threshold) == 1`; the mask buffer is untouched |
| `Dropout.DropoutLayer.Reshape` | caffe/src/caffe/layers/dropout_layer.cpp:23-29 | afterwards the mask buffer has exactly `count` slots; a buffer that already had that size is kept with its contents, otherwise a fresh one is allocated |
| `Dropout.DropoutLayer.Forward` | caffe/src/caffe/layers/dropout_layer.cpp:32-58 | training: the mask becomes the 0/1 draw and `top` is `TrainOutput(old bottom, draw)`; testing: the mask keeps its old contents and `top` is `TestOutput(old bottom)`; `bottom` is unchanged unless it is `top`; only `top` and the mask buffer may change, never the fields |
| `Dropout.DropoutLayer.Backward` | caffe/src/caffe/layers/dropout_layer.cpp:61-86 | the mask is never written; with `propagate` false, `bottomDiff` keeps its old contents; training: `bottomDiff` is `TrainOutput(old topDiff, mask)`, the same transform forward applied with the stored mask; testing: `bottomDiff` is `TestOutput(old topDiff)`; `topDiff` is unchanged unless it is `bottomDiff`; only `bottomDiff` may change |
| `Dropout.Copy` | caffe/src/caffe/layers/dropout_layer.cpp:53 | `dst` ends holding the old contents of `src`, also when the two are the same array; `src` is unchanged |
| `Dropout.Scal` | caffe/src/caffe/layers/dropout_layer.cpp:55 | every element of `x` ends as its old value times `alpha` |
| `Dropout.TrainOutput` | caffe/src/caffe/layers/dropout_layer.cpp:43-51 | the training transform keeps the buffer's length; an element whose mask is 0 comes out as 0; one whose mask is 1 comes out as `x[i] * scale` when `scale_train` is set, and as `x[i]` otherwise |
| `Dropout.TestOutput` | caffe/src/caffe/layers/dropout_layer.cpp:53-56 | the testing transform keeps the buffer's length and is the identity when `scale_train` is set |
| `Dropout.TestOutputValue` | caffe/src/caffe/layers/dropout_layer.cpp:52-57 | with the keep-scale of a valid drop ratio and `scale_train` not set, testing multiplies every element by `1 - threshold` |
| `Dropout.ScaleAppliedOnce` | caffe/src/caffe/layers/dropout_layer.cpp:43-56 | in both modes, the training multiplier of a kept element is `scale` times the testing multiplier, so the compensation is applied exactly once: at training or at testing |
| `Dropout.ExpectedTrainIsTest` | caffe/src/caffe/layers/dropout_layer.cpp:42-57 | a training element averaged over a draw that keeps it with probability `1 - threshold` equals the testing element, in both modes |
| `Dropout.TrainAdjoint` | caffe/src/caffe/layers/dropout_layer.cpp:67-78 | for one mask, the training transform is its own adjoint: `<TrainOutput(x), g> == <x, TrainOutput(g)>` for all buffers `x` and `g` |
| `Dropout.TestAdjoint` | caffe/src/caffe/layers/dropout_layer.cpp:79-84 | the testing transform is its own adjoint: `<TestOutput(x), g> == <x, TestOutput(g)>` |
| `Dropout.TrainGradientIsRatio` | caffe/src/caffe/layers/dropout_layer.cpp:67-78 | if `top` and `bottomDiff` come from the training transform with the same mask, then `bottomDiff[i] == topDiff[i] * (top[i] / bottom[i])` wherever `bottom[i] != 0` |
| `Dropout.ForwardThenBackward` | caffe/src/caffe/layers/dropout_layer.cpp:38-78 | a training forward pass followed by its backward pass: the mask is the draw, `top` and `bottomDiff` are the training transform of `bottom` and `topDiff` under that one mask, and `<top, topDiff> == <bottom, bottomDiff>` |

## Left out

- The random generator. `caffe_rng_bernoulli` (line 42) draws from the global Caffe generator. Here the draw is a caller-supplied sequence of 0s and 1s. The statistical claims cannot be proved about a fixed draw: the drop fraction tends to the threshold, and the expected output is unbiased. `KeepScale` and `ExpectedTrainIsTest` state the deterministic fact behind unbiasedness: `scale * (1 - threshold) == 1`.
- `uint_thres_` (line 18). Only the GPU path uses it, and it is a float-to-unsigned truncation.
- Floating-point rounding of `Dtype` (float or double). Elements and constants are exact reals.
- The threshold range check. `LayerSetUp` only `DCHECK`s the range (lines 15-16), and the check is compiled out of release builds. The code has no error path for an out-of-range ratio, so the model makes the range a precondition of `SetUp`.
- Calling order. `Forward` and `Backward` require `Valid()`: Caffe's layer framework always runs `LayerSetUp` before either one. Beyond that, they require only equal buffer sizes, and a mask of the input's size in training. The framework's `Reshape` guarantees both.
- Blob plumbing. This covers `NeuronLayer::LayerSetUp` and `NeuronLayer::Reshape`, `Blob` allocation, and the `cpu_data`/`mutable_cpu_data`/`cpu_diff` accessors. Blobs are plain arrays of matching length. `Blob::Reshape` keeps its memory when the element count shrinks. `Reshape` instead allocates a fresh array whenever the count changes, because a Dafny array's length is fixed. In both cases the old contents are not relied upon.
- Parameter reading. `dropout_param()` reads the drop ratio and `scale_train` from protobuf; here they are arguments of `SetUp`.
- Registration. The macros on lines 89-94 (`STUB_GPU`, `INSTANTIATE_CLASS`, `REGISTER_LAYER_CLASS`) and the GPU implementation are not modelled.
- The flags. `propagate_down` is a vector, and only its first entry is read, so the model takes a single `propagate` flag. The phase `phase_` is a layer field set by the framework; the model takes it as the `train` argument of each call.
- `caffe_copy` and `caffe_scal`. Their BLAS internals are not modelled; `Copy` and `Scal` are element-wise loops with the same effect.
