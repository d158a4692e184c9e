/** A model of Caffe's dropout layer on the CPU.

    While training, the layer multiplies every input element by a 0/1 mask
    drawn afresh on each forward pass, and (in "scale_train" mode) by the
    keep-scale 1/(1 - threshold).  While testing it passes the input through,
    compensating by 1/scale when the scale was not applied during training.
    Backward reuses the mask stored by the last forward pass.

    Elements are `real`; the random draw is an argument of Forward. */
module Dropout {

  /** The keep-scale set up for a drop ratio: 1/(1 - threshold). */
  function KeepScale(threshold: real): (s: real)
    requires 0.0 < threshold < 1.0
    ensures s > 1.0
    ensures s * (1.0 - threshold) == 1.0
    ensures 1.0 / s == 1.0 - threshold
  {
    1.0 / (1.0 - threshold)
  }

  /** A draw of the Bernoulli generator: every entry is 0 or 1. */
  predicate IsMask(m: seq<int>)
  {
    forall i :: 0 <= i < |m| ==> m[i] == 0 || m[i] == 1
  }

  /** The per-element multiplier training applies to an element whose mask
      is m: mask * scale, or mask alone. */
  function TrainGain(m: int, scale: real, scaleTrain: bool): real
  {
    if scaleTrain then (m as real) * scale else m as real
  }

  /** The multiplier testing applies to every element: 1, or 1/scale. */
  function TestGain(scale: real, scaleTrain: bool): real
    requires scale != 0.0
  {
    if scaleTrain then 1.0 else 1.0 / scale
  }

  /** One output element in training. */
  function TrainElem(x: real, m: int, scale: real, scaleTrain: bool): real
  {
    x * TrainGain(m, scale, scaleTrain)
  }

  /** One output element in testing. */
  function TestElem(x: real, scale: real, scaleTrain: bool): real
    requires scale != 0.0
  {
    x * TestGain(scale, scaleTrain)
  }

  /** The training transform over a whole buffer (forward on data, backward
      on diffs): an element whose mask is 0 is dropped, one whose mask is 1
      is kept and multiplied by scale (scale_train) or by 1. */
  function TrainOutput(x: seq<real>, m: seq<int>, scale: real, scaleTrain: bool): (r: seq<real>)
    requires |m| == |x|
    ensures |r| == |x|
    ensures forall i :: 0 <= i < |x| && m[i] == 0 ==> r[i] == 0.0
    ensures forall i :: 0 <= i < |x| && m[i] == 1 ==> r[i] == (if scaleTrain then x[i] * scale else x[i])
  {
    seq(|x|, i requires 0 <= i < |x| => TrainElem(x[i], m[i], scale, scaleTrain))
  }

  /** The testing transform over a whole buffer (forward on data, backward
      on diffs): the identity in scale_train mode. */
  function TestOutput(x: seq<real>, scale: real, scaleTrain: bool): (r: seq<real>)
    requires scale != 0.0
    ensures |r| == |x|
    ensures scaleTrain ==> r == x
  {
    seq(|x|, i requires 0 <= i < |x| => TestElem(x[i], scale, scaleTrain))
  }

  /** The inner product that relates a forward pass to its backward pass. */
  function Dot(a: seq<real>, b: seq<real>): real
    requires |a| == |b|
  {
    if |a| == 0 then 0.0 else a[0] * b[0] + Dot(a[1..], b[1..])
  }

  /** Outside scale_train mode, testing multiplies every element by
      1 - threshold, the probability that training keeps it. */
  lemma TestOutputValue(x: seq<real>, threshold: real, scaleTrain: bool)
    requires 0.0 < threshold < 1.0
    ensures !scaleTrain ==> forall i :: 0 <= i < |x| ==>
      TestOutput(x, KeepScale(threshold), scaleTrain)[i] == x[i] * (1.0 - threshold)
  {
  }

  /** The scale is applied exactly once: a kept element's training multiplier
      is scale times the testing multiplier, in both modes. */
  lemma ScaleAppliedOnce(threshold: real, scaleTrain: bool)
    requires 0.0 < threshold < 1.0
    ensures TrainGain(1, KeepScale(threshold), scaleTrain)
         == KeepScale(threshold) * TestGain(KeepScale(threshold), scaleTrain)
  {
  }

  /** Averaging a training element over a draw that keeps it with probability
      1 - threshold gives the testing element, in both modes. */
  lemma ExpectedTrainIsTest(x: real, threshold: real, scaleTrain: bool)
    requires 0.0 < threshold < 1.0
    ensures (1.0 - threshold) * TrainElem(x, 1, KeepScale(threshold), scaleTrain)
          + threshold * TrainElem(x, 0, KeepScale(threshold), scaleTrain)
         == TestElem(x, KeepScale(threshold), scaleTrain)
  {
  }

  /** Dropping the first element of a training buffer commutes with the transform. */
  lemma TrainOutputTail(x: seq<real>, m: seq<int>, scale: real, scaleTrain: bool)
    requires |m| == |x| > 0
    ensures TrainOutput(x, m, scale, scaleTrain)[1..] == TrainOutput(x[1..], m[1..], scale, scaleTrain)
  {
  }

  /** Backward in training is the adjoint of forward in training: for every
      data buffer x and every upstream gradient g that share one mask,
      <forward(x), g> == <x, backward(g)>. */
  lemma {:induction false} TrainAdjoint(x: seq<real>, g: seq<real>, m: seq<int>, scale: real, scaleTrain: bool)
    requires |x| == |g| == |m|
    ensures Dot(TrainOutput(x, m, scale, scaleTrain), g) == Dot(x, TrainOutput(g, m, scale, scaleTrain))
  {
    if |x| > 0 {
      TrainOutputTail(x, m, scale, scaleTrain);
      TrainOutputTail(g, m, scale, scaleTrain);
      TrainAdjoint(x[1..], g[1..], m[1..], scale, scaleTrain);
      var w := TrainGain(m[0], scale, scaleTrain);
      assert (x[0] * w) * g[0] == x[0] * (g[0] * w);
    }
  }

  /** Backward in testing is the adjoint of forward in testing. */
  lemma {:induction false} TestAdjoint(x: seq<real>, g: seq<real>, scale: real, scaleTrain: bool)
    requires |x| == |g| && scale != 0.0
    ensures Dot(TestOutput(x, scale, scaleTrain), g) == Dot(x, TestOutput(g, scale, scaleTrain))
  {
    if |x| > 0 {
      assert TestOutput(x, scale, scaleTrain)[1..] == TestOutput(x[1..], scale, scaleTrain);
      assert TestOutput(g, scale, scaleTrain)[1..] == TestOutput(g[1..], scale, scaleTrain);
      TestAdjoint(x[1..], g[1..], scale, scaleTrain);
      var w := TestGain(scale, scaleTrain);
      assert (x[0] * w) * g[0] == x[0] * (g[0] * w);
    }
  }

  /** Where the input element is nonzero, the training gradient is the upstream
      gradient times the ratio forward produced, top[i] / bottom[i]. */
  lemma TrainGradientIsRatio(bottom: seq<real>, top: seq<real>, topDiff: seq<real>, bottomDiff: seq<real>,
                             m: seq<int>, scale: real, scaleTrain: bool)
    requires |bottom| == |topDiff| == |m|
    requires top == TrainOutput(bottom, m, scale, scaleTrain)
    requires bottomDiff == TrainOutput(topDiff, m, scale, scaleTrain)
    ensures forall i :: 0 <= i < |bottom| && bottom[i] != 0.0 ==> bottomDiff[i] == topDiff[i] * (top[i] / bottom[i])
  {
  }

  /** The layer's state: the configuration fixed by SetUp and the mask buffer
      (rand_vec) shared by a forward pass and the backward pass after it. */
  class DropoutLayer {
    var threshold: real
    var scale: real
    var scaleTrain: bool
    var mask: array<int>

    /** The configuration invariant that SetUp establishes. */
    ghost predicate Valid()
      reads this
    {
      0.0 < threshold < 1.0 && scale == KeepScale(threshold)
    }

    /** A layer before SetUp and Reshape: an empty mask buffer. */
    constructor ()
      ensures mask.Length == 0 && fresh(mask)
    {
      threshold, scale, scaleTrain := 0.0, 0.0, false;
      mask := new int[0];
    }

    /** LayerSetUp: stores the drop ratio, the keep-scale and the scale mode. */
    method SetUp(dropoutRatio: real, scaleTrainParam: bool)
      requires 0.0 < dropoutRatio < 1.0
      modifies this
      ensures Valid()
      ensures threshold == dropoutRatio && scaleTrain == scaleTrainParam
      ensures scale == 1.0 / (1.0 - dropoutRatio)
      ensures scale > 1.0 && scale * (1.0 - threshold) == 1.0
      ensures mask == old(mask)
    {
      threshold := dropoutRatio;
      scale := 1.0 / (1.0 - threshold);
      scaleTrain := scaleTrainParam;
    }

    /** Reshape: the mask buffer gets exactly one slot per bottom element.
        A buffer that already has that size is kept as it is. */
    method Reshape(count: nat)
      modifies this`mask
      ensures mask.Length == count
      ensures old(mask.Length) == count ==> mask == old(mask) && mask[..] == old(mask[..])
      ensures old(mask.Length) != count ==> fresh(mask)
    {
      if mask.Length != count {
        mask := new int[count];
      }
    }

    /** Forward_cpu.  In training, `draw` stands for the Bernoulli draw that
        fills the mask; it is ignored in testing.  `top` may be `bottom`. */
    method Forward(bottom: array<real>, top: array<real>, train: bool, draw: seq<int>)
      requires Valid()
      requires bottom.Length == top.Length
      requires train ==> mask.Length == bottom.Length && |draw| == bottom.Length && IsMask(draw)
      modifies top, mask
      ensures train ==> mask[..] == draw
      ensures !train ==> mask[..] == old(mask[..])
      ensures train ==> top[..] == TrainOutput(old(bottom[..]), draw, scale, scaleTrain)
      ensures !train ==> top[..] == TestOutput(old(bottom[..]), scale, scaleTrain)
      ensures bottom != top ==> bottom[..] == old(bottom[..])
    {
      ghost var input := bottom[..];
      var count := bottom.Length;
      if train {
        // caffe_rng_bernoulli: the mask receives the draw
        var j := 0;
        while j < count
          invariant 0 <= j <= count
          invariant mask[..j] == draw[..j]
          invariant bottom[..] == input
        {
          mask[j] := draw[j];
          j := j + 1;
        }
        assert mask[..] == draw;
        var i := 0;
        if scaleTrain {
          while i < count
            invariant 0 <= i <= count
            invariant mask[..] == draw
            invariant forall k :: 0 <= k < i ==> top[k] == TrainElem(input[k], draw[k], scale, scaleTrain)
            invariant forall k :: i <= k < count ==> bottom[k] == input[k]
            invariant bottom != top ==> bottom[..] == input
          {
            top[i] := bottom[i] * (mask[i] as real) * scale;
            i := i + 1;
          }
        } else {
          while i < count
            invariant 0 <= i <= count
            invariant mask[..] == draw
            invariant forall k :: 0 <= k < i ==> top[k] == TrainElem(input[k], draw[k], scale, scaleTrain)
            invariant forall k :: i <= k < count ==> bottom[k] == input[k]
            invariant bottom != top ==> bottom[..] == input
          {
            top[i] := bottom[i] * (mask[i] as real);
            i := i + 1;
          }
        }
        assert top[..] == TrainOutput(input, draw, scale, scaleTrain);
      } else {
        Copy(bottom, top);
        if !scaleTrain {
          Scal(1.0 / scale, top);
        }
        forall k | 0 <= k < count
          ensures top[k] == TestElem(input[k], scale, scaleTrain)
        {
        }
        assert top[..] == TestOutput(input, scale, scaleTrain);
      }
    }

    /** Backward_cpu.  With `propagate` false nothing changes.  Otherwise the
        gradient gets the multiplier forward used: the stored mask (and scale)
        in training, 1 or 1/scale in testing.  `bottomDiff` may be `topDiff`. */
    method Backward(topDiff: array<real>, bottomDiff: array<real>, train: bool, propagate: bool)
      requires Valid()
      requires topDiff.Length == bottomDiff.Length
      requires propagate && train ==> mask.Length == bottomDiff.Length
      modifies bottomDiff
      ensures mask[..] == old(mask[..])
      ensures !propagate ==> bottomDiff[..] == old(bottomDiff[..])
      ensures propagate && train ==>
        bottomDiff[..] == TrainOutput(old(topDiff[..]), mask[..], scale, scaleTrain)
      ensures propagate && !train ==>
        bottomDiff[..] == TestOutput(old(topDiff[..]), scale, scaleTrain)
      ensures topDiff != bottomDiff ==> topDiff[..] == old(topDiff[..])
    {
      if propagate {
        ghost var grad := topDiff[..];
        var count := bottomDiff.Length;
        if train {
          var i := 0;
          if scaleTrain {
            while i < count
              invariant 0 <= i <= count
              invariant forall k :: 0 <= k < i ==> bottomDiff[k] == TrainElem(grad[k], mask[k], scale, scaleTrain)
              invariant forall k :: i <= k < count ==> topDiff[k] == grad[k]
              invariant topDiff != bottomDiff ==> topDiff[..] == grad
            {
              bottomDiff[i] := topDiff[i] * (mask[i] as real) * scale;
              i := i + 1;
            }
          } else {
            while i < count
              invariant 0 <= i <= count
              invariant forall k :: 0 <= k < i ==> bottomDiff[k] == TrainElem(grad[k], mask[k], scale, scaleTrain)
              invariant forall k :: i <= k < count ==> topDiff[k] == grad[k]
              invariant topDiff != bottomDiff ==> topDiff[..] == grad
            {
              bottomDiff[i] := topDiff[i] * (mask[i] as real);
              i := i + 1;
            }
          }
          assert bottomDiff[..] == TrainOutput(grad, mask[..], scale, scaleTrain);
        } else {
          Copy(topDiff, bottomDiff);
          if !scaleTrain {
            Scal(1.0 / scale, bottomDiff);
          }
          forall k | 0 <= k < count
            ensures bottomDiff[k] == TestElem(grad[k], scale, scaleTrain)
          {
          }
          assert bottomDiff[..] == TestOutput(grad, scale, scaleTrain);
        }
      }
    }
  }

  /** caffe_copy: dst receives the contents of src (nothing happens when they
      are the same buffer). */
  method Copy(src: array<real>, dst: array<real>)
    requires src.Length == dst.Length
    modifies dst
    ensures dst[..] == old(src[..])
    ensures src != dst ==> src[..] == old(src[..])
  {
    if src != dst {
      var i := 0;
      while i < src.Length
        invariant 0 <= i <= src.Length
        invariant src[..] == old(src[..])
        invariant dst[..i] == src[..i]
      {
        dst[i] := src[i];
        i := i + 1;
      }
      assert dst[..] == src[..];
    }
  }

  /** caffe_scal: every element of x is multiplied by alpha. */
  method Scal(alpha: real, x: array<real>)
    modifies x
    ensures forall k :: 0 <= k < x.Length ==> x[k] == old(x[k]) * alpha
  {
    var i := 0;
    while i < x.Length
      invariant 0 <= i <= x.Length
      invariant forall k :: 0 <= k < i ==> x[k] == old(x[k]) * alpha
      invariant forall k :: i <= k < x.Length ==> x[k] == old(x[k])
    {
      x[i] := x[i] * alpha;
      i := i + 1;
    }
  }

  /** A forward pass followed by its backward pass in training: both apply
      the mask forward stored, so the gradient is the adjoint of the forward
      transform (TrainGradientIsRatio gives it element by element). */
  method ForwardThenBackward(layer: DropoutLayer, bottom: array<real>, top: array<real>,
                             topDiff: array<real>, bottomDiff: array<real>, draw: seq<int>)
    requires layer.Valid()
    requires bottom.Length == top.Length == topDiff.Length == bottomDiff.Length == layer.mask.Length
    requires |draw| == bottom.Length && IsMask(draw)
    requires {bottom, top} !! {topDiff, bottomDiff}
    modifies top, layer.mask, bottomDiff
    ensures layer.mask[..] == draw
    ensures top[..] == TrainOutput(old(bottom[..]), draw, layer.scale, layer.scaleTrain)
    ensures bottomDiff[..] == TrainOutput(old(topDiff[..]), draw, layer.scale, layer.scaleTrain)
    ensures Dot(top[..], old(topDiff[..])) == Dot(old(bottom[..]), bottomDiff[..])
  {
    ghost var x := bottom[..];
    ghost var g := topDiff[..];
    layer.Forward(bottom, top, true, draw);
    ghost var y := top[..];
    assert y == TrainOutput(x, draw, layer.scale, layer.scaleTrain);
    layer.Backward(topDiff, bottomDiff, true, true);
    ghost var d := bottomDiff[..];
    assert d == TrainOutput(g, draw, layer.scale, layer.scaleTrain);
    TrainAdjoint(x, g, draw, layer.scale, layer.scaleTrain);
  }

  /** The two worked scenarios of a drop ratio of one half. */
  method Scenarios()
  {
    var layer := new DropoutLayer();
    layer.SetUp(0.5, true);
    layer.Reshape(4);
    var bottom := new real[4] [1.0, 2.0, 3.0, 4.0];
    var top := new real[4];
    layer.Forward(bottom, top, true, [1, 0, 1, 0]);
    assert top[..] == [2.0, 0.0, 6.0, 0.0];
    var topDiff := new real[4] [1.0, 1.0, 1.0, 1.0];
    var bottomDiff := new real[4];
    layer.Backward(topDiff, bottomDiff, true, true);
    assert bottomDiff[..] == [2.0, 0.0, 2.0, 0.0];

    layer.SetUp(0.5, false);
    layer.Forward(bottom, top, false, []);
    assert top[..] == [0.5, 1.0, 1.5, 2.0];
  }
}
