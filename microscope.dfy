/**
 * The quantisation "microscope": a window of three steps centred on the
 * input, the integer buckets visible in it, and the unclamped snap of the
 * input to its nearest bucket.
 */
module Microscope {
  import opened Rounding
  import Quantizer

  datatype Option<T> = None | Some(value: T)

  /** One visible bucket: its code q and the real value S * (q - Z) it stands for. */
  datatype Bucket = Bucket(q: int, val: real)

  function BucketOf(q: int, scale: real, zeroPoint: int): Bucket
  {
    Bucket(q, Quantizer.Dequantize(q, Quantizer.Params(scale, zeroPoint)))
  }

  datatype View = View(
    viewMin: real,
    viewMax: real,
    minQ: int,
    maxQ: int,
    buckets: seq<Bucket>,
    currentQ: int,
    snappedVal: real,
    error: real)

  /** The window is 1.5 steps either side of the input. */
  function ViewMin(inputVal: real, scale: real): real
  {
    inputVal - scale * 1.5
  }

  function ViewMax(inputVal: real, scale: real): real
  {
    inputVal + scale * 1.5
  }

  /** Percentage position of val inside the window [viewMin, viewMax]: from 0 at the left edge to 100 at the right. */
  function MapToPct(viewMin: real, viewMax: real, val: real): (pct: real)
    requires viewMin != viewMax
    ensures val == viewMin ==> pct == 0.0
    ensures viewMin < viewMax && viewMin <= val <= viewMax ==> 0.0 <= pct <= 100.0
  {
    var pct := (val - viewMin) / (viewMax - viewMin) * 100.0;
    if viewMin < viewMax then UnitFraction(viewMin, viewMax, val); pct else pct
  }

  /** The lowest and highest codes the window reaches. */
  function MinQ(inputVal: real, scale: real, zeroPoint: int): int
    requires scale != 0.0
  {
    Floor(ViewMin(inputVal, scale) / scale + zeroPoint as real)
  }

  function MaxQ(inputVal: real, scale: real, zeroPoint: int): int
    requires scale != 0.0
  {
    Ceil(ViewMax(inputVal, scale) / scale + zeroPoint as real)
  }

  /** The snap target: round(x / S + Z), with no clamp, so the nearest code to x / S + Z (ties upward). */
  function SnapQ(inputVal: real, scale: real, zeroPoint: int): (q: int)
    requires scale != 0.0
    ensures var t := inputVal / scale + zeroPoint as real;
            q as real - 0.5 <= t < q as real + 0.5
  {
    Round(inputVal / scale + zeroPoint as real)
  }

  /** The input always sits in the middle of the window. */
  lemma InputCentred(inputVal: real, scale: real)
    requires scale != 0.0
    ensures MapToPct(ViewMin(inputVal, scale), ViewMax(inputVal, scale), inputVal) == 50.0
  {
    var lo, hi := ViewMin(inputVal, scale), ViewMax(inputVal, scale);
    assert hi - lo == 3.0 * scale;
    assert inputVal - lo == 1.5 * scale;
    assert (1.5 * scale) / (3.0 * scale) == 0.5;
  }

  /** With t = x / S + Z, the window's code range is [floor(t - 1.5), ceil(t + 1.5)]. */
  lemma WindowCodes(inputVal: real, scale: real, zeroPoint: int)
    requires scale != 0.0
    ensures var t := inputVal / scale + zeroPoint as real;
            MinQ(inputVal, scale, zeroPoint) == Floor(t - 1.5) &&
            MaxQ(inputVal, scale, zeroPoint) == Ceil(t + 1.5)
  {
    assert (scale * 1.5) / scale == 1.5;
    assert (inputVal - scale * 1.5) / scale == inputVal / scale - (scale * 1.5) / scale;
    assert (inputVal + scale * 1.5) / scale == inputVal / scale + (scale * 1.5) / scale;
  }

  /**
   * The window always spans exactly three steps, so it shows four buckets
   * when its edges fall on bucket values and five otherwise.
   */
  lemma {:induction false} BucketCount(inputVal: real, scale: real, zeroPoint: int)
    requires scale != 0.0
    ensures var n := MaxQ(inputVal, scale, zeroPoint) - MinQ(inputVal, scale, zeroPoint) + 1;
            var t := inputVal / scale + zeroPoint as real;
            (n == 4 || n == 5) &&
            (n == 4 <==> Floor(t - 1.5) as real == t - 1.5)
  {
    WindowCodes(inputVal, scale, zeroPoint);
    var t := inputVal / scale + zeroPoint as real;
    var f := Floor(t - 1.5);
    if f as real == t - 1.5 {
      assert Ceil(t + 1.5) == f + 3;
    } else {
      assert f as real + 3.0 < t + 1.5 < f as real + 4.0;
      assert Ceil(t + 1.5) == f + 4;
    }
  }

  /** The snapped code is one of the visible buckets. */
  lemma {:induction false} SnapVisible(inputVal: real, scale: real, zeroPoint: int)
    requires scale != 0.0
    ensures MinQ(inputVal, scale, zeroPoint) <= SnapQ(inputVal, scale, zeroPoint) <= MaxQ(inputVal, scale, zeroPoint)
  {
    WindowCodes(inputVal, scale, zeroPoint);
  }

  /** Because the snap is not clamped, its error never exceeds half a step. */
  lemma {:induction false} SnapErrorBound(inputVal: real, scale: real, zeroPoint: int)
    requires scale != 0.0
    ensures var e := Quantizer.Dequantize(SnapQ(inputVal, scale, zeroPoint), Quantizer.Params(scale, zeroPoint)) - inputVal;
            -Abs(scale) / 2.0 <= e <= Abs(scale) / 2.0
  {
    var t := inputVal / scale + zeroPoint as real;
    var q := SnapQ(inputVal, scale, zeroPoint);
    var d := q as real - t;
    assert scale * (inputVal / scale) == inputVal;
    assert scale * (q - zeroPoint) as real - inputVal == scale * d;
    ScaledHalf(scale, d);
  }

  /** The loop that lists every code from minQ to maxQ with its real value. */
  method CollectBuckets(minQ: int, maxQ: int, scale: real, zeroPoint: int) returns (buckets: seq<Bucket>)
    ensures minQ <= maxQ + 1 ==> |buckets| == maxQ - minQ + 1
    ensures minQ > maxQ ==> buckets == []
    ensures forall i :: 0 <= i < |buckets| ==> buckets[i] == BucketOf(minQ + i, scale, zeroPoint)
  {
    buckets := [];
    var q := minQ;
    while q <= maxQ
      invariant minQ <= maxQ + 1 ==> minQ <= q <= maxQ + 1
      invariant minQ > maxQ ==> q == minQ
      invariant |buckets| == q - minQ
      invariant forall i :: 0 <= i < |buckets| ==> buckets[i] == BucketOf(minQ + i, scale, zeroPoint)
    {
      var bucketVal := Quantizer.Dequantize(q, Quantizer.Params(scale, zeroPoint));
      buckets := buckets + [Bucket(q, bucketVal)];
      q := q + 1;
    }
  }

  /**
   * The component: nothing when the scale is 0 (not yet initialised);
   * otherwise the window, its 4 or 5 buckets in increasing code order, and
   * the snap of the input to one of them with an error of at most half a step.
   */
  method Render(inputVal: real, scale: real, zeroPoint: int) returns (view: Option<View>)
    ensures view.None? <==> scale == 0.0
    ensures view.Some? ==>
      var v := view.value;
      && v.viewMin == ViewMin(inputVal, scale) && v.viewMax == ViewMax(inputVal, scale)
      && MapToPct(v.viewMin, v.viewMax, inputVal) == 50.0
      && v.minQ == MinQ(inputVal, scale, zeroPoint) && v.maxQ == MaxQ(inputVal, scale, zeroPoint)
      && (|v.buckets| == 4 || |v.buckets| == 5)
      && |v.buckets| == v.maxQ - v.minQ + 1
      && (forall i :: 0 <= i < |v.buckets| ==> v.buckets[i] == BucketOf(v.minQ + i, scale, zeroPoint))
      && v.currentQ == SnapQ(inputVal, scale, zeroPoint)
      && v.minQ <= v.currentQ <= v.maxQ
      && v.buckets[v.currentQ - v.minQ].val == v.snappedVal
      && v.error == v.snappedVal - inputVal
      && -Abs(scale) / 2.0 <= v.error <= Abs(scale) / 2.0
  {
    if scale == 0.0 {
      return None;
    }
    var viewMin := ViewMin(inputVal, scale);
    var viewMax := ViewMax(inputVal, scale);
    var minQ := MinQ(inputVal, scale, zeroPoint);
    var maxQ := MaxQ(inputVal, scale, zeroPoint);
    assert maxQ - minQ + 1 == 4 || maxQ - minQ + 1 == 5 by {
      BucketCount(inputVal, scale, zeroPoint);
    }
    var buckets := CollectBuckets(minQ, maxQ, scale, zeroPoint);
    var currentQ := SnapQ(inputVal, scale, zeroPoint);
    var snappedVal := Quantizer.Dequantize(currentQ, Quantizer.Params(scale, zeroPoint));
    var error := snappedVal - inputVal;
    assert MapToPct(viewMin, viewMax, inputVal) == 50.0 by {
      InputCentred(inputVal, scale);
    }
    assert minQ <= currentQ <= maxQ by {
      SnapVisible(inputVal, scale, zeroPoint);
    }
    assert -Abs(scale) / 2.0 <= error <= Abs(scale) / 2.0 by {
      SnapErrorBound(inputVal, scale, zeroPoint);
    }
    assert buckets[currentQ - minQ].val == snappedVal;
    view := Some(View(viewMin, viewMax, minQ, maxQ, buckets, currentQ, snappedVal, error));
  }
}
