/**
 * The pruning trade-off simulator: illustrative accuracy and speedup curves
 * as functions of the sparsity fraction x, the pruning mode and the
 * selected hardware, and the sampled polyline that plots them.
 */
module TradeOff {
  import opened Rounding

  datatype PruningMode = Unstructured | Structured
  datatype Hardware = Cpu | Npu

  /** Canvas geometry of the plot. */
  const Width: real := 500.0
  const Height: real := 280.0
  const Padding: real := 40.0
  const GraphWidth: real := Width - Padding * 2.0
  const GraphHeight: real := Height - Padding * 2.0
  /** Vertical scales: accuracy 0..100 and speedup 0..10 fill the plot height. */
  const AccScale: real := GraphHeight / 100.0
  const SpeedScale: real := GraphHeight / 10.0

  /**
   * Accuracy retention in percent. Unstructured: flat 100 below 0.6, then
   * 100 (1 - ((x - 0.6) / 0.4)^2). Structured: flat 100 below 0.1, then
   * max(0, 100 - (x - 0.1) * 120).
   */
  function Accuracy(mode: PruningMode, x: real): (r: real)
    ensures r <= 100.0
    ensures x < 0.1 ==> r == 100.0
    ensures mode == Structured ==> r >= 0.0
  {
    match mode
    case Unstructured =>
      if x < 0.6 then 100.0
      else var d := (x - 0.6) / 0.4; 100.0 * (1.0 - d * d)
    case Structured =>
      if x < 0.1 then 100.0
      else Max(0.0, 100.0 - (x - 0.1) * 120.0)
  }

  /**
   * Speedup factor. Unstructured pruning gives none whatever the hardware;
   * structured gives 1 / (1 - x + 0.05), times 1.5 on an NPU, capped at 10.
   */
  function Speedup(mode: PruningMode, hardware: Hardware, x: real): (r: real)
    requires 0.0 <= x <= 1.0
    ensures 0.0 < r <= 10.0
    ensures mode == Unstructured ==> r == 1.0
  {
    match mode
    case Unstructured => 1.0
    case Structured =>
      BaseSpeedupMonotone(x, x);
      var baseSpeedup := 1.0 / (1.0 - x + 0.05);
      var finalSpeedup := if hardware == Npu then baseSpeedup * 1.5 else baseSpeedup;
      Min(10.0, finalSpeedup)
  }

  /** Unstructured accuracy needs no clamp: on [0, 1] it stays in [0, 100] and reaches 0 at x = 1. */
  lemma {:induction false} UnstructuredAccuracyBounds(x: real)
    requires 0.0 <= x <= 1.0
    ensures 0.0 <= Accuracy(Unstructured, x) <= 100.0
    ensures x == 1.0 ==> Accuracy(Unstructured, x) == 0.0
  {
    if x >= 0.6 {
      var d := (x - 0.6) / 0.4;
      assert 0.0 <= d <= 1.0;
      assert d * d <= d * 1.0;
      assert Accuracy(Unstructured, x) == 100.0 * (1.0 - d * d);
    }
  }

  /** Structured accuracy is never negative, is at most 100, and is 0 from x = 0.1 + 100/120 on. */
  lemma StructuredAccuracyBounds(x: real)
    ensures 0.0 <= Accuracy(Structured, x) <= 100.0
    ensures x >= 0.1 + 100.0 / 120.0 ==> Accuracy(Structured, x) == 0.0
  {
  }

  lemma SquareMonotone(u: real, v: real)
    requires 0.0 <= u <= v
    ensures 100.0 * (1.0 - v * v) <= 100.0 * (1.0 - u * u)
  {
    assert u * u <= u * v <= v * v;
  }

  /** Both accuracy curves are non-increasing on [0, 1]. */
  lemma {:induction false} AccuracyNonIncreasing(mode: PruningMode, a: real, b: real)
    requires 0.0 <= a <= b <= 1.0
    ensures Accuracy(mode, b) <= Accuracy(mode, a)
  {
    match mode
    case Unstructured =>
      UnstructuredAccuracyBounds(b);
      if a >= 0.6 {
        var da := (a - 0.6) / 0.4;
        var db := (b - 0.6) / 0.4;
        assert 0.0 <= da <= db;
        SquareMonotone(da, db);
      }
    case Structured =>
  }

  /** The base structured speedup 1 / (1.05 - x) grows with x and lies in (0, 20] on [0, 1]. */
  lemma {:induction false} BaseSpeedupMonotone(a: real, b: real)
    requires 0.0 <= a <= b <= 1.0
    ensures 0.0 < 1.0 / (1.0 - a + 0.05) <= 1.0 / (1.0 - b + 0.05) <= 20.0
  {
    var da := 1.0 - a + 0.05;
    var db := 1.0 - b + 0.05;
    assert 0.05 <= db <= da;
    assert 1.0 / da * da == 1.0 && 1.0 / db * db == 1.0;
    assert (1.0 / da) * db <= (1.0 / da) * da;
    assert (1.0 / db) * 0.05 <= (1.0 / db) * db;
  }

  /** The NPU never does worse than the CPU, and structured speedup never falls as x grows. */
  lemma {:induction false} SpeedupOrdering(hardware: Hardware, a: real, b: real)
    requires 0.0 <= a <= b <= 1.0
    ensures Speedup(Structured, Cpu, a) <= Speedup(Structured, Npu, a)
    ensures Speedup(Structured, hardware, a) <= Speedup(Structured, hardware, b)
  {
    BaseSpeedupMonotone(a, b);
  }

  /** The i-th sample of the curve, x = i / 100. */
  function Sample(i: int): real
  {
    i as real / 100.0
  }

  datatype Point = Point(x: real, y: real)

  /** Canvas point of curve value y at sample i. */
  function PlotPoint(i: int, y: real, scaleY: real): Point
  {
    Point(Padding + Sample(i) * GraphWidth, Height - Padding - y * scaleY)
  }

  /**
   * generatePath: the curve sampled at x = 0, 0.01, ..., 1, i.e. exactly 101
   * points, whose x-coordinates run strictly upward from the left padding
   * to the right edge of the plot.
   */
  method GeneratePath(f: real --> real, scaleY: real) returns (path: seq<Point>)
    requires forall i :: 0 <= i <= 100 ==> f.requires(Sample(i))
    ensures |path| == 101
    ensures forall i :: 0 <= i < |path| ==> path[i] == PlotPoint(i, f(Sample(i)), scaleY)
    ensures path[0].x == Padding && path[100].x == Padding + GraphWidth
    ensures forall i, j :: 0 <= i < j < |path| ==> path[i].x < path[j].x
  {
    path := [Point(Padding, Height - Padding - f(Sample(0)) * scaleY)];
    var i := 1;
    while i <= 100
      invariant 1 <= i <= 101
      invariant |path| == i
      invariant forall k :: 0 <= k < i ==> path[k] == PlotPoint(k, f(Sample(k)), scaleY)
    {
      var xVal := Sample(i);
      var yVal := f(xVal);
      var x := Padding + (i as real / 100.0) * GraphWidth;
      var y := Height - Padding - yVal * scaleY;
      path := path + [Point(x, y)];
      i := i + 1;
    }
  }

  /** Both accuracy curves stay inside the plot's vertical extent. */
  lemma AccuracyCurveInPlot(mode: PruningMode, i: int)
    requires 0 <= i <= 100
    ensures var p := PlotPoint(i, Accuracy(mode, Sample(i)), AccScale);
            Padding <= p.y <= Height - Padding
  {
    if mode == Unstructured {
      UnstructuredAccuracyBounds(Sample(i));
    } else {
      StructuredAccuracyBounds(Sample(i));
    }
  }

  /** Both speedup curves stay inside the plot, strictly above its baseline. */
  lemma SpeedupCurveInPlot(mode: PruningMode, hardware: Hardware, i: int)
    requires 0 <= i <= 100
    ensures var p := PlotPoint(i, Speedup(mode, hardware, Sample(i)), SpeedScale);
            Padding <= p.y < Height - Padding
  {
  }

  /** The simulator's own state: the hardware toggle, which starts on CPU. */
  class TradeOffGraph {
    var hardware: Hardware

    constructor ()
      ensures hardware == Cpu
    {
      hardware := Cpu;
    }

    method SetHardware(h: Hardware)
      modifies this
      ensures hardware == h
    {
      hardware := h;
    }

    /** The marker's accuracy for the page's sparsity percentage. */
    function CurrentAccuracy(mode: PruningMode, sparsity: int): (a: real)
      requires 0 <= sparsity <= 100
      ensures 0.0 <= a <= 100.0
    {
      UnstructuredAccuracyBounds(sparsity as real / 100.0);
      StructuredAccuracyBounds(sparsity as real / 100.0);
      Accuracy(mode, sparsity as real / 100.0)
    }

    /** The marker's speedup for the page's sparsity percentage on the selected hardware. */
    function CurrentSpeedup(mode: PruningMode, sparsity: int): (s: real)
      reads this
      requires 0 <= sparsity <= 100
      ensures 0.0 < s <= 10.0
      ensures mode == Unstructured ==> s == 1.0
    {
      Speedup(mode, hardware, sparsity as real / 100.0)
    }
  }
}
