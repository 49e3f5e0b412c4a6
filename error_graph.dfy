/**
 * The quantisation error graph: real input against dequantised output over
 * the range widened by 10% on each side, drawn as a staircase with one
 * horizontal step per code, and the clamped code of the current input.
 */
module ErrorGraph {
  import opened Rounding
  import Quantizer

  /** A path command of the staircase, in the 0..100 viewBox. */
  datatype PathCmd = MoveTo(x: real, y: real) | LineTo(x: real, y: real)

  /** The plotted real interval [graphMin, graphMax]. */
  datatype Window = Window(graphMin: real, graphMax: real)

  /** The range [minVal, maxVal] padded by 10% of its span on either side. */
  function GraphWindow(minVal: real, maxVal: real): (w: Window)
    requires minVal < maxVal
    ensures w.graphMin < minVal && maxVal < w.graphMax
    ensures minVal - w.graphMin == w.graphMax - maxVal == (maxVal - minVal) / 10.0
  {
    var padding := (maxVal - minVal) * 0.1;
    Window(minVal - padding, maxVal + padding)
  }

  predicate NonEmpty(w: Window)
  {
    w.graphMin < w.graphMax
  }

  /** Real value to horizontal viewBox coordinate: the window lands on [0, 100]. */
  function MapX(w: Window, r: real): (x: real)
    requires NonEmpty(w)
    ensures w.graphMin <= r <= w.graphMax ==> 0.0 <= x <= 100.0
  {
    UnitFraction(w.graphMin, w.graphMax, r);
    (r - w.graphMin) / (w.graphMax - w.graphMin) * 100.0
  }

  /** Real value to vertical viewBox coordinate (SVG y grows downward): the window lands on [0, 100]. */
  function MapY(w: Window, r: real): (y: real)
    requires NonEmpty(w)
    ensures w.graphMin <= r <= w.graphMax ==> 0.0 <= y <= 100.0
  {
    UnitFraction(w.graphMin, w.graphMax, r);
    100.0 - (r - w.graphMin) / (w.graphMax - w.graphMin) * 100.0
  }

  /**
   * mapX sends the window onto [0, 100] and mapY onto [100, 0]; both are
   * affine, strictly monotone and mirror each other.
   */
  lemma {:induction false} MapEndpoints(w: Window, a: real, b: real)
    requires NonEmpty(w)
    ensures MapX(w, w.graphMin) == 0.0 && MapX(w, w.graphMax) == 100.0
    ensures MapY(w, w.graphMin) == 100.0 && MapY(w, w.graphMax) == 0.0
    ensures MapX(w, a) + MapY(w, a) == 100.0
    ensures a < b ==> MapX(w, a) < MapX(w, b) && MapY(w, b) < MapY(w, a)
    ensures MapX(w, (a + b) / 2.0) == (MapX(w, a) + MapX(w, b)) / 2.0
  {
    var span := w.graphMax - w.graphMin;
    assert (w.graphMax - w.graphMin) / span == 1.0;
    if a < b {
      assert (b - w.graphMin) / span - (a - w.graphMin) / span == (b - a) / span;
    }
    assert ((a + b) / 2.0 - w.graphMin) / span
        == ((a - w.graphMin) / span + (b - w.graphMin) / span) / 2.0;
  }

  /** The edges of bucket q: [S (q - 0.5 - Z), S (q + 0.5 - Z)]. */
  function BucketStart(q: int, scale: real, zeroPoint: int): real
  {
    scale * (q as real - 0.5 - zeroPoint as real)
  }

  function BucketEnd(q: int, scale: real, zeroPoint: int): real
  {
    scale * (q as real + 0.5 - zeroPoint as real)
  }

  /**
   * Each bucket is one step wide, centred on its dequantised value, and
   * buckets tile the real line: bucket q ends where bucket q + 1 starts.
   */
  lemma BucketGeometry(q: int, scale: real, zeroPoint: int)
    ensures BucketEnd(q, scale, zeroPoint) - BucketStart(q, scale, zeroPoint) == scale
    ensures Quantizer.Dequantize(q, Quantizer.Params(scale, zeroPoint))
            == (BucketStart(q, scale, zeroPoint) + BucketEnd(q, scale, zeroPoint)) / 2.0
    ensures BucketEnd(q, scale, zeroPoint) == BucketStart(q + 1, scale, zeroPoint)
  {
  }

  /**
   * With round-half-up, the half-open bucket [start, end) is exactly the set
   * of inputs that round to q.
   */
  lemma {:induction false} RoundsIntoBucket(x: real, q: int, scale: real, zeroPoint: int)
    requires scale > 0.0
    ensures Round(x / scale + zeroPoint as real) == q
            <==> BucketStart(q, scale, zeroPoint) <= x < BucketEnd(q, scale, zeroPoint)
  {
    var u := x / scale;
    var lo, hi := q as real - 0.5 - zeroPoint as real, q as real + 0.5 - zeroPoint as real;
    assert scale * u == x;
    ScaledInterval(u, x, lo, hi, scale);
    var t := u + zeroPoint as real;
    if q as real - 0.5 <= t < q as real + 0.5 {
      RoundUnique(t, q);
    }
  }

  /** With x = S u and S > 0, u lies in [lo, hi) exactly when x lies in [S lo, S hi). */
  lemma ScaledInterval(u: real, x: real, lo: real, hi: real, scale: real)
    requires scale > 0.0 && scale * u == x
    ensures lo <= u < hi <==> scale * lo <= x < scale * hi
  {
    ScaleOrder(lo, u, scale);
    ScaleOrder(u, hi, scale);
  }

  /** First and last code of the staircase: the visible codes, cut to [qMin, qMax]. */
  function StartQ(w: Window, scale: real, zeroPoint: int, qMin: int): (q: int)
    requires scale != 0.0
    ensures qMin <= q
  {
    Floor(Max(qMin as real, w.graphMin / scale + zeroPoint as real))
  }

  function EndQ(w: Window, scale: real, zeroPoint: int, qMax: int): (q: int)
    requires scale != 0.0
    ensures q <= qMax
  {
    Ceil(Min(qMax as real, w.graphMax / scale + zeroPoint as real))
  }

  /** The horizontal step of code q, its ends clamped to the viewBox. */
  function StepX1(w: Window, q: int, scale: real, zeroPoint: int): (x: real)
    requires NonEmpty(w)
    ensures 0.0 <= x
  {
    Max(0.0, MapX(w, BucketStart(q, scale, zeroPoint)))
  }

  function StepX2(w: Window, q: int, scale: real, zeroPoint: int): (x: real)
    requires NonEmpty(w)
    ensures x <= 100.0
  {
    Min(100.0, MapX(w, BucketEnd(q, scale, zeroPoint)))
  }

  function StepY(w: Window, q: int, scale: real, zeroPoint: int): real
    requires NonEmpty(w)
  {
    MapY(w, Quantizer.Dequantize(q, Quantizer.Params(scale, zeroPoint)))
  }

  /**
   * The commands appended for code q: the horizontal step to the bucket's
   * end and, unless q is the last code, the vertical rise to the next level.
   */
  function Segment(w: Window, q: int, endQ: int, scale: real, zeroPoint: int): seq<PathCmd>
    requires NonEmpty(w)
  {
    [LineTo(StepX2(w, q, scale, zeroPoint), StepY(w, q, scale, zeroPoint))]
    + if q < endQ then [LineTo(StepX2(w, q, scale, zeroPoint), StepY(w, q + 1, scale, zeroPoint))]
      else []
  }

  /** The commands for codes startQ .. q - 1, in order. */
  function Segments(w: Window, startQ: int, q: int, endQ: int, scale: real, zeroPoint: int): seq<PathCmd>
    requires NonEmpty(w)
    decreases q - startQ
  {
    if q <= startQ then []
    else Segments(w, startQ, q - 1, endQ, scale, zeroPoint) + Segment(w, q - 1, endQ, scale, zeroPoint)
  }

  /**
   * The staircase for codes startQ .. endQ has a horizontal step per code at
   * the dequantised level and a vertical rise between consecutive codes, none
   * after the last: 2n - 1 commands for n codes.
   */
  lemma {:induction false} SegmentsShape(w: Window, startQ: int, q: int, endQ: int, scale: real, zeroPoint: int)
    requires NonEmpty(w)
    requires startQ <= endQ && startQ <= q <= endQ + 1
    ensures var s := Segments(w, startQ, q, endQ, scale, zeroPoint);
      && |s| == (if q == endQ + 1 then 2 * (q - startQ) - 1 else 2 * (q - startQ))
      && (forall k :: startQ <= k < q ==>
            s[2 * (k - startQ)] == LineTo(StepX2(w, k, scale, zeroPoint), StepY(w, k, scale, zeroPoint)))
      && (forall k :: startQ <= k < q && k < endQ ==>
            s[2 * (k - startQ) + 1] == LineTo(StepX2(w, k, scale, zeroPoint), StepY(w, k + 1, scale, zeroPoint)))
    decreases q - startQ
  {
    if q > startQ {
      SegmentsShape(w, startQ, q - 1, endQ, scale, zeroPoint);
    }
  }

  /** Every command is a line whose x stays inside the viewBox. */
  predicate LinesInView(s: seq<PathCmd>)
  {
    forall i :: 0 <= i < |s| ==> s[i].LineTo? && s[i].x <= 100.0
  }

  /** The segments only draw lines, and the clamp keeps their x inside the viewBox. */
  lemma {:induction false} SegmentsClamped(w: Window, startQ: int, q: int, endQ: int, scale: real, zeroPoint: int)
    requires NonEmpty(w)
    ensures LinesInView(Segments(w, startQ, q, endQ, scale, zeroPoint))
    decreases q - startQ
  {
    if q > startQ {
      SegmentsClamped(w, startQ, q - 1, endQ, scale, zeroPoint);
      var prev := Segments(w, startQ, q - 1, endQ, scale, zeroPoint);
      var seg := Segment(w, q - 1, endQ, scale, zeroPoint);
      assert LinesInView(seg);
      assert Segments(w, startQ, q, endQ, scale, zeroPoint) == prev + seg;
    }
  }

  /** With a positive scale each step sits strictly above the previous one (SVG y decreases). */
  lemma {:induction false} StepsRise(w: Window, q: int, scale: real, zeroPoint: int)
    requires NonEmpty(w) && scale > 0.0
    ensures StepY(w, q + 1, scale, zeroPoint) < StepY(w, q, scale, zeroPoint)
  {
    MapEndpoints(w, Quantizer.Dequantize(q, Quantizer.Params(scale, zeroPoint)), Quantizer.Dequantize(q + 1, Quantizer.Params(scale, zeroPoint)));
  }

  /**
   * The staircase loop: codes from StartQ to EndQ, a move to the first
   * step's start, then each code's segment.
   */
  method Staircase(minVal: real, maxVal: real, scale: real, zeroPoint: int, qMin: int, qMax: int)
    returns (path: seq<PathCmd>)
    requires minVal < maxVal && scale != 0.0
    ensures var w := GraphWindow(minVal, maxVal);
            var startQ := StartQ(w, scale, zeroPoint, qMin);
            var endQ := EndQ(w, scale, zeroPoint, qMax);
      && (startQ > endQ ==> path == [])
      && (startQ <= endQ ==>
            path == [MoveTo(StepX1(w, startQ, scale, zeroPoint), StepY(w, startQ, scale, zeroPoint))]
                    + Segments(w, startQ, endQ + 1, endQ, scale, zeroPoint))
      && (startQ <= endQ ==> |path| == 2 * (endQ - startQ + 1) && path[0].MoveTo? && path[0].x >= 0.0)
      && LinesInView(if path == [] then [] else path[1..])
  {
    var w := GraphWindow(minVal, maxVal);
    var startQ := StartQ(w, scale, zeroPoint, qMin);
    var endQ := EndQ(w, scale, zeroPoint, qMax);
    path := [];
    var q := startQ;
    while q <= endQ
      invariant startQ <= endQ + 1 ==> startQ <= q <= endQ + 1
      invariant startQ > endQ ==> q == startQ
      invariant q == startQ ==> path == []
      invariant q > startQ ==>
                  path == [MoveTo(StepX1(w, startQ, scale, zeroPoint), StepY(w, startQ, scale, zeroPoint))]
                          + Segments(w, startQ, q, endQ, scale, zeroPoint)
    {
      var x1 := StepX1(w, q, scale, zeroPoint);
      var x2 := StepX2(w, q, scale, zeroPoint);
      var y := StepY(w, q, scale, zeroPoint);
      if path == [] {
        path := path + [MoveTo(x1, y)];
      }
      path := path + [LineTo(x2, y)];
      if q < endQ {
        var nextY := StepY(w, q + 1, scale, zeroPoint);
        path := path + [LineTo(x2, nextY)];
      }
      q := q + 1;
    }
    if startQ <= endQ {
      PathShape(w, startQ, endQ, scale, zeroPoint, path);
    }
  }

  /** A path made of the opening move and the segments of startQ .. endQ: its length, its head and its lines. */
  lemma PathShape(w: Window, startQ: int, endQ: int, scale: real, zeroPoint: int, path: seq<PathCmd>)
    requires NonEmpty(w) && startQ <= endQ
    requires path == [MoveTo(StepX1(w, startQ, scale, zeroPoint), StepY(w, startQ, scale, zeroPoint))]
                     + Segments(w, startQ, endQ + 1, endQ, scale, zeroPoint)
    ensures |path| == 2 * (endQ - startQ + 1) && path[0].MoveTo? && path[0].x >= 0.0
    ensures LinesInView(path[1..])
  {
    SegmentsShape(w, startQ, endQ + 1, endQ, scale, zeroPoint);
    SegmentsClamped(w, startQ, endQ + 1, endQ, scale, zeroPoint);
    assert path[1..] == Segments(w, startQ, endQ + 1, endQ, scale, zeroPoint);
  }

  /** The code of the current input, clamped into [qMin, qMax]. */
  function CurrentQ(inputVal: real, scale: real, zeroPoint: int, qMin: int, qMax: int): (q: int)
    requires scale != 0.0
    ensures qMin <= qMax ==> qMin <= q <= qMax
    ensures qMin <= Round(inputVal / scale + zeroPoint as real) <= qMax
            ==> q == Round(inputVal / scale + zeroPoint as real)
  {
    Clamp(qMin, qMax, Round(inputVal / scale + zeroPoint as real))
  }

  /** Over the full INT8 range the graph's current code is the quantiser's code. */
  lemma CurrentQIsQuantize(inputVal: real, scale: real, zeroPoint: int)
    requires scale > 0.0
    ensures CurrentQ(inputVal, scale, zeroPoint, Quantizer.QMin, Quantizer.QMax)
            == Quantizer.Quantize(inputVal, Quantizer.Params(scale, zeroPoint))
  {
  }

  /**
   * The error marker shows when the error exceeds a tenth of a step; with a
   * positive step it never shows on the value the input is drawn at.
   */
  predicate HasSignificantError(inputVal: real, scale: real, zeroPoint: int, qMin: int, qMax: int)
    requires scale != 0.0
    ensures scale > 0.0 && HasSignificantError(inputVal, scale, zeroPoint, qMin, qMax) ==>
              inputVal != Quantizer.Dequantize(CurrentQ(inputVal, scale, zeroPoint, qMin, qMax), Quantizer.Params(scale, zeroPoint))
  {
    var currentDequant := Quantizer.Dequantize(CurrentQ(inputVal, scale, zeroPoint, qMin, qMax), Quantizer.Params(scale, zeroPoint));
    Abs(currentDequant - inputVal) > scale * 0.1
  }

  /** Inputs that are exactly a code's dequantised value never show the marker. */
  lemma {:induction false} NoMarkerOnCodes(q: int, scale: real, zeroPoint: int, qMin: int, qMax: int)
    requires scale > 0.0 && qMin <= q <= qMax
    ensures !HasSignificantError(Quantizer.Dequantize(q, Quantizer.Params(scale, zeroPoint)), scale, zeroPoint, qMin, qMax)
  {
    var x := Quantizer.Dequantize(q, Quantizer.Params(scale, zeroPoint));
    assert x / scale == (q - zeroPoint) as real;
    assert x / scale + zeroPoint as real == q as real;
    RoundOfInt(q);
  }

  /**
   * Unless the code was clamped, the marker shows exactly when x / S + Z lies
   * more than a tenth of a step from its nearest code.
   */
  lemma {:induction false} MarkerIffOffCode(inputVal: real, scale: real, zeroPoint: int, qMin: int, qMax: int)
    requires scale > 0.0
    requires qMin <= Round(inputVal / scale + zeroPoint as real) <= qMax
    ensures var t := inputVal / scale + zeroPoint as real;
            HasSignificantError(inputVal, scale, zeroPoint, qMin, qMax) <==> Abs(Round(t) as real - t) > 0.1
  {
    var t := inputVal / scale + zeroPoint as real;
    var q := CurrentQ(inputVal, scale, zeroPoint, qMin, qMax);
    assert q == Round(t);
    var d := q as real - t;
    var e := Quantizer.Dequantize(q, Quantizer.Params(scale, zeroPoint)) - inputVal;
    assert scale * (inputVal / scale) == inputVal;
    assert e == scale * d;
    assert HasSignificantError(inputVal, scale, zeroPoint, qMin, qMax) <==> Abs(e) > scale * 0.1;
    if d >= 0.0 {
      assert Abs(e) == scale * d && Abs(d) == d;
      ScaleOrder(0.1, d, scale);
      assert scale * 0.1 < scale * d <==> 0.1 < d;
      assert Abs(e) > scale * 0.1 <==> Abs(d) > 0.1;
    } else {
      assert Abs(e) == scale * -d && Abs(d) == -d;
      ScaleOrder(0.1, -d, scale);
      assert scale * 0.1 < scale * -d <==> 0.1 < -d;
      assert Abs(e) > scale * 0.1 <==> Abs(d) > 0.1;
    }
  }
}
