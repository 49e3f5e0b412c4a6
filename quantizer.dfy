/**
 * Affine INT8 quantisation as the QuantLens component computes it:
 * scale and zero point from a real range, quantise with clamping to
 * [-128, 127], dequantise, and the reconstruction error; plus the
 * component's state record, its setters and its two presets.
 */
module Quantizer {
  import opened Rounding

  /** The signed INT8 code range. */
  const QMin: int := -128
  const QMax: int := 127

  datatype Mode = Symmetric | Asymmetric

  /** Scale S (real span of one integer step) and zero point Z (code of real 0). */
  datatype Params = Params(scale: real, zeroPoint: int)

  /**
   * The effect that derives scale and zero point from the range.
   * Symmetric: S = max(|min|, |max|) / 127 and Z = 0.
   * Asymmetric: S = (max - min) / 255 and Z = round(-128 - min / S).
   */
  function ComputeParams(mode: Mode, minVal: real, maxVal: real): (p: Params)
    requires minVal < maxVal
    ensures p.scale > 0.0
    ensures mode == Symmetric ==>
              p.zeroPoint == 0 && p.scale * 127.0 == Max(Abs(minVal), Abs(maxVal))
    ensures mode == Asymmetric ==>
              p.scale * 255.0 == maxVal - minVal &&
              // the zero point puts minVal in the bucket of code -128 (up to a tie)
              -128.5 < minVal / p.scale + p.zeroPoint as real <= -127.5
  {
    match mode
    case Symmetric =>
      Params(Max(Abs(minVal), Abs(maxVal)) / 127.0, 0)
    case Asymmetric =>
      var s := (maxVal - minVal) / 255.0;
      Params(s, Round(QMin as real - minVal / s))
  }

  /** The code that input x rounds to before the clamp. */
  function RawCode(x: real, p: Params): int
    requires p.scale > 0.0
  {
    Round(x / p.scale + p.zeroPoint as real)
  }

  /** Quantise: clamp(round(x / S + Z), -128, 127). Never fails, whatever x is. */
  function Quantize(x: real, p: Params): (q: int)
    requires p.scale > 0.0
    ensures QMin <= q <= QMax
    ensures QMin <= RawCode(x, p) <= QMax ==> q == RawCode(x, p)
    ensures RawCode(x, p) < QMin ==> q == QMin
    ensures QMax < RawCode(x, p) ==> q == QMax
  {
    Clamp(QMin, QMax, Round(x / p.scale + p.zeroPoint as real))
  }

  /** Dequantise: S * (q - Z); the zero point is exactly the code of real 0. */
  function Dequantize(q: int, p: Params): (r: real)
    ensures p.scale != 0.0 ==> (r == 0.0 <==> q == p.zeroPoint)
    ensures p.scale > 0.0 ==> (r < 0.0 <==> q < p.zeroPoint)
  {
    p.scale * (q - p.zeroPoint) as real
  }

  /**
   * Reconstruction error: dequantize(quantize(x)) - x. An input clamped at
   * the top is under-estimated by at least half a step, one clamped at the
   * bottom over-estimated by more than half a step.
   */
  function QuantError(x: real, p: Params): (e: real)
    requires p.scale > 0.0
    ensures QMax < RawCode(x, p) ==> e <= -p.scale / 2.0
    ensures RawCode(x, p) < QMin ==> p.scale / 2.0 < e
  {
    var q := Quantize(x, p);
    var t := x / p.scale + p.zeroPoint as real;
    ErrorIsScaledDistance(x, q, p);
    assert (q - p.zeroPoint) as real - x / p.scale == q as real - t;
    assert QMax < RawCode(x, p) ==> q as real - t <= -0.5;
    assert RawCode(x, p) < QMin ==> 0.5 < q as real - t;
    assert p.scale / 2.0 == p.scale * 0.5;
    ScaleOrder(q as real - t, -0.5, p.scale);
    ScaleOrder(0.5, q as real - t, p.scale);
    Dequantize(q, p) - x
  }

  /** Dividing lo*s <= x <= hi*s by a positive s. */
  lemma DivideBounds(x: real, s: real, lo: real, hi: real)
    requires s > 0.0 && lo * s <= x <= hi * s
    ensures lo <= x / s <= hi
  {
    assert x / s * s == x;
  }

  /** The error of a code q at input x is S times the code distance to x / S + Z. */
  lemma ErrorIsScaledDistance(x: real, q: int, p: Params)
    requires p.scale > 0.0
    ensures Dequantize(q, p) - x == p.scale * ((q - p.zeroPoint) as real - x / p.scale)
  {
    assert p.scale * (x / p.scale) == x;
  }

  /**
   * Rounding-error bound: when x / S + Z lies in [-128.5, 127.5] (so that the
   * clamp moves the code by at most the rounding distance), |error| <= S/2.
   */
  lemma {:induction false} ErrorBound(x: real, p: Params)
    requires p.scale > 0.0
    requires -128.5 <= x / p.scale + p.zeroPoint as real <= 127.5
    ensures -p.scale / 2.0 <= QuantError(x, p) <= p.scale / 2.0
  {
    var t := x / p.scale + p.zeroPoint as real;
    var q := Quantize(x, p);
    assert q as real - 0.5 <= t <= q as real + 0.5;
    ErrorIsScaledDistance(x, q, p);
    ScaledHalf(p.scale, q as real - t);
    assert (q - p.zeroPoint) as real - x / p.scale == q as real - t;
  }

  /** The unclamped case: when round(x / S + Z) is a valid code, |error| <= S/2. */
  lemma {:induction false} ErrorBoundUnclamped(x: real, p: Params)
    requires p.scale > 0.0
    requires QMin <= RawCode(x, p) <= QMax
    ensures -p.scale / 2.0 <= QuantError(x, p) <= p.scale / 2.0
  {
    ErrorBound(x, p);
  }

  /** Symmetric mode: every input inside [minVal, maxVal] is reconstructed within half a step. */
  lemma {:induction false} SymmetricErrorBoundInRange(minVal: real, maxVal: real, x: real)
    requires minVal < maxVal
    requires minVal <= x <= maxVal
    ensures var p := ComputeParams(Symmetric, minVal, maxVal);
            -p.scale / 2.0 <= QuantError(x, p) <= p.scale / 2.0
  {
    var p := ComputeParams(Symmetric, minVal, maxVal);
    assert -127.0 * p.scale <= x <= 127.0 * p.scale;
    DivideBounds(x, p.scale, -127.0, 127.0);
    ErrorBound(x, p);
  }

  /** Asymmetric mode: every input inside [minVal, maxVal] is reconstructed within half a step. */
  lemma {:induction false} AsymmetricErrorBoundInRange(minVal: real, maxVal: real, x: real)
    requires minVal < maxVal
    requires minVal <= x <= maxVal
    ensures var p := ComputeParams(Asymmetric, minVal, maxVal);
            -p.scale / 2.0 <= QuantError(x, p) <= p.scale / 2.0
  {
    var p := ComputeParams(Asymmetric, minVal, maxVal);
    var s := p.scale;
    DivideBounds(x - minVal, s, 0.0, 255.0);
    assert x / s == minVal / s + (x - minVal) / s;
    ErrorBound(x, p);
  }

  /**
   * For both modes, every input inside the configured range [minVal, maxVal]
   * is reconstructed within half a step.
   */
  lemma {:induction false} ErrorBoundInRange(mode: Mode, minVal: real, maxVal: real, x: real)
    requires minVal < maxVal
    requires minVal <= x <= maxVal
    ensures var p := ComputeParams(mode, minVal, maxVal);
            -p.scale / 2.0 <= QuantError(x, p) <= p.scale / 2.0
  {
    if mode == Symmetric {
      SymmetricErrorBoundInRange(minVal, maxVal, x);
    } else {
      AsymmetricErrorBoundInRange(minVal, maxVal, x);
    }
  }

  /** Fixed points: quantising the dequantised value of any valid code gives the code back. */
  lemma {:induction false} QuantizeDequantize(q: int, p: Params)
    requires p.scale > 0.0
    requires QMin <= q <= QMax
    ensures Quantize(Dequantize(q, p), p) == q
  {
    var d := (q - p.zeroPoint) as real;
    assert p.scale * d / p.scale == d;
    assert Dequantize(q, p) / p.scale + p.zeroPoint as real == q as real;
    RoundOfInt(q);
  }

  /** Reconstruction is idempotent: a dequantised value survives another round trip unchanged. */
  lemma {:induction false} ReconstructIdempotent(x: real, p: Params)
    requires p.scale > 0.0
    ensures var r := Dequantize(Quantize(x, p), p);
            Dequantize(Quantize(r, p), p) == r
  {
    QuantizeDequantize(Quantize(x, p), p);
  }

  /**
   * Boundary mapping in asymmetric mode: maxVal quantises to 127 (after the
   * clamp) and minVal to -128, or to -127 when -128 - minVal/S is an exact
   * rounding tie.
   */
  lemma {:induction false} AsymmetricBoundaries(minVal: real, maxVal: real)
    requires minVal < maxVal
    ensures var p := ComputeParams(Asymmetric, minVal, maxVal);
            Quantize(maxVal, p) == QMax &&
            Quantize(minVal, p) == (if IsTie(QMin as real - minVal / p.scale) then -127 else QMin)
  {
    var p := ComputeParams(Asymmetric, minVal, maxVal);
    var s := p.scale;
    var a := QMin as real - minVal / s;
    var z := p.zeroPoint;
    assert z == Round(a);
    var d := z as real - a;
    assert -0.5 < d <= 0.5;
    assert minVal / s + z as real == -128.0 + d;
    assert IsTie(a) <==> d == 0.5;
    if d == 0.5 {
      RoundUnique(minVal / s + z as real, -127);
    } else {
      RoundUnique(minVal / s + z as real, -128);
    }
    assert maxVal / s - minVal / s == (maxVal - minVal) / s;
    assert (maxVal - minVal) / s == 255.0;
    assert maxVal / s + z as real == 127.0 + d;
    assert RawCode(maxVal, p) >= 127;
  }

  /** The "Weights" preset: symmetric over [-3.5, 3.5]; input 0.5 lands on code 18. */
  lemma WeightsPreset()
    ensures ComputeParams(Symmetric, -3.5, 3.5) == Params(3.5 / 127.0, 0)
    ensures Quantize(0.5, Params(3.5 / 127.0, 0)) == 18
  {
    var p := Params(3.5 / 127.0, 0);
    assert 0.5 / p.scale == 127.0 / 7.0;
    RoundUnique(127.0 / 7.0, 18);
  }

  /**
   * The "ReLU Activations" preset: asymmetric over [0, 6] gives S = 6/255 and
   * Z = -128; in exact arithmetic the input 3.0 sits at 127.5 - 128 = -0.5,
   * which rounds up to code 0.
   */
  lemma ReluPreset()
    ensures ComputeParams(Asymmetric, 0.0, 6.0) == Params(6.0 / 255.0, -128)
    ensures Quantize(3.0, Params(6.0 / 255.0, -128)) == 0
  {
    var p := Params(6.0 / 255.0, -128);
    RoundUnique(-128.0, -128);
    assert 3.0 / p.scale == 127.5;
    RoundUnique(-0.5, 0);
  }

  /**
   * The component's state: the range and input sliders, the mode toggle and
   * the derived scale and zero point that the effect writes.
   */
  class QuantizerVisual {
    var minVal: real
    var maxVal: real
    var inputValue: real
    var mode: Mode
    var scale: real
    var zeroPoint: int

    /** The range sliders keep minVal in [-10, 0] and maxVal in [0.1, 10]. */
    ghost predicate Valid()
      reads this
    {
      -10.0 <= minVal <= 0.0 && 0.1 <= maxVal <= 10.0
    }

    /** The derived parameters agree with the current range and mode. */
    ghost predicate ParamsCurrent()
      reads this
      requires Valid()
    {
      Params(scale, zeroPoint) == ComputeParams(mode, minVal, maxVal)
    }

    /** Initial state: [-3.5, 3.5], input 1.2, asymmetric, with S = 0 until the effect runs. */
    constructor ()
      ensures Valid()
      ensures minVal == -3.5 && maxVal == 3.5 && inputValue == 1.2 && mode == Asymmetric
      ensures scale == 0.0 && zeroPoint == 0
    {
      minVal, maxVal, inputValue, mode := -3.5, 3.5, 1.2, Asymmetric;
      scale, zeroPoint := 0.0, 0;
    }

    method SetMinVal(v: real)
      requires Valid() && -10.0 <= v <= 0.0
      modifies this`minVal
      ensures Valid() && minVal == v
    {
      minVal := v;
    }

    method SetMaxVal(v: real)
      requires Valid() && 0.1 <= v <= 10.0
      modifies this`maxVal
      ensures Valid() && maxVal == v
    {
      maxVal := v;
    }

    /** The test-value slider ranges over [minVal, maxVal]. */
    method SetInputValue(v: real)
      requires Valid() && minVal <= v <= maxVal
      modifies this`inputValue
      ensures Valid() && inputValue == v
    {
      inputValue := v;
    }

    method SetMode(m: Mode)
      requires Valid()
      modifies this`mode
      ensures Valid() && mode == m
    {
      mode := m;
    }

    /**
     * The effect that runs after minVal, maxVal or mode change: under the
     * slider domains the range is never empty, so the new scale is positive
     * in both modes.
     */
    method RecomputeParams()
      requires Valid()
      modifies this`scale, this`zeroPoint
      ensures Valid() && ParamsCurrent()
      ensures scale > 0.0
      ensures mode == Symmetric ==> zeroPoint == 0
    {
      var p := ComputeParams(mode, minVal, maxVal);
      scale, zeroPoint := p.scale, p.zeroPoint;
    }

    /** Preset "Weights": symmetric, [-3.5, 3.5], input 0.5. */
    method ApplyWeightsPreset()
      requires Valid()
      modifies this`mode, this`minVal, this`maxVal, this`inputValue
      ensures Valid()
      ensures mode == Symmetric && minVal == -3.5 && maxVal == 3.5 && inputValue == 0.5
    {
      mode := Symmetric;
      minVal := -3.5;
      maxVal := 3.5;
      inputValue := 0.5;
    }

    /** Preset "ReLU Activations": asymmetric, [0, 6], input 3.0. */
    method ApplyReluPreset()
      requires Valid()
      modifies this`mode, this`minVal, this`maxVal, this`inputValue
      ensures Valid()
      ensures mode == Asymmetric && minVal == 0.0 && maxVal == 6.0 && inputValue == 3.0
    {
      mode := Asymmetric;
      minVal := 0.0;
      maxVal := 6.0;
      inputValue := 3.0;
    }

    /** The displayed code for the current input: always a valid INT8 code. */
    function Quantized(): (q: int)
      reads this
      requires scale > 0.0
      ensures QMin <= q <= QMax
    {
      Quantize(inputValue, Params(scale, zeroPoint))
    }

    /**
     * The displayed error: the displayed reconstruction minus the input. It is
     * within half a step whenever the input is inside the range; a range
     * slider moved past the input leaves the input outside until the input
     * slider is touched, and then only the clamp bounds the code.
     */
    function Error(): (e: real)
      reads this
      requires Valid() && ParamsCurrent()
      ensures e + inputValue == Dequantize(Quantized(), Params(scale, zeroPoint))
      ensures minVal <= inputValue <= maxVal ==> -scale / 2.0 <= e <= scale / 2.0
    {
      var e := QuantError(inputValue, Params(scale, zeroPoint));
      if minVal <= inputValue <= maxVal then
        (ErrorBoundInRange(mode, minVal, maxVal, inputValue); e)
      else e
    }
  }
}
