/** The arithmetic of the scatterplot: Unity's `Mathf.Clamp01`, `Mathf.Lerp` and
    `Mathf.InverseLerp`, the padded normalisation that places a value on an axis,
    and the values of the evenly spaced axis ticks. */
module PlotMath {

  /** `Mathf.Clamp01`. */
  function Clamp01(v: real): (r: real)
    ensures 0.0 <= r <= 1.0
    ensures 0.0 <= v <= 1.0 ==> r == v
  {
    if v < 0.0 then 0.0 else if v > 1.0 then 1.0 else v
  }

  /** `Mathf.Lerp(a, b, t)`: interpolation with `t` clamped to [0, 1]. */
  function Lerp(a: real, b: real, t: real): (r: real)
    ensures a <= b ==> a <= r <= b
    ensures b <= a ==> b <= r <= a
  {
    var c := Clamp01(t);
    var r := a + (b - a) * c;
    assert (b - a) - (b - a) * c == (b - a) * (1.0 - c);
    assert a <= b ==> a <= r <= b by {
      if a <= b {
        MulNonNeg(b - a, c);
        MulNonNeg(b - a, 1.0 - c);
      }
    }
    assert b <= a ==> b <= r <= a by {
      if b <= a {
        MulNonNeg(a - b, c);
        MulNonNeg(a - b, 1.0 - c);
        assert (a - b) * c == -((b - a) * c);
        assert (a - b) * (1.0 - c) == -((b - a) * (1.0 - c));
      }
    }
    r
  }

  lemma MulNonNeg(a: real, b: real)
    requires a >= 0.0 && b >= 0.0
    ensures a * b >= 0.0
  {
  }

  /** `Mathf.InverseLerp(a, b, v)`: where `v` sits between `a` and `b`, clamped; 0 when `a == b`. */
  function InverseLerp(a: real, b: real, v: real): (t: real)
    ensures 0.0 <= t <= 1.0
  {
    if a != b then Clamp01((v - a) / (b - a)) else 0.0
  }

  /** An interval of an axis's values, [lo, hi]. */
  datatype Interval = Interval(lo: real, hi: real)

  /** The data range [min, max] widened by 5% of its width on each side. */
  function Padded(min: real, max: real): (p: Interval)
    ensures min <= max ==> p.lo <= min && max <= p.hi
    ensures min < max ==> p.lo < min && max < p.hi
  {
    var pad := (max - min) * 0.05;
    Interval(min - pad, max + pad)
  }

  /** `Lerp(0.05, 0.95, InverseLerp(lo, hi, v))`: the fraction of the axis length
      at which the value `v` is drawn, when the axis spans the padded interval [lo, hi]. */
  function Squeeze(v: real, lo: real, hi: real): (f: real)
    ensures 0.05 <= f <= 0.95
  {
    Lerp(0.05, 0.95, InverseLerp(lo, hi, v))
  }

  /** The local offset of fraction `t` along an axis of the given length. */
  function Along(t: real, length: real): real
  {
    t * length
  }

  /** The local coordinate of `v` on an axis of length `size`. */
  function AxisCoordinate(v: real, lo: real, hi: real, size: real): real
  {
    Along(Squeeze(v, lo, hi), size)
  }

  /** Every plotted coordinate stays within 5% of either end of its axis. */
  lemma AxisCoordinateBounds(v: real, lo: real, hi: real, size: real)
    ensures size >= 0.0 ==> 0.05 * size <= AxisCoordinate(v, lo, hi, size) <= 0.95 * size
    ensures size < 0.0 ==> 0.95 * size <= AxisCoordinate(v, lo, hi, size) <= 0.05 * size
  {
    var f := Squeeze(v, lo, hi);
    assert AxisCoordinate(v, lo, hi, size) == f * size;
    if size >= 0.0 {
      MulLeMono(0.05, f, size);
      MulLeMono(f, 0.95, size);
      assert 0.05 * size <= f * size <= 0.95 * size;
    } else {
      MulLeMono(0.05, f, -size);
      MulLeMono(f, 0.95, -size);
      assert 0.95 * size <= f * size <= 0.05 * size;
    }
  }

  lemma MulLeMono(a: real, b: real, k: real)
    requires a <= b && k >= 0.0
    ensures a * k <= b * k
    ensures (-a) * k >= (-b) * k
  {
    assert b * k - a * k == (b - a) * k;
    MulNonNeg(b - a, k);
  }

  /** The plot preserves order: a larger value is never drawn nearer the origin. */
  lemma SqueezeMonotone(v1: real, v2: real, lo: real, hi: real)
    requires lo <= hi && v1 <= v2
    ensures Squeeze(v1, lo, hi) <= Squeeze(v2, lo, hi)
  {
    InverseLerpMonotone(lo, hi, v1, v2);
    LerpMonotone(0.05, 0.95, InverseLerp(lo, hi, v1), InverseLerp(lo, hi, v2));
  }

  lemma InverseLerpMonotone(a: real, b: real, v1: real, v2: real)
    requires a <= b && v1 <= v2
    ensures InverseLerp(a, b, v1) <= InverseLerp(a, b, v2)
  {
    if a != b {
      DivMono(v1 - a, v2 - a, b - a);
    }
  }

  lemma LerpMonotone(a: real, b: real, t1: real, t2: real)
    requires a <= b && t1 <= t2
    ensures Lerp(a, b, t1) <= Lerp(a, b, t2)
  {
    var c1, c2 := Clamp01(t1), Clamp01(t2);
    assert c1 <= c2;
    MulNonNeg(b - a, c2 - c1);
    assert (b - a) * c2 - (b - a) * c1 == (b - a) * (c2 - c1);
  }

  lemma DivMono(a: real, b: real, d: real)
    requires a <= b && d > 0.0
    ensures a / d <= b / d
  {
  }

  /** Distinct values inside the padded range land at distinct coordinates, in the same order. */
  lemma AxisCoordinateStrict(v1: real, v2: real, lo: real, hi: real, size: real)
    requires lo < v1 < v2 < hi && size > 0.0
    ensures AxisCoordinate(v1, lo, hi, size) < AxisCoordinate(v2, lo, hi, size)
  {
    var f1, f2 := Squeeze(v1, lo, hi), Squeeze(v2, lo, hi);
    SqueezeStrict(v1, v2, lo, hi);
    AlongStrict(f1, f2, size);
  }

  lemma AlongStrict(a: real, b: real, k: real)
    requires a < b && k > 0.0
    ensures Along(a, k) < Along(b, k)
  {
    assert (b - a) * k > 0.0;
    assert b * k - a * k == (b - a) * k;
  }

  /** Inside a padded interval nothing is clamped, so two different values of the
      data range are drawn at two different positions. */
  lemma SqueezeStrict(v1: real, v2: real, lo: real, hi: real)
    requires lo < v1 < v2 < hi
    ensures Squeeze(v1, lo, hi) < Squeeze(v2, lo, hi)
  {
    var q1, q2 := (v1 - lo) / (hi - lo), (v2 - lo) / (hi - lo);
    DivStrictBounds(v1 - lo, hi - lo);
    DivStrictBounds(v2 - lo, hi - lo);
    DivStrictMono(v1 - lo, v2 - lo, hi - lo);
    assert InverseLerp(lo, hi, v1) == q1 && InverseLerp(lo, hi, v2) == q2;
    assert Lerp(0.05, 0.95, q1) == 0.05 + 0.9 * q1;
    assert Lerp(0.05, 0.95, q2) == 0.05 + 0.9 * q2;
  }

  lemma DivStrictBounds(a: real, b: real)
    requires 0.0 < a < b
    ensures 0.0 < a / b < 1.0
  {
    var q := a / b;
    assert q * b == a;
    if q >= 1.0 {
      MulLeMono(1.0, q, b);
    }
  }

  lemma DivStrictMono(a: real, b: real, d: real)
    requires a < b && d > 0.0
    ensures a / d < b / d
  {
  }

  /** The parameter `t = i / (sections - 1)` of the `i`-th tick. */
  function TickParameter(i: int, sections: int): (t: real)
    requires sections >= 2 && 0 <= i < sections
    ensures 0.0 <= t <= 1.0
    ensures i == 0 ==> t == 0.0
    ensures i == sections - 1 ==> t == 1.0
  {
    i as real / (sections - 1) as real
  }

  /** The value shown by the `i`-th tick of an axis whose data range is [min, max]. */
  function TickValue(i: int, sections: int, min: real, max: real): real
    requires sections >= 2 && 0 <= i < sections
  {
    Lerp(min, max, TickParameter(i, sections))
  }

  /** The first tick shows the minimum and the last shows the maximum. */
  lemma TickValueEnds(sections: int, min: real, max: real)
    requires sections >= 2
    ensures TickValue(0, sections, min, max) == min
    ensures TickValue(sections - 1, sections, min, max) == max
  {
    assert TickParameter(sections - 1, sections) == 1.0;
  }

  /** Consecutive ticks are evenly spaced: each step adds (max - min) / (sections - 1). */
  lemma TickValueStep(i: int, sections: int, min: real, max: real)
    requires sections >= 2 && 0 <= i < sections - 1
    ensures TickValue(i + 1, sections, min, max) - TickValue(i, sections, min, max)
            == (max - min) / (sections - 1) as real
  {
    var d := (sections - 1) as real;
    assert TickParameter(i + 1, sections) == TickParameter(i, sections) + 1.0 / d;
    calc {
      TickValue(i + 1, sections, min, max) - TickValue(i, sections, min, max);
      (max - min) * (TickParameter(i, sections) + 1.0 / d) - (max - min) * TickParameter(i, sections);
      (max - min) * (1.0 / d);
    }
  }
}
