/** The progression model of the tuning panel: the linear map
    y = a*x + b*(1-a) that previews a coefficient pair, and the two sampled
    series (progression curve and identity line) the chart is drawn from.
    Coefficients and sample points are exact reals; x is generated as i/100. */
module Progression {

  /** One sample of a series. */
  datatype Point = Point(x: real, y: real)

  /** Distance between consecutive sample points. */
  const Step: real := 0.01

  /** Number of sample points in [0, 1) at spacing Step. */
  const SampleCount: nat := 100

  /** The i-th sample abscissa. */
  function SampleX(i: nat): (x: real)
    ensures x == i as real * Step
    ensures i < SampleCount ==> 0.0 <= x < 1.0
  {
    i as real / 100.0
  }

  /** The progression function: a*x + b*(1-a). The curve passes through the
      point (b, b) whatever the gain a, so it meets the identity line exactly
      at x = b, or everywhere when a = 1. */
  function Progress(a: real, b: real, x: real): (y: real)
    ensures y - b == a * (x - b)
    ensures a == 1.0 ==> y == x
    ensures a == 0.0 ==> y == b
    ensures y == x <==> (a == 1.0 || x == b)
  {
    ProductZero(a - 1.0, x - b);
    a * x + b * (1.0 - a)
  }

  /** A product of reals is zero exactly when one factor is. */
  lemma ProductZero(u: real, v: real)
    ensures u * v == 0.0 <==> (u == 0.0 || v == 0.0)
  {
    if u > 0.0 && v > 0.0 {
      assert u * v > 0.0 * v;
    } else if u > 0.0 && v < 0.0 {
      assert u * v < 0.0 * v;
    } else if u < 0.0 && v > 0.0 {
      assert u * v < 0.0 * v;
    } else if u < 0.0 && v < 0.0 {
      assert u * v > 0.0 * v;
    }
  }

  /** Both series have one point per sample abscissa, in order. */
  ghost predicate OnSampleGrid(s: seq<Point>)
  {
    |s| == SampleCount && forall i :: 0 <= i < |s| ==> s[i].x == SampleX(i)
  }

  /** The progression series of the coefficient pair (a, b). */
  function ProgressionSeries(a: real, b: real): (s: seq<Point>)
    ensures OnSampleGrid(s)
    ensures forall i :: 0 <= i < |s| ==> s[i].y - b == a * (s[i].x - b)
  {
    seq(SampleCount, i requires 0 <= i < SampleCount => Point(SampleX(i), Progress(a, b, SampleX(i))))
  }

  /** The identity reference series y = x on the same grid. */
  function IdentitySeries(): (s: seq<Point>)
    ensures OnSampleGrid(s)
    ensures forall i :: 0 <= i < |s| ==> s[i].y == s[i].x
  {
    seq(SampleCount, i requires 0 <= i < SampleCount => Point(SampleX(i), SampleX(i)))
  }

  /** At gain a = 1 the progression series is the identity series. */
  lemma IdentityCoincidence(b: real)
    ensures ProgressionSeries(1.0, b) == IdentitySeries()
  {
  }

  /** At gain a = 0 the progression series is the constant b. */
  lemma ConstantAtZeroGain(b: real)
    ensures forall i :: 0 <= i < SampleCount ==> ProgressionSeries(0.0, b)[i].y == b
  {
  }

  /** Point i of the two series agrees exactly when a = 1 or the sample is at
      the fixed point x = b. */
  lemma SeriesMeetWhere(a: real, b: real, i: nat)
    requires i < SampleCount
    ensures ProgressionSeries(a, b)[i] == IdentitySeries()[i] <==> (a == 1.0 || SampleX(i) == b)
  {
  }

  /** The largest y of a non-empty series, as d3.max computes it: an upper
      bound of every y (that it is attained is MaxYAttained). */
  function MaxY(s: seq<Point>): (m: real)
    requires |s| > 0
    ensures forall i :: 0 <= i < |s| ==> s[i].y <= m
  {
    if |s| == 1 then s[0].y
    else
      var rest := MaxY(s[1..]);
      if s[0].y >= rest then s[0].y else rest
  }

  /** The maximum is the y of some point of the series, so it is the least
      upper bound. */
  lemma {:induction false} MaxYAttained(s: seq<Point>)
    requires |s| > 0
    ensures exists i :: 0 <= i < |s| && s[i].y == MaxY(s)
  {
    if |s| == 1 {
      assert s[0].y == MaxY(s);
    } else {
      MaxYAttained(s[1..]);
      var j :| 0 <= j < |s[1..]| && s[1..][j].y == MaxY(s[1..]);
      if s[0].y >= MaxY(s[1..]) {
        assert s[0].y == MaxY(s);
      } else {
        assert s[j + 1].y == MaxY(s);
      }
    }
  }

  /** With a non-negative gain the curve does not decrease, with a
      non-positive gain it does not increase. */
  lemma ProgressMonotone(a: real, b: real, x1: real, x2: real)
    requires x1 <= x2
    ensures a >= 0.0 ==> Progress(a, b, x1) <= Progress(a, b, x2)
    ensures a <= 0.0 ==> Progress(a, b, x1) >= Progress(a, b, x2)
  {
    var d := x2 - x1;
    assert Progress(a, b, x2) - Progress(a, b, x1) == a * d;
    if a >= 0.0 {
      assert a * d >= 0.0 * d;
    }
    if a <= 0.0 {
      assert a * d <= 0.0 * d;
    }
  }

  /** The top of the chart's vertical domain: the curve's largest sample is at
      x = 0 for a non-positive gain and at the last sample x = 0.99 otherwise. */
  lemma MaxProgression(a: real, b: real)
    ensures MaxY(ProgressionSeries(a, b)) ==
            if a <= 0.0 then Progress(a, b, 0.0) else Progress(a, b, SampleX(SampleCount - 1))
  {
    var s := ProgressionSeries(a, b);
    var e: nat := if a <= 0.0 then 0 else SampleCount - 1;
    var m := MaxY(s);
    assert s[e].y <= m;
    MaxYAttained(s);
    var k :| 0 <= k < |s| && s[k].y == m;
    if a <= 0.0 {
      ProgressMonotone(a, b, 0.0, SampleX(k));
    } else {
      ProgressMonotone(a, b, SampleX(k), SampleX(SampleCount - 1));
    }
  }

  /** Worked values for the panel's default pair a = -0.75, b = 0.5. */
  lemma DefaultPairScenario()
    ensures ProgressionSeries(-0.75, 0.5)[0].y == 0.875
    ensures ProgressionSeries(-0.75, 0.5)[50].y == 0.5
    ensures MaxY(ProgressionSeries(-0.75, 0.5)) == 0.875
  {
    MaxProgression(-0.75, 0.5);
  }
}
