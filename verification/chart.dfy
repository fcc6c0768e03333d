/** The function graph the panel draws while it is being configured: svg
    geometry, the two linear scales and the two stroked paths, and the
    drawing surface (the host element) on which each redraw first removes the
    previous svg and then appends a new one. Axes, path strings and the
    rendering itself belong to the charting library and are not modelled;
    only the values the panel hands to it are. */
module Chart {
  import opened Progression

  /** Margins around the plotting area, in pixels. */
  datatype Margin = Margin(top: real, right: real, bottom: real, left: real)

  const GraphMargin: Margin := Margin(10.0, 30.0, 30.0, 60.0)

  /** Inner plotting area: 460 - 60 - 30 wide and 400 - 10 - 30 high. */
  const InnerWidth: real := 460.0 - GraphMargin.left - GraphMargin.right
  const InnerHeight: real := 400.0 - GraphMargin.top - GraphMargin.bottom

  /** A linear scale from the domain [d0, d1] onto the range [r0, r1]. */
  datatype LinearScale = LinearScale(d0: real, d1: real, r0: real, r1: real)
  {
    predicate Degenerate()
    {
      d0 == d1
    }
  }

  /** The pixel coordinate of the value v under the scale sc. A collapsed
      domain is handled inside the charting library and is not modelled. */
  function ScaleAt(sc: LinearScale, v: real): (p: real)
    requires !sc.Degenerate()
    ensures v == sc.d0 ==> p == sc.r0
    ensures v == sc.d1 ==> p == sc.r1
    ensures (p - sc.r0) * (sc.d1 - sc.d0) == (v - sc.d0) * (sc.r1 - sc.r0)
  {
    DivSelf(sc.d1 - sc.d0);
    sc.r0 + (v - sc.d0) / (sc.d1 - sc.d0) * (sc.r1 - sc.r0)
  }

  /** A non-zero real divided by itself is one. */
  lemma DivSelf(d: real)
    requires d != 0.0
    ensures d / d == 1.0
  {
  }

  /** The horizontal scale: [0, 1] onto the inner width. */
  const XScale: LinearScale := LinearScale(0.0, 1.0, 0.0, InnerWidth)

  /** The vertical scale: [0, top] onto the inner height, inverted so that
      larger values are drawn higher up. */
  function YScale(top: real): (sc: LinearScale)
    ensures sc.d0 == 0.0 && sc.d1 == top
    ensures sc.r0 == InnerHeight && sc.r1 == 0.0
    ensures sc.Degenerate() <==> top == 0.0
  {
    LinearScale(0.0, top, InnerHeight, 0.0)
  }

  /** One stroked line of the chart. */
  datatype Path = Path(points: seq<Point>, stroke: string, strokeWidth: real)

  /** One appended svg element: its size, the translation of the plotting
      group, both scales, and the progression curve and identity line. */
  datatype Svg = Svg(width: real, height: real, offsetX: real, offsetY: real,
                     x: LinearScale, y: LinearScale, curve: Path, reference: Path)

  /** The chart drawn for the coefficient pair (a, b). */
  function ChartOf(a: real, b: real): (c: Svg)
    ensures c.width == 460.0 && c.height == 400.0
    ensures c.offsetX == 60.0 && c.offsetY == 10.0
    ensures c.width - c.offsetX - GraphMargin.right == InnerWidth == 370.0
    ensures c.height - c.offsetY - GraphMargin.bottom == InnerHeight == 360.0
    ensures c.curve.points == ProgressionSeries(a, b) && c.reference.points == IdentitySeries()
    ensures c.curve.stroke == "red" && c.reference.stroke == "green"
    ensures c.curve.strokeWidth == c.reference.strokeWidth == 1.5
    ensures c.x == XScale && c.y == YScale(MaxY(c.curve.points))
  {
    var curve := ProgressionSeries(a, b);
    Svg(InnerWidth + GraphMargin.left + GraphMargin.right,
        InnerHeight + GraphMargin.top + GraphMargin.bottom,
        GraphMargin.left, GraphMargin.top,
        XScale, YScale(MaxY(curve)),
        Path(curve, "red", 1.5), Path(IdentitySeries(), "green", 1.5))
  }

  /** The horizontal scale places sample i at 3.7*i pixels, inside [0, 370). */
  lemma XScaleOnSamples(i: nat)
    requires i < SampleCount
    ensures ScaleAt(XScale, SampleX(i)) == 3.7 * i as real
    ensures 0.0 <= ScaleAt(XScale, SampleX(i)) < InnerWidth
  {
  }

  /** For a positive top the vertical scale sends 0 to the bottom edge, top to
      the upper edge, and reverses the order of values. */
  lemma YScaleInverted(top: real, y1: real, y2: real)
    requires top > 0.0
    ensures ScaleAt(YScale(top), 0.0) == InnerHeight && ScaleAt(YScale(top), top) == 0.0
    ensures y1 < y2 ==> ScaleAt(YScale(top), y1) > ScaleAt(YScale(top), y2)
  {
    var sc := YScale(top);
    var slope := (sc.r1 - sc.r0) / (sc.d1 - sc.d0);
    assert slope == -360.0 / top;
    assert slope < 0.0;
    var p1 := ScaleAt(sc, y1);
    var p2 := ScaleAt(sc, y2);
    assert p1 == sc.r0 + y1 * slope;
    assert p2 == sc.r0 + y2 * slope;
    if y1 < y2 {
      var d := y2 - y1;
      assert p1 - p2 == -(d * slope);
      assert d * slope < 0.0 * slope;
    }
  }

  /** The top of the vertical domain follows the gain's sign: the curve's
      value at 0 for a <= 0, at the last sample 0.99 otherwise. The domain
      collapses exactly when that value is 0, as for a = 0, b = 0. */
  lemma YDomainTop(a: real, b: real)
    ensures ChartOf(a, b).y.d1 == if a <= 0.0 then b * (1.0 - a) else 0.99 * a + b * (1.0 - a)
    ensures ChartOf(0.0, 0.0).y.Degenerate()
  {
    MaxProgression(a, b);
    assert SampleX(SampleCount - 1) == 0.99;
    MaxProgression(0.0, 0.0);
    assert ChartOf(0.0, 0.0).y.d1 == MaxY(ProgressionSeries(0.0, 0.0)) == 0.0;
  }

  /** The element hosting the chart: the svgs it currently contains, oldest
      first. */
  type Surface = seq<Svg>

  /** Selecting "svg" under the host and removing it: only the first svg in
      document order is selected, so at most one is removed. */
  function RemoveFirstSvg(s: Surface): (r: Surface)
    ensures |s| > 0 ==> |r| == |s| - 1
    ensures s == [] ==> r == []
    ensures forall i :: 0 <= i < |r| ==> r[i] == s[i + 1]
  {
    if s == [] then [] else s[1..]
  }

  /** The destructive redraw: remove the previous svg, then append exactly one
      chart for the current pair. On a surface holding at most one chart the
      result is that single fresh chart, so no stale chart survives. */
  function Redraw(s: Surface, a: real, b: real): (r: Surface)
    ensures |s| <= 1 ==> r == [ChartOf(a, b)]
    ensures |r| == if s == [] then 1 else |s|
    ensures r[|r| - 1] == ChartOf(a, b)
    ensures forall i :: 0 <= i < |r| - 1 ==> r[i] == s[i + 1]
  {
    RemoveFirstSvg(s) + [ChartOf(a, b)]
  }
}
