/** The panel component as a whole: its state together with the chart host
    element, mounting, and the handling of one user or game event. Every
    event is a state merge followed by the component's update hook, which
    removes the previous svg from the chart host and draws a new chart. Once
    the game has started the host element is no longer rendered, so the
    hook's selection is empty and nothing is drawn. */
module Panel {
  import opened Wrappers
  import opened Progression
  import opened Chart
  import opened PanelState
  import opened View

  /** The inputs the panel reacts to: the two sliders, the start button, and
      the game's key-reporting callback. */
  datatype Event = SlideA(value: real) | SlideB(value: real) | Start | StorageKey(key: string)

  /** The component: its state, and the chart host's contents while the host
      element is on the page (None once it has been unmounted). */
  datatype Panel = Panel(state: State, host: Option<Surface>)

  /** A slider only produces values inside its range. */
  predicate WellFormed(e: Event)
  {
    match e
    case SlideA(v) => InSliderRange(v)
    case SlideB(v) => InSliderRange(v)
    case _ => true
  }

  /** Whether the rendered page can deliver the event: sliders and the start
      button exist only while configuring; the key callback is reachable
      only through the mounted game. */
  predicate Available(s: State, e: Event): (ok: bool)
    ensures ok ==> WellFormed(e)
    ensures ok ==> (e.StorageKey? <==> s.gameStart)
    ensures !s.gameStart && WellFormed(e) ==> (ok <==> !e.StorageKey?)
  {
    match e
    case SlideA(v) => Render(s).controls.Configure? && InSliderRange(v)
    case SlideB(v) => Render(s).controls.Configure? && InSliderRange(v)
    case Start => Render(s).controls.Configure?
    case StorageKey(_) => Render(s).game.GameStage?
  }

  /** The state merge an event performs. No event clears gameStart, and the
      route's game type and the runGame flag never change. */
  function Transition(s: State, e: Event): (r: State)
    requires WellFormed(e)
    ensures e.SlideA? ==> r.a == e.value && r.b == s.b && r.gameStart == s.gameStart && r.key == s.key
    ensures e.SlideB? ==> r.b == e.value && r.a == s.a && r.gameStart == s.gameStart && r.key == s.key
    ensures e.Start? ==> r.gameStart && r.a == s.a && r.b == s.b && r.key == s.key
    ensures e.StorageKey? ==> r.key == Some(e.key) && r.a == s.a && r.b == s.b && r.gameStart == s.gameStart
    ensures s.gameStart ==> r.gameStart
    ensures r.gameType == s.gameType && r.runGame == s.runGame
    ensures r.key == s.key || (e.StorageKey? && r.key == Some(e.key))
    ensures Bounded(s) ==> Bounded(r)
  {
    match e
    case SlideA(v) => SetA(s, v)
    case SlideB(v) => SetB(s, v)
    case Start => InitializeGame(s)
    case StorageKey(k) => HandleStorageKey(s, k)
  }

  /** Panel invariant: coefficients in range; the chart host is on the page
      exactly while configuring and then holds exactly one chart, the one of
      the current pair; a key is only ever held by a started game. */
  ghost predicate Inv(p: Panel)
  {
    && Bounded(p.state)
    && p.state.runGame
    && (p.host.Some? <==> !p.state.gameStart)
    && (p.host.Some? ==> p.host.value == [ChartOf(p.state.a, p.state.b)])
    && (p.state.key.Some? ==> p.state.gameStart)
  }

  /** Construction followed by the first render and the mount hook, which
      draws onto the freshly created, empty host. */
  function Mount(gameType: string): (p: Panel)
    ensures p.state == Init(gameType)
    ensures p.host == Some([ChartOf(-0.75, 0.5)])
    ensures Inv(p)
  {
    var s := Init(gameType);
    Panel(s, Some([ChartOf(s.a, s.b)]))
  }

  /** The contents of the host, or a fresh empty one. */
  function Contents(host: Option<Surface>): Surface
  {
    match host
    case None => []
    case Some(svgs) => svgs
  }

  /** One event: merge the state, re-render, then run the update hook, which
      redraws when the host is on the page. */
  function Dispatch(p: Panel, e: Event): (r: Panel)
    requires WellFormed(e)
    ensures r.state == Transition(p.state, e)
    ensures Inv(p) && Available(p.state, e) ==> Inv(r)
    ensures r.state.gameStart ==> r.host.None?
  {
    var s := Transition(p.state, e);
    var host := if Render(s).controls.Configure? then Some(Redraw(Contents(p.host), s.a, s.b)) else None;
    Panel(s, host)
  }

  /** A sequence of events, or None if some event is not available on the
      page at its turn. */
  function Run(p: Panel, es: seq<Event>): (r: Option<Panel>)
    ensures r.Some? ==> r.value.state.gameType == p.state.gameType
    ensures r.Some? && p.state.gameStart ==> r.value.state.gameStart
    decreases |es|
  {
    if es == [] then Some(p)
    else if Available(p.state, es[0]) then Run(Dispatch(p, es[0]), es[1..])
    else None
  }

  /** Every event sequence the page allows keeps the invariant. */
  lemma {:induction false} RunPreservesInv(p: Panel, es: seq<Event>)
    requires Inv(p)
    ensures Run(p, es).Some? ==> Inv(Run(p, es).value)
    decreases |es|
  {
    if es != [] && Available(p.state, es[0]) {
      RunPreservesInv(Dispatch(p, es[0]), es[1..]);
    }
  }

  /** From mounting on, whenever the panel is configuring its host shows
      exactly the chart of the current pair: no stale chart is ever shown. */
  lemma ReachableShowsCurrentChart(gameType: string, es: seq<Event>)
    ensures Run(Mount(gameType), es).Some? ==>
              var q := Run(Mount(gameType), es).value;
              && Inv(q)
              && (!q.state.gameStart ==> q.host == Some([ChartOf(q.state.a, q.state.b)]))
  {
    RunPreservesInv(Mount(gameType), es);
  }

  /** Moving either slider on a configuring panel redraws the host with
      exactly one chart, that of the new pair. */
  lemma SliderRedraws(p: Panel, v: real)
    requires Inv(p) && !p.state.gameStart && InSliderRange(v)
    ensures Dispatch(p, SlideA(v)).host == Some([ChartOf(v, p.state.b)])
    ensures Dispatch(p, SlideB(v)).host == Some([ChartOf(p.state.a, v)])
  {
  }

  /** Once started, the panel stays started and its configuration is frozen:
      the game's props, a and b never change again. */
  lemma {:induction false} StartedStaysFrozen(p: Panel, es: seq<Event>)
    requires p.state.gameStart
    ensures Run(p, es).Some? ==>
              var q := Run(p, es).value;
              && q.state.gameStart
              && q.state.a == p.state.a && q.state.b == p.state.b
              && Render(q.state).game == Render(p.state).game
    decreases |es|
  {
    if es != [] && Available(p.state, es[0]) {
      StartedStaysFrozen(Dispatch(p, es[0]), es[1..]);
    }
  }

  /** Pressing start mounts the game with the pair chosen at that moment,
      removes the chart host, and shows the data link. */
  lemma StartHandsOffPair(p: Panel)
    requires !p.state.gameStart && p.state.key.None?
    ensures var q := Dispatch(p, Start);
            && Render(q.state).game == GameStage(GameProps(p.state.a, p.state.b, CustomLabel(p.state.a, p.state.b)))
            && q.host.None?
            && Render(q.state).controls == DataLink("/data/undefined")
  {
    LinkBeforeKey(Dispatch(p, Start).state);
  }

  /** A key reported by the running game becomes the data link's target and,
      unless empty, is shown; the running game's configuration is untouched. */
  lemma ReportedKeyIsShown(p: Panel, k: string)
    requires Inv(p) && p.state.gameStart
    ensures var q := Dispatch(p, StorageKey(k));
            && Render(q.state).controls == DataLink("/data/" + k)
            && (Render(q.state).keyLine == if k == "" then None else Some(k))
            && Render(q.state).game == Render(p.state).game
  {
  }

  /** Running a non-empty sequence whose first event the page offers is
      that event followed by the rest. */
  lemma RunCons(p: Panel, e: Event, rest: seq<Event>)
    requires Available(p.state, e)
    ensures Run(p, [e] + rest) == Run(Dispatch(p, e), rest)
  {
    assert ([e] + rest)[1..] == rest;
  }

  /** From any configuring panel, start followed by the key report k is
      allowed and ends with the link to k's data page. */
  lemma StartThenReport(p: Panel, k: string)
    requires !p.state.gameStart
    ensures Run(p, [Start, StorageKey(k)]).Some?
    ensures Render(Run(p, [Start, StorageKey(k)]).value.state).controls == DataLink("/data/" + k)
  {
    var p1 := Dispatch(p, Start);
    assert p1.state.gameStart;
    RunCons(p, Start, [StorageKey(k)]);
    assert [Start] + [StorageKey(k)] == [Start, StorageKey(k)];
    RunCons(p1, StorageKey(k), []);
    assert [StorageKey(k)] + [] == [StorageKey(k)];
  }

  /** After mounting, start followed by the key report k (for instance
      "abc123") ends with the link to "/data/" + k. */
  lemma SessionKeyScenario(gameType: string, k: string)
    ensures Run(Mount(gameType), [Start, StorageKey(k)]).Some?
    ensures Render(Run(Mount(gameType), [Start, StorageKey(k)]).value.state).controls
            == DataLink("/data/" + k)
  {
    StartThenReport(Mount(gameType), k);
  }

  /** The graph-drawing routine: sample x from 0 while x < 1 in steps of
      0.01, collecting the progression and identity points, then build the
      scales and paths. The argument is ignored: the series is recomputed
      from the state's current a and b. */
  method DrawFunctionGraph(s: State, data: real) returns (c: Svg)
    ensures c == ChartOf(s.a, s.b)
    ensures |c.curve.points| == |c.reference.points| == 100
  {
    var curve: seq<Point> := [];
    var line: seq<Point> := [];
    var x: real := 0.0;
    var n: nat := 0;
    while x < 1.0
      invariant n <= SampleCount && x == SampleX(n)
      invariant |curve| == n && |line| == n
      invariant forall j :: 0 <= j < n ==> curve[j] == Point(SampleX(j), Progress(s.a, s.b, SampleX(j)))
      invariant forall j :: 0 <= j < n ==> line[j] == Point(SampleX(j), SampleX(j))
      decreases SampleCount - n
    {
      curve := curve + [Point(x, Progress(s.a, s.b, x))];
      line := line + [Point(x, x)];
      x := x + Step;
      n := n + 1;
    }
    assert curve == ProgressionSeries(s.a, s.b);
    assert line == IdentitySeries();
    var width := InnerWidth;
    var height := InnerHeight;
    c := Svg(width + GraphMargin.left + GraphMargin.right,
             height + GraphMargin.top + GraphMargin.bottom,
             GraphMargin.left, GraphMargin.top,
             LinearScale(0.0, 1.0, 0.0, width),
             LinearScale(0.0, MaxY(curve), height, 0.0),
             Path(curve, "red", 1.5), Path(line, "green", 1.5));
  }
}
