/** What the panel renders for a given state. Before the game starts the page
    shows a prompt, the chart host, both coefficient readouts and sliders and
    the start button; afterwards it mounts the game with the chosen pair and
    shows a link to the session's data page. The key paragraph appears only
    for a key JavaScript treats as truthy. */
module View {
  import opened Wrappers
  import opened PanelState

  /** The game-type label handed to the game, built as "custom-a=" + a +
      "x=" + b; JavaScript's number-to-text formatting is not modelled, so
      the label is kept as the pair it is built from. */
  datatype GameLabel = CustomLabel(a: real, x: real)

  /** The configuration handed to the game when it is mounted. Its
      key-reporting callback is PanelState.HandleStorageKey. */
  datatype GameProps = GameProps(a: real, x: real, gameType: GameLabel)

  /** The left segment: a prompt, or the stage running the game. */
  datatype GamePane = StartPrompt | GameStage(props: GameProps)

  /** A slider widget with its current value and settings. */
  datatype Slider = Slider(value: real, min: real, max: real, step: real)

  /** The lower part of the right segment: while configuring, the chart host,
      the two readouts with their sliders, and the start button; once
      started, a link to the data page. */
  datatype Controls =
    | Configure(aReadout: real, aSlider: Slider, bReadout: real, bSlider: Slider)
    | DataLink(to: string)

  datatype Page = Page(game: GamePane, gameType: string, keyLine: Option<string>, controls: Controls)

  /** How JavaScript turns the key into text: an absent key reads "undefined". */
  function KeyText(key: Option<string>): (t: string)
    ensures key.Some? ==> t == key.value
  {
    match key
    case None => "undefined"
    case Some(k) => k
  }

  /** A key is truthy when it is present and not the empty string. */
  predicate Truthy(key: Option<string>)
  {
    key.Some? && key.value != ""
  }

  /** The data page of a session. */
  function DataPath(key: Option<string>): (path: string)
    ensures |path| == 6 + |KeyText(key)|
    ensures path[..6] == "/data/" && path[6..] == KeyText(key)
  {
    "/data/" + KeyText(key)
  }

  function SliderFor(value: real): Slider
  {
    Slider(value, SliderMin, SliderMax, SliderStep)
  }

  /** The rendered page of state s. */
  function Render(s: State): (p: Page)
    ensures p.game.GameStage? <==> s.gameStart
    ensures p.controls.Configure? <==> !s.gameStart
    ensures p.game.GameStage? ==> p.game.props.a == s.a && p.game.props.x == s.b
    ensures p.game.GameStage? ==> p.game.props.gameType == CustomLabel(s.a, s.b)
    ensures p.controls.Configure? ==>
              && p.controls.aReadout == s.a && p.controls.bReadout == s.b
              && p.controls.aSlider.value == s.a && p.controls.bSlider.value == s.b
              && p.controls.aSlider.min == p.controls.bSlider.min == -2.0
              && p.controls.aSlider.max == p.controls.bSlider.max == 2.0
              && p.controls.aSlider.step == p.controls.bSlider.step == 0.001
    ensures p.controls.DataLink? ==> p.controls.to == DataPath(s.key)
    ensures p.keyLine.Some? <==> Truthy(s.key)
    ensures p.keyLine.Some? ==> p.keyLine == s.key
    ensures p.gameType == s.gameType
  {
    var game := if s.gameStart then GameStage(GameProps(s.a, s.b, CustomLabel(s.a, s.b))) else StartPrompt;
    var keyLine := if Truthy(s.key) then s.key else None;
    var controls := if !s.gameStart then Configure(s.a, SliderFor(s.a), s.b, SliderFor(s.b))
                    else DataLink(DataPath(s.key));
    Page(game, s.gameType, keyLine, controls)
  }

  /** Distinct reported keys lead to distinct data pages. */
  lemma DataPathInjective(k1: string, k2: string)
    requires k1 != k2
    ensures DataPath(Some(k1)) != DataPath(Some(k2))
  {
    assert DataPath(Some(k1))[6..] == k1;
    assert DataPath(Some(k2))[6..] == k2;
  }

  /** Before a key is reported the link already shows, pointing at
      "/data/undefined"; a key literally named "undefined" is indistinguishable. */
  lemma LinkBeforeKey(s: State)
    requires s.gameStart && s.key.None?
    ensures Render(s).controls == DataLink("/data/undefined")
    ensures Render(s).controls == Render(s.(key := Some("undefined"))).controls
    ensures Render(s).keyLine.None?
  {
  }
}
