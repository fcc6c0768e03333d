/** The tuning panel's state record and the merges applied to it. Each
    transition is a partial update: only the field it names changes. */
module PanelState {
  import opened Wrappers

  /** Bounds and granularity of both coefficient sliders. */
  const SliderMin: real := -2.0
  const SliderMax: real := 2.0
  const SliderStep: real := 0.001

  /** Default coefficient pair of a fresh panel. */
  const DefaultA: real := -0.75
  const DefaultB: real := 0.5

  /** The component state: gain a, fixed point b, the route's game type, the
      never-changing runGame flag, whether the game has been started, and the
      session key the game last reported (absent until it reports one). */
  datatype State = State(a: real, b: real, gameType: string, runGame: bool,
                         gameStart: bool, key: Option<string>)

  /** Both coefficients lie within the slider range. */
  predicate InSliderRange(v: real)
  {
    SliderMin <= v <= SliderMax
  }

  predicate Bounded(s: State)
  {
    InSliderRange(s.a) && InSliderRange(s.b)
  }

  /** The state built by the constructor, with the game type taken from the
      route parameter. */
  function Init(gameType: string): (s: State)
    ensures s.a == -0.75 && s.b == 0.5
    ensures s.gameType == gameType && s.runGame && !s.gameStart && s.key.None?
    ensures Bounded(s)
  {
    State(DefaultA, DefaultB, gameType, true, false, None)
  }

  /** The a-slider's change handler: sets a, leaves every other field alone. */
  function SetA(s: State, value: real): (r: State)
    requires InSliderRange(value)
    ensures r.a == value && r.b == s.b
    ensures r.gameType == s.gameType && r.runGame == s.runGame
    ensures r.gameStart == s.gameStart && r.key == s.key
    ensures Bounded(s) ==> Bounded(r)
  {
    s.(a := value)
  }

  /** The b-slider's change handler: sets b, leaves every other field alone. */
  function SetB(s: State, value: real): (r: State)
    requires InSliderRange(value)
    ensures r.b == value && r.a == s.a
    ensures r.gameType == s.gameType && r.runGame == s.runGame
    ensures r.gameStart == s.gameStart && r.key == s.key
    ensures Bounded(s) ==> Bounded(r)
  {
    s.(b := value)
  }

  /** Starting the game (the button handler delegates to this): marks the
      game as started and keeps the coefficients and the key. */
  function InitializeGame(s: State): (r: State)
    ensures r.gameStart
    ensures r.a == s.a && r.b == s.b && r.key == s.key
    ensures r.gameType == s.gameType && r.runGame == s.runGame
  {
    s.(gameStart := true)
  }

  /** The callback the game uses to report its storage key: stores it,
      replacing any earlier key, and changes nothing else. */
  function HandleStorageKey(s: State, k: string): (r: State)
    ensures r.key == Some(k)
    ensures r.a == s.a && r.b == s.b && r.gameStart == s.gameStart
    ensures r.gameType == s.gameType && r.runGame == s.runGame
  {
    s.(key := Some(k))
  }

  /** Starting twice is the same as starting once. */
  lemma StartIdempotent(s: State)
    ensures InitializeGame(InitializeGame(s)) == InitializeGame(s)
  {
  }

  /** A started state is a fixed point of InitializeGame. */
  lemma StartWhenStartedIsNoOp(s: State)
    requires s.gameStart
    ensures InitializeGame(s) == s
  {
  }

  /** Later slider values overwrite earlier ones. */
  lemma SliderLastWriteWins(s: State, v: real, w: real)
    requires InSliderRange(v) && InSliderRange(w)
    ensures SetA(SetA(s, v), w) == SetA(s, w)
    ensures SetB(SetB(s, v), w) == SetB(s, w)
  {
  }

  /** The two sliders act on independent fields. */
  lemma SlidersCommute(s: State, v: real, w: real)
    requires InSliderRange(v) && InSliderRange(w)
    ensures SetA(SetB(s, w), v) == SetB(SetA(s, v), w)
  {
  }

  /** A later key report replaces an earlier one. */
  lemma StorageKeyOverwrites(s: State, k1: string, k2: string)
    ensures HandleStorageKey(HandleStorageKey(s, k1), k2) == HandleStorageKey(s, k2)
  {
  }
}
