# Parameter-tuning panel: progression model, chart and session lifecycle

This project models the developer panel of a sensorimotor game
(`src/components/dev/DevPage.js`). The panel lets an operator choose a gain
`a` and a fixed point `b`, previews the progression function
`y = a*x + b*(1-a)` as a curve drawn against the identity line `y = x`, and
then starts the game with the chosen pair. When the game reports its storage
key, the panel shows the key and links to the session's data page
`/data/<key>`.

Modules, one per concern of the component:

- `Progression` (`progression.dfy`): the progression function, the sample grid
  `x_i = i/100` for `i = 0..99`, the progression and identity series, and the
  series maximum that `d3.max` computes.
- `Chart` (`chart.dfy`): the svg geometry (460×400 with a 370×360 inner area),
  the linear scales, the chart drawn for a pair, and the chart host. A redraw
  on the host removes the first svg and then appends one new chart.
- `PanelState` (`panel_state.dfy`): the state record, its initial value, and
  the `setState` merges. These are the two slider handlers, starting the game
  and the key callback.
- `View` (`view.dfy`): the page rendered for a state.
- `Panel` (`panel.dfy`): the component as a whole. It covers mounting, one
  event (a merge, then the update hook's redraw), event sequences allowed by
  the rendered page, and the graph-drawing loop as a method.
- `Wrappers` (`wrappers.dfy`): `Option`, used for the optional key.

Modelling choices:

- Numbers are exact `real`s. The source's loop `for (i = 0; i < 1; i += 0.01)`
  is kept, with exact addition of `0.01` and a counter that shows it runs 100
  times.
- The argument passed to `drawFunctionGraph` is ignored, as in the source
  (line 53 redeclares it). The chart always comes from the state's current `a`
  and `b`.
- `d3.select(...).select("svg").remove()` selects only the first svg, so
  `RemoveFirstSvg` removes at most one.
- Once the game starts, the chart host `div` is no longer rendered, so the
  update hook selects nothing and draws nothing. This is modelled as the host
  becoming `None`.
- JavaScript's string conversion is kept where it matters. An absent key
  turns the link into `/data/undefined`, and an empty key is falsy, so the key
  paragraph stays hidden.
- The slider range `[-2, 2]` is a precondition on the slider handlers and on
  the slider events. It is not a clamp.
- The data link is rendered as soon as the game starts, and points at
  `/data/undefined` until a key arrives (`View.LinkBeforeKey`,
  `Panel.StartHandsOffPair`).

## Model

| member | source | states |
|---|---|---|
| Progression.SampleX | src/components/dev/DevPage.js:55-56 | sample i is i·0.01 and lies in [0, 1) for the 100 samples |
| Progression.Progress | src/components/dev/DevPage.js:43-45 | the curve passes through (b, b): y − b = a(x − b); it equals x at a = 1, is the constant b at a = 0, and meets the identity exactly when a = 1 or x = b |
| Progression.ProgressionSeries | src/components/dev/DevPage.js:53-60 | 100 points on the grid x_i = i/100, each with y − b = a(x − b) |
| Progression.IdentitySeries | src/components/dev/DevPage.js:61-64 | 100 points on the same grid with y = x |
| Progression.IdentityCoincidence | src/components/dev/DevPage.js:53-65 | at a = 1 the progression series equals the identity series |
| Progression.ConstantAtZeroGain | src/components/dev/DevPage.js:43-45 | at a = 0 every progression sample is b |
| Progression.SeriesMeetWhere | src/components/dev/DevPage.js:53-65 | point i of the two series coincides iff a = 1 or x_i = b |
| Progression.MaxY | src/components/dev/DevPage.js:76-78 | the result is at least every y of the series |
| Progression.MaxYAttained | src/components/dev/DevPage.js:76-78 | the maximum equals the y of some point of the series |
| Progression.ProgressMonotone | src/components/dev/DevPage.js:43-45 | the curve is non-decreasing in x for a ≥ 0 and non-increasing for a ≤ 0 |
| Progression.MaxProgression | src/components/dev/DevPage.js:72-79 | the series maximum is the value at x = 0 when a ≤ 0 and at x = 0.99 when a > 0 |
| Progression.DefaultPairScenario | src/components/dev/DevPage.js:17-18 | for a = −0.75, b = 0.5: y_0 = 0.875, y_50 = 0.5, and the maximum is 0.875 |
| Chart.ScaleAt | src/components/dev/DevPage.js:67-80 | a non-degenerate linear scale sends the domain ends to the range ends and is affine in between |
| Chart.YScale | src/components/dev/DevPage.js:72-80 | the vertical scale maps the domain [0, top] onto the range [360, 0]; it collapses iff top is 0 |
| Chart.ChartOf | src/components/dev/DevPage.js:47-132 | the svg is 460×400, its plot group offset by (60, 10), with a 370×360 inner area; the progression series is stroked red and the identity series green, both 1.5 wide; x maps [0,1] to [0,370], y maps [0, max y] to [360,0] |
| Chart.XScaleOnSamples | src/components/dev/DevPage.js:67-70 | sample i is drawn at 3.7·i pixels, inside [0, 370) |
| Chart.YScaleInverted | src/components/dev/DevPage.js:72-80 | for a positive top, 0 maps to 360, top maps to 0, and larger values map to smaller pixel rows |
| Chart.YDomainTop | src/components/dev/DevPage.js:74-79 | the domain top is b(1−a) for a ≤ 0 and 0.99a + b(1−a) otherwise; for a = b = 0 the domain collapses |
| Chart.RemoveFirstSvg | src/components/dev/DevPage.js:37-39 | removes exactly the first svg when there is one, keeping the rest in order |
| Chart.Redraw | src/components/dev/DevPage.js:36-41 | on a host with at most one svg the result is exactly one chart of the current pair; otherwise the first svg is removed, the rest keep their order, and the new chart is appended last |
| PanelState.Init | src/components/dev/DevPage.js:16-26 | a = −0.75, b = 0.5, runGame set, not started, no key, game type from the route |
| PanelState.SetA | src/components/dev/DevPage.js:161-165 | sets a to the slider value and leaves every other field unchanged; keeps the pair in range |
| PanelState.SetB | src/components/dev/DevPage.js:173-177 | sets b to the slider value and leaves every other field unchanged; keeps the pair in range |
| PanelState.InitializeGame | src/components/dev/DevPage.js:147-151 | sets gameStart and leaves a, b, key and the rest unchanged |
| PanelState.HandleStorageKey | src/components/dev/DevPage.js:140-145 | stores the reported key, replacing any earlier one, and changes nothing else |
| PanelState.StartIdempotent | src/components/dev/DevPage.js:135-151 | starting twice equals starting once |
| PanelState.StartWhenStartedIsNoOp | src/components/dev/DevPage.js:147-151 | starting an already started state leaves it unchanged |
| PanelState.SliderLastWriteWins | src/components/dev/DevPage.js:156-178 | two moves of the same slider leave only the last value |
| PanelState.SlidersCommute | src/components/dev/DevPage.js:156-178 | the two sliders update independent fields, so their order does not matter |
| PanelState.StorageKeyOverwrites | src/components/dev/DevPage.js:140-145 | a second key report replaces the first |
| View.KeyText | src/components/dev/DevPage.js:255 | a present key is rendered as itself |
| View.DataPath | src/components/dev/DevPage.js:255 | the link is "/data/" followed by the key's text |
| View.Render | src/components/dev/DevPage.js:189-256 | the game is mounted iff started, with a = state.a and x = state.b; the game label is built from a and b; otherwise the readouts and sliders show a and b, the sliders over [−2, 2] with step 0.001; once started the link targets the data path; the key line is shown iff the key is truthy |
| View.DataPathInjective | src/components/dev/DevPage.js:255 | distinct reported keys give distinct data links |
| View.LinkBeforeKey | src/components/dev/DevPage.js:228-256 | before any key the link targets "/data/undefined", the same as for a key named "undefined", and no key line is shown |
| Panel.Transition | src/components/dev/DevPage.js:135-177 | a slider move sets its own coefficient, start sets gameStart, a key report sets the key, each keeping the other fields; no event clears gameStart; game type and runGame never change; the key changes only by a key report; the pair stays in range |
| Panel.Mount | src/components/dev/DevPage.js:13-34 | a mounted panel is in its initial state with exactly one chart, the default pair's, and satisfies the panel invariant |
| Panel.Dispatch | src/components/dev/DevPage.js:36-41 | the new state is the event's merge; an event the page offers preserves the invariant (host present iff configuring, holding exactly the current chart; key only once started); a started panel has no chart host |
| Panel.Available | src/components/dev/DevPage.js:189-256 | sliders and start are deliverable only while configuring (slider values in [−2, 2]), the key callback only through the mounted game |
| Panel.Run | src/components/dev/DevPage.js:135-177 | an allowed sequence keeps the game type and never clears gameStart |
| Panel.SliderRedraws | src/components/dev/DevPage.js:161-177 | moving either slider on a configuring panel leaves exactly one chart, that of the new pair |
| Panel.RunPreservesInv | src/components/dev/DevPage.js:36-41 | every event sequence the page allows preserves the panel invariant |
| Panel.ReachableShowsCurrentChart | src/components/dev/DevPage.js:32-41 | from mounting on, a configuring panel shows exactly one chart, that of its current pair |
| Panel.StartedStaysFrozen | src/components/dev/DevPage.js:189-204 | after the start, any allowed sequence keeps the panel started with the same a, b and game configuration |
| Panel.StartHandsOffPair | src/components/dev/DevPage.js:189-204 | from a configuring panel with no key, start mounts the game with the pair chosen at that moment, drops the chart host, and shows the link to "/data/undefined" |
| Panel.ReportedKeyIsShown | src/components/dev/DevPage.js:140-145 | in a started panel a reported key k becomes the link "/data/" + k and is shown unless empty, with the game configuration unchanged |
| Panel.StartThenReport | src/components/dev/DevPage.js:135-151 | from any configuring panel, start followed by a key report k is allowed and ends with the link "/data/" + k |
| Panel.SessionKeyScenario | src/components/dev/DevPage.js:228-256 | after mounting, start followed by a key report k (say "abc123") gives the link "/data/" + k |
| Panel.DrawFunctionGraph | src/components/dev/DevPage.js:47-89 | the drawing loop produces exactly the chart of the state's current pair, with 100 points per series, whatever argument it is passed |

## Left out

- Chart.ScaleAt: a linear scale whose domain collapses is not modelled. For `a = b = 0` the domain is [0, 0]. What the charting library does there is not part of this model. The model only shows that the domain collapses (`Chart.YDomainTop`).
- Axes, path strings, svg construction and colours as rendered output are library calls. Only the values passed to them are modelled.
- The game stage and the game itself are not modelled. They are external collaborators, and only the props handed to them are kept. The window-derived stage size (lines 9-10) is environment and is omitted from those props.
- The game-type label `'custom-a=' + a + 'x=' + b` and the `toFixed(2)` readouts are JavaScript number formatting. The label is kept as the pair it is built from (`View.CustomLabel`), and the readouts as the raw reals.
- The slider widget's own clamping and 0.001 stepping are not modelled. Slider values are only required to lie in [-2, 2].
- React mechanics are left out: rendering, reconciliation, `preventDefault`, refs and layout. Every merge is followed by one update-hook run.
- IEEE-754 rounding of `i += 0.01` and of the progression arithmetic is left out. Arithmetic is exact over the reals.
- The `console.log` of the key is output only.
