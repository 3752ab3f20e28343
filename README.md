# DALY Master: the view controller and the slide display rules

DALY Master is a single-page React application. It asks a generative model
for a slide presentation about the burden of low back pain, then shows the
slides one at a time with navigation, thumbnails and a fullscreen mode. This
project models and proves the two pieces of sequential logic in it:

- **The view state machine of `App.tsx`** (`app.dfy`, module `App`). Its five
  state variables (`status`, `data`, `currentIndex`, `error`,
  `isFullscreen`) form a `ViewState`. Each handler is a function from the
  state before to the state after: `Begin` and `Complete` are the two halves
  of `startGeneration` around its `await`; then `Next`, `Prev`, `Select` (a
  thumbnail click), `OnKey` and `Toggle`. The class `App.Controller` is the
  component itself. Its fields are the state variables and its methods are the
  handlers, each proved to produce exactly the state its function describes.
  `Inv` is the invariant every reachable state keeps:
  - the index is never negative and, unless it is 0, points into the loaded slides;
  - VIEWING implies a presentation is loaded;
  - the error message is set exactly in ERROR, and it is the fixed message.

  `Enabled`, `Step` and `Run` describe which events the screen lets happen,
  which buttons are on screen, and whole sessions. The method `App.Session`
  is a usage example, not part of the component. It drives a `Controller`
  through a failure, a retry and some navigation, and asserts the states the
  handlers' contracts promise along the way.
- **The display rules of `components/SlideRenderer.tsx`** (`slide_renderer.dfy`,
  module `SlideRenderer`). They decide:
  - whether a chart is drawn, and which kind;
  - whether the bar chart gets a second series;
  - each pie sector's colour;
  - whether the placeholder image appears, and at which URL;
  - which text blocks appear.

  A slide is mapped to an abstract `SlideView`.
- **The data model of `types.ts`** (`types.dfy`, module `Types`): `SlideContent`,
  `PresentationData`, `AppStatus` and the `chartType` literals. Optional fields
  are `Option` values, and JavaScript truthiness is spelled out: an absent
  field, `""` and `0` are all falsy.

## Model

| member | source | states |
|---|---|---|
| `Types.ParseChartType` | types.ts:8 | the declared `chartType` union holds exactly the four literals 'bar', 'pie', 'line' and 'none', each naming one type (a statement of the declaration; the program never checks the string) |
| `Types.ChartTypeRoundTrip` | types.ts:8 | every chart type's literal reads back as that type |
| `Types.ParseStatus` | types.ts:17-22 | `AppStatus` has exactly four members, with string values IDLE, GENERATING, VIEWING and ERROR |
| `Types.StatusRoundTrip` | types.ts:17-22 | every status's string value reads back as that status |
| `SlideRenderer.HasSecondSeries` | components/SlideRenderer.tsx:31 | the bar chart gets a second series iff there is a first record and its `secondary` is present and non-zero |
| `SlideRenderer.SecondSeriesReadsFirstRecordOnly` | components/SlideRenderer.tsx:31 | two record lists with the same first record agree on the second series: later records are never consulted |
| `SlideRenderer.SecondSeriesMissedWhenFirstLacksIt` | components/SlideRenderer.tsx:31 | a truthy `secondary` on the second record does not add the series when the first record has none |
| `SlideRenderer.SectorColor` | components/SlideRenderer.tsx:54 | every sector colour is taken from the five-colour palette |
| `SlideRenderer.SectorColors` | components/SlideRenderer.tsx:53-55 | one colour per record, sector `i` getting palette entry `i mod 5` |
| `SlideRenderer.SectorColorPeriodic` | components/SlideRenderer.tsx:54 | sector colours repeat with period five |
| `SlideRenderer.NeighbourSectorsDiffer` | components/SlideRenderer.tsx:9 | neighbouring pie sectors never share a colour; in a pie of at most five sectors the first and last differ too |
| `SlideRenderer.RenderChart` | components/SlideRenderer.tsx:16-60 | no chart iff `chartData` is absent or `chartType` is 'none'; otherwise, over the four declared literals, bar iff 'bar', line iff 'line', pie iff 'pie' or absent; the records are passed unchanged; bar's second series and pie's colours as above |
| `SlideRenderer.EmptyDataStillDrawsChart` | components/SlideRenderer.tsx:17 | a present but empty `chartData` still draws a chart, with no records |
| `SlideRenderer.AbsentTypeDrawsPie` | components/SlideRenderer.tsx:41-59 | an absent `chartType` with data present draws a pie |
| `SlideRenderer.SeedRoundTrip` | components/SlideRenderer.tsx:93 | the slide id is read back unchanged from its placeholder image URL |
| `SlideRenderer.PicsumUrlInjective` | components/SlideRenderer.tsx:93 | slides with different ids get different image URLs |
| `SlideRenderer.ImageUrl` | components/SlideRenderer.tsx:90-93 | the placeholder image is shown iff `imagePrompt` is non-empty and `chartData` is absent, and its URL is keyed by the slide id |
| `SlideRenderer.ShownText` | components/SlideRenderer.tsx:72-74 | an optional text block is shown iff it is present and non-empty, and then it is shown unchanged |
| `SlideRenderer.Render` | components/SlideRenderer.tsx:66-109 | the title is always shown; subtitle and footer only when non-empty; the bullets are shown one per item, in order; the chart and the image are never both shown |
| `SlideRenderer.NoneTypeWithDataShowsNothing` | components/SlideRenderer.tsx:89-90 | 'none' with data present shows neither a chart nor the image |
| `SlideRenderer.BarScenario` | components/SlideRenderer.tsx:22-31 | a bar slide with two records lacking `secondary` draws one bar series of two categories |
| `SlideRenderer.ImageScenario` | components/SlideRenderer.tsx:90-93 | a 'none' slide with an image prompt and no data shows the image for its id, and no chart |
| `App.IndexInRange` | App.tsx:153-156 | while at least one slide is loaded, `currentIndex` is a valid index into the slides |
| `App.Initial` | App.tsx:19-23 | the component starts in IDLE, with nothing loaded, index 0, no error and no fullscreen, and satisfies the invariant |
| `App.Begin` | App.tsx:25-27 | beginning a generation sets GENERATING and clears the error, keeps data, index and fullscreen, and keeps the invariant |
| `App.Complete` | App.tsx:28-36 | success stores the result, sets VIEWING and index 0; any failure sets ERROR with the fixed non-empty message and keeps the earlier data and index; either way GENERATING is left and the invariant kept |
| `App.Next` | App.tsx:39-43 | only the index changes; nothing happens without data; otherwise the index moves to `min(index + 1, last)`; the invariant is kept |
| `App.Prev` | App.tsx:45-49 | only the index changes, to `max(index - 1, 0)`, so it never goes negative; the invariant is kept |
| `App.Select` | App.tsx:198-201 | a thumbnail click sets the index to that slide's position and nothing else, keeping the invariant |
| `App.OnKey` | App.tsx:51-56 | outside VIEWING keys are ignored; ArrowRight or Space acts as next, ArrowLeft as previous, Escape only clears fullscreen, other keys do nothing; the invariant is kept |
| `App.Toggle` | App.tsx:63-65 | the fullscreen flag is inverted and nothing else changes; the invariant is kept |
| `App.ToggleTwice` | App.tsx:63-65 | two toggles restore the original state |
| `App.StartButtons` | App.tsx:70-149 | no start button is on screen while generating; one always is in IDLE and ERROR; in VIEWING one is iff not fullscreen |
| `App.NavButtonsDisabledIffNoOp` | App.tsx:162-178 | the previous/next buttons are disabled exactly when pressing them would change nothing |
| `App.ShownSlide` | App.tsx:153-156 | the slide rendered is one of the loaded slides, only while viewing; with a valid state it is `slides[currentIndex]` |
| `App.Counter` | App.tsx:169-171 | the counter reads `currentIndex + 1 / slides.length`, and in a valid state `1 <= position <= count` |
| `App.Thumbnails` | App.tsx:196-210 | one thumbnail per slide in presentation order, carrying its title, highlighted iff it is the current slide |
| `App.OneThumbnailSelected` | App.tsx:202-204 | exactly one thumbnail is highlighted |
| `App.Step` | App.tsx:25-65 | while generating, only the call settling leaves GENERATING, so at most one generation is in flight; every transition keeps the invariant |
| `App.RunKeepsInv` | App.tsx:25-65 | any sequence of possible events keeps the invariant |
| `App.ReachableStatesValid` | App.tsx:19-65 | every state reachable from the initial state satisfies the invariant |
| `App.RepeatNextClamps` | App.tsx:39-43 | `n` presses of next leave the index at `min(index + n, last)` and change nothing else |
| `App.RepeatPrevClamps` | App.tsx:45-49 | `n` presses of previous leave the index at `max(index - n, 0)` and change nothing else |
| `App.NextReachesLastSlide` | App.tsx:39-43 | from the first of N slides, N - 1 or more presses of next reach the last slide, after which next is a no-op |
| `App.PrevAtFirstIsNoOp` | App.tsx:45-49 | previous on the first slide changes nothing |
| `App.SuccessShowsFirstSlide` | App.tsx:29-32 | a successful generation shows the first slide and the counter reads `1 / N` |
| `App.RetryAfterFailure` | App.tsx:33-36 | a failed call leads to ERROR with the fixed message and a Try Again button; retrying and succeeding then shows the new presentation from index 0 with no error |
| `App.Controller.constructor` | App.tsx:19-23 | the component's state variables start as `Initial` |
| `App.Controller.StartGeneration` | App.tsx:25-27 | the first half of `startGeneration` produces `Begin` of the old state and keeps the invariant |
| `App.Controller.FinishGeneration` | App.tsx:28-36 | the second half produces `Complete` of the old state and the outcome, and keeps the invariant |
| `App.Controller.NextSlide` | App.tsx:39-43 | `nextSlide` produces `Next` of the old state |
| `App.Controller.PrevSlide` | App.tsx:45-49 | `prevSlide` produces `Prev` of the old state |
| `App.Controller.SelectSlide` | App.tsx:198-201 | a thumbnail click produces `Select` of the old state |
| `App.Controller.HandleKeyDown` | App.tsx:51-56 | `handleKeyDown` produces `OnKey` of the old state and the key |
| `App.Controller.ToggleFullscreen` | App.tsx:63-65 | `toggleFullscreen` produces `Toggle` of the old state |

## Behaviour of the code worth knowing

These are facts about the code as written. The model follows the code in each case.

- An empty but present `chartData` list draws an empty chart. The code never
  requires chart data to be non-empty (`EmptyDataStillDrawsChart`).
- An absent `chartType` with data present draws a pie, not "no chart"
  (`AbsentTypeDrawsPie`).
- The placeholder image depends on `chartData` being absent, not on a chart
  being drawn. So `'none'` with data present shows neither a chart nor an image
  (`NoneTypeWithDataShowsNothing`).
- The second bar series is decided by the first record alone
  (`SecondSeriesMissedWhenFirstLacksIt`).
- `startGeneration` does not reject a second start while one is running.
  Only the hidden buttons prevent it, so `Begin` carries that as a precondition.
  `StartButtons` proves no start button is on screen while generating.
- A failed generation keeps the earlier presentation and index. After
  "Try Again", the earlier presentation stays in `data` until a new one
  arrives.
- `nextSlide` and `prevSlide` do not check `status`; only the key handler
  does. The on-screen buttons exist only while viewing.
- Nothing rejects a successful result with zero slides. The model accepts it
  (status VIEWING, index 0), and the invariant allows index 0 then. The
  component would hand `slides[0]`, which is undefined, to the renderer;
  `ShownSlide` returns `None` in that case.

## Left out

- services/geminiService.ts, the network call to the generative model, is not part of this model. Its prompt, schema and `JSON.parse` cast are not modelled. Only its outcome is: a `Result` whose value or error `Complete` receives. The error's content is ignored, as in the source.
- The fixed topic string passed to the call: it only feeds the left-out call.
- JSX layout, styling classes, icons, animations, and the label text of the buttons: presentational only.
- The charting library and the picsum image fetch: foreign libraries and I/O. Only what is handed to them (chart kind, records, second series, colours, URL) is modelled.
- The `useEffect` registration of the key listener: event-loop plumbing. `OnKey` is a plain function of the key.
- React's asynchronous state batching and stale closures: each handler runs to completion on the current state before the next event.
- Chart numbers are JavaScript floats; here they are integers. `NaN` and `-0`, also falsy in JavaScript, are not represented.
- `chartType` values outside the four declared literals are not represented. The response is cast without checking, so the code can receive one, for example "doughnut"; it then fails the 'none', 'bar' and 'line' tests and draws a pie.
- The shape of records inside `chartData` (`any[]` in the source) is taken to be `{name, value, secondary?}`; records of other shapes are not modelled.
- A renderer crash on an empty presentation is not modelled: `App.ShownSlide` returns `None` where the component would pass `undefined`.
