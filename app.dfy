/** The view state machine of App.tsx. The component's five state variables
    form a `ViewState`; each handler is a function from the state before to
    the state after, and `Controller` is the component itself, a class whose
    fields are the state variables and whose methods are the handlers.

    `startGeneration` suspends once, at its `await`, so it is two transitions:
    `Begin` runs up to the call, `Complete` runs when the call settles with
    the presentation or with an error. */
module App {
  import opened Types

  /** The one message every failed generation shows. */
  const FailureMessage: string := "Failed to generate content. Please try again."

  /** `status`, `data`, `currentIndex`, `error` and `isFullscreen`. */
  datatype ViewState = ViewState(
    status: AppStatus,
    data: Option<PresentationData>,
    currentIndex: int,
    error: Option<string>,
    isFullscreen: bool)

  function Min(a: int, b: int): int { if a <= b then a else b }
  function Max(a: int, b: int): int { if a >= b then a else b }

  /** The number of loaded slides, 0 when nothing is loaded. */
  function SlideCount(s: ViewState): nat
  {
    if s.data.Some? then |s.data.value.slides| else 0
  }

  /** What every reachable state satisfies. The index is never negative and,
      unless it is 0, it points into the loaded slides; the screen shows a
      presentation only when one is loaded; an error message is set exactly
      in the error state, and it is the fixed one. */
  predicate Inv(s: ViewState)
  {
    && 0 <= s.currentIndex
    && (s.currentIndex == 0 || s.currentIndex < SlideCount(s))
    && (s.status == Idle ==> s.data.None?)
    && (s.status == Viewing ==> s.data.Some?)
    && (s.error.Some? <==> s.status == Error)
    && (s.error.Some? ==> s.error.value == FailureMessage)
  }

  /** With at least one slide loaded, the index is a valid slide index. */
  lemma IndexInRange(s: ViewState)
    requires Inv(s) && SlideCount(s) > 0
    ensures 0 <= s.currentIndex < |s.data.value.slides|
  {
  }

  /** The state the component mounts with. */
  function Initial(): (s: ViewState)
    ensures Inv(s)
    ensures s.status == Idle && s.data.None? && s.currentIndex == 0 && s.error.None? && !s.isFullscreen
  {
    ViewState(Idle, None, 0, None, false)
  }

  /** `startGeneration` up to its `await`. The handler itself does not refuse
      to start twice; its buttons are simply not on screen while a generation
      is running, hence the precondition. */
  function Begin(s: ViewState): (r: ViewState)
    requires s.status != Generating
    ensures r.status == Generating && r.error.None?
    ensures r.data == s.data && r.currentIndex == s.currentIndex && r.isFullscreen == s.isFullscreen
    ensures Inv(s) ==> Inv(r)
  {
    s.(status := Generating, error := None)
  }

  /** `startGeneration` after its `await`: on success the result is stored,
      the first slide is shown and any earlier presentation is replaced; on
      any failure, whatever its cause, the fixed message is shown and the
      earlier presentation and index are kept. Either way the state leaves
      GENERATING. */
  function Complete(s: ViewState, outcome: Result<PresentationData, string>): (r: ViewState)
    ensures r.status != Generating
    ensures r.isFullscreen == s.isFullscreen
    ensures outcome.Ok? ==>
              r.status == Viewing && r.data == Some(outcome.value) && r.currentIndex == 0 && r.error == s.error
    ensures outcome.Err? ==>
              r.status == Error && r.error == Some(FailureMessage) && FailureMessage != "" &&
              r.data == s.data && r.currentIndex == s.currentIndex
    ensures Inv(s) && s.status == Generating ==> Inv(r)
  {
    match outcome
    case Ok(result) => s.(data := Some(result), status := Viewing, currentIndex := 0)
    case Err(_) => s.(error := Some(FailureMessage), status := Error)
  }

  /** `nextSlide`: moves one slide on, stopping at the last one; nothing
      happens while no presentation is loaded. */
  function Next(s: ViewState): (r: ViewState)
    ensures r.(currentIndex := s.currentIndex) == s
    ensures s.data.None? ==> r == s
    ensures Inv(s) && SlideCount(s) > 0 ==> r.currentIndex == Min(s.currentIndex + 1, SlideCount(s) - 1)
    ensures Inv(s) ==> Inv(r)
  {
    if s.data.Some? && s.currentIndex < |s.data.value.slides| - 1 then
      s.(currentIndex := s.currentIndex + 1)
    else
      s
  }

  /** `prevSlide`: moves one slide back, stopping at the first one. */
  function Prev(s: ViewState): (r: ViewState)
    ensures r.(currentIndex := s.currentIndex) == s
    ensures 0 <= s.currentIndex ==> r.currentIndex == Max(s.currentIndex - 1, 0)
    ensures Inv(s) ==> Inv(r)
  {
    if s.currentIndex > 0 then s.(currentIndex := s.currentIndex - 1) else s
  }

  /** The thumbnail strip is on screen: viewing a loaded presentation, not in
      fullscreen. */
  predicate ThumbnailsShown(s: ViewState)
  {
    s.status == Viewing && s.data.Some? && !s.isFullscreen
  }

  /** A thumbnail click, `setCurrentIndex(idx)`; the strip offers exactly the
      indices of the loaded slides. */
  function Select(s: ViewState, index: int): (r: ViewState)
    requires ThumbnailsShown(s) && 0 <= index < SlideCount(s)
    ensures r.(currentIndex := s.currentIndex) == s
    ensures r.currentIndex == index && r.data.Some? && r.data.value.slides[r.currentIndex] == s.data.value.slides[index]
    ensures Inv(s) ==> Inv(r)
  {
    s.(currentIndex := index)
  }

  /** `handleKeyDown`: outside VIEWING every key is ignored; the three tests
      are made one after the other, as in the handler. */
  function OnKey(s: ViewState, key: string): (r: ViewState)
    ensures s.status != Viewing ==> r == s
    ensures s.status == Viewing && (key == "ArrowRight" || key == " ") ==> r == Next(s)
    ensures s.status == Viewing && key == "ArrowLeft" ==> r == Prev(s)
    ensures s.status == Viewing && key == "Escape" ==> r == s.(isFullscreen := false)
    ensures key !in {"ArrowRight", " ", "ArrowLeft", "Escape"} ==> r == s
    ensures Inv(s) ==> Inv(r)
  {
    if s.status != Viewing then s
    else
      var s1 := if key == "ArrowRight" || key == " " then Next(s) else s;
      var s2 := if key == "ArrowLeft" then Prev(s1) else s1;
      if key == "Escape" then s2.(isFullscreen := false) else s2
  }

  /** `toggleFullscreen`: flips the flag and nothing else. */
  function Toggle(s: ViewState): (r: ViewState)
    ensures r.isFullscreen != s.isFullscreen
    ensures r.(isFullscreen := s.isFullscreen) == s
    ensures Inv(s) ==> Inv(r)
  {
    s.(isFullscreen := !s.isFullscreen)
  }

  lemma ToggleTwice(s: ViewState)
    ensures Toggle(Toggle(s)) == s
  {
  }

  /** The buttons wired to `startGeneration`. */
  datatype StartButton = HeaderRegenerate | HeaderStart | HeroGenerate | TryAgain

  /** Which start buttons are on screen. The header, and so its two buttons,
      is hidden in fullscreen. A start is never offered while generating, and
      always offered in IDLE and ERROR and in VIEWING outside fullscreen. */
  function StartButtons(s: ViewState): (r: set<StartButton>)
    ensures r != {} ==> s.status != Generating
    ensures s.status == Idle || s.status == Error ==> r != {}
    ensures s.status == Viewing ==> (r == {} <==> s.isFullscreen)
  {
    (if !s.isFullscreen && s.status == Viewing then {HeaderRegenerate} else {})
    + (if !s.isFullscreen && s.status != Generating then {HeaderStart} else {})
    + (if s.status == Idle then {HeroGenerate} else {})
    + (if s.status == Error then {TryAgain} else {})
  }

  /** The slide and its navigation controls are on screen. */
  predicate NavShown(s: ViewState)
  {
    s.status == Viewing && s.data.Some?
  }

  /** The previous-slide button's `disabled`. */
  predicate PrevDisabled(s: ViewState)
  {
    s.currentIndex == 0
  }

  /** The next-slide button's `disabled`. */
  predicate NextDisabled(s: ViewState)
    requires s.data.Some?
  {
    s.currentIndex == |s.data.value.slides| - 1
  }

  /** A navigation button is disabled exactly when pressing it would do
      nothing. */
  lemma NavButtonsDisabledIffNoOp(s: ViewState)
    requires Inv(s) && NavShown(s) && SlideCount(s) > 0
    ensures PrevDisabled(s) <==> Prev(s) == s
    ensures NextDisabled(s) <==> Next(s) == s
  {
  }

  /** The slide handed to the slide renderer: `data.slides[currentIndex]`,
      while a presentation is being viewed. */
  function ShownSlide(s: ViewState): (r: Option<SlideContent>)
    ensures r.Some? ==> NavShown(s) && r.value in s.data.value.slides
    ensures Inv(s) && NavShown(s) && SlideCount(s) > 0 ==> r == Some(s.data.value.slides[s.currentIndex])
  {
    if NavShown(s) && 0 <= s.currentIndex < |s.data.value.slides| then
      Some(s.data.value.slides[s.currentIndex])
    else
      None
  }

  /** The position counter, `currentIndex + 1 / slides.length`. */
  function Counter(s: ViewState): (r: (int, int))
    requires NavShown(s)
    ensures r.0 == s.currentIndex + 1 && r.1 == SlideCount(s)
    ensures Inv(s) && SlideCount(s) > 0 ==> 1 <= r.0 <= r.1
  {
    (s.currentIndex + 1, |s.data.value.slides|)
  }

  /** One thumbnail: the slide's title, highlighted when it is the current one. */
  datatype Thumbnail = Thumbnail(title: string, selected: bool)

  /** The thumbnail strip, one per slide in presentation order. */
  function Thumbnails(s: ViewState): (r: seq<Thumbnail>)
    requires s.data.Some?
    ensures |r| == |s.data.value.slides|
    ensures forall i :: 0 <= i < |r| ==> r[i].title == s.data.value.slides[i].title
    ensures forall i :: 0 <= i < |r| ==> (r[i].selected <==> i == s.currentIndex)
  {
    seq(|s.data.value.slides|, i requires 0 <= i < |s.data.value.slides| =>
      Thumbnail(s.data.value.slides[i].title, i == s.currentIndex))
  }

  /** Exactly one thumbnail is highlighted. */
  lemma OneThumbnailSelected(s: ViewState)
    requires Inv(s) && s.data.Some? && SlideCount(s) > 0
    ensures Thumbnails(s)[s.currentIndex].selected
    ensures forall i, j :: 0 <= i < j < |Thumbnails(s)| ==> !(Thumbnails(s)[i].selected && Thumbnails(s)[j].selected)
  {
  }

  /** What the user, or the settling call, can do. */
  datatype Event =
    | StartRequested
    | GenerationSettled(outcome: Result<PresentationData, string>)
    | NextRequested
    | PrevRequested
    | ThumbnailChosen(index: int)
    | KeyPressed(key: string)
    | FullscreenToggled

  /** Whether an event can happen: its button is on screen and enabled, the
      call is pending, or it is a key press, which is always delivered. */
  predicate Enabled(s: ViewState, e: Event)
  {
    match e
    case StartRequested => StartButtons(s) != {}
    case GenerationSettled(_) => s.status == Generating
    case NextRequested => NavShown(s) && !NextDisabled(s)
    case PrevRequested => NavShown(s) && !PrevDisabled(s)
    case ThumbnailChosen(i) => ThumbnailsShown(s) && 0 <= i < SlideCount(s)
    case KeyPressed(_) => true
    case FullscreenToggled => NavShown(s)
  }

  /** One transition. While a generation is running only its settling leaves
      GENERATING, so at most one generation is ever in flight. */
  function Step(s: ViewState, e: Event): (r: ViewState)
    requires Enabled(s, e)
    ensures s.status == Generating ==> (r.status == Generating <==> !e.GenerationSettled?)
    ensures Inv(s) ==> Inv(r)
  {
    match e
    case StartRequested => Begin(s)
    case GenerationSettled(outcome) => Complete(s, outcome)
    case NextRequested => Next(s)
    case PrevRequested => Prev(s)
    case ThumbnailChosen(i) => Select(s, i)
    case KeyPressed(key) => OnKey(s, key)
    case FullscreenToggled => Toggle(s)
  }

  /** Runs a sequence of events; `None` if one of them cannot happen. */
  function Run(s: ViewState, es: seq<Event>): Option<ViewState>
    decreases |es|
  {
    if es == [] then Some(s)
    else if Enabled(s, es[0]) then Run(Step(s, es[0]), es[1..])
    else None
  }

  lemma {:induction false} RunKeepsInv(s: ViewState, es: seq<Event>)
    requires Inv(s)
    ensures Run(s, es).Some? ==> Inv(Run(s, es).value)
    decreases |es|
  {
    if es != [] && Enabled(s, es[0]) {
      RunKeepsInv(Step(s, es[0]), es[1..]);
    }
  }

  /** Every state the component can reach satisfies the invariant. */
  lemma ReachableStatesValid(es: seq<Event>)
    ensures Run(Initial(), es).Some? ==> Inv(Run(Initial(), es).value)
  {
    RunKeepsInv(Initial(), es);
  }

  /** `n` presses of next. */
  function RepeatNext(s: ViewState, n: nat): ViewState
    decreases n
  {
    if n == 0 then s else RepeatNext(Next(s), n - 1)
  }

  /** `n` presses of previous. */
  function RepeatPrev(s: ViewState, n: nat): ViewState
    decreases n
  {
    if n == 0 then s else RepeatPrev(Prev(s), n - 1)
  }

  lemma {:induction false} RepeatNextClamps(s: ViewState, n: nat)
    requires Inv(s) && SlideCount(s) > 0
    ensures RepeatNext(s, n) == s.(currentIndex := Min(s.currentIndex + n, SlideCount(s) - 1))
    decreases n
  {
    if n > 0 {
      RepeatNextClamps(Next(s), n - 1);
    }
  }

  lemma {:induction false} RepeatPrevClamps(s: ViewState, n: nat)
    requires Inv(s)
    ensures RepeatPrev(s, n) == s.(currentIndex := Max(s.currentIndex - n, 0))
    decreases n
  {
    if n > 0 {
      RepeatPrevClamps(Prev(s), n - 1);
    }
  }

  /** From the first of N slides, N - 1 or more presses of next reach the
      last slide, and further presses change nothing. */
  lemma NextReachesLastSlide(s: ViewState, n: nat)
    requires Inv(s) && SlideCount(s) > 0 && s.currentIndex == 0 && n >= SlideCount(s) - 1
    ensures RepeatNext(s, n).currentIndex == SlideCount(s) - 1
    ensures Next(RepeatNext(s, n)) == RepeatNext(s, n)
  {
    RepeatNextClamps(s, n);
  }

  /** Previous on the first slide is a no-op. */
  lemma PrevAtFirstIsNoOp(s: ViewState)
    requires s.currentIndex == 0
    ensures Prev(s) == s
  {
  }

  /** A successful generation shows the first slide, "1 / N". */
  lemma SuccessShowsFirstSlide(s: ViewState, p: PresentationData)
    requires Inv(s) && s.status == Generating && |p.slides| > 0
    ensures var r := Step(s, GenerationSettled(Ok(p)));
      ShownSlide(r) == Some(p.slides[0]) && Counter(r) == (1, |p.slides|)
  {
  }

  /** A failed generation shows the fixed message and offers a retry; a
      retry that succeeds shows the new presentation from its first slide. */
  lemma {:induction false} RetryAfterFailure(s: ViewState, err: string, p: PresentationData)
    requires Inv(s) && s.status == Generating
    ensures var r := Run(s, [GenerationSettled(Err(err))]);
      r.Some? && r.value.status == Error && r.value.error == Some(FailureMessage) && TryAgain in StartButtons(r.value)
    ensures var r := Run(s, [GenerationSettled(Err(err)), StartRequested, GenerationSettled(Ok(p))]);
      r.Some? && r.value.status == Viewing && r.value.data == Some(p) && r.value.currentIndex == 0 && r.value.error.None?
  {
    var s1 := Complete(s, Err(err));
    var s2 := Begin(s1);
    var s3 := Complete(s2, Ok(p));
    var es := [GenerationSettled(Err(err)), StartRequested, GenerationSettled(Ok(p))];
    assert Run(s3, []) == Some(s3);
    assert Run(s2, es[2..]) == Run(s3, []);
    assert Run(s1, es[1..]) == Run(s2, es[2..]);
    assert Run(s, es) == Run(s1, es[1..]);
    assert Run(s, [GenerationSettled(Err(err))]) == Run(s1, []);
  }

  /** The component: the five state variables and the handlers that set them. */
  class Controller {
    var status: AppStatus
    var data: Option<PresentationData>
    var currentIndex: int
    var error: Option<string>
    var isFullscreen: bool

    function State(): ViewState
      reads this
    {
      ViewState(status, data, currentIndex, error, isFullscreen)
    }

    ghost predicate Valid()
      reads this
    {
      Inv(State())
    }

    constructor ()
      ensures Valid() && State() == Initial()
    {
      status := Idle;
      data := None;
      currentIndex := 0;
      error := None;
      isFullscreen := false;
    }

    /** `startGeneration` up to its `await`. */
    method StartGeneration()
      requires Valid() && status != Generating
      modifies this
      ensures Valid() && State() == Begin(old(State()))
    {
      status := Generating;
      error := None;
    }

    /** `startGeneration` once the call has settled with `outcome`. */
    method FinishGeneration(outcome: Result<PresentationData, string>)
      requires Valid() && status == Generating
      modifies this
      ensures Valid() && State() == Complete(old(State()), outcome)
    {
      match outcome
      case Ok(result) =>
        data := Some(result);
        status := Viewing;
        currentIndex := 0;
      case Err(_) =>
        error := Some(FailureMessage);
        status := Error;
    }

    method NextSlide()
      requires Valid()
      modifies this
      ensures Valid() && State() == Next(old(State()))
    {
      if data.Some? && currentIndex < |data.value.slides| - 1 {
        currentIndex := currentIndex + 1;
      }
    }

    method PrevSlide()
      requires Valid()
      modifies this
      ensures Valid() && State() == Prev(old(State()))
    {
      if currentIndex > 0 {
        currentIndex := currentIndex - 1;
      }
    }

    /** A thumbnail click. */
    method SelectSlide(index: int)
      requires Valid() && ThumbnailsShown(State()) && 0 <= index < SlideCount(State())
      modifies this
      ensures Valid() && State() == Select(old(State()), index)
    {
      currentIndex := index;
    }

    method HandleKeyDown(key: string)
      requires Valid()
      modifies this
      ensures Valid() && State() == OnKey(old(State()), key)
    {
      if status != Viewing {
        return;
      }
      if key == "ArrowRight" || key == " " {
        NextSlide();
      }
      if key == "ArrowLeft" {
        PrevSlide();
      }
      if key == "Escape" {
        isFullscreen := false;
      }
    }

    method ToggleFullscreen()
      requires Valid()
      modifies this
      ensures Valid() && State() == Toggle(old(State()))
    {
      isFullscreen := !isFullscreen;
    }
  }

  /** A session driven through the component's handlers: generate, fail,
      retry, walk to the last slide and back. */
  method Session(p: PresentationData)
    requires |p.slides| == 3
  {
    var app := new Controller();
    app.StartGeneration();
    app.FinishGeneration(Err("timeout"));
    assert app.status == Error && app.error == Some(FailureMessage);
    app.StartGeneration();
    app.FinishGeneration(Ok(p));
    assert app.currentIndex == 0;
    app.HandleKeyDown("ArrowRight");
    app.HandleKeyDown(" ");
    app.NextSlide();
    assert app.currentIndex == 2;
    app.HandleKeyDown("Escape");
    app.PrevSlide();
    assert ShownSlide(app.State()) == Some(p.slides[1]);
  }
}
