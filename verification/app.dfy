/**
  The handlers of `WeatherApp` that decide what the window shows
  (p4.py:133-165 and p4.py:199-217): `set_default_appearance`,
  `search_event`, `check_data_queue` and `update_ui`.

  A handler is a pure function from the application state to the next state
  and the effects it asks the toolkit for: starting the worker thread and
  scheduling callbacks with `after`. The worker's output reaches the queue
  through `Deliver`; threads and their interleaving are not modelled.
 */
module WeatherApp {
  import opened Weather
  import Backgrounds
  import Animation

  const IdleText := "Search for a city"
  const LoadingText := "Loading..."
  const EmptyCityText := "Please enter a city name."
  const PollDelayMs := 100

  /**
    What the window shows. The three `...Placed` fields after `messagePlaced`
    are the panel trio: the glass border, the glass panel and the info frame.
   */
  datatype View = View(
    message: string,                // text of the message label
    messagePlaced: bool,
    borderPlaced: bool,
    panelPlaced: bool,
    infoPlaced: bool,
    background: string,             // image name last passed to update_background
    weather: Option<WeatherInfo>)   // what the weather labels were last configured from

  datatype App = App(view: View, queue: seq<QueueItem>)

  datatype AnimatedLabel = TempLabel | ConditionsLabel

  datatype Callback =
    | CheckQueue
    | Slide(widget: AnimatedLabel, startY: real, endY: real)

  datatype Effect =
    | StartFetch(city: string)
    | After(delayMs: nat, callback: Callback)

  datatype Step = Step(app: App, effects: seq<Effect>)

  datatype UiStep = UiStep(view: View, effects: seq<Effect>)

  predicate TrioPlaced(v: View) {
    v.borderPlaced && v.panelPlaced && v.infoPlaced
  }

  predicate TrioHidden(v: View) {
    !v.borderPlaced && !v.panelPlaced && !v.infoPlaced
  }

  /** Exactly one of the two is on screen: the message label, or the whole panel trio. */
  predicate Exclusive(v: View) {
    (v.messagePlaced && TrioHidden(v)) || (!v.messagePlaced && TrioPlaced(v))
  }

  /** The four phases the interface moves through, read off what is on screen. */
  datatype Phase = Idle | Loading | Failed | Showing

  function PhaseOf(v: View): Phase {
    if v.infoPlaced then Showing
    else if v.message == LoadingText then Loading
    else if v.message == IdleText then Idle
    else Failed
  }

  /** `set_default_appearance(message)`: hide the trio, show `message`. */
  function SetDefaultAppearance(v: View, message: string): (r: View)
    ensures Exclusive(r) && r.messagePlaced && TrioHidden(r)
    ensures r.message == message
    ensures r.background == Backgrounds.DefaultImage
    ensures r.weather == v.weather
  {
    v.(background := Backgrounds.DefaultImage,
       borderPlaced := false, panelPlaced := false, infoPlaced := false,
       message := message, messagePlaced := true)
  }

  /** The window right after the constructor: nothing placed, then the default appearance. */
  function Initial(): (v: View)
    ensures Exclusive(v)
    ensures PhaseOf(v) == Idle
    ensures v.weather == None
  {
    var created := View("", false, false, false, false, "", None);
    SetDefaultAppearance(created, IdleText)
  }

  /** `update_ui(data)`: render one queue item. */
  function UpdateUi(v: View, item: QueueItem): (s: UiStep)
    ensures Exclusive(s.view)
    // an error goes back to the message with its text, weather labels untouched
    ensures item.Error? ==>
              && s.view.messagePlaced && TrioHidden(s.view)
              && s.view.message == item.message
              && s.view.background == Backgrounds.DefaultImage
              && s.view.weather == v.weather
              && s.effects == []
    // a success hides the message, places the trio and shows the new weather
    ensures item.Success? ==>
              && !s.view.messagePlaced && TrioPlaced(s.view)
              && s.view.weather == Some(item.info)
              && s.view.background == Backgrounds.BackgroundFor(item.info.conditionsMain, item.info.icon)
              && s.effects == [After(100, Slide(TempLabel, 1.2, 0.45)),
                               After(200, Slide(ConditionsLabel, 1.3, 0.55))]
    ensures CheckQueueCount(s.effects) == 0
  {
    var hidden := v.(messagePlaced := false);
    match item
    case Error(message) =>
      UiStep(SetDefaultAppearance(hidden, message), [])
    case Success(info) =>
      var shown := hidden.(
        background := Backgrounds.BackgroundFor(info.conditionsMain, info.icon),
        borderPlaced := true, panelPlaced := true, infoPlaced := true,
        weather := Some(info));
      UiStep(shown, [After(100, Slide(TempLabel, 1.2, 0.45)),
                     After(200, Slide(ConditionsLabel, 1.3, 0.55))])
  }

  /** How many fetches `effects` start. */
  function FetchCount(effects: seq<Effect>): nat {
    if effects == [] then 0
    else (if effects[0].StartFetch? then 1 else 0) + FetchCount(effects[1..])
  }

  /** How many queue polls `effects` schedule. */
  function CheckQueueCount(effects: seq<Effect>): nat {
    if effects == [] then 0
    else (if effects[0] == After(PollDelayMs, CheckQueue) then 1 else 0) + CheckQueueCount(effects[1..])
  }

  /** `search_event`, with `entry` the text of the city entry. */
  function SearchEvent(app: App, entry: string): (s: Step)
    ensures Exclusive(s.app.view)
    ensures s.app.queue == app.queue
    ensures s.app.view.weather == app.view.weather
    // no city: a prompt and nothing started
    ensures entry == "" ==>
              && s.app.view.message == EmptyCityText && s.app.view.messagePlaced
              && s.app.view.background == Backgrounds.DefaultImage
              && FetchCount(s.effects) == 0 && CheckQueueCount(s.effects) == 0
    // a city: one fetch of exactly that city, one poll, and the loading message
    ensures entry != "" ==>
              && s.app.view.message == LoadingText && s.app.view.messagePlaced
              && s.app.view.background == Backgrounds.DefaultImage
              && FetchCount(s.effects) == 1 && StartFetch(entry) in s.effects
              && CheckQueueCount(s.effects) == 1
  {
    if entry == "" then
      Step(app.(view := SetDefaultAppearance(app.view, EmptyCityText)), [])
    else
      var loading := SetDefaultAppearance(app.view, LoadingText);
      var effects := [StartFetch(entry), After(PollDelayMs, CheckQueue)];
      var poll := effects[1..];
      assert poll[0] == After(PollDelayMs, CheckQueue) && poll[1..] == [];
      assert FetchCount(poll[1..]) == 0 && CheckQueueCount(poll[1..]) == 0;
      Step(app.(view := loading), effects)
  }

  /** `check_data_queue`: take at most one item; render it, or poll again. */
  function CheckDataQueue(app: App): (s: Step)
    // at most one item is consumed, from the front
    ensures |app.queue| == 0 ==> s.app == app
    ensures |app.queue| > 0 ==> s.app.queue == app.queue[1..]
    // it polls again iff there was nothing to take
    ensures CheckQueueCount(s.effects) == (if |app.queue| == 0 then 1 else 0)
    // and renders iff there was
    ensures |app.queue| > 0 ==> UiStep(s.app.view, s.effects) == UpdateUi(app.view, app.queue[0])
    ensures FetchCount(s.effects) == 0
  {
    if |app.queue| == 0 then
      Step(app, [After(PollDelayMs, CheckQueue)])
    else
      var ui := UpdateUi(app.view, app.queue[0]);
      Step(App(ui.view, app.queue[1..]), ui.effects)
  }

  /**
    A scheduled slide when its timer fires: `Animation.slide_in` with the
    default 20 steps over 300 ms, from the callback's start height to its end height.
   */
  method RunSlide(cb: Callback) returns (r: Animation.SlideOutcome)
    requires cb.Slide?
    ensures r.Animated?
    ensures |r.trace.placements| == 21 && |r.trace.delays| == 19
    ensures forall i :: 0 <= i < |r.trace.delays| ==> r.trace.delays[i] == 15
    ensures r.trace.placements[19] == cb.endY && r.trace.placements[20] == cb.endY
  {
    r := Animation.SlideIn(cb.startY, cb.endY, Animation.DefaultSteps, Animation.DefaultDurationMs);
  }

  /** The worker's items arrive at the back of the queue. */
  function Deliver(app: App, run: Run): (r: App)
    ensures r.view == app.view
    ensures |r.queue| == |app.queue| + |run.items|
    ensures r.queue[..|app.queue|] == app.queue && r.queue[|app.queue|..] == run.items
  {
    app.(queue := app.queue + run.items)
  }

  /** The things that can happen to the application. */
  datatype Event =
    | Search(entry: string)
    | Poll
    | WorkerDone(run: Run)

  function Apply(app: App, e: Event): App {
    match e
    case Search(entry) => SearchEvent(app, entry).app
    case Poll => CheckDataQueue(app).app
    case WorkerDone(run) => Deliver(app, run)
  }

  function ApplyAll(app: App, events: seq<Event>): App
    decreases |events|
  {
    if events == [] then app else ApplyAll(Apply(app, events[0]), events[1..])
  }

  /** Each single event keeps exactly one of message and trio on screen. */
  lemma ApplyKeepsExclusive(app: App, e: Event)
    requires Exclusive(app.view)
    ensures Exclusive(Apply(app, e).view)
  {
  }

  /** Whatever happens after start-up, exactly one of message and trio is on screen. */
  lemma {:induction false} ExclusiveAfterAnyEvents(app: App, events: seq<Event>)
    requires Exclusive(app.view)
    ensures Exclusive(ApplyAll(app, events).view)
    decreases |events|
  {
    if events != [] {
      ApplyKeepsExclusive(app, events[0]);
      ExclusiveAfterAnyEvents(Apply(app, events[0]), events[1..]);
    }
  }

  lemma ExclusiveFromStart(events: seq<Event>)
    ensures Exclusive(ApplyAll(App(Initial(), []), events).view)
  {
    ExclusiveAfterAnyEvents(App(Initial(), []), events);
  }

  /** No message the worker reports can be mistaken for the idle or loading text. */
  lemma FailureTextIsNotUiText(f: Failure)
    ensures Message(f) != LoadingText && Message(f) != IdleText
  {
  }

  /** A search moves the interface to loading, or to an error prompt when the entry is empty. */
  lemma SearchPhase(app: App, entry: string)
    ensures PhaseOf(SearchEvent(app, entry).app.view) == (if entry == "" then Failed else Loading)
  {
  }

  /**
    One whole search from an empty queue: search, the worker's run is
    delivered, the queue is polled once. The interface ends up showing the
    weather exactly when the key is configured and the server answered 200
    with a complete body; it shows an error for every other answer; and it is
    still loading, polling again, when the worker queued nothing.
   */
  lemma SearchRoundTrip(app: App, city: string, apiKey: Option<string>, fetch: FetchOutcome,
                        title: string -> string)
    requires city != "" && app.queue == []
    ensures var searched := SearchEvent(app, city).app;
            var run := GetWeatherData(city, apiKey, fetch, title);
            var polled := CheckDataQueue(Deliver(searched, run));
            && PhaseOf(searched.view) == Loading
            && polled.app.queue == []
            && (run.items == [] ==> PhaseOf(polled.app.view) == Loading && CheckQueueCount(polled.effects) == 1)
            && (run.items != [] ==>
                  (PhaseOf(polled.app.view) == Showing <==>
                     KeyConfigured(apiKey) && fetch.Response? && fetch.status == 200 && fetch.body.Decoded?))
            && (run.items != [] ==> PhaseOf(polled.app.view) in {Showing, Failed})
  {
  }
}
