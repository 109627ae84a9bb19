/**
 * The weather screen's view state and its transitions (components/Main.tsx,
 * Main): the search submit, the start and the settlement of a fetch, and the
 * description and forecast labels derived from the state.
 */
module WeatherView {
  import opened Optional
  import opened JsString
  import Description
  import ForecastLabel

  /**
   * The provider's `current` block. Only `tempC` and `conditionText` feed a
   * modelled decision (the description); the other fields record the
   * provider's shape for the rendered panel, which is not modelled.
   */
  datatype Current = Current(
    tempC: real,
    feelsLikeC: real,
    humidity: int,
    windKph: real,
    visKm: real,
    conditionText: string,
    conditionIcon: string)

  /**
   * One entry of the provider's `forecast.forecastday` list. Only `date`
   * feeds a modelled decision (the day label); the other fields record the
   * provider's shape for the rendered card, which is not modelled.
   */
  datatype ForecastDay = ForecastDay(
    date: string,
    avgTempC: real,
    conditionText: string,
    conditionIcon: string)

  /** The component's five pieces of state. */
  datatype ViewState = ViewState(
    city: string,
    search: string,
    weather: Option<Current>,
    forecast: seq<ForecastDay>,
    loading: bool)

  /**
   * How a fetch ends: a response without an `error` member, a response
   * carrying one (for instance an unknown city), or a failure of the request
   * or of JSON parsing. Both failures only produce a console warning.
   */
  datatype FetchOutcome =
    | Success(current: Current, days: seq<ForecastDay>, locationName: string)
    | ProviderError(message: string)
    | TransportError(message: string)

  /** The city the screen opens on. */
  const InitialCity: string := "Gwalior"

  /** State before anything has happened: no data, not loading, empty search box. */
  function Initial(): (s: ViewState)
    ensures s.city == InitialCity && s.search == "" && s.weather == None && s.forecast == [] && !s.loading
  {
    ViewState(InitialCity, "", None, [], false)
  }

  /** Typing into the search box replaces the search text and nothing else. */
  function EditSearch(s: ViewState, text: string): (r: ViewState)
    ensures r.search == text
    ensures r.(search := s.search) == s
  {
    s.(search := text)
  }

  /** The first statement of fetchWeather: the loading flag goes up, nothing else moves. */
  function FetchStart(s: ViewState): (r: ViewState)
    ensures r.loading
    ensures r.(loading := s.loading) == s
  {
    s.(loading := true)
  }

  /**
   * The end of fetchWeather. A success stores the provider's current block,
   * its forecast days and its resolved location name (not the typed query);
   * either failure keeps the previous data. Every outcome drops the loading
   * flag and leaves the search text alone.
   */
  function Settle(s: ViewState, outcome: FetchOutcome): (r: ViewState)
    ensures !r.loading
    ensures r.search == s.search
    ensures outcome.Success? ==>
      r.weather == Some(outcome.current) && r.forecast == outcome.days && r.city == outcome.locationName
    ensures !outcome.Success? ==>
      r.weather == s.weather && r.forecast == s.forecast && r.city == s.city
  {
    match outcome
    case Success(current, days, name) =>
      s.(weather := Some(current), forecast := days, city := name, loading := false)
    case ProviderError(_) => s.(loading := false)
    case TransportError(_) => s.(loading := false)
  }

  /**
   * handleSearch. When the trimmed search text is empty nothing happens and
   * no fetch is issued; otherwise a fetch for the trimmed text starts and
   * the search box is cleared. Returns the new state and the query fetched.
   */
  function HandleSearch(s: ViewState): (r: (ViewState, Option<string>))
    ensures r.1 == None <==> AllWhitespace(s.search)
    ensures r.1 == None ==> r.0 == s
    ensures r.1.Some? ==>
      && r.1.value == Trim(s.search) && r.1.value != ""
      && r.0.search == "" && r.0.loading
      && r.0.city == s.city && r.0.weather == s.weather && r.0.forecast == s.forecast
  {
    var query := Trim(s.search);
    if query != "" then
      (FetchStart(s).(search := ""), Some(query))
    else
      (s, None)
  }

  /** Submitting twice in a row issues at most one fetch: the first submit empties the box. */
  lemma SecondSubmitIsIgnored(s: ViewState)
    ensures HandleSearch(HandleSearch(s).0).1 == None
  {
  }

  /**
   * A submit followed by a failed fetch returns to the same data with an
   * empty search box; followed by a successful one, the city is the
   * provider's name, whatever was typed.
   */
  lemma SubmitThenSettle(s: ViewState, outcome: FetchOutcome)
    ensures HandleSearch(s).1.Some? && !outcome.Success? ==>
      Settle(HandleSearch(s).0, outcome) == s.(search := "", loading := false)
    ensures HandleSearch(s).1.Some? && outcome.Success? ==>
      Settle(HandleSearch(s).0, outcome).city == outcome.locationName
  {
  }

  /** The sentence under the temperature: only shown once current weather is present. */
  function CurrentDescription(s: ViewState): (r: string)
    ensures s.weather == None ==> r == ""
    ensures s.weather.Some? ==>
      r == Description.BandPhrase(Description.BandOf(s.weather.value.tempC))
        + Description.OutlookPhrase(Description.OutlookOf(s.weather.value.conditionText))
  {
    match s.weather
    case None => ""
    case Some(w) => Description.GenerateDescription(w.tempC, w.conditionText)
  }

  /** The date labels of the forecast strip, one per forecast day in the order received. */
  function ForecastLabels(s: ViewState): (r: seq<string>)
    ensures |r| == |s.forecast|
    ensures forall i :: 0 <= i < |r| ==> |r[i]| <= 5
    ensures forall i :: 0 <= i < |r| && |s.forecast[i].date| >= 10 ==>
      r[i] == s.forecast[i].date[8..10] + "-" + s.forecast[i].date[5..7]
  {
    seq(|s.forecast|, i requires 0 <= i < |s.forecast| => ForecastLabel.DayMonth(s.forecast[i].date))
  }

  // ---------------------------------------------------------------------------
  // Sessions: the view together with the fetch it is waiting for.

  /** The view and the query of the fetch in flight, if any. */
  datatype Session = Session(view: ViewState, pending: Option<string>)

  /** What can happen to the screen, one thing at a time. */
  datatype Event =
    | TypeSearch(text: string)
    | SubmitSearch
    | FetchSettled(outcome: FetchOutcome)

  /** The loading flag is up exactly while a fetch is in flight. */
  predicate Coherent(ss: Session) {
    ss.view.loading <==> ss.pending.Some?
  }

  /** Mounting: the initial state, and the one fetch the mount effect issues for the initial city. */
  function Mount(): (ss: Session)
    ensures ss.pending == Some(InitialCity)
    ensures ss.view.loading && ss.view.weather == None && ss.view.forecast == []
    ensures ss.view.city == InitialCity && ss.view.search == ""
  {
    Session(FetchStart(Initial()), Some(InitialCity))
  }

  /**
   * One event. A submit that issues a fetch makes it the pending one; a
   * settlement only arrives for a fetch in flight and is otherwise ignored.
   */
  function Step(ss: Session, e: Event): (r: Session)
    requires Coherent(ss)
    ensures Coherent(r)
    ensures e.FetchSettled? && ss.pending.Some? ==> r.view == Settle(ss.view, e.outcome) && r.pending == None
    ensures e.FetchSettled? && ss.pending.None? ==> r == ss
    ensures e.SubmitSearch? ==> r.view == HandleSearch(ss.view).0
    ensures e.SubmitSearch? && HandleSearch(ss.view).1.Some? ==> r.pending == HandleSearch(ss.view).1
    ensures e.SubmitSearch? && HandleSearch(ss.view).1.None? ==> r == ss
    ensures e.TypeSearch? ==> r.view == EditSearch(ss.view, e.text) && r.pending == ss.pending
  {
    match e
    case TypeSearch(text) => Session(EditSearch(ss.view, text), ss.pending)
    case SubmitSearch =>
      var (v, query) := HandleSearch(ss.view);
      if query.Some? then Session(v, query) else ss
    case FetchSettled(outcome) =>
      if ss.pending.Some? then Session(Settle(ss.view, outcome), None) else ss
  }

  /** Events applied in order. */
  function Run(ss: Session, events: seq<Event>): (r: Session)
    requires Coherent(ss)
    ensures Coherent(r)
    decreases |events|
  {
    if events == [] then ss else Run(Step(ss, events[0]), events[1..])
  }

  /** The location names of the successful settlements among `events`. */
  function ProviderNames(events: seq<Event>): set<string> {
    if events == [] then {}
    else
      var rest := ProviderNames(events[1..]);
      match events[0]
      case FetchSettled(Success(_, _, name)) => {name} + rest
      case _ => rest
  }

  /** No successful settlement among `events`. */
  predicate NoSuccess(events: seq<Event>) {
    forall k :: 0 <= k < |events| ==> !(events[k].FetchSettled? && events[k].outcome.Success?)
  }

  /**
   * Typing never sets the displayed city: after any run it is the starting
   * city or a name the provider returned.
   */
  lemma {:induction false} CityComesFromProvider(ss: Session, events: seq<Event>)
    requires Coherent(ss)
    ensures Run(ss, events).view.city in {ss.view.city} + ProviderNames(events)
    decreases |events|
  {
    if events != [] {
      var next := Step(ss, events[0]);
      CityComesFromProvider(next, events[1..]);
      assert next.view.city in {ss.view.city} + ProviderNames(events[..1]);
    }
  }

  /** Without a successful settlement, weather, forecast and city are what they were. */
  lemma {:induction false} FailuresKeepData(ss: Session, events: seq<Event>)
    requires Coherent(ss)
    requires NoSuccess(events)
    ensures Run(ss, events).view.weather == ss.view.weather
    ensures Run(ss, events).view.forecast == ss.view.forecast
    ensures Run(ss, events).view.city == ss.view.city
    decreases |events|
  {
    if events != [] {
      assert !(events[0].FetchSettled? && events[0].outcome.Success?);
      FailuresKeepData(Step(ss, events[0]), events[1..]);
    }
  }
}
