/**
 * The weather forecast screen (src/components/WeatherForecast.tsx): a
 * `location` string overwritten by typing, by a popular-location card and by
 * "Use Current Location" (at once, and again when a 1000 ms timer fires),
 * and an `isGettingForecast` flag around a 2000 ms forecast timer. The
 * forecast handler checks only that the trimmed location is non-empty; the
 * button also checks the flag, the Enter key does not. No timer is cleared.
 */
module WeatherForecast {

  import opened Wrappers
  import opened App
  import opened Strings

  /** The simulated forecast and location-lookup times in milliseconds. */
  const ForecastDelay := 2000
  const LocationDelay := 1000

  /** What "Use Current Location" writes at once, and what its timer writes later. */
  const CurrentLocationText: string := "Current Location"
  const ResolvedLocation: string := "Lahore, Punjab (Current Location)"

  datatype State = State(location: string, isGettingForecast: bool)

  /** The `useState` initial values. */
  const Initial: State := State("", false)

  /** The screen's two timers. */
  datatype Timer = ForecastDone | LocationResolved

  /** The Get Forecast button's `disabled`. */
  predicate ForecastDisabled(s: State) {
    !HasContent(s.location) || s.isGettingForecast
  }

  /** setLocation with `v`: what typing does, and what handleLocationSelect does with a card's text. */
  function SetLocation(s: State, v: string): Effect<State, Timer> {
    Effect(s.(location := v), None, None)
  }

  /** handleGetForecast, reached by the button and by the Enter key. */
  function GetForecast(s: State): Effect<State, Timer> {
    if HasContent(s.location) then Effect(s.(isGettingForecast := true), Some(ForecastDone), None)
    else Effect(s, None, None)
  }

  /** handleCurrentLocation. */
  function CurrentLocation(s: State): Effect<State, Timer> {
    Effect(s.(location := CurrentLocationText), Some(LocationResolved), None)
  }

  /** The two timer callbacks. */
  function Fire(s: State, t: Timer): Effect<State, Timer> {
    match t
    case ForecastDone => Effect(s.(isGettingForecast := false), None, Some(Nav(Result, Some(WeatherResult))))
    case LocationResolved => Effect(s.(location := ResolvedLocation), None, None)
  }

  /** The back arrow. */
  const BackNav: Nav := Nav(Home, None)

  /** The popular-location cards, in display order. */
  function PopularLocations(l: Language): seq<string> {
    match l
    case En => ["Lahore, Punjab", "Karachi, Sindh", "Faisalabad, Punjab", "Multan, Punjab", "Hyderabad, Sindh"]
    case Ur => ["لاہور، پنجاب", "کراچی، سندھ", "فیصل آباد، پنجاب", "ملتان، پنجاب", "حیدرآباد، سندھ"]
  }

  /**
   * A request is accepted exactly when the trimmed location is non-empty, so
   * a blank (for instance whitespace-only) location changes nothing; the flag
   * is not consulted.
   */
  lemma ForecastGate(s: State)
    ensures GetForecast(s).schedule.Some? <==> !Blank(s.location)
    ensures Blank(s.location) ==> GetForecast(s) == Effect(s, None, None)
    ensures !Blank(s.location) ==> GetForecast(s).state == s.(isGettingForecast := true)
    ensures GetForecast(s).nav == None
    ensures !ForecastDisabled(s) ==> GetForecast(s).schedule == Some(ForecastDone)
  {
  }

  /** Whitespace-only input is rejected; the initial empty input is too. */
  lemma WhitespaceOnlyRejected()
    ensures GetForecast(State("  \t ", false)) == Effect(State("  \t ", false), None, None)
    ensures GetForecast(Initial) == Effect(Initial, None, None)
    ensures ForecastDisabled(Initial)
  {
    assert Blank("  \t ");
  }

  /** An accepted request ends, when its timer fires, with the flag cleared and exactly the weather result requested. */
  lemma ForecastThenFire(s: State)
    requires !ForecastDisabled(s)
    ensures Fire(GetForecast(s).state, ForecastDone).state == s
    ensures Fire(GetForecast(s).state, ForecastDone).nav == Some(Nav(Result, Some(WeatherResult)))
    ensures Fire(GetForecast(s).state, ForecastDone).schedule == None
  {
  }

  /**
   * Enter while a forecast is in flight: the button is disabled, yet the key
   * calls the handler again, which sets a second forecast timer; so two
   * weather results are requested.
   */
  lemma EnterWhileBusy(s: State)
    requires HasContent(s.location)
    ensures ForecastDisabled(GetForecast(s).state)
    ensures GetForecast(GetForecast(s).state).schedule == Some(ForecastDone)
    ensures Fire(GetForecast(GetForecast(s).state).state, ForecastDone).nav == Some(Nav(Result, Some(WeatherResult)))
  {
  }

  /** Each language lists five locations, each beginning with a non-whitespace character. */
  lemma PopularLocationsStartWithLetters(l: Language)
    ensures |PopularLocations(l)| == 5
    ensures forall i :: 0 <= i < 5 ==> PopularLocations(l)[i] != [] && !IsWhitespace(PopularLocations(l)[i][0])
  {
  }

  /**
   * Selecting a card sets the location to exactly its text, which is never
   * blank, so the button becomes enabled unless a forecast is in flight.
   * There are five cards in each language.
   */
  lemma SelectPopular(s: State, l: Language, i: nat)
    requires i < |PopularLocations(l)|
    ensures |PopularLocations(l)| == |PopularLocations(Toggled(l))| == 5
    ensures SetLocation(s, PopularLocations(l)[i]).state.location == PopularLocations(l)[i]
    ensures HasContent(PopularLocations(l)[i])
    ensures !ForecastDisabled(SetLocation(s, PopularLocations(l)[i]).state) <==> !s.isGettingForecast
  {
    PopularLocationsStartWithLetters(l);
  }

  /**
   * "Use Current Location" writes the placeholder at once and sets a timer;
   * when it fires the resolved text replaces whatever was typed in between,
   * without touching the flag or navigating.
   */
  lemma CurrentLocationOverwrites(s: State, typed: string)
    ensures CurrentLocation(s).state.location == CurrentLocationText
    ensures CurrentLocation(s).schedule == Some(LocationResolved) && CurrentLocation(s).nav == None
    ensures Fire(SetLocation(CurrentLocation(s).state, typed).state, LocationResolved).state.location == ResolvedLocation
    ensures Fire(SetLocation(CurrentLocation(s).state, typed).state, LocationResolved).state.isGettingForecast == s.isGettingForecast
    ensures Fire(s, LocationResolved).nav == None && Fire(s, LocationResolved).schedule == None
  {
  }

  /** A mounted weather forecast screen. */
  class WeatherForecast {

    var location: string
    var isGettingForecast: bool
    /** Timers set by this instance that have not fired yet. */
    var pending: seq<Timer>

    function Model(): State
      reads this
    {
      State(location, isGettingForecast)
    }

    constructor ()
      ensures Model() == Initial && pending == []
    {
      location := "";
      isGettingForecast := false;
      pending := [];
    }

    /** The input's onChange. */
    method TypeLocation(v: string)
      modifies this
      ensures Model() == SetLocation(old(Model()), v).state && pending == old(pending)
    {
      location := v;
    }

    method HandleLocationSelect(selectedLocation: string)
      modifies this
      ensures Model() == SetLocation(old(Model()), selectedLocation).state && pending == old(pending)
    {
      location := selectedLocation;
    }

    method HandleGetForecast()
      modifies this
      ensures Model() == GetForecast(old(Model())).state
      ensures pending == Scheduled(old(pending), GetForecast(old(Model())).schedule)
    {
      if Trim(location) != [] {
        isGettingForecast := true;
        pending := pending + [ForecastDone];
      }
    }

    method HandleCurrentLocation()
      modifies this
      ensures Model() == CurrentLocation(old(Model())).state
      ensures pending == Scheduled(old(pending), CurrentLocation(old(Model())).schedule)
    {
      location := CurrentLocationText;
      pending := pending + [LocationResolved];
    }

    /** The `i`-th pending timer fires; `app` is onNavigate's owner. */
    method TimerFires(i: nat, app: App)
      requires i < |pending|
      modifies this, app
      ensures Model() == Fire(old(Model()), old(pending[i])).state
      ensures pending == Scheduled(Without(old(pending), i), Fire(old(Model()), old(pending[i])).schedule)
      ensures app.appState == After(old(app.appState), Fire(old(Model()), old(pending[i])).nav)
    {
      var t := pending[i];
      pending := Without(pending, i);
      match t
      case ForecastDone =>
        isGettingForecast := false;
        app.NavigateToScreen(Result, Some(WeatherResult));
      case LocationResolved =>
        location := ResolvedLocation;
    }

    method Back(app: App)
      modifies app
      ensures app.appState == Navigated(old(app.appState), BackNav)
    {
      app.NavigateToScreen(Home, None);
    }
  }

  /** Two Enter presses on a typed location: the second is accepted although the button is disabled, so two forecast timers are pending. */
  method EnterTwice(typed: string) returns (screen: WeatherForecast)
    requires HasContent(typed)
    ensures fresh(screen)
    ensures screen.Model() == State(typed, true)
    ensures ForecastDisabled(screen.Model())
    ensures screen.pending == [ForecastDone, ForecastDone]
  {
    screen := new WeatherForecast();
    screen.TypeLocation(typed);
    screen.HandleGetForecast();
    screen.HandleGetForecast();
  }

  /**
   * After two Enter presses the first timer shows the weather result; if the
   * farmer then goes back home, the second shows the weather result again.
   */
  method ResultTwice(app: App, typed: string) returns (afterBack: AppState)
    requires HasContent(typed)
    modifies app
    ensures afterBack.currentScreen == Home
    ensures app.appState == Navigated(afterBack, Nav(Result, Some(WeatherResult)))
  {
    var screen := EnterTwice(typed);
    screen.TimerFires(0, app);
    screen.Back(app);
    afterBack := app.appState;
    screen.TimerFires(0, app);
  }
}
