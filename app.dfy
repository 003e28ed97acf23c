/**
 * The root component (src/App.tsx): the single AppState record held in
 * `useState`, the two functions that update it (navigateToScreen and
 * toggleLanguage), and renderScreen, which picks the screen to show.
 *
 * React's `setAppState(prev => ...)` is modelled as assigning the value of a
 * pure updater function to the `appState` field of an `App` object: the
 * updaters `Navigated` and `LanguageToggled` are those arrow functions.
 */
module App {

  import opened Wrappers

  datatype Language = En | Ur

  datatype Screen =
    | Splash | Home | Disease | Voice | Yield | Irrigation | Weather
    | Result | Reports | Notifications | Profile

  datatype ResultType = DiseaseResult | YieldResult | IrrigationResult | WeatherResult | VoiceResult

  /** One call `onNavigate(screen, resultType)`; the tag is None when the second argument is omitted. */
  datatype Nav = Nav(screen: Screen, resultType: Option<ResultType>)

  datatype AppState = AppState(
    currentScreen: Screen,
    language: Language,
    resultType: Option<ResultType>,
    showSplash: bool)

  /** The value `useState` starts from. */
  const InitialState: AppState := AppState(Splash, En, None, true)

  /** The name of a language, written in that language. */
  function LanguageName(l: Language): string {
    match l
    case En => "English"
    case Ur => "اردو"
  }

  /** The other language. */
  function Toggled(l: Language): Language {
    if l == En then Ur else En
  }

  /** The updater navigateToScreen passes to setAppState. */
  function Navigated(prev: AppState, nav: Nav): AppState {
    prev.(currentScreen := nav.screen, resultType := nav.resultType, showSplash := false)
  }

  /** The updater toggleLanguage passes to setAppState. */
  function LanguageToggled(prev: AppState): AppState {
    prev.(language := Toggled(prev.language))
  }

  /** The state after an optional navigation. */
  function After(prev: AppState, nav: Option<Nav>): AppState {
    if nav.Some? then Navigated(prev, nav.value) else prev
  }

  /** The result screen is shown only with a tag: renderScreen's `appState.resultType!` relies on it. */
  predicate Tagged(s: AppState) {
    s.currentScreen == Result ==> s.resultType.Some?
  }

  /** A navigation request for the result screen carries a tag. */
  predicate WellTagged(nav: Nav) {
    nav.screen == Result ==> nav.resultType.Some?
  }

  /** Every ResultType literal is also a Screen literal: the screen of the service that produced the result. */
  function ScreenOf(rt: ResultType): Screen {
    match rt
    case DiseaseResult => Disease
    case YieldResult => Yield
    case IrrigationResult => Irrigation
    case WeatherResult => Weather
    case VoiceResult => Voice
  }

  /** The inverse of ScreenOf: the ResultType literal equal to a Screen literal, if any. */
  function ResultTypeOf(s: Screen): Option<ResultType> {
    match s
    case Disease => Some(DiseaseResult)
    case Yield => Some(YieldResult)
    case Irrigation => Some(IrrigationResult)
    case Weather => Some(WeatherResult)
    case Voice => Some(VoiceResult)
    case _ => None
  }

  /** ResultType is a subset of Screen: ScreenOf and ResultTypeOf are inverse on it, and no result names the result screen itself. */
  lemma ResultTypeIsScreen(rt: ResultType, s: Screen)
    ensures ResultTypeOf(ScreenOf(rt)) == Some(rt)
    ensures ResultTypeOf(s) == Some(rt) <==> ScreenOf(rt) == s
    ensures ScreenOf(rt) !in {Splash, Home, Result, Reports, Notifications, Profile}
  {
  }

  /** The initial state shows the splash screen in English with no tag. */
  lemma InitialStateIsSplash()
    ensures InitialState.currentScreen == Splash && InitialState.language == En
    ensures InitialState.resultType == None && InitialState.showSplash
    ensures Tagged(InitialState)
  {
  }

  /** navigate(s, rt) shows `s` with exactly the tag `rt` (no stale tag survives), hides the splash and keeps the language. */
  lemma NavigatedSets(prev: AppState, nav: Nav)
    ensures Navigated(prev, nav).currentScreen == nav.screen
    ensures Navigated(prev, nav).resultType == nav.resultType
    ensures nav.resultType == None ==> Navigated(prev, nav).resultType == None
    ensures !Navigated(prev, nav).showSplash
    ensures Navigated(prev, nav).language == prev.language
  {
  }

  /** After a navigation the tag invariant holds exactly when the request was well tagged. */
  lemma NavigatedTagged(prev: AppState, nav: Nav)
    ensures Tagged(Navigated(prev, nav)) <==> WellTagged(nav)
  {
  }

  /** toggleLanguage maps en to ur and ur to en, and changes no other field. */
  lemma LanguageToggledFlips(prev: AppState)
    ensures LanguageToggled(prev).language != prev.language
    ensures prev.language == En ==> LanguageToggled(prev).language == Ur
    ensures prev.language == Ur ==> LanguageToggled(prev).language == En
    ensures LanguageToggled(prev).currentScreen == prev.currentScreen
    ensures LanguageToggled(prev).resultType == prev.resultType
    ensures LanguageToggled(prev).showSplash == prev.showSplash
    ensures Tagged(LanguageToggled(prev)) <==> Tagged(prev)
  {
  }

  /** toggleLanguage applied twice is the identity on the whole state. */
  lemma LanguageToggledTwice(prev: AppState)
    ensures LanguageToggled(LanguageToggled(prev)) == prev
  {
  }

  /** One call of one of the two mutators. */
  datatype Update = Navigate(nav: Nav) | ToggleLanguage

  /** The state after a sequence of mutator calls. */
  function Apply(s: AppState, updates: seq<Update>): AppState
    decreases |updates|
  {
    if |updates| == 0 then s
    else
      var next := match updates[0]
        case Navigate(nav) => Navigated(s, nav)
        case ToggleLanguage => LanguageToggled(s);
      Apply(next, updates[1..])
  }

  /** No call in `updates` is a navigation. */
  predicate NoNavigation(updates: seq<Update>) {
    forall k :: 0 <= k < |updates| ==> updates[k].ToggleLanguage?
  }

  /** showSplash is true exactly until the first navigation: once false it stays false under both mutators. */
  lemma {:induction false} ShowSplashUntilFirstNavigation(s: AppState, updates: seq<Update>)
    ensures Apply(s, updates).showSplash <==> s.showSplash && NoNavigation(updates)
    decreases |updates|
  {
    if |updates| > 0 {
      var next := match updates[0]
        case Navigate(nav) => Navigated(s, nav)
        case ToggleLanguage => LanguageToggled(s);
      ShowSplashUntilFirstNavigation(next, updates[1..]);
      if NoNavigation(updates[1..]) && updates[0].ToggleLanguage? {
        forall k | 0 <= k < |updates|
          ensures updates[k].ToggleLanguage?
        {
          if k > 0 {
            assert updates[k] == updates[1..][k - 1];
          }
        }
      }
    }
  }

  /** When every navigation is well tagged, the result screen is never shown without a tag. */
  lemma {:induction false} ApplyKeepsTagged(s: AppState, updates: seq<Update>)
    requires Tagged(s)
    requires forall k :: 0 <= k < |updates| && updates[k].Navigate? ==> WellTagged(updates[k].nav)
    ensures Tagged(Apply(s, updates))
    decreases |updates|
  {
    if |updates| > 0 {
      var next := match updates[0]
        case Navigate(nav) => Navigated(s, nav)
        case ToggleLanguage => LanguageToggled(s);
      forall k | 0 <= k < |updates[1..]| && updates[1..][k].Navigate?
        ensures WellTagged(updates[1..][k].nav)
      {
        assert updates[1..][k] == updates[k + 1];
      }
      ApplyKeepsTagged(next, updates[1..]);
    }
  }

  /** The component renderScreen returns, with the props that carry data. */
  datatype View =
    | SplashView(language: Language)
    | HomeView(language: Language)
    | DiseaseView(language: Language)
    | VoiceView(language: Language)
    | YieldView(language: Language)
    | IrrigationView(language: Language)
    | WeatherView(language: Language)
    | ResultView(language: Language, resultType: ResultType)
    | ReportsView(language: Language)
    | NotificationsView(language: Language)
    | ProfileView(language: Language)

  /** The screen a view belongs to. */
  function ViewScreen(v: View): Screen {
    match v
    case SplashView(_) => Splash
    case HomeView(_) => Home
    case DiseaseView(_) => Disease
    case VoiceView(_) => Voice
    case YieldView(_) => Yield
    case IrrigationView(_) => Irrigation
    case WeatherView(_) => Weather
    case ResultView(_, _) => Result
    case ReportsView(_) => Reports
    case NotificationsView(_) => Notifications
    case ProfileView(_) => Profile
  }

  /**
   * renderScreen: one case per Screen value. The switch's `default` branch
   * (home) cannot be reached for a well-typed screen, so every screen renders
   * its own view, in the current language; the result view receives the tag.
   */
  function RenderScreen(s: AppState): (v: View)
    requires Tagged(s)
    ensures ViewScreen(v) == s.currentScreen
    ensures v.language == s.language
    ensures v.ResultView? ==> s.resultType == Some(v.resultType)
  {
    var l := s.language;
    match s.currentScreen
    case Splash => SplashView(l)
    case Home => HomeView(l)
    case Disease => DiseaseView(l)
    case Voice => VoiceView(l)
    case Yield => YieldView(l)
    case Irrigation => IrrigationView(l)
    case Weather => WeatherView(l)
    case Result => ResultView(l, s.resultType.value)
    case Reports => ReportsView(l)
    case Notifications => NotificationsView(l)
    case Profile => ProfileView(l)
  }

  /** What one handler or timer callback of a screen does: its next local state, the timer it sets (if any) and the navigation it requests (if any). */
  datatype Effect<S, T> = Effect(state: S, schedule: Option<T>, nav: Option<Nav>)

  /** The pending timers after a handler that may have called setTimeout once. */
  function Scheduled<T>(pending: seq<T>, t: Option<T>): seq<T> {
    if t.Some? then pending + [t.value] else pending
  }

  /** The pending timers once the `i`-th has fired. */
  function Without<T>(pending: seq<T>, i: nat): seq<T>
    requires i < |pending|
  {
    pending[..i] + pending[i + 1..]
  }

  /** The App component: owner of the one AppState value. */
  class App {

    var appState: AppState

    constructor ()
      ensures appState == InitialState
    {
      appState := InitialState;
    }

    /** navigateToScreen(screen, resultType). */
    method NavigateToScreen(screen: Screen, resultType: Option<ResultType>)
      modifies this
      ensures appState == Navigated(old(appState), Nav(screen, resultType))
    {
      appState := Navigated(appState, Nav(screen, resultType));
    }

    /** toggleLanguage(). */
    method ToggleLanguage()
      modifies this
      ensures appState == LanguageToggled(old(appState))
    {
      appState := LanguageToggled(appState);
    }

    /** Calls onNavigate when a handler requested a navigation. */
    method Request(nav: Option<Nav>)
      modifies this
      ensures appState == After(old(appState), nav)
    {
      if nav.Some? {
        NavigateToScreen(nav.value.screen, nav.value.resultType);
      }
    }
  }
}
