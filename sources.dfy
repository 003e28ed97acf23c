/**
 * Every place in the app that asks App to navigate: the splash's
 * onContinue (button or timer), the home service cards, the bottom
 * navigation items, the back arrows and timers of the five form screens,
 * and the result screen's back arrow and primary action. Together with the
 * language toggles they are the only calls of App's two mutators, so what
 * holds for every sequence of them holds for every session of the app.
 */
module NavigationSources {

  import opened Wrappers
  import opened App
  import HomeScreen
  import BottomNavigation
  import DiseaseDetection
  import YieldPrediction
  import IrrigationAdvice
  import WeatherForecast
  import VoiceAssistant
  import ResultScreen

  datatype Source =
    | Continue
    | ServiceCard(index: nat)
    | NavItem(index: nat)
    | DiseaseBack | DiseaseTimer
    | YieldBack | YieldTimer
    | IrrigationBack | IrrigationTimer
    | WeatherBack | WeatherTimer
    | VoiceBack | VoiceTimer
    | ResultBack | ResultPrimary(resultType: ResultType)

  /** The card or item index names one that is on screen. */
  predicate OnScreen(src: Source) {
    match src
    case ServiceCard(i) => i < |HomeScreen.Services|
    case NavItem(i) => i < |BottomNavigation.NavItems|
    case _ => true
  }

  /**
   * The request a source makes. A timer's request is the one its callback
   * makes, whatever the state of the screen it was set on (DiseaseTimerRequest
   * and its four siblings); for the voice screen it is the second timer of
   * the chain that navigates.
   */
  function Request(src: Source): (nav: Nav)
    requires OnScreen(src)
    ensures WellTagged(nav) && nav.screen != Splash
    ensures nav.screen == Result <==> src in {DiseaseTimer, YieldTimer, IrrigationTimer, WeatherTimer, VoiceTimer}
  {
    match src
    case Continue => Nav(Home, None)
    case ServiceCard(i) => HomeScreen.CardNav(i)
    case NavItem(i) => BottomNavigation.ItemNav(i)
    case DiseaseBack => DiseaseDetection.BackNav
    case DiseaseTimer => Nav(Result, Some(DiseaseResult))
    case YieldBack => YieldPrediction.BackNav
    case YieldTimer => Nav(Result, Some(YieldResult))
    case IrrigationBack => IrrigationAdvice.BackNav
    case IrrigationTimer => Nav(Result, Some(IrrigationResult))
    case WeatherBack => WeatherForecast.BackNav
    case WeatherTimer => Nav(Result, Some(WeatherResult))
    case VoiceBack => VoiceAssistant.BackNav
    case VoiceTimer => Nav(Result, Some(VoiceResult))
    case ResultBack => ResultScreen.BackNav
    case ResultPrimary(rt) => ResultScreen.PrimaryNav(rt)
  }

  /** The disease timer requests what handleAnalyze's callback requests, in any state of that screen. */
  lemma DiseaseTimerRequest(d: DiseaseDetection.State)
    ensures DiseaseDetection.Fire(d, DiseaseDetection.AnalysisDone).nav == Some(Request(DiseaseTimer))
  {
  }

  /** The yield timer requests what handlePredict's callback requests, in any state of that screen. */
  lemma YieldTimerRequest(y: YieldPrediction.State)
    ensures YieldPrediction.Fire(y, YieldPrediction.PredictionDone).nav == Some(Request(YieldTimer))
  {
  }

  /** The irrigation timer requests what handleGetAdvice's callback requests, in any state of that screen. */
  lemma IrrigationTimerRequest(i: IrrigationAdvice.State)
    ensures IrrigationAdvice.Fire(i, IrrigationAdvice.AdviceDone).nav == Some(Request(IrrigationTimer))
  {
  }

  /** The weather timer requests what handleGetForecast's callback requests, in any state of that screen. */
  lemma WeatherTimerRequest(w: WeatherForecast.State)
    ensures WeatherForecast.Fire(w, WeatherForecast.ForecastDone).nav == Some(Request(WeatherTimer))
  {
  }

  /** The voice timer requests what the processing callback requests, in any state of that screen. */
  lemma VoiceTimerRequest(v: VoiceAssistant.State)
    ensures VoiceAssistant.Fire(v, VoiceAssistant.ProcessingDone).nav == Some(Request(VoiceTimer))
  {
  }

  /** Each timer asks for the result of its own service, so the result screen shows what that service produced. */
  lemma TimersTagTheirService(src: Source)
    requires OnScreen(src) && Request(src).screen == Result
    ensures Request(src).resultType.Some?
    ensures ScreenOf(Request(src).resultType.value) ==
      match src
      case DiseaseTimer => Disease
      case YieldTimer => Yield
      case IrrigationTimer => Irrigation
      case WeatherTimer => Weather
      case _ => Voice
  {
  }

  /** One user action or timer: a navigation request from a source, or a language toggle (splash or home button). */
  datatype Event = Press(src: Source) | Toggle

  /** The mutator calls a sequence of events makes, in order. */
  function Updates(events: seq<Event>): (us: seq<Update>)
    requires forall k :: 0 <= k < |events| && events[k].Press? ==> OnScreen(events[k].src)
    ensures |us| == |events|
    ensures forall k :: 0 <= k < |us| ==> (us[k].Navigate? <==> events[k].Press?)
    ensures forall k :: 0 <= k < |us| && us[k].Navigate? ==> WellTagged(us[k].nav) && us[k].nav.screen != Splash
    decreases |events|
  {
    if |events| == 0 then []
    else
      [if events[0].Press? then Navigate(Request(events[0].src)) else ToggleLanguage] + Updates(events[1..])
  }

  /** Once a navigation away from the splash has happened, the splash is never shown again: no request names it. */
  lemma {:induction false} SplashUntilNavigation(s: AppState, updates: seq<Update>)
    requires forall k :: 0 <= k < |updates| && updates[k].Navigate? ==> updates[k].nav.screen != Splash
    ensures Apply(s, updates).currentScreen == Splash <==> s.currentScreen == Splash && NoNavigation(updates)
    decreases |updates|
  {
    if |updates| > 0 {
      var next := match updates[0]
        case Navigate(nav) => Navigated(s, nav)
        case ToggleLanguage => LanguageToggled(s);
      forall k | 0 <= k < |updates[1..]| && updates[1..][k].Navigate?
        ensures updates[1..][k].nav.screen != Splash
      {
        assert updates[1..][k] == updates[k + 1];
      }
      SplashUntilNavigation(next, updates[1..]);
      if NoNavigation(updates[1..]) && updates[0].ToggleLanguage? {
        forall k | 0 <= k < |updates|
          ensures updates[k].ToggleLanguage?
        {
          if k > 0 {
            assert updates[k] == updates[1..][k - 1];
          }
        }
      }
    }
  }

  /**
   * Over any session started from the initial state, the result screen is
   * never shown without a tag, so renderScreen's `resultType!` is safe and
   * the result screen's default branches are not taken.
   */
  lemma SessionTagged(events: seq<Event>)
    requires forall k :: 0 <= k < |events| && events[k].Press? ==> OnScreen(events[k].src)
    ensures Tagged(Apply(InitialState, Updates(events)))
  {
    var us := Updates(events);
    InitialStateIsSplash();
    assert forall k :: 0 <= k < |us| && us[k].Navigate? ==> WellTagged(us[k].nav);
    ApplyKeepsTagged(InitialState, us);
  }

  /** Over any session started from the initial state, the splash is shown, with showSplash set, exactly until the first navigation request. */
  lemma SessionSplash(events: seq<Event>)
    requires forall k :: 0 <= k < |events| && events[k].Press? ==> OnScreen(events[k].src)
    ensures Apply(InitialState, Updates(events)).currentScreen == Splash <==> forall k :: 0 <= k < |events| ==> events[k].Toggle?
    ensures Apply(InitialState, Updates(events)).showSplash <==> forall k :: 0 <= k < |events| ==> events[k].Toggle?
  {
    var us := Updates(events);
    SplashUntilNavigation(InitialState, us);
    ShowSplashUntilFirstNavigation(InitialState, us);
    assert NoNavigation(us) <==> forall k :: 0 <= k < |events| ==> events[k].Toggle?;
  }
}
