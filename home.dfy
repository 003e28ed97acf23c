/**
 * The home screen (src/components/HomeScreen.tsx): a constant list of five
 * service cards, each navigating to its screen without a result tag, and a
 * language button.
 */
module HomeScreen {

  import opened Wrappers
  import opened App

  /** The ids of the service cards, in display order. */
  const Services: seq<Screen> := [Disease, Yield, Irrigation, Weather, Voice]

  /** The keys of each translation bag. */
  function TranslationKeys(l: Language): set<string> {
    match l
    case En => {"welcome", "subtitle", "diseaseDetection", "diseaseDesc", "yieldPrediction", "yieldDesc",
                "irrigationAdvice", "irrigationDesc", "weatherForecast", "weatherDesc", "voiceAssistant",
                "voiceDesc", "language"}
    case Ur => {"welcome", "subtitle", "diseaseDetection", "diseaseDesc", "yieldPrediction", "yieldDesc",
                "irrigationAdvice", "irrigationDesc", "weatherForecast", "weatherDesc", "voiceAssistant",
                "voiceDesc", "language"}
  }

  /** The text of the language button. */
  function LanguageLabel(l: Language): string {
    match l
    case En => "اردو"
    case Ur => "English"
  }

  /** The request a click on the `i`-th card makes: its id, with no tag. */
  function CardNav(i: nat): (nav: Nav)
    requires i < |Services|
    ensures nav.resultType == None && WellTagged(nav)
    ensures nav.screen != Home && nav.screen != Result && nav.screen != Splash
  {
    Nav(Services[i], None)
  }

  /** The five cards open the five form screens, once each: exactly the screens a result can come from. */
  lemma ServicesAreTheForms()
    ensures |Services| == 5
    ensures forall i, j :: 0 <= i < j < |Services| ==> Services[i] != Services[j]
    ensures forall rt: ResultType :: ScreenOf(rt) in Services
    ensures forall i :: 0 <= i < |Services| ==> ResultTypeOf(Services[i]).Some?
  {
    forall rt: ResultType
      ensures ScreenOf(rt) in Services
    {
      match rt
      case DiseaseResult => assert Services[0] == Disease;
      case YieldResult => assert Services[1] == Yield;
      case IrrigationResult => assert Services[2] == Irrigation;
      case WeatherResult => assert Services[3] == Weather;
      case VoiceResult => assert Services[4] == Voice;
    }
  }

  /** The language button names the language it switches to; both bags have the same keys. */
  lemma LanguageLabelNamesOther(l: Language)
    ensures LanguageLabel(l) == LanguageName(Toggled(l))
    ensures TranslationKeys(l) == TranslationKeys(Toggled(l))
  {
  }
}
