/**
 * The result screen (src/components/ResultScreen.tsx): the content for
 * `translations[language][resultType]`, an icon, a colour and an action
 * label chosen by `switch (resultType)`, a back arrow to home and a primary
 * action that navigates to the screen named by the result type.
 *
 * The switches are modelled over `Option<ResultType>`. None stands for the
 * value `appState.resultType!` would have if the tag were missing; the
 * component would then not render at all, since `t[undefined]` is undefined
 * and reading its `title` throws. None is kept only so that the model can
 * state that the switches' `default` branches are dead: every session keeps
 * the tag (NavigationSources.SessionTagged), so no gray or warning screen
 * and no back-labelled action is ever shown. Content wording is not
 * modelled; the key sets of each content bag and the few short figures the
 * two languages share are.
 */
module ResultScreen {

  import opened Wrappers
  import opened App

  datatype Icon = Camera | TrendingUp | Droplets | Cloud | MessageCircle | AlertTriangle

  datatype Color = Red | Blue | Cyan | Purple | Green | Gray

  /** getIcon. */
  function GetIcon(rt: Option<ResultType>): Icon {
    match rt
    case Some(DiseaseResult) => Camera
    case Some(YieldResult) => TrendingUp
    case Some(IrrigationResult) => Droplets
    case Some(WeatherResult) => Cloud
    case Some(VoiceResult) => MessageCircle
    case None => AlertTriangle
  }

  /** getColor. */
  function GetColor(rt: Option<ResultType>): Color {
    match rt
    case Some(DiseaseResult) => Red
    case Some(YieldResult) => Blue
    case Some(IrrigationResult) => Cyan
    case Some(WeatherResult) => Purple
    case Some(VoiceResult) => Green
    case None => Gray
  }

  /** The back label, `t.back`. */
  function BackLabel(l: Language): string {
    match l
    case En => "Back"
    case Ur => "واپس"
  }

  /** getActionButtonText. */
  function ActionLabel(l: Language, rt: Option<ResultType>): string {
    match (l, rt)
    case (En, Some(DiseaseResult)) => "Retake Photo"
    case (En, Some(YieldResult)) => "New Prediction"
    case (En, Some(IrrigationResult)) => "New Advice"
    case (En, Some(WeatherResult)) => "New Forecast"
    case (En, Some(VoiceResult)) => "Ask Again"
    case (Ur, Some(DiseaseResult)) => "دوبارہ تصویر لیں"
    case (Ur, Some(YieldResult)) => "نئی پیش گوئی"
    case (Ur, Some(IrrigationResult)) => "نئی رہنمائی"
    case (Ur, Some(WeatherResult)) => "نئی پیش گوئی"
    case (Ur, Some(VoiceResult)) => "دوبارہ پوچھیں"
    case (_, None) => BackLabel(l)
  }

  /** The keys of the content bag `translations[l][rt]`, as each language's table lists them. */
  function SectionKeys(l: Language, rt: ResultType): set<string> {
    match (l, rt)
    case (En, DiseaseResult) => {"title", "detected", "treatment", "prevention", "severity", "confidence", "result"}
    case (En, YieldResult) => {"title", "crop", "expectedYield", "perAcre", "recommendation", "factors", "result"}
    case (En, IrrigationResult) => {"title", "waterRequired", "nextIrrigation", "method", "timing", "result"}
    case (En, WeatherResult) => {"title", "temperature", "humidity", "rainPrediction", "farmingAdvice", "result"}
    case (En, VoiceResult) => {"title", "question", "answer", "relatedTopics", "result"}
    case (Ur, DiseaseResult) => {"title", "detected", "treatment", "prevention", "severity", "confidence", "result"}
    case (Ur, YieldResult) => {"title", "crop", "expectedYield", "perAcre", "recommendation", "factors", "result"}
    case (Ur, IrrigationResult) => {"title", "waterRequired", "nextIrrigation", "method", "timing", "result"}
    case (Ur, WeatherResult) => {"title", "temperature", "humidity", "rainPrediction", "farmingAdvice", "result"}
    case (Ur, VoiceResult) => {"title", "question", "answer", "relatedTopics", "result"}
  }

  /** The keys of `translations[l][rt].result`, as each language's table lists them. */
  function ResultKeys(l: Language, rt: ResultType): set<string> {
    match (l, rt)
    case (En, DiseaseResult) => {"disease", "treatment", "prevention", "severity", "confidence"}
    case (En, YieldResult) => {"crop", "yield", "recommendation", "factors"}
    case (En, IrrigationResult) => {"water", "next", "method", "timing"}
    case (En, WeatherResult) => {"temp", "humidity", "rain", "advice"}
    case (En, VoiceResult) => {"question", "answer", "topics"}
    case (Ur, DiseaseResult) => {"disease", "treatment", "prevention", "severity", "confidence"}
    case (Ur, YieldResult) => {"crop", "yield", "recommendation", "factors"}
    case (Ur, IrrigationResult) => {"water", "next", "method", "timing"}
    case (Ur, WeatherResult) => {"temp", "humidity", "rain", "advice"}
    case (Ur, VoiceResult) => {"question", "answer", "topics"}
  }

  /** The numeric figures of a result, in display order: the disease confidence, the weather temperature and humidity. */
  function Figures(l: Language, rt: ResultType): seq<string> {
    match (l, rt)
    case (En, DiseaseResult) => ["95%"]
    case (Ur, DiseaseResult) => ["95%"]
    case (En, WeatherResult) => ["32°C", "65%"]
    case (Ur, WeatherResult) => ["32°C", "65%"]
    case _ => []
  }

  /** The primary action: `onNavigate(resultType)`, the result type read as a screen, with no tag. */
  function PrimaryNav(rt: ResultType): (nav: Nav)
    ensures ResultTypeOf(nav.screen) == Some(rt)
    ensures nav.resultType == None && WellTagged(nav) && nav.screen != Splash && nav.screen != Result
  {
    ResultTypeIsScreen(rt, ScreenOf(rt));
    Nav(ScreenOf(rt), None)
  }

  /** The back arrow. */
  const BackNav: Nav := Nav(Home, None)

  /** The content lookup is total: both languages have a bag with a title and a result for every result type, with the same keys. */
  lemma LookupTotal(l: Language, rt: ResultType)
    ensures "title" in SectionKeys(l, rt) && "result" in SectionKeys(l, rt)
    ensures SectionKeys(l, rt) == SectionKeys(Toggled(l), rt)
    ensures ResultKeys(l, rt) == ResultKeys(Toggled(l), rt)
  {
  }

  /** The figures shown do not depend on the language. */
  lemma FiguresLanguageIndependent(rt: ResultType)
    ensures Figures(En, rt) == Figures(Ur, rt)
    ensures rt == DiseaseResult ==> Figures(En, rt) == ["95%"]
    ensures rt == WeatherResult ==> Figures(En, rt) == ["32°C", "65%"]
  {
  }

  /**
   * Five distinct colours and icons, one per result type; gray and the
   * warning icon are what the `default` branches would give for a missing
   * tag, which never reaches them (DefaultsUnreachable).
   */
  lemma ColorsAndIconsDistinct(a: Option<ResultType>, b: Option<ResultType>)
    ensures GetColor(a) == GetColor(b) <==> a == b
    ensures GetIcon(a) == GetIcon(b) <==> a == b
    ensures GetColor(a) == Gray <==> a == None
    ensures GetIcon(a) == AlertTriangle <==> a == None
  {
  }

  /**
   * The English action labels are pairwise distinct and differ from the
   * back label. In Urdu the yield and weather labels are the same text, so
   * the label does not identify the result there.
   */
  lemma ActionLabels(a: ResultType, b: ResultType)
    ensures ActionLabel(En, Some(a)) == ActionLabel(En, Some(b)) <==> a == b
    ensures ActionLabel(En, Some(a)) != BackLabel(En)
    ensures ActionLabel(Ur, Some(a)) != BackLabel(Ur)
    ensures ActionLabel(Ur, Some(YieldResult)) == ActionLabel(Ur, Some(WeatherResult))
  {
  }

  /**
   * On a state where the result screen is shown with a tag (the invariant
   * every navigation keeps), the switches' default branches are not taken:
   * the colour is not gray, the icon is not the warning, the label is not
   * the back label, and the primary action leads back to the service.
   */
  lemma DefaultsUnreachable(s: AppState)
    requires Tagged(s) && s.currentScreen == Result
    ensures GetColor(s.resultType) != Gray && GetIcon(s.resultType) != AlertTriangle
    ensures ActionLabel(s.language, s.resultType) != BackLabel(s.language)
    ensures RenderScreen(s) == ResultView(s.language, s.resultType.value)
    ensures ResultTypeOf(PrimaryNav(s.resultType.value).screen) == s.resultType
  {
  }
}
