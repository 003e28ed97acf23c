/**
 * The disease detection screen (src/components/DiseaseDetection.tsx): a
 * selected image (null until a photo is taken or uploaded) and an
 * `isAnalyzing` flag. Analyse sets the flag and a 2000 ms timer; when that
 * timer fires it clears the flag and asks for the disease result. The timer
 * is never cleared.
 *
 * Each handler and the timer callback is first a pure function from the
 * screen's state to an Effect; the `DiseaseDetection` class holds the
 * `useState` cells and the pending timers, and its methods are proved to do
 * what those functions say.
 */
module DiseaseDetection {

  import opened Wrappers
  import opened App

  /** The simulated analysis time in milliseconds. */
  const AnalysisDelay := 2000

  /** The image reference camera capture stores. */
  const Placeholder: string := "/api/placeholder/300/200"

  datatype State = State(selectedImage: Option<string>, isAnalyzing: bool)

  /** The `useState` initial values. */
  const Initial: State := State(None, false)

  /** The screen's only timer: the end of the simulated analysis. */
  datatype Timer = AnalysisDone

  /** `!selectedImage` is false: an image is set and is not the empty string. */
  predicate ImageSelected(s: State) {
    s.selectedImage.Some? && s.selectedImage.value != ""
  }

  /** The Analyse button is on screen (an image is selected) and not disabled. */
  predicate AnalyzeEnabled(s: State) {
    ImageSelected(s) && !s.isAnalyzing
  }

  /** handleCameraCapture. */
  function CameraCapture(s: State): Effect<State, Timer> {
    Effect(s.(selectedImage := Some(Placeholder)), None, None)
  }

  /** The FileReader's onload after an upload: the image becomes the data URL read. */
  function ImageLoaded(s: State, dataUrl: string): Effect<State, Timer> {
    Effect(s.(selectedImage := Some(dataUrl)), None, None)
  }

  /** "Choose Different Photo". */
  function ChooseDifferent(s: State): Effect<State, Timer> {
    Effect(s.(selectedImage := None), None, None)
  }

  /** handleAnalyze. */
  function Analyze(s: State): Effect<State, Timer> {
    Effect(s.(isAnalyzing := true), Some(AnalysisDone), None)
  }

  /** The analysis timer's callback. */
  function Fire(s: State, t: Timer): Effect<State, Timer> {
    Effect(s.(isAnalyzing := false), None, Some(Nav(Result, Some(DiseaseResult))))
  }

  /** The back arrow. */
  const BackNav: Nav := Nav(Home, None)

  /** The screen starts with the photo choices and no analysis. */
  lemma InitiallyChoosing()
    ensures !ImageSelected(Initial) && !Initial.isAnalyzing && !AnalyzeEnabled(Initial)
  {
  }

  /**
   * Camera capture selects the placeholder whatever was selected before; an
   * upload selects what was read; "Choose Different Photo" brings the photo
   * choices back. None of them touches the flag, sets a timer or navigates.
   */
  lemma PhotoChoices(s: State, dataUrl: string)
    ensures CameraCapture(s).state.selectedImage == Some(Placeholder) && ImageSelected(CameraCapture(s).state)
    ensures ImageLoaded(s, dataUrl).state.selectedImage == Some(dataUrl)
    ensures ImageSelected(ImageLoaded(s, dataUrl).state) <==> dataUrl != ""
    ensures !ImageSelected(ChooseDifferent(s).state)
    ensures CameraCapture(s).state.isAnalyzing == s.isAnalyzing
    ensures ImageLoaded(s, dataUrl).state.isAnalyzing == s.isAnalyzing
    ensures ChooseDifferent(s).state.isAnalyzing == s.isAnalyzing
    ensures CameraCapture(s).schedule == None && CameraCapture(s).nav == None
    ensures ImageLoaded(s, dataUrl).schedule == None && ImageLoaded(s, dataUrl).nav == None
    ensures ChooseDifferent(s).schedule == None && ChooseDifferent(s).nav == None
  {
  }

  /**
   * Analyse disables itself and sets one timer; when it fires the flag is
   * cleared, leaving the state as it was before Analyse, and exactly the
   * disease result is requested.
   */
  lemma AnalyzeThenFire(s: State)
    requires AnalyzeEnabled(s)
    ensures !AnalyzeEnabled(Analyze(s).state) && Analyze(s).state.selectedImage == s.selectedImage
    ensures Analyze(s).schedule == Some(AnalysisDone) && Analyze(s).nav == None
    ensures Fire(Analyze(s).state, AnalysisDone).state == s
    ensures Fire(Analyze(s).state, AnalysisDone).nav == Some(Nav(Result, Some(DiseaseResult)))
    ensures Fire(Analyze(s).state, AnalysisDone).schedule == None
  {
  }

  /** The timer's request does not depend on the state it fires in: it is always the disease result, well tagged. */
  lemma FireNavFixed(s1: State, s2: State, t: Timer)
    ensures Fire(s1, t).nav == Fire(s2, t).nav == Some(Nav(Result, Some(DiseaseResult)))
    ensures WellTagged(Fire(s1, t).nav.value)
    ensures !Fire(s1, t).state.isAnalyzing
  {
  }

  /** A mounted disease detection screen. */
  class DiseaseDetection {

    var selectedImage: Option<string>
    var isAnalyzing: bool
    /** Timers set by this instance that have not fired yet. */
    var pending: seq<Timer>

    function Model(): State
      reads this
    {
      State(selectedImage, isAnalyzing)
    }

    constructor ()
      ensures Model() == Initial && pending == []
    {
      selectedImage := None;
      isAnalyzing := false;
      pending := [];
    }

    method HandleCameraCapture()
      modifies this
      ensures Model() == CameraCapture(old(Model())).state && pending == old(pending)
    {
      selectedImage := Some(Placeholder);
    }

    method HandleImageLoaded(dataUrl: string)
      modifies this
      ensures Model() == ImageLoaded(old(Model()), dataUrl).state && pending == old(pending)
    {
      selectedImage := Some(dataUrl);
    }

    method ChooseDifferentPhoto()
      modifies this
      ensures Model() == ChooseDifferent(old(Model())).state && pending == old(pending)
    {
      selectedImage := None;
    }

    method HandleAnalyze()
      modifies this
      ensures Model() == Analyze(old(Model())).state
      ensures pending == Scheduled(old(pending), Analyze(old(Model())).schedule)
    {
      isAnalyzing := true;
      pending := pending + [AnalysisDone];
    }

    /** The `i`-th pending timer fires; `app` is onNavigate's owner. */
    method TimerFires(i: nat, app: App)
      requires i < |pending|
      modifies this, app
      ensures Model() == Fire(old(Model()), old(pending[i])).state
      ensures pending == Scheduled(Without(old(pending), i), Fire(old(Model()), old(pending[i])).schedule)
      ensures app.appState == After(old(app.appState), Fire(old(Model()), old(pending[i])).nav)
    {
      pending := Without(pending, i);
      isAnalyzing := false;
      app.NavigateToScreen(Result, Some(DiseaseResult));
    }

    method Back(app: App)
      modifies app
      ensures app.appState == Navigated(old(app.appState), BackNav)
    {
      app.NavigateToScreen(Home, None);
    }
  }

  /**
   * The analysis timer outlives the screen: Back while analysing shows home
   * at once, and the timer, which nothing clears, later shows the disease
   * result anyway.
   */
  method BackWhileAnalyzing(app: App) returns (afterBack: AppState)
    modifies app
    ensures afterBack == Navigated(old(app.appState), BackNav) && afterBack.currentScreen == Home
    ensures app.appState == Navigated(afterBack, Nav(Result, Some(DiseaseResult)))
  {
    var screen := new DiseaseDetection();
    screen.HandleCameraCapture();
    screen.HandleAnalyze();
    screen.Back(app);
    afterBack := app.appState;
    screen.TimerFires(0, app);
  }
}
