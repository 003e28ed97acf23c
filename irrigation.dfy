/**
 * The irrigation advice screen (src/components/IrrigationAdvice.tsx): five
 * string fields and an `isCalculating` flag. Get Advice does anything only
 * when all five fields are non-empty; it then sets the flag and a 2000 ms
 * timer whose callback clears the flag and asks for the irrigation result.
 * The timer is never cleared.
 */
module IrrigationAdvice {

  import opened Wrappers
  import opened App

  /** The simulated calculation time in milliseconds. */
  const AdviceDelay := 2000

  datatype State = State(
    cropType: string,
    fieldSize: string,
    soilType: string,
    lastIrrigation: string,
    weatherCondition: string,
    isCalculating: bool)

  /** The `useState` initial values. */
  const Initial: State := State("", "", "", "", "", false)

  /** The five form fields. */
  datatype Field = CropType | FieldSize | SoilType | LastIrrigation | WeatherCondition

  /** The screen's only timer: the end of the simulated calculation. */
  datatype Timer = AdviceDone

  function Get(s: State, f: Field): string {
    match f
    case CropType => s.cropType
    case FieldSize => s.fieldSize
    case SoilType => s.soilType
    case LastIrrigation => s.lastIrrigation
    case WeatherCondition => s.weatherCondition
  }

  /** isFormValid: the truthiness of the five fields joined by `&&`. */
  predicate IsFormValid(s: State) {
    s.cropType != "" && s.fieldSize != "" && s.soilType != "" && s.lastIrrigation != "" && s.weatherCondition != ""
  }

  /** The Get Advice button's `disabled`. */
  predicate AdviceDisabled(s: State) {
    !IsFormValid(s) || s.isCalculating
  }

  /** One of the five setters, with `v`. */
  function SetField(s: State, f: Field, v: string): Effect<State, Timer> {
    var next := match f
      case CropType => s.(cropType := v)
      case FieldSize => s.(fieldSize := v)
      case SoilType => s.(soilType := v)
      case LastIrrigation => s.(lastIrrigation := v)
      case WeatherCondition => s.(weatherCondition := v);
    Effect(next, None, None)
  }

  /** handleGetAdvice. */
  function GetAdvice(s: State): Effect<State, Timer> {
    if IsFormValid(s) then Effect(s.(isCalculating := true), Some(AdviceDone), None)
    else Effect(s, None, None)
  }

  /** The calculation timer's callback. */
  function Fire(s: State, t: Timer): Effect<State, Timer> {
    Effect(s.(isCalculating := false), None, Some(Nav(Result, Some(IrrigationResult))))
  }

  /** The back arrow: home, with no tag. */
  const BackNav: Nav := Nav(Home, None)

  /** The form is valid exactly when every field is non-empty; the initial form is not. */
  lemma FormValidIffAllFilled(s: State)
    ensures IsFormValid(s) <==> forall f: Field :: Get(s, f) != ""
    ensures !IsFormValid(Initial) && !Initial.isCalculating
  {
    if !IsFormValid(s) {
      if s.cropType == "" {
        assert Get(s, CropType) == "";
      } else if s.fieldSize == "" {
        assert Get(s, FieldSize) == "";
      } else if s.soilType == "" {
        assert Get(s, SoilType) == "";
      } else if s.lastIrrigation == "" {
        assert Get(s, LastIrrigation) == "";
      } else {
        assert Get(s, WeatherCondition) == "";
      }
    }
  }

  /** Each setter overwrites its own field and no other, and never touches the flag, sets a timer or navigates. */
  lemma SetFieldTouchesOneField(s: State, f: Field, g: Field, v: string)
    ensures Get(SetField(s, f, v).state, f) == v
    ensures g != f ==> Get(SetField(s, f, v).state, g) == Get(s, g)
    ensures SetField(s, f, v).state.isCalculating == s.isCalculating
    ensures SetField(s, f, v).schedule == None && SetField(s, f, v).nav == None
  {
  }

  /** handleGetAdvice sets a timer exactly when the form is valid and is a no-op otherwise; an enabled button always starts a calculation. */
  lemma GetAdviceGate(s: State)
    ensures GetAdvice(s).schedule.Some? <==> IsFormValid(s)
    ensures !IsFormValid(s) ==> GetAdvice(s) == Effect(s, None, None)
    ensures IsFormValid(s) ==> GetAdvice(s).state.isCalculating && AdviceDisabled(GetAdvice(s).state)
    ensures GetAdvice(s).nav == None
    ensures !AdviceDisabled(s) ==> GetAdvice(s).schedule == Some(AdviceDone)
  {
  }

  /** A calculation started from an enabled button ends, when its timer fires, in the form it started from, with the irrigation result requested. */
  lemma GetAdviceThenFire(s: State)
    requires !AdviceDisabled(s)
    ensures Fire(GetAdvice(s).state, AdviceDone).state == s
    ensures Fire(GetAdvice(s).state, AdviceDone).nav == Some(Nav(Result, Some(IrrigationResult)))
    ensures Fire(GetAdvice(s).state, AdviceDone).schedule == None
  {
  }

  /** The request does not depend on the fields: it is always the irrigation result. */
  lemma FireNavFixed(s1: State, s2: State, t: Timer)
    ensures Fire(s1, t).nav == Fire(s2, t).nav == Some(Nav(Result, Some(IrrigationResult)))
    ensures !Fire(s1, t).state.isCalculating
  {
  }

  /** The values of the three drop-downs' options. */
  const CropOptions: seq<string> := ["wheat", "rice", "cotton", "corn", "vegetables"]
  const SoilOptions: seq<string> := ["clay", "sandy", "loam", "silt"]
  const WeatherOptions: seq<string> := ["sunny", "cloudy", "rainy", "humid"]

  /** The keys of the `crops` label table. */
  function CropLabelKeys(l: Language): set<string> {
    match l
    case En => {"wheat", "rice", "cotton", "corn", "vegetables"}
    case Ur => {"wheat", "rice", "cotton", "corn", "vegetables"}
  }

  /** The keys of the `soilTypes` label table. */
  function SoilLabelKeys(l: Language): set<string> {
    match l
    case En => {"clay", "sandy", "loam", "silt"}
    case Ur => {"clay", "sandy", "loam", "silt"}
  }

  /** The keys of the `weather` label table. */
  function WeatherLabelKeys(l: Language): set<string> {
    match l
    case En => {"sunny", "cloudy", "rainy", "humid"}
    case Ur => {"sunny", "cloudy", "rainy", "humid"}
  }

  /** Every option of the three drop-downs has a label in either language, and the two languages have the same keys. */
  lemma LabelTablesComplete(l: Language)
    ensures forall k :: 0 <= k < |CropOptions| ==> CropOptions[k] in CropLabelKeys(l)
    ensures forall k :: 0 <= k < |SoilOptions| ==> SoilOptions[k] in SoilLabelKeys(l)
    ensures forall k :: 0 <= k < |WeatherOptions| ==> WeatherOptions[k] in WeatherLabelKeys(l)
    ensures CropLabelKeys(l) == CropLabelKeys(Toggled(l))
    ensures SoilLabelKeys(l) == SoilLabelKeys(Toggled(l))
    ensures WeatherLabelKeys(l) == WeatherLabelKeys(Toggled(l))
  {
  }

  /** A mounted irrigation advice screen. */
  class IrrigationAdvice {

    var cropType: string
    var fieldSize: string
    var soilType: string
    var lastIrrigation: string
    var weatherCondition: string
    var isCalculating: bool
    /** Timers set by this instance that have not fired yet. */
    var pending: seq<Timer>

    function Model(): State
      reads this
    {
      State(cropType, fieldSize, soilType, lastIrrigation, weatherCondition, isCalculating)
    }

    constructor ()
      ensures Model() == Initial && pending == []
    {
      cropType, fieldSize, soilType, lastIrrigation, weatherCondition := "", "", "", "", "";
      isCalculating := false;
      pending := [];
    }

    method SetCropType(v: string)
      modifies this
      ensures Model() == SetField(old(Model()), CropType, v).state && pending == old(pending)
    {
      cropType := v;
    }

    method SetFieldSize(v: string)
      modifies this
      ensures Model() == SetField(old(Model()), FieldSize, v).state && pending == old(pending)
    {
      fieldSize := v;
    }

    method SetSoilType(v: string)
      modifies this
      ensures Model() == SetField(old(Model()), SoilType, v).state && pending == old(pending)
    {
      soilType := v;
    }

    method SetLastIrrigation(v: string)
      modifies this
      ensures Model() == SetField(old(Model()), LastIrrigation, v).state && pending == old(pending)
    {
      lastIrrigation := v;
    }

    method SetWeatherCondition(v: string)
      modifies this
      ensures Model() == SetField(old(Model()), WeatherCondition, v).state && pending == old(pending)
    {
      weatherCondition := v;
    }

    method HandleGetAdvice()
      modifies this
      ensures Model() == GetAdvice(old(Model())).state
      ensures pending == Scheduled(old(pending), GetAdvice(old(Model())).schedule)
    {
      if cropType != "" && fieldSize != "" && soilType != "" && lastIrrigation != "" && weatherCondition != "" {
        isCalculating := true;
        pending := pending + [AdviceDone];
      }
    }

    /** The `i`-th pending timer fires; `app` is onNavigate's owner. */
    method TimerFires(i: nat, app: App)
      requires i < |pending|
      modifies this, app
      ensures Model() == Fire(old(Model()), old(pending[i])).state
      ensures pending == Scheduled(Without(old(pending), i), Fire(old(Model()), old(pending[i])).schedule)
      ensures app.appState == After(old(app.appState), Fire(old(Model()), old(pending[i])).nav)
    {
      pending := Without(pending, i);
      isCalculating := false;
      app.NavigateToScreen(Result, Some(IrrigationResult));
    }

    method Back(app: App)
      modifies app
      ensures app.appState == Navigated(old(app.appState), BackNav)
    {
      app.NavigateToScreen(Home, None);
    }
  }
}
