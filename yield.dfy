/**
 * The yield prediction screen (src/components/YieldPrediction.tsx): four
 * string fields and an `isPredicting` flag. Predict does anything only when
 * all four fields are non-empty (JavaScript truthiness of a string); it then
 * sets the flag and a 2000 ms timer whose callback clears the flag and asks
 * for the yield result. The timer is never cleared.
 *
 * Also here: the option lists of the two drop-downs and the keys of the
 * label tables they are looked up in, including the Urdu stages table, whose
 * fourth key is not the value the fourth option uses.
 */
module YieldPrediction {

  import opened Wrappers
  import opened App

  /** The simulated prediction time in milliseconds. */
  const PredictionDelay := 2000

  datatype State = State(cropType: string, fieldSize: string, plantingDate: string, currentStage: string, isPredicting: bool)

  /** The `useState` initial values. */
  const Initial: State := State("", "", "", "", false)

  /** The four form fields. */
  datatype Field = CropType | FieldSize | PlantingDate | CurrentStage

  /** The screen's only timer: the end of the simulated prediction. */
  datatype Timer = PredictionDone

  function Get(s: State, f: Field): string {
    match f
    case CropType => s.cropType
    case FieldSize => s.fieldSize
    case PlantingDate => s.plantingDate
    case CurrentStage => s.currentStage
  }

  /** isFormValid: the truthiness of `cropType && fieldSize && plantingDate && currentStage`. */
  predicate IsFormValid(s: State) {
    s.cropType != "" && s.fieldSize != "" && s.plantingDate != "" && s.currentStage != ""
  }

  /** The Predict button's `disabled`. */
  predicate PredictDisabled(s: State) {
    !IsFormValid(s) || s.isPredicting
  }

  /** setCropType, setFieldSize, setPlantingDate or setCurrentStage with `v`. */
  function SetField(s: State, f: Field, v: string): Effect<State, Timer> {
    var next := match f
      case CropType => s.(cropType := v)
      case FieldSize => s.(fieldSize := v)
      case PlantingDate => s.(plantingDate := v)
      case CurrentStage => s.(currentStage := v);
    Effect(next, None, None)
  }

  /** handlePredict. */
  function Predict(s: State): Effect<State, Timer> {
    if IsFormValid(s) then Effect(s.(isPredicting := true), Some(PredictionDone), None)
    else Effect(s, None, None)
  }

  /** The prediction timer's callback. */
  function Fire(s: State, t: Timer): Effect<State, Timer> {
    Effect(s.(isPredicting := false), None, Some(Nav(Result, Some(YieldResult))))
  }

  /** The back arrow. */
  const BackNav: Nav := Nav(Home, None)

  /** The form is valid exactly when every field is non-empty; the initial form is not. */
  lemma FormValidIffAllFilled(s: State)
    ensures IsFormValid(s) <==> forall f: Field :: Get(s, f) != ""
    ensures !IsFormValid(Initial) && !Initial.isPredicting
  {
    if !IsFormValid(s) {
      if s.cropType == "" {
        assert Get(s, CropType) == "";
      } else if s.fieldSize == "" {
        assert Get(s, FieldSize) == "";
      } else if s.plantingDate == "" {
        assert Get(s, PlantingDate) == "";
      } else {
        assert Get(s, CurrentStage) == "";
      }
    }
  }

  /** Each setter writes its own field and no other, and never touches the flag, sets a timer or navigates. */
  lemma SetFieldTouchesOneField(s: State, f: Field, g: Field, v: string)
    ensures Get(SetField(s, f, v).state, f) == v
    ensures g != f ==> Get(SetField(s, f, v).state, g) == Get(s, g)
    ensures SetField(s, f, v).state.isPredicting == s.isPredicting
    ensures SetField(s, f, v).schedule == None && SetField(s, f, v).nav == None
  {
  }

  /**
   * handlePredict sets a timer exactly when the form is valid, whatever the
   * flag; on an invalid form it changes nothing. So an enabled button always
   * starts a prediction, and a disabled one is only ever disabled for an
   * invalid form or a prediction in flight.
   */
  lemma PredictGate(s: State)
    ensures Predict(s).schedule.Some? <==> IsFormValid(s)
    ensures !IsFormValid(s) ==> Predict(s) == Effect(s, None, None)
    ensures IsFormValid(s) ==> Predict(s).state.isPredicting && PredictDisabled(Predict(s).state)
    ensures Predict(s).nav == None
    ensures !PredictDisabled(s) ==> Predict(s).schedule == Some(PredictionDone)
  {
  }

  /** A prediction started from an enabled button ends, when its timer fires, in the form it started from, with the yield result requested. */
  lemma PredictThenFire(s: State)
    requires !PredictDisabled(s)
    ensures Fire(Predict(s).state, PredictionDone).state == s
    ensures Fire(Predict(s).state, PredictionDone).nav == Some(Nav(Result, Some(YieldResult)))
    ensures Fire(Predict(s).state, PredictionDone).schedule == None
  {
  }

  /** The request does not depend on the fields: it is always the yield result. */
  lemma FireNavFixed(s1: State, s2: State, t: Timer)
    ensures Fire(s1, t).nav == Fire(s2, t).nav == Some(Nav(Result, Some(YieldResult)))
    ensures !Fire(s1, t).state.isPredicting
  {
  }

  /** The values of the crop drop-down's options. */
  const CropOptions: seq<string> := ["wheat", "rice", "cotton", "corn", "sugarcane"]

  /** The values of the stage drop-down's options. */
  const StageOptions: seq<string> := ["seedling", "vegetative", "flowering", "maturity"]

  /** The keys of the `crops` label table. */
  function CropLabelKeys(l: Language): set<string> {
    match l
    case En => {"wheat", "rice", "cotton", "corn", "sugarcane"}
    case Ur => {"wheat", "rice", "cotton", "corn", "sugarcane"}
  }

  /** The keys of the `stages` label table, as written: the Urdu table's fourth key is the Urdu word for maturity. */
  function StageLabelKeys(l: Language): set<string> {
    match l
    case En => {"seedling", "vegetative", "flowering", "maturity"}
    case Ur => {"seedling", "vegetative", "flowering", "پختگی"}
  }

  /** The keys of the `stages` label table as evidently intended: the option values in both languages. */
  function IntendedStageLabelKeys(l: Language): set<string> {
    match l
    case En => {"seedling", "vegetative", "flowering", "maturity"}
    case Ur => {"seedling", "vegetative", "flowering", "maturity"}
  }

  /** The options among `options` that have no label under `keys`. */
  function Unlabelled(options: seq<string>, keys: set<string>): set<string> {
    set k | 0 <= k < |options| && options[k] !in keys :: options[k]
  }

  /** Every crop option has a label in both languages. */
  lemma CropLabelsComplete(l: Language)
    ensures Unlabelled(CropOptions, CropLabelKeys(l)) == {}
    ensures CropLabelKeys(l) == CropLabelKeys(Toggled(l))
  {
    assert forall k :: 0 <= k < |CropOptions| ==> CropOptions[k] in CropLabelKeys(l);
  }

  /** As written, the "maturity" option has no Urdu label (it shows empty); English is complete. */
  lemma UrduMaturityUnlabelled()
    ensures Unlabelled(StageOptions, StageLabelKeys(En)) == {}
    ensures Unlabelled(StageOptions, StageLabelKeys(Ur)) == {"maturity"}
  {
    assert forall k :: 0 <= k < |StageOptions| ==> StageOptions[k] in StageLabelKeys(En);
    assert StageOptions[3] == "maturity";
    assert forall k :: 0 <= k < 3 ==> StageOptions[k] in StageLabelKeys(Ur);
  }

  /** With the intended keys every stage option has a label in both languages, and the two tables agree. */
  lemma IntendedStageLabelsComplete(l: Language)
    ensures Unlabelled(StageOptions, IntendedStageLabelKeys(l)) == {}
    ensures IntendedStageLabelKeys(l) == IntendedStageLabelKeys(Toggled(l))
    ensures IntendedStageLabelKeys(En) == StageLabelKeys(En)
  {
    assert forall k :: 0 <= k < |StageOptions| ==> StageOptions[k] in IntendedStageLabelKeys(l);
  }

  /** A mounted yield prediction screen. */
  class YieldPrediction {

    var cropType: string
    var fieldSize: string
    var plantingDate: string
    var currentStage: string
    var isPredicting: bool
    /** Timers set by this instance that have not fired yet. */
    var pending: seq<Timer>

    function Model(): State
      reads this
    {
      State(cropType, fieldSize, plantingDate, currentStage, isPredicting)
    }

    constructor ()
      ensures Model() == Initial && pending == []
    {
      cropType, fieldSize, plantingDate, currentStage := "", "", "", "";
      isPredicting := false;
      pending := [];
    }

    method SetCropType(v: string)
      modifies this
      ensures Model() == SetField(old(Model()), CropType, v).state && pending == old(pending)
    {
      cropType := v;
    }

    method SetFieldSize(v: string)
      modifies this
      ensures Model() == SetField(old(Model()), FieldSize, v).state && pending == old(pending)
    {
      fieldSize := v;
    }

    method SetPlantingDate(v: string)
      modifies this
      ensures Model() == SetField(old(Model()), PlantingDate, v).state && pending == old(pending)
    {
      plantingDate := v;
    }

    method SetCurrentStage(v: string)
      modifies this
      ensures Model() == SetField(old(Model()), CurrentStage, v).state && pending == old(pending)
    {
      currentStage := v;
    }

    method HandlePredict()
      modifies this
      ensures Model() == Predict(old(Model())).state
      ensures pending == Scheduled(old(pending), Predict(old(Model())).schedule)
    {
      if cropType != "" && fieldSize != "" && plantingDate != "" && currentStage != "" {
        isPredicting := true;
        pending := pending + [PredictionDone];
      }
    }

    /** The `i`-th pending timer fires; `app` is onNavigate's owner. */
    method TimerFires(i: nat, app: App)
      requires i < |pending|
      modifies this, app
      ensures Model() == Fire(old(Model()), old(pending[i])).state
      ensures pending == Scheduled(Without(old(pending), i), Fire(old(Model()), old(pending[i])).schedule)
      ensures app.appState == After(old(app.appState), Fire(old(Model()), old(pending[i])).nav)
    {
      pending := Without(pending, i);
      isPredicting := false;
      app.NavigateToScreen(Result, Some(YieldResult));
    }

    method Back(app: App)
      modifies app
      ensures app.appState == Navigated(old(app.appState), BackNav)
    {
      app.NavigateToScreen(Home, None);
    }
  }
}
