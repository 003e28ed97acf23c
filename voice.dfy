/**
 * The voice assistant screen (src/components/VoiceAssistant.tsx): flags
 * `isRecording` and `isProcessing` and a `textQuestion` string. Recording
 * runs a chain of two timers (3000 ms of recording, then 1500 ms of
 * processing, then the voice result); a text submit with a non-blank
 * question runs the second half only. The record button checks both flags,
 * the send button only `isProcessing`, the Enter key neither. No timer is
 * cleared.
 */
module VoiceAssistant {

  import opened Wrappers
  import opened App
  import opened Strings

  /** The simulated recording and processing times in milliseconds. */
  const RecordingDelay := 3000
  const ProcessingDelay := 1500

  datatype State = State(isRecording: bool, textQuestion: string, isProcessing: bool)

  /** The `useState` initial values. */
  const Initial: State := State(false, "", false)

  /** The screen's two timers: the end of recording, and the end of processing. */
  datatype Timer = RecordingDone | ProcessingDone

  /** The record button's `disabled`. */
  predicate RecordDisabled(s: State) {
    s.isRecording || s.isProcessing
  }

  /** The send button's `disabled`. */
  predicate SendDisabled(s: State) {
    !HasContent(s.textQuestion) || s.isProcessing
  }

  /** handleStartRecording. */
  function StartRecording(s: State): Effect<State, Timer> {
    Effect(s.(isRecording := true), Some(RecordingDone), None)
  }

  /** handleTextSubmit, reached by the send button and by the Enter key. */
  function TextSubmit(s: State): Effect<State, Timer> {
    if HasContent(s.textQuestion) then Effect(s.(isProcessing := true), Some(ProcessingDone), None)
    else Effect(s, None, None)
  }

  /** setTextQuestion with `v`: what typing does, and what handleExampleClick does with an example. */
  function SetQuestion(s: State, v: string): Effect<State, Timer> {
    Effect(s.(textQuestion := v), None, None)
  }

  /** The two timer callbacks: the end of recording starts processing and its timer; the end of processing asks for the voice result. */
  function Fire(s: State, t: Timer): Effect<State, Timer> {
    match t
    case RecordingDone => Effect(s.(isRecording := false, isProcessing := true), Some(ProcessingDone), None)
    case ProcessingDone => Effect(s.(isProcessing := false), None, Some(Nav(Result, Some(VoiceResult))))
  }

  /** The back arrow. */
  const BackNav: Nav := Nav(Home, None)

  /** The example questions, in display order. */
  function Examples(l: Language): seq<string> {
    match l
    case En => [
      "What fertilizer should I use for wheat?",
      "When is the best time to plant cotton?",
      "How to treat leaf spots on tomatoes?"]
    case Ur => [
      "گندم کے لیے کون سا کھاد استعمال کروں؟",
      "کپاس بونے کا بہترین وقت کب ہے؟",
      "ٹماٹر کے پتوں پر دھبوں کا علاج کیسے کریں؟"]
  }

  /**
   * The recording chain from an idle screen: start sets recording; the first
   * timer swaps recording for processing and sets the second; the second
   * clears processing and asks for the voice result, leaving the screen idle
   * again with the question untouched.
   */
  lemma RecordingChain(s: State)
    requires !RecordDisabled(s)
    ensures var s1 := StartRecording(s);
      && s1.state.isRecording && RecordDisabled(s1.state) && s1.schedule == Some(RecordingDone) && s1.nav == None
      && var s2 := Fire(s1.state, RecordingDone);
      && !s2.state.isRecording && s2.state.isProcessing && s2.schedule == Some(ProcessingDone) && s2.nav == None
      && var s3 := Fire(s2.state, ProcessingDone);
      && s3.state == s && s3.schedule == None && s3.nav == Some(Nav(Result, Some(VoiceResult)))
  {
  }

  /** A text submit is accepted exactly when the trimmed question is non-empty; it then sets processing and the processing timer, and otherwise changes nothing. */
  lemma TextSubmitGate(s: State)
    ensures TextSubmit(s).schedule.Some? <==> !Blank(s.textQuestion)
    ensures Blank(s.textQuestion) ==> TextSubmit(s) == Effect(s, None, None)
    ensures !Blank(s.textQuestion) ==> TextSubmit(s).state == s.(isProcessing := true) && TextSubmit(s).schedule == Some(ProcessingDone)
    ensures TextSubmit(s).nav == None
  {
  }

  /** Clicking an example sets the question to exactly that example, which is never blank; there are three in each language. */
  lemma ExampleClick(s: State, l: Language, i: nat)
    requires i < |Examples(l)|
    ensures |Examples(l)| == |Examples(Toggled(l))| == 3
    ensures SetQuestion(s, Examples(l)[i]).state.textQuestion == Examples(l)[i]
    ensures SetQuestion(s, Examples(l)[i]).state.isRecording == s.isRecording
    ensures SetQuestion(s, Examples(l)[i]).state.isProcessing == s.isProcessing
    ensures HasContent(Examples(l)[i])
  {
    assert !IsWhitespace(Examples(l)[i][0]);
  }

  /**
   * Submitting text while recording (the send button does not look at
   * `isRecording`): both flags are then true, and two processing timers end
   * up pending, so two voice results are requested.
   */
  lemma SubmitWhileRecording(s: State)
    requires !RecordDisabled(s) && HasContent(s.textQuestion)
    ensures var r := StartRecording(s).state;
      && !SendDisabled(r)
      && var t := TextSubmit(r);
      && t.state.isRecording && t.state.isProcessing && t.schedule == Some(ProcessingDone)
      && var f := Fire(t.state, RecordingDone);
      && f.schedule == Some(ProcessingDone)
      && Fire(f.state, ProcessingDone).nav == Some(Nav(Result, Some(VoiceResult)))
      && Fire(Fire(f.state, ProcessingDone).state, ProcessingDone).nav == Some(Nav(Result, Some(VoiceResult)))
  {
  }

  /** The question never affects the outcome: every request is the voice result. */
  lemma FireNavFixed(s1: State, s2: State, t: Timer)
    ensures Fire(s1, t).nav == Fire(s2, t).nav
    ensures Fire(s1, t).nav.Some? ==> Fire(s1, t).nav == Some(Nav(Result, Some(VoiceResult)))
  {
  }

  /** A mounted voice assistant screen. */
  class VoiceAssistant {

    var isRecording: bool
    var textQuestion: string
    var isProcessing: bool
    /** Timers set by this instance that have not fired yet. */
    var pending: seq<Timer>

    function Model(): State
      reads this
    {
      State(isRecording, textQuestion, isProcessing)
    }

    constructor ()
      ensures Model() == Initial && pending == []
    {
      isRecording := false;
      textQuestion := "";
      isProcessing := false;
      pending := [];
    }

    method HandleStartRecording()
      modifies this
      ensures Model() == StartRecording(old(Model())).state
      ensures pending == Scheduled(old(pending), StartRecording(old(Model())).schedule)
    {
      isRecording := true;
      pending := pending + [RecordingDone];
    }

    method HandleTextSubmit()
      modifies this
      ensures Model() == TextSubmit(old(Model())).state
      ensures pending == Scheduled(old(pending), TextSubmit(old(Model())).schedule)
    {
      if Trim(textQuestion) != [] {
        isProcessing := true;
        pending := pending + [ProcessingDone];
      }
    }

    /** The input's onChange. */
    method TypeQuestion(v: string)
      modifies this
      ensures Model() == SetQuestion(old(Model()), v).state && pending == old(pending)
    {
      textQuestion := v;
    }

    method HandleExampleClick(example: string)
      modifies this
      ensures Model() == SetQuestion(old(Model()), example).state && pending == old(pending)
    {
      textQuestion := example;
    }

    /** The `i`-th pending timer fires; `app` is onNavigate's owner. */
    method TimerFires(i: nat, app: App)
      requires i < |pending|
      modifies this, app
      ensures Model() == Fire(old(Model()), old(pending[i])).state
      ensures pending == Scheduled(Without(old(pending), i), Fire(old(Model()), old(pending[i])).schedule)
      ensures app.appState == After(old(app.appState), Fire(old(Model()), old(pending[i])).nav)
    {
      var t := pending[i];
      pending := Without(pending, i);
      match t
      case RecordingDone =>
        isRecording := false;
        isProcessing := true;
        pending := pending + [ProcessingDone];
      case ProcessingDone =>
        isProcessing := false;
        app.NavigateToScreen(Result, Some(VoiceResult));
    }

    method Back(app: App)
      modifies app
      ensures app.appState == Navigated(old(app.appState), BackNav)
    {
      app.NavigateToScreen(Home, None);
    }
  }

  /** Start recording, then send a typed question: the send button ignores the recording flag, so both flags end up set, with both timers pending. */
  method RecordThenSend(question: string) returns (screen: VoiceAssistant)
    requires HasContent(question)
    ensures fresh(screen)
    ensures screen.Model() == State(true, question, true)
    ensures screen.pending == [RecordingDone, ProcessingDone]
  {
    screen := new VoiceAssistant();
    screen.TypeQuestion(question);
    screen.HandleStartRecording();
    assert !SendDisabled(screen.Model());
    screen.HandleTextSubmit();
  }

  /**
   * After a send during recording, the recording timer leaves two
   * processing timers pending, and each of them asks for the voice result.
   */
  method SendWhileRecording(app: App, question: string) returns (timers: seq<Timer>)
    requires HasContent(question)
    modifies app
    ensures timers == [ProcessingDone, ProcessingDone]
    ensures app.appState == Navigated(old(app.appState), Nav(Result, Some(VoiceResult)))
  {
    var screen := RecordThenSend(question);
    screen.TimerFires(0, app);
    timers := screen.pending;
    screen.TimerFires(0, app);
    screen.TimerFires(0, app);
  }
}
