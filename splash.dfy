/**
 * The splash screen (src/components/SplashScreen.tsx). Its one piece of
 * behaviour is an effect: on mount, and again whenever the `onContinue` prop
 * changes identity, it arms a 3000 ms timer that calls `onContinue`; the
 * effect's cleanup clears that timer. App passes a fresh arrow as
 * `onContinue` on every render, so every re-render of App while the splash
 * is shown clears the old timer and arms a new one.
 *
 * Timers are identified by the number setTimeout returns; only the identity
 * matters, the delay is a label.
 */
module SplashScreen {

  import opened Wrappers
  import opened App

  /** The auto-continue delay in milliseconds. */
  const ContinueDelay := 3000

  /** The keys of each translation bag. */
  function TranslationKeys(l: Language): set<string> {
    match l
    case En => {"title", "tagline", "continue", "language"}
    case Ur => {"title", "tagline", "continue", "language"}
  }

  /** The text of the language toggle button. */
  function LanguageLabel(l: Language): string {
    match l
    case En => "اردو"
    case Ur => "English"
  }

  /** The toggle button names the language it switches to, and both bags have the same four keys. */
  lemma LanguageLabelNamesOther(l: Language)
    ensures LanguageLabel(l) == LanguageName(Toggled(l))
    ensures LanguageLabel(l) != LanguageName(l)
    ensures TranslationKeys(l) == TranslationKeys(Toggled(l)) && |TranslationKeys(l)| == 4
  {
  }

  /** A mounted splash screen: the id of its armed timer, if any, and the next id setTimeout will hand out. */
  class SplashScreen {

    var timer: Option<nat>
    var nextTimer: nat

    /** The armed timer, if any, was handed out earlier. */
    predicate Valid()
      reads this
    {
      timer.Some? ==> timer.value < nextTimer
    }

    /** Mounting runs the effect: one timer is armed. */
    constructor ()
      ensures Valid() && timer == Some(0) && nextTimer == 1
    {
      timer := Some(0);
      nextTimer := 1;
    }

    /** The effect body: setTimeout returns a fresh id. */
    method Arm()
      modifies this
      ensures timer == Some(old(nextTimer)) && nextTimer == old(nextTimer) + 1
      ensures Valid()
    {
      timer := Some(nextTimer);
      nextTimer := nextTimer + 1;
    }

    /** The effect's cleanup: clearTimeout. */
    method Clear()
      modifies this
      ensures timer == None && nextTimer == old(nextTimer)
      ensures Valid()
    {
      timer := None;
    }

    /** App re-rendered with a new `onContinue`: cleanup, then the effect runs again with a timer distinct from the old one. */
    method Rerender()
      requires Valid()
      modifies this
      ensures Valid()
      ensures timer == Some(old(nextTimer)) && nextTimer == old(nextTimer) + 1
      ensures timer != old(timer)
    {
      Clear();
      Arm();
    }

    /** The language button: onLanguageToggle, after which App re-renders and the countdown restarts. */
    method LanguageButton(app: App)
      requires Valid()
      modifies this, app
      ensures app.appState == LanguageToggled(old(app.appState))
      ensures Valid() && timer == Some(old(nextTimer)) && timer != old(timer)
    {
      app.ToggleLanguage();
      Rerender();
    }

    /** The Continue button: onContinue navigates home, which unmounts the splash and clears its timer. */
    method ContinueButton(app: App)
      modifies this, app
      ensures app.appState == Navigated(old(app.appState), Nav(Home, None))
      ensures Valid() && timer == None && nextTimer == old(nextTimer)
    {
      app.NavigateToScreen(Home, None);
      Clear();
    }

    /**
     * The timer with id `id` expires. Only the armed timer is still
     * scheduled; a cleared one does nothing. An armed one calls onContinue,
     * which navigates home and unmounts the splash.
     */
    method TimerFires(id: nat, app: App) returns (fired: bool)
      modifies this, app
      ensures fired <==> old(timer) == Some(id)
      ensures app.appState == if fired then Navigated(old(app.appState), Nav(Home, None)) else old(app.appState)
      ensures fired ==> timer == None
      ensures !fired ==> timer == old(timer)
      ensures nextTimer == old(nextTimer)
    {
      fired := timer == Some(id);
      if fired {
        ContinueButton(app);
      }
    }
  }

  /** Left alone, the splash continues once: its timer navigates home, and the same timer cannot fire again. */
  method AutoContinue(app: App)
    requires app.appState == InitialState
    modifies app
    ensures app.appState == AppState(Home, En, None, false)
  {
    var splash := new SplashScreen();
    var fired := splash.TimerFires(0, app);
    assert fired;
    var again := splash.TimerFires(0, app);
    assert !again;
  }

  /** After a manual Continue the old timer id fires nothing: there is no second navigation. */
  method ContinueThenTimer(app: App)
    requires app.appState == InitialState
    modifies app
    ensures app.appState == AppState(Home, En, None, false)
  {
    var splash := new SplashScreen();
    splash.ContinueButton(app);
    var fired := splash.TimerFires(0, app);
    assert !fired;
  }

  /** A language toggle restarts the countdown: the first timer no longer fires, the re-armed one does, in the new language. */
  method ToggleRestartsCountdown(app: App)
    requires app.appState == InitialState
    modifies app
    ensures app.appState == AppState(Home, Ur, None, false)
  {
    var splash := new SplashScreen();
    splash.LanguageButton(app);
    var first := splash.TimerFires(0, app);
    assert !first && app.appState == AppState(Splash, Ur, None, true);
    var second := splash.TimerFires(1, app);
    assert second;
  }
}
