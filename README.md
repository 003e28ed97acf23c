# Kisan Advisor AI — a Dafny model of its screens and navigation

Kisan Advisor AI is a mock farming-advice app written in React. It runs in
English or Urdu. A single `AppState` record in the root component decides which
screen is shown. The app has a splash screen, a home screen with five service
cards, five form screens (disease detection, yield prediction, irrigation
advice, weather forecast, voice assistant) and one result screen for all of
their outcomes. It also has reports, notifications and profile screens, and a
bottom navigation bar. Every "AI" answer is a constant. The only behaviour
beyond navigation is a set of simulated delays: timers that later ask the root
component to show a result.

The model has these parts:

- **App** (`app.dfy`): the `AppState` record and its initial value. The two
  updaters `navigateToScreen` and `toggleLanguage` are pure functions, held by
  an `App` class whose methods assign their result. `renderScreen` is a
  function from the state to the view it picks. The module proves the tag
  invariant behind `appState.resultType!`: the result screen is never shown
  without a result type. It also proves that `showSplash` stays true exactly
  until the first navigation.
- **Form screens** (`disease.dfy`, `yield.dfy`, `irrigation.dfy`,
  `weather.dfy`, `voice.dfy`):
  - each handler and each timer callback is a pure function from the screen's
    local state to an `Effect`: the next state, the timer it sets and the
    navigation it requests;
  - a class per screen holds the `useState` cells and the pending timers, and
    its methods are proved to do what those functions say;
  - lemmas cover the gates: form validity is JavaScript truthiness of
    strings, and `trim` uses the ECMAScript whitespace set;
  - lemmas also cover the round trips: an accepted submit, then its timer,
    returns the form to its starting state and requests the right result;
  - scenario methods show that the timers outlive the screen. Pressing Enter
    twice, or sending while recording, requests two results.
- **Splash** (`splash.dfy`): the effect that arms a 3000 ms timer and the
  cleanup that clears it. App passes a fresh `onContinue` on every render, so
  each re-render restarts the countdown.
- **Home, bottom navigation, result, notifications, reports, profile**
  (`home.dfy`, `bottom_navigation.dfy`, `result.dfy`, `notifications.dfy`,
  `reports.dfy`, `profile.dfy`):
  - the constant lists, with their key sets and lookups;
  - the `switch` and `includes` chains that choose icons and colours;
  - the unread count, and the conditional detail spans of a report card;
  - the avatar initials `name.split(' ').map(n => n[0]).join('')`.
- **Navigation sources** (`sources.dfy`): every call site of `onNavigate` or
  `onContinue`, together with the two language toggles. Lemmas over any
  sequence of these events prove that the tag invariant holds in every
  session, and that the splash is shown exactly until the first navigation.
- **Strings** (`strings.dfy`): `trim`, `includes`, `split` and `join` with the
  JavaScript semantics the screens rely on.

## Model

| member | source | states |
|---|---|---|
| App.ResultTypeIsScreen | src/App.tsx:14-16 | every ResultType literal is a Screen literal; ScreenOf and ResultTypeOf are inverse on it; no result type names the splash, home, result, reports, notifications or profile screen |
| App.InitialStateIsSplash | src/App.tsx:26-30 | the app starts on the splash screen, in English, with no result type and showSplash set, and the tag invariant holds |
| App.NavigatedSets | src/App.tsx:32-39 | navigateToScreen shows the requested screen with exactly the requested tag, so an omitted tag clears a stale one; it hides the splash and keeps the language |
| App.NavigatedTagged | src/App.tsx:32-39 | after a navigation the result screen has a tag exactly when the request for it carried one |
| App.LanguageToggledFlips | src/App.tsx:41-46 | toggleLanguage maps en to ur and ur to en and leaves screen, tag and showSplash unchanged |
| App.LanguageToggledTwice | src/App.tsx:41-46 | toggling twice restores the whole state |
| App.ShowSplashUntilFirstNavigation | src/App.tsx:32-46 | over any sequence of the two updaters, showSplash ends true exactly when it started true and no navigation happened |
| App.ApplyKeepsTagged | src/App.tsx:32-46 | from a tagged state, any sequence of updaters whose navigations are well tagged ends in a tagged state |
| App.RenderScreen | src/App.tsx:48-139 | renderScreen renders the view of the current screen in the current language; the default branch is unreachable; the result view gets the state's tag |
| App.App.constructor | src/App.tsx:26-30 | the state starts as the initial state |
| App.App.NavigateToScreen | src/App.tsx:32-39 | the new state is the navigate updater applied to the old state |
| App.App.ToggleLanguage | src/App.tsx:41-46 | the new state is the toggle updater applied to the old state |
| App.App.Request | src/App.tsx:32-39 | a handler's optional request navigates when present and leaves the state unchanged when absent |
| SplashScreen.LanguageLabelNamesOther | src/components/SplashScreen.tsx:12-25 | the toggle button names the other language, never its own; both bags have the same four keys |
| SplashScreen.SplashScreen.constructor | src/components/SplashScreen.tsx:30-36 | mounting arms exactly one timer |
| SplashScreen.SplashScreen.Arm | src/components/SplashScreen.tsx:31-33 | setTimeout hands out a fresh id, which becomes the armed timer |
| SplashScreen.SplashScreen.Clear | src/components/SplashScreen.tsx:35 | the cleanup leaves no armed timer |
| SplashScreen.SplashScreen.Rerender | src/components/SplashScreen.tsx:30-36 | a new onContinue runs the cleanup, then the effect again: the armed timer is a new one, different from the old |
| SplashScreen.SplashScreen.LanguageButton | src/components/SplashScreen.tsx:41-48 | the button toggles the language and restarts the countdown with a new timer |
| SplashScreen.SplashScreen.ContinueButton | src/components/SplashScreen.tsx:73-78 | Continue navigates home untagged, and unmounting clears the timer |
| SplashScreen.SplashScreen.TimerFires | src/components/SplashScreen.tsx:31-33 | a timer fires exactly when it is the armed one; it then navigates home once and is no longer armed; a cleared timer changes nothing |
| SplashScreen.AutoContinue | src/components/SplashScreen.tsx:30-36 | left alone, the splash ends on the home screen in English with no tag and the splash hidden |
| SplashScreen.ContinueThenTimer | src/components/SplashScreen.tsx:73-78 | after a manual Continue the old timer does not navigate a second time |
| SplashScreen.ToggleRestartsCountdown | src/components/SplashScreen.tsx:41-48 | after a toggle the first timer no longer fires, and the re-armed timer shows home in Urdu |
| HomeScreen.CardNav | src/components/HomeScreen.tsx:123 | a card click requests its own service screen with no tag; that is never home, result or splash |
| HomeScreen.ServicesAreTheForms | src/components/HomeScreen.tsx:50-91 | the five cards are distinct and are exactly the five screens a result type names |
| HomeScreen.LanguageLabelNamesOther | src/components/HomeScreen.tsx:14-45 | the language button names the other language; both bags have the same keys |
| BottomNavigation.AtMostOneActive | src/components/BottomNavigation.tsx:41 | at most one item is highlighted, and one is exactly when the current screen is an item's id; the result and form screens highlight none |
| BottomNavigation.ItemNav | src/components/BottomNavigation.tsx:46 | an item click requests its id with no tag, never the splash |
| BottomNavigation.LabelsAndClicks | src/components/BottomNavigation.tsx:11-34 | every item has a label in both languages; a click clears any tag and lands on the screen that highlights that item |
| DiseaseDetection.InitiallyChoosing | src/components/DiseaseDetection.tsx:37-38 | the screen starts on the photo choices, not analysing, with Analyse unavailable |
| DiseaseDetection.PhotoChoices | src/components/DiseaseDetection.tsx:41-55 | capture selects the placeholder; an upload selects the data read, which counts as selected only when non-empty; choosing again deselects; none touches the flag, sets a timer or navigates |
| DiseaseDetection.AnalyzeThenFire | src/components/DiseaseDetection.tsx:57-64 | Analyse disables itself and sets one timer; its firing restores the state and requests the disease result |
| DiseaseDetection.FireNavFixed | src/components/DiseaseDetection.tsx:60-63 | whatever the state, the timer requests the tagged disease result and clears the flag |
| DiseaseDetection.DiseaseDetection.constructor | src/components/DiseaseDetection.tsx:37-38 | a new screen holds the initial state and no timers |
| DiseaseDetection.DiseaseDetection.HandleCameraCapture | src/components/DiseaseDetection.tsx:52-55 | the state becomes the capture effect's state; no timer is added |
| DiseaseDetection.DiseaseDetection.HandleImageLoaded | src/components/DiseaseDetection.tsx:45-47 | the state becomes the upload effect's state; no timer is added |
| DiseaseDetection.DiseaseDetection.ChooseDifferentPhoto | src/components/DiseaseDetection.tsx:181 | the selection is cleared; no timer is added |
| DiseaseDetection.DiseaseDetection.HandleAnalyze | src/components/DiseaseDetection.tsx:57-64 | the state and pending timers follow the analyse effect |
| DiseaseDetection.DiseaseDetection.TimerFires | src/components/DiseaseDetection.tsx:60-63 | a pending timer is consumed; the state, the timers and the app's state follow its callback's effect |
| DiseaseDetection.DiseaseDetection.Back | src/components/DiseaseDetection.tsx:73 | the back arrow navigates home untagged |
| DiseaseDetection.BackWhileAnalyzing | src/components/DiseaseDetection.tsx:57-73 | Back during an analysis shows home, and the uncleared timer later shows the disease result anyway |
| YieldPrediction.FormValidIffAllFilled | src/components/YieldPrediction.tsx:89 | the form is valid exactly when all four fields are non-empty; the initial form is not valid |
| YieldPrediction.SetFieldTouchesOneField | src/components/YieldPrediction.tsx:119-159 | each setter writes its own field only and never touches the flag, a timer or navigation |
| YieldPrediction.PredictGate | src/components/YieldPrediction.tsx:79-87 | Predict sets a timer exactly when the form is valid and otherwise changes nothing; an enabled button always starts a prediction |
| YieldPrediction.PredictThenFire | src/components/YieldPrediction.tsx:79-87 | an accepted prediction's timer restores the form and requests the yield result |
| YieldPrediction.FireNavFixed | src/components/YieldPrediction.tsx:82-85 | whatever the fields, the timer requests the yield result and clears the flag |
| YieldPrediction.CropLabelsComplete | src/components/YieldPrediction.tsx:124-128 | every crop option has a label in both languages |
| YieldPrediction.UrduMaturityUnlabelled | src/components/YieldPrediction.tsx:62-67 | as written, the maturity option has no Urdu label while English is complete |
| YieldPrediction.IntendedStageLabelsComplete | src/components/YieldPrediction.tsx:164-167 | with the option values as keys, every stage has a label in both languages, and English is unchanged |
| YieldPrediction.YieldPrediction.constructor | src/components/YieldPrediction.tsx:72-76 | a new screen holds the initial state and no timers |
| YieldPrediction.YieldPrediction.SetCropType | src/components/YieldPrediction.tsx:119 | the state follows the crop setter; no timer is added |
| YieldPrediction.YieldPrediction.SetFieldSize | src/components/YieldPrediction.tsx:139 | the state follows the field-size setter; no timer is added |
| YieldPrediction.YieldPrediction.SetPlantingDate | src/components/YieldPrediction.tsx:152 | the state follows the planting-date setter; no timer is added |
| YieldPrediction.YieldPrediction.SetCurrentStage | src/components/YieldPrediction.tsx:159 | the state follows the stage setter; no timer is added |
| YieldPrediction.YieldPrediction.HandlePredict | src/components/YieldPrediction.tsx:79-87 | the state and pending timers follow the predict effect |
| YieldPrediction.YieldPrediction.TimerFires | src/components/YieldPrediction.tsx:82-85 | a pending timer is consumed; the state, the timers and the app's state follow its callback's effect |
| YieldPrediction.YieldPrediction.Back | src/components/YieldPrediction.tsx:98 | the back arrow navigates home untagged |
| IrrigationAdvice.FormValidIffAllFilled | src/components/IrrigationAdvice.tsx:106 | the form is valid exactly when all five fields are non-empty; the initial form is not valid |
| IrrigationAdvice.SetFieldTouchesOneField | src/components/IrrigationAdvice.tsx:136-192 | each setter writes its own field only and never touches the flag, a timer or navigation |
| IrrigationAdvice.GetAdviceGate | src/components/IrrigationAdvice.tsx:96-104 | Get Advice sets a timer exactly when the form is valid and otherwise changes nothing; an enabled button always starts |
| IrrigationAdvice.GetAdviceThenFire | src/components/IrrigationAdvice.tsx:96-104 | an accepted request's timer restores the form and requests the irrigation result |
| IrrigationAdvice.FireNavFixed | src/components/IrrigationAdvice.tsx:99-102 | whatever the fields, the timer requests the irrigation result and clears the flag |
| IrrigationAdvice.LabelTablesComplete | src/components/IrrigationAdvice.tsx:65-83 | every crop, soil and weather option has a label in both languages, and the tables have the same keys |
| IrrigationAdvice.IrrigationAdvice.constructor | src/components/IrrigationAdvice.tsx:88-93 | a new screen holds the initial state and no timers |
| IrrigationAdvice.IrrigationAdvice.SetCropType | src/components/IrrigationAdvice.tsx:136 | the state follows the crop setter; no timer is added |
| IrrigationAdvice.IrrigationAdvice.SetFieldSize | src/components/IrrigationAdvice.tsx:156 | the state follows the field-size setter; no timer is added |
| IrrigationAdvice.IrrigationAdvice.SetSoilType | src/components/IrrigationAdvice.tsx:166 | the state follows the soil setter; no timer is added |
| IrrigationAdvice.IrrigationAdvice.SetLastIrrigation | src/components/IrrigationAdvice.tsx:185 | the state follows the last-irrigation setter; no timer is added |
| IrrigationAdvice.IrrigationAdvice.SetWeatherCondition | src/components/IrrigationAdvice.tsx:192 | the state follows the weather setter; no timer is added |
| IrrigationAdvice.IrrigationAdvice.HandleGetAdvice | src/components/IrrigationAdvice.tsx:96-104 | the state and pending timers follow the advice effect |
| IrrigationAdvice.IrrigationAdvice.TimerFires | src/components/IrrigationAdvice.tsx:99-102 | a pending timer is consumed; the state, the timers and the app's state follow its callback's effect |
| IrrigationAdvice.IrrigationAdvice.Back | src/components/IrrigationAdvice.tsx:115 | the back arrow navigates home untagged |
| WeatherForecast.ForecastGate | src/components/WeatherForecast.tsx:59-67 | Get Forecast sets a timer exactly when the trimmed location is non-empty; otherwise nothing changes; when accepted only the flag is set |
| WeatherForecast.WhitespaceOnlyRejected | src/components/WeatherForecast.tsx:60 | a location of spaces and tabs, and the empty initial one, are rejected; the initial button is disabled |
| WeatherForecast.ForecastThenFire | src/components/WeatherForecast.tsx:59-67 | an accepted forecast's timer restores the state and requests the weather result |
| WeatherForecast.EnterWhileBusy | src/components/WeatherForecast.tsx:114 | Enter bypasses the disabled button: a second Enter sets a second timer, which also requests the weather result |
| WeatherForecast.PopularLocationsStartWithLetters | src/components/WeatherForecast.tsx:26-50 | each language lists five popular locations, none empty or starting with whitespace |
| WeatherForecast.SelectPopular | src/components/WeatherForecast.tsx:69-71 | five popular locations per language; choosing one sets exactly it, which is never blank, and enables the button unless a forecast is in flight |
| WeatherForecast.CurrentLocationOverwrites | src/components/WeatherForecast.tsx:73-79 | the placeholder text is set at once; the later timer overwrites whatever was typed with the resolved location and requests nothing |
| WeatherForecast.WeatherForecast.constructor | src/components/WeatherForecast.tsx:55-56 | a new screen holds the initial state and no timers |
| WeatherForecast.WeatherForecast.TypeLocation | src/components/WeatherForecast.tsx:112 | the state follows the location setter; no timer is added |
| WeatherForecast.WeatherForecast.HandleLocationSelect | src/components/WeatherForecast.tsx:69-71 | the state follows the location setter; no timer is added |
| WeatherForecast.WeatherForecast.HandleGetForecast | src/components/WeatherForecast.tsx:59-67 | the state and pending timers follow the forecast effect |
| WeatherForecast.WeatherForecast.HandleCurrentLocation | src/components/WeatherForecast.tsx:73-79 | the state and pending timers follow the current-location effect |
| WeatherForecast.WeatherForecast.TimerFires | src/components/WeatherForecast.tsx:62-65 | a pending timer is consumed; the state, the timers and the app's state follow its callback's effect |
| WeatherForecast.WeatherForecast.Back | src/components/WeatherForecast.tsx:88 | the back arrow navigates home untagged |
| WeatherForecast.EnterTwice | src/components/WeatherForecast.tsx:114 | two Enters on a typed location leave the screen busy with two forecast timers pending |
| WeatherForecast.ResultTwice | src/components/WeatherForecast.tsx:59-67 | after two Enters and Back, the home screen is shown and the two uncleared timers end on the weather result |
| VoiceAssistant.RecordingChain | src/components/VoiceAssistant.tsx:57-68 | recording disables the record button and sets a timer; that timer starts processing with a second timer, which restores the state and requests the voice result |
| VoiceAssistant.TextSubmitGate | src/components/VoiceAssistant.tsx:70-78 | a text submit is accepted exactly when the trimmed question is non-empty; it then sets processing and one timer; otherwise nothing changes |
| VoiceAssistant.ExampleClick | src/components/VoiceAssistant.tsx:80-82 | three examples per language; a click sets the question to exactly that example, which is never blank, and leaves the flags |
| VoiceAssistant.SubmitWhileRecording | src/components/VoiceAssistant.tsx:162 | the send button ignores recording: sending while recording leaves two processing timers, and each requests the voice result |
| VoiceAssistant.FireNavFixed | src/components/VoiceAssistant.tsx:60-76 | the question never affects the outcome: every request is the tagged voice result |
| VoiceAssistant.VoiceAssistant.constructor | src/components/VoiceAssistant.tsx:52-54 | a new screen holds the initial state and no timers |
| VoiceAssistant.VoiceAssistant.HandleStartRecording | src/components/VoiceAssistant.tsx:57-68 | the state and pending timers follow the recording effect |
| VoiceAssistant.VoiceAssistant.HandleTextSubmit | src/components/VoiceAssistant.tsx:70-78 | the state and pending timers follow the submit effect |
| VoiceAssistant.VoiceAssistant.TypeQuestion | src/components/VoiceAssistant.tsx:155 | the state follows the question setter; no timer is added |
| VoiceAssistant.VoiceAssistant.HandleExampleClick | src/components/VoiceAssistant.tsx:80-82 | the state follows the question setter; no timer is added |
| VoiceAssistant.VoiceAssistant.TimerFires | src/components/VoiceAssistant.tsx:60-76 | a pending timer is consumed; the state, the timers and the app's state follow its callback's effect |
| VoiceAssistant.VoiceAssistant.Back | src/components/VoiceAssistant.tsx:91 | the back arrow navigates home untagged |
| VoiceAssistant.RecordThenSend | src/components/VoiceAssistant.tsx:113-162 | record, then send a typed question: both flags are set and a recording timer and a processing timer are pending |
| VoiceAssistant.SendWhileRecording | src/components/VoiceAssistant.tsx:57-78 | once all timers have fired, two processing timers have run, and the app shows the voice result |
| ResultScreen.PrimaryNav | src/components/ResultScreen.tsx:397 | the primary action requests the screen its result type names, untagged, never the result screen |
| ResultScreen.LookupTotal | src/components/ResultScreen.tsx:15-172 | with the keys listed from each language's table, every language has a content bag with a title and a result for every result type, and the two languages' bags and result objects have the same keys |
| ResultScreen.FiguresLanguageIndependent | src/components/ResultScreen.tsx:37-151 | the confidence, temperature and humidity figures are the same in both languages |
| ResultScreen.ColorsAndIconsDistinct | src/components/ResultScreen.tsx:174-194 | colours and icons are injective on the tag; gray and the warning icon come only from the `default` branches, which only a missing tag would reach |
| ResultScreen.ActionLabels | src/components/ResultScreen.tsx:209-218 | English action labels are distinct and never the back label; in Urdu the yield and weather labels coincide |
| ResultScreen.DefaultsUnreachable | src/components/ResultScreen.tsx:174-218 | on a tagged result state no switch takes its default branch, and the primary action returns to the producing service |
| NotificationsScreen.UnreadPositionsSnoc | src/components/NotificationsScreen.tsx:171 | appending a notification adds its position to the unread positions exactly when it is unread |
| NotificationsScreen.UnreadCountCounts | src/components/NotificationsScreen.tsx:171 | the unread count equals the number of unread positions, is positive exactly when one is unread, and is at most the list length |
| NotificationsScreen.RenderShows | src/components/NotificationsScreen.tsx:181-212 | badge and Mark All Read appear exactly when something is unread, the badge showing the count; the empty state appears exactly for an empty list |
| NotificationsScreen.Lookups | src/components/NotificationsScreen.tsx:140-169 | the three priorities get distinct non-gray colours and anything else gray; an unknown type gets the bell and a gray colour |
| NotificationsScreen.ShippedLists | src/components/NotificationsScreen.tsx:27-132 | both lists agree on everything modelled; two of the five are unread, so the badge reads 2 |
| ReportsScreen.AnyIncludedPair | src/components/ReportsScreen.tsx:111 | a rule with two stems matches when either stem is included |
| ReportsScreen.ReportIconIsFirstMatch | src/components/ReportsScreen.tsx:110-115 | getReportIcon gives the icon of the first rule that matches, and the file icon when none does |
| ReportsScreen.StatusColorIsFirstMatch | src/components/ReportsScreen.tsx:117-123 | getStatusColor gives the colour of the first rule that matches, and gray when none does |
| ReportsScreen.EnglishDiseaseIcon | src/components/ReportsScreen.tsx:111 | "Disease Detection" gets the warning icon |
| ReportsScreen.UrduDiseaseIcon | src/components/ReportsScreen.tsx:111 | the Urdu disease type gets the warning icon |
| ReportsScreen.EnglishYieldIcon | src/components/ReportsScreen.tsx:111-112 | "Yield Prediction" misses the disease rule and gets the trend icon |
| ReportsScreen.UrduYieldIcon | src/components/ReportsScreen.tsx:111-112 | the Urdu yield type gets the trend icon |
| ReportsScreen.EnglishIrrigationIcon | src/components/ReportsScreen.tsx:111-113 | "Irrigation Advice" gets the droplets icon |
| ReportsScreen.UrduIrrigationNotDisease | src/components/ReportsScreen.tsx:111 | the Urdu irrigation type does not include the Urdu disease stem |
| ReportsScreen.UrduIrrigationIcon | src/components/ReportsScreen.tsx:111-113 | the Urdu irrigation type gets the droplets icon |
| ReportsScreen.EnglishWeatherIcon | src/components/ReportsScreen.tsx:110-114 | "Weather Alert" matches no rule and gets the file icon |
| ReportsScreen.UrduWeatherIcon | src/components/ReportsScreen.tsx:110-114 | the Urdu weather type matches no rule and gets the file icon |
| ReportsScreen.EnglishTreatedColor | src/components/ReportsScreen.tsx:118 | "Treated" is green |
| ReportsScreen.UrduTreatedColor | src/components/ReportsScreen.tsx:118 | the Urdu treated status is green |
| ReportsScreen.EnglishPredictedColor | src/components/ReportsScreen.tsx:118-119 | "Predicted" is blue |
| ReportsScreen.UrduPredictedColor | src/components/ReportsScreen.tsx:118-119 | the Urdu predicted status is blue |
| ReportsScreen.EnglishAppliedColor | src/components/ReportsScreen.tsx:118-120 | "Applied" is cyan |
| ReportsScreen.UrduAppliedColor | src/components/ReportsScreen.tsx:118-120 | the Urdu applied status is cyan |
| ReportsScreen.EnglishAlertColor | src/components/ReportsScreen.tsx:118-121 | "Alert" is red |
| ReportsScreen.UrduAlertColor | src/components/ReportsScreen.tsx:118-121 | the Urdu alert status is red |
| ReportsScreen.ConsOrdered | src/components/ReportsScreen.tsx:178-183 | one span at a position before an ordered tail keeps the detail line ordered |
| ReportsScreen.ConcatSound | src/components/ReportsScreen.tsx:178-183 | joining two sound runs of spans gives a sound run |
| ReportsScreen.DetailsFromOrdered | src/components/ReportsScreen.tsx:178-183 | the spans from a label position on are strictly ordered by position and within range |
| ReportsScreen.DetailsFromSound | src/components/ReportsScreen.tsx:178-183 | every span from a label position on shows a present field with its value |
| ReportsScreen.DetailsFromComplete | src/components/ReportsScreen.tsx:178-183 | every present field from a label position on has its span |
| ReportsScreen.DetailsIsDetailsFrom | src/components/ReportsScreen.tsx:178-183 | the six literal spans equal the recursive reference definition |
| ReportsScreen.DetailsOrdered | src/components/ReportsScreen.tsx:178-183 | the detail line lists crop, yield, water, location, severity, temp in that order, each at most once |
| ReportsScreen.DetailsSound | src/components/ReportsScreen.tsx:178-183 | every span shows a field that is present and non-empty, with its value |
| ReportsScreen.DetailsComplete | src/components/ReportsScreen.tsx:178-183 | every present, non-empty field gets its span |
| ReportsScreen.RenderShows | src/components/ReportsScreen.tsx:139-148 | the empty state appears exactly for an empty list; otherwise one card per report, in order, with its icon, colour and details |
| ReportsScreen.ShippedCards | src/components/ReportsScreen.tsx:21-103 | the four shipped reports get alert, trend, drops and file icons, and green, blue, cyan and red colours, in both languages |
| ProfileScreen.Head | src/components/ProfileScreen.tsx:124 | the head of a part is its first character, or nothing for an empty part |
| ProfileScreen.JoinEmptyCons | src/components/ProfileScreen.tsx:124 | joining with the empty separator puts the first part before the join of the rest |
| ProfileScreen.HeadsOfSplit | src/components/ProfileScreen.tsx:124 | the heads of the split parts, joined, are the word starts of the text |
| ProfileScreen.InitialsAreWordStarts | src/components/ProfileScreen.tsx:124 | the avatar shows the first letter of every word of the name, in order, and nothing else |
| ProfileScreen.InitialsCount | src/components/ProfileScreen.tsx:124 | one initial per non-empty part, so never more initials than parts |
| ProfileScreen.InitialsOfJoin | src/components/ProfileScreen.tsx:124 | for space-free parts joined by single spaces, the initials are the parts' heads |
| ProfileScreen.ShownInitials | src/components/ProfileScreen.tsx:27-60 | the English name shows "MA" and the Urdu name its two initials |
| ProfileScreen.DoubleSpaceInitials | src/components/ProfileScreen.tsx:124 | a doubled space adds nothing to the initials |
| ProfileScreen.ShippedData | src/components/ProfileScreen.tsx:42-80 | the statistics are the same in both languages, four of them, and each language lists three crops |
| NavigationSources.Request | src/App.tsx:55-106 | every onNavigate or onContinue call site requests a well-tagged screen other than the splash; it is the result screen exactly for the five form timers |
| NavigationSources.DiseaseTimerRequest | src/components/DiseaseDetection.tsx:60-63 | the disease timer source requests exactly what handleAnalyze's callback asks for, in any state of that screen |
| NavigationSources.YieldTimerRequest | src/components/YieldPrediction.tsx:82-85 | the yield timer source requests exactly what handlePredict's callback asks for, in any state of that screen |
| NavigationSources.IrrigationTimerRequest | src/components/IrrigationAdvice.tsx:99-102 | the irrigation timer source requests exactly what handleGetAdvice's callback asks for, in any state of that screen |
| NavigationSources.WeatherTimerRequest | src/components/WeatherForecast.tsx:62-65 | the weather timer source requests exactly what handleGetForecast's callback asks for, in any state of that screen |
| NavigationSources.VoiceTimerRequest | src/components/VoiceAssistant.tsx:60-76 | the voice timer source requests exactly what the processing callback of either chain asks for, in any state of that screen |
| NavigationSources.TimersTagTheirService | src/App.tsx:101-108 | each form timer tags the result with its own service |
| NavigationSources.Updates | src/App.tsx:32-46 | a session's events become updater calls one for one: a press navigates, well tagged and never to the splash, and a toggle toggles |
| NavigationSources.SplashUntilNavigation | src/App.tsx:32-46 | when no request names the splash, the splash is shown at the end exactly when it was shown at the start and no navigation happened |
| NavigationSources.SessionTagged | src/App.tsx:101-108 | in every session from the initial state the result screen has a tag, so resultType! is safe |
| NavigationSources.SessionSplash | src/App.tsx:26-46 | in every session the splash is shown, with showSplash set, exactly while only language toggles have happened |
| Strings.TrimStart | src/components/WeatherForecast.tsx:60 | the result is a suffix of the input, what was dropped is whitespace, and the result does not start with whitespace |
| Strings.TrimEnd | src/components/WeatherForecast.tsx:60 | the result is a prefix of the input, what was dropped is whitespace, and the result does not end with whitespace |
| Strings.LeadingWhitespace | src/components/WeatherForecast.tsx:60 | the count covers only whitespace and stops at the first non-whitespace character |
| Strings.TrailingWhitespace | src/components/WeatherForecast.tsx:60 | the count covers only whitespace at the end and stops at the last non-whitespace character |
| Strings.Trim | src/components/WeatherForecast.tsx:60 | trim is the slice of the input that starts after its leading whitespace and leaves out only whitespace at the end; it is empty exactly for an all-whitespace input, and otherwise neither starts nor ends with whitespace |
| Strings.TrimSlice | src/components/VoiceAssistant.tsx:71 | a prefix of a suffix, each dropping only whitespace, is the slice after the leading whitespace, empty exactly when the input is all whitespace |
| Strings.IncludesPrefix | src/components/ReportsScreen.tsx:111 | a string includes each of its prefixes |
| Strings.NotIncludesMissingChar | src/components/ReportsScreen.tsx:111 | a string lacking a character of the stem does not include the stem |
| Strings.NotIncludesSingleStart | src/components/ReportsScreen.tsx:111 | a string whose only occurrence of the stem's first character is not followed by the stem's second does not include it |
| Strings.FirstMatch | src/components/ReportsScreen.tsx:110-122 | the index found is that of a matching rule with no matching rule before it; none is found only when no rule matches |
| Strings.Split | src/components/ProfileScreen.tsx:124 | split returns at least one part, and no part contains the separator |
| Strings.JoinSplit | src/components/ProfileScreen.tsx:124 | joining the split parts with the separator gives back the original text |
| Strings.SplitAfterWord | src/components/ProfileScreen.tsx:124 | a separator-free word followed by the separator splits into that word and the split of the rest |
| Strings.SplitWord | src/components/ProfileScreen.tsx:124 | a separator-free word splits into itself alone |
| Strings.SplitJoin | src/components/ProfileScreen.tsx:124 | splitting undoes joining when no part contains the separator |

## Left out

- The FileReader upload (DiseaseDetection.tsx:41-50) is modelled only by the string it finally delivers: `HandleImageLoaded` takes the data URL as a parameter. Reading the file and an absent file (no state change) are not modelled.
- The `alert` calls are left out because they change no state: the four Profile buttons (ProfileScreen.tsx:87-101) and Play Audio and Save to Reports on the result screen (ResultScreen.tsx:199-207).
- "Mark All Read" (NotificationsScreen.tsx:191-198) has no `onClick`. It is modelled only as being shown, never as an action.
- The clock is not modelled. Delays (3000, 2000, 1500 and 1000 ms) are constants that label the timers. Any pending timer may fire next, so the order of firing is free, not decided by the delays.
- React's rendering machinery is not modelled. That covers JSX layout, styling, icons and the `ui` component library. It also covers reuse of a component instance when two consecutive screens use the same component. A form screen's state is an object created when the screen is entered.
- A timer that fires after its form screen unmounted writes to its screen object, which still exists in the model. React discards those writes. They are never visible, because an unmounted screen is never rendered again.
- The text of the translations is left out. Only the keys of each bag, the labels that drive a decision, and the shared figures are modelled.
- `n[0]` in the profile initials indexes UTF-16 code units. The model takes the first character of the Dafny string, which is the same for every name the app ships.
- Browser input constraints, such as `type="number"` and `type="date"`, are not modelled. The fields are arbitrary strings, as the handlers read them.
- HomeScreen.LanguageLabelNamesOther: does not state how many keys the home translation bags have, only that both languages share them.
- The bottom navigation bar appears on each screen as the same four requests. Which screens render it is layout and is not modelled separately.

## Findings

| source | as written | input that shows it | evidently intended | confidence | as-written member | corrected member |
|---|---|---|---|---|---|---|
| src/components/YieldPrediction.tsx:62-67 | the Urdu `stages` table's fourth key is the Urdu word for maturity, while the option at line 167 looks up `t.stages.maturity` | language Urdu, stage drop-down option "maturity": its label is undefined and shows empty | the key `maturity`, like the other three keys and the English table | not executed | YieldPrediction.UrduMaturityUnlabelled | YieldPrediction.IntendedStageLabelsComplete |

Three behaviours of the code differ from what the app's flow suggests. The model follows the code in each:

- The form screens' timers are never cleared, so a result can still arrive after the user went Back.
- The weather screen's Enter key does not check the busy flag, so it can submit a second time.
- The voice screen's send button does not check the recording flag, so it can submit while recording.
