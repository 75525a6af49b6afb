# Challengely in Dafny

Challengely is an iOS app that hands its user one small challenge a day.
Its logic is written as reducers: each feature has a state, a set of
actions and a function that applies an action to the state and returns an
effect for the runtime to carry out. This project models that logic in
Dafny and proves what the app promises about it.

The model covers these parts of the app:

- **The daily challenge** (`ChallengeCore`). Today's challenge is picked
  from the six-entry catalog, among the entries whose category the user is
  interested in, by the day of the year. The challenge then moves through
  locked, revealed, in progress and completed. The countdown runs one second
  per tick. Completing the challenge updates the streak once per day and
  appends the challenge to the history.
- **The onboarding wizard** (`OnboardingCore`) and the logic of its screen
  (`OnboardingView`). The wizard has four steps: welcome, intro, interests
  and difficulty. It toggles interests, and on completion it saves a profile
  built from the selections and asks for the daily reminder. The screen
  decides when Next is enabled, which action Next sends, and what the
  "Step n of 4" label says.
- **The chat assistant** (`ChatCore`). It keeps a persisted, append-only
  message log, a 500-character input field and a typing indicator. Replies
  are canned texts chosen by case-insensitive keywords, in a fixed priority
  order, with five default replies as the fallback.
- **The profile screen** (`ProfileCore`). It loads and saves the profile and
  holds the reminder settings: enabled, time, and daily or weekly. It also
  runs the permission-dependent scheduling flow and the test notification.
- **The analytics dashboard** (`AnalyticsCore`). It looks up the completed
  challenges by id and draws a seven-day streak chart. It also builds the
  per-category breakdown, sorted by count.
- **The shell** (`MainCore`, `AppCore`). The tab bar holds four tabs and
  forwards actions to the features. The root shows onboarding until it has
  been finished, then persists that fact.
- **`Color(hex:)`** (`DesignSystem`). It turns a 3-, 6- or 8-digit
  hexadecimal string into integer alpha, red, green and blue channels.

Value types are datatypes (`Models`). Each feature's state is a class
whose fields the transitions update in place. Every action is a method
whose `ensures` state the new state and the effect. Each feature's `Reduce`
dispatches actions to those methods. The persisted store is one shared
`Storage` object (`Dependencies`). A save writes it at once, and a load
reads it. Values that the clock, the calendar, the id generator and the
permission prompt supply are passed in as parameters: `Env` for the
reducers, plus `today`, `now` and `granted` where a single transition
needs them.

## Model

| member | source | states |
|---|---|---|
| Text.Trim | Challengely/Features/Chat/ChatCore.swift:23 | the result is a window of the input with only trimmed characters outside it, and neither of its ends is a trimmed character |
| Text.TrimEmptyIff | Challengely/Features/Chat/ChatCore.swift:23 | trimming leaves nothing exactly when every character is trimmed |
| Text.TrimIdempotent | Challengely/Shared/DesignSystem/DesignSystem.swift:57 | trimming a trimmed string changes nothing |
| Text.Lower | Challengely/Features/Chat/ChatCore.swift:111 | lower-casing keeps the length and maps each character on its own |
| Text.ContainsLower | Challengely/Features/Chat/ChatCore.swift:111-113 | an occurrence of a word in a text is an occurrence of the lower-cased word in the lower-cased text |
| Text.Pad2 | Challengely/Features/Challenge/ChallengeCore.swift:28 | "%02d": digits that read back as the number, exactly two below 100, and a leading zero only below 10 |
| Text.DecimalRoundTrip | Challengely/Features/Challenge/ChallengeCore.swift:28 | a decimal numeral reads back as the number it was written from |
| Models.AllCategories | Challengely/Shared/Models/Models.swift:18-23 | every category is in the set, which has exactly five elements |
| Models.CategoryLabelsInjective | Challengely/Shared/Models/Models.swift:25-43 | distinct categories have distinct emoji and distinct display names |
| Models.DifficultyNames | Challengely/Shared/Models/Models.swift:46-53 | the capitalised raw values are "Easy", "Medium" and "Hard" |
| Models.DifficultyName | Challengely/Shared/Models/Models.swift:51-53 | rawValue.capitalized; DifficultyNames states its three values |
| Models.DefaultProfile | Challengely/Shared/Models/Models.swift:65-72 | no interests, medium, streak 0, empty history, no last completion; ProfileFrom and the constructors state it |
| Models.CatalogShape | Challengely/Shared/Models/Models.swift:85-128 | the catalog has six entries, each with a positive duration and its own id |
| Models.Catalog | Challengely/Shared/Models/Models.swift:85-128 | the six samples; CatalogShape, CatalogIdsAreIndices and EntryOf state its contract |
| Models.EntryOf | Challengely/Shared/Models/Models.swift:85-128 | every category has an entry in the catalog |
| Dependencies.Storage.constructor | Challengely/Shared/Dependencies/Dependencies.swift:33-63 | the store holds exactly the given profile, message log and onboarding flag |
| ChallengeCore.Admitted | Challengely/Features/Challenge/ChallengeCore.swift:60-62 | an entry is admitted exactly when it is in the catalog and the interests are empty or contain its category; a list with ascending ids keeps them ascending, so the catalog order survives and nothing repeats |
| ChallengeCore.AdmittedInCatalogOrder | Challengely/Features/Challenge/ChallengeCore.swift:60-62 | the admitted entries of the catalog come in ascending id order, each once |
| ChallengeCore.AdmittedNonEmpty | Challengely/Features/Challenge/ChallengeCore.swift:60-65 | whatever the interests, some entry is admitted, so the modulus is never zero |
| ChallengeCore.TodaysChallenge | Challengely/Features/Challenge/ChallengeCore.swift:60-65 | today's challenge is in the catalog, and its category is one of the interests when there are any |
| ChallengeCore.TodaysChallengeRotates | Challengely/Features/Challenge/ChallengeCore.swift:64-65 | each admitted entry is today's challenge on some day among the first as many days as there are admitted entries |
| ChallengeCore.TodaysChallengePeriodic | Challengely/Features/Challenge/ChallengeCore.swift:64-65 | the choice repeats every n days, n being the number of admitted entries |
| ChallengeCore.TodaysChallengeWithoutInterests | Challengely/Features/Challenge/ChallengeCore.swift:60-65 | with no interests, day d of the year gets the catalog entry at d modulo 6 |
| ChallengeCore.CompletedOn | Challengely/Features/Challenge/ChallengeCore.swift:31-34 | isCompletedToday; AfterCompletionFacts states that a completion makes it hold for that day |
| ChallengeCore.NextStreak | Challengely/Features/Challenge/ChallengeCore.swift:115-130 | the new streak is 1, the old one or one more, and a completion on a later day gives a positive streak; NextStreakCases states each case |
| ChallengeCore.AfterCompletion | Challengely/Features/Challenge/ChallengeCore.swift:132-135 | the profile update of a completion; AfterCompletionFacts and ConsecutiveDaysExtendStreak state its contract |
| ChallengeCore.NextStreakCases | Challengely/Features/Challenge/ChallengeCore.swift:115-130 | first completion gives 1, the next day adds 1, a gap of two or more days restarts at 1, and the same or an earlier day keeps the streak |
| ChallengeCore.AfterCompletionFacts | Challengely/Features/Challenge/ChallengeCore.swift:132-135 | after a completion, today is completed; interests and difficulty are kept; exactly today's challenge id is appended to the history |
| ChallengeCore.ConsecutiveDaysExtendStreak | Challengely/Features/Challenge/ChallengeCore.swift:102-137 | completing on n consecutive days right after the last completion adds n to the streak and n history entries |
| ChallengeCore.FirstGapAndRepeat | Challengely/Features/Challenge/ChallengeCore.swift:104-130 | the first completion and a completion after a gap give a streak of 1; a second completion on the same day changes nothing |
| ChallengeCore.FormatTime | Challengely/Features/Challenge/ChallengeCore.swift:25-29 | the text is digits, ':' and two digits; the seconds are below 60, and 60 times the minutes plus the seconds is the time; the minutes take exactly two digits below 100 minutes, with a leading zero only below 10 minutes |
| ChallengeCore.ChallengeEngine.FormattedTime | Challengely/Features/Challenge/ChallengeCore.swift:25-29 | the countdown text of the remaining time; FormatTime states its contract |
| ChallengeCore.ChallengeEngine.constructor | Challengely/Features/Challenge/ChallengeCore.swift:13-19 | a default profile, no challenge, locked, no time left, timer stopped, no confetti |
| ChallengeCore.ChallengeEngine.OnAppear | Challengely/Features/Challenge/ChallengeCore.swift:54-73 | a stored profile replaces the current one; today's challenge is selected; the state is completed exactly when the last completion was today, otherwise locked |
| ChallengeCore.ChallengeEngine.RevealChallenge | Challengely/Features/Challenge/ChallengeCore.swift:75-78 | the state becomes revealed |
| ChallengeCore.ChallengeEngine.AcceptChallenge | Challengely/Features/Challenge/ChallengeCore.swift:80-92 | in progress, timer running, time set to the challenge's duration or 600 s without a challenge, timer started |
| ChallengeCore.ChallengeEngine.TimerTick | Challengely/Features/Challenge/ChallengeCore.swift:94-100 | while running with time left, the time drops by exactly one; otherwise the timer stops, nothing else changes and completion is requested; the time never goes negative |
| ChallengeCore.ChallengeEngine.CompleteChallenge | Challengely/Features/Challenge/ChallengeCore.swift:102-138 | no-op when today is already completed; otherwise completed, timer stopped, confetti plus one, profile updated by the streak rule and saved |
| ChallengeCore.ChallengeEngine.ShareChallenge | Challengely/Features/Challenge/ChallengeCore.swift:140-142 | nothing happens |
| ChallengeCore.ChallengeEngine.RefreshChallenge | Challengely/Features/Challenge/ChallengeCore.swift:144-145 | onAppear is sent again |
| ChallengeCore.ChallengeEngine.Reduce | Challengely/Features/Challenge/ChallengeCore.swift:51-147 | the invariant (non-negative time and confetti, challenge from the catalog) is kept, and the message log and onboarding flag are untouched |
| ChallengeCore.RunTimer | Challengely/Features/Challenge/ChallengeCore.swift:87-100 | the countdown reaches zero after as many ticks as it had seconds, never goes negative, and the completion it triggers is recorded once however many ticks follow |
| OnboardingCore.Toggle | Challengely/Features/Onboarding/OnboardingCore.swift:57-64 | the category's membership flips and no other category's changes |
| OnboardingCore.ToggleTwice | Challengely/Features/Onboarding/OnboardingCore.swift:57-64 | toggling a category twice restores the selection |
| OnboardingCore.ProfileFrom | Challengely/Features/Onboarding/OnboardingCore.swift:71-76 | the saved profile has the wizard's interests and difficulty, streak 0, empty history and no last completion |
| OnboardingCore.OnboardingEngine.constructor | Challengely/Features/Onboarding/OnboardingCore.swift:15-20 | step 0, no interests, medium difficulty, not complete |
| OnboardingCore.OnboardingEngine.NextStep | Challengely/Features/Onboarding/OnboardingCore.swift:38-45 | below step 3 the step goes up by one; at step 3 it stays and completed is sent; steps stay within 0 to 3 |
| OnboardingCore.OnboardingEngine.PreviousStep | Challengely/Features/Onboarding/OnboardingCore.swift:47-51 | the step goes down by one but never below 0; steps stay within 0 to 3 |
| OnboardingCore.OnboardingEngine.SkipOnboarding | Challengely/Features/Onboarding/OnboardingCore.swift:53-55 | all five categories are selected and completed is sent |
| OnboardingCore.OnboardingEngine.SelectInterest | Challengely/Features/Onboarding/OnboardingCore.swift:57-64 | the selection becomes its toggle by the category |
| OnboardingCore.OnboardingEngine.SelectDifficulty | Challengely/Features/Onboarding/OnboardingCore.swift:66-69 | the difficulty is set, nothing else changes |
| OnboardingCore.OnboardingEngine.Completed | Challengely/Features/Onboarding/OnboardingCore.swift:71-86 | the wizard is complete, the profile from the selections is saved and the daily 08:00 reminder is requested |
| OnboardingCore.OnboardingEngine.Reduce | Challengely/Features/Onboarding/OnboardingCore.swift:35-89 | only completed saves a profile or sets isComplete, and after it both hold |
| OnboardingView.CanProceedExactly | Challengely/Features/Onboarding/OnboardingView.swift:80-91 | Next is enabled at steps 0 and 1, at step 2 exactly with an interest selected, always at step 3, and never at any other step |
| OnboardingView.CanProceed | Challengely/Features/Onboarding/OnboardingView.swift:80-91 | the Next gate; CanProceedExactly states it per step |
| OnboardingView.NextButtonAction | Challengely/Features/Onboarding/OnboardingView.swift:65-71 | Next sends completed exactly at step 3 and nextStep exactly otherwise |
| OnboardingView.OnNext | Challengely/Features/Onboarding/OnboardingView.swift:65-71 | before step 3 pressing Next advances one step; at step 3 it completes the wizard and saves the profile |
| OnboardingView.StepIndicatorShowsStep | Challengely/Features/Onboarding/OnboardingView.swift:94-95 | the label is "Step ", the numeral of step + 1, and " of 4" |
| OnboardingView.StepIndicator | Challengely/Features/Onboarding/OnboardingView.swift:95 | the step label; StepIndicatorShowsStep states what it reads |
| ChatCore.BlankIff | Challengely/Features/Chat/ChatCore.swift:71 | a text is blank exactly when every character is whitespace |
| ChatCore.Limit | Challengely/Features/Chat/ChatCore.swift:62 | the limited text is the prefix of length min(length, 500) |
| ChatCore.CanSendIff | Challengely/Features/Chat/ChatCore.swift:22-25 | sending is possible exactly when the input holds a non-whitespace character, the count is at most 500 and no reply is pending |
| ChatCore.CanSend | Challengely/Features/Chat/ChatCore.swift:22-25 | canSend; CanSendIff states it without trimming |
| ChatCore.ChatEngine.CanSendNow | Challengely/Features/Chat/ChatCore.swift:22-25 | canSend on the engine's fields; CanSendIff states it |
| ChatCore.ReplyPriority | Challengely/Features/Chat/ChatCore.swift:110-141 | each keyword group's reply is chosen exactly when it matches and no earlier group does; otherwise a default reply among the five, each one reachable |
| ChatCore.ChooseReply | Challengely/Features/Chat/ChatCore.swift:110-141 | a default reply is chosen exactly when no keyword occurs, and its index is below 5; ReplyPriority states which group wins |
| ChatCore.GenerateAIResponse | Challengely/Features/Chat/ChatCore.swift:110-141 | the text of the chosen reply; ReplyPriority and ReplyIgnoresCase state the choice |
| ChatCore.ReplyIgnoresCase | Challengely/Features/Chat/ChatCore.swift:111-115 | "Challenge", "WHAT" or any other casing of the first group's keywords selects the challenge reply |
| ChatCore.ChatEngine.constructor | Challengely/Features/Chat/ChatCore.swift:15-20 | empty log and input, not typing, count 0 |
| ChatCore.ChatEngine.OnAppear | Challengely/Features/Chat/ChatCore.swift:52-59 | a non-empty stored log is shown as is; an empty one becomes exactly the assistant's greeting |
| ChatCore.ChatEngine.InputChanged | Challengely/Features/Chat/ChatCore.swift:61-65 | the input is the first min(length, 500) characters and the count is its length |
| ChatCore.ChatEngine.SendMessage | Challengely/Features/Chat/ChatCore.swift:67-68 | the current input is sent as a quick reply |
| ChatCore.ChatEngine.SendQuickReply | Challengely/Features/Chat/ChatCore.swift:70-83 | blank text changes nothing; otherwise exactly one user message is appended, the input and count are cleared, the log is saved and typing starts |
| ChatCore.ChatEngine.StartTyping | Challengely/Features/Chat/ChatCore.swift:85-92 | typing is shown and a reply to the last message's text (or "") is scheduled |
| ChatCore.ChatEngine.AiResponseReceived | Challengely/Features/Chat/ChatCore.swift:94-99 | typing stops, exactly one assistant message is appended and the log is saved |
| ChatCore.ChatEngine.StopTyping | Challengely/Features/Chat/ChatCore.swift:101-103 | only the typing flag is cleared |
| ChatCore.ChatEngine.Reduce | Challengely/Features/Chat/ChatCore.swift:49-106 | the count stays the input's length within 500; except on onAppear the log only grows at its end; the profile and onboarding flag are untouched |
| ProfileCore.ReminderRequest | Challengely/Features/Profile/ProfileCore.swift:121-127 | daily reminders use schedule with the daily text, weekly ones scheduleWeekly with the weekly text, at the chosen time |
| ProfileCore.AnswerPermission | Challengely/Features/Profile/ProfileCore.swift:119-131 | the request reaches the scheduler exactly when permission is granted, and the answer is reported to the matching action |
| ProfileCore.ProfileEngine.constructor | Challengely/Features/Profile/ProfileCore.swift:29-38 | default profile, not loading, no error, reminders on at 08:00, daily, no test running |
| ProfileCore.ProfileEngine.Load | Challengely/Features/Profile/ProfileCore.swift:70-77 | loading starts and the error is cleared; a stored profile is delivered, and without one the screen stays loading |
| ProfileCore.ProfileEngine.ProfileLoaded | Challengely/Features/Profile/ProfileCore.swift:79-82 | the profile is shown and loading ends |
| ProfileCore.ProfileEngine.UpdateProfile | Challengely/Features/Profile/ProfileCore.swift:84-88 | the profile is shown and saved |
| ProfileCore.ProfileEngine.ToggleNotifications | Challengely/Features/Profile/ProfileCore.swift:90-95 | the flag is set, and scheduling is requested exactly when it is turned on |
| ProfileCore.ProfileEngine.UpdateNotificationTime | Challengely/Features/Profile/ProfileCore.swift:97-102 | the time is stored, and scheduling is requested exactly when reminders are on |
| ProfileCore.ProfileEngine.UpdateNotificationFrequency | Challengely/Features/Profile/ProfileCore.swift:104-109 | the frequency is stored, and scheduling is requested exactly when reminders are on |
| ProfileCore.ProfileEngine.ScheduleNotification | Challengely/Features/Profile/ProfileCore.swift:111-132 | with reminders off nothing happens; otherwise permission is asked for the reminder of the current settings |
| ProfileCore.ProfileEngine.SendTestNotification | Challengely/Features/Profile/ProfileCore.swift:134-150 | with reminders off nothing happens; otherwise a test is marked running and the test text is requested a minute ahead |
| ProfileCore.ProfileEngine.NotificationScheduled | Challengely/Features/Profile/ProfileCore.swift:152-162 | a denial sets the permission message; a grant leaves the error as it was |
| ProfileCore.ProfileEngine.TestNotificationSent | Challengely/Features/Profile/ProfileCore.swift:164-176 | the test always ends; success clears the error and denial sets the test-failure message |
| ProfileCore.ProfileEngine.Reduce | Challengely/Features/Profile/ProfileCore.swift:67-178 | only updateProfile writes the store, and each reminder setting changes only through its own action |
| ProfileCore.ScheduleFlow | Challengely/Features/Profile/ProfileCore.swift:111-162 | end to end, the reminder for the current settings is scheduled exactly when permission is granted, and the denial message appears exactly when it is not |
| AnalyticsCore.FirstWithId | Challengely/Features/Analytics/AnalyticsDashboardView.swift:36 | a found entry is in the catalog with that id, and nothing is found exactly when no entry has it |
| AnalyticsCore.LookupCompleted | Challengely/Features/Analytics/AnalyticsDashboardView.swift:35-37 | never longer than the ids, and each result is a catalog entry with one of the ids |
| AnalyticsCore.LookupAppend | Challengely/Features/Analytics/AnalyticsDashboardView.swift:35-37 | an id the catalog lacks is dropped and a known one contributes its entry, in order |
| AnalyticsCore.LookupKnown | Challengely/Features/Analytics/AnalyticsDashboardView.swift:35-37 | when every id is known, nothing is dropped and the k-th result has the k-th id |
| AnalyticsCore.CatalogIdsKnown | Challengely/Features/Analytics/AnalyticsDashboardView.swift:35-37 | ids of the catalog are never dropped: the k-th result is the entry with the k-th id |
| AnalyticsCore.RelaunchDropsHistory | Challengely/Shared/Models/Models.swift:11 | with ids drawn anew in every launch, the history recorded in one launch is found in full then and not at all after a restart |
| AnalyticsCore.StreakHistory | Challengely/Features/Analytics/AnalyticsDashboardView.swift:53-71 | the chart has seven values |
| AnalyticsCore.GenerateStreakHistory | Challengely/Features/Analytics/AnalyticsDashboardView.swift:53-71 | the loop from six days ago to today builds exactly the chart |
| AnalyticsCore.StreakHistoryEntries | Challengely/Features/Analytics/AnalyticsDashboardView.swift:57-67 | the last value is the streak; the value i days back is streak - i when i is at most the streak, else 0 |
| AnalyticsCore.StreakHistoryMonotone | Challengely/Features/Analytics/AnalyticsDashboardView.swift:57-67 | for a non-negative streak the values are non-negative and never decrease |
| AnalyticsCore.StreakHistoryOfThree | Challengely/Features/Analytics/AnalyticsDashboardView.swift:57-67 | a streak of 3 charts as 0, 0, 0, 0, 1, 2, 3 |
| AnalyticsCore.HistoryEntry | Challengely/Features/Analytics/AnalyticsDashboardView.swift:57-67 | one chart value; StreakHistoryEntries states it |
| AnalyticsCore.SortByCount | Challengely/Features/Analytics/AnalyticsDashboardView.swift:221-222 | sorting by count keeps the pairs and orders them by non-increasing count |
| AnalyticsCore.CategoryStatsCorrect | Challengely/Features/Analytics/AnalyticsDashboardView.swift:219-223 | one pair per occurring category carrying its count, sorted by non-increasing count, with counts adding up to the number of challenges |
| AnalyticsCore.CategoryStats | Challengely/Features/Analytics/AnalyticsDashboardView.swift:219-223 | the breakdown; CategoryStatsCorrect states its contract |
| AnalyticsCore.AnalyticsEngine.constructor | Challengely/Features/Analytics/AnalyticsDashboardView.swift:15-18 | no completed challenges and no chart |
| AnalyticsCore.AnalyticsEngine.Reload | Challengely/Features/Analytics/AnalyticsDashboardView.swift:31-42 | with a stored profile, its looked-up history and chart are delivered; without one nothing happens |
| AnalyticsCore.AnalyticsEngine.UpdateData | Challengely/Features/Analytics/AnalyticsDashboardView.swift:44-47 | both fields are overwritten with exactly the values delivered |
| AnalyticsCore.AnalyticsEngine.Reduce | Challengely/Features/Analytics/AnalyticsDashboardView.swift:28-50 | only updateData changes the state |
| MainCore.AllTabs | Challengely/Core/MainCore.swift:15-16 | four tabs, every tab once |
| MainCore.TabLabelsDistinct | Challengely/Core/MainCore.swift:18-34 | distinct tabs have distinct titles and icons |
| MainCore.Title | Challengely/Core/MainCore.swift:18-25 | the tab title; TabLabelsDistinct states the titles are distinct |
| MainCore.Icon | Challengely/Core/MainCore.swift:26-34 | the tab icon; TabLabelsDistinct states the icons are distinct |
| MainCore.MainRoot.constructor | Challengely/Core/MainCore.swift:36-40 | the challenge tab is selected and the four features start fresh on the shared store |
| MainCore.MainRoot.Reduce | Challengely/Core/MainCore.swift:51-65 | tabSelected sets the tab and leaves every feature and the store alone; feature actions keep the tab; the onboarding flag is untouched |
| AppCore.AppRoot.constructor | Challengely/Core/AppCore.swift:19-21 | the flag starts as persisted |
| AppCore.AppRoot.Reduce | Challengely/Core/AppCore.swift:39-52 | onboardingCompleted sets and persists the flag; onboarding(.completed) also sends it; nothing else writes the flag, and once set it stays set |
| AppCore.FinishOnboarding | Challengely/Core/AppCore.swift:41-47 | finishing the wizard saves the profile from the selections and sets the flag in memory and in the store |
| DesignSystem.HexColor | Challengely/Shared/DesignSystem/DesignSystem.swift:56-66 | 3 and 6 digits give opaque alpha, and any length other than 3, 6 or 8 gives (1, 1, 1, 0) |
| DesignSystem.HexColorTrimmed | Challengely/Shared/DesignSystem/DesignSystem.swift:57 | surrounding non-alphanumerics such as '#' do not change the colour |
| DesignSystem.ChannelsBounded | Challengely/Shared/DesignSystem/DesignSystem.swift:61-66 | every channel is at most 255, whatever the input |
| DesignSystem.ThreeDigits | Challengely/Shared/DesignSystem/DesignSystem.swift:62 | three digits give each channel as its digit times 17, with alpha 255 |
| DesignSystem.SixDigits | Challengely/Shared/DesignSystem/DesignSystem.swift:63 | six digits give red, green and blue from the digit pairs, with alpha 255 |
| DesignSystem.EightDigits | Challengely/Shared/DesignSystem/DesignSystem.swift:64 | eight digits give alpha, red, green and blue from the digit pairs |
| DesignSystem.HexColorOfDigits | Challengely/Shared/DesignSystem/DesignSystem.swift:57-59 | a string of hex digits is neither trimmed nor cut short by the scan |
| DesignSystem.ScanHex | Challengely/Shared/DesignSystem/DesignSystem.swift:58-59 | scanHexInt64: an optional 0x prefix, then the longest run of hex digits; ScanHexBound and HexColorOfDigits state its contract |
| DesignSystem.Channels | Challengely/Shared/DesignSystem/DesignSystem.swift:60-65 | the channel split by length; ChannelsBounded, ThreeDigits, SixDigits and EightDigits state its contract |

## Left out

- Rendering, animation, confetti, scrolling, keyboard handling, sharing cards and the colour and label helpers of the views are not modelled. The onboarding screen is modelled only for the Next gate, the Next action and the step label.
- Haptics never feed back into the logic. Profile transitions return them as a `Haptic` effect, and elsewhere they are dropped.
- Effects are not run. Where an effect's work shows in the state, it is applied when the action runs: profile and message saves write `Storage` at once, and the wizard's profile save happens in `Completed`. A permission prompt is an `AskPermission` effect, and `AnswerPermission` and `ScheduleFlow` carry the answer through.
- Timers and delays are not modelled. The repeating one-second timer is the `StartTimer` effect, plus `RunTimer`, which delivers ticks one by one. The random 1.5 to 3 s reply delay is the `ReplyLater` effect. The timer is never cancelled in the app either, so `RunTimer` also covers ticks after completion.
- Dates are integers. A calendar day is a `Day` number, the day of the year is a natural number, and times are seconds. `today`, `now`, 08:00 and fresh ids are parameters. "Same day", "one day later" and "a minute from now" are integer comparisons and `now + 60`. Time zones, daylight saving and `DateFormatter` are not modelled, and neither is `nextNotificationDisplay`.
- The weekly reminder's weekday default (Monday when the calendar gives none) is not modelled. It lives in the notification client, which is not part of this model.
- Storage is the `Storage` object. JSON encoding and `UserDefaults` are not modelled. A stored value that is missing or does not decode reads as no profile, an empty log or a false flag.
- Ids are not preserved across launches in the app: message and challenge ids and message timestamps are drawn when the value is built, and are not decoded. The model gives catalog entries the stable ids 0 to 5 and messages a supplied id and time. `AnalyticsCore.RelaunchDropsHistory` shows what the app's per-launch ids do to the dashboard.
- Whitespace is Unicode White_Space, as in Foundation's whitespacesAndNewlines. Lower-casing is ASCII only, and length is a count of `char`s, not of Swift grapheme clusters, so `ChatCore.ChatEngine.InputChanged` is exact only for text whose characters are single code points.
- DesignSystem.HexColor: alphanumerics are only the ASCII letters and digits, while Foundation's alphanumerics also include other letters, marks and digits such as 'é'. For an input with such characters at its ends the model trims more than the app: "#ééé" gives (1, 1, 1, 0) here but (255, 0, 0, 0) in the app.
- ChatCore.GenerateAIResponse: the random choice among the five default replies is the parameter `pick`. The `?? "Tell me more…"` fallback is not modelled, because the list is never empty.
- AnalyticsCore.CategoryStatsCorrect: the order of pairs with equal counts is not stated. The app sorts a dictionary whose order is unspecified, so ties may come out in any order. The model breaks ties by category order.
- DesignSystem.HexColor: the final conversion to `Double(x) / 255` is not modelled, only the integer channels. The 64-bit overflow of the scanner on inputs longer than 16 digits is not modelled either, since only lengths 3, 6 and 8 use the value.
- The `characterCountColor` thresholds and the progress-bar fraction are floating-point presentation and are not modelled.
- The code is followed where the app's description differs from it. Revealing and accepting do not check the current state. The catalog filter has no fallback, because every category has an entry. The 3-digit colour case does not mask the red nibble.

## Findings

| source | as written | input that shows it | evidently intended | confidence | as-written member | corrected member |
|---|---|---|---|---|---|---|
| Challengely/Shared/Models/Models.swift:11 | `Challenge.id` is a UUID drawn each time the catalog is built, so every launch has new ids. The profile stores the completed ids, and the dashboard looks them up in the current catalog. | Complete a challenge, restart the app and open the dashboard: the stored id matches no entry, so the completed list is empty. | Catalog entries keep one id across launches, so every recorded completion is still shown. | not executed; follows from the declaration and the lookup | AnalyticsCore.RelaunchDropsHistory | AnalyticsCore.CatalogIdsKnown |
