# IntervAI front end: a Dafny model of its stateful core

IntervAI is a mock-interview web application. Most of its front end is
markup over hard-coded mock data. This project models the parts that hold
logic, and proves properties of them:

- **The interview session screen** (`Session`, `SessionLogic`). Five fixed
  questions, each with a 165-second countdown. The screen has a
  microphone toggle driven by the space bar, a speech-recognition transcript,
  a recording clock shown as `MM:SS`, a hint card, and Submit and Skip.
  `Session.InterviewSession` is a class with one field per piece of
  component state and one method per event. Clicks, key presses, timer
  callbacks and speech callbacks are all events. `SessionLogic` holds the
  pure parts: the countdown step, the transcript concatenation, the clock
  formatter, and the Submit/Skip progression rules. The page lets a
  Submit advance outlive a Skip and overrun the question bank (see
  "## Findings"); the class follows the corrected rule, and the rule as
  written is kept beside it in `SessionLogic`.
- **The notifications page** (`Notifications`). Mark one notification as
  read, mark all as read, the four filter tabs, and the unread badge. These
  are sequence functions; a `NotificationsPage` class replaces its list
  through them.
- **The profile form** (`Profile`, with `Text` for JavaScript's `split`,
  `join` and `trim`). The comma-separated skills field and its round trip
  through `join(', ')`. Edits of flat and dotted (`preferences.theme`) field
  names. The save, which shallow-merges the form over the stored profile.
- **The top bar** (`Topbar`). The avatar initials and the breadcrumb trail.
- **The assistant widget** (`Chatbot`). An append-only message log, canned
  answers with a fallback, and the open/closed toggle.

Timers are not clocks in this model. A scheduled callback is a flag or a
queue entry, and its firing is an event method such as `Tick`,
`SubmitDelayElapsed` or `Chatbot.ChatbotWidget.BotReplyDue`. The browser's
speech-recognition service, `Date.now()` and the mock network calls are
parameters or events.

## Model

| member | source | states |
|---|---|---|
| Text.Split | app/src/pages/Profile.jsx:68 | `split` on one character yields at least one piece, and no piece contains the separator |
| Text.JoinSplit | app/src/pages/Profile.jsx:87 | joining the pieces of a split with the separator gives back the original string |
| Text.SplitWithoutSeparator | app/src/pages/Profile.jsx:66-68 | a string without the separator splits into exactly itself |
| Text.SplitAtFirstSeparator | app/src/pages/Profile.jsx:68 | splitting `a + sep + b`, with no separator in `a`, yields `a` followed by the pieces of `b` |
| Text.SplitJoin | app/src/pages/Profile.jsx:87 | splitting a join of separator-free pieces recovers exactly those pieces |
| Text.Join | app/src/pages/Profile.jsx:274 | `join` has no contract of its own; `JoinSplit` and `SplitJoin` tie it to `split` in both directions |
| Text.SkipLeading | app/src/pages/Profile.jsx:87 | the scan from `i` stops at the first character that is not white space, or at the end; everything it passes is white space |
| Text.SkipTrailing | app/src/pages/Profile.jsx:87 | the scan back from `j`, not below `lo`, stops just after the last character that is not white space; everything it passes is white space |
| Text.Trim | app/src/pages/Profile.jsx:87 | `trim` gives a string with no white space at either end, no longer than the input |
| Text.TrimInfix | app/src/pages/Profile.jsx:87 | every character `trim` keeps comes from the input, and every character of the input that is not white space is kept |
| Text.TrimTrimmed | app/src/pages/Profile.jsx:87 | trimming a string with no white space at its ends returns it unchanged |
| Text.TrimLeadingBlank | app/src/pages/Profile.jsx:87 | one blank before a trimmed, non-empty string is removed by `trim` |
| SessionLogic.CountdownStep | app/src/pages/InterviewSession.jsx:142-145 | a tick maps 0 and 1 to 0 and any larger `t` to `t - 1`, so the countdown never goes negative |
| SessionLogic.TicksFloorAtZero | app/src/pages/InterviewSession.jsx:141-145 | `n` ticks from `t` leave `t - n` seconds, or 0 once `n >= t`, and 0 stays 0 |
| SessionLogic.FullBudgetReachesZero | app/src/pages/InterviewSession.jsx:141-145 | 165 ticks from the full budget reach exactly 0, and 164 ticks leave 1 |
| SessionLogic.Concat | app/src/pages/InterviewSession.jsx:193-196 | the transcript is the batch's segments in order; `ConcatAppend`, `ConcatLength` and `BuildTranscript` state this |
| SessionLogic.ConcatAppend | app/src/pages/InterviewSession.jsx:193-196 | the transcript of two result lists in a row is the concatenation of their transcripts |
| SessionLogic.ConcatLength | app/src/pages/InterviewSession.jsx:193-196 | the transcript of the first `i` segments is never longer than the transcript of all of them |
| SessionLogic.GrowingResults | app/src/pages/InterviewSession.jsx:192-197 | when a later result list extends an earlier one, the earlier transcript is a prefix of the later one |
| SessionLogic.BuildTranscript | app/src/pages/InterviewSession.jsx:193-196 | the accumulating loop produces exactly the in-order concatenation of all segments |
| SessionLogic.Decimal | app/src/pages/InterviewSession.jsx:227 | `String(n)`: at least one character, all digits, a leading '0' only for 0 itself; one digit exactly when `n < 10`, at most two when `n < 100` |
| SessionLogic.DecimalRoundTrip | app/src/pages/InterviewSession.jsx:227 | reading the decimal text of `n` back gives `n` |
| SessionLogic.PadStart2 | app/src/pages/InterviewSession.jsx:227 | `padStart(2, '0')` gives a string of length two, or the string's own length when that is longer |
| SessionLogic.LeadingZero | app/src/pages/InterviewSession.jsx:227 | a '0' put in front of a digit string keeps it a digit string with the same value |
| SessionLogic.PadKeepsValue | app/src/pages/InterviewSession.jsx:227 | padding a digit string with zeros keeps its numeric value |
| SessionLogic.FormatRecTime | app/src/pages/InterviewSession.jsx:226-227 | the clock text has at least five characters with ':' third from the end, and exactly five below 6000 seconds |
| SessionLogic.FormatRecTimeReadsBack | app/src/pages/InterviewSession.jsx:226-227 | reading minutes × 60 + seconds back from the clock text gives `s`, for every `s` |
| SessionLogic.FormatRecTimeFields | app/src/pages/InterviewSession.jsx:227 | the digits before the colon read `s / 60` and the two after it read `s % 60`, for every `s` |
| SessionLogic.ClockFields | app/src/pages/InterviewSession.jsx:227 | two padded numbers around ':' are digit fields reading back the minutes and the seconds (below 100) |
| SessionLogic.PaddedValue | app/src/pages/InterviewSession.jsx:227 | a number padded to two digits is all digits, still reads as the same number, and is exactly two long below 100 |
| SessionLogic.ClockValue | app/src/pages/InterviewSession.jsx:227 | two padded numbers around ':' read back as minutes × 60 + seconds when the seconds are below 100 |
| SessionLogic.LastIndexOfBank | app/src/pages/InterviewSession.jsx:223 | the question bank holds five questions and the last one carries id 5 |
| SessionLogic.TwoDigitValue | app/src/pages/InterviewSession.jsx:227 | a two-digit field reads as tens × 10 + units |
| SessionLogic.FormatRecTimeShape | app/src/pages/InterviewSession.jsx:226-227 | below 6000 seconds the clock is `DD:DD`, the first two digits reading `s / 60` and the last two `s % 60` |
| SessionLogic.SpaceTogglesMic | app/src/pages/InterviewSession.jsx:164 | the space bar toggles the microphone unless the key press comes from a text area; `KeyDown`'s contract states both outcomes |
| SessionLogic.StepAsWritten | app/src/pages/InterviewSession.jsx:206-224 | Submit, Skip and the two timeouts as the page runs them; `AsWrittenIndexOverrun` shows they can reach index 5 |
| SessionLogic.StepCorrected | app/src/pages/InterviewSession.jsx:206-224 | the same rules with a pending advance dropped on every question change; `StepCorrectedKeepsOk` and `RunCorrectedKeepsOk` keep the index in 0..4 |
| SessionLogic.Submit | app/src/pages/InterviewSession.jsx:206-217 | a click on an enabled Submit marks the question submitted and schedules one advance below the last question, otherwise the completion; a click while submitted changes nothing; the index never moves |
| SessionLogic.Complete | app/src/pages/InterviewSession.jsx:216 | the navigation timeout, when scheduled, completes the session and is spent; the index, `submitted` and pending advances are untouched |
| SessionLogic.AsWrittenIndexOverrun | app/src/pages/InterviewSession.jsx:206-224 | as written, Submit on question 4 then Skip within 600 ms lets the stale advance push the index to 5, outside the question bank |
| SessionLogic.StepCorrectedKeepsOk | app/src/pages/InterviewSession.jsx:206-224 | with the pending advance cancelled on question change, every event keeps the index in [0, 4] and at most one advance pending |
| SessionLogic.RunCorrectedKeepsOk | app/src/pages/InterviewSession.jsx:206-224 | any sequence of Submit, Skip and timeout events keeps the index within the question bank |
| SessionLogic.RunCorrectedMonotone | app/src/pages/InterviewSession.jsx:206-224 | the question index never decreases |
| SessionLogic.SubmitAdvancesByOne | app/src/pages/InterviewSession.jsx:206-214 | Submit on a non-last question followed by its delay moves the index by exactly one and clears `submitted` |
| SessionLogic.SubmitLastCompletes | app/src/pages/InterviewSession.jsx:215-217 | Submit on the last question keeps the index and, after its delay, completes the session |
| SessionLogic.SkipLastNoCompletion | app/src/pages/InterviewSession.jsx:220-224 | Skip on the last question only clears `submitted`: no index change and no completion |
| SessionLogic.CorrectedAgreesWhenNothingPending | app/src/pages/InterviewSession.jsx:206-224 | with no advance pending, the corrected rules are exactly the written rules |
| Session.InterviewSession.constructor | app/src/pages/InterviewSession.jsx:116-135 | the mounted state: question 0, empty answer, full countdown running, not recording, hint shown, interviewer speaking |
| Session.InterviewSession.LoadQuestion | app/src/pages/InterviewSession.jsx:132-148 | a question change moves the index on by exactly one, resets `timeLeft` to 165, restarts the countdown and sets the interviewer speaking, leaving `submitted` alone |
| Session.InterviewSession.Tick | app/src/pages/InterviewSession.jsx:141-145 | a running countdown steps by `CountdownStep` and stops itself when it reaches 0; a stopped one changes nothing |
| Session.InterviewSession.SpeakDelayElapsed | app/src/pages/InterviewSession.jsx:135 | the 2.5-second timeout ends the interviewer's speaking state |
| Session.InterviewSession.RecTick | app/src/pages/InterviewSession.jsx:151-159 | while recording each tick adds exactly 1 to the recording counter; otherwise the counter is 0 |
| Session.InterviewSession.ToggleMic | app/src/pages/InterviewSession.jsx:174-204 | the recording flag is negated, with or without speech support, the counter is reset, and a recognizer exists only with support |
| Session.InterviewSession.KeyDown | app/src/pages/InterviewSession.jsx:163-167 | space outside the text area prevents the default and toggles the microphone; any other key changes nothing |
| Session.InterviewSession.SpeechResult | app/src/pages/InterviewSession.jsx:192-197 | a result event replaces the response with the concatenation of all segments |
| Session.InterviewSession.SpeechStopped | app/src/pages/InterviewSession.jsx:199-200 | an error or end event forces recording off and the counter to 0 |
| Session.InterviewSession.TypeResponse | app/src/pages/InterviewSession.jsx:343 | typing sets the response to the text area's value |
| Session.InterviewSession.Discard | app/src/pages/InterviewSession.jsx:373-374 | discard stops recording and clears the response |
| Session.InterviewSession.DismissHint | app/src/pages/InterviewSession.jsx:311 | dismissing hides the hint; no method sets it back |
| Session.InterviewSession.Submit | app/src/pages/InterviewSession.jsx:206-218 | Submit sets `submitted`, halts the countdown and schedules the advance (or the completion on the last question); it does nothing while disabled |
| Session.InterviewSession.SubmitDelayElapsed | app/src/pages/InterviewSession.jsx:210-214 | with an advance pending: clears the response and `submitted`, loads the next question with a fresh countdown and the interviewer speaking; recording, hint and recognizer untouched; otherwise nothing changes |
| Session.InterviewSession.CompletionDelayElapsed | app/src/pages/InterviewSession.jsx:216 | the delayed navigation marks the session completed |
| Session.InterviewSession.Skip | app/src/pages/InterviewSession.jsx:220-224 | clears the response and `submitted`; below the last question loads the next one with a fresh countdown and the interviewer speaking; on the last one the countdown and speaking state are kept; recording, hint and recognizer untouched |
| Session.SpeechBatches | app/src/pages/InterviewSession.jsx:163-197 | two result batches `["hello"]` then `["hello", " world"]` leave `"hello world"`; two space presses leave the microphone off |
| Notifications.Find | app/src/pages/Notifications.jsx:99 | `find` returns nothing exactly when no item has the id, and otherwise an item of the list with that id |
| Notifications.FindIsFirst | app/src/pages/Notifications.jsx:99 | what `find` returns is the first item with the id |
| Notifications.ReadWithId | app/src/pages/Notifications.jsx:102 | the `map` keeps length and order, sets `isRead` on items with the id and leaves every other item as it was |
| Notifications.ReadAll | app/src/pages/Notifications.jsx:112 | every item is read afterwards, with all other fields and the order unchanged |
| Notifications.MarkAsRead | app/src/pages/Notifications.jsx:98-103 | the list keeps its length and order, and only items carrying the id may change, and then only to read |
| Notifications.MarkAllAsRead | app/src/pages/Notifications.jsx:107-113 | every item becomes read and nothing else about it changes, including when nothing was unread |
| Notifications.Shown | app/src/pages/Notifications.jsx:116-123 | which tab shows an item; `FilteredMembers` states its cases |
| Notifications.Select | app/src/pages/Notifications.jsx:116-123 | a filter keeps only items the tab shows and never lengthens the list |
| Notifications.Filtered | app/src/pages/Notifications.jsx:116-123 | the displayed list is no longer than the list and holds only items the active tab shows |
| Notifications.UnreadCount | app/src/pages/Notifications.jsx:126 | the badge is at most the number of notifications |
| Notifications.HasUnread | app/src/pages/Notifications.jsx:157-161 | whether the badge and the mark-all button are shown; `UnreadCountZero` proves it is exactly a non-zero badge |
| Notifications.SelectMembers | app/src/pages/Notifications.jsx:118-120 | a filter keeps exactly the items that match it |
| Notifications.SelectIsSubsequence | app/src/pages/Notifications.jsx:118-120 | a filter result is a subsequence of the list |
| Notifications.FilteredIsSubsequence | app/src/pages/Notifications.jsx:116-123 | every tab shows a subsequence of the full list |
| Notifications.SelectAllIsIdentity | app/src/pages/Notifications.jsx:121 | filtering with the `all` tab's value keeps every item |
| Notifications.FilteredMembers | app/src/pages/Notifications.jsx:116-123 | `unread` shows exactly the unread items; `system` and `interview` exactly the items of that type |
| Notifications.UnreadTabMatchesBadge | app/src/pages/Notifications.jsx:118-126 | the badge counts exactly the items the unread tab shows (both are the same filter, so this holds by definition) |
| Notifications.UnreadCountZero | app/src/pages/Notifications.jsx:108-126 | the badge is 0 exactly when no item is unread |
| Notifications.MarkAsReadOnlyTarget | app/src/pages/Notifications.jsx:98-103 | on an unread item with a unique id, only that item's `isRead` changes; length and order are kept |
| Notifications.MarkAsReadNoop | app/src/pages/Notifications.jsx:99-100 | a missing id, or an id whose first item is already read, leaves the list unchanged |
| Notifications.UnreadCountAfterSetRead | app/src/pages/Notifications.jsx:102-126 | reading one unread item lowers the unread count by exactly one |
| Notifications.MarkAsReadDecrementsBadge | app/src/pages/Notifications.jsx:98-126 | marking an unread item read drops the badge by exactly one |
| Notifications.MarkAllAsReadAllRead | app/src/pages/Notifications.jsx:107-113 | after mark-all every item is read, the badge is 0 and the list keeps its length |
| Notifications.MarkAllAsReadIdempotent | app/src/pages/Notifications.jsx:107-113 | mark-all twice is mark-all once |
| Notifications.MockUnreadCount | app/src/pages/Notifications.jsx:7-40 | the mock data starts with two unread notifications |
| Notifications.NotificationsPage.constructor | app/src/pages/Notifications.jsx:87-89 | the page starts loading, with an empty list and the `all` tab |
| Notifications.NotificationsPage.Loaded | app/src/pages/Notifications.jsx:91-96 | the fetched list is stored and loading ends |
| Notifications.NotificationsPage.SelectTab | app/src/pages/Notifications.jsx:174-192 | choosing a tab changes only the active filter |
| Notifications.NotificationsPage.HandleMarkAsRead | app/src/pages/Notifications.jsx:98-105 | the list becomes `MarkAsRead` of the old list and keeps its length |
| Notifications.NotificationsPage.HandleMarkAllAsRead | app/src/pages/Notifications.jsx:107-114 | the list becomes `MarkAllAsRead` of the old list and the badge reads 0 |
| Profile.DropEmpty | app/src/pages/Profile.jsx:87 | `filter(s => s)` keeps exactly the non-empty strings and never lengthens the list; `DropEmptyAppend` gives order and repetitions |
| Profile.DropEmptyAppend | app/src/pages/Profile.jsx:87 | filtering a concatenation is the concatenation of the filtered parts, so the filter keeps order and repeated skills |
| Profile.TrimAll | app/src/pages/Profile.jsx:87 | every piece trimmed, in place; `CleanBlanked` and `SkillsRoundTrip` state what trimming and filtering recover |
| Profile.ParseSkills | app/src/pages/Profile.jsx:87 | every parsed skill is non-empty, has no surrounding white space and contains no comma |
| Profile.JoinBlanked | app/src/pages/Profile.jsx:274 | joining with ", " equals joining with "," after a blank is put before each item |
| Profile.CleanBlanked | app/src/pages/Profile.jsx:87 | trimming and filtering the blank-prefixed pieces of well-formed skills gives the skills back |
| Profile.SkillsTextPieces | app/src/pages/Profile.jsx:274 | the shown text of comma-free skills splits on ',' into the first skill and the blank-prefixed rest |
| Profile.SkillsRoundTrip | app/src/pages/Profile.jsx:87 | parsing `skills.join(', ')` returns the same list, for every list of well-formed skills |
| Profile.ParseSkillsStable | app/src/pages/Profile.jsx:87 | re-parsing the text shown for a parsed list gives the same list |
| Profile.SkillsText | app/src/pages/Profile.jsx:274 | the text shown for a skills list; `SkillsRoundTrip` proves parsing it returns every well-formed list |
| Profile.InputValue | app/src/pages/Profile.jsx:73-79 | a checkbox yields a flag holding `checked`, any other input a string holding `value`; `HandleInputChange` states that an undotted edit stores exactly that |
| Profile.NestedFields | app/src/pages/Profile.jsx:72 | the fields of a nested record, or none; `UpdateField` and `EditPreference` state what an edit keeps of them |
| Profile.UpdateField | app/src/pages/Profile.jsx:63-81 | an undotted name sets only that field; a dotted name sets only `form[parent][child]`, keeping the other top-level fields and the sibling nested fields |
| Profile.SplitHasTwoParts | app/src/pages/Profile.jsx:66-68 | a name containing '.' destructures into a parent and a child |
| Profile.EditPreference | app/src/pages/Profile.jsx:66-75 | editing `preferences.<child>` changes only that preference and no other field |
| Profile.Merge | app/src/pages/Profile.jsx:45 | `{...base, ...updates}` has the keys of both; update keys win and the other keys come from the base |
| Profile.MergeOverCompleteForm | app/src/pages/Profile.jsx:45 | saving a form that still holds every stored field returns that form |
| Profile.MergeIdempotent | app/src/pages/Profile.jsx:45 | merging the same updates twice is merging them once |
| Profile.ProfilePage.constructor | app/src/pages/Profile.jsx:50-54 | the page starts loading with no form, not saving and no success banner |
| Profile.ProfilePage.Loaded | app/src/pages/Profile.jsx:56-61 | the stored profile becomes the form and loading ends |
| Profile.ProfilePage.HandleInputChange | app/src/pages/Profile.jsx:63-83 | the form becomes `UpdateField` of the old form with the input's value, so an undotted edit stores `Flag(checked)` for a checkbox and `Str(value)` otherwise; the banner is cleared |
| Profile.ProfilePage.HandleInputArrayChange | app/src/pages/Profile.jsx:85-90 | the named field becomes the parsed skill list, other fields stay, and the banner is cleared |
| Profile.ProfilePage.HandleSave | app/src/pages/Profile.jsx:92-98 | only while no save is in flight (line 341 disables the Save button meanwhile): saving starts with the current form as payload and clears the banner |
| Profile.ProfilePage.SaveCompleted | app/src/pages/Profile.jsx:98-106 | only with a save in flight: the form becomes the stored profile merged with the payload, the banner shows and saving ends |
| Profile.ProfilePage.SaveSuccessExpired | app/src/pages/Profile.jsx:103 | the 3-second timeout hides the banner |
| Topbar.Heads | app/src/components/Topbar.jsx:6-7 | one character at most per word |
| Topbar.DisplayName | app/src/components/Topbar.jsx:4 | the shown name is never empty, and is the user's name whenever that is non-empty |
| Topbar.Take | app/src/components/Topbar.jsx:8 | `slice(0, n)` is the prefix of length `min(n, length)` |
| Topbar.UpperChar | app/src/components/Topbar.jsx:9 | a lower-case ASCII letter becomes the capital at the same alphabet position; every other character is unchanged |
| Topbar.Upper | app/src/components/Topbar.jsx:9 | same length; each lower-case ASCII letter becomes its capital, every other character is kept, and no lower-case letter remains |
| Topbar.Initials | app/src/components/Topbar.jsx:4-9 | the initials have at most two characters and no lower-case letter |
| Topbar.HeadsAppend | app/src/components/Topbar.jsx:6-7 | the first letters of two word lists in a row are their first letters concatenated |
| Topbar.HeadsLength | app/src/components/Topbar.jsx:6-7 | there is exactly one first letter per non-empty word |
| Topbar.EmptyWordSkipped | app/src/components/Topbar.jsx:5-7 | an empty word, from two spaces in a row, contributes no character |
| Topbar.InitialsCount | app/src/components/Topbar.jsx:4-9 | the number of initials is the number of non-empty words, capped at 2 |
| Topbar.TwoWordInitials | app/src/components/Topbar.jsx:4-9 | a two-word name gives the upper-cased first letters of both words |
| Topbar.DefaultInitials | app/src/components/Topbar.jsx:4-9 | with no name or an empty name, the initials are "AR" |
| Topbar.Breadcrumbs | app/src/components/Topbar.jsx:15-22 | one item per crumb, in order, with the crumb's text; a chevron exactly on the items after the first, and exactly the last item active |
| Topbar.ExactlyLastActive | app/src/components/Topbar.jsx:18 | exactly the last item is active, and none when there are no crumbs |
| Topbar.Render | app/src/components/Topbar.jsx:15-22 | the text of a trail; `RenderTrail` proves it is the labels joined by '›' |
| Topbar.RenderFrom | app/src/components/Topbar.jsx:15-22 | from the second item on, the trail reads as a chevron before each crumb |
| Topbar.RenderTrail | app/src/components/Topbar.jsx:15-22 | the rendered trail is the crumbs joined by chevrons |
| Chatbot.Reply | app/src/components/ChatbotWidget.jsx:16-44 | the answer is never empty: the canned response when one exists for the value, the fixed fallback otherwise |
| Chatbot.QuickActionsAnswered | app/src/components/ChatbotWidget.jsx:9-21 | all four quick actions have a canned response, so none of them gets the fallback |
| Chatbot.CountFromAppend | app/src/components/ChatbotWidget.jsx:38-47 | appending a message adds one to its sender's count only |
| Chatbot.ChatbotWidget.constructor | app/src/components/ChatbotWidget.jsx:4-25 | the widget starts closed with the two greetings and no pending reply |
| Chatbot.ChatbotWidget.HandleAction | app/src/components/ChatbotWidget.jsx:36-49 | the caption is appended as a user message after all earlier messages, and its reply is scheduled; the log keeps its greetings and one answer per question |
| Chatbot.ChatbotWidget.BotReplyDue | app/src/components/ChatbotWidget.jsx:41-48 | the oldest scheduled reply appends the answer for its value as a bot message; earlier messages are unchanged |
| Chatbot.ChatbotWidget.ToggleChat | app/src/components/ChatbotWidget.jsx:51 | `toggleChat` flips `isOpen`, so two toggles restore it |
| Chatbot.QuickActionExchange | app/src/components/ChatbotWidget.jsx:4-51 | one quick action on a fresh widget yields the greetings, the caption, then its canned answer; open then close leaves it closed |

## Left out

- Timers and the clock: the 1 s intervals and the 600 ms, 800 ms, 2.5 s and 3 s timeouts are event methods or flags. Which interleavings are possible in real time is not modelled: any order of events is allowed.
- The browser speech-recognition service is not modelled. Only its result, error and end callbacks are modelled, as events that can arrive once a recognizer exists. `continuous`, `interimResults` and `lang` are not modelled.
- Session.InterviewSession.Discard: the discard button does not stop a running recognizer, so a later result can refill the response. The model clears the response once and lets later `SpeechResult` events arrive.
- Navigation to the results page is the `completed` flag. The route and the data passed with it are not modelled.
- The circular timer's progress arc and colour thresholds use floating point and are presentational. Only its minutes/seconds text, which is the same formatter, is modelled.
- Mock fetch and update delays are not modelled, and neither are `console.log` and the `mockMarkAsRead` / `mockMarkAllAsRead` calls. Their completion is an event where the page reacts to it (`Loaded`, `SaveCompleted`).
- Profile.ProfilePage.SaveCompleted: an edit made while a save is in flight is overwritten by the server's reply. The model keeps this behaviour; it is not an omission.
- Profile.NestedFields: spreading a string or array parent (`...prev[parent]` when the parent is not an object) is modelled as an empty record. JavaScript would spread a string's characters as index keys.
- Profile.UpdateField: names with more than one '.' use their first two pieces, as the destructuring does. Field values other than strings, flags, string lists and records are not modelled.
- Topbar.UpperChar: only ASCII letters are upper-cased. JavaScript's full Unicode `toUpperCase` can lengthen a string (for example 'ß' becomes "SS") and can produce more than two characters. `n[0]` and `slice` work on UTF-16 code units, not on characters.
- Topbar.DisplayName: a `user.name` that is not a string is not modelled.
- Chatbot.Reply: keys inherited from `Object.prototype` (such as `constructor`) are not modelled. JavaScript's `BOT_RESPONSES[value]` finds those, which would be truthy and not the fallback.
- Message ids come from `Date.now()` and are parameters. Whether they are unique is not modelled.
- Auto-scrolling the chat window and all JSX, SVG and CSS are presentational.
- On a question change the page's effects (app/src/pages/InterviewSession.jsx lines 132-148) reset only `timeLeft` and `isInterviewerSpeaking`; `LoadQuestion` likewise leaves `showHint`, `isRecording` and `recordingTime` alone.
- Session.InterviewSession.LoadQuestion, Skip, SubmitDelayElapsed: they drop a pending Submit advance when the question changes, which is the correction in the Findings table. The page never cancels that timeout, so after Submit at index 0, Skip, then the timeout, the page shows index 2 and the class index 1. The page's behaviour is modelled only by `SessionLogic.StepAsWritten`.

## Findings

| source | as written | input that shows it | evidently intended | confidence | as-written member | corrected member |
|---|---|---|---|---|---|---|
| app/src/pages/InterviewSession.jsx:206-224 | the 600 ms advance scheduled by Submit is never cancelled, and it increments whatever index it finds (`i => i + 1`) | on question 4 (index 3): Submit, then Skip within 600 ms, then the timeout fires; the index becomes 5 and `QUESTIONS[5]` is undefined | a pending advance is dropped when the question changes, so the index stays within 0..4; `Session.InterviewSession` follows this rule | not executed | SessionLogic.AsWrittenIndexOverrun | SessionLogic.RunCorrectedKeepsOk |
