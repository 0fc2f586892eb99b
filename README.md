# Fluent AI tutoring client: a verified model of its core

Fluent AI is a browser client for spoken language practice. The learner
presses one button to talk with a conversational AI service. The service
streams back audio and transcriptions; each AI turn ends with a
pronunciation block and, when the learner made a mistake, a correction
block. The client turns these into annotations on the learner's own message.
Finished conversations are saved with their duration. They feed a history
list, practice goals and a progress profile.

This project models that core in Dafny, module by module:

- `Types`: the records of `types.ts`.
- `Strings`: the JavaScript string operations the core relies on (`trim`,
  `split`, `includes`, `startsWith`, `toLowerCase`, `parseInt`, decimal
  printing), over `seq<char>`.
- `Errors`: `getFriendlyErrorMessage`, proved equal to a first-match rule
  table.
- `Feedback`: the parser that strips the correction block and then the
  pronunciation block from an AI turn.
- `Transcript`: turn completion. The buffered transcriptions become
  messages, and the parsed feedback lands on the last USER message.
- `Playback`: the audio scheduler. It keeps a cursor on the output clock and
  the set of live sources; an interrupt or a cleanup stops every source.
- `Lifecycle`: the session engine as a class. It holds the connection
  status, the conversation, the buffers, the five resource handles, the
  history and the player. Its methods are the toggle, the connection
  callbacks, the cleanup and the disconnect. The invariant it keeps is that
  no resource is held while the status is DISCONNECTED or ERROR.
- `Controls`: the button's label, animation and disabled state.
- `GoalTracker`: goal progress over the sessions of the current day or week.
- `ConversationHistory`: the duration format, the newest-first list, the
  preview, clearing and selection.
- `GoalSetter`: the goal editor's state as a class.
- `ProfileView`: the top 20 words, the top 5 grammar points, the chart
  guards and geometry, and the plural.
- `Ranking`: the stable sort by a key, highest first, with `slice(0, k)`.
  `ConversationHistory` and `ProfileView` both use it.

Wall-clock times are integer milliseconds and are passed in as parameters.
The same goes for the audio clock (seconds), the decoded audio duration, the
outcome of asking for the microphone and of connecting, the API key, the
confirmation dialog's answer and the local calendar (midnight today and the
weekday).

Some behaviour is modelled as written even where it looks unintended:

- The saved record drops the first message (`conversation.slice(1)`).
  Because the first turn already replaced the greeting, the dropped message
  is the learner's first utterance (`Lifecycle.FirstUserMessageNotSaved`).
- Opening the goal editor without a goal offers a time goal of 3, though
  the first render offers 15 (`GoalSetter.NoGoalOpensAtThree`).
- A pronunciation block placed after the correction block is swallowed
  (`Feedback.PronunciationAfterCorrectionSwallowed`).

## Model

| member | source | states |
|---|---|---|
| Types.RolesExhaustive | types.ts:2-5 | a message has one of exactly two distinct roles |
| Types.StatusesExhaustive | types.ts:25-30 | there are exactly four distinct connection statuses |
| Strings.Trim | App.tsx:452-453 | the result is a contiguous slice of the input and neither starts nor ends with white space |
| Strings.TrimDropsSpace | App.tsx:452-453 | every character removed by trimming is white space |
| Strings.TrimIdempotent | App.tsx:478-480 | trimming an already trimmed string changes nothing |
| Strings.TrimCore | App.tsx:452-453 | white space, a core that starts and ends with other characters, then white space trims to exactly the core |
| Strings.TrimSlice | App.tsx:478-479 | cutting white space off either end of a string leaves its trim unchanged |
| Strings.TrimFront | App.tsx:478 | removing the leading white space leaves the trim unchanged |
| Strings.TrimBack | App.tsx:494 | removing the trailing white space leaves the trim unchanged |
| Strings.TrimAround | App.tsx:478 | trimming a text with a marker inside that does not start or end with white space cuts only the front of the text before the marker and the back of the text after it |
| Strings.IndexFrom | App.tsx:476-477 | the result is the first occurrence at or after `from`, or -1 when there is none |
| Strings.ContainsIff | App.tsx:476 | `includes` holds exactly when the pattern occurs at some index |
| Strings.Split | App.tsx:477 | `split` on a non-empty separator: the pieces between successive occurrences, at least one (JoinSplit, SplitSegmentsClean, SplitFirst, SplitSecond, SplitCount) |
| Strings.JoinSplit | App.tsx:477 | joining the pieces of `split` with the separator gives back the text |
| Strings.SplitSegmentsClean | App.tsx:477 | no piece of `split` contains the separator |
| Strings.SplitFirst | App.tsx:477-478 | the first piece is the text before the first occurrence, or the whole text |
| Strings.SplitSecond | App.tsx:477-479 | the second piece runs from the end of the first occurrence to the next one |
| Strings.SplitCount | App.tsx:480 | splitting at a character gives one more piece than there are occurrences of it |
| Strings.ToLower | App.tsx:16 | lower-casing keeps the length and maps each character alone |
| Strings.ToLowerIdempotent | App.tsx:16 | lower-casing twice is lower-casing once |
| Strings.ParseInt | App.tsx:497 | `parseInt(s, 10)`: skip leading white space, read an optional sign and the longest run of digits, NaN (None) when there is none (ParseIntDigits, ParseIntRejectsWord, ParseIntIgnoresTail, ParseIntNegatedDigits, ParseIntDecimal) |
| Strings.ParseIntDigits | App.tsx:497 | `parseInt` of a digit string is its decimal value |
| Strings.ParseIntRejectsWord | App.tsx:497-498 | `parseInt` of text starting with a non-digit, non-sign character is NaN |
| Strings.ParseIntIgnoresTail | App.tsx:497 | `parseInt` reads the leading digits and ignores what follows |
| Strings.ParseIntNegatedDigits | components/GoalSetter.tsx:62 | `parseInt` of a minus sign and digits is the negated value |
| Strings.ParseIntDecimal | App.tsx:238 | every integer printed in decimal reads back as itself |
| Errors.FriendlyErrorMessage | App.tsx:15-39 | the lower-cased message is tested against the seven phrases in the source's order and mapped to the first matching friendly text, else the generic one (ChainIsTable, FirstMatchWins, PermissionBeatsQuota, InvalidKeyEitherSpelling, GenericIffNoRule, CaseInsensitive) |
| Errors.Classify | App.tsx:15-39 | an independent reference: the text of the first rule of the table that applies, or the generic text (FirstRule, FirstRulesMatchTests, LastRulesMatchTests, ChainIsTable) |
| Errors.FirstRule | App.tsx:15-39 | the index found is the first rule that applies, and no earlier rule applies |
| Errors.FirstRulesMatchTests | App.tsx:17-28 | each of the first four rules applies exactly when its test in the chain succeeds |
| Errors.LastRulesMatchTests | App.tsx:29-37 | each of the last three rules applies exactly when its test in the chain succeeds |
| Errors.ChainIsTable | App.tsx:15-39 | the if-chain equals the first-match lookup in the rule table on every message |
| Errors.FirstMatchWins | App.tsx:15-39 | a specific text comes from a rule that applies, and no earlier rule applies |
| Errors.PermissionBeatsQuota | App.tsx:20-31 | a message that mentions both a denied permission and a quota is reported as a denied permission |
| Errors.InvalidKeyEitherSpelling | App.tsx:26-28 | both spellings of an invalid key give the invalid-key text |
| Errors.GenericIffNoRule | App.tsx:38 | the generic text is given exactly when no rule applies |
| Errors.CaseInsensitive | App.tsx:16 | the classification does not depend on the case of ASCII letters |
| Feedback.CorrectionOf | App.tsx:480-487 | a correction from exactly four fields, keeping fields 1 to 3 (CorrectionNeedsFourFields) |
| Feedback.PronunciationOf | App.tsx:495-504 | a record from exactly two fields whose first `parseInt` reads, with the score unclamped (PronunciationNeedsTwoFields, WordScoreDropped, ScoreReadUpToText) |
| Feedback.StripCorrection | App.tsx:476-488 | with a correction marker, the trimmed text before it and the correction read from the next segment; otherwise the text unchanged (StripRemovesMarker, StripKeepsClean) |
| Feedback.StripPronunciation | App.tsx:491-505 | the same step for the pronunciation marker and record (StripRemovesMarker, StripKeepsClean, TrimmedPronunciationBlock) |
| Feedback.ParseAiTurn | App.tsx:474-505 | strips the correction block, then the pronunciation block, and shows what is left (CanonicalTurn, TurnWithoutCorrection, DisplayHasNoMarkers, PlainReply, PronunciationAfterCorrectionSwallowed) |
| Feedback.FieldCount | App.tsx:480 | a block has one more field than its trimmed payload has separators |
| Feedback.CorrectionNeedsFourFields | App.tsx:479-487 | a correction is produced exactly when the payload has three separators |
| Feedback.PronunciationNeedsTwoFields | App.tsx:494-504 | a pronunciation record is produced exactly when the payload has one separator and its first field parses |
| Feedback.CutShape | App.tsx:477-479 | the cut is the text before the first marker and the segment after it |
| Feedback.CutLayout | App.tsx:477-479 | text, marker and a payload without a marker cut back into text and payload |
| Feedback.CanonicalTurn | App.tsx:383-392 | a turn in the prompt's layout (reply, pronunciation block, correction block) yields the trimmed reply and both records of their payloads, whatever white space surrounds the reply and the payloads |
| Feedback.TrimmedPronunciationBlock | App.tsx:491-505 | once the correction block is cut off and the rest trimmed, the pronunciation cut still yields the trimmed reply and the record read from the untrimmed payload |
| Feedback.TurnWithoutCorrection | App.tsx:391-392 | a turn with only a pronunciation block yields the reply, no correction and the record of that block |
| Feedback.WordScoreDropped | App.tsx:497-498 | a score written as a word drops the whole pronunciation record |
| Feedback.ScoreReadUpToText | App.tsx:497-502 | a score followed by text in its field is read up to the text |
| Feedback.StripRemovesMarker | App.tsx:478 | the text kept by a strip step no longer contains its marker |
| Feedback.StripKeepsClean | App.tsx:478-493 | a strip step adds no marker the input lacked |
| Feedback.DisplayHasNoMarkers | App.tsx:474-505 | the text shown contains neither block marker |
| Feedback.PlainReply | App.tsx:476-505 | a text without markers is shown unchanged and unannotated |
| Feedback.PronunciationAfterCorrectionSwallowed | App.tsx:476-505 | a pronunciation block placed after the correction block yields no pronunciation record |
| Transcript.Attach | App.tsx:507-515 | the annotations present are set on the last USER message, and nothing changes without one (AttachOnlyLastUser, AttachReplaces, AttachDroppedWithoutUser, AttachAtLastUser) |
| Transcript.CompleteTurn | App.tsx:451-522 | the greeting reset, the trimmed USER part, the annotations on the last USER message and the AI reply when non-empty (TurnLength, TurnMessages, TurnShowsNoMarkers, FeedbackOnOwnTurn, GreetingReplaced, NoResetWithoutGreeting, TurnComplete) |
| Transcript.LastUserIndex | App.tsx:467-472 | the index of a USER message with only non-USER messages after it, or -1 when there is no USER message |
| Transcript.FindLastUserIndex | App.tsx:467-472 | the reverse scan returns the index of the last USER message |
| Transcript.AttachAtLastUser | App.tsx:507-515 | the annotation assignments equal the attach specification |
| Transcript.TurnComplete | App.tsx:451-522 | the turn computed by pushes equals the completed-turn specification |
| Transcript.AttachOnlyLastUser | App.tsx:507-515 | attaching keeps the length, every role and text, every AI message and every message but the last USER one |
| Transcript.AttachReplaces | App.tsx:509-514 | a present annotation replaces the last USER message's field, and an absent one leaves it |
| Transcript.AttachDroppedWithoutUser | App.tsx:507-508 | with no USER message the annotations are dropped |
| Transcript.LastUserIndexSkipsAi | App.tsx:467-472 | appending a non-USER message does not move the last USER index |
| Transcript.LastUserIndexOfAppended | App.tsx:467-472 | an appended USER message is the last USER message |
| Transcript.TurnLength | App.tsx:456-517 | a turn adds one message per non-empty part: trimmed input and stripped display |
| Transcript.TurnMessages | App.tsx:456-517 | the new messages are the trimmed input (USER) and the display text (AI), and earlier messages keep their roles and texts |
| Transcript.TurnShowsNoMarkers | App.tsx:517 | the new AI message never shows a block marker |
| Transcript.FeedbackOnOwnTurn | App.tsx:460-514 | with non-empty input, the turn's feedback is written onto that turn's USER message |
| Transcript.FeedbackOverwritesEarlierTurn | App.tsx:507-510 | with empty input, a correction overwrites an earlier USER message's correction |
| Transcript.FeedbackDroppedWithoutUser | App.tsx:507-517 | with no USER message, only the AI reply is added |
| Transcript.GreetingReplaced | App.tsx:456-459 | the first turn after the greeting replaces it |
| Transcript.NoResetWithoutGreeting | App.tsx:456-459 | without the greeting last, every earlier message keeps its place, its role and its text |
| Playback.ChainedNoOverlap | App.tsx:548-549 | in a chain of slots no two overlap and start times never decrease |
| Playback.NextStart | App.tsx:531 | the start is the larger of the cursor and the clock |
| Playback.Schedule | App.tsx:531-550 | the buffer starts at the later of cursor and clock, the cursor moves to its end, and its fresh source becomes live |
| Playback.Ended | App.tsx:544-546 | the ended source leaves the live set and nothing else changes |
| Playback.StopAll | App.tsx:553-558 | every live source is stopped, none stays live, and the cursor is 0 |
| Playback.Play | App.tsx:528-550 | one slot is scheduled per arriving buffer |
| Playback.PlayTimeline | App.tsx:531-549 | each slot starts at the later of its arrival and the previous end, lasts its duration and gets the next source |
| Playback.PlayChained | App.tsx:531-549 | scheduled buffers never overlap and none starts before it arrived |
| Playback.PlayLive | App.tsx:544-550 | the live sources afterwards are the earlier ones plus exactly those handed out |
| Playback.InterruptRestartsNow | App.tsx:553-558 | after an interrupt the next buffer starts at the current time |
| Playback.BackToBack | App.tsx:531-549 | buffers arriving during playback queue back to back, and a late one starts at once |
| Lifecycle.ToggleActionOf | App.tsx:344-352 | CONNECTED stops, CONNECTING is ignored, DISCONNECTED and ERROR start |
| Lifecycle.ElapsedSeconds | App.tsx:228 | the rounded seconds since a start time that is set and not 0, else 0 (RoundedSeconds, ShortSessionStoredAsZero) |
| Lifecycle.RoundedSeconds | App.tsx:228 | `Math.round(ms / 1000)`: within half a second of the true value |
| Lifecycle.StoredDuration | App.tsx:246 | a duration of one second or less is stored as 0, a longer one as it is |
| Lifecycle.AudioStep | App.tsx:528-558 | one message's audio is scheduled, and an interrupt stops every source, the one that message just started included; late audio after cleanup throws and changes nothing; scheduling hands out the next source and stops nothing |
| Lifecycle.Session.NothingHeld | App.tsx:193-217 | no handle is held exactly when the release list is empty |
| Lifecycle.Session.constructor | App.tsx:42-45 | the engine starts DISCONNECTED with the greeting, empty buffers, no resources and an idle player |
| Lifecycle.Session.Acquire | App.tsx:401-407 | a fresh handle is handed out |
| Lifecycle.Session.Cleanup | App.tsx:193-223 | every held resource is released in source order, nothing stays held, and playback stops with the cursor at 0 |
| Lifecycle.Session.Disconnect | App.tsx:225-265 | after cleanup, a conversation longer than the greeting is appended to the history; the greeting is restored and the status is DISCONNECTED |
| Lifecycle.Session.FailStart | App.tsx:577-583 | `Error: ` and the friendly text are appended, the status is ERROR and everything is released |
| Lifecycle.Session.Connect | App.tsx:354-366 | a retry removes the old notice; then either the start succeeds (CONNECTING, the four new handles held, nothing released, playback untouched) or it fails (ERROR, notice, nothing held, exactly the handles it obtained released, playback stopped) |
| Lifecycle.Session.Obtain | App.tsx:395-407 | from CONNECTING with nothing held: a missing key or a refused microphone obtains nothing and fails, a failed connection releases the four handles it obtained, a success holds them |
| Lifecycle.Session.Toggle | App.tsx:344-352 | stop from CONNECTED (everything held released, playback stopped, conversation saved), no change at all while CONNECTING, start otherwise; a start ends in ERROR exactly when it fails |
| Lifecycle.Session.AcquireConnection | App.tsx:401-407 | the stream, both audio contexts and the session are held under the next four identities, in that order, with no processor yet |
| Lifecycle.Session.Open | App.tsx:423-428 | the status is CONNECTED and a processor is created on the input context |
| Lifecycle.Session.Receive | App.tsx:440-558 | the transcript and buffers follow the turn-completion specification, and the player follows the audio step |
| Lifecycle.Session.Transcribe | App.tsx:441-526 | fragments are appended, and a completed turn goes into the conversation with both buffers emptied |
| Lifecycle.Session.PlayAudio | App.tsx:528-558 | the player follows the audio step of the message |
| Lifecycle.Session.SourceEnded | App.tsx:544-546 | the ended source leaves the live set |
| Lifecycle.Session.StreamError | App.tsx:560-566 | `An error occurred: ` and the friendly text are appended, the status is ERROR and everything is released |
| Lifecycle.Session.Close | App.tsx:567-573 | an ERROR status leaves the whole engine unchanged; otherwise everything held is released, playback stops, the start time is cleared and the conversation is saved |
| Lifecycle.WithoutTrailingError | App.tsx:354-363 | drops the last message exactly when it is an AI message starting with `Error:` or `An error occurred:` (RetryRemovesNotice, RetryKeepsOtherMessages, RetryRemovesAtMostOne, RetryKeepsUserMessages) |
| Lifecycle.StartFailure | App.tsx:395-407 | the reason a start fails: a missing key, a refused microphone or a failed connection, and none when it connects (Session.Obtain, Session.Connect, Session.Toggle) |
| Lifecycle.RetryRemovesNotice | App.tsx:354-363 | a retry removes exactly the notice a failed start or a stream error appended |
| Lifecycle.RetryKeepsOtherMessages | App.tsx:357-361 | a conversation not ending in a notice is kept by a retry |
| Lifecycle.RetryRemovesAtMostOne | App.tsx:356-362 | a retry removes at most the last message, and only an error notice |
| Lifecycle.RetryKeepsUserMessages | App.tsx:358 | a learner's message is never removed by a retry |
| Lifecycle.ShortSessionStoredAsZero | App.tsx:228-246 | a session is stored as 0 seconds exactly when it lasted under 1.5 s |
| Lifecycle.SessionIdCarriesTime | App.tsx:238 | the session id is `session_` followed by the save time, which reads back |
| Lifecycle.SessionRecord | App.tsx:237-247 | the saved session: `session_` and the time, the settings, the stored duration and every message but the first (SavedRecord, SessionIdCarriesTime, FirstUserMessageNotSaved) |
| Lifecycle.Saved | App.tsx:232-247 | one record when the conversation holds more than one message, none otherwise (SavedRecord, Session.Disconnect) |
| Lifecycle.SavedRecord | App.tsx:232-247 | only a conversation longer than one message is saved, holding all but the first message, with the time, duration and language |
| Lifecycle.FirstUserMessageNotSaved | App.tsx:245 | after the first turn replaced the greeting, the saved record leaves out the learner's first message |
| Controls.View | components/Controls.tsx:18-52 | the label of each status (Start, Connecting..., Stop, Retry), animated exactly while connecting or connected, red ping exactly when connected, disabled exactly while connecting |
| Controls.DisabledIffToggleIgnores | components/Controls.tsx:48 | the button is disabled in exactly the status in which the toggle does nothing |
| Controls.LabelShowsStatus | components/Controls.tsx:23-42 | the four labels tell the four statuses apart |
| Controls.AnimatedIffNotStarting | components/Controls.tsx:28-37 | the animation runs exactly when a toggle would not start a connection |
| GoalTracker.DaysBack | components/GoalTracker.tsx:19-20 | a week reaches back 0 to 6 days, to a Monday |
| GoalTracker.PeriodStart | components/GoalTracker.tsx:14-23 | the period starts at midnight today, or at the Monday of the week, at most six days back |
| GoalTracker.Relevant | components/GoalTracker.tsx:25 | the filter keeps exactly the sessions at or after the period start |
| GoalTracker.Current | components/GoalTracker.tsx:27-33 | whole minutes of the summed seconds, or the number of conversations |
| GoalTracker.Percentage | components/GoalTracker.tsx:35 | 0 for a non-positive target, and otherwise between 0 and 100 |
| GoalTracker.ProgressOf | components/GoalTracker.tsx:11-38 | all zeros without a goal, and otherwise the goal's target |
| GoalTracker.PercentageFull | components/GoalTracker.tsx:35 | the capped percentage reaches 100 exactly when the count reaches a positive target |
| GoalTracker.IsGoalComplete | components/GoalTracker.tsx:46 | the percentage is at least 100 (CompleteIffReached) |
| GoalTracker.CompleteIffReached | components/GoalTracker.tsx:46 | a goal is complete exactly when progress reaches a positive target |
| GoalTracker.TotalSeconds | components/GoalTracker.tsx:29 | the sum of the durations, a missing one counting 0 (TotalSecondsNonNegative, LaterSessionCounted) |
| GoalTracker.TotalSecondsNonNegative | components/GoalTracker.tsx:29 | non-negative durations never sum to a negative total |
| GoalTracker.PercentageInRange | components/GoalTracker.tsx:35 | the bar stays between 0 and 100 percent |
| GoalTracker.EarlierSessionIgnored | components/GoalTracker.tsx:25 | a session before the period start changes no progress |
| GoalTracker.LaterSessionCounted | components/GoalTracker.tsx:25-33 | a session in the period adds its duration, and one conversation |
| ConversationHistory.FormatDuration | components/ConversationHistory.tsx:21-26 | `m min, s sec` from DurationParts, nothing when absent or under 1 second (DurationParts, DurationTextReadsBack) |
| ConversationHistory.DurationParts | components/ConversationHistory.tsx:21-24 | none when absent or under 1 second; otherwise minutes and seconds with m*60+s = total and s < 60 |
| ConversationHistory.DurationTextReadsBack | components/ConversationHistory.tsx:21-26 | the written duration starts with its minutes, which read back |
| ConversationHistory.NewestFirst | components/ConversationHistory.tsx:60 | the sessions sorted by timestamp, newest first (NewestFirstOrdered, NewestFirstOfOrdered) |
| ConversationHistory.NewestFirstOrdered | components/ConversationHistory.tsx:60 | the list shows every session exactly once, newest first |
| ConversationHistory.NewestFirstOfOrdered | components/ConversationHistory.tsx:60 | a list already newest first is shown unchanged |
| ConversationHistory.Preview | components/ConversationHistory.tsx:97 | the first message's text, or the empty-conversation text |
| ConversationHistory.TopicBadge | components/ConversationHistory.tsx:94 | the topic, or a non-empty default |
| ConversationHistory.HistoryView.constructor | components/ConversationHistory.tsx:10-11 | the list starts with nothing selected |
| ConversationHistory.HistoryView.ClearHistory | components/ConversationHistory.tsx:13-19 | after a confirmation everything and the selection are gone; without one nothing changes |
| ConversationHistory.HistoryView.Select | components/ConversationHistory.tsx:83 | the clicked session is selected |
| ConversationHistory.HistoryView.Back | components/ConversationHistory.tsx:33 | the selection is cleared |
| ConversationHistory.HistoryView.Listed | components/ConversationHistory.tsx:60 | the list shows exactly the saved sessions |
| Ranking.Insert | components/ConversationHistory.tsx:60 | insertion adds exactly the one entry |
| Ranking.InsertDescending | components/ConversationHistory.tsx:60 | insertion keeps a list ordered highest first |
| Ranking.Sort | components/ProfileView.tsx:47-48 | the copy is a permutation of the input, ordered highest first |
| Ranking.Top | components/ProfileView.tsx:47-53 | min(k, n) entries from the input, highest first |
| Ranking.PrefixDominates | components/ProfileView.tsx:49 | in an ordered list, nothing after a prefix beats an entry of it |
| Ranking.TopDominates | components/ProfileView.tsx:47-53 | nothing left out of the top has a larger key than an entry shown |
| Ranking.SortKeepsOrdered | components/ConversationHistory.tsx:60 | sorting an ordered list changes nothing, as a stable sort does |
| GoalSetter.FirstTarget | components/GoalSetter.tsx:15 | the goal's target unless it is 0, else 15 |
| GoalSetter.OpenedTarget | components/GoalSetter.tsx:21 | the goal's target unless it is 0, else 15 for a time goal and 3 otherwise, including no goal |
| GoalSetter.TargetOfInput | components/GoalSetter.tsx:62 | never 0: the parsed number, or 1 when unreadable or 0 |
| GoalSetter.GoalEditor.constructor | components/GoalSetter.tsx:13-15 | the first render's type, period and target |
| GoalSetter.GoalEditor.Open | components/GoalSetter.tsx:17-23 | opening resets all three fields from the current goal |
| GoalSetter.GoalEditor.ChooseType | components/GoalSetter.tsx:42-43 | the type is the one chosen |
| GoalSetter.GoalEditor.ChoosePeriod | components/GoalSetter.tsx:49-50 | the period is the one chosen |
| GoalSetter.GoalEditor.InputTarget | components/GoalSetter.tsx:62 | the target follows the input rule |
| GoalSetter.GoalEditor.Save | components/GoalSetter.tsx:25-29 | a goal is emitted exactly when the target is positive, and it is exactly the current selection |
| GoalSetter.NoGoalOpensAtThree | components/GoalSetter.tsx:15-21 | with no goal the editor opens as a time goal of 3, while the first render offers 15 |
| GoalSetter.NegativeInputKept | components/GoalSetter.tsx:62 | a typed negative number becomes a negative target, which Save refuses |
| GoalSetter.DigitsInputKept | components/GoalSetter.tsx:62 | a typed positive number is the target |
| GoalSetter.EmptyInputGivesOne | components/GoalSetter.tsx:62 | a cleared field gives 1 |
| ProfileView.TopVocabulary | components/ProfileView.tsx:47-49 | the 20 most used words, most used first (TopVocabularyIsTop, VocabularyPlaceholder) |
| ProfileView.TopGrammar | components/ProfileView.tsx:51-53 | the 5 most frequent grammar points, most frequent first (TopGrammarIsTop) |
| ProfileView.TopVocabularyIsTop | components/ProfileView.tsx:47-49 | at most 20 words from the profile are shown, most used first, and none left out was used more |
| ProfileView.TopGrammarIsTop | components/ProfileView.tsx:51-53 | at most 5 grammar points are shown, most frequent first, and none left out is more frequent |
| ProfileView.VocabularyPlaceholder | components/ProfileView.tsx:72-84 | the word list is empty exactly when the profile has no words |
| ProfileView.ChartGuardsAgree | components/ProfileView.tsx:10 | the profile's guard (more than one point) and the chart's guard (not fewer than two) agree |
| ProfileView.ChartX | components/ProfileView.tsx:17 | the first point is at the left padding and the last at the right |
| ProfileView.ChartY | components/ProfileView.tsx:18 | score 0 is on the bottom line and score 10 on the top line |
| ProfileView.ChartXIncreasing | components/ProfileView.tsx:17 | later points lie strictly further right, inside the padding |
| ProfileView.ChartYOrdered | components/ProfileView.tsx:18 | a higher score is drawn higher, and scores from 0 to 10 stay between the lines |
| ProfileView.TimesUnit | components/ProfileView.tsx:96 | the unit begins with "time" |
| ProfileView.TimesUnitPlural | components/ProfileView.tsx:96 | the unit ends in "s" exactly when the count is above one |

## Left out

- Microphone capture, PCM encoding (`createBlob`), sending audio, base64 and PCM decoding, and the Web Audio node graph are I/O. The model keeps their handles and the decoded duration only.
- The model has no translation feature: no `Message` translation fields and no translation request.
- Text-to-speech (`speakText`, `speechSynthesis.cancel`, the voice list, TTS errors) is left out as browser I/O.
- `localStorage`, JSON parsing and the unmount effect are left out. The history is a field of the engine, and a failing save is not modelled.
- `Date.now()` is called several times during a disconnect; the model uses one `now` for the duration, the id and the timestamp.
- `new Date()`, `setHours` and `setDate` are replaced by the calendar inputs of `GoalTracker.Today`. Daylight-saving days and month boundaries are not modelled.
- Lifecycle.Session.Cleanup: it releases each audio context unconditionally. The source skips a context whose state is already `closed` and then keeps its reference.
- React's state-update batching and stale closures are left out. The model reads the current state, where the callbacks registered at connect time read the state of that render. `connectionStatusRef` is taken to equal the status.
- Lifecycle.Session.FailStart and Lifecycle.Session.StreamError: the source issues the notice, status and cleanup updates together. The model releases first, so the invariant holds between steps.
- The `await` between scheduling the cursor and starting the decoded buffer is treated as atomic. Messages arriving during a decode are not interleaved.
- Cleanup writes the released resources to a log in release order; closing, stopping and disconnecting them is not modelled.
- Lifecycle.Session.Toggle: its start case states only the outcome status, the start time and the history. The conversation and the handles are stated by Lifecycle.Session.Connect.
- Lifecycle.Session.Open: the microphone source node and the `onaudioprocess` callback are left out.
- Model selection, the system prompt text, speaking rate, pitch and voice configuration are left out as configuration passed to the service.
- Floating-point arithmetic is modelled with exact `real`s (chart geometry, percentages, audio times); `toFixed` and the chart's SVG path text are left out.
- `toLowerCase` is modelled for ASCII letters only.
- Strings.ParseInt and GoalSetter.TargetOfInput: JavaScript numbers are doubles, so a very long digit string, score or target loses precision in the source; the model uses unbounded integers.
- Lifecycle.AudioStep: when `decodeAudioData` rejects (App.tsx:531-538), the cursor has already been set to `Math.max(cursor, currentTime)`, nothing is scheduled, and the handler throws before its interrupt test (App.tsx:553-558), so an interrupt in the same message is skipped. The model treats decoding as always succeeding.
- The vocabulary record is modelled as its list of entries; the order in which `Object.entries` lists them is not modelled.
- Ranking.Sort: it is stable by construction, like the language's sort; stability is proved only for input already in order (Ranking.SortKeepsOrdered).
- Presentation is left out: the goal text and period heading, button colours, icons, the transcript view, the language, topic and voice selectors, and the settings panels.
- The goal editor's clear and close buttons call the app's callbacks, which are not part of this model.
