# Challengely, modelled in Dafny

Challengely is an iOS app that hands its user one small challenge a day and keeps a chat
coach beside it. This project models the app's core logic on values and proves properties
of that model. The screens are Composable Architecture reducers, and each one becomes two
parts:

- a pure `Step(state, action, …)` function that returns the new state and the effect (an
  action sent at once, or a `.run` task's actions in order);
- a class whose fields are the store's state and whose `Reduce` method changes them in
  place, proved equal to `Step`.

Services with mutable state (the chat storage, the chat service's cursor, the streamer, the
local store) are classes too. Pure helpers (validators, formatters, parsers) are functions.

The modules follow the app's folders:

- `CommonApi`: interests, difficulty levels and user preferences.
- `LocalStoreModel`: the user defaults behind launch and preferences.
- `ChatApi`: the message types and the keyword tables.
- `Classifier`: the chat service's validation chain and spam check.
- `ChatStorageModel`: the day-scoped chat history.
- `ChatServiceModel`: paging and answering.
- `ChatStreamerModel`: the character-by-character reveal of a reply.
- `ChatStoreModel` and `ChatInputModel`: the chat screen and its input field.
- `ChatExamples`: two worked inputs.
- `OnboardingModel`: the onboarding screen.
- `DailyChallengeModel`: the challenge catalogue, the daily pick and the reducer.
- `ChallengeCardModel`: the challenge card, with its buttons, estimate parsing, countdown
  formatting and timer.
- `DailyViewModel`: the greeting and the refresh gate.
- `SplashModel`, `AppModel` and `HomeModel`: navigation.
- `Text`, `Seqs` and `Wrappers`: the string, sequence and option support they share.

Some consequences of the source are proved:

- **No-preferences pick.** `Interest` equality includes its per-literal `UUID`, so the five
  onboarding interests (`Interest.allCases`) never equal the ten catalogue interests
  (`CommonConstants.interests`). Without saved preferences the daily pick therefore finds no
  challenge (`NoPreferencesNoChallenge`).
- **Preferences never filter.** With preferences chosen during onboarding, the preference
  filter never matches, so the pick falls back to the whole catalogue
  (`PreferencesNeverFilter`).
- **The timer's ten seconds.** Every generated estimate reads "N mins", which has no "min"
  piece, so every card's countdown lasts ten seconds (`TemplateTimesParseToTen`).
- **The "Didn't get it done." suggestion.** It is answered from the "done" group, whose
  replies congratulate the user (`DidntGetItDoneIsCongratulated`).
- **"I did it!".** The app's own suggestion "I did it!" is refused as gibberish
  (`OwnSuggestionIsGibberish`).

Modelling conventions:

- Randomness (`randomElement()`) is a `pick` parameter.
- Dictionary iteration order is a choice among the matching entries.
- UUIDs are natural numbers passed in or drawn from a counter.
- Dates are day numbers.
- `Task.sleep` delays are dropped, but the order of the actions a task sends is kept.
- A JSON encoding that may fail is an `encodable` flag.

## Model

| member | source | states |
|---|---|---|
| CommonApi.InterestColor | Challengely/Common/CommonAPI.swift:16-25 | an interest is gray exactly when its lowercased name is none of the five coloured names |
| CommonApi.AllCasesDistinctNames | Challengely/Common/CommonAPI.swift:27-33 | the onboarding interests are five, with pairwise different names |
| CommonApi.TablesShareNoInterest | Challengely/Common/CommonConstants.swift:12-23 | no onboarding interest equals a catalogue interest, even where the name and icon agree ("Fitness") |
| CommonApi.FromRawValue | Challengely/Common/CommonAPI.swift:36-39 | a parsed raw value maps back to the same string |
| CommonApi.RawValueRoundTrip | Challengely/Common/CommonAPI.swift:36-39 | a difficulty's raw value parses back to that difficulty, and a string parses to it exactly when it is its raw value |
| CommonApi.Index | Challengely/Common/CommonAPI.swift:67-76 | the index is at most 2, 0 exactly for easy and 2 exactly for hard |
| CommonApi.IndexInjective | Challengely/Common/CommonAPI.swift:67-76 | different difficulties have different indices |
| LocalStoreModel.LocalStore.constructor | Challengely/Common/LocalStore.swift:17-23 | the store starts from the given stored preferences and launch flag |
| LocalStoreModel.LocalStore.MarkFirstLaunch | Challengely/Common/LocalStore.swift:25-31 | after marking, the app is no longer on its first launch |
| LocalStoreModel.LocalStore.LoadUserPrefs | Challengely/Common/LocalStore.swift:39-45 | preferences load exactly when decodable data is stored, and are that data |
| LocalStoreModel.LocalStore.SaveUserPrefs | Challengely/Common/LocalStore.swift:33-37 | an encodable save stores the preferences so that a load returns them; a failed encoding leaves the store unchanged |
| ChatApi.TablesShareKeys | Challengely/Chat/ChatAPI.swift:104-219 | the response and suggestion tables have the same seven distinct keyword groups |
| ChatApi.TableSizes | Challengely/Chat/ChatAPI.swift:89-219 | every group has four non-empty replies and seven suggestions; there are five fallback suggestions |
| Text.Lower | Challengely/Chat/ChatService.swift:88 | lowercasing keeps the length and maps each scalar by itself |
| Text.Trim | Challengely/Chat/ChatService.swift:63 | the result is a slice of the input, empty exactly when the input is all blanks |
| Text.TrimIdempotent | Challengely/Chat/ChatService.swift:63 | trimming twice is trimming once |
| Text.CharPrefix | Challengely/Chat/Views/ChatInputView.swift:63-68 | the prefix of `n` Characters is a prefix of the text holding min(n, count) Characters |
| Text.SplitJoin | Challengely/DailyChallenge/Views/DailyChallengeCardView.swift:240 | joining the space-separated pieces gives back the text |
| Text.ParseIntRoundTrip | Challengely/DailyChallenge/Views/DailyChallengeCardView.swift:243 | every 64-bit `Int` parses back from its decimal form |
| Text.NatToStringRoundTrip | Challengely/DailyChallenge/Views/DailyChallengeCardView.swift:250-254 | a number's decimal digits read back as the number |
| Seqs.Filter | Challengely/DailyChallenge/DailyChallengeStore.swift:126 | the filtered elements are elements that pass, and every passing element is kept |
| Seqs.FilterAppend | Challengely/DailyChallenge/DailyChallengeStore.swift:133-135 | filtering distributes over concatenation |
| Seqs.RandomElement | Challengely/DailyChallenge/DailyChallengeStore.swift:127 | no element exactly for an empty sequence; otherwise one of its elements |
| Classifier.AllowedCount | Challengely/Chat/ChatService.swift:155-159 | the count of letters, digits and spaces is at most the length, and equal exactly when every scalar is one |
| Classifier.AllowedCountAppend | Challengely/Chat/ChatService.swift:155-159 | the count is additive over concatenation |
| Classifier.JunkPatternIsRegex | Challengely/Chat/ChatService.swift:165-167 | the junk test holds exactly when some position starts a run of the pattern's three alternatives |
| Classifier.Cleaned | Challengely/Chat/ChatService.swift:169-173 | the cleaned text is no longer than the input and holds lowercase ASCII letters only |
| Classifier.CleanedKeepsLetter | Challengely/Chat/ChatService.swift:169-173 | every ASCII letter of the input survives cleaning, lowercased |
| Classifier.VariedLettersAreNotGibberish | Challengely/Chat/ChatService.swift:169-173 | a text whose cleaned letters include more than three distinct ones is not gibberish |
| Classifier.CleanedCountIsLength | Challengely/Chat/ChatService.swift:169-173 | the cleaned text's Character count is its length |
| Classifier.LinkIsSpam | Challengely/Chat/ChatService.swift:161-178 | a text holding a link also contains the spam entry "http" |
| Classifier.LinkHasHttp | Challengely/Chat/ChatService.swift:161-178 | every text the link pattern matches contains "http" |
| Classifier.NoLinkWithout | Challengely/Chat/ChatService.swift:161-178 | a text lacking one of the scalars of "http" has no link |
| Classifier.CombiningMarksInflateRatio | Challengely/Chat/ChatService.swift:155-159 | the ratio counts scalars over Characters: one alphanumeric Character in three passes the 0.6 bar |
| Classifier.GreekQuestionMarksNotAllowed | Challengely/Chat/ChatService.swift:155-159 | Greek punctuation is not alphanumeric: three question marks and a letter fail the 0.6 bar |
| Classifier.OwnSuggestionIsGibberish | Challengely/Chat/ChatService.swift:169-173 | the suggestion "I did it!" is gibberish |
| ChatStorageModel.Pages | Challengely/Chat/ChatStorage.swift:8-10 | the page count is the least p >= 1 with total < 10 p |
| ChatStorageModel.LoadedChats | Challengely/Chat/ChatStorage.swift:26-56 | loaded records all carry today's day, and are the stored records of today exactly when today's day is saved and the records decode |
| ChatStorageModel.LoadedDefaults | Challengely/Chat/ChatStorage.swift:37-42 | a history saved on another day has both keys removed; otherwise the defaults are untouched |
| ChatStorageModel.SavedChats | Challengely/Chat/ChatStorage.swift:58-62 | the new record comes last, after today's earlier records only, every one of them kept |
| ChatStorageModel.SavedDefaults | Challengely/Chat/ChatStorage.swift:63-69 | the two keys hold the records and the day; every other key is untouched |
| ChatStorageModel.ChatStorage.TotalPages | Challengely/Chat/ChatStorage.swift:4-10 | the page count of the held records |
| ChatStorageModel.ChatStorage.constructor | Challengely/Chat/ChatStorage.swift:22-56 | the storage starts from today's loaded records and the cleaned defaults |
| ChatStorageModel.ChatStorage.Save | Challengely/Chat/ChatStorage.swift:58-69 | an encodable save appends the record after today's records and writes both keys; a failed encoding changes nothing |
| ChatStorageModel.SaveThenLoad | Challengely/Chat/ChatStorage.swift:26-69 | loading on the save day returns the saved records |
| ChatStorageModel.LoadOnAnotherDay | Challengely/Chat/ChatStorage.swift:37-42 | loading on another day returns nothing and removes both keys |
| ChatStorageModel.LoadWithoutSavedDay | Challengely/Chat/ChatStorage.swift:27-35 | with no readable day, nothing loads and the defaults stay |
| ChatServiceModel.FetchPage | Challengely/Chat/ChatService.swift:27-55 | out-of-range pages serve nothing; a served window is the page's ten records counted back from the newest, strictly below the cursor, which moves to its start |
| ChatServiceModel.CursorZeroIsFinal | Challengely/Chat/ChatService.swift:49-53 | once the cursor is 0 nothing is served again |
| ChatServiceModel.ServeFromZero | Challengely/Chat/ChatService.swift:35-53 | once the cursor is 0, no run of later fetches serves any window |
| ChatServiceModel.ServedWindowsDescend | Challengely/Chat/ChatService.swift:27-55 | however the store grows between fetches, the served windows start at strictly decreasing indices, so no window is served twice |
| ChatServiceModel.TwentyFiveRecords | Challengely/Chat/ChatService.swift:27-55 | twenty-five records come back as 15-24, 5-14 and 0-4, then nothing |
| ChatServiceModel.GrowingStoreRepeatsRecords | Challengely/Chat/ChatService.swift:33-46 | after five more records, page 2 overlaps page 1 and serves records already shown |
| ChatServiceModel.TenRecords | Challengely/Chat/ChatService.swift:27-55 | ten records fit one page and page 2 does not exist |
| ChatServiceModel.FirstWithId | Challengely/Chat/ChatService.swift:57-59 | the first record carrying the id, or none exactly when no record does |
| ChatServiceModel.SavedRecordIsFound | Challengely/Chat/ChatService.swift:57-59 | a record saved under a fresh id is found by it |
| ChatServiceModel.OutcomeDeterminedUpToReply | Challengely/Chat/ChatService.swift:61-142 | two possible answers to one input differ only in the reply text |
| ChatServiceModel.ReplyFromAnyMatchingGroup | Challengely/Chat/ChatService.swift:92-118 | every reply of every matching group is a possible answer |
| ChatServiceModel.ChatService.constructor | Challengely/Chat/ChatService.swift:12-16 | the service starts with no cursor |
| ChatServiceModel.ChatService.GetMessages | Challengely/Chat/ChatService.swift:27-55 | the fetched records are the window `FetchPage` serves, and the cursor moves as it says |
| ChatServiceModel.ChatService.Generate | Challengely/Chat/ChatService.swift:61-142 | the saved record is a possible answer to the input (refused, matched or fallback), and the response is `ResponseOf` it: its success flag, id and message |
| ChatServiceModel.Answer | Challengely/Chat/ChatService.swift:63-139 | the record built for an input is refused, matched from some matching group, or a fallback, as the validation and the keyword tables decide |
| ChatStreamerModel.Shown | Challengely/Chat/ChatMessageStreamer.swift:35-40 | after `k` appends the text is the reply's prefix of min(k, count) Characters |
| ChatStreamerModel.EachAppendIsOneCharacter | Challengely/Chat/ChatMessageStreamer.swift:35-40 | each append extends the text by exactly one Character |
| ChatStreamerModel.AllAppendsShowReply | Challengely/Chat/ChatMessageStreamer.swift:35-40 | after every Character, the whole reply shows |
| ChatStreamerModel.ChatMessageStreamer.constructor | Challengely/Chat/ChatMessageStreamer.swift:20-24 | an unknown id shows nothing and never completes; a known one shows the reply and completes once |
| ChatStreamerModel.ChatMessageStreamer.Stream | Challengely/Chat/ChatMessageStreamer.swift:26-48 | the text after each append is the next Character prefix; the task clears and completion runs once |
| ChatStoreModel.AtLimitIsNearLimit | Challengely/Chat/ChatStore.swift:26-32 | at the limit is near the limit; 450 Characters or fewer is neither |
| ChatStoreModel.TextBlock | Challengely/Chat/ChatStore.swift:90-93 | a block of the given id and sender holding one text message per text |
| ChatStoreModel.HistoryBlocksPairUp | Challengely/Chat/ChatStore.swift:203-234 | each loaded record becomes a user block with the query followed by an AI block with its texts (`ReplyTexts`: the response message, when there is one, then the reply) |
| ChatStoreModel.SuggestionsFor | Challengely/Chat/ChatStore.swift:240-251 | the fallback suggestions when no group matches; otherwise the whole suggestion list of a matching group (the cut to three is the callers' `Take(…, 3)`) |
| ChatStoreModel.RunAppend | Challengely/Chat/ChatStore.swift:101-158 | running two action lists is running their concatenation |
| ChatStoreModel.RunAddSuggestions | Challengely/Chat/ChatStore.swift:176-178 | the add actions `AddSuggestions` builds, one per suggestion, append the suggestions in order |
| ChatStoreModel.ReplyOutcome | Challengely/Chat/ChatStore.swift:101-158 | after a reply's follow-ups loading is off, its block is appended, streaming stays on exactly when a successful reply's record is missing, and suggestions follow a found record |
| ChatStoreModel.StreamedReplyOutcome | Challengely/Chat/ChatStore.swift:108-130 | a successful reply appends its stream block and ends streaming once its record is found |
| ChatStoreModel.FailedReplyOutcome | Challengely/Chat/ChatStore.swift:132-156 | a failed reply appends its message block and suggestions only when its record and message exist |
| ChatStoreModel.FailureTextOutcome | Challengely/Chat/ChatStore.swift:139-155 | a failure with texts turns loading off, appends its block, then its suggestions |
| ChatStoreModel.StreamedTail | Challengely/Chat/ChatStore.swift:116-121 | a found record ends streaming and appends its suggestions |
| ChatStoreModel.RunTwo | Challengely/Chat/ChatStore.swift:101-158 | one- and two-action runs are the steps in order |
| ChatStoreModel.RunThree | Challengely/Chat/ChatStore.swift:101-158 | a three-action run is the steps in order |
| ChatStoreModel.NeverLoadingWhileStreaming | Challengely/Chat/ChatStore.swift:101-158 | no state along a reply's follow-ups is loading and streaming at once |
| ChatStoreModel.LoadingStaysOff | Challengely/Chat/ChatStore.swift:106 | once loading is switched off, actions that never set it keep it off |
| ChatStoreModel.SendFlow | Challengely/Chat/ChatStore.swift:76-158 | a send from a sendable state clears the input, never holds both flags, and ends with at most three suggestions |
| ChatStoreModel.OnSendGatedByCanSend | Challengely/Chat/ChatStore.swift:76-84 | `onSend` does nothing exactly when sending is not allowed; otherwise it clears the input and sends it trimmed |
| ChatStoreModel.SuggestionTappedGuard | Challengely/Chat/ChatStore.swift:184-190 | a tapped suggestion is sent as typed unless a reply is loading or streaming |
| ChatStoreModel.SendMessageAppendsOneBlock | Challengely/Chat/ChatStore.swift:86-99 | sending appends one user block, sets loading, clears suggestions and starts the reply task |
| ChatStoreModel.OnAppearIdempotent | Challengely/Chat/ChatStore.swift:58-70 | the welcome block and its suggestions are added once only |
| ChatStoreModel.LoadedHistoryPrecedes | Challengely/Chat/ChatStore.swift:203-234 | loaded pairs go before the shown blocks and the page advances |
| ChatStoreModel.ChatSession.constructor | Challengely/Chat/ChatStore.swift:8-16 | the session starts in the initial state |
| ChatStoreModel.ChatSession.Reduce | Challengely/Chat/ChatStore.swift:56-235 | the fields become `Step`'s state and the returned effect is `Step`'s |
| ChatStoreModel.ChatSession.Dispatch | Challengely/Chat/ChatStore.swift:101-158 | dispatching actions one by one is `Run` |
| ChatStoreModel.ChatSession.RunReply | Challengely/Chat/ChatStore.swift:101-158 | the reply task saves a possible answer and dispatches its follow-ups; a record saved under a fresh id is the one streamed |
| ChatStoreModel.ChatSession.Respond | Challengely/Chat/ChatStore.swift:101-103 | the reply's record is a possible answer, saved when encodable, and a record saved under a fresh id is found again by its id |
| ChatStoreModel.ChatSession.RunLoad | Challengely/Chat/ChatStore.swift:193-201 | the load task fetches the current page and moves the cursor; a refused fetch dispatches nothing, a served page is dispatched as one response (`FetchFollowUps`) |
| ChatInputModel.CharacterCountColor | Challengely/Chat/Views/ChatInputView.swift:34-40 | green under 400 Characters, orange from 400 to 499, red from 500 |
| ChatInputModel.RedMeansAtLimit | Challengely/Chat/Views/ChatInputView.swift:34-40 | the counter is red exactly at the store's limit, and never green near it |
| ChatInputModel.Limited | Challengely/Chat/Views/ChatInputView.swift:63-68 | text up to 500 Characters is kept; longer text is cut to its first 500 |
| ChatInputModel.LimitedIdempotent | Challengely/Chat/Views/ChatInputView.swift:63-68 | limiting twice is limiting once |
| ChatInputModel.SendTapped | Challengely/Chat/Views/ChatInputView.swift:136-140 | the send button sends `onSend` exactly when sending is allowed |
| ChatInputModel.ButtonSendsGoThrough | Challengely/Chat/Views/ChatInputView.swift:306-311 | a tap the button lets through sends the trimmed input |
| ChatInputModel.ChatInputField.constructor | Challengely/Chat/Views/ChatInputView.swift:88-91 | the field starts with the given text |
| ChatInputModel.ChatInputField.LimitInputText | Challengely/Chat/Views/ChatInputView.swift:63-68 | an over-long text is cut to 500 Characters of the new text; otherwise the text stays |
| ChatInputModel.ChatInputField.Edit | Challengely/Chat/Views/ChatInputView.swift:88-91 | an edited field holds the limited text, never over 500 Characters |
| ChatExamples.DailyChallengeDoneMatchesThreeGroups | Challengely/Chat/ChatAPI.swift:194 | "Daily challenge done!" is accepted and matches the challenge, done and streak groups |
| ChatExamples.DidntGetItDoneIsCongratulated | Challengely/Chat/ChatAPI.swift:213 | "Didn’t get it done." is accepted and matches the done group alone |
| OnboardingModel.WithAllCases | Challengely/Onboarding/OnboardingStore.swift:79-86 | every onboarding interest is present, existing entries keep their value, added ones are off |
| OnboardingModel.WithCases | Challengely/Onboarding/OnboardingStore.swift:79-86 | the keys of the list are added, existing entries keep their value, added ones are off |
| OnboardingModel.Toggled | Challengely/Onboarding/OnboardingStore.swift:124-127 | only the tapped interest flips |
| OnboardingModel.Selected | Challengely/Onboarding/OnboardingStore.swift:153-167 | the interests switched on |
| OnboardingModel.PreferencesFrom | Challengely/Onboarding/OnboardingStore.swift:153-167 | the trimmed name or "Friend", the interests switched on, the chosen difficulty or medium |
| OnboardingModel.PageStaysInRange | Challengely/Onboarding/OnboardingStore.swift:88-122 | pages stay within 0..4 and move by one at most; forward only on a next tap that may proceed |
| OnboardingModel.BlockedNextExplains | Challengely/Onboarding/OnboardingStore.swift:88-106 | a blocked next tap shows the page's error message and changes nothing else |
| OnboardingModel.FinishSaves | Challengely/Onboarding/OnboardingStore.swift:88-106 | next on the last page saves the preferences and completes onboarding |
| OnboardingModel.SkipSavesLikeFinish | Challengely/Onboarding/OnboardingStore.swift:120-122 | skipping saves the same preferences and completes onboarding |
| OnboardingModel.OnAppearIdempotent | Challengely/Onboarding/OnboardingStore.swift:79-86 | a second appearance changes nothing |
| OnboardingModel.InterestTappedTwiceRestores | Challengely/Onboarding/OnboardingStore.swift:124-127 | two taps restore the selection; an unknown interest only clears the error |
| OnboardingModel.HeaderControls | Challengely/Onboarding/OnboardingStore.swift:15-36 | back implies skip implies stepper; the button's title marks the first and last pages; back moves one page back |
| OnboardingModel.OnboardingSession.constructor | Challengely/Onboarding/OnboardingStore.swift:7-13 | the session starts in the initial state |
| OnboardingModel.OnboardingSession.Reduce | Challengely/Onboarding/OnboardingStore.swift:77-148 | the fields become `Step`'s state, the effect is `Step`'s, and the local store receives what `Step` saves |
| OnboardingModel.OnboardingSession.AddAllCases | Challengely/Onboarding/OnboardingStore.swift:79-86 | the loop adds every missing onboarding interest, switched off |
| OnboardingModel.OnboardingSession.AddCases | Challengely/Onboarding/OnboardingStore.swift:79-86 | the loop adds every missing key of the list, switched off, and keeps existing entries |
| OnboardingModel.OnboardingSession.SavePreferences | Challengely/Onboarding/OnboardingStore.swift:153-167 | the local store holds the built preferences (when encodable) and the launch is marked |
| DailyChallengeModel.TemplateTimesAsWritten | Challengely/DailyChallenge/DailyChallengeStore.swift:40-111 | the nine estimates read "10 mins", "5 mins", …, "50 mins" |
| DailyChallengeModel.FromTemplate | Challengely/DailyChallenge/DailyChallengeStore.swift:40-111 | a challenge carries its id, interest, template difficulty and template estimate |
| DailyChallengeModel.ChallengesFor | Challengely/DailyChallenge/DailyChallengeStore.swift:40-111 | nine challenges per interest, in template order |
| DailyChallengeModel.GeneratedShape | Challengely/DailyChallenge/DailyChallengeStore.swift:40-111 | nine challenges per interest, in order, with consecutive ids |
| DailyChallengeModel.GeneratedInterests | Challengely/DailyChallenge/DailyChallengeStore.swift:40-111 | every generated challenge belongs to one of the given interests |
| DailyChallengeModel.Candidates | Challengely/DailyChallenge/DailyChallengeStore.swift:133-138 | candidates are catalogue challenges; all match the preferences when any does, and are the whole catalogue when none does |
| DailyChallengeModel.LoadedChallenges | Challengely/DailyChallenge/DailyChallengeStore.swift:39-112 | loading builds 90 challenges, nine per catalogue interest with the template difficulties, none of an onboarding interest |
| DailyChallengeModel.SelectOncePerDay | Challengely/DailyChallenge/DailyChallengeStore.swift:116-120 | a challenge completed today blocks a new pick |
| DailyChallengeModel.SelectWithPreferences | Challengely/DailyChallenge/DailyChallengeStore.swift:133-143 | with preferences, the pick is a candidate and the completion flag clears |
| DailyChallengeModel.NoPreferencesFilter | Challengely/DailyChallenge/DailyChallengeStore.swift:123-130 | without preferences, a catalogue holding no onboarding interest yields no challenge |
| DailyChallengeModel.NoPreferencesNoChallenge | Challengely/DailyChallenge/DailyChallengeStore.swift:123-130 | without preferences, the generated catalogue yields no challenge |
| DailyChallengeModel.PreferencesNeverFilter | Challengely/DailyChallenge/DailyChallengeStore.swift:133-138 | onboarding preferences never filter the generated catalogue |
| DailyChallengeModel.ProgressFlags | Challengely/DailyChallenge/DailyChallengeStore.swift:145-177 | accepting and cancelling set the progress flag; completing clears it, marks completion and records today |
| DailyChallengeModel.SettersAssignOwnField | Challengely/DailyChallenge/DailyChallengeStore.swift:159-169 | each setter assigns its own field and nothing else |
| DailyChallengeModel.RefreshReselects | Challengely/DailyChallenge/DailyChallengeStore.swift:151-157 | a refresh runs loading on, a new pick, loading off |
| DailyChallengeModel.DailyChallengeSession.constructor | Challengely/DailyChallenge/DailyChallengeStore.swift:7-13 | the session starts in the initial state |
| DailyChallengeModel.DailyChallengeSession.Reduce | Challengely/DailyChallenge/DailyChallengeStore.swift:31-178 | the fields become `Step`'s state, the effect is `Step`'s, and a completion stores today's date |
| ChallengeCardModel.ExactlyOneButton | Challengely/DailyChallenge/Views/DailyChallengeCardView.swift:35-77 | exactly one action button, of accept, cancel and share, is on the card |
| ChallengeCardModel.MinutesParse | Challengely/DailyChallenge/Views/DailyChallengeCardView.swift:239-248 | "N min" parses to N minutes in seconds |
| ChallengeCardModel.MinsParseToTen | Challengely/DailyChallenge/Views/DailyChallengeCardView.swift:239-248 | "N mins" parses to the ten-second default |
| ChallengeCardModel.TemplateTimesParseToTen | Challengely/DailyChallenge/Views/DailyChallengeCardView.swift:239-248 | every generated estimate parses to ten seconds |
| ChallengeCardModel.TruncRem | Challengely/DailyChallenge/Views/DailyChallengeCardView.swift:252 | truncating division and remainder recompose the dividend, the remainder taking its sign |
| ChallengeCardModel.Pad2 | Challengely/DailyChallenge/Views/DailyChallengeCardView.swift:253 | a field is at least two characters wide |
| ChallengeCardModel.Pad2TwoDigits | Challengely/DailyChallenge/Views/DailyChallengeCardView.swift:253 | under 100, a field is two digits reading back the value |
| ChallengeCardModel.FormatTimeRoundTrip | Challengely/DailyChallenge/Views/DailyChallengeCardView.swift:250-254 | under 100 minutes the countdown reads "MM:SS", seconds below 60, recomposing the count |
| ChallengeCardModel.TickNeverNegative | Challengely/DailyChallenge/Views/DailyChallengeCardView.swift:220-230 | a tick never makes the count negative nor raises it |
| ChallengeCardModel.CountsDown | Challengely/DailyChallenge/Views/DailyChallengeCardView.swift:220-230 | `d` ticks bring a running count of `d` to zero |
| ChallengeCardModel.AcceptedChallengeCompletes | Challengely/DailyChallenge/Views/DailyChallengeCardView.swift:211-237 | an accepted generated challenge counts ten seconds, then stops its timer and completes |
| ChallengeCardModel.CardTimer.constructor | Challengely/DailyChallenge/Views/DailyChallengeCardView.swift:211-218 | the timer starts idle |
| ChallengeCardModel.CardTimer.StartTimer | Challengely/DailyChallenge/Views/DailyChallengeCardView.swift:211-218 | starting counts from the parsed estimate, shows the timer and accepts |
| ChallengeCardModel.CardTimer.StopTimer | Challengely/DailyChallenge/Views/DailyChallengeCardView.swift:233-237 | stopping hides the timer and keeps the count |
| ChallengeCardModel.CardTimer.Fire | Challengely/DailyChallenge/Views/DailyChallengeCardView.swift:220-230 | a firing is a tick |
| ChallengeCardModel.CardTimer.Cancel | Challengely/DailyChallenge/Views/DailyChallengeCardView.swift:57-60 | cancelling stops the timer and cancels the challenge |
| DailyViewModel.PartOf | Challengely/DailyChallenge/DailyChallengeView.swift:122-139 | morning is 5-11, afternoon 12-16, evening 17-21 |
| DailyViewModel.Greeting | Challengely/DailyChallenge/DailyChallengeView.swift:122-139 | a saved name is inserted after the salutation; otherwise the anonymous salutation, and "Hola, Amigo!" late at night |
| DailyViewModel.GreetingBoundaries | Challengely/DailyChallenge/DailyChallengeView.swift:122-139 | the greeting changes at 5, 12, 17 and 22 o'clock |
| DailyViewModel.NamedGreetingInsertsName | Challengely/DailyChallenge/DailyChallengeView.swift:122-139 | a named greeting ends ", name!" and by day is the anonymous one with the name inserted |
| DailyViewModel.EmptyNameIsAnonymous | Challengely/DailyChallenge/DailyChallengeView.swift:122-139 | an empty name greets as no preferences do |
| DailyViewModel.RefreshPulled | Challengely/DailyChallenge/DailyChallengeView.swift:102-106 | pull-to-refresh sends a refresh exactly when nothing is loading or in progress |
| DailyViewModel.NoRefreshWhileInProgress | Challengely/DailyChallenge/DailyChallengeView.swift:102-106 | an accepted challenge blocks refresh until cancelled or completed |
| SplashModel.Route | Challengely/Splash/SplashStore.swift:62-69 | onboarding exactly on the first launch, home otherwise |
| SplashModel.FlagsOnlyRise | Challengely/Splash/SplashStore.swift:31-72 | no action lowers a flag |
| SplashModel.EachActionRaisesItsFlag | Challengely/Splash/SplashStore.swift:46-60 | each animation action raises its own flag alone |
| SplashModel.CompletionRoutes | Challengely/Splash/SplashStore.swift:62-69 | completion marks the animation done and hands over by the launch flag |
| SplashModel.AppearSequenceEffect | Challengely/Splash/SplashStore.swift:31-44 | the appearance raises every flag but the glow and ends with the hand-over |
| SplashModel.SplashSession.constructor | Challengely/Splash/SplashStore.swift:8-12 | the session starts with every flag lowered |
| SplashModel.SplashSession.Reduce | Challengely/Splash/SplashStore.swift:29-74 | the fields become `Step`'s state and the effect is `Step`'s, reading the store's launch flag |
| AppModel.Next | Challengely/App/AppStore.swift:37-59 | onboarding exactly after the onboarding hand-overs, home exactly after the home ones, otherwise the screen stays |
| AppModel.NeverBackToSplash | Challengely/App/AppStore.swift:37-59 | no action leads back to the splash screen |
| AppModel.SplashLeftForGood | Challengely/App/AppStore.swift:37-59 | once left, the splash screen is never shown again |
| AppModel.SplashHandOver | Challengely/App/AppStore.swift:37-44 | the splash hand-over opens onboarding on the first launch and home otherwise |
| AppModel.AppSession.constructor | Challengely/App/AppStore.swift:8 | the app starts on the splash screen |
| AppModel.AppSession.Reduce | Challengely/App/AppStore.swift:37-59 | the screen becomes `Next`'s |
| HomeModel.TabAfter | Challengely/Home/HomeStore.swift:31-41 | a chosen tab is taken, back returns to tab 0, children's actions keep the tab |
| HomeModel.LastChoiceWins | Challengely/Home/HomeStore.swift:31-41 | after any actions the tab is the one last chosen |
| HomeModel.TabsAppend | Challengely/Home/HomeStore.swift:31-41 | one more action applies to the tab the others left |
| HomeModel.HomeSession.constructor | Challengely/Home/HomeStore.swift:8 | home starts on the daily challenge tab |
| HomeModel.HomeSession.Reduce | Challengely/Home/HomeStore.swift:31-41 | the tab becomes `TabAfter`'s |

## Left out

- Text.CharCount: Swift counts grapheme clusters. The model approximates them: a scalar starts a new Character unless it is a combining mark, a variation selector, a zero-width joiner or a skin-tone modifier, or a line feed right after a carriage return. Full Unicode segmentation is not modelled.
- Text.Lower: lowercases ASCII letters only. Unicode case mapping is not modelled.
- Classifier.IsAlphanumericScalar: `CharacterSet.alphanumerics` is restricted to these of its members below U+0530: ASCII, Latin-1 and Latin Extended letters and digits, the IPA letters and the modifier letters up to U+02C1 (the later ones, U+02C6 to U+02EE, are left out), the combining marks, and the assigned Greek and Cyrillic letters, numerals and marks (the Greek punctuation, symbols and unassigned code points are excluded). Letters, digits and marks of later blocks count as not allowed.
- Classifier.JunkAt: the regular expression's `\d` is narrowed to the ASCII digits; `[a-zA-Z]` is ASCII in the pattern itself. `\s` in the link pattern is modelled in full (tab, line feed, form feed, carriage return and categories Zs, Zl and Zp).
- Classifier.IsSpamMessage: `String.contains` matches whole Characters; the model matches Unicode scalars, so it also reports a match whose last scalar is followed by a combining mark.
- ChallengeCardModel.Pad2: renders any integer; the 32-bit reading of `%02d` is not modelled.
- `Equatable` of `MessageBlock` and `Chat` (ids only) is not modelled: the modelled operations never compare blocks or records.
- `Task.sleep` delays, `Timer` scheduling and the main-actor hops are not modelled. Only the order of the actions a task sends is kept.
- Haptics, SwiftUI views, layout, animation, colours beyond the interest colours, the progress stepper and the share card are not modelled.
- The onboarding progress fraction (floating point) is not modelled.
- `randomElement()`: modelled as a `pick` parameter, so the randomness itself is not modelled.
- Dictionary iteration order: modelled as an arbitrary choice among the matching groups.
- UUIDs are natural numbers. Dates are day numbers. `ISO8601` formatting is reduced to a day that parses or one that does not.
- JSON encoding failure: modelled as an `encodable` flag. Decoding succeeds exactly on data the model stored.
- ChallengeCardModel.ParseEstimatedTime: does not model the overflow trap of `num * 60` for numbers beyond `Int.max / 60`, because the model's integers are unbounded.
- `lastResponseTime`, `debugPrint` logging, `EnhancedMessageBlock` and `MessageSender` are not modelled. None of them affects the store's state.
- `Difficulty` `description`, `color` and `icon` are not modelled. They are display strings only.
- App and home compose their child reducers with `Scope`. Only `currentScreen` and `selectedTab` are modelled there. The children are modelled in their own modules.
- The streamer's cancellation of an earlier streaming task is not modelled. Each streamer streams once, from its initialiser.
- The chat store relies on the streamer's completion arriving after the reply block is added. The model dispatches the follow-ups in that order.
- `UserPreferences.interests`: an array in the source, a set in the model. The onboarding store builds it from a dictionary, whose order is unspecified.
- The current hour and the local store's contents are parameters of the greeting and of the pickers.
