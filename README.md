# FarmAI: a verified model of the app's decision logic

FarmAI is a React Native app for farmers: scan a crop, read about its
conditions and common issues, and ask a scripted farm assistant. Most of the
app is screens, camera capture and navigation. This project models in Dafny
the parts that decide something, and proves what they promise:

- **Responder** (`responder.dfy`, worked examples in `scenarios.dfy`).
  - `getAIResponse` is a keyword chain over the lower-cased question: water,
    then fertiliz, then disease/pest, sun/light, care/tip,
    market/price/sell, weather/rain/forecast, and a fallback.
  - `Classify` is that chain. `FirstMatch` is an independent "first rule that
    fires" definition, and `Classify` is proved to meet it.
  - `Respond` adds the reply template with the plant name spliced in.
  - `handleQuickReply`'s switch is `QuickReplyQuestion`.
- **Chat transcript** (`chatbot.dfy`).
  - The `Chat` class holds the append-only `messages` list and the `loading`
    flag, plus a queue of questions whose reply timer has not fired.
  - Its invariant `Consistent` says the assistant's messages are exactly the
    replies to the earliest questions, in order, and the rest are waiting.
- **Chat input** (`chatinput.dfy`). The `Draft` class holds the text field.
  `handleSend` sends the trimmed draft only when it is not blank, then clears
  the draft. The send button's colour and `disabled` prop follow the same
  rule.
- **Onboarding** (`onboarding.dfy`). The `Tutorial` class keeps a slide
  counter. Next moves on and completes on the last slide; Skip completes at
  once. The counter never leaves the four slides, and exactly one progress
  dot is active.
- **Plant information** (`plantinfo.dfy`, `plantdetails.dfy`).
  - The tab-to-content table and its `|| "growing"` fallback, and the
    content pane's view selector.
  - The severity colours, and the sections each issue block shows.
- **Scan history** (`scangallery.dfy`).
  - The two status lookups and the built-in scan list, whose ids are
    distinct and whose ISO dates run newest first, both as strings and as
    numbers.
  - The route a tapped scan opens, and the filter toggle.
- **Strings** (`text.dfy`): ASCII lower-casing, substring search, and
  JavaScript's `trim` over a fixed whitespace set.

The chain looks for fourteen trigger substrings in all; `AllTriggers` lists
them in chain order.

## Model

| member | source | states |
|---|---|---|
| Text.Lower | components/AIChatbot.tsx:68 | `toLowerCase`: same length, each character lower-cased (ASCII) |
| Text.LowerIdempotent | components/AIChatbot.tsx:68 | lower-casing twice is lower-casing once |
| Text.Contains | components/AIChatbot.tsx:70-98 | `includes`: a word occurs only in a text at least as long as itself, and the empty word occurs in every text |
| Text.ContainsIsOccurrence | components/AIChatbot.tsx:70 | `includes` holds exactly when the word occurs at some position |
| Text.ContainsAcrossSeam | components/AIChatbot.tsx:70-100 | a word holding neither character of a seam occurs in the join iff it occurs in one of the parts |
| Text.Trim | components/ChatInput.tsx:29-30 | `trim`: the result is never longer than the text, and neither starts nor ends with whitespace |
| Text.TrimIsCore | components/ChatInput.tsx:29-30 | `trim` returns a slice of the text, and only whitespace is cut off at each end |
| Text.TrimEmptyIffBlank | components/ChatInput.tsx:29 | the trimmed text is empty iff the text is all whitespace |
| Text.TrimIdempotent | components/ChatInput.tsx:30 | trimming twice is trimming once |
| Responder.Classify | components/AIChatbot.tsx:70-102 | the chain's answer is the first rule that fires, or the fallback when none does |
| Responder.FirstMatchUnique | components/AIChatbot.tsx:70-102 | at most one rule is the first match, so the reply is determined |
| Responder.Template | components/AIChatbot.tsx:71-102 | each of the eight replies, the fixed text of `Lead` and `Tail` around the plant name, quotes the plant name verbatim |
| Responder.Respond | components/AIChatbot.tsx:67-104 | the reply is the template of the first match, with the plant name in it verbatim |
| Responder.RespondIgnoresCase | components/AIChatbot.tsx:67-68 | the reply depends on the message only through its lower-cased form |
| Responder.SameLowerSameReply | components/AIChatbot.tsx:67-68 | messages that agree when lower-cased get the same reply |
| Responder.ShoutedWater | components/AIChatbot.tsx:68-71 | "WATER" lower-cases to "water", which gets the watering reply |
| Responder.WaterAlwaysWins | components/AIChatbot.tsx:70-71 | any message mentioning "water", in any case, gets the watering reply whatever else it says |
| Responder.DiseaseOutranksMarket | components/AIChatbot.tsx:74-94 | disease/pest beats market/price/sell when no earlier rule fires |
| Responder.NoTriggerMeansFallback | components/AIChatbot.tsx:101-102 | a message holding no trigger gets the fallback |
| Responder.FallbackIffNoTrigger | components/AIChatbot.tsx:70-102 | the fallback answers exactly the texts holding none of the fourteen triggers |
| Responder.SilentIffNotFires | components/AIChatbot.tsx:70-100 | the spelled-out "no trigger of this rule" agrees with the rule's trigger list |
| Responder.ClassifyIffQuiet | components/AIChatbot.tsx:70-102 | the chain answers with a rule iff no earlier rule fires and that rule does (or is the fallback) |
| Responder.SameSilenceSameClass | components/AIChatbot.tsx:70-102 | the chain looks only at which rules fire |
| Responder.NonLetterNotInTrigger | components/AIChatbot.tsx:70-98 | no trigger holds a character other than a letter |
| Responder.SilentAcrossSeam | components/AIChatbot.tsx:70-100 | a trigger cannot straddle a non-letter, so a rule fires on a join iff it fires on one part |
| Responder.NameDoesNotRoute | components/AIChatbot.tsx:106-135 | a trigger-free plant name spliced between non-letters does not change which rule answers the question |
| Responder.QuickReplyQuestion | components/AIChatbot.tsx:106-133 | `handleQuickReply`'s switch, with the fixed texts of `QuestionLead` and `QuestionTail`; every canned question names the plant |
| Responder.LeadOpening | components/AIChatbot.tsx:109-133 | the seven button ids' questions open with "W" or "H", and only the default's with "T" |
| Responder.QuickReplyIdsRecognised | components/AIChatbot.tsx:109-133 | the switch gives a button-specific question exactly for the seven default button ids; every other id gets "Tell me more about growing X commercially." |
| Scenarios.DrainSilentEarly | components/AIChatbot.tsx:70-83 | "drain" holds none of the first four rules' triggers |
| Scenarios.DrainSilentLate | components/AIChatbot.tsx:84-94 | "drain" holds none of the care or market triggers |
| Scenarios.DrainIsWeather | components/AIChatbot.tsx:95-100 | matching is by substring: "drain" gets the weather reply through "rain" |
| Chatbot.DefaultInitialMessages | components/AIChatbot.tsx:27-34 | the default transcript is one photo-less greeting from the assistant, stamped before the screen opens |
| Chatbot.AnswerAt | components/AIChatbot.tsx:54-62 | the i-th answer is the reply to the i-th question |
| Chatbot.AskKeepsConsistent | components/AIChatbot.tsx:41-51 | asking keeps the transcript consistent, with the new question last in line |
| Chatbot.ReplyKeepsConsistent | components/AIChatbot.tsx:54-63 | the reply to the oldest waiting question keeps it consistent, with that question answered |
| Chatbot.PhotoKeepsConsistent | components/AIChatbot.tsx:138-150 | a photo message is neither question nor reply |
| Chatbot.Chat.constructor | components/AIChatbot.tsx:24-39 | the transcript starts as the initial messages, with nothing waiting; the responder is `getAIResponse` for the plant name |
| Chatbot.Chat.SendMessage | components/AIChatbot.tsx:41-51 | appends exactly one user message with the text, sets `loading`, queues the question; earlier messages unchanged |
| Chatbot.Chat.ReplyArrives | components/AIChatbot.tsx:54-64 | appends exactly one assistant message answering the oldest waiting question, and clears `loading` |
| Chatbot.Chat.QuickReply | components/AIChatbot.tsx:106-136 | sends the button's canned question through the same path as typed text |
| Chatbot.Chat.UploadPhoto | components/AIChatbot.tsx:138-150 | appends exactly one user message carrying the photo; `loading` and the queue are untouched |
| Chatbot.LoadingClearsEarly | components/AIChatbot.tsx:41-65 | with a quick reply pressed while loading, the first answer clears `loading` while the second question still waits |
| ChatInput.Outgoing | components/ChatInput.tsx:28-33 | something is sent iff the draft is not blank, and what is sent is never empty |
| ChatInput.OutgoingIsTrimmed | components/ChatInput.tsx:29-30 | the sent text has no whitespace at either end, and trimming it again changes nothing |
| ChatInput.OutgoingIsCore | components/ChatInput.tsx:29-30 | the sent text is the draft with only whitespace cut off each end |
| ChatInput.OutgoingStable | components/ChatInput.tsx:29-30 | a draft holding exactly the sent text would send the same text |
| ChatInput.SendEnabled | components/ChatInput.tsx:73 | the send button is enabled iff something would be sent and the input is not disabled |
| ChatInput.SendButtonColor | components/ChatInput.tsx:72 | green exactly when something would be sent, gray otherwise |
| ChatInput.Edited | components/ChatInput.tsx:63-66 | a disabled field keeps its text; otherwise the text is what was typed, at most 500 characters |
| ChatInput.Draft.constructor | components/ChatInput.tsx:26 | the draft starts empty |
| ChatInput.Draft.ChangeText | components/ChatInput.tsx:62-66 | the draft becomes what the field lets through, and stays within 500 characters |
| ChatInput.Draft.Send | components/ChatInput.tsx:28-33 | emits the trimmed draft and clears it, or emits nothing and leaves a blank draft as it was |
| ChatInput.SendTwice | components/ChatInput.tsx:28-33 | a second press right after a send emits nothing |
| Onboarding.Step | components/OnboardingTutorial.tsx:80-90 | Next moves one slide on and completes only on the last slide; Skip completes and stays |
| Onboarding.RunStaysInRange | components/OnboardingTutorial.tsx:37-90 | from a valid slide, no run of presses leaves the slide list |
| Onboarding.RunMonotone | components/OnboardingTutorial.tsx:80-90 | the slide moves only forward, at most one slide per press |
| Onboarding.FourthNextCompletes | components/OnboardingTutorial.tsx:41-86 | three Nexts reach the last of the four slides without completing; the fourth completes |
| Onboarding.IndicatorClass | components/OnboardingTutorial.tsx:101 | the wide green class exactly for the current slide's dot |
| Onboarding.Indicators | components/OnboardingTutorial.tsx:98-103 | one dot per slide, active exactly at the current slide |
| Onboarding.ExactlyOneActive | components/OnboardingTutorial.tsx:98-103 | exactly one dot is active, the current slide's |
| Onboarding.NextLabel | components/OnboardingTutorial.tsx:146 | "Get Started" exactly on the last slide, "Next" elsewhere |
| Onboarding.Tutorial.constructor | components/OnboardingTutorial.tsx:37 | starts on the first slide |
| Onboarding.Tutorial.Current | components/OnboardingTutorial.tsx:113-131 | the slide on screen is one of the slides: the index is in range |
| Onboarding.Tutorial.HandleNext | components/OnboardingTutorial.tsx:80-86 | performs Next's step and keeps the index in range |
| Onboarding.Tutorial.HandleSkip | components/OnboardingTutorial.tsx:88-90 | completes without moving |
| Onboarding.WalkThrough | components/OnboardingTutorial.tsx:37-90 | a fresh tutorial completes on the fourth Next, on the last slide, and Skip completes there too |
| PlantInfo.SeverityColor | components/PlantInfoContent.tsx:87-98 | low yellow, medium orange, high red, anything else gray, each iff |
| PlantInfo.SelectView | components/PlantInfoContent.tsx:215-220 | the growing view exactly for the four growing tab ids, the issues view for every other string |
| PlantInfo.DefaultTabShowsGrowing | components/PlantInfoContent.tsx:215-220 | the default tab shows the growing view; "issues" shows the issue list |
| PlantInfo.ShownTreatment | components/PlantInfoContent.tsx:172-180 | the treatment section appears iff the treatment is present and not empty, and shows it unchanged |
| PlantInfo.ShownTips | components/PlantInfoContent.tsx:182-194 | the tips appear iff present and not empty, unchanged and in order |
| PlantInfo.Block | components/PlantInfoContent.tsx:147-205 | an issue's block shows its name, severity, description and solution unchanged with the severity badge, carries the separator iff it is not last, and shows treatment and tips iff present and not empty |
| PlantInfo.Blocks | components/PlantInfoContent.tsx:146-206 | one block per issue, the i-th drawn from the i-th issue |
| PlantInfo.RenderIssues | components/PlantInfoContent.tsx:136-208 | `renderCommonIssues`: the offline notice first when offline, then exactly the issue blocks |
| PlantInfo.BlocksShowIssues | components/PlantInfoContent.tsx:146-162 | the i-th block shows the i-th issue's name and severity badge |
| PlantInfo.IssuesInOrder | components/PlantInfoContent.tsx:136-208 | the list shows the offline notice iff offline, then one block per issue in list order, with its name and badge |
| PlantInfo.SeparatorIffNotLast | components/PlantInfoContent.tsx:149 | every block but the last carries the separator |
| PlantInfo.OptionalSections | components/PlantInfoContent.tsx:172-194 | each block's treatment and tips follow its issue's fields |
| PlantInfo.DefaultIssuesRender | components/PlantInfoContent.tsx:41-84 | the default issues are badged red, orange, yellow, each with treatment and three tips, and only the last lacks a separator |
| PlantInfo.Render | components/PlantInfoContent.tsx:210-222 | the pane shows the growing view exactly when the selector picks it |
| PlantInfo.OfflineNoticeOnlyInIssues | components/PlantInfoContent.tsx:136-220 | the offline notice appears iff offline and in the issues view |
| PlantDetails.ContentKey | components/PlantDetailsScreen.tsx:32-63 | the table's entry for a listed tab, "growing" for any other; "issues" exactly for "common-issues" |
| PlantDetails.IssuesShownIffCommonIssues | components/PlantDetailsScreen.tsx:63 | through the table and the selector, the issue list is shown iff the tab is "common-issues" |
| PlantDetails.DetailsScreen.constructor | components/PlantDetailsScreen.tsx:29 | the screen opens on "growing-conditions" |
| PlantDetails.DetailsScreen.Content | components/PlantDetailsScreen.tsx:62-64 | the pane shows the issue list iff the active tab is "common-issues" |
| PlantDetails.DetailsScreen.TabChange | components/PlantDetailsScreen.tsx:39-41 | the active tab becomes exactly the given id |
| PlantDetails.OpenThenShowIssues | components/PlantDetailsScreen.tsx:29-63 | the screen opens on the growing view, and the issues tab switches it to the issue list |
| ScanGallery.StatusColor | components/PreviousScansGallery.tsx:71-82 | healthy green, warning yellow, critical red, anything else gray, each iff |
| ScanGallery.StatusText | components/PreviousScansGallery.tsx:84-95 | "Healthy", "Needs Attention", "Critical", and "Unknown" for anything else, each iff |
| ScanGallery.ColorMatchesText | components/PreviousScansGallery.tsx:71-95 | the two lookups agree: gray goes with "Unknown", and each colour with its label |
| ScanGallery.DefaultIdsDistinct | components/PreviousScansGallery.tsx:28-69 | the built-in scan ids, which key the list, are pairwise distinct |
| ScanGallery.LexLessIsNumericLess | components/PreviousScansGallery.tsx:32-64 | for texts of the same shape, string order is numeric order |
| ScanGallery.IsoDatesCompareNumerically | components/PreviousScansGallery.tsx:32-64 | two yyyy-mm-dd dates compare as strings exactly as their numbers do |
| ScanGallery.FirstDifferenceDecides | components/PreviousScansGallery.tsx:32-64 | the first differing character decides string order |
| ScanGallery.DefaultConsecutiveNewestFirst | components/PreviousScansGallery.tsx:32-64 | each built-in scan's date is later, as a string, than the next one's |
| ScanGallery.DefaultDatesIso | components/PreviousScansGallery.tsx:32-64 | every built-in date has the form yyyy-mm-dd |
| ScanGallery.NewerThanLater | components/PreviousScansGallery.tsx:28-69 | dates falling from each scan to the next fall from any scan to any later one |
| ScanGallery.DefaultNewestFirst | components/PreviousScansGallery.tsx:28-69 | the built-in list is ordered newest first, both as numbers and as strings |
| ScanGallery.ScanRoute | components/PreviousScansGallery.tsx:97-105 | pressing a scan opens "/plant-details" with exactly the params id and name, taken from that scan |
| ScanGallery.RouteIdentifiesScan | components/PreviousScansGallery.tsx:97-105 | among the built-in scans, the id param tells which scan was pressed |
| ScanGallery.SearchLabel | components/PreviousScansGallery.tsx:164 | the bar shows the query, or "Search plants..." when it is empty |
| ScanGallery.Gallery.constructor | components/PreviousScansGallery.tsx:24-25 | empty query, filter closed |
| ScanGallery.Gallery.TapSearchBar | components/PreviousScansGallery.tsx:161 | tapping flips `filterActive` and changes nothing else |
| ScanGallery.TapTwice | components/PreviousScansGallery.tsx:161 | two taps open the filter and close it again |

## Left out

- Lower-casing is ASCII only, and `trim`'s whitespace is the fixed set of
  code units in `Text.IsWhitespace`. Unicode case mapping is not modelled.
- Timers and the clock.
  - The 1500 ms reply delay is the separate step `Chat.ReplyArrives`, which
    answers the oldest waiting question. Every timer has the same delay, so
    they fire in order.
  - `Date.now()` is the parameter `now`. Timestamps are plain integers.
  - Message ids are clock readings and are not claimed unique.
- `Chat.respond` is the reply function fixed when the screen is created.
  Its constructor ties it to `getAIResponse(·, plantName)`, so a change of
  the `plantName` prop after mount is not modelled.
- The chat screen passes `disabled={loading}` to the input, which disables
  the photo button while a reply is pending. `Chat.UploadPhoto` models
  `handleUploadPhoto` itself, which does not check `loading`.
- The photo and voice buttons' `disabled` prop and `onRecordVoice` are not
  modelled: they only pass the flag or a callback through. Only the text
  field's `editable` and the send button are.
- ChatInput.Edited: `maxLength` is modelled as keeping the first 500 typed
  characters. How a platform text field refuses input past the limit is
  not modelled.
- Concrete routing of the canned quick-reply questions is not proved. The
  claim is that the "water" and "care" questions get the fallback and the
  other five reach their own rule. Evaluating substring search over those
  40–60 character literals costs the verifier more than it can afford.
  `Responder.NameDoesNotRoute` proves the general part: a trigger-free plant
  name does not change the answer.
- Responder.QuickReplyIdsRecognised: states which ids get a button-specific
  question and which get the generic one. It does not restate each of the
  seven fixed questions, which `QuickReplyQuestion` spells out.
- Rendering is not modelled: icons, images, animations, layout, and the
  growing-conditions panel. Nor are the slides' descriptions and images, or
  the scans' image URLs.
- An issue block keeps the severity text as given. The `capitalize` style
  that displays it is not modelled.
- Onboarding: the `onComplete` callback is the `completed` result.
  `isVisible` (render nothing) and navigation are not modelled.
- The console logging in `handleScanPress` and in the issues'
  "Treatment Calendar" button is not modelled.
- The search query is never set by the screen. It is modelled as a field
  with its label.
- `tabToContentMap` is a finite map. JavaScript's inherited object keys
  (such as "constructor") are not modelled.
