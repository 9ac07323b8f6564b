# EducationAdvisor core logic in Dafny

This project models the small pieces of self-contained logic inside the
EducationAdvisor career and education portal for students in Jammu and
Kashmir, and proves what each piece promises. The pieces are:

- **Voice processor** (`AdvancedVoiceProcessor`): success and failure
  counters, learning of the words it hears, a speech-rate adjustment on
  `no-speech` errors, and a choice of recognition alternatives from the
  success rate. It also covers the per-utterance prosody for an emotion
  tag, the natural-pause transform of spoken text, its statistics and its
  user preferences.
- **Conversational engine** (`AdvancedChatbot`): keyword emotion
  detection, regular-expression intent confidence, a context boost and a
  follow-up fallback, and response decoration. It keeps a bounded memory
  (10 entries) and a trimmed interaction log (50 entries) per user, and
  reports per-user insights.
- **Knowledge responder** (`get_detailed_response`): answers a query for an
  intent with a bulleted or numbered list from the knowledge base, or with
  a prompt.
- **Colleges page**: the search and district filters, the district
  selector's list, and the result-count label.
- **College card**: programme badges, a description cut to 100 characters,
  and the tuition with thousands separators.
- **Personalised assessment**: a three-question wizard with answer, next,
  previous and reset transitions, the Next-button guard and the progress
  display.
- **Timeline page**: event-type icons and colours, and the local event list
  with its append, delete-by-id and in-place sort by date.
- **Settings**: the `BACKEND_CORS_ORIGINS` validator.

Files, one module each:

- `voice_processor.dfy`, `advanced_chatbot.dfy`, `chatbot_knowledge.dfy`,
  `colleges.dfy`, `college_card.dfy`, `assessment.dfy`, `timeline.dfy` and
  `config.dfy` model one source file each.
- `text.dfy` holds the shared string operations: ASCII lower-casing,
  substring tests, split, join, strip and decimal digits.
- `tally.dfy` holds the insertion-ordered counter behind a JavaScript `Map`
  or Python dict of counts, with its stable descending sort and top-n.
- `seqs.dfy` holds order-keeping filters and first-occurrence dedupe.
- `wrappers.dfy` holds `Option` and `Result`.

Modelling conventions:

- Speech rate, pitch and volume are integers in tenths (0.9 is 9), so the
  clamps are exact.
- Confidences are `real`.
- Randomness, platform objects and server answers are parameters.
- Dates are day numbers.
- Translated messages are their message keys.

The career follow-up template is keyed `"career"` while the intent is named
`career_guidance`, so that follow-up can never be appended. The model keeps
this as written (`AdvancedChatbot.FollowUpWhen`).

## Model

| member | source | states |
|---|---|---|
| VoiceProcessor.SelectVoice | frontend/components/VoiceProcessor.js:59-71 | no voice exactly when the list is empty; otherwise the first voice whose name contains Female, Woman, Samantha or Karen, or the first voice when none does |
| VoiceProcessor.FirstPreferred | frontend/components/VoiceProcessor.js:63-68 | `find` gives the index of the first preferred voice, no earlier voice being preferred |
| VoiceProcessor.Meaningful | frontend/components/VoiceProcessor.js:84 | every word kept for learning is longer than three characters |
| VoiceProcessor.MeaningfulOccurrences | frontend/components/VoiceProcessor.js:82-90 | a word occurs among the learned words as often as in the transcript when longer than three characters, and never otherwise |
| VoiceProcessor.LearnedCount | frontend/components/VoiceProcessor.js:82-90 | learning a transcript adds to each word's count exactly its number of occurrences among the lower-cased space-split words when it is longer than three characters; no other count changes, so empty tokens are never counted |
| VoiceProcessor.SuccessRate | frontend/components/VoiceProcessor.js:202-203 | the rate lies in [0, 1], is 0 with no attempts, and otherwise times the attempts gives the successes |
| VoiceProcessor.MaxAlternativesFor | frontend/components/VoiceProcessor.js:118-130 | the alternatives count is 1 or 3, and 1 exactly when the success rate is below one half (fewer successes than failures) |
| VoiceProcessor.NoSpeechRate | frontend/components/VoiceProcessor.js:107 | the new rate is one tenth lower or the 0.7 floor, whichever is larger, so it never drops below 0.7 |
| VoiceProcessor.EmotionProsody | frontend/components/VoiceProcessor.js:156-178 | positive stays within rate 1.2, pitch 1.3, volume 1.0; negative stays at least 0.6, 0.7, 0.6; excited within 1.3, 1.4 at the baseline volume; any other tag keeps the baseline |
| VoiceProcessor.ProsodyDirection | frontend/components/VoiceProcessor.js:163-178 | from every baseline the adapter can reach, positive and excited raise rate and pitch and negative lowers all three, each within its clamp |
| VoiceProcessor.AddNaturalPausesAppend | frontend/components/VoiceProcessor.js:190-198 | the five chained replacements act piece by piece on a concatenation |
| VoiceProcessor.AddNaturalPausesIsPauseAfter | frontend/components/VoiceProcessor.js:190-198 | the chained replacements equal one pass that writes a single space after each `.`, `?`, `!`, `,` and `;`, keeping every other character in order |
| VoiceProcessor.AddNaturalPausesLength | frontend/components/VoiceProcessor.js:190-198 | the output is as long as the input plus the number of pause marks |
| VoiceProcessor.AddNaturalPausesNotIdempotent | frontend/components/VoiceProcessor.js:190-198 | a second pass adds a second space after a full stop |
| VoiceProcessor.AdvancedVoiceProcessor.constructor | frontend/components/VoiceProcessor.js:4-57 | rate 0.9, pitch 1.0, volume 0.8, three alternatives, zero counters, no phrases or preferences, not listening, and the voice `loadVoices` picks when synthesis exists |
| VoiceProcessor.AdvancedVoiceProcessor.OnStart | frontend/components/VoiceProcessor.js:33-36 | the processor is listening afterwards |
| VoiceProcessor.AdvancedVoiceProcessor.OnEnd | frontend/components/VoiceProcessor.js:46-49 | the processor is not listening afterwards |
| VoiceProcessor.AdvancedVoiceProcessor.HandleRecognitionResult | frontend/components/VoiceProcessor.js:73-98 | one more success and no more failures; the phrase table learns the transcript's long words; below confidence 0.7 the alternatives are re-derived from the counters, otherwise kept; the invariant is kept; the transcript and confidence are returned |
| VoiceProcessor.AdvancedVoiceProcessor.LearnPhrases | frontend/components/VoiceProcessor.js:82-90 | the loop leaves the table equal to the old one with every long word bumped in order, its keys still distinct, long and positively counted |
| VoiceProcessor.AdvancedVoiceProcessor.LearnStep | frontend/components/VoiceProcessor.js:83-89 | one more word bumps its count when it is longer than three characters and changes nothing otherwise |
| VoiceProcessor.AdvancedVoiceProcessor.PhrasesStayValid | frontend/components/VoiceProcessor.js:85-88 | bumping long words keeps the keys distinct, long and positively counted |
| VoiceProcessor.AdvancedVoiceProcessor.HandleRecognitionError | frontend/components/VoiceProcessor.js:100-116 | one more failure and no more successes; `no-speech` lowers the rate to its floor; every other error leaves the voice settings unchanged; nothing else changes |
| VoiceProcessor.AdvancedVoiceProcessor.AdjustRecognitionSensitivity | frontend/components/VoiceProcessor.js:118-130 | the alternatives become those the success rate chooses |
| VoiceProcessor.AdvancedVoiceProcessor.StartListening | frontend/components/VoiceProcessor.js:132-143 | true exactly when recognition exists, the processor is not already listening, and the platform accepts the start |
| VoiceProcessor.AdvancedVoiceProcessor.StopListening | frontend/components/VoiceProcessor.js:145-149 | a stop is requested exactly when recognition exists and the processor is listening |
| VoiceProcessor.AdvancedVoiceProcessor.Speak | frontend/components/VoiceProcessor.js:151-188 | nothing is spoken without synthesis; otherwise the utterance carries the paused text, the emotion's prosody and the chosen voice, and the baseline settings are not modified |
| VoiceProcessor.AdvancedVoiceProcessor.GetLearningStats | frontend/components/VoiceProcessor.js:200-209 | total interactions are successes plus failures; the rate is 0 with no attempts, else successes over attempts; at most 10 phrases, as many as there are up to 10, in non-increasing count order, taken from the table, none left out counting more than any kept, ties in insertion order |
| VoiceProcessor.AdvancedVoiceProcessor.UpdateUserPreferences | frontend/components/VoiceProcessor.js:211-213 | the keys are the old ones plus the given ones; given keys take the given values; all other keys keep their values |
| VoiceProcessor.AdvancedVoiceProcessor.IsSupported | frontend/components/VoiceProcessor.js:215-217 | supported exactly when both recognition and synthesis exist |
| AdvancedChatbot.ArgMax | backend/advanced_chatbot.py:117 | `max` with a key gives the first index of a largest value: nothing is larger and everything earlier is smaller |
| AdvancedChatbot.KeywordScoreZero | backend/advanced_chatbot.py:111 | an emotion scores zero exactly when none of its keywords is a substring of the lower-cased text |
| AdvancedChatbot.EmotionOfProps | backend/advanced_chatbot.py:105-117 | neutral when no keyword occurs; otherwise an emotion with the largest score, every earlier emotion (positive, negative, neutral) scoring strictly less |
| AdvancedChatbot.EmotionOf | backend/advanced_chatbot.py:105-117 | the detected emotion scores at least as high as every other, and is neutral when no keyword occurs |
| AdvancedChatbot.DetectEmotion | backend/advanced_chatbot.py:105-117 | the scoring loop and first maximum give the emotion `EmotionOfProps` characterises |
| AdvancedChatbot.Weight | backend/advanced_chatbot.py:31-84 | every intent weight lies in (0, 1] |
| AdvancedChatbot.MatchCountZero | backend/advanced_chatbot.py:127-129 | no pattern counts exactly when no pattern matches |
| AdvancedChatbot.Confidence | backend/advanced_chatbot.py:131-138 | the confidence lies in [0, 1], is 0 exactly when nothing matched, and is weight / patterns when exactly one pattern matched |
| AdvancedChatbot.ConfidenceMonotone | backend/advanced_chatbot.py:131-138 | more matching patterns never lower the confidence |
| AdvancedChatbot.IntentConfidence | backend/advanced_chatbot.py:119-138 | every intent's confidence lies in [0, 1] |
| AdvancedChatbot.IntentConfidenceCases | backend/advanced_chatbot.py:119-138 | confidence 0 exactly when no pattern matches; weight / patterns when exactly one does |
| AdvancedChatbot.CalculateIntentConfidence | backend/advanced_chatbot.py:119-138 | the pattern-counting loop gives `IntentConfidence` |
| AdvancedChatbot.MostRecentIntentProps | backend/advanced_chatbot.py:184-186 | there is a most recent intent exactly when some entry records one, and it is recorded by an entry after which none records any |
| AdvancedChatbot.ContextIntentProps | backend/advanced_chatbot.py:178-187 | the context gives an intent exactly when a follow-up word occurs and some entry records an intent; it is then the most recent one |
| AdvancedChatbot.InferFromContext | backend/advanced_chatbot.py:178-187 | the backwards scan returns the intent `ContextIntentProps` characterises |
| AdvancedChatbot.OnlyLastIntentBoosted | backend/advanced_chatbot.py:153-156 | only the intent of the latest entry is multiplied by 1.3; every other intent keeps its confidence; every boosted score is within [0, 1.3] |
| AdvancedChatbot.DetectIntentProps | backend/advanced_chatbot.py:160-170 | when the best score is below 0.3, there is history and the context gives an intent, that intent is answered with 0.6; otherwise the first intent with the largest boosted score is answered with that score |
| AdvancedChatbot.DetectIntent | backend/advanced_chatbot.py:140-170 | the reported confidence lies in [0, 1.3]: at most the capped confidence boosted once by 1.3, or the 0.6 of the fallback |
| AdvancedChatbot.DetectIntentAdvanced | backend/advanced_chatbot.py:140-170 | the scoring loop, first maximum and fallback give the detection `DetectIntentProps` characterises |
| AdvancedChatbot.FollowUpWhen | backend/advanced_chatbot.py:204-210 | a follow-up is appended exactly when the latest entry recorded the same intent and the intent is colleges or scholarships; never for career guidance, whose template is keyed "career" |
| AdvancedChatbot.ProactiveWhen | backend/advanced_chatbot.py:213-227 | a proactive suggestion is appended exactly for colleges, scholarships and career guidance |
| AdvancedChatbot.ContextualResponse | backend/advanced_chatbot.py:189-218 | the response starts with the tone prefix and base response, ends with the proactive part, and between them holds exactly the follow-up part (a space and the follow-up question when one applies, else nothing) |
| AdvancedChatbot.KeepLast | backend/advanced_chatbot.py:242-243 | the last n elements, or all when shorter, as a suffix of the original |
| AdvancedChatbot.KeepLastAppend | backend/advanced_chatbot.py:14 | appending to a bounded buffer and trimming keeps the same elements as trimming the full history: a deque of length 10 holds the 10 most recent entries, oldest first |
| AdvancedChatbot.AdvancedChatbot.constructor | backend/advanced_chatbot.py:13-16 | empty memories and logs |
| AdvancedChatbot.AdvancedChatbot.LearnFromInteraction | backend/advanced_chatbot.py:229-243 | the user's log becomes the last 50 of the old log plus the new interaction; no other log changes; every log holds 1 to 50 entries |
| AdvancedChatbot.AdvancedChatbot.Respond | backend/advanced_chatbot.py:248-254 | the emotion, detection and decorated response against the memory so far |
| AdvancedChatbot.AdvancedChatbot.Remember | backend/advanced_chatbot.py:257-267 | the entry ends the user's memory, trimmed to 10; the interaction is logged; no other user changes; the memory holds more than one entry exactly when it held one before |
| AdvancedChatbot.AdvancedChatbot.GetPersonalizedResponse | backend/advanced_chatbot.py:245-275 | the emotion, intent and response are those detected against the memory before the message; memory and log gain the entry, bounded; context-aware exactly when the user had earlier memory |
| AdvancedChatbot.AdvancedChatbot.GetUserInsightsAsWritten | backend/advanced_chatbot.py:277-297 | as written, the insights of any user with a logged interaction fail with a key error |
| AdvancedChatbot.AdvancedChatbot.AsWrittenInsightsFail | backend/advanced_chatbot.py:295 | in every reachable state, a user with a log gets the key error |
| AdvancedChatbot.AdvancedChatbot.GetUserInsights | backend/advanced_chatbot.py:277-297 | no data exactly for users never logged; otherwise the log length, at most three top intents in non-increasing order, each with its true count of at least one, the last five emotions from the memory, and the memory length |
| ChatbotKnowledge.CaseInsensitive | backend/chatbot_knowledge.py:108 | the choice and the response depend only on the lower-cased query |
| ChatbotKnowledge.TopicsOfIntent | backend/chatbot_knowledge.py:106-140 | no response exactly for intents other than colleges, scholarships and career guidance; each of those only answers with its own four topics |
| ChatbotKnowledge.CollegesPriority | backend/chatbot_knowledge.py:110-118 | Jammu wins over Srinagar, which wins over admission, and the prompt answers when none occurs (each as an if-and-only-if) |
| ChatbotKnowledge.ScholarshipsPriority | backend/chatbot_knowledge.py:120-128 | government, then private, then apply or application; the tips only when neither earlier word occurs |
| ChatbotKnowledge.CareerPriority | backend/chatbot_knowledge.py:130-138 | careers need "career" and "popular" or "options"; otherwise aptitude, then plan |
| ChatbotKnowledge.ListingLines | backend/chatbot_knowledge.py:112-136 | a listing reads back, line by line, as its header, an empty line and its lines |
| ChatbotKnowledge.BulletedLines | backend/chatbot_knowledge.py:112 | a bulleted answer reads back as the header, an empty line and "• item" per item, none added or dropped |
| ChatbotKnowledge.NumberedLines | backend/chatbot_knowledge.py:116 | a numbered answer reads back as the header, an empty line and "i+1. step" per step |
| ChatbotKnowledge.NumberedFromOne | backend/chatbot_knowledge.py:136 | step i starts with the decimal digits of i+1 and ". ", which parse back to i+1 |
| ChatbotKnowledge.GetDetailedResponse | backend/chatbot_knowledge.py:106-140 | no response exactly for intents other than colleges, scholarships and career_guidance |
| Colleges.FilterCollegesIsKept | frontend/pages/colleges.js:42-58 | the two chained filters equal one filter by both active conditions |
| Colleges.FilterCollegesProps | frontend/pages/colleges.js:42-58 | the result is an order-keeping subsequence of the colleges; every kept college passes both active filters; every college that passes is kept, with all its copies |
| Colleges.FilterColleges | frontend/pages/colleges.js:42-58 | never more colleges than loaded; every college shown is a loaded one passing both active filters |
| Colleges.NoFilterShowsAll | frontend/pages/colleges.js:45-52 | no term and no district show every college, in order |
| Colleges.DistrictsProps | frontend/pages/colleges.js:61 | the districts offered have no duplicates, are exactly the districts of the colleges, and come in first-occurrence order |
| Colleges.Districts | frontend/pages/colleges.js:61 | the districts offered have no duplicates, are exactly the districts in the college column, and come in first-occurrence order |
| Colleges.CountLabelProps | frontend/pages/colleges.js:134 | the label starts with the count's digits, which parse back to the count, and says "college" exactly when one was found and "colleges" otherwise |
| Colleges.CountLabel | frontend/pages/colleges.js:134 | the label opens with the count's digits followed by a space |
| Colleges.CountSuffixValues | frontend/pages/colleges.js:134 | the words after the count are " colleges found", or " college found" exactly for one |
| CollegeCard.ShownDescriptionProps | frontend/components/CollegeCard.js:31-33 | a missing description shows nothing; up to 100 characters it is shown unchanged; longer, it shows its first 100 characters and "...", 103 in all; either way it starts with the original's first 100 characters |
| CollegeCard.ShownDescriptionIdempotent | frontend/components/CollegeCard.js:31-33 | cutting a shown description again changes nothing |
| CollegeCard.ShownDescription | frontend/components/CollegeCard.js:31-33 | a description is shown exactly when there is one, never longer than 103 characters |
| CollegeCard.GroupDigitsRoundTrip | frontend/components/CollegeCard.js:39 | grouping by thousands only inserts commas: removing them gives the digits back |
| CollegeCard.GroupDigitsPieces | frontend/components/CollegeCard.js:39 | the separators go between groups: split at the commas, the digits form a leading group of one to three and then groups of exactly three |
| CollegeCard.TuitionTextProps | frontend/components/CollegeCard.js:39 | a missing tuition shows "$N/A"; a present one, zero included, shows "$" and digits that read back as the amount once the commas are dropped, grouped as a leading group of one to three digits and then groups of three; below 1000 there is no separator |
| CollegeCard.TuitionText | frontend/components/CollegeCard.js:39 | the tuition line always starts with the dollar sign |
| CollegeCard.Card | frontend/components/CollegeCard.js:19-39 | title and subtitle are the name and location; no badges exactly when the programmes are missing or empty, otherwise one badge per programme in order; a description exactly when the college has one; the tuition starts with "$" |
| Assessment.Progress | frontend/components/PersonalizedAssessment.js:164 | the progress fraction lies in [0, 1) and is the step over the number of questions |
| Assessment.PercentComplete | frontend/components/PersonalizedAssessment.js:171 | the percentage is the nearest whole number to 100 * step / 3, halves up, within [0, 100) |
| Assessment.NextCaption | frontend/components/PersonalizedAssessment.js:190 | the button reads "Complete Assessment" exactly on the last question |
| Assessment.PersonalizedAssessment.constructor | frontend/components/PersonalizedAssessment.js:5-7 | first question, no answers, not completed |
| Assessment.PersonalizedAssessment.HandleAnswer | frontend/components/PersonalizedAssessment.js:42-47 | only the given question's answer is set (overwriting), and its option is the one checked; every other answer is unchanged |
| Assessment.PersonalizedAssessment.HandleNext | frontend/components/PersonalizedAssessment.js:49-55 | below the last question the step increments; on the last it completes and the step stays; the step stays a question index |
| Assessment.PersonalizedAssessment.HandlePrevious | frontend/components/PersonalizedAssessment.js:57-61 | nothing at the first question; otherwise one step back |
| Assessment.PersonalizedAssessment.HandleReset | frontend/components/PersonalizedAssessment.js:63-67 | back to the initial state |
| Assessment.PersonalizedAssessment.ChooseOption | frontend/components/PersonalizedAssessment.js:75-84 | picking an option records it for the question on screen while not completed |
| Assessment.PersonalizedAssessment.PressNext | frontend/components/PersonalizedAssessment.js:185-191 | the guarded button moves only when the question on screen is answered, so a completed assessment has every question answered |
| Timeline.EventTypeStyles | frontend/pages/timeline/index.js:108-132 | the default icon and the default colour are used exactly for unknown types; the known types have distinct icons and distinct colours |
| Timeline.EventTypeIcon | frontend/pages/timeline/index.js:108-119 | the plain circle is drawn exactly for types other than task, deadline and milestone |
| Timeline.EventTypeClass | frontend/pages/timeline/index.js:121-132 | the secondary colour is used exactly for types other than task, deadline and milestone |
| Timeline.WithoutIdProps | frontend/pages/timeline/index.js:99 | deleting by id keeps an order-keeping subsequence with no event of that id and every other event, with all its copies |
| Timeline.WithoutId | frontend/pages/timeline/index.js:99 | never more events than before; every event kept is one of the old events and has another id |
| Timeline.TimelinePage.constructor | frontend/pages/timeline/index.js:13-22 | no events, empty form with type "task", hidden form, loading, no error |
| Timeline.TimelinePage.HandleInputChange | frontend/pages/timeline/index.js:66-69 | exactly the named field changes |
| Timeline.TimelinePage.HandleAddEvent | frontend/pages/timeline/index.js:71-91 | on success the event is appended after the unchanged earlier events, and the form is reset and hidden; on failure only the error is set; loading ends false |
| Timeline.TimelinePage.HandleDeleteEvent | frontend/pages/timeline/index.js:93-106 | no confirmation changes nothing; a confirmed success keeps exactly the events with another id; a failure sets only the error |
| Timeline.TimelinePage.SortByDate | frontend/pages/timeline/index.js:265-266 | the events array is sorted in place into non-decreasing date order, as a permutation |
| Timeline.InsertLast | frontend/pages/timeline/index.js:266 | one insertion step extends the sorted prefix by one, permuting the array |
| Config.SplitOrigins | backend/config.py:27 | one origin per comma-separated piece |
| Config.AssembleCorsOriginsProps | backend/config.py:24-30 | a string not starting with "[" gives commas+1 origins, origin k being comma-separated piece k with only the whitespace around it removed, so comma-free and with no whitespace at either end; a string starting with "[" and a list pass through; any other value is rejected with itself |
| Config.AssembleCorsOrigins | backend/config.py:24-30 | rejected, with the value itself, exactly when the value is neither a string nor a list; otherwise the value unchanged or, for a string, a list of one origin more than it has commas |
| Config.EmptyGivesOneEmptyOrigin | backend/config.py:27 | the empty string gives one empty origin |
| Config.JoinedOriginsRoundTrip | backend/config.py:27 | trimmed, comma-free origins survive being joined with commas and read back |
| Text.StripProps | backend/config.py:27 | `strip` leaves text that neither begins nor ends with whitespace, cut out of the original with only whitespace around it |
| Text.StripUnchanged | backend/config.py:27 | text already trimmed is left as it is |
| Text.SplitLength | backend/config.py:27 | a split has one piece more than there are separators |
| Tally.BumpAllLookup | frontend/components/VoiceProcessor.js:85-88 | after counting a list of keys, each count has grown by the number of times its key occurs |
| Tally.TopProps | frontend/components/VoiceProcessor.js:205-207 | the top n hold at most n entries of the table, in non-increasing count order; none left out counts more than any kept; ties keep table order |
| Tally.TopOfTallyCounts | backend/advanced_chatbot.py:285-290 | every top entry of a tally carries the true number of occurrences of its key, at least one |

## Left out

- Speech platform: recognition, synthesis and voice objects are flags, voice names and a "platform accepts" parameter; the `console` logging is dropped.
- Floating point: voice settings are exact tenths, and confidences and percentages are exact reals. Rounding drift of JavaScript and Python floats is not modelled.
- Text: lower-casing, `isspace` and the regular-expression `\b` are ASCII-only. JavaScript's UTF-16 substring counting is modelled as counting characters.
- `random.choice` of the base response is an index parameter.
- Timestamps (`datetime.now()`) in memory and log entries are left out; nothing reads them.
- `user_preferences` of the conversational engine is never read or written after construction, so it is not modelled.
- Reading `conversation_memory` for a new user also inserts an empty deque (a `defaultdict` side effect). The model reads it as empty without inserting.
- Translations (`t(...)`) are their message keys; the page text around the modelled values is not modelled.
- CollegeCard.TuitionTextProps: `toLocaleString` is modelled as en-US thousands grouping only; other locales are not modelled.
- Tuition amounts are modelled as whole, non-negative numbers (`nat`). A fractional amount (shown as "1,500.5") or a negative one (shown as "-1,000") cannot be expressed.
- CollegeCard: the image, the button and the layout of the card are not modelled.
- Timeline: fetching the timeline and events, creating a timeline, and the network calls of add and delete are given as their outcome. A missing timeline in `handleAddEvent` fails like a failed request.
- Timeline.TimelinePage.SortByDate: dates are day numbers (invalid dates, which compare as NaN, are not modelled), and the stability of the sort is not proved.
- ChatbotKnowledge: the `platform_info` and `educational_paths` entries are never used by `get_detailed_response`.
- ChatbotKnowledge.ListingLines: newline-freedom of the concrete knowledge-base entries is not proved; the line-by-line lemmas hold for any entries without newlines.
- Config.AssembleCorsOriginsProps: the later JSON parsing that the settings library applies to a string starting with "[" is not modelled. A list whose items are not all strings cannot be expressed either: the model files it under other values and rejects it, where the validator passes it through and the settings library rejects it later.
- The HTTP routes, database models, the other pages and components, and the mobile app are not part of this model.

## Findings

| source | as written | input that shows it | evidently intended | confidence | as-written member | corrected member |
|---|---|---|---|---|---|---|
| backend/advanced_chatbot.py:295 | `recent_emotions` reads an `emotion` key from each logged interaction, but `learn_from_interaction` never stores one, so a key error is raised | any user after one call of `get_personalized_response` | the last five emotions of the user's conversation, where they are recorded | high, not executed | AdvancedChatbot.AdvancedChatbot.GetUserInsightsAsWritten | AdvancedChatbot.AdvancedChatbot.GetUserInsights |
