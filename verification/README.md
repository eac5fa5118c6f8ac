# GlobtrotterAI travel planner: a Dafny model of its deterministic core

GlobtrotterAI is a chat-driven travel planner. The user describes a dream trip.
The assistant asks for a budget, ranks destinations against the wish and the
budget, and shows a day-by-day itinerary on a map. A back end turns a free-text
wish into an interest record with a language model. It asks a recommendation
service for venues and cleans up the model's JSON replies.

This project models the parts of that system that are plain logic.

- **Ranking** (`destinations.dfy`): scores each fetched destination with the keyword bonus and the budget adjustment. It sorts the list by score, highest first, with a stable sort, and cuts it to `count`.
- **Conversation** (`conversation.dfy`): the step machine. A first message is the wish, then comes the budget, then the destinations, then the itinerary. Budget text is parsed with `$` and `,` removed. The class `App` holds the message log, the loading flag, the plan, the conversation state and the recommended list, and implements the send and select handlers and the right-panel choice.
- **JsNumbers** (`numbers.dfy`): ECMAScript `parseInt` with no radix, as section 19.2.5 of ECMA-262 describes it.
- **Text** (`text.dfy`): the string primitives the source relies on. These are `trim` with the exact ECMAScript whitespace set, lower-casing, `includes`, `split`/`join`, UTF-16 length and decimal rendering.
- **ChatInterface** (`chat.dfy`): the submit gate of the text box (the class `ChatInput`), the placeholder of each step, and the quick budget buttons.
- **ItineraryDisplay** (`itinerary.dfy`): the activities placed on the map, the activities a day's animation receives, and the icon and colour of each activity type.
- **Qloo** (`qloo.dfy`): the recommendation client. It builds the search terms, the three recommendation requests and the venue search, and supplies the canned fallback recommendations.
- **Gemini** (`gemini.dfy`): the language-model client. It covers fence removal and trimming of replies, the fallback interest record, the defaults filled into a generated plan (the class `GeneratedPlan`), and the suggestion list.

Everything outside the program is a parameter:

- the destination fetch is an `Option<seq<Destination>>`, where `None` is a failed request;
- the itinerary lookup, the recommendation service and `JSON.parse` are functions;
- the model's reply is an `Option<string>`;
- whether an API key is configured is a boolean;
- `Date.now()` is a natural number;
- an exception while a chat response is produced is the flag `fault`.

## Model

| member | source | states |
|---|---|---|
| Text.Trim | src/components/ChatInterface.tsx:31 | `trim` returns a slice of the input with only whitespace before and after it, leaves no whitespace at either end, and is empty exactly when the input is all whitespace |
| Text.TrimStart | src/App.tsx:44 | `trimStart` drops exactly the longest all-whitespace prefix |
| Text.TrimEnd | src/components/ChatInterface.tsx:31 | the end half of `trim` drops exactly the longest all-whitespace suffix |
| Text.TrimSlice | backend/utils/geminiApi.js:47 | dropping a whitespace prefix and then a whitespace suffix leaves the input minus its surrounding whitespace |
| Text.TrimFixesTrimmed | backend/utils/geminiApi.js:47 | trimming a text without surrounding whitespace changes nothing |
| Text.TrimDropsTrailingSpace | backend/utils/geminiApi.js:47 | whitespace appended to a trimmed text is removed again by `trim` |
| Text.TrimStartSkipsSpace | src/App.tsx:44 | leading whitespace makes no difference to `trimStart` |
| Text.ToLower | src/data/destinations.ts:23 | lower-casing keeps the length and maps each character on its own |
| Text.ToLowerIdempotent | src/data/destinations.ts:23 | lower-casing twice is the same as lower-casing once |
| Text.ContainsIgnoringCase | backend/utils/qlooApi.js:112 | if a text contains a word, its lower-cased form contains the lower-cased word |
| Text.Contains | backend/utils/qlooApi.js:112 | `includes` is modelled by a search from each position; ContainsIgnoringCase and SomeMentionsIff state what it gives |
| Text.Split | backend/utils/geminiApi.js:60 | `split(' ')` yields at least one piece, and no piece contains the separator |
| Text.SplitAfterWord | backend/utils/geminiApi.js:60 | a separator-free word followed by the separator is the first piece of the split, and the rest splits on its own |
| Text.Join | backend/utils/geminiApi.js:60 | `join` is the inverse that JoinSplit relates to `split` |
| Text.JoinSplit | backend/utils/geminiApi.js:60 | joining the pieces of a split with the separator gives back the original text |
| Text.Filter | src/components/ItineraryDisplay.tsx:49 | `filter` keeps exactly the elements that satisfy the predicate, and nothing else |
| Text.FilterAppend | src/components/ItineraryDisplay.tsx:48-50 | filtering a concatenation is the concatenation of the filtered parts, so order is kept |
| Text.FilterOfOne | src/components/ItineraryDisplay.tsx:49 | a single element is kept exactly when it satisfies the predicate |
| Text.FilterKeepsAll | src/App.tsx:44 | when every element satisfies the predicate, the filter keeps the whole sequence |
| Text.Utf16Length | backend/utils/geminiApi.js:60 | a string's JavaScript length is between its code-point count and twice that, and equals the count exactly when no code point lies above U+FFFF |
| Text.Utf16LengthOfChar | backend/utils/geminiApi.js:60 | one code point counts once, or twice when it lies above U+FFFF |
| Text.Utf16LengthAppend | backend/utils/geminiApi.js:60 | the length of a concatenation is the sum of the lengths |
| Text.DecimalString | src/components/ChatInterface.tsx:67 | `toString` of a natural number is a non-empty run of decimal digits without a leading zero |
| JsNumbers.DecimalValue | src/App.tsx:44 | the decimal digits of `n`, read back, give `n` |
| JsNumbers.ParseInt | src/App.tsx:44 | `parseInt` without a radix skips whitespace, reads a sign and a `0x` prefix, and reads the longest digit run; the ParseInt lemmas below state what it returns |
| JsNumbers.ParseIntDecimal | src/App.tsx:44 | `parseInt` of the decimal rendering of `n` is `n` |
| JsNumbers.ParseIntDecimalPrefix | src/App.tsx:44 | `parseInt` reads a leading amount and ignores whatever follows its last digit, unless `0` is followed by `x` |
| JsNumbers.ParseIntNegative | src/App.tsx:44 | a leading minus sign negates the amount |
| JsNumbers.ParseIntSkipsSpace | src/App.tsx:44 | leading whitespace is skipped |
| JsNumbers.ParseIntNoDigits | src/App.tsx:44-45 | a text without any decimal digit is NaN |
| JsNumbers.ParseIntHex | src/App.tsx:44 | without a radix argument, a `0x` or `0X` prefix makes the digits after it read in radix 16 |
| JsNumbers.ParseIntHexPrefix | src/App.tsx:44 | a `0x` prefix switches to radix 16, so `"0x10"` is 16 |
| Ranking.KeywordBonus | src/data/destinations.ts:31-44 | the keyword bonus is 0 or 20, and only the six themed ids can get it |
| Ranking.ThemeKeywords | src/data/destinations.ts:32-43 | exactly the six themed ids have theme keywords |
| Ranking.KeywordBonusByTheme | src/data/destinations.ts:32-43 | a destination gets +20 exactly when the wish mentions one of the two keywords of its theme, so the bonus is never given twice |
| Ranking.BudgetAdjustment | src/data/destinations.ts:45-50 | the adjustment is +10 when the cost is within budget, -20 when the cost is above 1.5 times the budget, and 0 otherwise |
| Ranking.Scored | src/data/destinations.ts:28-51 | the new score is the stored score plus the keyword bonus and the budget adjustment, so between 20 below and 30 above it, and nothing else changes |
| Ranking.ScoreAll | src/data/destinations.ts:28-52 | the `map` scores every fetched destination in place and in order |
| Ranking.Insert | src/data/destinations.ts:56 | inserting into the sorted list keeps the same elements |
| Ranking.InsertKeepsSorted | src/data/destinations.ts:56 | inserting keeps the list sorted by descending score |
| Ranking.SortByScore | src/data/destinations.ts:56 | the sort returns a permutation of its input, ordered by non-increasing score |
| Ranking.SortIsStable | src/data/destinations.ts:56 | destinations with equal scores keep their fetched order |
| Ranking.SliceTo | src/data/destinations.ts:57 | `slice(0, end)` is the prefix of length `min(end, n)`, with a negative end counted from the back |
| Ranking.GetRecommendedDestinations | src/data/destinations.ts:18-58 | a failed fetch gives nothing, and there are never more recommendations than fetched destinations or than `count`; the lemmas below state order and selection |
| Ranking.FailedFetchRecommendsNothing | src/data/destinations.ts:10-14 | a failed fetch yields no recommendations |
| Ranking.RecommendationsSorted | src/data/destinations.ts:55-57 | the recommendations are sorted, highest score first |
| Ranking.RecommendationsLength | src/data/destinations.ts:55-57 | there are `min(count, n)` recommendations for `n` fetched destinations |
| Ranking.RecommendationsAreScoredInputs | src/data/destinations.ts:28-57 | every recommendation is a fetched destination re-scored, and none is returned more often than it was fetched |
| Ranking.RecommendationsAreTop | src/data/destinations.ts:55-57 | no candidate that was cut off outscores a recommendation that was kept |
| Ranking.RecommendationScoreBounds | src/data/destinations.ts:29-51 | every recommended score is within [base-20, base+30] of a fetched destination's stored score |
| Ranking.RankingIgnoresCase | src/data/destinations.ts:23 | lower-casing the wish beforehand does not change the recommendations |
| Ranking.KeywordInAnyCase | src/data/destinations.ts:23-43 | a theme keyword written in any letter case earns the bonus |
| ItineraryDisplay.Flatten | src/components/ItineraryDisplay.tsx:48 | an activity is in the flattened plan exactly when it is in one of its days |
| ItineraryDisplay.AllActivities | src/components/ItineraryDisplay.tsx:48-50 | every activity placed on the map has coordinates |
| ItineraryDisplay.AllActivitiesAreLocatedOnes | src/components/ItineraryDisplay.tsx:48-50 | the map receives exactly the activities with coordinates, in day-then-activity order |
| ItineraryDisplay.FirstDayIndex | src/components/ItineraryDisplay.tsx:53-54 | `find` stops at the first day with the requested number |
| ItineraryDisplay.FindDay | src/components/ItineraryDisplay.tsx:53-54 | `find` succeeds exactly when some day has the number, and the day found is the first day with that number |
| ItineraryDisplay.DayActivities | src/components/ItineraryDisplay.tsx:53-55 | a day's animation gets the located activities of the first day with that number, and nothing when no day has it |
| ItineraryDisplay.DayVisualization | src/components/ItineraryDisplay.tsx:57-58 | the animation callback is called exactly when one is registered and the list is non-empty |
| ItineraryDisplay.ActivityIcon | src/components/ItineraryDisplay.tsx:27-35 | the icon map is total, and the pin is shown exactly for the unknown types |
| ItineraryDisplay.ActivityColor | src/components/ItineraryDisplay.tsx:37-45 | the colour map is total, and grey is shown exactly for the unknown types |
| ItineraryDisplay.KnownKindsHaveDistinctIcons | src/components/ItineraryDisplay.tsx:27-35 | the four known types get four different icons |
| Conversation.StripBudgetText | src/App.tsx:44 | removing `$` and `,` leaves neither character and never lengthens the text |
| Conversation.ParseBudget | src/App.tsx:44 | the budget is `parseInt` of the text with every `$` and `,` removed; the lemmas below state what it reads |
| Conversation.StripBudgetTextDropsPunctuation | src/App.tsx:44 | one `$` or `,` more or less makes no difference after the removal |
| Conversation.ParseBudgetIgnoresPunctuation | src/App.tsx:44 | a `$` or `,` anywhere in the budget text does not change the parsed budget |
| Conversation.ParseBudgetOfAmount | src/App.tsx:44 | a plain amount, with or without a leading `$`, is read as that amount |
| Conversation.ParseBudgetReadsLeadingAmount | src/App.tsx:44 | words after the amount, separated by whitespace, are ignored |
| Conversation.ParseBudgetWithoutDigits | src/App.tsx:44-45 | a message without a single digit is not a budget |
| Conversation.Respond | src/App.tsx:19-101 | a response moves the step forward by at most one, and produces a destination list exactly for a numeric budget in the budget step |
| Conversation.RespondAdvancesOneStep | src/App.tsx:19-100 | a message moves the conversation forward by at most one step, keeps it well formed and, after the first step, keeps the wish |
| Conversation.RespondRecordsWish | src/App.tsx:26-32 | from the initial step any message moves to the budget step and becomes the wish, and every other field of the state is kept |
| Conversation.RespondToBudget | src/App.tsx:42-70 | a numeric budget moves to the destinations step, records the budget, keeps every other field of the state and ranks six destinations; a non-numeric one leaves the state exactly unchanged |
| Conversation.RespondToAmount | src/App.tsx:42-58 | a plain amount typed in the budget step is recorded as the budget and moves on to the destinations |
| Conversation.RespondChangesStateIff | src/App.tsx:23-100 | the state changes exactly on the first message and on a numeric budget, and in the destinations and itinerary steps it never changes |
| Conversation.BudgetFindsDestinationsIff | src/App.tsx:55-67 | after a numeric budget the destination list is non-empty exactly when the fetch returned something |
| Conversation.ItineraryBudget | src/App.tsx:143 | the itinerary is requested with the recorded budget, or with 2000 when it is missing or 0 |
| Conversation.CountFrom | src/App.tsx:159 | the `reduce` over the days, from a running total; CountFromIsTotal states its value |
| Conversation.ActivityCount | src/App.tsx:159 | the `reduce` from 0; ActivityCountIsTotal states its value |
| Conversation.ChoiceText | src/App.tsx:135 | the user's choice message names the destination and its country |
| Conversation.CountFromIsTotal | src/App.tsx:159 | the `reduce` adds up the per-day activity counts |
| Conversation.ActivityCountIsTotal | src/App.tsx:159 | the number of experiences announced is the number of activities in the whole plan |
| Conversation.App.constructor | src/App.tsx:11-17 | the application starts with an empty log, not loading, no plan, in the initial step |
| Conversation.App.SimulateAIResponse | src/App.tsx:19-101 | one assistant message is appended, the state becomes the transition's, and the destination list is replaced only after a numeric budget |
| Conversation.App.HandleSendMessage | src/App.tsx:103-128 | the log grows by the user's message and exactly one assistant message (the apology on failure), the state is untouched on failure, and loading ends false |
| Conversation.App.HandleSelectDestination | src/App.tsx:130-169 | the choice is logged; on success the plan is shown, the step becomes itinerary with the chosen destination, and the confirmation counts all activities; on failure nothing else changes |
| Conversation.App.RightPanel | src/App.tsx:171-183 | the destination cards are shown exactly in the destinations step with a non-empty list, otherwise the itinerary view |
| ChatInterface.SubmitGate | src/components/ChatInterface.tsx:31-32 | a message is sent exactly when the input is not blank and no reply is pending, and it is the trimmed, non-empty input |
| ChatInterface.BlankInputIsNeverSent | src/components/ChatInterface.tsx:31 | blank input is never sent, and nothing is sent while loading |
| ChatInterface.TrimmedInputIsSentAsIs | src/components/ChatInterface.tsx:31-32 | already trimmed input is sent unchanged |
| ChatInterface.SubmitIgnoresSurroundingSpace | src/components/ChatInterface.tsx:31-32 | whitespace around the input does not change what is sent |
| ChatInterface.ChatInput.constructor | src/components/ChatInterface.tsx:18 | the text box starts empty |
| ChatInterface.ChatInput.Type | src/components/ChatInterface.tsx:166 | typing replaces the content of the box |
| ChatInterface.ChatInput.CanSend | src/components/ChatInterface.tsx:173 | the send button is enabled exactly when a submit would send something |
| ChatInterface.ChatInput.HandleSubmit | src/components/ChatInterface.tsx:29-35 | a submit sends what the gate allows, clears the box after a send and leaves it untouched otherwise |
| ChatInterface.PlaceholderFor | src/components/ChatInterface.tsx:37-50 | the placeholder switch is total; the generic text is used exactly for a step without a text of its own, and the budget text exactly in the budget step |
| ChatInterface.PlaceholdersTellStepsApart | src/components/ChatInterface.tsx:37-50 | different steps show different placeholders |
| ChatInterface.QuickBudgetMessages | src/components/ChatInterface.tsx:52-58 | the quick buttons exist only in the budget step and send the decimal texts of 1000, 2500, 5000 and 10000 |
| ChatInterface.QuickBudgetAdvances | src/components/ChatInterface.tsx:67 | pressing a quick button in the budget step records that amount and moves on to the destinations |
| Qloo.ResultsOf | backend/utils/qlooApi.js:51 | a failed call or missing `results` gives an empty list, otherwise the reported results |
| Qloo.SearchTerms | backend/utils/qlooApi.js:23-28 | there are search terms exactly when all four source lists are present, and none of them is empty |
| Qloo.SearchTermsKeepOrder | backend/utils/qlooApi.js:23-28 | the terms are the non-empty interests, cultural and food preferences and keywords, in that order |
| Qloo.FirstFive | backend/utils/qlooApi.js:42 | `slice(0, 5)` is the prefix of length `min(5, n)` |
| Qloo.TravelRequest | backend/utils/qlooApi.js:39-48 | the travel request asks for ten results for the first `min(5, n)` of the `n` terms, in order |
| Qloo.DiningRequest | backend/utils/qlooApi.js:58-64 | the dining request asks for fifteen results for the first `min(5, n)` of the food preferences followed by the terms |
| Qloo.EntertainmentRequest | backend/utils/qlooApi.js:74-80 | the entertainment request asks for ten results for the first `min(5, n)` of the cultural preferences followed by the terms |
| Qloo.RequestsLeadWithPreferences | backend/utils/qlooApi.js:38-81 | no request carries more than five terms; dining starts with the food preferences and entertainment with the cultural ones |
| Qloo.SomeMentions | backend/utils/qlooApi.js:112 | `some` with a lower-cased `includes`; SomeMentionsIff states what it holds for |
| Qloo.SomeMentionsIff | backend/utils/qlooApi.js:112 | `some(x => x.toLowerCase().includes(w))` holds exactly when one entry, lower-cased, contains the word |
| Qloo.FallbackFor | backend/utils/qlooApi.js:101-167 | the canned recommendations for the three interests that can match; FallbackForShape states them |
| Qloo.FallbackForShape | backend/utils/qlooApi.js:110-166 | Seoul exactly for a k-pop fan, the anime Tokyo exactly for an anime fan, Paris exactly when neither matched, the ramen houses exactly for a ramen lover, and never attractions or experiences |
| Qloo.Fallback | backend/utils/qlooApi.js:101-167 | the canned recommendations for a record; the Fallback lemmas below state them in terms of the record's lists |
| Qloo.GenerateFallback | backend/utils/qlooApi.js:101-167 | the pushes build exactly the canned recommendations that the lemmas below characterise |
| Qloo.FallbackNeverEmpty | backend/utils/qlooApi.js:141-166 | the fallback always suggests one or two destinations and never attractions or experiences |
| Qloo.FallbackSeoulIff | backend/utils/qlooApi.js:112-120 | Seoul is suggested exactly for "bts" in an interest or "k-pop" in a cultural preference, in any letter case |
| Qloo.FallbackAnimeTokyoIff | backend/utils/qlooApi.js:122-130 | the anime Tokyo entry is suggested exactly for "ghibli" or "anime", and Seoul comes first when both match |
| Qloo.FallbackDefaultIff | backend/utils/qlooApi.js:141-159 | Paris and Tokyo are the default exactly when nothing matched, so Tokyo is missing only when Seoul alone matched |
| Qloo.FallbackRamenIff | backend/utils/qlooApi.js:132-139 | the ramen houses are the only restaurant, suggested exactly for "ramen" in the food preferences or interests |
| Qloo.GetRecommendations | backend/utils/qlooApi.js:10-94 | without a key or with a missing list, the fallback and no request; otherwise the travel, dining and entertainment requests in order, each list empty when its call fails |
| Qloo.SearchVenues | backend/utils/qlooApi.js:175-198 | without a key or on failure there are no venues; with a key the venues are exactly the reported results of one search for ten |
| Gemini.StartsWithLonger | backend/utils/geminiApi.js:47 | a text that starts with a longer fence starts with the bare fence |
| Gemini.StripFences | backend/utils/geminiApi.js:47 | the fence removal scans from the left; the StripFences lemmas below state what it removes and keeps |
| Gemini.StartsWithFence | backend/utils/geminiApi.js:47 | a fence starts a text exactly where three backticks do |
| Gemini.StripFencesKeepsFirst | backend/utils/geminiApi.js:47 | where no fence starts, the first character is kept |
| Gemini.StripFencesHead | backend/utils/geminiApi.js:47 | where no fence starts, the cleaned text begins with the text's own first character |
| Gemini.StripFencesLeavesNoFence | backend/utils/geminiApi.js:47 | no fence is left after the removal |
| Gemini.KeptCharStartsNoFence | backend/utils/geminiApi.js:47 | where no fence starts, the first character is kept and the cleaned text does not start with a fence |
| Gemini.StripFencesKeepsPlainText | backend/utils/geminiApi.js:47 | text without backticks passes through unchanged |
| Gemini.StripFencesOfBlock | backend/utils/geminiApi.js:47 | removing the fences of a JSON block leaves its text and the final line break |
| Gemini.CleanResponse | backend/utils/geminiApi.js:47 | the cleaned reply has no whitespace at either end |
| Gemini.CleanResponseUnwrapsBlock | backend/utils/geminiApi.js:47 | a trimmed JSON text wrapped in a fenced block comes out exactly as it went in |
| Gemini.CleanResponseOfPlainText | backend/utils/geminiApi.js:176 | a reply without backticks is only trimmed |
| Gemini.FallbackInterests | backend/utils/geminiApi.js:52-63 | the fallback record has the message as its only interest, empty preference lists, the pieces of the message longer than three UTF-16 units as keywords in their order, "mid-range" and "5" |
| Gemini.FallbackKeywordsAreLongWords | backend/utils/geminiApi.js:60 | every fallback keyword is a space-free word longer than three units, and every such word is a keyword |
| Gemini.FallbackKeywordsInOrder | backend/utils/geminiApi.js:60 | the keywords keep the order of the message: a leading long word comes first, followed by the keywords of the rest |
| Gemini.FallbackKeywordsOfOneWord | backend/utils/geminiApi.js:60 | a message without a space is its own keyword when it is long, and gives none otherwise |
| Gemini.ParseUserInterests | backend/utils/geminiApi.js:15-65 | the result is the parsed cleaned reply, or the fallback record when the call or the parse fails |
| Gemini.GeneratedPlan.constructor | backend/utils/geminiApi.js:131 | the plan holds the parsed id and map centre |
| Gemini.GeneratedPlan.FillDefaults | backend/utils/geminiApi.js:133-134 | a falsy id becomes `trip-<now>` and a missing map centre becomes (35.6762, 139.6503); present values are left unchanged |
| Gemini.GenerateItineraryWithRAG | backend/utils/geminiApi.js:70-142 | a parsed plan is returned complete with its defaults, and any failure yields the one error message |
| Gemini.GetTravelSuggestions | backend/utils/geminiApi.js:147-183 | a failed call or parse yields an empty list; otherwise the suggestions are exactly the parsed cleaned reply |

## Left out

- Network and database access: the `axios` calls, the MongoDB models and the server routes in backend/server.js. Their results are parameters instead.
- The language-model calls and the wording of their prompts. The reply is a parameter.
- `Date.now()`-based ids, `Date` timestamps of messages, `toLocaleString` formatting, and the 1500 ms and 2000 ms delays.
- The text of the assistant messages. Each message is a `Reply` constructor carrying the values it interpolates.
- React's asynchronous batching of state updates. The handlers are modelled as sequential updates of one object.
- The map components (src/components/Enhanced3DMap.tsx and src/components/InteractiveMap.tsx), the destination cards, and the JSX rendering in general.
- ChatInterface.QuickBudgetMessages: the buttons are disabled while a reply is pending (src/components/ChatInterface.tsx:69); the model does not track that, and their labels and icons are not represented.
- The header subtitle per step (src/components/ChatInterface.tsx:92-95) and the scroll-to-bottom effect.
- Floating point: scores, costs and budgets are integers. JavaScript numbers lose precision above 2^53, and that is not modelled.
- JsNumbers.ParseInt: `parseInt` returns a floating-point number; the model returns the exact integer, and a negative zero is 0.
- Text.ToLower: lower-cases ASCII letters only; the full Unicode case mapping of `toLowerCase` is not modelled.
- Non-string entries in the parsed interest lists (numbers, `null`) are not representable. `filter(Boolean)` drops only the falsy ones (`null`, `0`, `NaN`): a non-zero number survives it and is sent as a search term. In the canned fallback, any non-string entry makes `toLowerCase` throw.
- The fixed fields of the recommendation requests, `negative: []` and, for the travel request, `geo: {country: 'global'}` (backend/utils/qlooApi.js:43-47), are not represented. A request carries only its category, its terms and its limit.
- The `location = ''` default of backend/utils/qlooApi.js:175 is not modelled as such: the location is always a parameter, and a call without one is the call with the empty string.
- Conversation.Respond: the `Generating` step is declared by the step type but never entered by the code. The `destinations` step is missing from the declared type but is entered by the code. The model follows the code.
- Conversation.App.HandleSendMessage: an exception is modelled as happening before any effect of the response. A failure after the destination list was stored is not distinguished.
- ChatInterface.PlaceholderText: the wording of each placeholder carries no contract; the contracts are about which placeholder each step shows.
- ItineraryDisplay.ActivityColor: the four known colours are not proved pairwise different; only the grey default is characterised.
- Qloo.Item: entries reported by the service are opaque. The fields of the canned entries (id, name, country, description, cuisine) are named in comments, not represented as strings.
- Qloo.GetRecommendations: the outer `catch` is modelled only for the throw a missing list causes while the search terms are built.
- Gemini.GeneratedPlan: only `id` and `mapCenter` are represented. The other fields of the parsed plan pass through untouched and are not part of this model. An id that is falsy for other reasons (`0`, `false`) is not representable.
