# Citizen scheme portal: eligibility, recommendations, AI post-processing, speech and the profile form

This project models the decision logic of a government-scheme portal for Indian citizens in Dafny.

- **Eligibility (`Schemes`).** The scheme service checks one citizen profile against one welfare scheme. It counts the applicable checks:
  - the income limit and the age band;
  - the target categories and occupations;
  - the resident state;
  - the farmer and housing extensions of `eligibilityCriteria`.

  The score is the fraction of checks met. A scheme is eligible at 70%. The service also shortlists the schemes scoring at least 50%, best first. It filters the catalogue by category, state and income, lists the categories, and returns the first schemes as "popular".
- **Recommendations (`Recommendations`, over the store in `Store`).**
  - Each scheme gets an additive match score.
  - The recommender keeps the ten best and stores the positive ones as the user's recommendation rows, replacing the old rows.
  - It reads those rows back: with their schemes, sorted, and filtered by category.
- **AI post-processing (`OpenAI`).** The assistant builds the chat message list, falls back on fixed replies, chooses the system prompt and the language names, and translates with a fallback. It turns the model's scheme recommendations into records: it resolves the scheme index, clamps the score, and drops unresolved entries.
- **Speech (`Speech`).** The browser speech helper:
  - maps a language to its speech code;
  - configures recognition;
  - aggregates recognition results;
  - maps recognition errors to messages;
  - sets up an utterance and picks its voice.
- **Profile form (`ProfileForm`).** The form validates its fields. It builds the save payload and chooses PUT or POST. It also loads a stored profile back into the form.

Shared pieces:
- `Wrappers` holds `Option` and `Result`.
- `Text` holds ASCII lower-casing, prefixes, substrings and string order.
- `Seqs` holds an order-preserving filter.
- `Sorting` holds a stable descending sort by a numeric key, which is how `Array.prototype.sort` behaves with a `b - a` comparator. It also holds a string sort.
- `Domain` holds the profile and scheme records.

Conventions:
- Today's date is an input.
- The language model, the browser and the storage layer are parameters or an in-memory class.
- Human-readable reasons and missing criteria are tags, not sentences.

## Model

| member | source | states |
|---|---|---|
| Schemes.AtLeastSeventyPercent | server/services/schemes.ts:120-121 | for a positive number of checks, the ratio reaches 0.7 exactly when 10·satisfied ≥ 7·total |
| Schemes.RatioAtLeast | server/services/schemes.ts:137 | for positive denominators, s/t ≥ n/d exactly when d·s ≥ n·t, so the 50% shortlist test is integer arithmetic |
| Schemes.CompletedYears | server/services/schemes.ts:187-194 | the age is the unique number of whole years whose anniversary is on or before today while the next one is after it |
| Schemes.CalculateAge | server/services/schemes.ts:182-195 | no date of birth gives no age; otherwise the year difference is decremented when today's month and day precede the birthday, which yields the completed years |
| Schemes.AgeOnAnniversary | server/services/schemes.ts:187-194 | on the N-th birthday the age is N |
| Schemes.AgeOnDayBeforeAnniversary | server/services/schemes.ts:187-194 | one day earlier in the birth month of year N the age is N-1 (for a birthday after the 1st, the day before the N-th birthday) |
| Schemes.CompletedYearsUnique | server/services/schemes.ts:187-194 | any year count bracketed by its anniversary and the next one equals the computed age |
| Schemes.PassedAppend | server/services/schemes.ts:22-117 | the satisfied criteria of two runs of checks are those of each run, in order |
| Schemes.FailedAppend | server/services/schemes.ts:22-117 | the missing criteria of two runs of checks are those of each run, in order |
| Schemes.PassedFailedAppend | server/services/schemes.ts:22-117 | both lists distribute over concatenation of check runs |
| Schemes.PassedFailedPartition | server/services/schemes.ts:22-117 | every check lands in exactly one of reasons and missingCriteria |
| Schemes.PassedMember | server/services/schemes.ts:22-117 | a criterion is among the reasons exactly when its check was met |
| Schemes.FailedMember | server/services/schemes.ts:22-117 | a criterion is missing exactly when its check was not met; the date-of-birth entry appears exactly when some check could not be verified |
| Schemes.Evaluate | server/services/schemes.ts:13-129 | score counts the reasons; reasons plus missing criteria make up all checks; no check gives score 0 and not eligible; eligible exactly when the score is at least 0.7; the score lies in [0,1] |
| Schemes.ScoreFacts | server/services/schemes.ts:119-121 | a result built with the 70% rule is eligible exactly when its ratio is at least 0.7, and that ratio lies in [0,1] |
| Schemes.Single | server/services/schemes.ts:22-117 | a block of at most one check contributes at most one reason or one missing criterion |
| Schemes.Step | server/services/schemes.ts:22-117 | recording one more block extends reasons and missing criteria by exactly that block's entry |
| Schemes.SummaryFirst | server/services/schemes.ts:17-20 | recording the first block onto the empty counters gives that block's summary |
| Schemes.SummaryStep | server/services/schemes.ts:22-117 | recording a block onto the summary of earlier checks gives the summary of all of them |
| Schemes.EvaluateByBlocks | server/services/schemes.ts:13-129 | recording the seven check blocks one after another from zero counters and building the result gives the evaluation |
| Schemes.CheckIncome | server/services/schemes.ts:23-31 | the income check applies when the scheme has a limit and is met when the profile's income is present and within it |
| Schemes.CheckAge | server/services/schemes.ts:34-49 | the age check applies when either bound exists; without a date of birth it is recorded as unverifiable, else met when the age is in the band |
| Schemes.CheckMembership | server/services/schemes.ts:52-83 | a target-list check applies when the list is present and non-empty, and is met when the profile value is non-empty and listed |
| Schemes.CheckState | server/services/schemes.ts:86-94 | the state check applies when the scheme names a state and is met on exact equality |
| Schemes.CheckFarmer | server/services/schemes.ts:103-110 | with `farmerType` set, the check is met exactly when the occupation is "Farmer" |
| Schemes.CheckHousing | server/services/schemes.ts:112-116 | a housing text containing "not own" adds a check that is always credited |
| Schemes.CheckEligibility | server/services/schemes.ts:13-129 | the imperative evaluator returns exactly the evaluation |
| Schemes.ChecksOf | server/services/schemes.ts:22-117 | each criterion's check can only come from its own block |
| Schemes.EvaluateLists | server/services/schemes.ts:22-128 | reasons and missing criteria list exactly the met and unmet checks |
| Schemes.IncomeRule | server/services/schemes.ts:23-31 | income is a reason iff a limit exists and the income is present and within it, and missing iff a limit exists and it is not |
| Schemes.AgeRule | server/services/schemes.ts:34-49 | age is a reason iff a bound exists, a date of birth is known and the age is in the band; unmet iff out of band; date-of-birth-required iff bound exists and no date |
| Schemes.UnverifiableIsAge | server/services/schemes.ts:34-49 | some check is unverifiable exactly when the scheme has an age bound and the profile no date of birth |
| Schemes.CategoryRule | server/services/schemes.ts:52-66 | category is a reason iff the target list is non-empty and holds the non-empty profile category, and missing iff non-empty and not |
| Schemes.OccupationRule | server/services/schemes.ts:69-83 | the same for occupation |
| Schemes.StateRule | server/services/schemes.ts:86-94 | state is a reason iff the scheme's state equals the profile's, missing iff it names another |
| Schemes.FarmerRule | server/services/schemes.ts:97-110 | farmer is a reason iff `farmerType` is set and the occupation is "Farmer", missing iff set and it is not |
| Schemes.HousingRule | server/services/schemes.ts:112-116 | housing is a reason iff the housing text contains "not own", and is never missing |
| Schemes.UnconstrainedNeverEligible | server/services/schemes.ts:119-121 | a scheme without any applicable constraint has no checks, score 0 and is never eligible |
| Schemes.RetainedExact | server/services/schemes.ts:137 | a scheme is shortlisted exactly when it has a check and at least half of them are met |
| Schemes.RetainedIff | server/services/schemes.ts:137 | for any result whose eligibility is the 70% rule, being kept is having a check and at least half of the checks met |
| Schemes.ShortlistMembers | server/services/schemes.ts:131-143 | the shortlist holds exactly the catalogue schemes that are retained, each with its own evaluation |
| Schemes.GetEligibleSchemes | server/services/schemes.ts:131-147 | the result is a permutation of the shortlist, sorted by score descending, with equal scores in catalogue order |
| Schemes.MatchingByPredicate | server/services/schemes.ts:157-173 | filtering by any predicate equal to the three filters gives the same schemes |
| Schemes.GetSchemesByFilters | server/services/schemes.ts:149-180 | a search term replaces the result with the search's answer; otherwise the result is the catalogue schemes passing the case-insensitive category, nationwide-or-equal state and income filters, in order |
| Schemes.CategoriesOf | server/services/schemes.ts:199 | one category per scheme, in catalogue order |
| Schemes.CategoryPresent | server/services/schemes.ts:199 | a category is listed exactly when some catalogue scheme has it |
| Schemes.GetSchemeCategories | server/services/schemes.ts:197-201 | the categories present in the catalogue, each once, in ascending order |
| Schemes.GetPopularSchemes | server/services/schemes.ts:203-208 | a catalogue prefix of `limit` schemes (10 by default), or all when fewer; a negative limit drops that many from the end |
| Sorting.SortDesc | server/services/schemes.ts:146 | the sort is a permutation and is non-increasing by its key |
| Sorting.SortDescStable | server/services/recommendations.ts:33 | the sort keeps the relative order of elements with equal keys |
| Sorting.FilterSortedDesc | server/services/recommendations.ts:124-126 | filtering a sorted list keeps it sorted |
| Sorting.SortStrings | server/services/schemes.ts:200 | the string sort is a permutation in ascending default string order |
| Text.ToLower | server/services/schemes.ts:159 | `toLowerCase` keeps the length, lowers each ASCII letter and leaves no ASCII capital |
| Text.EqualsIgnoreCase | server/services/recommendations.ts:125 | `a.toLowerCase() === b.toLowerCase()` holds iff the lengths agree and the lowered characters agree position by position; equal strings always match |
| Text.StartsWith | client/src/lib/speech.ts:97 | `startsWith` holds iff the prefix is no longer than the string and agrees with it character by character |
| Text.Contains | server/services/schemes.ts:112 | `includes` holds iff the substring occurs at some position of the string |
| Text.StrLe | server/services/schemes.ts:200 | the default `sort()` order: a prefix comes first, otherwise the first differing character decides |
| Seqs.Filter | server/services/schemes.ts:158-172 | `filter` keeps exactly the elements the predicate accepts, and nothing else |
| Seqs.Dedupe | server/services/schemes.ts:199 | `[...new Set(xs)]` is duplicate-free and holds exactly the elements of `xs` |
| Text.BeforeFirst | client/src/lib/speech.ts:97 | `split(sep)[0]` is the longest prefix without the separator, and the separator follows it when the string continues |
| Store.FindScheme | server/services/recommendations.ts:107-108 | a found scheme has the id and is in the catalogue; none is found exactly when no scheme has the id |
| Store.Storage.GetCitizenProfile | server/services/recommendations.ts:20 | the stored profile of the user, and none exactly for an unknown user |
| Store.Storage.GetSchemeById | server/services/recommendations.ts:107 | a found scheme is in the catalogue and has the id; none exactly when no scheme has it |
| Store.Storage.GetRecommendationsByUserId | server/services/recommendations.ts:103 | the user's stored rows, and none for a user without rows |
| Store.Storage.DeleteRecommendationsByUserId | server/services/recommendations.ts:26 | the user's rows become empty; nothing else changes |
| Store.Storage.CreateRecommendation | server/services/recommendations.ts:40-47 | a row with the next id is appended to the user's rows and the id counter advances |
| Recommendations.HeuristicScore | server/services/recommendations.ts:66-100 | the match score is at most 100 |
| Recommendations.ZeroGatesBonus | server/services/recommendations.ts:77-93 | a zero income, a zero limit or a zero age bound disables its bonus, and no date of birth gives no age bonus |
| Recommendations.CalculateSchemeScore | server/services/recommendations.ts:66-100 | the imperative score equals the heuristic and lies in [0,100] |
| Recommendations.TopIsBest | server/services/recommendations.ts:28-35 | the top list has min(10, catalogue size) entries, with the rest it partitions the scored catalogue, and no left-out candidate outscores a kept one |
| Recommendations.BatchFacts | server/services/recommendations.ts:35-39 | the stored batch has at most 10 candidates, sorted, each positive, from the catalogue and scored by the heuristic; every positive top candidate is stored |
| Recommendations.DeliveredFacts | server/services/recommendations.ts:37-58 | the returned list matches the stored rows one to one, sorted, for this user, with the fixed reason text and status "pending" |
| Recommendations.RowsSnoc | server/services/recommendations.ts:38-56 | storing one more candidate appends one row with the next id and one returned entry |
| Recommendations.ScoreAll | server/services/recommendations.ts:28-31 | every catalogue scheme is paired with its score, in order |
| Recommendations.GenerateRecommendations | server/services/recommendations.ts:18-64 | a missing profile fails with "Failed to generate recommendations" and leaves the store untouched; otherwise the user's rows are replaced by exactly the new batch and the delivered list is returned |
| Recommendations.StoreBatch | server/services/recommendations.ts:37-58 | the positive candidates are stored in order with consecutive ids and returned |
| Recommendations.RefreshRecommendations | server/services/recommendations.ts:129-133 | on success the store ends as after a generation; on a missing profile the user's rows end empty |
| Recommendations.EnrichMembers | server/services/recommendations.ts:102-115 | the enriched list holds exactly the rows whose scheme is found, with that scheme |
| Recommendations.UserViewFacts | server/services/recommendations.ts:102-118 | the view is a permutation of the enriched rows, sorted descending by score, stable on ties |
| Recommendations.GetUserRecommendations | server/services/recommendations.ts:102-118 | the loop returns the view of the user's stored rows |
| Recommendations.ByCategoryFacts | server/services/recommendations.ts:122-127 | the category view is sorted and holds exactly the entries whose scheme category matches ignoring case |
| Recommendations.GetRecommendationsByCategory | server/services/recommendations.ts:122-127 | the result is the category filter of the user view |
| Recommendations.EnrichAllFound | server/services/recommendations.ts:106-115 | when every row's scheme is found, no row is dropped |
| Recommendations.ViewAfterGenerate | server/services/recommendations.ts:18-118 | right after generation the user view has one entry per stored row, every entry comes from a stored row, and every stored row is shown |
| Recommendations.ViewShowsEveryRow | server/services/recommendations.ts:103-118 | when every row's scheme is in the catalogue, each stored row appears in the user view |
| OpenAI.GetSystemPrompt | server/services/openai.ts:166-203 | the Hindi prompt exactly for "hi", the English one otherwise |
| OpenAI.GetLanguageName | server/services/openai.ts:205-221 | a known code gives its name; the result is always one of the twelve names |
| OpenAI.EnglishFallback | server/services/openai.ts:220 | the name is "English" exactly for "en" and for unknown codes |
| OpenAI.HistoryMessages | server/services/openai.ts:33-40 | one message per history entry, with its role and content, in order |
| OpenAI.ChatMessagesOrder | server/services/openai.ts:27-50 | system prompt first, then the history in order, the context message exactly when the context is non-empty, and the user message last |
| OpenAI.BuildChatMessages | server/services/openai.ts:27-50 | the imperative list building yields the message list |
| OpenAI.GenerateChatResponse | server/services/openai.ts:20-70 | a failure gives the Hindi or English apology by language, an empty reply the cannot-process text, otherwise the model's text |
| OpenAI.TranslateText | server/services/openai.ts:142-164 | the text comes back unchanged on failure or an empty reply, and a non-empty reply is always the result |
| OpenAI.Clamp | server/services/openai.ts:131 | the score is clamped into [0,1], unchanged inside it |
| OpenAI.MapAll | server/services/openai.ts:129-134 | one mapped record per model entry, in order |
| OpenAI.MapRecommendations | server/services/openai.ts:129-134 | every kept record has a non-empty scheme id and a score in [0,1] |
| OpenAI.MapThenDrop | server/services/openai.ts:129-134 | mapping then dropping empty ids equals mapping the entries whose index resolves |
| OpenAI.Survivors | server/services/openai.ts:129-134 | the kept records correspond one to one with the resolving entries: the indexed scheme's id, the clamped score, reasoning and status carried over |
| OpenAI.GenerateSchemeRecommendations | server/services/openai.ts:72-140 | a failed call or unreadable answer gives the empty list; otherwise the mapped entries with the unresolved ones dropped, at most one record per entry (whose contents `OpenAI.Survivors` states) |
| Speech.GetLanguageCode | client/src/lib/speech.ts:111-128 | the eleven Indian languages map to their "-IN" code, everything else to "en-US" |
| Speech.PrefixOfLanguageCode | client/src/lib/speech.ts:90-97 | the voice prefix is the language for the Indian languages and "en" otherwise |
| Speech.PrefixBeforeSeparator | client/src/lib/speech.ts:97 | the part before the first separator is recovered from `a + sep + b` when `a` has no separator |
| Speech.SpeechService.CreateRecognition | client/src/lib/speech.ts:17-28 | no support gives null; otherwise a new recognition with continuous off by default, interim results on by default, and the language code |
| Speech.TextsPartition | client/src/lib/speech.ts:35-42 | every transcript goes to exactly one of the final and interim texts |
| Speech.NothingReportedIffSilent | client/src/lib/speech.ts:44-47 | nothing is reported exactly when every new result's transcript is empty |
| Speech.AllSilent | client/src/lib/speech.ts:35-42 | empty transcripts give empty texts |
| Speech.SomeoneSpoke | client/src/lib/speech.ts:35-42 | one non-empty transcript makes the texts non-empty |
| Speech.OnResult | client/src/lib/speech.ts:31-48 | the loop from `resultIndex` reports the final text, else the interim text, only when non-empty |
| Speech.ErrorMessage | client/src/lib/speech.ts:50-68 | the four known codes map to their messages, any other code to the generic prefix followed by the code |
| Speech.ErrorMessageInjective | client/src/lib/speech.ts:50-68 | different codes give different messages |
| Speech.NotGeneric | client/src/lib/speech.ts:53-65 | a known code's message never starts with the generic prefix |
| Speech.OnError | client/src/lib/speech.ts:50-71 | the switch yields the message for the code |
| Speech.FindVoice | client/src/lib/speech.ts:96-97 | the first voice whose language starts with the prefix, or none when no voice does |
| Speech.Speak | client/src/lib/speech.ts:80-103 | without synthesis nothing is spoken; otherwise the text with the language code, rate 0.9, pitch 1, volume 1, and a matching voice exactly when one exists, namely the first matching voice in the list |
| ProfileForm.Errors | client/src/components/profile/profile-form.tsx:20-37 | the reported keys are exactly the given keys whose field breaks its rule, and none are reported exactly when none breaks |
| ProfileForm.Validate | client/src/components/profile/profile-form.tsx:20-37 | the errors are exactly the fields breaking their rule, and the form passes exactly when none does |
| ProfileForm.ValidIff | client/src/components/profile/profile-form.tsx:21-36 | valid iff fullName is a string of length ≥ 2, state of length ≥ 1, income ≥ 0 and family size ≥ 1 when present, the flag boolean and all else strings when present |
| ProfileForm.DefaultsInvalid | client/src/components/profile/profile-form.tsx:48-65 | the initial form breaks exactly the fullName and state rules |
| ProfileForm.OptionalFields | client/src/components/profile/profile-form.tsx:21-36 | clearing a field of a valid form keeps it valid exactly when the field is neither fullName nor state |
| ProfileForm.MakePayload | client/src/components/profile/profile-form.tsx:101-105 | the payload carries the user id and every field unchanged, except notes wrapped as `{notes}` when non-empty and null otherwise |
| ProfileForm.RequestFor | client/src/components/profile/profile-form.tsx:107-113 | PUT exactly when a profile was loaded, POST to the collection path otherwise, with the payload as body |
| ProfileForm.RequestNamesUser | client/src/components/profile/profile-form.tsx:108 | the PUT path is the collection path, a slash and the user id |
| ProfileForm.Submit | client/src/components/profile/profile-form.tsx:99-134 | an invalid form is refused with exactly its broken fields; a valid one sends its payload, PUT exactly when a profile exists |
| ProfileForm.ResetFieldAsWritten | client/src/components/profile/profile-form.tsx:77-94 | a truthy stored value is copied as is, and a falsy one becomes the field's starting value ("", undefined for the two numbers, false for the flag) |
| ProfileForm.ResetAsWritten | client/src/components/profile/profile-form.tsx:77-94 | every field is set, each by the falsy-default rule |
| ProfileForm.ResetAsWrittenRejectsSavedNotes | client/src/components/profile/profile-form.tsx:93 | a valid form saved with notes and loaded back as written holds the `{notes}` object and fails validation |
| ProfileForm.ResetField | client/src/components/profile/profile-form.tsx:77-94 | as written except that the notes field is always a string, the saved text when present |
| ProfileForm.Reset | client/src/components/profile/profile-form.tsx:77-94 | every field is set, each by the corrected field rule |
| ProfileForm.ResetShapes | client/src/components/profile/profile-form.tsx:77-94 | every loaded field is its empty default ("" for text, undefined for the two numbers, false for the flag) or a truthy value; a falsy stored value always loads as the default; a stored income of 0 becomes undefined |
| ProfileForm.SaveThenLoadField | client/src/components/profile/profile-form.tsx:93-104 | a field value its rule accepts, saved and loaded back, is accepted again and unchanged when non-empty |
| ProfileForm.SaveThenLoad | client/src/components/profile/profile-form.tsx:77-113 | saving a valid form and loading it back gives a valid form that keeps every non-empty value |

## Left out

- The storage layer is not part of this model. It is an in-memory class: a profile map, a scheme sequence, per-user row lists and an id counter. `createdAt`, persistence and concurrent writers are not modelled.
- `searchSchemes` is a function parameter, because its implementation is not part of this model.
- The language-model calls themselves, their prompt text, their parameters and `JSON.parse` of the answers are not modelled. They are non-deterministic and foreign. A completion is an input (`Completion`), and a parsed answer is a given list of records or `None`.
- The prompt texts, the apology texts and the reasons and missing criteria are tags, not their wording. The profile summary in the recommendation prompt (openai.ts:77-118) is left out.
- Dates are given as (year, month, day) with today as an input. `new Date()` parsing and time zones are not modelled.
- Scores are reals or integers. NaN, `parseFloat` of stored scores and the form's `valueAsNumber` are not modelled.
- `targetCategories`, `targetOccupations` and `eligibilityCriteria` arrive already decoded. The JSON re-parsing step is left out.
- `includes` on the target lists is list membership. `toLowerCase` is modelled for ASCII letters only.
- Text.StrLe and ProfileForm.Rule: strings are sequences of Unicode characters, while JavaScript counts and compares UTF-16 code units. So the `.min(2)` and `.min(1)` length tests (profile-form.tsx lines 21 and 25) count a character outside the Basic Multilingual Plane as 1 where JavaScript counts 2. For example, a one-emoji name is rejected here and accepted by zod. For the same reason the default `sort()` order (schemes.ts line 200) puts such characters above U+E000–U+FFFF, where JavaScript puts them below.
- Object-key lookups (`prompts[language]`, `languages[code]`, `languageMap[language]`) are finite maps. Inherited prototype keys such as "constructor" are not modelled.
- `generateChatResponse` takes the language as an explicit argument. The default `"en"` is not modelled.
- Speech:
  - `isSupported` and `'speechSynthesis' in window` are boolean inputs.
  - `stopSpeaking`, `speechSynthesis.cancel`, the `onend` pass-through and the actual callbacks are not modelled.
  - The model returns the text or the utterance that would be delivered.
- Recommendations.RefreshRecommendations: the code deletes the user's rows before generating. With a missing profile the rows therefore end empty, while a plain generate leaves them intact. The model states this as written.
- `recommendations.ts` computes only the additive heuristic score. There is no step that weights rule-based and AI scores together, and the model follows the code.
- The fields spread from storage rows into returned recommendations are represented by the row itself. `generatedAt` is not modelled.
- The profile form's rendering, toasts, query invalidation and the hard-coded `"user1"` user are not modelled; the user id is a parameter. The stored profile is taken to hold the payload's fields as sent.

## Findings

| source | as written | input that shows it | evidently intended | confidence | as-written member | corrected member |
|---|---|---|---|---|---|---|
| client/src/components/profile/profile-form.tsx:93 | `form.reset` copies the stored `additionalDetails` into the text field unchanged. The save sends it as an object `{notes: text}` (line 104), so the field then holds an object and fails the string rule of line 36. | fullName "Asha Devi", state "Kerala", additionalDetails "widow": saved, then loaded back | load the saved notes text, or "" | medium, not executed; the server's storage is not part of this model | ProfileForm.ResetAsWrittenRejectsSavedNotes | ProfileForm.SaveThenLoad |
