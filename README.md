# resume-ranker in Dafny

A model of the core of resume-ranker, a web application that scores how well a resume matches a
job description. The server asks an AI provider (OpenAI, Anthropic's Claude or OpenRouter) for a
JSON analysis. When the provider cannot be used, it falls back to a deterministic text-similarity
analyser. Every analysis is stored and can be fetched again by id. The browser client masks API
keys, shortens history entries, colours scores and filters uploaded files.

The model has one module per source file, plus a few shared modules:

- `TextSimilarity`, with `Tokenizer` and `Scanners`, is the deterministic analyser. It covers the
  tokenizer, the regular-expression scans written as explicit scanners, the sub-scores, the
  feedback lists and the report.
- `Json` is the parsed JSON value. It models JavaScript truthiness, `Number()` and the score clamp.
- `Schema` holds the shared record types and the two zod schemas.
- `ProviderResponse` covers what both AI clients share:
  - the prompt;
  - the JSON-span extraction and the normalisation of a reply;
  - the single HTTP exchange, over a network passed in as a function.
- `OpenRouter` is the environment-configured OpenRouter client.
- `AiProvider` is the three-way dispatch. It includes the `process.env` key swap, modelled as a
  class `ProcessEnv` whose variables the OpenRouter path changes and restores.
- `Storage` is the in-memory store. It is a class `MemStorage` with an id counter and the sorted
  listing.
- `MatchHandler` is the serverless `POST /api/match` handler.
- `Routes` covers the Express routes, including `parseInt` on the id path parameter.
- `SettingsModal`, `HistoryModal` and `FileUpload` are the client-side pure helpers.

Three things outside the model become parameters:

- `JSON.parse` is a partial function `string -> Option<Json>`.
- The network is a function from (vendor, key, prompt) to a reply.
- The clock is an integer `now`.

## Model

| member | source | states |
|---|---|---|
| Strings.Lower | server/services/text-similarity.ts:13-14 | `toLowerCase` maps each character on its own and keeps the length |
| Strings.LowerIsLower | server/services/text-similarity.ts:13-14 | lowercased text has no upper-case letter, and lowercasing twice equals lowercasing once |
| Strings.LowerSlice | server/services/text-similarity.ts:104-106 | lowercasing commutes with taking a slice |
| Strings.ContainsIffOccurs | server/services/text-similarity.ts:104-107 | `includes` holds exactly when the needle occurs at some index of the text |
| Tokenizer.Sanitize | server/services/text-similarity.ts:45 | every character outside `\w` and `\s` becomes a space; word characters are kept; the length is kept |
| Tokenizer.LongTokens | server/services/text-similarity.ts:47 | the filter keeps exactly the words longer than two characters |
| Tokenizer.TokensAreLongWords | server/services/text-similarity.ts:43-48 | every token is longer than two characters and made only of word characters |
| Tokenizer.TokensOfLowerText | server/services/text-similarity.ts:13-14 | tokens of lowercased text are lower case |
| Tokenizer.WordsSplitAtSpace | server/services/text-similarity.ts:46 | splitting at a whitespace character splits the word list there |
| Tokenizer.LongTokensAppend | server/services/text-similarity.ts:47 | the length filter distributes over concatenation |
| Tokenizer.Tokenize | server/services/text-similarity.ts:43-48 | the tokens: the lemmas below state that they are exactly the words longer than two characters, split at non-word characters |
| Tokenizer.TokenizeSplits | server/services/text-similarity.ts:43-48 | a non-word character separates: the tokens of `a + [sep] + b` are the tokens of `a` followed by those of `b` |
| Tokenizer.TokenizeWord | server/services/text-similarity.ts:43-48 | a single word is one token when longer than two characters, otherwise none |
| Tokenizer.TokenizeNoWordChars | server/services/text-similarity.ts:43-48 | text without a word character has no tokens |
| Scanners.FirstAlternative | server/services/text-similarity.ts:53 | regex alternation picks the first alternative, in written order, that is a prefix; none exactly when no alternative is a prefix |
| Scanners.ScanAlternativesSound | server/services/text-similarity.ts:59 | every global match is one of the alternatives and occurs in the text |
| Scanners.ScanAlternativesEmptyIff | server/services/text-similarity.ts:59-60 | the global match is empty exactly when no alternative occurs in the text |
| Scanners.ClauseLength | server/services/text-similarity.ts:52 | `[^.;,]+` stops exactly at the first `.`, `;` or `,` |
| Scanners.ClauseAfterCue | server/services/text-similarity.ts:52 | after a cue, `\s+` is followed by a non-empty clause that runs to a delimiter or the end |
| Scanners.FirstCue | server/services/text-similarity.ts:52 | the first cue, in written order, whose whole pattern matches; none exactly when no cue applies |
| Scanners.CueMatchIsClause | server/services/text-similarity.ts:52 | a cue match is a cue followed by whitespace and a delimiter-free clause, and it ends at a delimiter or the end |
| Scanners.ScanCueClausesSound | server/services/text-similarity.ts:52 | every match of the cue pattern is a cue clause and occurs in the text |
| Scanners.FirstYears | server/services/text-similarity.ts:113 | a years figure is found at some position; none exactly when no position matches `(\d+)\s*\+?\s*years` |
| Scanners.NoDigitsNoYears | server/services/text-similarity.ts:113-116 | text without digits has no years figure |
| Scanners.DecimalRoundTrip | server/services/text-similarity.ts:118 | the digits of a number read back as that number |
| Scanners.DedupIsInsertionOrderedSet | server/services/text-similarity.ts:57-65 | `Array.from(new Set(...))` has no duplicates, has the same members and keeps first-occurrence order |
| TextSimilarity.RoundHalfUp | server/services/text-similarity.ts:109 | `Math.round(n / d)` is the nearest integer, with halves rounded up |
| TextSimilarity.PercentBounds | server/services/text-similarity.ts:109 | a rounded percentage of a part is at most 100; it is 0 for no part and 100 for the whole |
| TextSimilarity.PatternMatchOrigin | server/services/text-similarity.ts:58-62 | a skill match occurs in the lowercased description and is a cue clause or a term of its vocabulary |
| TextSimilarity.SkillKeywordsAreSet | server/services/text-similarity.ts:57-65 | the skill list has no duplicates and contains every match of every pattern |
| TextSimilarity.SkillKeywordsOrigin | server/services/text-similarity.ts:50-66 | every skill keyword is lower case, occurs in the description and comes from one of the three patterns |
| TextSimilarity.AddAll | server/services/text-similarity.ts:61 | adding a pattern's matches to the set yields the deduplicated concatenation |
| TextSimilarity.ExtractSkillKeywords | server/services/text-similarity.ts:50-66 | the loops over patterns and matches compute the insertion-ordered skill set |
| TextSimilarity.CountContainedExtremes | server/services/text-similarity.ts:105-107 | if every keyword occurs in the text, all are counted; if none does, none is |
| TextSimilarity.SkillMatch | server/services/text-similarity.ts:101-110 | the skill score is at most 100; SkillMatchFacts states its values |
| TextSimilarity.SkillMatchFacts | server/services/text-similarity.ts:101-110 | no keywords gives 70; all found gives 100; none found gives 0 |
| TextSimilarity.ExperienceTier | server/services/text-similarity.ts:121-124 | 95 exactly when the candidate has the required years, 80 exactly below that but at least 0.7 of them, 60 exactly below 0.7 but at least 0.5, 40 exactly below 0.5 |
| TextSimilarity.ExperienceTierMonotone | server/services/text-similarity.ts:121-124 | more candidate years never lower the tier; more required years never raise it |
| TextSimilarity.ExperienceMatch | server/services/text-similarity.ts:112-125 | 75 exactly when the description states no years; otherwise 95, 80, 60 or 40 by the tier conditions on the resume's first figure (0 when it has none) against the required one |
| TextSimilarity.FirstRequirement | server/services/text-similarity.ts:128-131 | `find` returns the first requirement the description contains; none exactly when it contains none |
| TextSimilarity.EducationMatch | server/services/text-similarity.ts:127-136 | 80 exactly when the description names no degree term; 90 exactly when the first term it names is in the resume; 50 exactly when it is not |
| TextSimilarity.TokenSetEmpty | server/services/text-similarity.ts:139-140 | a token set is empty exactly when there are no tokens |
| TextSimilarity.IntersectionNoLarger | server/services/text-similarity.ts:142-143 | the intersection is never larger than the union |
| TextSimilarity.KeywordOverlap | server/services/text-similarity.ts:138-146 | the corrected Jaccard percentage is at most 100 |
| TextSimilarity.KeywordOverlapAsWritten | server/services/text-similarity.ts:145 | the division as written is NaN exactly when both token lists are empty |
| TextSimilarity.KeywordOverlapFacts | server/services/text-similarity.ts:138-146 | the corrected overlap agrees with the written one wherever that is a number and is 0 where it is NaN; disjoint vocabularies give 0 and equal non-empty ones give 100 |
| TextSimilarity.MatchScoreFacts | server/services/text-similarity.ts:26-28 | the overall score is the weighted sum 0.4/0.3/0.15/0.15 rounded half up, and stays in [0, 100] |
| TextSimilarity.StrengthsFacts | server/services/text-similarity.ts:148-157 | one to three strengths; each dimension's strength is present exactly when its score is at least 80, the generic one exactly when none is |
| TextSimilarity.ImprovementsFacts | server/services/text-similarity.ts:159-167 | at most three improvements; each is present exactly when its score is below 70, and there are none exactly when every score is at least 70 |
| TextSimilarity.GenerateStrengths | server/services/text-similarity.ts:148-157 | the push sequence builds the strengths list |
| TextSimilarity.GenerateImprovements | server/services/text-similarity.ts:159-167 | the push sequence builds the improvements list |
| TextSimilarity.GenerateRecommendations | server/services/text-similarity.ts:169-176 | four distinct recommendations, whatever the texts |
| TextSimilarity.GenerateSummary | server/services/text-similarity.ts:178-186 | the summary by the overall score: excellent from 80, good from 60, moderate below, as BuildReportFacts states |
| TextSimilarity.BuildReportFacts | server/services/text-similarity.ts:26-40 | the report's score is the rounded weighted sum in [0, 100]; the summary tier follows the score (80 and 60 thresholds) |
| TextSimilarity.Analyze | server/services/text-similarity.ts:10-41 | the corrected report (keyword score 0 where the source divides 0 by 0); AnalyzeFacts and AnalyzeAsWrittenAgrees state its properties |
| TextSimilarity.AnalyzeMatch | server/services/text-similarity.ts:2-41 | the method computes the report of `Analyze` on the two texts |
| TextSimilarity.AnalyzeFacts | server/services/text-similarity.ts:2-41 | every sub-score is in its range; the overall score is their rounded weighted sum; 1-3 strengths, at most 3 improvements, 4 recommendations |
| TextSimilarity.ExperienceDefault | server/services/text-similarity.ts:116 | a description without a years figure gives an experience score of 75 |
| TextSimilarity.ExperienceMet | server/services/text-similarity.ts:121 | a candidate with at least the required years scores 95 |
| TextSimilarity.ExperienceWithoutFigures | server/services/text-similarity.ts:119-124 | a resume without digits counts 0 years and scores 40 against a positive requirement |
| TextSimilarity.EducationMissing | server/services/text-similarity.ts:135 | a required degree term missing from the resume scores 50 |
| TextSimilarity.DisjointVocabulary | server/services/text-similarity.ts:138-146 | texts with no common token have keyword score 0 |
| TextSimilarity.StrongCandidate | server/services/text-similarity.ts:151-164 | with all three sub-scores at least 80 there are three strengths and no improvements |
| TextSimilarity.PunctuationOnlyOverlapIsNaN | server/services/text-similarity.ts:145 | texts without word characters make the written division NaN, and the corrected score 0 |
| TextSimilarity.AnalyzeAsWritten | server/services/text-similarity.ts:10-41 | the report as the source computes it, with NaN keyword and overall scores as `None`; AnalyzeAsWrittenAgrees relates it to `Analyze` |
| TextSimilarity.AnalyzeAsWrittenAgrees | server/services/text-similarity.ts:26-39 | the written report is NaN exactly when neither text has a token; otherwise it equals the corrected report; when NaN, the overall score is NaN and the summary is the moderate one |
| TextSimilarity.NoWordCharsSubScores | server/services/text-similarity.ts:101-136 | texts without word characters score skill 70, experience 75, education 80, and have no tokens |
| TextSimilarity.NoWordCharsAsWritten | server/services/text-similarity.ts:26-39 | on such texts the source reports NaN keyword and overall scores and the moderate summary |
| TextSimilarity.NoWordCharsCorrected | server/services/text-similarity.ts:26-39 | on such texts the corrected analyser reports keyword 0, overall 63 and the good summary |
| TextSimilarity.NaNWitness | server/services/text-similarity.ts:145 | a 50-dot description and a 100-dot resume pass validation, make the written keyword and overall scores NaN and the summary moderate, where the corrected analyser gives 63 and the good summary |
| Json.Get | server/services/ai-provider.ts:204 | a property read is defined exactly when the value is an object with that key |
| Json.ToNumber | server/services/ai-provider.ts:212 | `Number()` by JSON kind: null 0, booleans 0 and 1, a number itself, a string by its text, an array by its single element, an object NaN; ScoreOfFacts and NumberOfDecimalString state its properties |
| Json.StringToNumber | server/services/ai-provider.ts:212 | `Number()` of text: trimmed, empty is 0, a signed decimal otherwise, NaN for anything else; NumberOfDecimalString reads a whole number back |
| Json.Trim | server/services/ai-provider.ts:212 | `Number()` ignores surrounding whitespace: the trimmed text has none at either end |
| Json.NumberOfDecimalString | server/services/ai-provider.ts:212 | `Number` of the decimal text of a whole number is that number |
| Json.Clamp | server/services/ai-provider.ts:212 | `max(0, min(100, v))` is in [0, 100], equals v inside the range and the nearer bound outside it |
| Json.ScoreOf | server/services/ai-provider.ts:212 | a normalised score is in [0, 100] |
| Json.ScoreOfFacts | server/services/ai-provider.ts:212 | in-range numbers are kept, out-of-range ones clamped, NaN becomes 0, and normalising twice is normalising once |
| Json.ScoreOfDecimalString | server/services/ai-provider.ts:212 | a score sent as decimal text is read as its number, capped at 100 |
| Schema.StringFieldIssues | shared/schema.ts:28-29 | a field has no issue exactly when it is a string of the minimum length |
| Schema.ParseMatchRequest | shared/schema.ts:27-30 | a request parses exactly when both fields are strings of at least 50 and 100 characters; a success keeps both strings; each short field reports the schema's message |
| Schema.ParseMatchRequestBody | server/routes.ts:51 | an object body is parsed by its two fields; anything else is a single "not an object" issue |
| Schema.ParseProvider | shared/schema.ts:36 | the enum accepts exactly the three provider names and maps each to its provider |
| Schema.OptionalString | shared/schema.ts:33-35 | an optional string field accepts absence or a string, and keeps the string |
| Schema.ProviderField | shared/schema.ts:36 | an absent provider defaults to "openrouter"; a present one must be its name |
| Schema.ParseApiSettings | shared/schema.ts:32-37 | settings parse exactly when the value is an object whose keys are absent or strings and whose provider is absent or valid; keys are kept and the provider defaults to "openrouter" |
| ProviderResponse.Message | server/services/ai-provider.ts:104 | a request-failure message ends with the HTTP status |
| ProviderResponse.RequestFailedMessageStatus | server/services/ai-provider.ts:104 | the status can be read back from the end of the message |
| ProviderResponse.BuildPrompt | server/services/ai-provider.ts:160-189 | the prompt; BuildPromptLayout and BuildPromptInjective state where the texts sit and that they can be read back |
| ProviderResponse.BuildPromptLayout | server/services/ai-provider.ts:160-189 | each text sits verbatim at a fixed place in the prompt, between the fixed head, middle and tail of the template |
| ProviderResponse.BuildPromptInjective | server/services/ai-provider.ts:160-189 | equal prompts from texts of equal lengths come from equal texts |
| ProviderResponse.FirstIndex | server/services/ai-provider.ts:194 | the first occurrence of a character, or none when it does not occur |
| ProviderResponse.LastIndex | server/services/ai-provider.ts:194 | the last occurrence of a character, or none when it does not occur |
| ProviderResponse.JsonSpanBounds | server/services/ai-provider.ts:194 | the greedy `\{[\s\S]*\}` spans from the first `{` to the last `}` after it; no match exactly when no `}` follows a `{` |
| ProviderResponse.ExtractJsonSpan | server/services/ai-provider.ts:194-197 | a match starts with `{` and ends with `}` |
| ProviderResponse.SpanOfWrappedObject | server/services/ai-provider.ts:194 | an object wrapped in prose without braces outside it is extracted exactly |
| ProviderResponse.ClampField | server/services/ai-provider.ts:212 | a score field becomes a number in [0, 100] |
| ProviderResponse.CoerceList | server/services/ai-provider.ts:218-220 | a list field becomes an array; an array is kept |
| ProviderResponse.Overwrite | server/services/ai-provider.ts:210-221 | rewriting fields in place keeps the set of keys |
| ProviderResponse.OverwriteEffect | server/services/ai-provider.ts:210-221 | the named fields are rewritten and every other field is unchanged |
| ProviderResponse.Normalize | server/services/ai-provider.ts:209-221 | normalising keeps the set of keys |
| ProviderResponse.RequiredCoversGroups | server/services/ai-provider.ts:202-216 | the required fields include every score field, every list field and the summary |
| ProviderResponse.NormalizeEffect | server/services/ai-provider.ts:209-221 | scores are clamped, lists coerced, and every other field is unchanged |
| ProviderResponse.NormalizeIdempotent | server/services/ai-provider.ts:209-221 | normalising a normalised reply changes nothing |
| ProviderResponse.NormalizeShape | server/services/ai-provider.ts:209-223 | after normalising, scores are numbers in [0, 100], lists are arrays, and the summary is as sent |
| ProviderResponse.ParsedResponse | server/services/ai-provider.ts:191-228 | every failure of `parseResponse` is the one "Failed to parse AI response" error |
| ProviderResponse.ParsedResponseSuccess | server/services/ai-provider.ts:194-223 | a success came from an extracted span that parses to an object with all required fields, and is its normalisation |
| ProviderResponse.ParsedResponseFailure | server/services/ai-provider.ts:194-207 | no span, unparsable JSON, a non-object or a missing required field fails |
| ProviderResponse.CheckFields | server/services/ai-provider.ts:202-207 | the loop over required fields succeeds exactly when all are present |
| ProviderResponse.ClampScores | server/services/ai-provider.ts:210-213 | the loop clamps exactly the score fields |
| ProviderResponse.CoerceLists | server/services/ai-provider.ts:216-221 | the loop coerces exactly the list fields |
| ProviderResponse.ParseResponse | server/services/ai-provider.ts:191-228 | the method computes `ParsedResponse` |
| ProviderResponse.Exchange | server/services/ai-provider.ts:101-114 | a transport error is rethrown; a non-OK status fails with that status; missing or empty content fails; otherwise the content is parsed |
| ProviderResponse.RequestAnalysis | server/services/ai-provider.ts:76-114 | one vendor call sends the built prompt and returns the exchange's result |
| OpenRouter.NewClient | server/services/openrouter-client.ts:17-22 | `OPENROUTER_API_KEY` wins over `OPENROUTER_KEY`; both unset or empty is the "key not found" error |
| OpenRouter.ClientAnalysis | server/services/openrouter-client.ts:24-71 | without a key nothing is sent; otherwise one exchange with the chosen key and the built prompt |
| OpenRouter.AnalyzeMatch | server/services/openrouter-client.ts:24-71 | the method computes `ClientAnalysis` |
| AiProvider.ConfigOf | api/match.ts:26-27 | the configuration from validated settings names the validated provider |
| AiProvider.Restored | server/services/ai-provider.ts:61-68 | the `finally` block puts back a non-empty saved key, deletes the variable otherwise, and touches no other variable |
| AiProvider.SwapRestoreRoundTrip | server/services/ai-provider.ts:55-68 | swap then restore gives back the environment, except that an empty saved key ends up deleted |
| AiProvider.VendorOf | server/services/ai-provider.ts:33-42 | exactly the three provider names select a vendor |
| AiProvider.Dispatch | server/services/ai-provider.ts:29-47 | other names are unsupported; a missing key fails before any request; otherwise one exchange with that vendor |
| AiProvider.ValidatedSettingsAreSupported | server/services/ai-provider.ts:40-41 | settings that passed the schema never reach the unsupported branch |
| AiProvider.MissingKeyIgnoresNetwork | server/services/ai-provider.ts:50-52 | with the selected key missing, the outcome does not depend on the network |
| AiProvider.UseOpenRouter | server/services/ai-provider.ts:49-69 | the OpenRouter client runs with the configured key, and the environment is left restored whatever the outcome |
| AiProvider.UseVendor | server/services/ai-provider.ts:71-115 | the key check, then one exchange with the vendor |
| AiProvider.AnalyzeMatch | server/services/ai-provider.ts:29-47 | the method computes `Dispatch`; only the OpenRouter path with a key changes the environment, and it restores it |
| Storage.Insert | server/storage.ts:35-37 | insertion adds exactly one element (as a multiset) |
| Storage.InsertSorted | server/storage.ts:35-37 | inserting a record with a new id keeps the listing newest first |
| Storage.SortNewestFirst | server/storage.ts:35-37 | the sort is a permutation |
| Storage.SortNewestFirstSorted | server/storage.ts:34-38 | over distinct ids the sort orders by `createdAt` descending, ties by insertion order |
| Storage.MemStorage.constructor | server/storage.ts:13-16 | a new store is empty, with the counter at 1 |
| Storage.MemStorage.CreateMatchAnalysis | server/storage.ts:18-28 | the record gets the next id, the defaulted flag and the clock reading; it is stored under its id, nothing else changes, and the counter advances |
| Storage.MemStorage.GetMatchAnalysis | server/storage.ts:30-32 | a record is found exactly for an issued id, and it carries that id |
| Storage.MemStorage.Values | server/storage.ts:35 | the stored records in id order, one per issued id |
| Storage.MemStorage.GetAllMatchAnalyses | server/storage.ts:34-38 | the listing is a permutation of the stored records ordered newest first |
| Storage.FirstTwoIds | server/storage.ts:18-19 | a fresh store issues ids 1 and then 2 |
| MatchHandler.FromNormalizedShape | api/match.ts:42-55 | a stored AI record has scores in [0, 100], array lists and the reply's summary |
| MatchHandler.FromReportShape | api/match.ts:37 | a stored fallback record has scores in [0, 100] and four recommendations |
| MatchHandler.Attempt | api/match.ts:23-38 | the inner `try`: settings validated and dispatched when truthy, the OpenRouter client otherwise; AttemptReply, InvalidSettingsFallBack and Routes.RoutesAgreeWithoutSettings state its properties |
| MatchHandler.AttemptReply | api/match.ts:23-33 | a successful attempt is a normalised reply with every required field |
| MatchHandler.StoredResultInRange | api/match.ts:23-39 | whatever happens, the stored scores are in [0, 100] |
| MatchHandler.InvalidSettingsFallBack | api/match.ts:24-38 | invalid settings fail the attempt with their issues, so the analyser's report is stored |
| MatchHandler.RunAttempt | api/match.ts:23-39 | the attempt's outcome and the environment it leaves behind |
| MatchHandler.RunConfiguredAttempt | api/match.ts:24-28 | with settings present: validate them, then dispatch |
| MatchHandler.Validated | api/match.ts:12-18 | anything other than POST is 405; a valid request has the minimum lengths; a 400 carries the schema issues |
| MatchHandler.StoreOutcome | api/match.ts:34-59 | without an AI reply the analyser runs; the record is stored under the next id, nothing else in the store changes, and `fallbackUsed` is true exactly when there was no reply |
| MatchHandler.HandleMatch | api/match.ts:11-75 | an invalid request stores nothing; a valid one stores the AI or fallback record under the next id, and `fallbackUsed` is true exactly when the attempt failed |
| Routes.ExtractPdf | server/routes.ts:25-46 | no file is 400; text shorter than 50 characters is 400; a thrown error is 500 with its message; otherwise 200 with the text |
| Routes.HandleMatch | server/routes.ts:49-101 | an invalid body stores nothing; a valid one stores the OpenRouter reply or the analyser's report under the next id |
| Routes.RoutesAgreeWithoutSettings | api/match.ts:29-33 | without settings the serverless handler makes the same attempt as the route, succeeding exactly when it does, with the same reply |
| Routes.RoutesDisagreeOnNullBody | api/match.ts:17 | a null body is a 500 in the serverless handler and a 400 in the route |
| Routes.ParseInt | server/routes.ts:106 | `parseInt` without a radix: whitespace, a sign, then decimal or `0x` hex digits; ParseIntOfDecimal and ParseIntWithoutDigits state its values |
| Routes.HexRun | server/routes.ts:106 | the longest prefix of hex digits |
| Routes.ParseIntOfDecimal | server/routes.ts:106 | an issued id's decimal text, followed by anything that is not a word character, parses back to the id |
| Routes.ParseIntWithoutDigits | server/routes.ts:106-109 | text without a digit is NaN |
| Routes.GetAnalysis | server/routes.ts:104-123 | NaN is 400; an id never issued is 404; an issued id returns its record |
| SettingsModal.MaskKey | client/src/components/settings-modal.tsx:44-48 | a missing or empty key shows nothing; at most 8 characters show only `*`; longer keys keep the first and last 4 characters with `*` between; the length is kept |
| SettingsModal.MaskKeyRevealsOnlyEnds | client/src/components/settings-modal.tsx:47 | keys of equal length that agree on the outer four characters on each side mask alike |
| SettingsModal.DisplayedKey | client/src/components/settings-modal.tsx:96 | a revealed key shows as typed, a hidden one masked, and both have the key's length |
| SettingsModal.ToggleKeyVisibility | client/src/components/settings-modal.tsx:37-42 | the named flag flips and the other two stay |
| SettingsModal.ToggleFacts | client/src/components/settings-modal.tsx:37-42 | toggling a flag twice restores it; toggles of two flags commute |
| SettingsModal.SetPreferredProvider | client/src/components/settings-modal.tsx:71-73 | only the provider changes |
| SettingsModal.SetKey | client/src/components/settings-modal.tsx:97 | only the edited key changes, to the typed text |
| HistoryModal.GetScoreColor | client/src/components/history-modal.tsx:36-40 | green from 80, yellow from 60 below 80, red below 60 |
| HistoryModal.ScoreColorMonotone | client/src/components/history-modal.tsx:36-40 | a higher score never gets a lower tier |
| HistoryModal.TruncateText | client/src/components/history-modal.tsx:42-45 | text within the bound is unchanged; longer text is its first `maxLength` characters and "..." |
| HistoryModal.TruncateTextIdempotent | client/src/components/history-modal.tsx:42-45 | truncating twice with the same bound is truncating once |
| FileUpload.FirstPdf | client/src/components/file-upload.tsx:31 | `find` returns the first file of type application/pdf, or none when there is none |
| FileUpload.HandleDrop | client/src/components/file-upload.tsx:26-36 | only the first PDF is considered, and it is selected exactly when it is at most 10 MiB |
| FileUpload.HandleFileChange | client/src/components/file-upload.tsx:38-44 | only the first chosen file is considered, and it is selected exactly when it is a PDF of at most 10 MiB |
| FileUpload.DropRejects | client/src/components/file-upload.tsx:30-35 | an oversized first PDF selects nothing, even with a fitting PDF after it |
| FileUpload.SingleFileAgrees | client/src/components/file-upload.tsx:26-44 | for a single file, drop and file input agree |

## Left out

- The HTTP calls themselves (server/services/ai-provider.ts:78-99, 124-142; server/services/openrouter-client.ts:28-51) are network I/O. A vendor call is a function parameter returning a reply or a transport error. Request headers and bodies, and the shape of the response envelope, are not modelled; a reply carries only its `ok` flag, its status and the extracted `content`.
- `JSON.parse` is a function parameter. No JSON grammar is modelled.
- PDF text extraction (server/services/pdf-extractor.ts) wraps a foreign library. It is a function parameter of `Routes.ExtractPdf`.
- The PostgreSQL store (server/db-storage.ts) is not part of this model. The serverless handler uses the same `MemStorage` class. Its integer columns would reject the fractional AI scores this model stores; that is not modelled.
- The multer upload configuration (server/routes.ts:11-21) is framework glue: its 10 MB limit and its PDF filter run before the handler.
- `console` logging is left out.
- Concurrency is left out. Two requests interleaving around the `process.env` key swap could observe each other's key; the model runs one request at a time.
- Scores are exact reals and integers, not IEEE doubles. The 0.7 and 0.5 experience thresholds are compared exactly.
- `extractExperienceKeywords` and `extractEducationKeywords` (server/services/text-similarity.ts:18-19) are computed and never used. They have no effect, so they are not modelled.
- `Json.StringToNumber` covers the empty string and signed decimal text with an optional fraction. Exponents, hex literals, "Infinity" and the like read as NaN.
- Characters are compared as ASCII. Unicode case mapping and `\s` beyond ASCII whitespace are left out.
- TextSimilarity.Analyze: models the corrected analyser, which scores keyword overlap 0 where the source divides 0 by 0 (see Findings); the source's report is `TextSimilarity.AnalyzeAsWritten`.
- TextSimilarity.AnalyzeMatch: computes the corrected report, not the NaN scores and moderate summary the source returns on texts without tokens.
- TextSimilarity.AnalyzeFacts: its score bounds hold for the corrected report; the source's keyword and overall scores are NaN on texts without tokens.
- MatchHandler.FromReportShape: states in-range scores for the corrected report; the source stores NaN scores on texts without tokens.
- MatchHandler.StoredResultInRange: holds for the corrected analyser only; with the source's division a fallback on texts without tokens stores NaN scores.
- MatchHandler.StoreOutcome: stores the corrected report as the fallback, not the source's NaN one.
- MatchHandler.HandleMatch: stores the corrected report as the fallback, not the source's NaN one.
- Routes.HandleMatch: stores the corrected report as the fallback, not the source's NaN one.
- `Scanners.FirstYears` has a weaker contract: it says the figure comes from some matching position, not that it is the leftmost one; the body scans left to right.
- A missing or null body makes the destructuring throw a `TypeError`, which is a 500. Its message is modelled in V8's wording; other engines word it differently.
- The 500 paths of `server/routes.ts` are unreachable in the model: `MemStorage` never throws, and every provider failure is caught. The 500 on a thrown PDF-extraction error is modelled.
- A reply whose `content` is not a string is not modelled. The reply carries an optional string.
- React state, rendering and animation are left out. Only the pure helpers of the three components are modelled; `isDragOver`, `formatDate` and `formatFileSize` are UI glue.

## Findings

| source | as written | input that shows it | evidently intended | confidence | as-written member | corrected member |
|---|---|---|---|---|---|---|
| server/services/text-similarity.ts:145 | the Jaccard ratio divides by the size of the token union, which is 0 when neither text has a token longer than two characters; `Math.round(NaN)` is NaN, so the keyword score and the overall score become NaN, and the summary falls to the moderate one because both comparisons with NaN are false | a job description of 50 `.` characters and a resume of 100 `.` characters, which pass the length checks | a keyword score of 0 when there are no tokens to compare, giving an overall 63 and the good summary on that input | not executed | TextSimilarity.NaNWitness | TextSimilarity.KeywordOverlapFacts |
