# hezarjob-bot: finalization pipeline, model selection and vector literal

This project models the deterministic core of the Hezarjob career-advice bot in Dafny.
Finalization turns a user's stored conversation into a career profile, a persona paragraph
and ten ranked job matches with reasons. The model covers three parts of the code:

- `lib/llm.ts`. Picking a Gemini model name from the listed models, with a preference order and a
  fixed fallback. Text generation with exactly one retry. The embedding reply is either passed
  through (a 1-D vector) or reduced by a column-wise mean over tokens (a 2-D matrix); any other
  shape is an error.
- `lib/db.ts`. `toPgVectorLiteral`, the serialiser that turns a vector into `[x1,x2,...]`.
- `app/api/finalize/route.ts`. The `POST` handler's stages in order:
  1. validation (400), then the user lookup (404);
  2. a stored profile is reused; otherwise one is generated, and a parse failure is fatal (500);
  3. persona paragraph, embedding and `match_jobs`;
  4. a stable sort by similarity cut to ten rows, and model-written reasons with a generic
     fallback;
  5. the report timestamp, and one audit row.

Each remote collaborator is an oracle held by the `Services.Remote` class: Gemini's
`listModels` and `generateContent`, the Hugging Face `fetch`, and the `match_jobs` query. An
answer is an arbitrary function of the call and of the call's position in the log, so a retry
can get a different answer. Any of these answers can be a failure. Every call is appended to
`Remote.log`, which is how "no remote call before validation" and "no profile generation when
a profile is stored" are stated.

`Store.Database` holds the three tables (`users`, `conversations`, `analysis_audit`). It also
keeps an ordered log of the write statements issued. `JSON.parse` is passed in as a parameter
`parse: string -> Option<JsonValue>`. The rendering of one number is passed in as
`render: real -> string`. The clock behind `now()` is passed in as `now`. Numbers are `real`.

Each stage has a reference function that gives its result and the calls it makes from the
oracles' answers: `ProfileOutcome`, `MatchOutcome`, `ExplainOutcome`, `RecommendOutcome` and
`RunOutcome` for the whole run (with `GenerateOutcome` and `EmbedOutcome` for the two helpers in
`lib/llm.ts`). Each method states that its result is its function's result and that the log
grows by exactly its function's calls. Since an answer depends on the call's log position,
the stage methods take that position as a ghost parameter `at`, which must equal the current
log length.

The model follows the code in these details:

- The handler answers 404 only when the `users` row is missing (app/api/finalize/route.ts:45).
  A user without a `conversations` row goes on: the history is `[]`, a profile is generated, and
  the two UPDATEs match no row. The audit row is still inserted.
- Stored profiles are reused only when they pass JavaScript's `!careerProfile` test
  (app/api/finalize/route.ts:56). A stored JSON `null`, `false`, `0` or `""` is regenerated
  and overwritten, so the profile is write-once only for truthy values.
- The reasons stage falls back to the generic reasons when the model call fails, not only
  when the parse fails. Both are inside one `try` (app/api/finalize/route.ts:102-108).
- When a later stage fails, a profile generated earlier in the same run stays persisted.

## Model

| member | source | states |
|---|---|---|
| `Llm.FindIsFirstMatch` | lib/llm.ts:12 | the hit is the first listed name that equals the candidate or ends with "/" + candidate; None exactly when no listed name matches |
| `Llm.AfterLastSlashIsLast` | lib/llm.ts:13 | the last segment starts just after a slash (or at the start of the name), and no slash follows that point |
| `Llm.LastSegmentAppend` | lib/llm.ts:13 | appending slash-free text to a name extends its last segment by exactly that text |
| `Llm.LastSegmentHasNoSlash` | lib/llm.ts:13 | `split("/").pop()` never contains a slash |
| `Llm.LastSegmentIsLastPart` | lib/llm.ts:13 | the last segment is a suffix of the name, and a slash immediately precedes it unless it is the whole name |
| `Llm.LastSegmentOfMatch` | lib/llm.ts:12-13 | for a slash-free candidate, the last segment of any matching name is exactly the candidate |
| `Llm.PickFlashNamePrefersEarliest` | lib/llm.ts:10-14 | the earliest candidate with a matching listed name is the one returned |
| `Llm.PickFlashNameNeverLater` | lib/llm.ts:11-14 | if an earlier candidate has a match, no later candidate is returned |
| `Llm.PickFlashNameFallback` | lib/llm.ts:15-16 | when no candidate has a match, "gemini-1.5-flash" is returned |
| `Llm.PickFlashNameOfNothing` | lib/llm.ts:15-16 | an empty model list yields "gemini-1.5-flash" |
| `Llm.PickFlashNameIsCandidate` | lib/llm.ts:4-17 | the result is always one of the three candidates (the fallback is one of them) |
| `Llm.BareSuffixDoesNotMatch` | lib/llm.ts:12 | a name that ends with the candidate but has no slash just before it, and is not the candidate itself, does not match |
| `Llm.SelectModelIsCandidate` | lib/llm.ts:22-29 | `initGemini`'s choice is always a candidate, and the fallback when listing the models throws |
| `Llm.GenerateText` | lib/llm.ts:38-48 | one listing call, then at most two attempts on the chosen model; the first success is returned; after a first failure exactly one retry follows, and its result, failure included, is returned |
| `Llm.MeanOverTokens` | lib/llm.ts:79-86 | the in-place accumulator has row 0's length, and entry i is the sum of column i over all tokens divided by the token count |
| `Llm.ColumnMeans` | lib/llm.ts:80-86 | the reduced vector has `dim` entries |
| `Llm.Numbers` | lib/llm.ts:73-75 | the array is read as numbers exactly when every entry is a number, preserving order |
| `Llm.TokenRows` | lib/llm.ts:77-80 | a successful read has one row per token, each cut to length `dim` (row 0's length) |
| `Llm.EmbeddingOf` | lib/llm.ts:72-89 | a reply that is neither 1-D nor 2-D numeric is an error; a 2-D reply reduces to a vector of row 0's length |
| `Llm.ReduceEmbedding` | lib/llm.ts:72-89 | the shape dispatch with the imperative mean computes exactly `EmbeddingOf` |
| `Llm.EmbedText` | lib/llm.ts:54-90 | one fetch is logged; network failure, a non-2xx status and an unparseable body are errors, otherwise the result is the dispatch on the body |
| `Llm.OneDimensionalPassesThrough` | lib/llm.ts:73-76 | a non-empty numeric vector comes back unchanged |
| `Llm.TwoDimensionalIsAveraged` | lib/llm.ts:77-86 | a per-token matrix with equal row lengths reduces to its column means |
| `Llm.MeanOfIdenticalRows` | lib/llm.ts:79-86 | averaging n copies of a vector gives that vector |
| `Llm.TwoByThreeExample` | lib/llm.ts:79-86 | the tokens [1,2,3] and [3,4,5] reduce to [2,3,4] |
| `Db.ToPgVectorLiteral` | lib/db.ts:22-24 | the literal starts with `[` and ends with `]`, and the empty vector gives `[]` |
| `Db.SplitJoin` | lib/db.ts:23 | when no part contains the separator, splitting the joined parts on it gives the parts back |
| `Db.LiteralRoundTrip` | lib/db.ts:23 | for comma-free renderings, the literal's inside splits on commas into exactly the element renderings, in input order |
| `Db.LiteralCommasAndLength` | lib/db.ts:23 | n >= 1 comma-free renderings give n - 1 commas and length 2 + total rendering length + (n - 1) |
| `Db.JoinShape` | lib/db.ts:23 | `join(",")` of n >= 1 comma-free parts has n - 1 commas and length total + n - 1 |
| `Ranking.SortProperties` | app/api/finalize/route.ts:92 | the sort output is non-increasing in similarity and a permutation of the input |
| `Ranking.SortStable` | app/api/finalize/route.ts:92 | rows with equal similarity keep their input order (the sort is stable) |
| `Ranking.Top10Shape` | app/api/finalize/route.ts:91-93 | the kept list has length min(10, number of rows), and its rows are non-increasing in similarity |
| `Ranking.Top10KeepsBest` | app/api/finalize/route.ts:91-93 | the kept rows are a sub-multiset of the gateway rows, and no dropped row beats the last kept row |
| `Ranking.Top10Stable` | app/api/finalize/route.ts:91-93 | for each score, the kept rows with that score are a prefix of the gateway's rows with that score, in gateway order |
| `Ranking.FallbackReasons` | app/api/finalize/route.ts:107 | one entry per kept row, same titles in the same order, each with the fixed reason |
| `Ranking.FallbackCoversTopTen` | app/api/finalize/route.ts:102-108 | the fixed reason is non-empty; with at least ten gateway rows the fallback has exactly ten entries, each naming a gateway title |
| `Services.Remote.ListModelNames` | lib/llm.ts:24-25 | one logged listing call, answered by the oracle |
| `Services.Remote.GenerateContent` | lib/llm.ts:41 | one logged generation call, answered by the oracle |
| `Services.Remote.Fetch` | lib/llm.ts:56-63 | one logged embedding request, answered by the oracle |
| `Services.Remote.QueryMatchJobs` | app/api/finalize/route.ts:85-90 | one logged `match_jobs` query, answered by the oracle |
| `Store.ProfileSet` | app/api/finalize/route.ts:68-71 | the profile UPDATE keeps the table's keys and every other row; the user's row, when present, gets the profile and keeps its history and timestamp |
| `Store.ReportStamped` | app/api/finalize/route.ts:111-113 | the timestamp UPDATE keeps the table's keys and every other row; the user's row, when present, gets the timestamp and keeps its history and profile |
| `Store.Database.UpdateProfile` | app/api/finalize/route.ts:68-71 | the profile UPDATE is logged and sets the profile of an existing row; nothing else changes |
| `Store.Database.StampReport` | app/api/finalize/route.ts:111-113 | the timestamp UPDATE is logged and sets `report_generated` of an existing row; nothing else changes |
| `Store.Database.AppendAudit` | app/api/finalize/route.ts:114-118 | the audit INSERT is logged and appends exactly one row |
| `Finalize.Status` | app/api/finalize/route.ts:39-128 | 400 exactly for a missing id, 404 exactly for an unknown user, 500 for everything else |
| `Finalize.HistoryOf` | app/api/finalize/route.ts:52 | the history sent for profile extraction is always truthy (falling back to `[]`) |
| `Finalize.ProfileStage` | app/api/finalize/route.ts:53-72 | the profile returned and the calls appended are exactly `ProfileOutcome`: the truthy stored profile with no call, or `JSON.parse` of the reply to the profile prompt built from the stored history (or `[]`), with a failed call or parse as the error; the table becomes the old one with the parsed profile written into the user's row, and that write is logged, exactly when one was generated; a failure changes nothing |
| `Finalize.MatchOutcomeExactly` | app/api/finalize/route.ts:82-90 | the first call embeds the persona; an embedding failure stops there; otherwise the second call is `match_jobs` with the literal of the embedding, 0.40 and 30, the rows returned are that query's answer, and the stage succeeds exactly when both calls answer |
| `Finalize.EmbedAndMatch` | app/api/finalize/route.ts:82-90 | the rows returned and the calls appended are exactly `MatchOutcome` for the persona and the current log position; no profile-extraction call is made; a failure is an embedding or a match failure |
| `Finalize.Explain` | app/api/finalize/route.ts:95-108 | the reasons and the calls appended are exactly `ExplainOutcome`: the reasons prompt carries the profile and the kept rows; the parsed reply is returned when the call and `JSON.parse` both succeed, and otherwise the generic reasons for exactly the kept rows; the stage never fails |
| `Finalize.RecommendFailsOnlyUpstream` | app/api/finalize/route.ts:74-90 | stages 2 to 4 succeed exactly when the persona generation and then the embedding and the match query all answer |
| `Finalize.RecommendWiring` | app/api/finalize/route.ts:74-93 | on success the persona is the generated reply, the embedding request right after the persona calls is for that persona, the gateway rows are the match answer for it, and the kept rows are their top ten |
| `Finalize.RecommendExplainsTopTen` | app/api/finalize/route.ts:95-108 | on success, after the persona, embedding and match calls come a model listing and a generation call for the reasons prompt carrying the profile and exactly the kept rows, and a generic answer explains exactly those rows |
| `Finalize.Recommend` | app/api/finalize/route.ts:74-108 | the recommendation and the calls appended are exactly `RecommendOutcome` (persona, then embedding and match, then reasons); no profile-extraction call is made; a failure is never a validation or profile failure; the kept rows are the top ten of the gateway rows, and the fallback reasons explain exactly them |
| `Finalize.RunResponseFacts` | app/api/finalize/route.ts:53-108 | in a successful run the kept rows are the top ten of the gateway rows, a fallback explains exactly them, and a truthy stored profile is the profile answered |
| `Finalize.Complete` | app/api/finalize/route.ts:74-118 | the response and the calls are what stages 2 to 4 answer; a failure changes no table; a success stamps the user's row and nothing else in the conversations table, appends exactly one audit row holding the profile, persona and reasons, and logs the two writes in order |
| `Finalize.StoredProfileSurvives` | app/api/finalize/route.ts:53-72 | with a truthy stored profile, stage 1 leaves the table as it was and writes nothing, and the timestamp UPDATE keeps the stored profile |
| `Finalize.RunForUser` | app/api/finalize/route.ts:46-126 | for a known user, the response and the calls are exactly `RunOutcome`; on failure the conversations table is the old one with at most the fresh profile written, and no audit row is added; on success it is that table with the report stamped, and the writes are the optional profile write, the timestamp and one audit row holding the response; a stored profile causes no profile-extraction call |
| `Finalize.Finalize` | app/api/finalize/route.ts:36-130 | a falsy id gives 400 and an unknown user 404, both with no call and no write; for a known user the response and the calls are exactly `RunOutcome`, and the conversations table is, in closed form, the old one with the optional fresh profile and, on success only, the timestamp; a failure leaves no timestamp and no audit row, and a profile-stage failure changes nothing; a truthy stored profile is never regenerated or rewritten and is returned as is; success issues the optional profile write, then the timestamp, then exactly one audit row holding the returned profile, persona and reasons |

## Left out

- `app/page.tsx`, `app/layout.tsx` and `app/api/chat/route.ts` are UI. The last is a client-side React component despite its path. No turn handler or history sanitizer exists in the modelled files, so neither is modelled.
- Postgres connection handling in `query` (lib/db.ts:12-20) is I/O. The tables are plain state, and failing queries other than `match_jobs` are not modelled.
- The Gemini SDK, the Hugging Face endpoint and `match_jobs` are external. They are oracles, and the gateway's own promise (similarity at least the floor, at most the cap rows) is not assumed.
- The prompt texts, the `JSON.stringify` of history and profile, and `getGenerativeModel`'s system instruction are opaque. Prompts are modelled by the data they carry.
- The 1.2 s delay between the two attempts is timing, and is not modelled.
- The module-level `selectedModel` is reassigned on every `initGemini` call before it is read. The model passes the chosen name directly.
- Concurrent requests for the same user are not modelled.
- IEEE floating point is replaced by `real`: no NaN, no rounding in the mean, no rendering rules for numbers.
- A request body that is not JSON, and `userId` values that are not numbers, are not modelled. The id is an optional integer, and it is falsy when absent, null or 0.
- The text of error responses (`e.message`) is replaced by a `Failure` value naming the failed stage.
- Llm.EmbeddingOf: the source returns a 1-D array whose later entries are not numbers unchecked. It also averages 2-D rows that are shorter than row 0 or are not arrays, which yields NaN or worse. A 2-D row whose first `dim` entries are not all numbers is also averaged by the source, since `+=` coerces (`null` adds as 0, `true` as 1, and a string concatenates): `[[1,2],[null,4]]` gives `[0.5,3]`. The model reports `NonNumericVector` or `RaggedTokens` for all of these.
