# AI model catalog sync, modelled in Dafny

This project models the core of a scheduled job that keeps a catalog of AI
models up to date. Once a day the job does the following:

- It reads five provider listings: text models from the OpenRouter listing,
  and image, video and speech models from four Replicate collections (text-to-image,
  text-to-video, speech-recognition and text-to-speech).
- It normalises each listing into category-typed model records.
- It enriches text models with curated benchmark scores.
- It upserts every record into the catalog, keyed by the model's public id,
  with one price row per model.
- It runs a two-phase sweep. Active entries whose id was not fetched in this
  run are soft-deleted with one shared timestamp. Soft-deleted entries whose id
  was fetched are restored.
- It records one sync-log entry for the run.

Modules, one per concern:

- `Wrappers`: `Option`, and `Response`, which is one HTTP request's outcome: a
  decoded body, a non-2xx status, or a request that threw.
- `Text`: JavaScript's `split`/`join`/`pop` on strings and ASCII `toUpperCase`,
  with the lemmas the name functions need.
- `Models`: the record shapes of `src/lib/types/models.ts`.
- `Benchmarks`: `getBenchmark` and `getCodingScore`.
  - The benchmark table is an ordered sequence of `(key, data)` pairs, because
    lookup order matters.
  - The repository's table is the constant `Benchmarks.Benchmarks`. Every other
    member takes the table as a parameter.
- `OpenRouter`: the filter, map and sort chain of `fetchOpenRouterModels`.
  - `parseFloat` is an injected `string -> real`.
  - The sort is an insertion sort proved sorted and a permutation.
- `Replicate`: the pieces of the Replicate client.
  - Pure parts: display names, first-tier price extraction, popularity and tags.
  - First-seen de-duplication by the `owner/name` key.
  - The three per-category builders. They are methods with the source's loops
    and `seen` set, proved equal to specification functions.
  - The per-model detail request is an injected `DetailFetch`.
- `Catalog`: the catalog as a value.
  - The catalog is a `map` from public model id to an `Entry`. An entry holds
    the type, the attribute columns, the price columns and `deletedAt`.
  - The functions `Upsert`, `UpsertAll` and `Swept` specify the store's
    operations. The lemmas state what the save loops and the sweep promise.
  - Prisma's convention applies: an `undefined` field in update data leaves
    the stored column untouched. The model writes only the columns a record
    defines, as a map union.
- `SyncModels`: the stateful part.
  - `CatalogStore` is a class with the catalog and the log. Its methods are
    `saveTextModels` … `saveAudioModels`, `softDeleteRemovedModels` and the
    `run` body. Each is proved against the `Catalog` functions.
  - `RunSpec` states a run's outcome, and lemmas about it cover the run
    outcomes.

A run can fail part-way. A `Fault(after, error)` says that the store throws
after `after` completed steps. Steps are counted in run order: one per model
saved, then the sweep, then the success log. The model then gives the partial
catalog that persists, and the failed log entry.

A failed Replicate fetch returns `[]`. The sweep then compares the catalog
against no ids for that category, so every active entry of that category that
no other listing fetched is soft-deleted (`SyncModels.FailedCategoryIsSwept`).

## Model

| member | source | states |
|---|---|---|
| Text.JoinSplit | src/lib/api/replicate.ts:83-86 | joining the parts of `split` with the separator gives back the original string |
| Text.ToUpper | src/lib/api/replicate.ts:85 | a lower-case ASCII letter becomes the matching upper-case letter; every other character is unchanged |
| Replicate.TitleCase | src/lib/api/replicate.ts:82-87 | with ASCII case mapping, `formatSlugToTitle` keeps the slug's length. Each `-` becomes a space, the first character of every hyphen-separated word is upper-cased, and every other character is unchanged |
| Replicate.Capitalize | src/lib/api/replicate.ts:85 | a word keeps its length; its first character is upper-cased and the rest is unchanged; an empty word stays empty |
| Replicate.FormatProviderName | src/lib/api/replicate.ts:50-91 | the curated name when the owner is in the table, otherwise the title-cased owner slug |
| Replicate.DisplayNameShape | src/lib/api/replicate.ts:93-97 | the display name is the provider name, then ": ", then the model slug title-cased character by character |
| Replicate.ExtractPriceFromBillingConfig | src/lib/api/replicate.ts:114-122 | a price comes back exactly when there is a config with a non-empty tier list whose first tier has a positive price, and then it is that price |
| Replicate.LaterTiersIgnored | src/lib/api/replicate.ts:117-121 | two tier lists with the same first tier give the same price: later tiers are never consulted |
| Replicate.PopularityBounds | src/lib/api/replicate.ts:167 | popularity is at most 100, non-negative for a non-negative run count, 100 exactly from `100 * divisor` runs, and below the cap it is the floor of `runCount / divisor` |
| Replicate.PopularTags | src/lib/api/replicate.ts:166 | the tags are non-empty exactly when the run count exceeds the threshold, and are then `["popular"]` |
| Replicate.UpdatedAt | src/lib/api/replicate.ts:168 | the listing's creation time when present and non-empty, otherwise the current time |
| Replicate.ImageModelDerivation | src/lib/api/replicate.ts:150-170 | an image record has the id `owner/name` and a positive price or none. A failed detail fetch leaves the price absent. Popularity is within 0..100 and is 100 exactly from 10,000,000 runs. The tag is `popular` exactly above 1,000,000 runs |
| Replicate.VideoModelDerivation | src/lib/api/replicate.ts:206-226 | the same for a video record, with 100 exactly from 1,000,000 runs and the tag exactly above 100,000 runs |
| Replicate.AudioModelDerivation | src/lib/api/replicate.ts:259-310 | a speech-recognition record is priced only per minute, a speech-synthesis record only per character; popularity is within 0..100 and the tag is `popular` exactly above 100,000 runs |
| Replicate.KeySetMembers | src/lib/api/replicate.ts:139-145 | a key is in the `seen` set of a prefix exactly when some element of that prefix has it |
| Replicate.FirstIndex | src/lib/api/replicate.ts:139-145 | the first position holding a given key: it has the key and no earlier element does |
| Replicate.DedupKeepsEveryKey | src/lib/api/replicate.ts:139-145 | de-duplication keeps exactly the keys of the input |
| Replicate.DedupKeepsFirstOccurrences | src/lib/api/replicate.ts:139-145 | the output is the input at strictly increasing positions (an order-preserving subsequence), and no element before a kept position has its key |
| Replicate.DedupDistinctKeys | src/lib/api/replicate.ts:139-145 | the kept elements have pairwise distinct keys |
| Replicate.KeptKeysFromInput | src/lib/api/replicate.ts:139-145 | every kept key is a key of the input |
| Replicate.FirstOccurrenceKept | src/lib/api/replicate.ts:139-145 | every key of the input is kept, through the first element that has it |
| Replicate.DedupStep | src/lib/api/replicate.ts:141-144 | one more element adds its key to `seen`, and is kept exactly when its key is new |
| Replicate.Dedupe | src/lib/api/replicate.ts:139-145 | the `filter` with a `seen` set computes the de-duplication function |
| Replicate.FetchReplicateImageModels | src/lib/api/replicate.ts:124-178 | the builder returns one record per de-duplicated listing, in order; a non-2xx or failed collection request yields `[]` |
| Replicate.FetchReplicateVideoModels | src/lib/api/replicate.ts:180-234 | the same for the video collection |
| Replicate.AppendSpeechModels | src/lib/api/replicate.ts:256-312 | the loop with `continue` over one speech collection extends `seen` and the records exactly as de-duplication of the combined source list does |
| Replicate.FetchReplicateAudioModels | src/lib/api/replicate.ts:236-319 | speech recognition first, then speech synthesis, with one shared `seen` set. A non-2xx collection is skipped; a request that throws yields `[]` |
| Replicate.ImageIdsDistinct | src/lib/api/replicate.ts:139-170 | the image records of a collection have pairwise distinct ids |
| Replicate.ImageIdsFromCollection | src/lib/api/replicate.ts:139-170 | every image record's id is the key of some listing of the collection |
| Replicate.ImageFirstListingKept | src/lib/api/replicate.ts:139-170 | every key of the collection gets a record, built from the first listing with that key, even when its detail fetch fails |
| Replicate.VideoIdsDistinct | src/lib/api/replicate.ts:195-226 | the video records have pairwise distinct ids |
| Replicate.VideoIdsFromCollection | src/lib/api/replicate.ts:195-226 | every video record's id is the key of some listing |
| Replicate.VideoFirstListingKept | src/lib/api/replicate.ts:195-226 | every key of the collection gets a record built from its first listing |
| Replicate.AudioIdsDistinct | src/lib/api/replicate.ts:253-312 | audio records have distinct ids across both collections |
| Replicate.SpeechRecognitionWins | src/lib/api/replicate.ts:256-312 | a listing of the speech-recognition collection always yields a record of type `stt`, priced per minute with that model's price and not per character, even when the same model is also listed for speech synthesis |
| Benchmarks.IndexOf | src/lib/data/benchmarks.ts:68-70 | the position of the first table entry with exactly this key, or none when no entry has it |
| Benchmarks.FirstRelated | src/lib/data/benchmarks.ts:73-77 | the first position, in table order, whose key is a prefix of the base id or has the base id as prefix, or none when no key is |
| Benchmarks.BaseId | src/lib/data/benchmarks.ts:72 | the part of the id before the first `:` (the whole id when there is none) |
| Benchmarks.GetBenchmark | src/lib/data/benchmarks.ts:67-80 | an exact key wins. Otherwise the first prefix-related key in table order wins. The result is null exactly when no key is related |
| Benchmarks.FirstRelatedEntryWins | src/lib/data/benchmarks.ts:73-76 | without an exact match, a related first entry is returned regardless of later, longer matches |
| Benchmarks.EmptyBaseIdResolvesToFirst | src/lib/data/benchmarks.ts:72-76 | an id with an empty base resolves to the first table entry |
| Benchmarks.FirstMatchNotLongest | src/lib/data/benchmarks.ts:73-76 | `openai/gpt-4o-mini-x` resolves to the `openai/gpt-4o` entry although `openai/gpt-4o-mini` is also related |
| Benchmarks.CodingScores | src/lib/data/benchmarks.ts:5 | at most three scores, and none exactly when all three coding benchmarks are absent |
| Benchmarks.GetCodingScore | src/lib/data/benchmarks.ts:3-8 | undefined exactly for a missing benchmark or one without any of the three coding scores; otherwise within 0.05 of their mean |
| Benchmarks.CodingScoreIgnoresOtherFields | src/lib/data/benchmarks.ts:5-7 | the score depends only on `humanEval`, `sweBench` and `liveCodeBench` |
| OpenRouter.PriceText | src/lib/api/openrouter.ts:33-34 | a missing or empty price string reads as "0"; a present one is used as is |
| OpenRouter.ProviderOf | src/lib/api/openrouter.ts:40 | the non-empty id segment before the first `/`, or `unknown` when that segment is empty |
| OpenRouter.DisplayName | src/lib/api/openrouter.ts:39 | the model's name when non-empty. Otherwise the id's last `/`-segment when that is non-empty. Otherwise the whole id |
| OpenRouter.ToTextModel | src/lib/api/openrouter.ts:37-52 | a record keeps the id, scales both prices by 1,000,000, and has a positive price exactly when the listing passes the filter. Its name and provider are as above. Description, context length, tags, popularity and capabilities take their defaults |
| OpenRouter.FilterPriced | src/lib/api/openrouter.ts:32-36 | an entry survives exactly when its prompt or completion price is positive; each priced entry is kept as many times as it occurs, and no unpriced one is |
| OpenRouter.FilterPricedInOrder | src/lib/api/openrouter.ts:32-36 | the surviving entries keep their input order: the result is a subsequence of the listing |
| OpenRouter.SortByTotal | src/lib/api/openrouter.ts:53-57 | the result is sorted by prompt + completion and is a permutation of the input |
| OpenRouter.FetchOpenRouterModels | src/lib/api/openrouter.ts:21-61 | on success, a sorted permutation of the mapped, filtered listing; on any failure `[]` |
| OpenRouter.OnlyPricedModelsSurvive | src/lib/api/openrouter.ts:31-57 | the output holds exactly the mapped priced entries, one record per priced entry (duplicates included), and every output record has a positive price |
| OpenRouter.MissingPriceCountsAsZero | src/lib/api/openrouter.ts:33-45 | a missing price is 0, and an entry without any price is filtered out |
| Catalog.RecordKindsAndPriceColumns | src/trigger/sync-models.ts:200-395 | each save function creates its own type. It writes only its own price columns, exactly those whose price is defined |
| Catalog.TextBenchmarkColumns | src/trigger/sync-models.ts:179-199 | a text record writes each of the nine benchmark columns exactly when the looked-up benchmark has that score, and then writes that score; without a benchmark only the six plain columns are written, so the update leaves stored scores untouched |
| Catalog.TextBenchmarkColumn | src/trigger/sync-models.ts:189-197 | a benchmark column is written exactly when the benchmark's matching field is defined, with that value |
| Catalog.TextRecordWithoutBenchmark | src/trigger/sync-models.ts:182-188 | without a benchmark a text update writes exactly name, provider, description, context length, tags and popularity |
| Catalog.UpsertAllAt | src/trigger/sync-models.ts:178-233 | after a save loop an id is present exactly when it was present or saved. An existing entry keeps its type and `deletedAt` and gets the merged columns. A new entry takes the type of its first record and has `deletedAt` null |
| Catalog.SavesKeepAndAddEntries | src/trigger/sync-models.ts:178-233 | a save loop never removes an entry and adds exactly the saved ids: one entry per id, no duplicates |
| Catalog.SavesKeepTypeAndDeletedAt | src/trigger/sync-models.ts:181-274 | an update never changes an entry's type or `deletedAt`, so a soft-deleted entry stays deleted until the sweep; a created entry has its save function's type and is active |
| Catalog.LastWriterWins | src/trigger/sync-models.ts:178-219 | an attribute column gets the value of the last record in the batch that writes it |
| Catalog.PriceLastWriterWins | src/trigger/sync-models.ts:221-232 | a price column gets the value of the last record in the batch that writes it |
| Catalog.SavesAreIdempotent | src/trigger/sync-models.ts:178-233 | saving the same batch twice gives the same catalog as saving it once |
| Catalog.UpsertAllAppend | src/trigger/sync-models.ts:111-121 | saving two batches in turn is saving their concatenation |
| Catalog.UnwrittenPriceColumnKept | src/trigger/sync-models.ts:221-287 | a price column that no record of the batch writes keeps its old value, or stays absent |
| Catalog.VideoSaveKeepsOtherPrices | src/trigger/sync-models.ts:331-340 | a video save touches only `pricePerSecond`, and leaves it unchanged when no saved record has a price |
| Catalog.SweepOutcome | src/trigger/sync-models.ts:399-442 | the sweep removes no entry and changes only `deletedAt`. After it an entry is active exactly when its id was fetched. An absent entry keeps an old `deletedAt`, or gets the shared timestamp when it was active |
| Catalog.SweepIsIdempotent | src/trigger/sync-models.ts:399-442 | a second sweep with the same id set, at any later time, changes nothing |
| Catalog.ResaveAfterSweep | src/trigger/sync-models.ts:111-131 | re-saving a batch after the sweep changes nothing |
| SyncModels.CatalogStore.SaveRecord | src/trigger/sync-models.ts:181-232 | one model's entry upsert followed by its price upsert is `Upsert` of its record; the log is untouched |
| SyncModels.CatalogStore.SaveTextModels | src/trigger/sync-models.ts:177-234 | the loop upserts the records of the models in input order |
| SyncModels.CatalogStore.SaveImageModels | src/trigger/sync-models.ts:236-289 | the same for image models |
| SyncModels.CatalogStore.SaveVideoModels | src/trigger/sync-models.ts:291-342 | the same for video models |
| SyncModels.CatalogStore.SaveAudioModels | src/trigger/sync-models.ts:344-397 | the same for audio models |
| SyncModels.CatalogStore.SoftDeleteRemovedModels | src/trigger/sync-models.ts:399-442 | the two update phases leave the catalog equal to `Swept` of the old catalog over the id set |
| SyncModels.CatalogStore.SaveAll | src/trigger/sync-models.ts:111-121 | the four saves in order, stopped after `left` models, leave exactly the first `left` records saved |
| SyncModels.CatalogStore.Run | src/trigger/sync-models.ts:82-174 | the catalog, the one new log entry and the result are those of `RunSpec`, for a missing token, a fault at any step, or success |
| SyncModels.SavedAfterIsPrefix | src/trigger/sync-models.ts:111-121 | a run stopped after `left` saves has saved the first `left` records of the run order |
| SyncModels.RecordIdsAlign | src/trigger/sync-models.ts:125-130 | the swept id list and the saved records line up one to one |
| SyncModels.SavedIdsAreFetchedIds | src/trigger/sync-models.ts:125-131 | the ids saved in a run are exactly the ids the sweep treats as present |
| SyncModels.MissingTokenChangesNothing | src/trigger/sync-models.ts:86-98 | a missing or empty token leaves the catalog unchanged, logs a failed full sync with the fixed message, and returns that error |
| SyncModels.SuccessfulRun | src/trigger/sync-models.ts:100-157 | a run without a fault reports the four counts and their sum and logs a success with that sum. Afterwards an entry exists exactly when it existed or was fetched. It is active exactly when it was fetched, and keeps its type. An absent entry keeps an old `deletedAt` or gets the run's timestamp |
| SyncModels.FaultyRun | src/trigger/sync-models.ts:158-173 | a fault logs a failed full sync with the error's message (or "Unknown error") and rethrows it. No entry is lost. A fault before the sweep changes no `deletedAt` |
| SyncModels.RerunChangesNothing | src/trigger/sync-models.ts:100-131 | a second successful run with the same listings leaves the catalog unchanged |
| SyncModels.FailedCategoryIsSwept | src/trigger/sync-models.ts:125-131 | when the image collection request fails (non-2xx or thrown), the image builder yields `[]`, and a completed run soft-deletes every active image entry that no other category fetched, with the run's timestamp |

## Left out

- HTTP requests, headers, JSON decoding and `process.env`: collection responses are `Response` parameters, the per-model detail request is an injected `DetailFetch`, and the Replicate token is an `Option<string>` parameter.
- The scheduler wrapper (`schedules.task`, its id and cron) and all `console` output.
- `Promise.all`: the fetches are independent, so they are modelled one after another. The four listings of a run are the `Batches` parameter.
- Clocks: `Date.now()` and `new Date()` are parameters. One `now` stands for the `new Date()` that the OpenRouter map and the Replicate builders evaluate once per record; the difference is not observable, because a record's `updatedAt` is never written to the catalog. The run duration is not modelled, and the sync log carries no duration field.
- Floating point: prices and scores are reals. `parseFloat` is an uninterpreted function (NaN is not modelled), and `Math.round` is stated only as being within 0.05 of the mean.
- Benchmarks.GetCodingScore: states the result within 0.05 of the mean rather than its IEEE rounding to one decimal.
- Text.ToUpper: upper-cases ASCII letters only; other Unicode case mappings of `toUpperCase` are not modelled.
- Replicate.TitleCase: the length it states holds for the ASCII case mapping only; in the source a character whose upper case is longer (`'ß'` becomes `"SS"`) lengthens the title.
- Replicate.FormatProviderName: states the curated name directly. The source's fallback for an empty curated name never applies, because no curated name is empty.
- Replicate.FormatProviderName: own-property lookup only. The source indexes a plain JavaScript object, so an owner named like an inherited `Object.prototype` property (`constructor`, `toString`, `valueOf`) finds a function there; inherited keys are not modelled.
- Benchmarks.GetBenchmark: own-property lookup only. `benchmarks[modelId]` on a plain object also finds inherited `Object.prototype` properties for ids such as `constructor`; inherited keys are not modelled.
- The catalog's internal row ids: the public model id is unique, so each entry's single price row is folded into the entry. An entry with an empty price map stands for one whose price row holds only nulls.
- Faults inside one model's save (between its entry upsert and its price upsert) and between the two sweep phases: a fault is counted in whole steps.
- A failed-log write that itself throws.
- A body that cannot be decoded inside the audio builder's OK branch: it is modelled as a request that throws, which yields `[]` for the whole audio call, as in the source.
- OpenRouter.SortByTotal: proves sorted and a permutation, not that equal totals keep their input order.
- Detail-page scraping, regex price heuristics and static price estimates are not implemented in the source, so they are not modelled.
- `prisma/prisma.config.ts` is not part of this model: it only wires the database connection.
