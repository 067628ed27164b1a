# DocPulse: extraction pipeline, verified model

DocPulse turns an uploaded document into JSON that follows a caller's schema. This project models the
part of it that decides what the answer is and that it is computed once: cutting a text into overlapping
chunks, asking a language model about each chunk, merging the answers, the job table and result cache
that many workers share, and the per-tenant rate limiter in front. Everything is stated for all texts,
all configurations, all behaviours of the model, and all interleavings.

`dafny verify dfyconfig.toml` checks the whole project.

## How the model is laid out

| file | what it holds |
|---|---|
| `Sequences.dfy`, `Runes.dfy` | regrouping concatenations; the text alphabet, trimming, joining, and the *ink* of a text: what is left when white space is ignored |
| `Splitting.dfy` | paragraphs and sentences |
| `Packing.dfy`, `Chunking.dfy` | the overlap, and the two nested greedy packers as loops, each proved equal to a list of *parts* (overlap carried over, fresh items) |
| `ChunkInvariants.dfy`, `ChunkTheorems.dfy`, `ChunkOrigin.dfy`, `ChunkGreedy.dfy`, `ChunkLimits.dfy`, `ChunkCap.dfy`, `ChunkOverlap.dfy`, `ChunkLoss.dfy`, `ChunkContents.dfy`, `Optimality.dfy` | what the chunker promises, and what it does not |
| `Json.dfy`, `Merge.dfy` | decoded JSON, and merging the results of the chunks |
| `Router.dfy`, `Pipeline.dfy` | retries with escalation, and the worker's loop over the chunks with its costs |
| `CacheKey.dfy`, `JsonText.dfy` | the framing behind the cache key, and the grammar of the JSON texts it is for |
| `JobStore.dfy` | the job table, and the store's operations on it |
| `Protocol.dfy`, `ProtocolInvariants.dfy`, `ProtocolTheorems.dfy`, `ProtocolStranded.dfy`, `ProtocolRuns.dfy` | worker processes, their goroutines, the table and the cache as a transition system; a run is any sequence of enabled steps |
| `Cache.dfy`, `TimedCache.dfy`, `RateLimit.dfy` | keys with a time to live, the transition system run over them, and the fixed-window limiter over whole request traces |

The loops are methods, proved equal to functions on their inputs; the store, the cache and the limiter
are classes. The theorems are lemmas about those functions, about lists of parts, about runs and about
traces. The transition system changes the table by the same functions (`Inserted`, `Locked`, `WithStatus`,
`WithResult`) to which the store's methods are tied.

A part is either of paragraphs or of sentences of one over-long paragraph, whose place in the text it carries
(`ChunkOrigin.LabelsAreTrue`). Two neighbouring chunks *belong together* if both are of paragraphs or both of
the same over-long paragraph.

A text is a sequence of `Rune`s, one unit a character. The model's answers, the download and the text
extraction are arbitrary outcomes; the hash is a parameter. Times are milliseconds, prices are integers in
units of 10^-8 USD, confidences are exact reals.

## Where the code differs from what is said about it

- `chunker.go:14` says "max characters per chunk". The size check is made before the overlap is put in front
  of the next item, counts one character for a separator of two, and never cuts a sentence.
  `ChunkLimits.SizeBound` is the bound that holds; `ChunkLimits.SizeLimitExactly` says for which
  configurations the documented limit holds on all texts whose paragraphs fit (almost none), and
  `ChunkLimits.SizeLimitNeverGuaranteed` that on all texts it never does.
- `chunker.go:16` says "hard limit on chunk count". Over-long paragraphs are not held to it:
  `ChunkLimits.CountBound`, `ChunkLimits.CountLimitNeverGuaranteed`. Which chunks come out under a cap, when
  more than MaxChunks do, and when the cap loses text, is exact for every text: `ChunkCap.CapExactly`,
  `ChunkCap.CountExceedsExactly`, `ChunkCap.CapLosesTextExactly`. No configuration but a MaxChunkSize of zero
  keeps the text of all texts that are split (`ChunkLoss.TextKeptExactly`).
- `chunker.go:15` says "overlap between consecutive chunks". A chunk opens with an overlap if and only if one is
  configured and it belongs together with the chunk before it (`ChunkTheorems.OverlapExactly`), so there is none
  where an over-long paragraph begins or ends. Without a cap, a text gets an overlap between all its chunks if
  and only if every paragraph fits, or there is at most one (`ChunkOverlap.OverlapEverywhereExactly`). A chunk is nothing but overlap if and only if one is
  configured and the chunk, not of an over-long paragraph itself, stands directly before one
  (`ChunkGreedy.OverlapOnly`). `ChunkLimits.LongInMiddle` gives one text for both, for every configuration with
  an overlap and room for four chunks: a letter, a word that is too long, a letter.
- `chunker.go:113` says that the overlap breaks at a sentence boundary. It does exactly when its window holds
  one (`Packing.OverlapAtSentence`), and then at the latest of the *first* occurrences of each of six
  patterns (`Packing.BestStartExact`).
- `worker_test.go:109-116` expects the `||` in the cache key to prevent collisions. On arbitrary bytes it does
  not (`CacheKey.FrameNotInjective`); on schemas that are JSON texts it does (`JsonText.JsonFrameInjective`).
- `ratelimit.go:16` says "requests per minute". Sixty seconds are held to the limit exactly when they are one
  of the fixed windows (`RateLimit.PerMinuteExactly`); otherwise twice the limit can pass.
- `cache.go:52` says that the counter's time to live is set on first creation. It is set anew on every
  increment.
- Merging results in one go and in two steps is not always the same (`Merge.MergeInTwoSteps` says when).

## Model

| member | source | states |
|---|---|---|
| Runes.TrimKeepsInk | internal/extraction/chunker.go:108 | trimming removes white space only |
| Runes.InkExactly | internal/extraction/chunker.go:186-204 | newlines, spaces and other white space leave no ink, every other character itself |
| Splitting.SplitSentences | internal/extraction/chunker.go:194-219 | the scan finds the sentences: the text cut after each terminator that white space, an upper-case letter or the end follows, trimmed, blanks dropped |
| Splitting.SplitParagraphs | internal/extraction/chunker.go:181-192 | the pieces between blank lines, trimmed, blanks dropped |
| Splitting.SentencesCanonical | internal/extraction/chunker.go:194-219 | sentences keep the text's ink in order, are trimmed and non-empty, hold no sentence end before their last character, and split again into just themselves |
| Splitting.SentencesExactly | internal/extraction/chunker.go:199-216 | the text is cut into non-empty pieces that make it up, exactly between a full stop, exclamation or question mark and white space or an upper-case letter, and the sentences are the pieces that are not blank, trimmed |
| Splitting.KeptExactly | internal/extraction/chunker.go:205-216 | a piece is kept, trimmed, in its place, unless it is blank |
| Splitting.UnsplitIsOneSentence | internal/extraction/chunker.go:203-210 | a trimmed text is its own only sentence if and only if no sentence end lies inside it |
| Splitting.ParagraphsCanonical | internal/extraction/chunker.go:181-192 | paragraphs keep the ink, are trimmed and non-empty, hold no blank line, and split again into just themselves |
| Splitting.ParagraphsExactly | internal/extraction/chunker.go:183-191 | the text is its pieces with two newlines between each two, cut at the first such place every time, and the paragraphs are the pieces that are not blank, trimmed |
| Packing.GetOverlap | internal/extraction/chunker.go:114-145 | the overlap: the whole text if it fits, otherwise its last OverlapSize characters cut back to a sentence or word start |
| Packing.OverlapShape | internal/extraction/chunker.go:114-145 | the overlap is a suffix of at most OverlapSize characters, is the whole text if that fits, and otherwise starts right behind white space unless its window is one unbroken word |
| Packing.OverlapAtSentence | internal/extraction/chunker.go:121-135 | for a text that ends in ink, a cut overlap starts at a sentence if and only if the window holds a sentence start |
| Packing.BestStartExact | internal/extraction/chunker.go:122-131 | the start chosen is the latest among the first occurrences of the six patterns, and -1 only if none occurs |
| Packing.CarryFallback | internal/extraction/chunker.go:137-144 | without a usable sentence start, the overlap starts after the window's first white space, and is the whole window if there is none |
| Packing.OverlapAtStart | internal/extraction/chunker.go:121-135 | where the window's furthest first place of one of the six patterns has text behind it, the overlap begins right there |
| Packing.OverlapAtSpace | internal/extraction/chunker.go:137-144 | where it has none, the overlap begins behind the window's first white space, or is the whole window |
| Packing.PackAll | internal/extraction/chunker.go:150-176 | the sentence loop emits exactly the greedy packer's parts, numbered from the shared counter on |
| Packing.SplitLongParagraph | internal/extraction/chunker.go:148-177 | the same for a whole over-long paragraph, and the counter ends past its chunks |
| Chunking.MakeRoom | internal/extraction/chunker.go:59-72 | an overflowing buffer is emitted, and then either the cap ends the chunking or the buffer opens with the overlap |
| Chunking.PlaceLongParagraph | internal/extraction/chunker.go:75-86 | before an over-long paragraph the buffer is flushed as a chunk of its own, whatever the cap, and then the paragraph's chunks follow |
| Chunking.ChunkText | internal/extraction/chunker.go:40-101 | a text that fits is one chunk, numbered 0, with the text as it stands; for any other, the two nested loops with their shared counter, overlap and cap give the chunks of the specified parts |
| ChunkInvariants.LongParagraphCount | internal/extraction/chunker.go:148-177 | an over-long paragraph gives at least one chunk and at most one per sentence |
| ChunkInvariants.LongParagraphConserved | internal/extraction/chunker.go:148-177 | overlap apart, the chunks of an over-long paragraph hold exactly its sentences, in order |
| ChunkInvariants.ParagraphsConserved | internal/extraction/chunker.go:57-98 | from any state of the paragraph loop on, the fresh items are the first k paragraphs, and all of them unless the cap is reached |
| ChunkInvariants.ParagraphsSized | internal/extraction/chunker.go:57-98 | from any state of the loop on, every part obeys the size bounds of its kind |
| ChunkTheorems.ChunkForm | internal/extraction/chunker.go:57-111 | every chunk is the trim of overlap, separator and fresh items joined by it: two newlines between paragraphs, a space between sentences |
| ChunkTheorems.Conservation | internal/extraction/chunker.go:40-101 | the fresh items of all chunks hold, ignoring white space, exactly the text's first n paragraphs: a prefix of the text, and all of it if fewer than MaxChunks chunks come out |
| ChunkContents.ContentsConserved | internal/extraction/chunker.go:40-101 | for every text: apart from what each chunk repeats of the one before, a suffix of that one and a prefix of its own of at most OverlapSize characters, the contents of the chunks hold the ink of a prefix of the text, and of all of it if the text is not split or the cap is not reached |
| ChunkContents.WithoutOverlap | internal/extraction/chunker.go:40-101 | without overlap the contents, one behind the other, hold that ink |
| ChunkTheorems.ChunkInk | internal/extraction/chunker.go:57-98 | the ink of each chunk is that of its overlap followed by that of its fresh items |
| ChunkTheorems.WellFormed | internal/extraction/chunker.go:52-110 | chunk i has sequence number i across both packers; on the splitting path every chunk is trimmed and non-empty, and there are none if and only if the text is blank |
| ChunkOrigin.LabelsAreTrue | internal/extraction/chunker.go:75-86 | the parts labelled with a paragraph are none, or exactly all parts of that over-long paragraph, next to each other and in order; there are some for every over-long paragraph unless the cap is reached |
| ChunkTheorems.OverlapExactly | internal/extraction/chunker.go:59-81 | the first chunk carries nothing over; a later one carries the overlap of the buffer before it if the two belong together, and nothing otherwise; so it opens with an overlap if and only if they belong together and OverlapSize is not 0 |
| ChunkTheorems.ConsecutiveOverlap | internal/extraction/chunker.go:59-81 | the trimmed overlap that opens a chunk is a suffix of the previous chunk's content and a prefix of its own, at most OverlapSize long, empty if and only if the two do not belong together or no overlap is configured; a chunk without fresh items is nothing else |
| ChunkOverlap.OverlapIfAllFit | internal/extraction/chunker.go:57-72 | if every paragraph fits, every chunk but the first belongs together with the one before it, and opens with an overlap if and only if OverlapSize is not 0 |
| ChunkOverlap.OverlapEverywhereExactly | internal/extraction/chunker.go:15 | with an overlap configured and no cap, every chunk but the first opens with an overlap if and only if every paragraph fits, or there is at most one |
| ChunkLimits.LongInMiddle | internal/extraction/chunker.go:69-86 | for every configuration with an overlap and a cap of at least four, one text whose second chunk is nothing but overlap, and in which neither the over-long paragraph's chunk nor the one after it opens with an overlap |
| ChunkGreedy.OverlapOnly | internal/extraction/chunker.go:75-81 | a chunk holds no new text if and only if an overlap is configured, the chunk is not of an over-long paragraph, and one follows directly |
| ChunkGreedy.ChunksAreFull | internal/extraction/chunker.go:59-72 | between two chunks that belong together, with an overlap or without, the next paragraph, or the next sentence of the same over-long paragraph, would have taken the first one's buffer over the size |
| ChunkGreedy.LongParagraphFull | internal/extraction/chunker.go:153-162 | every chunk of an over-long paragraph but the first begins with a sentence that would have overflowed the one before it, with an overlap or without |
| ChunkLimits.SizeBound | internal/extraction/chunker.go:57-98 | a chunk has at most OverlapSize + 2 + max(MaxChunkSize, longest sentence) characters; at most MaxChunkSize + OverlapSize + 2 if every paragraph fits, and MaxChunkSize + 1 without overlap |
| ChunkLimits.CountBound | internal/extraction/chunker.go:64-98 | at most MaxChunks chunks (one if it is 0) plus the sentences of the over-long paragraphs, plus one if there is an overlap and an over-long paragraph; at most MaxChunks (or one) if every paragraph fits |
| ChunkCap.CapExactly | internal/extraction/chunker.go:64-98 | of the parts a text has without a cap, exactly those up to the first that holds fresh paragraphs and fills the cap come out, but not that one if it is the last of all and the cap was full before it |
| ChunkCap.RaisingAppends | internal/extraction/chunker.go:64-98 | raising MaxChunks only appends parts |
| ChunkCap.CapLosesTextExactly | internal/extraction/chunker.go:64-98 | on the splitting path, all ink comes out if and only if no part of fresh paragraphs fills the cap, except a last one that just fits |
| ChunkCap.CountExceedsExactly | internal/extraction/chunker.go:64-98 | on the splitting path, more than MaxChunks chunks come out if and only if there would be more without a cap, the one that fills the cap does not hold fresh paragraphs, and what follows it is not just one last such chunk |
| ChunkLoss.TextKeptExactly | internal/extraction/chunker.go:64-66 | a configuration keeps all ink of all texts on the splitting path if and only if MaxChunkSize is 0 |
| ChunkLimits.SizeLimitExactly | internal/extraction/chunker.go:14 | all texts whose paragraphs fit stay within MaxChunkSize if and only if it is 0, or at most 2 with no overlap or a cap of at most one |
| ChunkLimits.SizeLimitNeverGuaranteed | internal/extraction/chunker.go:14 | for every configuration some text has a chunk larger than MaxChunkSize |
| ChunkLimits.CountLimitNeverGuaranteed | internal/extraction/chunker.go:16 | for every configuration some text has more than MaxChunks chunks |
| Optimality.GreedyGrouping | internal/extraction/chunker.go:148-177 | without overlap the chunks of an over-long paragraph are consecutive groups of its sentences, each of a single sentence or within MaxChunkSize |
| Optimality.GreedyIsMinimal | internal/extraction/chunker.go:148-177 | and no order-preserving grouping of the sentences into such groups has fewer, whether or not every sentence fits |
| Optimality.FittingSentences | internal/extraction/chunker.go:148-177 | if every sentence fits, every group is within MaxChunkSize |
| Optimality.PackersAgree | internal/extraction/chunker.go:57-98 | where every paragraph fits and the cap is not reached, the outer loop does with paragraphs what the inner one does with sentences, at any OverlapSize |
| Optimality.ParagraphGrouping | internal/extraction/chunker.go:57-98 | without overlap and cap, if every paragraph fits, the chunks are consecutive groups of the paragraphs, each of a single paragraph or within MaxChunkSize + 1 |
| Optimality.ParagraphsAreMinimal | internal/extraction/chunker.go:57-98 | and no order-preserving grouping of the paragraphs into such groups has fewer |
| Optimality.StaysAhead | internal/extraction/chunker.go:153-168 | from any state of either loop on, the greedy packer needs no more groups than any grouping has left |
| Optimality.ChunksRejoin | internal/extraction/chunker.go:148-177 | without overlap, joining the chunks with a space gives the sentences joined with a space |
| CacheKey.QuoteParity | internal/jobs/worker.go:294-300 | no byte string is lexically valid JSON both from outside a string and from inside one |
| CacheKey.SeparatorIsInString | internal/jobs/worker.go:294-300 | in a lexically valid text, two bars begin and end inside a string, and the rest leads out of it |
| CacheKey.CollisionShape | internal/jobs/worker.go:294-300 | on arbitrary bytes two different splits collide if and only if one is the other shifted over a separator or one bar |
| CacheKey.FrameNotInjective | internal/jobs/worker.go:294-300 | such collisions exist |
| CacheKey.FrameInjective | internal/jobs/worker.go:294-300 | on all documents and all lexically valid schemas the framing is injective |
| JsonText.JsonIsLexical | internal/api/schema.go:14-18 | every JSON text by the grammar of RFC 8259, with any white space, is lexically valid |
| JsonText.JsonFrameInjective | internal/jobs/worker.go:294-300 | so for all documents and all schemas that are JSON texts, document and schema can be told apart in what is hashed |
| JsonText.ObjectOfOne | internal/api/schema.go:14-18 | an object of one member with a plain name and any JSON text as its value is a JSON object |
| JsonText.SchemaIsObject | internal/api/schema.go:17-41 | a schema with one property and its type is one |
| Merge.Visit | internal/jobs/worker.go:249-272 | one value of one result: null changes nothing, the first value is kept, a later array of an array property is appended to an earlier one, anything else is dropped, and no other key changes |
| Merge.MergeOne | internal/jobs/worker.go:248-274 | the keys of one result, iterated in any order, lead to the same maps |
| Merge.MergeResults | internal/jobs/worker.go:239-290 | for every order of iterating the maps, and on the schema value itself: a merged key has its first non-null value, except that for a property declared an array whose first value is one it has the items of all its arrays in order; the declared properties have confidence 0 without a value, 0.75 with one and 1 with more |
| Merge.MergeInTwoSteps | internal/jobs/worker.go:248-274 | merging two partial merges equals merging everything if and only if no array property drops items because the second part begins with something else than an array |
| Merge.CleanArraysMerge | internal/jobs/worker.go:248-274 | it always does if array properties hold only null or arrays |
| Merge.MergeGrows | internal/jobs/worker.go:248-287 | adding results removes no field and lowers no confidence, adds up occurrences, leaves fields that are no array property as they are and only appends to arrays |
| Merge.ZeroMeansMissing | internal/jobs/worker.go:277-287 | confidence is 0 if and only if the field is missing, and no merged field is null |
| Router.HasNestedStructures | internal/llm/router.go:228-248 | true if and only if some property is declared an array or an object, in any order of looking |
| Router.SelectTier | internal/llm/router.go:101-112 | the strong model first if and only if the schema declares more properties than the threshold, or one as an array or object, or the chunk is longer than 3000 |
| Router.ValidateResponse | internal/llm/router.go:161-184 | accepts if and only if every required name is a key of the answer; null counts, entries that are no strings are skipped |
| Router.Extract | internal/llm/router.go:55-99 | against any model: one to maxRetries + 1 calls, the first to the tier the request needs, all others to the strong model, all but the last useless; the result is the last answer's fields and tokens under the tier that gave it, and an error only if all maxRetries + 1 answers were useless |
| Router.ExtractionUnique | internal/llm/router.go:55-99 | that description leaves exactly one sequence of calls and one result |
| Router.FastAtMostOnce | internal/llm/router.go:55-99 | in every extraction the fast model is called at most once and only first, exactly if the request is simple; after a strong call comes no fast one; the response reports the tier called last |
| Pipeline.ExtractChunks | internal/jobs/worker.go:169-196 | the loop makes one extraction per chunk in order, with the length of that chunk's content deciding on the tier, skips failed ones, and its results, tokens, cost and last tier are those of the successful responses only |
| Pipeline.SumsExactly | internal/jobs/worker.go:186-195 | one more response adds its fields, its tokens, 250 and 1000 units a token if it is strong or 15 and 60 if not, and its tier |
| Pipeline.SuccessesExactly | internal/jobs/worker.go:177-183 | a failed chunk adds nothing and a successful one its response, in order |
| Pipeline.CallBound | internal/jobs/worker.go:169-189 | a job makes at most chunks x (maxRetries + 1) calls, and at most one fast call per chunk |
| Pipeline.TextCallBound | internal/jobs/worker.go:154-189 | the number of calls is bounded by the text and the configuration |
| Pipeline.CostBounds | internal/jobs/worker.go:191-195 | the cost lies between all tokens priced fast and all priced strong, which are in the ratio 3 to 50, and exceeds the lower end by the strong model's tokens only |
| Pipeline.ProcessText | internal/jobs/worker.go:139-223 | from text to result: no text or no successful chunk fails the job; otherwise it records the merge, the confidences, the last tier used and the cost of the successful responses |
| JobStore.Store.Create | internal/database/job_store.go:23-34 | a new job is a pending row with what it was given, an id is used once, and a failed insert changes nothing |
| JobStore.Store.SelectForUpdate | internal/database/job_store.go:104-112 | locks a pending, unlocked row that no other such row is older than, or nothing if there is none |
| JobStore.Store.ClaimNext | internal/database/job_store.go:97-130 | the oldest claimable job moves to ingesting, or the table is unchanged; nothing and no error exactly if nothing is claimable or the query fails; a commit that goes through unheard strands the job |
| JobStore.Store.UpdateStatus | internal/database/job_store.go:132-134 | writes the status of that row whatever it was and leaves all else alone, or changes nothing if the write is lost |
| JobStore.Store.Fail | internal/database/job_store.go:136-138 | the same for failed |
| JobStore.Store.Complete | internal/database/job_store.go:140-157 | without a loss the row is completed with that result, everything else about it and all other rows and locks are as before; a lost write is reported |
| JobTable.RankOrder | internal/jobs/worker.go:137-204 | the statuses rank in the order of the pipeline, and completed and failed are the terminal ones |
| ProtocolInvariants.StepOwned | internal/jobs/worker.go:82-107 | every step of every process keeps ownership, and moves rows only forward |
| ProtocolTheorems.ClaimsAreExclusive | internal/database/job_store.go:97-130 | in every run no two places work on one job, every goroutine's job is claimed and unfinished, and the claims are the jobs that left pending, each once |
| ProtocolTheorems.NeverBack | internal/jobs/worker.go:111-235 | between any two moments of a run no job's rank falls, even when status writes are lost, and no terminal row changes |
| ProtocolStranded.StrandedForever | internal/jobs/worker.go:82-107 | a claimed job that no place works on stays so in every run, and its row never changes again |
| ProtocolStranded.UnheardStrands | internal/database/job_store.go:124-126 | a claim whose commit goes through but is reported as failed leaves its job ingesting for good |
| ProtocolStranded.CrashStrands | internal/jobs/worker.go:82-107 | a process that dies leaves every job it has claimed and not finished as it is, for good |
| ProtocolTheorems.HitIsJustified | internal/jobs/worker.go:122-133 | with an injective hash, what lies under a job's key was merged for its very document and schema |
| ProtocolTheorems.HitsAgree | internal/jobs/worker.go:302-317 | in every run, with any evictions, a cache hit serves the result of an earlier merge for the identical document and schema |
| ProtocolTheorems.ResultsAgree | internal/jobs/worker.go:206-224 | a completed job's result, cached or not, is the merge of some non-empty list of results made for its own document and schema |
| ProtocolRuns.SubmitEnabled | internal/api/schema.go:14-18 | every JSON object is accepted as a schema under a fresh id, as a pending row |
| ProtocolRuns.JobCompletes | internal/jobs/worker.go:111-224 | from every state with a free worker and a claimable job there is a run in which the job goes through all statuses in order and is completed with the merge of any given answers, which is then cached under its key |
| ProtocolRuns.JobServed | internal/jobs/worker.go:122-133 | with an entry under its key, a job can be completed with exactly that entry straight from ingesting |
| ProtocolRuns.JobFails | internal/jobs/worker.go:100-106 | a job whose download fails can be failed, with nothing else changed |
| ProtocolRuns.SomeJobCompletes | internal/jobs/worker.go:65-224 | so from the beginning there is a run to a completed job, for every document, schema and list of answers |
| ProtocolRuns.CompletionIsRecorded | internal/database/job_store.go:146-153 | in every reachable state, a completing goroutine leaves its job completed with the result it held, and no other row changed |
| ProtocolRuns.StatusStep | internal/jobs/worker.go:137-204 | each status write writes the status of its stage, or nothing if it is lost, and goes on to the next stage |
| ProtocolRuns.IdleStops | internal/jobs/worker.go:72-78 | an idle worker can always drain and stop |
| ProtocolTheorems.StepProvenance | internal/jobs/worker.go:122-224 | every step keeps where rows, cache entries and goroutines have their results from |
| ProtocolTheorems.SemaphoreHolds | internal/jobs/worker.go:68-108 | a process runs at most Concurrency jobs, holds at most one claimed job more, and has none left once Run has returned |
| Cache.RedisCache.Get | internal/cache/cache.go:34-43 | finds exactly the live value of the key, misses if there is none, and is unavailable on an error |
| Cache.RedisCache.Set | internal/cache/cache.go:45-50 | stores the value with its expiry, and no other key changes; an error may come before or after |
| Cache.RedisCache.RateIncr | internal/cache/cache.go:54-62 | counts live increments of the key, refreshes its expiry, and hides the count on an error |
| Cache.SetThenGet | internal/cache/cache.go:34-50 | a value that was set is found until its time to live is over and missed from then on |
| Cache.IncrThenCount | internal/cache/cache.go:54-62 | an increment counts one more for one window, after which the count starts again |
| TimedCache.TimePasses | internal/cache/cache.go:34-50 | what expiry takes from the timed store as time passes, a run of evictions takes from the cache of the transition system, and nothing else changes |
| TimedCache.GetIsLookUp | internal/jobs/worker.go:302-311 | a timed `Get` is a lookup step that hits exactly if a live value is found; an error counts as a miss |
| TimedCache.SetIsStore | internal/jobs/worker.go:313-317 | a timed `Set` is a store step, lost exactly if the error comes before its effect |
| TimedCache.TimedRunRefines | internal/jobs/worker.go:302-317 | for every run over the timed store, with any waiting and any Redis errors, some run of the transition system comes to the same state, with the live keys as its cache |
| TimedCache.TimedHitsAgree | internal/jobs/worker.go:122-133 | in every timed run, what a `Get` finds was merged earlier for the identical document and schema |
| RateLimit.RateLimiter.Handle | internal/api/middleware/ratelimit.go:18-48 | serves without a tenant and on a Redis error, otherwise while the count is within the limit |
| RateLimit.CounterExact | internal/api/middleware/ratelimit.go:27-30 | in every monotone trace a key never expires inside its own window: its counter holds exactly the increments that took effect |
| RateLimit.ServedExactly | internal/api/middleware/ratelimit.go:30-45 | a request is served if and only if it has no tenant, Redis fails, or it is within the limit among its tenant's increments of the window |
| RateLimit.WindowLimit | internal/api/middleware/ratelimit.go:27-45 | per tenant and window at most the limit plus the Redis errors are served; without errors exactly the smaller of limit and requests |
| RateLimit.SpanLimit | internal/api/middleware/ratelimit.go:27-45 | any sixty seconds serve at most twice the limit plus the errors |
| RateLimit.PerMinuteExactly | internal/api/middleware/ratelimit.go:16-17 | sixty seconds are held to the limit in all traces if and only if they are a fixed window or the limit is not positive |
| RateLimit.TenantsAreIndependent | internal/api/middleware/ratelimit.go:27-28 | a request's fate depends on the earlier requests of its own tenant only |

## Left out

- HTTP handlers, routing, authentication, logging, the front end, configuration loading, migrations, job listing, and object storage: plumbing with one-branch claims.
- Calls to OpenAI, prompts, and text extraction with external programs: outcomes of an oracle.
- Webhook delivery: a fixed number of attempts on a context that ends with the job.
- SHA-256: the hash is a parameter, taken as injective where a theorem says so; UUIDs are numbers.
- Bytes against runes: the code measures and slices bytes but splits sentences over runes; here both are units of one alphabet, so slicing inside a multi-byte character is not captured.
- Chunk ids, job ids and statuses inside a chunk: constants of the call.
- Negative MaxChunkSize, OverlapSize or MaxChunks.
- ChunkCap.CountExceedsExactly: a MaxChunks of zero; likewise the claim of ChunkTheorems.WellFormed about blank texts.
- Floating point: costs are integers and confidences exact values, so rounding is not captured.
- JSON text: schemas and answers are decoded values whose numbers are integers. The grammar of JSON texts serves the framing only; that a text decodes to a value is an arbitrary function of its bytes, and the well-formedness of UTF-8 inside strings is not looked at.
- An answer of JSON null, which decodes to no fields at all, is an answer without fields.
- Chunking.PlaceLongParagraph: a branch of `Chunk` written as a method of its own, as are `MakeRoom`, `Place`, `Finish` and the emission and writing steps; the loops and their order are the code's, except that a full cap returns at once where the code leaves the loop and finds the cap full.
- Pipeline.ProcessText: leaves out the status writes, the cache and the wall clock, which the transition system has.
- Protocol: concurrency is a transition system over values, not threads over objects; steps of the database and of Redis are atomic. Errors and timeouts may happen at any step that can report one; a process may die at any moment, and its late writes are not modelled.
- Protocol: a `Complete`, `Fail` or `UpdateStatus` that reports an error is taken to have had no effect, while a claim's commit that reports an error may have had one. With a `Complete` that took effect and still reported an error, the `Fail` that follows it would leave a terminal status.
- Liveness: that a job is ever finished, beyond the stranded ones, which never are; `Fail` runs on a context that may be cancelled.
- Job rows: the columns for confidence, model, cost, error message and completion time; the tenant; and who may read them.
- JobStore.Store.SelectForUpdate: the engine's query is a search over the rows; ties in `created_at` are broken in any way. The transition system lets a claim take any claimable job, so its theorems do not depend on the order.
- RateLimit: computing the window and incrementing the counter are one step at one time, and Redis keeps the same clock as the server.
- System: the fields `owner`, `claims` and `assembled` are history for the theorems; no step's enabling looks at them.
