# spacy-llm `llm` component, modelled in Dafny

This project models `LLMWrapper`, the spaCy pipeline component of spacy-llm
that runs a task through a large language model:

- `_process_docs` processes one batch of docs. It asks the cache which docs
  it already holds. It sends only the other docs (the *misses*), in order,
  through the task's `generate_prompts`, the backend and the task's
  `parse_responses`. It then rebuilds the batch in its original order: a hit
  takes the cached doc, and a miss takes the next parsed doc. Each parsed doc
  is added to the cache. With `save_io`, its prompt and response are written
  into `doc.user_data["llm_io"][name]`.
- `__call__` processes a batch of one doc.
- `pipe` cuts a stream into minibatches and processes them one by one. It
  yields each successful batch's docs and hands each failing batch to the
  error handler, which either suppresses the failure or raises.
- `score` delegates to the task's scorer when the task has one.
- The `llm` factory refuses a missing task.

Files:

- `types.dfy` (`LlmTypes`) defines docs, user data, errors and lazy sequences.
  It also gives the task, the backend and the error handler as function
  values.
- `cache.dfy` (`DocCache`) defines the cache as a class over a key-to-doc
  map, and `AddAll`, a sequence of `add` calls.
- `journal.dfy` (`Journal`) defines the `llm_io` write for one doc.
- `batch.dfy` (`Batch`) specifies `_process_docs` declaratively.
  - `Misses` lists the docs not in the cache.
  - `Rank` counts the misses before a position.
  - `MissStep` is what the k-th miss does.
  - `FirstFailure` finds the first miss step that raises.
  - `Reassemble` and `ProcessBatch` give the batch's outcome.
  - `Walk` is the reassembly loop written as a recursive function, and
    `WalkIsReassemble` proves that it equals `Reassemble`.
- `batch_laws.dfy` (`BatchLaws`) proves what a batch guarantees:
  - output order
  - hits served from the cache
  - the k-th miss paired with the k-th parsed doc, prompt and response
  - the cache writes
  - what a failure part-way through leaves behind
- `stream.dfy` (`StreamSpec`) specifies `pipe` over any batch processor.
  Its laws cover batch-by-batch extension, a raise ending the stream,
  suppression, accounting for every doc, and order.
- `llm.dfy` (`Llm`) is the component itself: a class whose methods mutate
  the shared cache and are proved equal to the specification functions.

Docs are values. The cache key of a doc is its text. The task, the backend
and the handler are parameters: the model states what the component does
with whatever they return.

Failure behaviour worth knowing:

- **Reassembly errors.** Besides the task and the backend, the reassembly
  loop itself can raise:
  - `next(modified_docs)` raises `StopIteration` when the task parses fewer
    docs than there are misses, or raises whatever the parse stream raises;
  - with `save_io`, `next(saved_prompts)` or `next(saved_responses)` can be
    exhausted (`StopIteration`);
  - `user_data["llm_io"]` can be a value that is not a mapping
    (`TypeError`); `llm_io[name]` can be missing from a plain dict
    (`KeyError`) or be a value that refuses item assignment (`TypeError`).
- **Partial writes.** The misses before the failing one stay in the cache,
  so a batch is not atomic. `FailureLeavesPrefix` and `PartialWriteExample`
  state this.
- **Cache hits.** A hit receives the cache entry as it is at its turn in the
  loop, not as it was before the batch. The two agree when the task keeps
  each doc's key (`HitServedFromCache`).
- **`StopIteration` out of `pipe`.** `pipe` is a generator, so when the
  error handler re-raises a `StopIteration` the stream ends with
  `RuntimeError("generator raised StopIteration")` (PEP 479).
  `ReraisedStopIterationExample` shows a one-doc stream where this happens.
- **Batch size.** The code does not check it. The model takes a `nat`, and
  `spacy.util.minibatch` with size 0 yields no batch at all.

## Model

| member | source | states |
|---|---|---|
| Llm.LLMWrapper.constructor | spacy_llm/pipeline/llm.py:86-113 | the component holds the name (`"LLMWrapper"` by default), task, backend, cache and `save_io` it was given |
| Llm.LLMWrapper.ProcessDocs | spacy_llm/pipeline/llm.py:159-204 | the returned docs or error, and the cache afterwards, are exactly `ProcessBatch` of the batch from the cache as it was |
| Llm.LLMWrapper.Reassembly | spacy_llm/pipeline/llm.py:183-204 | the loop over the original positions computes `Walk` from the start: hits read the cache, misses take the next parsed doc, and the loop stops at the first raise |
| Llm.LLMWrapper.TakeMiss | spacy_llm/pipeline/llm.py:191-202 | the k-th parsed doc is added to the cache under its key, and the result is `MissStep`'s output for step k |
| Llm.LLMWrapper.Call | spacy_llm/pipeline/llm.py:121-129 | a single doc is processed as a batch of one; the result is that batch's only doc or its error, and the cache ends as after that batch |
| Llm.LLMWrapper.Score | spacy_llm/pipeline/llm.py:141-143 | the task's scorer applied to the examples when the task can score, else no scores |
| Llm.LLMWrapper.Pipe | spacy_llm/pipeline/llm.py:145-157 | the yielded docs, how the stream ends, the handler calls and the final cache are exactly `RunBatches` over the minibatches (128 docs by default) with the component's own batch processing |
| Llm.MakeLLM | spacy_llm/pipeline/llm.py:66-80 | fails with the `ValueError` message exactly when the task is missing; otherwise the component holds the given name, task, backend, cache and `save_io` |
| DocCache.Cache.Contains | spacy_llm/pipeline/llm.py:167 | `doc in cache` is true exactly when the doc's key is stored |
| DocCache.Cache.Get | spacy_llm/pipeline/llm.py:187-188 | `cache[doc]` yields a doc exactly when the key is stored; the doc is the stored one and has the looked-up key |
| DocCache.Cache.Add | spacy_llm/pipeline/llm.py:192 | `cache.add` stores the doc under its key, replaces an older entry, and keeps every entry under its own key |
| DocCache.AddAll | spacy_llm/pipeline/llm.py:192 | adding docs one after another gains exactly their keys and leaves every other key's entry unchanged |
| DocCache.AddAllLastWriter | spacy_llm/pipeline/llm.py:192 | after a run of adds, a key holds the last doc added under it |
| DocCache.AddAllWellKeyed | spacy_llm/pipeline/llm.py:192 | adds keep every stored doc under its own key |
| DocCache.AddAllPrefix | spacy_llm/pipeline/llm.py:192 | adding one more doc is one more map update |
| Journal.RecordExchange | spacy_llm/pipeline/llm.py:195-202 | succeeds exactly when the `llm_io[name]` lookup succeeds, its entry takes item assignment and a prompt and a response remain; a failed lookup raises something other than `StopIteration`; then an exhausted prompt iterator raises `StopIteration`, an entry that is not a mapping raises `TypeError`, and an exhausted response iterator raises `StopIteration`, in that order |
| Journal.RecordExchangeRecords | spacy_llm/pipeline/llm.py:195-202 | a successful write stores the prompt and the response in the component's entry, keeps that entry's other fields, the other components' entries and the rest of the doc, and creates `llm_io` when absent |
| Batch.Misses | spacy_llm/pipeline/llm.py:168 | the non-cached docs are no more than the batch and contain no cache hit (their order and origin are stated by `MissPosition` and `MissSource`) |
| Batch.MissPosition | spacy_llm/pipeline/llm.py:168 | the miss at position i is the `Rank(i)`-th doc handed to the task |
| Batch.MissSource | spacy_llm/pipeline/llm.py:168 | conversely, the k-th doc handed to the task is a miss at a position with exactly k misses before it |
| Batch.NoMissesIffAllHits | spacy_llm/pipeline/llm.py:170 | the task and the backend are skipped exactly when every doc is a cache hit |
| Batch.Query | spacy_llm/pipeline/llm.py:171-181 | the misses go to `generate_prompts`, those prompts to the backend, and the misses with the responses to `parse_responses`; it succeeds exactly when the first two do, and otherwise the task's error comes before the backend's (which then is never called) |
| Batch.ExchangeOf | spacy_llm/pipeline/llm.py:168-181 | no exchange at all when every doc is a hit (neither the task nor the backend is called), else `Query` over the misses |
| Batch.RankMonotone | spacy_llm/pipeline/llm.py:185-193 | the count of parsed docs taken never decreases along the batch |
| Batch.At | spacy_llm/pipeline/llm.py:201-202 | `next` on a materialised iterator gives the k-th item exactly when there is one |
| Batch.MissStep | spacy_llm/pipeline/llm.py:191-202 | the k-th miss adds a doc to the cache exactly when a k-th parsed doc exists; otherwise it raises what the exhausted parse stream raises; without `save_io` it outputs that parsed doc |
| Batch.MissStepJournal | spacy_llm/pipeline/llm.py:195-202 | with `save_io`, the k-th miss succeeds exactly when its doc can take a record and a k-th prompt and response exist, and then its doc carries them |
| Batch.FirstFailure | spacy_llm/pipeline/llm.py:185-202 | finds no raising step exactly when all miss steps succeed; otherwise it names the earliest step that raises |
| Batch.FirstFailureIs | spacy_llm/pipeline/llm.py:185-202 | a step that raises after only successful steps is the first failure |
| Batch.Outputs | spacy_llm/pipeline/llm.py:183-193 | while no miss step has raised, the output holds one doc per position visited |
| Batch.OutputsAt | spacy_llm/pipeline/llm.py:185-193 | the output at position j is the hit's cached doc or the miss step's doc for that position |
| Batch.HitAdvance | spacy_llm/pipeline/llm.py:186-189 | a hit takes no parsed doc and appends what the cache holds for its key after the earlier misses were written |
| Batch.MissAdvance | spacy_llm/pipeline/llm.py:190-193 | a successful miss takes one parsed doc and appends its step's doc |
| Batch.MissFails | spacy_llm/pipeline/llm.py:190-202 | a miss whose step is the first to raise ends the batch with that error; the cache keeps the parsed docs written so far |
| Batch.ReassembleFailsAt | spacy_llm/pipeline/llm.py:185-202 | the first raising miss step decides the error and how many parsed docs reached the cache |
| Batch.ReassembleSucceeds | spacy_llm/pipeline/llm.py:183-204 | when every miss step succeeds, every miss consumed its parsed doc, and the result is the per-position outputs with all of them written to the cache |
| Batch.Reassemble | spacy_llm/pipeline/llm.py:183-204 | the reassembly succeeds exactly when every miss step does, then with one output per input doc; the cache only gains keys |
| Batch.Walk | spacy_llm/pipeline/llm.py:183-204 | the loop only ever adds keys to the cache |
| Batch.StateAt | spacy_llm/pipeline/llm.py:183-204 | the state the loop must hold at position i keeps every key the cache had |
| Batch.WalkHit | spacy_llm/pipeline/llm.py:186-189 | a hit step of the loop keeps the loop on its predicted course |
| Batch.WalkMiss | spacy_llm/pipeline/llm.py:190-202 | a successful miss step of the loop keeps the loop on its predicted course |
| Batch.WalkFails | spacy_llm/pipeline/llm.py:190-202 | a raising miss step of the loop ends it where `Reassemble` says |
| Batch.WalkEnds | spacy_llm/pipeline/llm.py:204 | the loop that reaches the end returns what `Reassemble` says |
| Batch.WalkFrom | spacy_llm/pipeline/llm.py:183-204 | from any predicted state, the loop ends where `Reassemble` says |
| Batch.WalkIsReassemble | spacy_llm/pipeline/llm.py:183-204 | the reassembly loop computes the declarative reassembly |
| Batch.ProcessBatch | spacy_llm/pipeline/llm.py:159-204 | a successful batch keeps its length; the cache only gains keys; a batch of only hits always succeeds, leaves the cache as it was and never calls the task or the backend |
| BatchLaws.SuccessShape | spacy_llm/pipeline/llm.py:170-204 | a successful batch consumed one parsed doc per miss, and the cache gained exactly those, in order |
| BatchLaws.OutputAtPosition | spacy_llm/pipeline/llm.py:183-204 | output position i holds what position i of the reassembly produced |
| BatchLaws.HitServedFromCache | spacy_llm/pipeline/llm.py:186-189 | with a task that keeps each doc's key, a cache hit receives exactly the doc the cache held before the batch |
| BatchLaws.MissGetsKthParsed | spacy_llm/pipeline/llm.py:168-202 | the k-th miss receives the k-th parsed doc; with `save_io` it carries the k-th prompt and the k-th response, and nothing else changes |
| BatchLaws.CacheWritesOnePerMiss | spacy_llm/pipeline/llm.py:190-193 | a successful batch adds one parsed doc per miss, in order, and none for a hit; a parsed doc not overwritten later is what the cache returns for its key |
| BatchLaws.CacheGainsMissKeys | spacy_llm/pipeline/llm.py:190-193 | with a key-keeping task, the cache gains exactly the misses' keys and keeps every earlier entry |
| BatchLaws.ParsedKeysAreInputKeys | spacy_llm/pipeline/llm.py:179-181 | a key-keeping task's parsed docs carry exactly the keys of the docs it was given |
| BatchLaws.FailureLeavesPrefix | spacy_llm/pipeline/llm.py:170-202 | a failure in the task or the backend leaves the cache untouched; a failure while reassembling leaves the first w parsed docs written |
| BatchLaws.PartialWriteExample | spacy_llm/pipeline/llm.py:190-193 | a two-doc batch whose parse stream raises after one doc ends with that error and one cache write: the batch is not atomic |
| BatchLaws.OutputKeysFollowInput | spacy_llm/pipeline/llm.py:183-204 | with a well-keyed cache and a key-keeping task, output i has the key of input i |
| BatchLaws.MissKey | spacy_llm/pipeline/llm.py:190-193 | a miss's output has its input's key under a key-keeping task |
| BatchLaws.ParsedKey | spacy_llm/pipeline/llm.py:179-181 | the k-th parsed doc has the k-th miss's key under a key-keeping task |
| BatchLaws.HitKey | spacy_llm/pipeline/llm.py:186-189 | a hit's output has its input's key when the cache is well keyed |
| BatchLaws.BatchKeepsCacheWellKeyed | spacy_llm/pipeline/llm.py:159-204 | whatever happens, every cached doc stays under its own key |
| BatchLaws.RerunIsAllHits | spacy_llm/pipeline/llm.py:167-170 | after a successful batch, running it again finds only hits and never calls the task or the backend |
| StreamSpec.Minibatch | spacy_llm/pipeline/llm.py:153 | the batches concatenate back to the stream; each is non-empty and at most the size, and all but the last are full; size 0 gives no batch |
| StreamSpec.ProcessorOf | spacy_llm/pipeline/llm.py:155 | the processor `pipe` uses on each batch is `_process_docs` |
| StreamSpec.RunBatches | spacy_llm/pipeline/llm.py:153-157 | the handler is called no more times than there are batches, and the stream never ends with `StopIteration` |
| StreamSpec.RunBatchesSnoc | spacy_llm/pipeline/llm.py:153-157 | one more batch after a stream that has not raised only appends its docs, or its handler call and the handler's decision |
| StreamSpec.RaisedStops | spacy_llm/pipeline/llm.py:156-157 | once the handler raises, later batches are never processed |
| StreamSpec.SuppressedBatchYieldsNothing | spacy_llm/pipeline/llm.py:156-157 | a failing batch whose failure is suppressed yields nothing; the stream goes on and the call is logged |
| StreamSpec.ComponentKeepsLength | spacy_llm/pipeline/llm.py:155 | the component's batches come back one doc per input doc |
| StreamSpec.EveryDocAccounted | spacy_llm/pipeline/llm.py:153-157 | in number, the yielded docs and the docs of the batches handed to the handler make up at most the input, and exactly the input when the stream did not raise (which docs they are: `StreamSplitsByOutcome`) |
| StreamSpec.SuppressingHandlerNeverRaises | spacy_llm/pipeline/llm.py:156-157 | a handler that always returns never ends the stream early |
| StreamSpec.KeysSeqAppend | spacy_llm/pipeline/llm.py:155 | the keys of concatenated docs are the concatenated keys |
| StreamSpec.StreamOrderPreserved | spacy_llm/pipeline/llm.py:153-155 | when no batch failed, the i-th yielded doc has the key of the i-th streamed doc |
| StreamSpec.Escaping | spacy_llm/pipeline/llm.py:145-157 | an exception leaving the `pipe` generator is never `StopIteration`: that one becomes the `RuntimeError` of PEP 479, anything else passes unchanged |
| StreamSpec.ReraisedStopIterationExample | spacy_llm/pipeline/llm.py:155-157 | a one-doc stream whose task parses nothing, with a handler that re-raises, ends with the `RuntimeError` and yields nothing |
| StreamSpec.Select | spacy_llm/pipeline/llm.py:153-157 | picking batches by their flag never yields more batches than given |
| StreamSpec.FailedBatches | spacy_llm/pipeline/llm.py:157 | the batches the handler was called with, one per call, in call order |
| StreamSpec.ComponentKeepsKeys | spacy_llm/pipeline/llm.py:159-204 | with a key-keeping task, a successful batch yields its input keys in order and the cache stays well keyed on every path |
| StreamSpec.SelectCons | spacy_llm/pipeline/llm.py:153 | selecting from batches peels off the first batch |
| StreamSpec.SplitAfterSuccess | spacy_llm/pipeline/llm.py:155 | a successful first batch puts its keys first and leaves the handler calls as the rest's |
| StreamSpec.SplitAfterSuppressed | spacy_llm/pipeline/llm.py:156-157 | a suppressed first batch is the first handler call and yields nothing |
| StreamSpec.SplitAfterRaised | spacy_llm/pipeline/llm.py:156-157 | a first batch on which the handler raises is the only batch processed and yields nothing |
| StreamSpec.StreamSplitsByOutcome | spacy_llm/pipeline/llm.py:153-157 | with key-keeping batch processing, the processed batches split into failed and successful ones: the handler saw exactly the failed batches, in order; the yielded docs carry the keys of exactly the successful batches' docs, in order; every batch was processed unless the stream raised, and then it stopped at a failed batch |
| StreamSpec.PipeSplitsByOutcome | spacy_llm/pipeline/llm.py:145-157 | the same split for the component's own `pipe` with a key-keeping task |

## Left out

- Serialization (`to_bytes`, `from_bytes`, `to_disk`, `from_disk`, llm.py:206-283) is not modelled. It only forwards to the task's and the backend's own serializers.
- `validate_types` (llm.py:71) is left out. It is a type check on foreign objects and is not part of the component's behaviour.
- The `Language.factory` registration and its default config (llm.py:26-46) are left out. The REST backend and the cache config defaults belong to other parts of the library.
- Attaching the task's `initialize` hook (llm.py:118-119) is left out. It is a spaCy lifecycle hook.
- The cache's vocab binding (llm.py:112) is left out. So are the cache's paging, batching and disk storage.
- Laziness is not modelled:
  - prompts and responses are produced in full before reassembly, so a task or backend that raises part-way through its stream fails before any cache write;
  - `tee` is modelled as handing the same items to the journal;
  - the parsed docs are a prefix followed by a normal end or a raise.
- A consumer that stops reading `pipe`'s generator early is not modelled; `Pipe` runs the stream to its end.
- Llm.LLMWrapper.TakeMiss: does not model aliasing. The cache stores the parsed doc before its `llm_io` entry is written, whereas in Python the cached object and the output are the same object, so the cached doc also shows the record.
- Journal.RecordExchange: `str()` of a prompt or a response is taken as the identity, because prompts and responses are modelled as strings.
- Journal.RecordExchange: a failure after the prompt was assigned (the response iterator is exhausted) leaves the prompt in the doc in Python; the model returns only the error, and the doc is not seen again except through the aliasing the model leaves out.
- StreamSpec.RunBatches: the handler is called without the component instance (`self`), which the handler receives but which only matters to the handler's foreign code.
- StreamSpec.Minibatch: a negative batch size is excluded by the `nat` type; `minibatch` raises for it in spaCy.
- The cache key is modelled as the doc's text. The real cache fingerprints the doc.
- The `assert cached_doc is not None` at llm.py:188 cannot fail in the model, because `Cache.Get` agrees with `Cache.Contains` and nothing removes entries while a batch runs.
- The `assert isinstance(docs[0], Doc)` at llm.py:128 is not modelled: every output is a `Doc` by its type.
