/** The `llm` pipeline component: a wrapper around a task, a backend and a
    shared doc cache. Its methods do what `Batch` and `StreamSpec` specify. */
module Llm {
  import opened LlmTypes
  import opened DocCache
  import opened Journal
  import opened Batch
  import opened StreamSpec

  const MissingTaskMessage := "Argument `task` has not been specified, but is required (e. g. {'@llm_tasks': 'spacy.NER.v2'})."

  /** The component's name when none is given. */
  const DefaultName := "LLMWrapper"

  /** How many docs `pipe` buffers per batch when not told otherwise. */
  const DefaultBatchSize := 128

  class LLMWrapper {
    const name: string
    const task: Task
    const backend: Backend
    const cache: Cache
    const saveIo: bool

    constructor (name: string := DefaultName, task: Task, backend: Backend, cache: Cache, saveIo: bool)
      ensures this.name == name && this.task == task && this.backend == backend
      ensures this.cache == cache && this.saveIo == saveIo
    {
      this.name := name;
      this.task := task;
      this.backend := backend;
      this.cache := cache;
      this.saveIo := saveIo;
    }

    /** `_process_docs`: processes one batch, sending only the docs the
        cache does not hold to the task and the backend. */
    method ProcessDocs(docs: seq<Doc>) returns (r: Result<seq<Doc>>)
      modifies cache
      ensures BatchOutcome(r, cache.entries) == ProcessBatch(docs, old(cache.entries), task, backend, name, saveIo)
    {
      ghost var entries := cache.entries;

      // is_cached
      var isCached: seq<bool> := [];
      var i := 0;
      while i < |docs|
        invariant 0 <= i <= |docs| && |isCached| == i
        invariant cache.entries == entries
        invariant forall j :: 0 <= j < i ==> (isCached[j] <==> IsHit(entries, docs[j]))
      {
        var hit := cache.Contains(docs[i]);
        isCached := isCached + [hit];
        i := i + 1;
      }

      // noncached_doc_batch
      var misses: seq<Doc> := [];
      i := 0;
      while i < |docs|
        invariant 0 <= i <= |docs|
        invariant misses == Misses(docs[..i], entries)
      {
        assert docs[..i + 1][..i] == docs[..i];
        if !isCached[i] {
          misses := misses + [docs[i]];
        }
        i := i + 1;
      }
      assert docs[..|docs|] == docs;

      var x := NoExchange;
      if misses != [] {
        var prompts := task.generatePrompts(misses);
        if prompts.Err? {
          r := Err(prompts.error);
          assert ExchangeOf(docs, entries, task, backend) == Err(prompts.error);
          return;
        }
        var responses := backend(prompts.value);
        if responses.Err? {
          r := Err(responses.error);
          return;
        }
        x := Exchange(prompts.value, responses.value, task.parseResponses(misses, responses.value));
      }
      assert ExchangeOf(docs, entries, task, backend) == Ok(x);
      r := Reassembly(docs, isCached, x);
      WalkIsReassemble(docs, entries, x, name, saveIo);
    }

    /** The reassembly loop of `_process_docs`: a hit takes the cached doc, a
        miss takes the next parsed doc, adds it to the cache and, with
        `save_io`, records its prompt and response. `k` docs have been taken
        from the parsed stream (and from the saved prompts and responses). */
    method Reassembly(docs: seq<Doc>, isCached: seq<bool>, x: Exchange) returns (r: Result<seq<Doc>>)
      requires |isCached| == |docs|
      requires forall j :: 0 <= j < |docs| ==> (isCached[j] <==> IsHit(cache.entries, docs[j]))
      modifies cache
      ensures BatchOutcome(r, cache.entries) == Walk(docs, old(cache.entries), x, name, saveIo, 0, 0, old(cache.entries), [])
    {
      ghost var entries := cache.entries;
      var finalDocs: seq<Doc> := [];
      var k := 0;
      var i := 0;
      while i < |docs|
        invariant 0 <= i <= |docs| && entries.Keys <= cache.entries.Keys
        invariant forall j :: 0 <= j < |docs| ==> (isCached[j] <==> IsHit(entries, docs[j]))
        invariant Walk(docs, entries, x, name, saveIo, i, k, cache.entries, finalDocs)
               == Walk(docs, entries, x, name, saveIo, 0, 0, entries, [])
      {
        if isCached[i] {
          var cached := cache.Get(docs[i]);
          finalDocs := finalDocs + [cached.value];
        } else if k >= |x.parsed.items| {
          // next(modified_docs) raises
          r := Err(Exhausted(x.parsed));
          return;
        } else {
          var step := TakeMiss(x, k);
          if step.Err? {
            r := Err(step.error);
            return;
          }
          finalDocs := finalDocs + [step.value];
          k := k + 1;
        }
        i := i + 1;
      }
      r := Ok(finalDocs);
    }

    /** The `k`-th miss: `next(modified_docs)` goes into the cache, then with
        `save_io` its prompt and response are recorded in it. */
    method TakeMiss(x: Exchange, k: nat) returns (r: Result<Doc>)
      requires k < |x.parsed.items|
      modifies cache
      ensures cache.entries == old(cache.entries)[KeyOf(x.parsed.items[k]) := x.parsed.items[k]]
      ensures r == MissStep(x, name, saveIo, k).out
    {
      var doc := x.parsed.items[k];
      cache.Add(doc);
      r := Ok(doc);
      if saveIo {
        r := RecordExchange(doc, name, At(x.prompts, k), At(x.responses, k));
      }
    }

    /** `__call__`: processes a single doc as a batch of one. */
    method Call(doc: Doc) returns (r: Result<Doc>)
      modifies cache
      ensures var o := ProcessBatch([doc], old(cache.entries), task, backend, name, saveIo);
              && cache.entries == o.entries
              && (o.result.Ok? ==> r == Ok(o.result.value[0]))
              && (o.result.Err? ==> r == Err(o.result.error))
    {
      var docs := ProcessDocs([doc]);
      if docs.Err? {
        r := Err(docs.error);
      } else {
        r := Ok(docs.value[0]);
      }
    }

    /** `score`: the task's scorer result, or no scores when the task
        cannot score. */
    function Score(examples: seq<Example>): (r: Scores)
      ensures task.scorer.None? ==> r == map[]
      ensures task.scorer.Some? ==> r == task.scorer.value(examples)
    {
      match task.scorer
      case None => map[]
      case Some(scorer) => scorer(examples)
    }

    /** `pipe`, consumed to its end: the docs it yields (ending normally or
        with the exception the handler raised) and the handler calls. */
    method Pipe(stream: seq<Doc>, batchSize: nat := DefaultBatchSize, handler: ErrorHandler) returns (out: Lazy<Doc>, handled: seq<Failure>)
      modifies cache
      ensures PipeOutcome(out, cache.entries, handled)
           == RunBatches(Minibatch(stream, batchSize), old(cache.entries), ProcessorOf(task, backend, name, saveIo), name, handler)
    {
      var batches := Minibatch(stream, batchSize);
      ghost var entries := cache.entries;
      ghost var process := ProcessorOf(task, backend, name, saveIo);
      var yielded: seq<Doc> := [];
      handled := [];
      var i := 0;
      assert batches[..0] == [];
      while i < |batches|
        invariant 0 <= i <= |batches|
        invariant RunBatches(batches[..i], entries, process, name, handler)
               == PipeOutcome(Lazy(yielded, None), cache.entries, handled)
      {
        RunBatchesSnoc(batches[..i], batches[i], entries, process, name, handler);
        TakeSnoc(batches, i);
        var result := ProcessDocs(batches[i]);
        if result.Ok? {
          yielded := yielded + result.value;
        } else {
          var decision := handler(name, batches[i], result.error);
          handled := handled + [Failure(batches[i], result.error)];
          if decision.Some? {
            out := Lazy(yielded, Some(Escaping(decision.value)));
            RaisedStops(batches[..i + 1], batches[i + 1..], entries, process, name, handler);
            return;
          }
        }
        i := i + 1;
      }
      assert batches[..i] == batches;
      out := Lazy(yielded, None);
    }
  }

  /** The `llm` factory: refuses a missing task, otherwise builds the
      component. */
  method MakeLLM(name: string, task: Option<Task>, backend: Backend, cache: Cache, saveIo: bool) returns (r: Result<LLMWrapper>)
    ensures r.Err? <==> task.None?
    ensures r.Err? ==> r.error == ValueError(MissingTaskMessage)
    ensures r.Ok? ==> && r.value.name == name && r.value.task == task.value && r.value.backend == backend
                      && r.value.cache == cache && r.value.saveIo == saveIo
  {
    if task.None? {
      return Err(ValueError(MissingTaskMessage));
    }
    var component := new LLMWrapper(name, task.value, backend, cache, saveIo);
    r := Ok(component);
  }
}
