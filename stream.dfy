/** What `LLMWrapper.pipe` does with a stream of docs: cut it into
    minibatches, process them one after the other against the shared cache,
    yield each successful batch's docs, and hand each failing batch to the
    error handler, which either suppresses the failure or raises. */
module StreamSpec {
  import opened LlmTypes
  import opened DocCache
  import opened Batch
  import opened BatchLaws

  function Flatten(batches: seq<seq<Doc>>): (r: seq<Doc>)
    decreases |batches|
  {
    if batches == [] then [] else batches[0] + Flatten(batches[1..])
  }

  lemma TakeSnoc(batches: seq<seq<Doc>>, i: nat)
    requires i < |batches|
    ensures batches[..i + 1] == batches[..i] + [batches[i]]
    ensures batches[..i + 1] + batches[i + 1..] == batches
  {
  }

  /** The consecutive batches of `size` docs (the last one may be shorter)
      that the stream is cut into; a size of 0 takes an empty first batch,
      which ends the cutting at once. */
  function Minibatch(stream: seq<Doc>, size: nat): (batches: seq<seq<Doc>>)
    ensures size > 0 ==> Flatten(batches) == stream
    ensures size == 0 ==> batches == []
    ensures forall j :: 0 <= j < |batches| ==> 0 < |batches[j]| <= size
    ensures forall j :: 0 <= j < |batches| - 1 ==> |batches[j]| == size
    decreases |stream|
  {
    if stream == [] || size == 0 then []
    else if |stream| <= size then
      assert [stream][1..] == [];
      [stream]
    else
      var rest := Minibatch(stream[size..], size);
      assert ([stream[..size]] + rest)[1..] == rest;
      [stream[..size]] + rest
  }

  /** One call of the error handler. */
  datatype Failure = Failure(batch: seq<Doc>, error: Error)

  /** What a (fully consumed) `pipe` produced: the docs it yielded, ending
      normally or with the exception it raised, the cache contents after it,
      and the handler calls, in order. */
  datatype PipeOutcome = PipeOutcome(yielded: Lazy<Doc>, entries: map<Key, Doc>, handled: seq<Failure>)

  const GeneratorStopMessage := "generator raised StopIteration"

  /** The exception that leaves the `pipe` generator when `e` is raised in
      its body: a `StopIteration` is turned into a `RuntimeError` (PEP 479),
      anything else passes through unchanged. */
  function Escaping(e: Error): (r: Error)
    ensures r != StopIteration
    ensures e == StopIteration ==> r == RuntimeError(GeneratorStopMessage)
    ensures e != StopIteration ==> r == e
  {
    if e == StopIteration then RuntimeError(GeneratorStopMessage) else e
  }

  /** How one batch is processed against the cache contents; `pipe` only
      sees the outcome. */
  type Processor = (seq<Doc>, map<Key, Doc>) -> BatchOutcome

  /** The component's own batch processing, `_process_docs`. */
  function ProcessorOf(task: Task, backend: Backend, name: string, saveIo: bool): (process: Processor)
    ensures forall docs, entries :: process(docs, entries) == ProcessBatch(docs, entries, task, backend, name, saveIo)
  {
    (docs, entries) => ProcessBatch(docs, entries, task, backend, name, saveIo)
  }

  /** Processing `batches` one after the other from cache contents `entries`;
      `name` is what the handler is called with. */
  function RunBatches(batches: seq<seq<Doc>>, entries: map<Key, Doc>, process: Processor, name: string, handler: ErrorHandler): (o: PipeOutcome)
    ensures |o.handled| <= |batches|
    ensures o.yielded.raised != Some(StopIteration)
    decreases |batches|
  {
    if batches == [] then PipeOutcome(Lazy([], None), entries, [])
    else
      var b := process(batches[0], entries);
      match b.result
      case Ok(out) =>
        var rest := RunBatches(batches[1..], b.entries, process, name, handler);
        PipeOutcome(Lazy(out + rest.yielded.items, rest.yielded.raised), rest.entries, rest.handled)
      case Err(e) =>
        match handler(name, batches[0], e)
        case Some(raised) => PipeOutcome(Lazy([], Some(Escaping(raised))), b.entries, [Failure(batches[0], e)])
        case None =>
          var rest := RunBatches(batches[1..], b.entries, process, name, handler);
          PipeOutcome(rest.yielded, rest.entries, [Failure(batches[0], e)] + rest.handled)
  }

  /** One more batch after a stream that has not raised: its docs are
      yielded after everything before it, or, when it fails, the handler is
      called once with it and either the stream goes on without its docs or
      ends with what the handler raised, as it leaves the generator. */
  function Extend(o: PipeOutcome, b: seq<Doc>, process: Processor, name: string, handler: ErrorHandler): PipeOutcome
  {
    var p := process(b, o.entries);
    match p.result
    case Ok(out) => PipeOutcome(Lazy(o.yielded.items + out, None), p.entries, o.handled)
    case Err(e) =>
      var raised := match handler(name, b, e) case None => None case Some(r) => Some(Escaping(r));
      PipeOutcome(Lazy(o.yielded.items, raised), p.entries, o.handled + [Failure(b, e)])
  }

  /** The stream is processed batch by batch: adding a batch at the end only
      appends its effect, provided the stream before it has not raised. */
  lemma {:induction false} RunBatchesSnoc(batches: seq<seq<Doc>>, b: seq<Doc>, entries: map<Key, Doc>, process: Processor, name: string, handler: ErrorHandler)
    requires RunBatches(batches, entries, process, name, handler).yielded.raised.None?
    ensures RunBatches(batches + [b], entries, process, name, handler)
         == Extend(RunBatches(batches, entries, process, name, handler), b, process, name, handler)
    decreases |batches|
  {
    if batches == [] {
      assert [] + [b] == [b];
      assert [b][1..] == [];
    } else {
      var longer := batches + [b];
      assert longer[1..] == batches[1..] + [b];
      assert longer[0] == batches[0];
      var p := process(batches[0], entries);
      var rest := RunBatches(batches[1..], p.entries, process, name, handler);
      RunBatchesSnoc(batches[1..], b, p.entries, process, name, handler);
      var q := process(b, rest.entries);
      if p.result.Ok? {
        var out := p.result.value;
        if q.result.Ok? {
          assert out + (rest.yielded.items + q.result.value) == (out + rest.yielded.items) + q.result.value;
        }
      } else {
        var call := Failure(batches[0], p.result.error);
        if q.result.Err? {
          assert [call] + (rest.handled + [Failure(b, q.result.error)]) == ([call] + rest.handled) + [Failure(b, q.result.error)];
        }
      }
    }
  }

  /** Once the handler has raised, the stream is over: later batches are
      never processed. */
  lemma {:induction false} RaisedStops(batches: seq<seq<Doc>>, more: seq<seq<Doc>>, entries: map<Key, Doc>, process: Processor, name: string, handler: ErrorHandler)
    requires RunBatches(batches, entries, process, name, handler).yielded.raised.Some?
    ensures RunBatches(batches + more, entries, process, name, handler) == RunBatches(batches, entries, process, name, handler)
    decreases |batches|
  {
    var longer := batches + more;
    assert longer[0] == batches[0];
    assert longer[1..] == batches[1..] + more;
    var p := process(batches[0], entries);
    if p.result.Ok? || handler(name, batches[0], p.result.error).None? {
      RaisedStops(batches[1..], more, p.entries, process, name, handler);
    }
  }

  /** A failing batch whose failure the handler suppresses yields nothing;
      the docs yielded so far stay as they were and the stream goes on. */
  lemma SuppressedBatchYieldsNothing(batches: seq<seq<Doc>>, b: seq<Doc>, entries: map<Key, Doc>, process: Processor, name: string, handler: ErrorHandler)
    requires RunBatches(batches, entries, process, name, handler).yielded.raised.None?
    requires var before := RunBatches(batches, entries, process, name, handler);
             var p := process(b, before.entries);
             p.result.Err? && handler(name, b, p.result.error).None?
    ensures var before := RunBatches(batches, entries, process, name, handler);
            var after := RunBatches(batches + [b], entries, process, name, handler);
            var p := process(b, before.entries);
            && after.yielded == before.yielded
            && after.handled == before.handled + [Failure(b, p.result.error)]
  {
    RunBatchesSnoc(batches, b, entries, process, name, handler);
  }

  function FailedDocs(handled: seq<Failure>): seq<Doc>
    decreases |handled|
  {
    if handled == [] then [] else handled[0].batch + FailedDocs(handled[1..])
  }

  /** A successful batch yields one doc per input doc. */
  ghost predicate KeepsLength(process: Processor)
  {
    forall b, entries :: process(b, entries).result.Ok? ==> |process(b, entries).result.value| == |b|
  }

  lemma ComponentKeepsLength(task: Task, backend: Backend, name: string, saveIo: bool)
    ensures KeepsLength(ProcessorOf(task, backend, name, saveIo))
  {
  }

  /** Every input doc is accounted for: each batch is either yielded doc for
      doc or handed to the handler, so the yielded docs and the docs of the
      failed batches together are at most the input, and exactly the input
      when the stream did not end by raising. */
  lemma {:induction false} EveryDocAccounted(batches: seq<seq<Doc>>, entries: map<Key, Doc>, process: Processor, name: string, handler: ErrorHandler)
    requires KeepsLength(process)
    ensures var o := RunBatches(batches, entries, process, name, handler);
            && |o.yielded.items| + |FailedDocs(o.handled)| <= |Flatten(batches)|
            && (o.yielded.raised.None? ==> |o.yielded.items| + |FailedDocs(o.handled)| == |Flatten(batches)|)
    decreases |batches|
  {
    if batches != [] {
      var p := process(batches[0], entries);
      EveryDocAccounted(batches[1..], p.entries, process, name, handler);
      if p.result.Err? {
        var rest := RunBatches(batches[1..], p.entries, process, name, handler);
        if handler(name, batches[0], p.result.error).None? {
          assert ([Failure(batches[0], p.result.error)] + rest.handled)[1..] == rest.handled;
        } else {
          assert [Failure(batches[0], p.result.error)][1..] == [];
        }
      }
    }
  }

  /** A handler that always returns never ends the stream early. */
  lemma {:induction false} SuppressingHandlerNeverRaises(batches: seq<seq<Doc>>, entries: map<Key, Doc>, process: Processor, name: string, handler: ErrorHandler)
    requires forall b, e :: handler(name, b, e).None?
    ensures RunBatches(batches, entries, process, name, handler).yielded.raised.None?
    decreases |batches|
  {
    if batches != [] {
      var p := process(batches[0], entries);
      SuppressingHandlerNeverRaises(batches[1..], p.entries, process, name, handler);
    }
  }

  function KeysSeq(ds: seq<Doc>): (r: seq<Key>)
    ensures |r| == |ds|
  {
    seq(|ds|, i requires 0 <= i < |ds| => KeyOf(ds[i]))
  }

  lemma KeysSeqAppend(a: seq<Doc>, b: seq<Doc>)
    ensures KeysSeq(a + b) == KeysSeq(a) + KeysSeq(b)
  {
  }

  /** When no batch failed, `pipe` yields one doc per input doc, in input
      order: the i-th yielded doc has the key of the i-th doc of the stream. */
  lemma {:induction false} StreamOrderPreserved(batches: seq<seq<Doc>>, entries: map<Key, Doc>, task: Task, backend: Backend, name: string, saveIo: bool, handler: ErrorHandler)
    requires WellKeyed(entries) && ParseKeepsKeys(task)
    requires var o := RunBatches(batches, entries, ProcessorOf(task, backend, name, saveIo), name, handler);
             o.handled == [] && o.yielded.raised.None?
    ensures KeysSeq(RunBatches(batches, entries, ProcessorOf(task, backend, name, saveIo), name, handler).yielded.items)
         == KeysSeq(Flatten(batches))
    decreases |batches|
  {
    if batches != [] {
      var process := ProcessorOf(task, backend, name, saveIo);
      var p := ProcessBatch(batches[0], entries, task, backend, name, saveIo);
      assert process(batches[0], entries) == p;
      var out := p.result.value;
      OutputKeysFollowInput(batches[0], entries, task, backend, name, saveIo);
      BatchKeepsCacheWellKeyed(batches[0], entries, task, backend, name, saveIo);
      var rest := RunBatches(batches[1..], p.entries, process, name, handler);
      StreamOrderPreserved(batches[1..], p.entries, task, backend, name, saveIo, handler);
      KeysSeqAppend(out, rest.yielded.items);
      KeysSeqAppend(batches[0], Flatten(batches[1..]));
      assert KeysSeq(out) == KeysSeq(batches[0]);
    }
  }

  /** The batches whose flag in `kept` is `want`, in order. */
  function Select(bs: seq<seq<Doc>>, kept: seq<bool>, want: bool): (r: seq<seq<Doc>>)
    requires |kept| == |bs|
    ensures |r| <= |bs|
    decreases |bs|
  {
    if bs == [] then []
    else (if kept[0] == want then [bs[0]] else []) + Select(bs[1..], kept[1..], want)
  }

  /** The batches the handler was called with, in order. */
  function FailedBatches(handled: seq<Failure>): (r: seq<seq<Doc>>)
    ensures |r| == |handled|
    ensures forall i :: 0 <= i < |handled| ==> r[i] == handled[i].batch
  {
    seq(|handled|, i requires 0 <= i < |handled| => handled[i].batch)
  }

  /** From a cache whose docs sit under their own keys, a successful batch
      yields docs with the keys of its input docs, in order, and the cache
      stays that way whatever happens. */
  ghost predicate KeepsKeys(process: Processor)
  {
    forall b, entries {:trigger process(b, entries)} :: WellKeyed(entries) ==>
      && WellKeyed(process(b, entries).entries)
      && (process(b, entries).result.Ok? ==> KeysSeq(process(b, entries).result.value) == KeysSeq(b))
  }

  /** With a task that keeps each doc's key, the component's batch
      processing keeps keys. */
  lemma ComponentKeepsKeys(task: Task, backend: Backend, name: string, saveIo: bool)
    requires ParseKeepsKeys(task)
    ensures KeepsKeys(ProcessorOf(task, backend, name, saveIo))
  {
    var process := ProcessorOf(task, backend, name, saveIo);
    forall b, entries | WellKeyed(entries)
      ensures WellKeyed(process(b, entries).entries)
      ensures process(b, entries).result.Ok? ==> KeysSeq(process(b, entries).result.value) == KeysSeq(b)
    {
      BatchKeepsCacheWellKeyed(b, entries, task, backend, name, saveIo);
      if process(b, entries).result.Ok? {
        OutputKeysFollowInput(b, entries, task, backend, name, saveIo);
      }
    }
  }

  /** `o` splits the processed prefix of `batches` by outcome, as `kept`
      says: the handler saw exactly the failed batches, in order; the
      yielded docs carry the keys of exactly the docs of the successful
      batches, in order; every batch was processed unless the stream ended
      by raising, and then it stopped at a failed batch. */
  ghost predicate SplitBy(batches: seq<seq<Doc>>, o: PipeOutcome, kept: seq<bool>)
  {
    var n := |kept|;
    && n <= |batches|
    && (o.yielded.raised.None? ==> n == |batches|)
    && (o.yielded.raised.Some? ==> 0 < n && !kept[n - 1])
    && FailedBatches(o.handled) == Select(batches[..n], kept, false)
    && KeysSeq(o.yielded.items) == KeysSeq(Flatten(Select(batches[..n], kept, true)))
  }

  /** Selecting from batches peels off the first one. */
  lemma SelectCons(b: seq<Doc>, tail: seq<seq<Doc>>, ok: bool, rest: seq<bool>, want: bool)
    requires |rest| == |tail|
    ensures Select([b] + tail, [ok] + rest, want) == (if ok == want then [b] else []) + Select(tail, rest, want)
  {
    assert ([b] + tail)[1..] == tail;
    assert ([ok] + rest)[1..] == rest;
  }

  lemma PrefixCons(b: seq<Doc>, bs: seq<seq<Doc>>, n: nat)
    requires n <= |bs|
    ensures ([b] + bs)[..n + 1] == [b] + bs[..n]
  {
  }

  lemma FlattenCons(b: seq<Doc>, rest: seq<seq<Doc>>)
    ensures Flatten([b] + rest) == b + Flatten(rest)
  {
    assert ([b] + rest)[1..] == rest;
  }

  /** A successful first batch: its docs come first, with its keys. */
  lemma SplitAfterSuccess(b: seq<Doc>, bs: seq<seq<Doc>>, out: seq<Doc>, r: PipeOutcome, rest: seq<bool>)
    requires SplitBy(bs, r, rest) && KeysSeq(out) == KeysSeq(b)
    ensures SplitBy([b] + bs, PipeOutcome(Lazy(out + r.yielded.items, r.yielded.raised), r.entries, r.handled), [true] + rest)
  {
    PrefixCons(b, bs, |rest|);
    SelectCons(b, bs[..|rest|], true, rest, true);
    SelectCons(b, bs[..|rest|], true, rest, false);
    var succeeded := Select(bs[..|rest|], rest, true);
    assert [] + Select(bs[..|rest|], rest, false) == Select(bs[..|rest|], rest, false);
    KeysSeqAppend(out, r.yielded.items);
    FlattenCons(b, succeeded);
    KeysSeqAppend(b, Flatten(succeeded));
  }

  /** A failing first batch that the handler suppresses: it is the first
      batch the handler saw and yields nothing. */
  lemma SplitAfterSuppressed(b: seq<Doc>, bs: seq<seq<Doc>>, e: Error, r: PipeOutcome, rest: seq<bool>)
    requires SplitBy(bs, r, rest)
    ensures SplitBy([b] + bs, PipeOutcome(r.yielded, r.entries, [Failure(b, e)] + r.handled), [false] + rest)
  {
    PrefixCons(b, bs, |rest|);
    SelectCons(b, bs[..|rest|], false, rest, true);
    SelectCons(b, bs[..|rest|], false, rest, false);
    assert [] + Select(bs[..|rest|], rest, true) == Select(bs[..|rest|], rest, true);
    assert FailedBatches([Failure(b, e)] + r.handled) == [b] + FailedBatches(r.handled);
  }

  /** A failing first batch on which the handler raises ends the stream. */
  lemma SplitAfterRaised(b: seq<Doc>, bs: seq<seq<Doc>>, e: Error, raised: Error, entries: map<Key, Doc>)
    ensures SplitBy([b] + bs, PipeOutcome(Lazy([], Some(raised)), entries, [Failure(b, e)]), [false])
  {
    PrefixCons(b, bs, 0);
    assert bs[..0] == [];
    SelectCons(b, [], false, [], true);
    SelectCons(b, [], false, [], false);
  }

  /** What `pipe` yields across failures: with a batch processing that
      keeps keys, every run of the stream splits the batches it processed
      into those that succeeded and those handed to the handler. */
  lemma {:induction false} StreamSplitsByOutcome(batches: seq<seq<Doc>>, entries: map<Key, Doc>, process: Processor, name: string, handler: ErrorHandler)
    returns (kept: seq<bool>)
    requires WellKeyed(entries) && KeepsKeys(process)
    ensures SplitBy(batches, RunBatches(batches, entries, process, name, handler), kept)
    decreases |batches|
  {
    if batches == [] {
      kept := [];
      return;
    }
    var b, bs := batches[0], batches[1..];
    assert batches == [b] + bs;
    var p := process(b, entries);
    if p.result.Err? && handler(name, b, p.result.error).Some? {
      kept := [false];
      SplitAfterRaised(b, bs, p.result.error, Escaping(handler(name, b, p.result.error).value), p.entries);
      return;
    }
    var rest := StreamSplitsByOutcome(bs, p.entries, process, name, handler);
    var r := RunBatches(bs, p.entries, process, name, handler);
    if p.result.Ok? {
      kept := [true] + rest;
      SplitAfterSuccess(b, bs, p.result.value, r, rest);
    } else {
      kept := [false] + rest;
      SplitAfterSuppressed(b, bs, p.result.error, r, rest);
    }
  }

  /** The same split for the component's own `pipe`, when its task keeps
      each doc's key. */
  lemma PipeSplitsByOutcome(batches: seq<seq<Doc>>, entries: map<Key, Doc>, task: Task, backend: Backend, name: string, saveIo: bool, handler: ErrorHandler)
    returns (kept: seq<bool>)
    requires WellKeyed(entries) && ParseKeepsKeys(task)
    ensures SplitBy(batches, RunBatches(batches, entries, ProcessorOf(task, backend, name, saveIo), name, handler), kept)
  {
    ComponentKeepsKeys(task, backend, name, saveIo);
    kept := StreamSplitsByOutcome(batches, entries, ProcessorOf(task, backend, name, saveIo), name, handler);
  }

  /** A concrete stream whose handler re-raises a `StopIteration`: the one
      doc is a miss, the task parses nothing, so `next(modified_docs)`
      raises `StopIteration`, and the stream ends with a `RuntimeError`. */
  lemma ReraisedStopIterationExample()
    ensures
      var a := Doc("a", [], map[]);
      var task := Task(
        ds => Ok(seq(|ds|, _ => "prompt")),
        (ds: seq<Doc>, rs: seq<Response>) => Lazy([], None),
        None);
      var backend: Backend := ps => Ok(ps);
      var handler: ErrorHandler := (n: string, b: seq<Doc>, e: Error) => Some(e);
      RunBatches(Minibatch([a], 1), map[], ProcessorOf(task, backend, "llm", false), "llm", handler).yielded
        == Lazy([], Some(RuntimeError(GeneratorStopMessage)))
  {
    var a := Doc("a", [], map[]);
    var task := Task(
      ds => Ok(seq(|ds|, _ => "prompt")),
      (ds: seq<Doc>, rs: seq<Response>) => Lazy([], None),
      None);
    var backend: Backend := ps => Ok(ps);
    var docs := [a];
    assert Minibatch(docs, 1) == [docs];
    assert docs[..0] == [];
    assert Misses(docs, map[]) == [a];
    var x := ExchangeOf(docs, map[], task, backend).value;
    assert x.parsed == Lazy([], None);
    assert MissStep(x, "llm", false, 0).out == Err(StopIteration);
    ReassembleFailsAt(docs, map[], x, "llm", false, 0);
    assert ProcessBatch(docs, map[], task, backend, "llm", false).result == Err(StopIteration);
  }
}
