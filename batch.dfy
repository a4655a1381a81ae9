/** What processing one batch of docs does (`LLMWrapper._process_docs`):
    split the batch into cache hits and misses, send only the misses through
    the task and the backend, and rebuild the batch in its original order,
    writing each processed miss to the cache (and, with `save_io`, its
    prompt and response into its user data). */
module Batch {
  import opened LlmTypes
  import opened DocCache
  import opened Journal

  predicate IsHit(entries: map<Key, Doc>, d: Doc)
  {
    KeyOf(d) in entries
  }

  /** The docs of the batch that the cache does not hold, in their original
      relative order. */
  function Misses(docs: seq<Doc>, entries: map<Key, Doc>): (m: seq<Doc>)
    ensures |m| <= |docs|
    ensures forall k :: 0 <= k < |m| ==> !IsHit(entries, m[k])
    decreases |docs|
  {
    if docs == [] then []
    else
      var init, last := docs[..|docs| - 1], docs[|docs| - 1];
      Misses(init, entries) + (if IsHit(entries, last) then [] else [last])
  }

  /** How many misses come before position `i`. */
  function Rank(docs: seq<Doc>, entries: map<Key, Doc>, i: nat): nat
    requires i <= |docs|
  {
    |Misses(docs[..i], entries)|
  }

  lemma RankStep(docs: seq<Doc>, entries: map<Key, Doc>, i: nat)
    requires i < |docs|
    ensures Rank(docs, entries, i + 1) == Rank(docs, entries, i) + (if IsHit(entries, docs[i]) then 0 else 1)
  {
    assert docs[..i + 1][..i] == docs[..i];
  }

  lemma RankAll(docs: seq<Doc>, entries: map<Key, Doc>)
    ensures Rank(docs, entries, |docs|) == |Misses(docs, entries)|
  {
    assert docs[..|docs|] == docs;
  }

  lemma {:induction false} RankMonotone(docs: seq<Doc>, entries: map<Key, Doc>, i: nat, j: nat)
    requires i <= j <= |docs|
    ensures Rank(docs, entries, i) <= Rank(docs, entries, j)
    decreases j - i
  {
    if i < j {
      RankStep(docs, entries, i);
      RankMonotone(docs, entries, i + 1, j);
    }
  }

  /** The miss at position `i` is the `Rank(i)`-th doc handed to the task. */
  lemma {:induction false} MissPosition(docs: seq<Doc>, entries: map<Key, Doc>, i: nat)
    requires i < |docs| && !IsHit(entries, docs[i])
    ensures Rank(docs, entries, i) < |Misses(docs, entries)|
    ensures Misses(docs, entries)[Rank(docs, entries, i)] == docs[i]
    decreases |docs|
  {
    var init := docs[..|docs| - 1];
    if i == |docs| - 1 {
      assert docs[..i] == init;
    } else {
      assert init[..i] == docs[..i];
      MissPosition(init, entries, i);
    }
  }

  /** Conversely, the `k`-th doc handed to the task is a miss of the batch,
      and the misses before it are exactly `k`. */
  lemma {:induction false} MissSource(docs: seq<Doc>, entries: map<Key, Doc>, k: nat) returns (i: nat)
    requires k < |Misses(docs, entries)|
    ensures i < |docs| && !IsHit(entries, docs[i])
    ensures Rank(docs, entries, i) == k && Misses(docs, entries)[k] == docs[i]
    decreases |docs|
  {
    var init, last := docs[..|docs| - 1], docs[|docs| - 1];
    if k < |Misses(init, entries)| {
      i := MissSource(init, entries, k);
      assert docs[..i] == init[..i];
    } else {
      i := |docs| - 1;
      assert docs[..i] == init;
    }
  }

  /** No doc is handed to the task exactly when every doc is a cache hit. */
  lemma {:induction false} NoMissesIffAllHits(docs: seq<Doc>, entries: map<Key, Doc>)
    ensures Misses(docs, entries) == [] <==> forall i :: 0 <= i < |docs| ==> IsHit(entries, docs[i])
  {
    if Misses(docs, entries) != [] {
      var i := MissSource(docs, entries, 0);
    }
    if exists i :: 0 <= i < |docs| && !IsHit(entries, docs[i]) {
      var i :| 0 <= i < |docs| && !IsHit(entries, docs[i]);
      MissPosition(docs, entries, i);
    }
  }

  /** What the task and the backend produced for the misses: the prompts,
      the responses (both materialised; `tee` hands the same items to the
      journal), and the lazy stream of parsed docs. */
  datatype Exchange = Exchange(prompts: seq<Prompt>, responses: seq<Response>, parsed: Lazy<Doc>)

  const NoExchange: Exchange := Exchange([], [], Lazy([], None))

  /** The `k`-th `next` on a materialised iterator. */
  function At<T>(s: seq<T>, k: nat): (r: Option<T>)
    ensures r.Some? <==> k < |s|
    ensures r.Some? ==> r.value == s[k]
  {
    if k < |s| then Some(s[k]) else None
  }

  /** One step of the reassembly for the `k`-th miss: the doc written to the
      cache, if the step got that far, and the doc placed in the output or
      the exception raised. */
  datatype Step = Step(added: Option<Doc>, out: Result<Doc>)

  /** `next(modified_docs)`, `cache.add`, then with `save_io` the journal
      write that pulls the `k`-th saved prompt and response. */
  function MissStep(x: Exchange, name: string, saveIo: bool, k: nat): (s: Step)
    ensures s.added.Some? <==> k < |x.parsed.items|
    ensures s.added.None? ==> s.out == Err(Exhausted(x.parsed))
    ensures s.added.Some? ==> s.added.value == x.parsed.items[k]
    ensures s.added.Some? && !saveIo ==> s.out == Ok(x.parsed.items[k])
  {
    if k >= |x.parsed.items| then Step(None, Err(Exhausted(x.parsed)))
    else
      var d := x.parsed.items[k];
      if !saveIo then Step(Some(d), Ok(d))
      else Step(Some(d), RecordExchange(d, name, At(x.prompts, k), At(x.responses, k)))
  }

  /** With `save_io`, a miss step succeeds exactly when its doc can take a
      record and the `k`-th prompt and response exist; the doc it outputs
      then carries them under the component's name. */
  lemma MissStepJournal(x: Exchange, name: string, saveIo: bool, k: nat)
    requires saveIo && k < |x.parsed.items|
    ensures MissStep(x, name, saveIo, k).out.Ok? <==> CanRecord(x.parsed.items[k], name) && k < |x.prompts| && k < |x.responses|
    ensures MissStep(x, name, saveIo, k).out.Ok? ==>
              Recorded(x.parsed.items[k], MissStep(x, name, saveIo, k).out.value, name, x.prompts[k], x.responses[k])
  {
    if CanRecord(x.parsed.items[k], name) && k < |x.prompts| && k < |x.responses| {
      RecordExchangeRecords(x.parsed.items[k], name, x.prompts[k], x.responses[k]);
    }
  }

  predicate StepsOk(x: Exchange, name: string, saveIo: bool, n: nat)
  {
    forall k :: 0 <= k < n ==> MissStep(x, name, saveIo, k).out.Ok?
  }

  lemma StepsOkConsumed(x: Exchange, name: string, saveIo: bool, n: nat)
    requires StepsOk(x, name, saveIo, n)
    ensures n <= |x.parsed.items|
  {
    // the step that would pull past the last parsed doc raises
    assert MissStep(x, name, saveIo, |x.parsed.items|).out.Err?;
  }

  /** The first of the first `n` miss steps that raises, if any. */
  function FirstFailure(x: Exchange, name: string, saveIo: bool, n: nat): (f: Option<nat>)
    ensures f.None? <==> StepsOk(x, name, saveIo, n)
    ensures f.Some? ==> f.value < n && MissStep(x, name, saveIo, f.value).out.Err? && StepsOk(x, name, saveIo, f.value)
  {
    if n == 0 then None
    else
      match FirstFailure(x, name, saveIo, n - 1)
      case Some(g) => Some(g)
      case None => if MissStep(x, name, saveIo, n - 1).out.Err? then Some(n - 1) else None
  }

  /** A step that raises after only successful steps is the first failure. */
  lemma {:induction false} FirstFailureIs(x: Exchange, name: string, saveIo: bool, n: nat, k: nat)
    requires k < n && StepsOk(x, name, saveIo, k) && MissStep(x, name, saveIo, k).out.Err?
    ensures FirstFailure(x, name, saveIo, n) == Some(k)
    decreases n
  {
    if k < n - 1 {
      FirstFailureIs(x, name, saveIo, n - 1, k);
    }
  }

  /** The doc a cache hit at position `i` receives: what the cache holds for
      its key once the misses before `i` have been added. */
  function HitValue(docs: seq<Doc>, entries: map<Key, Doc>, x: Exchange, i: nat): Doc
    requires i < |docs| && IsHit(entries, docs[i])
    requires Rank(docs, entries, i) <= |x.parsed.items|
  {
    AddAll(entries, x.parsed.items[..Rank(docs, entries, i)])[KeyOf(docs[i])]
  }

  /** The output doc at position `i`, once every miss step up to and
      including position `i` has succeeded. */
  function OutputAt(docs: seq<Doc>, entries: map<Key, Doc>, x: Exchange, name: string, saveIo: bool, i: nat): Doc
    requires i < |docs|
    requires StepsOk(x, name, saveIo, Rank(docs, entries, i + 1))
  {
    RankStep(docs, entries, i);
    if IsHit(entries, docs[i]) then
      StepsOkConsumed(x, name, saveIo, Rank(docs, entries, i));
      HitValue(docs, entries, x, i)
    else
      MissStep(x, name, saveIo, Rank(docs, entries, i)).out.value
  }

  /** The outputs of the first `n` positions, once every miss step among
      them has succeeded. */
  function Outputs(docs: seq<Doc>, entries: map<Key, Doc>, x: Exchange, name: string, saveIo: bool, n: nat): (out: seq<Doc>)
    requires n <= |docs| && StepsOk(x, name, saveIo, Rank(docs, entries, n))
    ensures |out| == n
    decreases n
  {
    if n == 0 then []
    else
      RankStep(docs, entries, n - 1);
      Outputs(docs, entries, x, name, saveIo, n - 1) + [OutputAt(docs, entries, x, name, saveIo, n - 1)]
  }

  /** Position `j` of `Outputs` holds its `OutputAt`. */
  lemma {:induction false} OutputsAt(docs: seq<Doc>, entries: map<Key, Doc>, x: Exchange, name: string, saveIo: bool, n: nat, j: nat)
    requires j < n <= |docs| && StepsOk(x, name, saveIo, Rank(docs, entries, n))
    ensures StepsOk(x, name, saveIo, Rank(docs, entries, j + 1))
    ensures Outputs(docs, entries, x, name, saveIo, n)[j] == OutputAt(docs, entries, x, name, saveIo, j)
    decreases n
  {
    RankStep(docs, entries, n - 1);
    if j < n - 1 {
      OutputsAt(docs, entries, x, name, saveIo, n - 1, j);
    }
  }

  /** A hit extends the outputs by what the cache holds for its key once
      the misses before it have been written. */
  lemma HitAdvance(docs: seq<Doc>, entries: map<Key, Doc>, x: Exchange, name: string, saveIo: bool, i: nat)
    requires i < |docs| && IsHit(entries, docs[i])
    requires StepsOk(x, name, saveIo, Rank(docs, entries, i))
    ensures Rank(docs, entries, i + 1) == Rank(docs, entries, i) <= |x.parsed.items|
    ensures Outputs(docs, entries, x, name, saveIo, i + 1)
         == Outputs(docs, entries, x, name, saveIo, i) + [AddAll(entries, x.parsed.items[..Rank(docs, entries, i)])[KeyOf(docs[i])]]
  {
    RankStep(docs, entries, i);
    StepsOkConsumed(x, name, saveIo, Rank(docs, entries, i));
  }

  /** A miss whose step succeeds extends the outputs by the doc that step
      produced. */
  lemma MissAdvance(docs: seq<Doc>, entries: map<Key, Doc>, x: Exchange, name: string, saveIo: bool, i: nat)
    requires i < |docs| && !IsHit(entries, docs[i])
    requires StepsOk(x, name, saveIo, Rank(docs, entries, i))
    requires MissStep(x, name, saveIo, Rank(docs, entries, i)).out.Ok?
    ensures Rank(docs, entries, i + 1) == Rank(docs, entries, i) + 1
    ensures StepsOk(x, name, saveIo, Rank(docs, entries, i + 1))
    ensures Outputs(docs, entries, x, name, saveIo, i + 1)
         == Outputs(docs, entries, x, name, saveIo, i) + [MissStep(x, name, saveIo, Rank(docs, entries, i)).out.value]
  {
    RankStep(docs, entries, i);
  }

  /** The result of processing a batch, and the cache contents after it. */
  datatype BatchOutcome = BatchOutcome(result: Result<seq<Doc>>, entries: map<Key, Doc>)

  /** How many parsed docs the failing step `f` left in the cache. */
  function Written(x: Exchange, name: string, saveIo: bool, f: nat): nat
  {
    if MissStep(x, name, saveIo, f).added.Some? then f + 1 else f
  }

  /** The reassembly walk over the original positions, given the exchange. */
  function Reassemble(docs: seq<Doc>, entries: map<Key, Doc>, x: Exchange, name: string, saveIo: bool): (o: BatchOutcome)
    ensures o.result.Ok? <==> StepsOk(x, name, saveIo, |Misses(docs, entries)|)
    ensures o.result.Ok? ==> |o.result.value| == |docs|
    ensures entries.Keys <= o.entries.Keys
  {
    var m := |Misses(docs, entries)|;
    match FirstFailure(x, name, saveIo, m)
    case None =>
      StepsOkConsumed(x, name, saveIo, m);
      RankAll(docs, entries);
      BatchOutcome(Ok(Outputs(docs, entries, x, name, saveIo, |docs|)), AddAll(entries, x.parsed.items[..m]))
    case Some(f) =>
      StepsOkConsumed(x, name, saveIo, f);
      BatchOutcome(Err(MissStep(x, name, saveIo, f).out.error), AddAll(entries, x.parsed.items[..Written(x, name, saveIo, f)]))
  }

  /** The reassembly stops at the miss at position `i` when its step is the
      first to raise. */
  lemma MissFails(docs: seq<Doc>, entries: map<Key, Doc>, x: Exchange, name: string, saveIo: bool, i: nat)
    requires i < |docs| && !IsHit(entries, docs[i])
    requires StepsOk(x, name, saveIo, Rank(docs, entries, i))
    requires MissStep(x, name, saveIo, Rank(docs, entries, i)).out.Err?
    ensures var k := Rank(docs, entries, i);
            && Written(x, name, saveIo, k) <= |x.parsed.items|
            && Reassemble(docs, entries, x, name, saveIo)
               == BatchOutcome(Err(MissStep(x, name, saveIo, k).out.error), AddAll(entries, x.parsed.items[..Written(x, name, saveIo, k)]))
  {
    RankStep(docs, entries, i);
    RankMonotone(docs, entries, i + 1, |docs|);
    RankAll(docs, entries);
    ReassembleFailsAt(docs, entries, x, name, saveIo, Rank(docs, entries, i));
  }

  /** The reassembly stops at miss step `k` when it is the first to raise. */
  lemma ReassembleFailsAt(docs: seq<Doc>, entries: map<Key, Doc>, x: Exchange, name: string, saveIo: bool, k: nat)
    requires k < |Misses(docs, entries)|
    requires StepsOk(x, name, saveIo, k) && MissStep(x, name, saveIo, k).out.Err?
    ensures Written(x, name, saveIo, k) <= |x.parsed.items|
    ensures Reassemble(docs, entries, x, name, saveIo)
         == BatchOutcome(Err(MissStep(x, name, saveIo, k).out.error), AddAll(entries, x.parsed.items[..Written(x, name, saveIo, k)]))
  {
    FirstFailureIs(x, name, saveIo, |Misses(docs, entries)|, k);
    StepsOkConsumed(x, name, saveIo, k);
  }

  /** The reassembly succeeds when every miss step does, with every
      position's `OutputAt`. */
  lemma ReassembleSucceeds(docs: seq<Doc>, entries: map<Key, Doc>, x: Exchange, name: string, saveIo: bool)
    requires StepsOk(x, name, saveIo, |Misses(docs, entries)|)
    ensures |Misses(docs, entries)| <= |x.parsed.items| && Rank(docs, entries, |docs|) == |Misses(docs, entries)|
    ensures Reassemble(docs, entries, x, name, saveIo)
         == BatchOutcome(Ok(Outputs(docs, entries, x, name, saveIo, |docs|)), AddAll(entries, x.parsed.items[..|Misses(docs, entries)|]))
  {
    var m := |Misses(docs, entries)|;
    StepsOkConsumed(x, name, saveIo, m);
    RankAll(docs, entries);
    assert FirstFailure(x, name, saveIo, m).None?;
  }

  /** The reassembly loop itself, from position `i` with `k` parsed docs
      taken, the cache holding `cached` and `out` built so far: a hit reads
      the cache as it is now, a miss runs its step and writes the parsed doc
      to the cache before any journal error surfaces. */
  function Walk(docs: seq<Doc>, entries: map<Key, Doc>, x: Exchange, name: string, saveIo: bool,
                i: nat, k: nat, cached: map<Key, Doc>, out: seq<Doc>): (o: BatchOutcome)
    requires i <= |docs| && entries.Keys <= cached.Keys
    ensures cached.Keys <= o.entries.Keys
    decreases |docs| - i
  {
    if i == |docs| then BatchOutcome(Ok(out), cached)
    else if IsHit(entries, docs[i]) then
      Walk(docs, entries, x, name, saveIo, i + 1, k, cached, out + [cached[KeyOf(docs[i])]])
    else
      var s := MissStep(x, name, saveIo, k);
      match s.added
      case None => BatchOutcome(Err(Exhausted(x.parsed)), cached)
      case Some(d) =>
        var written := cached[KeyOf(d) := d];
        if s.out.Err? then BatchOutcome(Err(s.out.error), written)
        else Walk(docs, entries, x, name, saveIo, i + 1, k + 1, written, out + [s.out.value])
  }

  /** The loop state the closed form predicts at position `i`. */
  function StateAt(docs: seq<Doc>, entries: map<Key, Doc>, x: Exchange, name: string, saveIo: bool, i: nat): (o: BatchOutcome)
    requires i <= |docs| && StepsOk(x, name, saveIo, Rank(docs, entries, i))
    ensures entries.Keys <= o.entries.Keys
  {
    StepsOkConsumed(x, name, saveIo, Rank(docs, entries, i));
    BatchOutcome(Ok(Outputs(docs, entries, x, name, saveIo, i)), AddAll(entries, x.parsed.items[..Rank(docs, entries, i)]))
  }

  /** `Walk` from the predicted state at position `i`. */
  function WalkAt(docs: seq<Doc>, entries: map<Key, Doc>, x: Exchange, name: string, saveIo: bool, i: nat): BatchOutcome
    requires i <= |docs| && StepsOk(x, name, saveIo, Rank(docs, entries, i))
  {
    var st := StateAt(docs, entries, x, name, saveIo, i);
    Walk(docs, entries, x, name, saveIo, i, Rank(docs, entries, i), st.entries, st.result.value)
  }

  /** A hit moves the loop from one predicted state to the next. */
  lemma WalkHit(docs: seq<Doc>, entries: map<Key, Doc>, x: Exchange, name: string, saveIo: bool, i: nat)
    requires i < |docs| && IsHit(entries, docs[i]) && StepsOk(x, name, saveIo, Rank(docs, entries, i))
    ensures StepsOk(x, name, saveIo, Rank(docs, entries, i + 1))
    ensures WalkAt(docs, entries, x, name, saveIo, i) == WalkAt(docs, entries, x, name, saveIo, i + 1)
  {
    HitAdvance(docs, entries, x, name, saveIo, i);
  }

  /** A miss whose step succeeds moves the loop from one predicted state to
      the next. */
  lemma WalkMiss(docs: seq<Doc>, entries: map<Key, Doc>, x: Exchange, name: string, saveIo: bool, i: nat)
    requires i < |docs| && !IsHit(entries, docs[i]) && StepsOk(x, name, saveIo, Rank(docs, entries, i))
    requires MissStep(x, name, saveIo, Rank(docs, entries, i)).out.Ok?
    ensures StepsOk(x, name, saveIo, Rank(docs, entries, i + 1))
    ensures WalkAt(docs, entries, x, name, saveIo, i) == WalkAt(docs, entries, x, name, saveIo, i + 1)
  {
    var k := Rank(docs, entries, i);
    var st := StateAt(docs, entries, x, name, saveIo, i);
    var s := MissStep(x, name, saveIo, k);
    AddAllPrefix(entries, x.parsed.items, k);
    MissAdvance(docs, entries, x, name, saveIo, i);
    var d := x.parsed.items[k];
    assert s.added == Some(d);
    var written := st.entries[KeyOf(d) := d];
    assert Walk(docs, entries, x, name, saveIo, i, k, st.entries, st.result.value)
        == Walk(docs, entries, x, name, saveIo, i + 1, k + 1, written, st.result.value + [s.out.value]);
  }

  /** A miss whose step raises ends the loop where the closed form says. */
  lemma WalkFails(docs: seq<Doc>, entries: map<Key, Doc>, x: Exchange, name: string, saveIo: bool, i: nat)
    requires i < |docs| && !IsHit(entries, docs[i]) && StepsOk(x, name, saveIo, Rank(docs, entries, i))
    requires MissStep(x, name, saveIo, Rank(docs, entries, i)).out.Err?
    ensures WalkAt(docs, entries, x, name, saveIo, i) == Reassemble(docs, entries, x, name, saveIo)
  {
    var k := Rank(docs, entries, i);
    MissFails(docs, entries, x, name, saveIo, i);
    if k < |x.parsed.items| {
      AddAllPrefix(entries, x.parsed.items, k);
    }
  }

  /** Past the last position the loop ends where the closed form says. */
  lemma WalkEnds(docs: seq<Doc>, entries: map<Key, Doc>, x: Exchange, name: string, saveIo: bool)
    requires StepsOk(x, name, saveIo, Rank(docs, entries, |docs|))
    ensures WalkAt(docs, entries, x, name, saveIo, |docs|) == Reassemble(docs, entries, x, name, saveIo)
  {
    RankAll(docs, entries);
    ReassembleSucceeds(docs, entries, x, name, saveIo);
  }

  /** The loop computes the closed form: started at any position with the
      state the closed form predicts there, it ends where `Reassemble` says. */
  lemma {:induction false} WalkFrom(docs: seq<Doc>, entries: map<Key, Doc>, x: Exchange, name: string, saveIo: bool, i: nat)
    requires i <= |docs| && StepsOk(x, name, saveIo, Rank(docs, entries, i))
    ensures WalkAt(docs, entries, x, name, saveIo, i) == Reassemble(docs, entries, x, name, saveIo)
    decreases |docs| - i
  {
    if i == |docs| {
      WalkEnds(docs, entries, x, name, saveIo);
    } else if IsHit(entries, docs[i]) {
      WalkHit(docs, entries, x, name, saveIo, i);
      WalkFrom(docs, entries, x, name, saveIo, i + 1);
    } else if MissStep(x, name, saveIo, Rank(docs, entries, i)).out.Err? {
      WalkFails(docs, entries, x, name, saveIo, i);
    } else {
      WalkMiss(docs, entries, x, name, saveIo, i);
      WalkFrom(docs, entries, x, name, saveIo, i + 1);
    }
  }

  /** The whole loop, from the start, computes `Reassemble`. */
  lemma WalkIsReassemble(docs: seq<Doc>, entries: map<Key, Doc>, x: Exchange, name: string, saveIo: bool)
    ensures Walk(docs, entries, x, name, saveIo, 0, 0, entries, []) == Reassemble(docs, entries, x, name, saveIo)
  {
    assert docs[..0] == [] && x.parsed.items[..0] == [];
    WalkFrom(docs, entries, x, name, saveIo, 0);
    assert StateAt(docs, entries, x, name, saveIo, 0) == BatchOutcome(Ok([]), entries);
  }

  /** `generate_prompts` then the backend, over the misses only. */
  function Query(misses: seq<Doc>, task: Task, backend: Backend): (r: Result<Exchange>)
    ensures r.Ok? <==> task.generatePrompts(misses).Ok? && backend(task.generatePrompts(misses).value).Ok?
    ensures task.generatePrompts(misses).Err? ==> r == Err(task.generatePrompts(misses).error)
    ensures task.generatePrompts(misses).Ok? && backend(task.generatePrompts(misses).value).Err?
            ==> r == Err(backend(task.generatePrompts(misses).value).error)
    ensures r.Ok? ==> && r.value.prompts == task.generatePrompts(misses).value
                      && r.value.responses == backend(r.value.prompts).value
                      && r.value.parsed == task.parseResponses(misses, r.value.responses)
  {
    match task.generatePrompts(misses)
    case Err(e) => Err(e)
    case Ok(prompts) =>
      match backend(prompts)
      case Err(e) => Err(e)
      case Ok(responses) => Ok(Exchange(prompts, responses, task.parseResponses(misses, responses)))
  }

  /** What the task and the backend hand back for a batch: nothing at all
      when every doc is a cache hit (neither is called), else `Query` over
      the misses. */
  function ExchangeOf(docs: seq<Doc>, entries: map<Key, Doc>, task: Task, backend: Backend): (r: Result<Exchange>)
    ensures (forall i :: 0 <= i < |docs| ==> IsHit(entries, docs[i])) ==> r == Ok(NoExchange)
    ensures Misses(docs, entries) != [] ==> r == Query(Misses(docs, entries), task, backend)
  {
    NoMissesIffAllHits(docs, entries);
    var misses := Misses(docs, entries);
    if misses == [] then Ok(NoExchange) else Query(misses, task, backend)
  }

  /** `_process_docs` over a batch, starting from cache contents `entries`. */
  function ProcessBatch(docs: seq<Doc>, entries: map<Key, Doc>, task: Task, backend: Backend, name: string, saveIo: bool): (o: BatchOutcome)
    ensures o.result.Ok? ==> |o.result.value| == |docs|
    ensures entries.Keys <= o.entries.Keys
    ensures Misses(docs, entries) == [] ==> o.result.Ok? && o.entries == entries
    ensures Misses(docs, entries) == [] ==> o == Reassemble(docs, entries, NoExchange, name, saveIo)
  {
    match ExchangeOf(docs, entries, task, backend)
    case Err(e) => BatchOutcome(Err(e), entries)
    case Ok(x) => Reassemble(docs, entries, x, name, saveIo)
  }
}
