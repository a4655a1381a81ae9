/** What processing a batch guarantees: order, hits served from the cache,
    the k-th miss paired with the k-th parsed doc, prompt and response, the
    cache writes, and what a failure part-way through leaves behind. */
module BatchLaws {
  import opened LlmTypes
  import opened DocCache
  import opened Journal
  import opened Batch

  /** The task's contract for `parse_responses`: the k-th parsed doc is the
      k-th input doc annotated, so it keeps that doc's key. */
  ghost predicate ParseKeepsKeys(task: Task)
  {
    forall ds: seq<Doc>, rs: seq<Response>, k: nat {:trigger task.parseResponses(ds, rs).items[k]} ::
      k < |ds| && k < |task.parseResponses(ds, rs).items| ==>
        KeyOf(task.parseResponses(ds, rs).items[k]) == KeyOf(ds[k])
  }

  /** On success, the whole exchange was consumed in step: every miss found
      its parsed doc, and the output at each position is `OutputAt`. */
  lemma {:induction false} SuccessShape(docs: seq<Doc>, entries: map<Key, Doc>, task: Task, backend: Backend, name: string, saveIo: bool)
    requires ProcessBatch(docs, entries, task, backend, name, saveIo).result.Ok?
    ensures ExchangeOf(docs, entries, task, backend).Ok?
    ensures var x := ExchangeOf(docs, entries, task, backend).value;
            var m := |Misses(docs, entries)|;
            && StepsOk(x, name, saveIo, m)
            && m <= |x.parsed.items|
            && ProcessBatch(docs, entries, task, backend, name, saveIo).entries == AddAll(entries, x.parsed.items[..m])
  {
    var x := ExchangeOf(docs, entries, task, backend).value;
    var m := |Misses(docs, entries)|;
    assert FirstFailure(x, name, saveIo, m).None?;
    StepsOkConsumed(x, name, saveIo, m);
  }

  /** Position `i` of a successful output is `OutputAt(i)`. */
  lemma OutputAtPosition(docs: seq<Doc>, entries: map<Key, Doc>, task: Task, backend: Backend, name: string, saveIo: bool, i: nat)
    requires ProcessBatch(docs, entries, task, backend, name, saveIo).result.Ok?
    requires i < |docs|
    ensures ExchangeOf(docs, entries, task, backend).Ok?
    ensures var x := ExchangeOf(docs, entries, task, backend).value;
            && StepsOk(x, name, saveIo, Rank(docs, entries, i + 1))
            && ProcessBatch(docs, entries, task, backend, name, saveIo).result.value[i] == OutputAt(docs, entries, x, name, saveIo, i)
  {
    SuccessShape(docs, entries, task, backend, name, saveIo);
    var x := ExchangeOf(docs, entries, task, backend).value;
    ReassembleSucceeds(docs, entries, x, name, saveIo);
    OutputsAt(docs, entries, x, name, saveIo, |docs|, i);
  }

  /** A cache hit receives exactly the doc the cache held before the batch,
      provided the task keeps keys (so no miss of the batch overwrote it). */
  lemma HitServedFromCache(docs: seq<Doc>, entries: map<Key, Doc>, task: Task, backend: Backend, name: string, saveIo: bool, i: nat)
    requires ProcessBatch(docs, entries, task, backend, name, saveIo).result.Ok?
    requires i < |docs| && IsHit(entries, docs[i])
    requires ParseKeepsKeys(task)
    ensures ProcessBatch(docs, entries, task, backend, name, saveIo).result.value[i] == entries[KeyOf(docs[i])]
  {
    OutputAtPosition(docs, entries, task, backend, name, saveIo, i);
    var x := ExchangeOf(docs, entries, task, backend).value;
    var misses := Misses(docs, entries);
    var r := Rank(docs, entries, i);
    RankStep(docs, entries, i);
    StepsOkConsumed(x, name, saveIo, r);
    RankMonotone(docs, entries, i, |docs|);
    RankAll(docs, entries);
    var added := x.parsed.items[..r];
    forall d | d in added
      ensures KeyOf(d) != KeyOf(docs[i])
    {
      var j :| 0 <= j < |added| && added[j] == d;
      assert misses != [];
      assert x.parsed == task.parseResponses(misses, x.responses);
      assert KeyOf(task.parseResponses(misses, x.responses).items[j]) == KeyOf(misses[j]);
      assert misses[j] in misses;
    }
    assert KeyOf(docs[i]) !in KeysOf(added);
  }

  /** The `k`-th miss (counting from the left) receives the `k`-th parsed
      doc; with `save_io` that doc also carries the `k`-th prompt and the
      `k`-th response under the component's name, and nothing else changes. */
  lemma MissGetsKthParsed(docs: seq<Doc>, entries: map<Key, Doc>, task: Task, backend: Backend, name: string, saveIo: bool, i: nat)
    requires ProcessBatch(docs, entries, task, backend, name, saveIo).result.Ok?
    requires i < |docs| && !IsHit(entries, docs[i])
    ensures Misses(docs, entries) != []
    ensures Query(Misses(docs, entries), task, backend).Ok?
    ensures var x := Query(Misses(docs, entries), task, backend).value;
            var k := Rank(docs, entries, i);
            var out := ProcessBatch(docs, entries, task, backend, name, saveIo).result.value[i];
            && k < |x.parsed.items|
            && (!saveIo ==> out == x.parsed.items[k])
            && (saveIo ==> k < |x.prompts| && k < |x.responses| && Recorded(x.parsed.items[k], out, name, x.prompts[k], x.responses[k]))
  {
    MissPosition(docs, entries, i);
    OutputAtPosition(docs, entries, task, backend, name, saveIo, i);
    RankStep(docs, entries, i);
    var x := Query(Misses(docs, entries), task, backend).value;
    if saveIo && Rank(docs, entries, i) < |x.parsed.items| {
      MissStepJournal(x, name, saveIo, Rank(docs, entries, i));
    }
  }

  /** After a successful batch the cache holds what it held before plus, in
      order, one write per miss: the miss's parsed doc (so `k` writes for `k`
      misses and none for a hit). A parsed doc not overwritten by a later miss
      with the same key is what the cache then returns for that key. */
  lemma CacheWritesOnePerMiss(docs: seq<Doc>, entries: map<Key, Doc>, task: Task, backend: Backend, name: string, saveIo: bool)
    requires ProcessBatch(docs, entries, task, backend, name, saveIo).result.Ok?
    ensures var m := |Misses(docs, entries)|;
            var x := ExchangeOf(docs, entries, task, backend).value;
            var after := ProcessBatch(docs, entries, task, backend, name, saveIo).entries;
            && m <= |x.parsed.items|
            && after == AddAll(entries, x.parsed.items[..m])
            && (forall k :: 0 <= k < m && (forall j :: k < j < m ==> KeyOf(x.parsed.items[j]) != KeyOf(x.parsed.items[k]))
                  ==> after[KeyOf(x.parsed.items[k])] == x.parsed.items[k])
  {
    SuccessShape(docs, entries, task, backend, name, saveIo);
    var m := |Misses(docs, entries)|;
    var x := ExchangeOf(docs, entries, task, backend).value;
    forall k | 0 <= k < m && (forall j :: k < j < m ==> KeyOf(x.parsed.items[j]) != KeyOf(x.parsed.items[k]))
      ensures AddAll(entries, x.parsed.items[..m])[KeyOf(x.parsed.items[k])] == x.parsed.items[k]
    {
      AddAllLastWriter(entries, x.parsed.items[..m], k);
    }
  }

  /** With a key-keeping task, the keys the cache gains are exactly the keys
      of the batch's misses, and every hit's entry is left as it was. */
  lemma CacheGainsMissKeys(docs: seq<Doc>, entries: map<Key, Doc>, task: Task, backend: Backend, name: string, saveIo: bool)
    requires ProcessBatch(docs, entries, task, backend, name, saveIo).result.Ok?
    requires ParseKeepsKeys(task)
    ensures var after := ProcessBatch(docs, entries, task, backend, name, saveIo).entries;
            && after.Keys == entries.Keys + KeysOf(Misses(docs, entries))
            && forall k :: k in entries ==> after[k] == entries[k]
  {
    SuccessShape(docs, entries, task, backend, name, saveIo);
    var misses := Misses(docs, entries);
    var x := ExchangeOf(docs, entries, task, backend).value;
    ParsedKeysAreInputKeys(task, misses, x.responses);
  }

  /** A key-keeping task's parsed docs, one per input doc, carry exactly the
      input docs' keys. */
  lemma ParsedKeysAreInputKeys(task: Task, ds: seq<Doc>, rs: seq<Response>)
    requires ParseKeepsKeys(task) && |ds| <= |task.parseResponses(ds, rs).items|
    ensures KeysOf(task.parseResponses(ds, rs).items[..|ds|]) == KeysOf(ds)
  {
    var parsed := task.parseResponses(ds, rs).items;
    var added := parsed[..|ds|];
    forall key | key in KeysOf(added) ensures key in KeysOf(ds) {
      var j :| 0 <= j < |ds| && KeyOf(added[j]) == key;
      assert KeyOf(parsed[j]) == KeyOf(ds[j]);
      assert ds[j] in ds;
    }
    forall key | key in KeysOf(ds) ensures key in KeysOf(added) {
      var j :| 0 <= j < |ds| && KeyOf(ds[j]) == key;
      assert KeyOf(parsed[j]) == KeyOf(ds[j]);
      assert added[j] in added;
    }
  }

  /** A failure leaves the cache as before the batch when the task or the
      backend raised up front, and otherwise holds the parsed docs of the
      first `w` misses: the batch is not atomic. */
  lemma FailureLeavesPrefix(docs: seq<Doc>, entries: map<Key, Doc>, task: Task, backend: Backend, name: string, saveIo: bool) returns (w: nat)
    requires ProcessBatch(docs, entries, task, backend, name, saveIo).result.Err?
    ensures ExchangeOf(docs, entries, task, backend).Err? ==>
              ProcessBatch(docs, entries, task, backend, name, saveIo).entries == entries
    ensures ExchangeOf(docs, entries, task, backend).Ok? ==>
              var x := ExchangeOf(docs, entries, task, backend).value;
              && w <= |Misses(docs, entries)| && w <= |x.parsed.items|
              && ProcessBatch(docs, entries, task, backend, name, saveIo).entries == AddAll(entries, x.parsed.items[..w])
  {
    match ExchangeOf(docs, entries, task, backend)
    case Err(_) =>
      w := 0;
    case Ok(x) =>
      var m := |Misses(docs, entries)|;
      var f := FirstFailure(x, name, saveIo, m).value;
      StepsOkConsumed(x, name, saveIo, f);
      w := Written(x, name, saveIo, f);
  }

  /** A concrete batch that fails after one write: the first miss is parsed
      and cached, then the parse stream raises on the second. */
  lemma PartialWriteExample()
    ensures
      var a, b := Doc("a", [], map[]), Doc("b", [], map[]);
      var task := Task(
        ds => Ok(seq(|ds|, _ => "prompt")),
        (ds: seq<Doc>, rs: seq<Response>) => Lazy(if ds == [] then [] else [ds[0]], Some(Raised("parse failed"))),
        None);
      var backend: Backend := ps => Ok(ps);
      ProcessBatch([a, b], map[], task, backend, "llm", false) == BatchOutcome(Err(Raised("parse failed")), map["a" := a])
  {
    var a, b := Doc("a", [], map[]), Doc("b", [], map[]);
    var task := Task(
      ds => Ok(seq(|ds|, _ => "prompt")),
      (ds: seq<Doc>, rs: seq<Response>) => Lazy(if ds == [] then [] else [ds[0]], Some(Raised("parse failed"))),
      None);
    var backend: Backend := ps => Ok(ps);
    var docs := [a, b];
    assert docs[..1] == [a];
    assert Misses([a], map[]) == [a];
    assert Misses(docs, map[]) == [a, b];
    var x := ExchangeOf(docs, map[], task, backend).value;
    assert x.parsed.items == [a];
    assert MissStep(x, "llm", false, 0).out.Ok?;
    assert MissStep(x, "llm", false, 1).out == Err(Raised("parse failed"));
    ReassembleFailsAt(docs, map[], x, "llm", false, 1);
    assert x.parsed.items[..1] == [a];
    assert AddAll(map[], [a]) == map["a" := a] by {
      assert [a][..0] == [];
    }
  }

  /** Every output doc has the key of the input doc at its position, and the
      cache stays well keyed (each doc under its own key). */
  lemma OutputKeysFollowInput(docs: seq<Doc>, entries: map<Key, Doc>, task: Task, backend: Backend, name: string, saveIo: bool)
    requires WellKeyed(entries) && ParseKeepsKeys(task)
    requires ProcessBatch(docs, entries, task, backend, name, saveIo).result.Ok?
    ensures var out := ProcessBatch(docs, entries, task, backend, name, saveIo).result.value;
            forall i :: 0 <= i < |docs| ==> KeyOf(out[i]) == KeyOf(docs[i])
  {
    var out := ProcessBatch(docs, entries, task, backend, name, saveIo).result.value;
    forall i | 0 <= i < |docs|
      ensures KeyOf(out[i]) == KeyOf(docs[i])
    {
      if IsHit(entries, docs[i]) {
        HitKey(docs, entries, task, backend, name, saveIo, i);
      } else {
        MissKey(docs, entries, task, backend, name, saveIo, i);
      }
    }
  }

  lemma MissKey(docs: seq<Doc>, entries: map<Key, Doc>, task: Task, backend: Backend, name: string, saveIo: bool, i: nat)
    requires ParseKeepsKeys(task)
    requires ProcessBatch(docs, entries, task, backend, name, saveIo).result.Ok?
    requires i < |docs| && !IsHit(entries, docs[i])
    ensures KeyOf(ProcessBatch(docs, entries, task, backend, name, saveIo).result.value[i]) == KeyOf(docs[i])
  {
    MissGetsKthParsed(docs, entries, task, backend, name, saveIo, i);
    MissPosition(docs, entries, i);
    var misses := Misses(docs, entries);
    var x := Query(misses, task, backend).value;
    var k := Rank(docs, entries, i);
    var out := ProcessBatch(docs, entries, task, backend, name, saveIo).result.value[i];
    assert KeyOf(out) == KeyOf(x.parsed.items[k]);
    ParsedKey(task, misses, x.responses, k);
  }

  lemma ParsedKey(task: Task, ds: seq<Doc>, rs: seq<Response>, k: nat)
    requires ParseKeepsKeys(task)
    requires k < |ds| && k < |task.parseResponses(ds, rs).items|
    ensures KeyOf(task.parseResponses(ds, rs).items[k]) == KeyOf(ds[k])
  {
  }

  lemma HitKey(docs: seq<Doc>, entries: map<Key, Doc>, task: Task, backend: Backend, name: string, saveIo: bool, i: nat)
    requires WellKeyed(entries)
    requires ProcessBatch(docs, entries, task, backend, name, saveIo).result.Ok?
    requires i < |docs| && IsHit(entries, docs[i])
    ensures KeyOf(ProcessBatch(docs, entries, task, backend, name, saveIo).result.value[i]) == KeyOf(docs[i])
  {
    OutputAtPosition(docs, entries, task, backend, name, saveIo, i);
    var x := ExchangeOf(docs, entries, task, backend).value;
    var r := Rank(docs, entries, i);
    RankStep(docs, entries, i);
    StepsOkConsumed(x, name, saveIo, r);
    AddAllWellKeyed(entries, x.parsed.items[..r]);
  }

  /** Whatever happens, every doc the cache holds sits under its own key. */
  lemma BatchKeepsCacheWellKeyed(docs: seq<Doc>, entries: map<Key, Doc>, task: Task, backend: Backend, name: string, saveIo: bool)
    requires WellKeyed(entries)
    ensures WellKeyed(ProcessBatch(docs, entries, task, backend, name, saveIo).entries)
  {
    var o := ProcessBatch(docs, entries, task, backend, name, saveIo);
    if o.result.Ok? {
      SuccessShape(docs, entries, task, backend, name, saveIo);
      var x := ExchangeOf(docs, entries, task, backend).value;
      AddAllWellKeyed(entries, x.parsed.items[..|Misses(docs, entries)|]);
    } else {
      var w := FailureLeavesPrefix(docs, entries, task, backend, name, saveIo);
      if ExchangeOf(docs, entries, task, backend).Ok? {
        AddAllWellKeyed(entries, ExchangeOf(docs, entries, task, backend).value.parsed.items[..w]);
      }
    }
  }

  /** Running a batch again after it succeeded finds every doc in the cache,
      so the task and the backend are not consulted the second time. */
  lemma RerunIsAllHits(docs: seq<Doc>, entries: map<Key, Doc>, task: Task, backend: Backend, name: string, saveIo: bool)
    requires ParseKeepsKeys(task)
    requires ProcessBatch(docs, entries, task, backend, name, saveIo).result.Ok?
    ensures var after := ProcessBatch(docs, entries, task, backend, name, saveIo).entries;
            && Misses(docs, after) == []
            && forall task': Task, backend': Backend {:trigger ProcessBatch(docs, after, task', backend', name, saveIo)} ::
                 ProcessBatch(docs, after, task', backend', name, saveIo) == Reassemble(docs, after, NoExchange, name, saveIo)
  {
    var after := ProcessBatch(docs, entries, task, backend, name, saveIo).entries;
    CacheGainsMissKeys(docs, entries, task, backend, name, saveIo);
    forall i | 0 <= i < |docs|
      ensures IsHit(after, docs[i])
    {
      if !IsHit(entries, docs[i]) {
        MissPosition(docs, entries, i);
        var misses := Misses(docs, entries);
        assert misses[Rank(docs, entries, i)] in misses;
      }
    }
    NoMissesIffAllHits(docs, after);
  }
}
