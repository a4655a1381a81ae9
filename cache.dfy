/** The doc cache the component reads and writes: a map from a doc's key to
    the annotated doc stored for it. Storage, paging and eviction belong to
    the cache implementation and are not modelled; nothing here removes an
    entry. */
module DocCache {
  import opened LlmTypes

  /** Every stored doc sits under its own key. */
  ghost predicate WellKeyed(entries: map<Key, Doc>)
  {
    forall k :: k in entries ==> KeyOf(entries[k]) == k
  }

  function KeysOf(ds: seq<Doc>): set<Key>
  {
    set d | d in ds :: KeyOf(d)
  }

  /** The cache after adding `ds` one after the other; a later doc with the
      same key overwrites an earlier one. */
  function AddAll(entries: map<Key, Doc>, ds: seq<Doc>): (r: map<Key, Doc>)
    ensures r.Keys == entries.Keys + KeysOf(ds)
    ensures forall k :: k in entries && k !in KeysOf(ds) ==> r[k] == entries[k]
    decreases |ds|
  {
    if ds == [] then entries
    else
      var init, last := ds[..|ds| - 1], ds[|ds| - 1];
      assert ds == init + [last];
      assert KeysOf(ds) == KeysOf(init) + {KeyOf(last)};
      AddAll(entries, init)[KeyOf(last) := last]
  }

  lemma {:induction false} AddAllLastWriter(entries: map<Key, Doc>, ds: seq<Doc>, k: nat)
    requires k < |ds|
    requires forall j :: k < j < |ds| ==> KeyOf(ds[j]) != KeyOf(ds[k])
    ensures AddAll(entries, ds)[KeyOf(ds[k])] == ds[k]
    decreases |ds|
  {
    if k < |ds| - 1 {
      var init := ds[..|ds| - 1];
      AddAllLastWriter(entries, init, k);
    }
  }

  lemma {:induction false} AddAllWellKeyed(entries: map<Key, Doc>, ds: seq<Doc>)
    requires WellKeyed(entries)
    ensures WellKeyed(AddAll(entries, ds))
    decreases |ds|
  {
    if ds != [] {
      AddAllWellKeyed(entries, ds[..|ds| - 1]);
    }
  }

  lemma AddAllPrefix(entries: map<Key, Doc>, ds: seq<Doc>, n: nat)
    requires n < |ds|
    ensures AddAll(entries, ds[..n + 1]) == AddAll(entries, ds[..n])[KeyOf(ds[n]) := ds[n]]
  {
    assert ds[..n + 1][..n] == ds[..n];
  }

  class Cache {
    var entries: map<Key, Doc>

    ghost predicate Valid()
      reads this
    {
      WellKeyed(entries)
    }

    constructor ()
      ensures Valid() && entries == map[]
    {
      entries := map[];
    }

    /** `doc in cache` */
    method Contains(d: Doc) returns (b: bool)
      ensures b <==> KeyOf(d) in entries
    {
      b := KeyOf(d) in entries;
    }

    /** `cache[doc]`: the stored doc, or `None` when there is none. */
    method Get(d: Doc) returns (r: Option<Doc>)
      ensures r.Some? <==> KeyOf(d) in entries
      ensures r.Some? ==> r.value == entries[KeyOf(d)]
      ensures Valid() && r.Some? ==> KeyOf(r.value) == KeyOf(d)
    {
      r := if KeyOf(d) in entries then Some(entries[KeyOf(d)]) else None;
    }

    /** `cache.add(doc)`: stores `d` under its key, replacing an older entry. */
    method Add(d: Doc)
      modifies this
      ensures entries == old(entries)[KeyOf(d) := d]
      ensures old(Valid()) ==> Valid()
    {
      entries := entries[KeyOf(d) := d];
    }
  }
}
