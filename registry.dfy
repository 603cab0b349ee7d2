/**
 * The id-to-handle registries of both generations, as values: the current
 * managers insert once (the first registration of an id wins), the legacy
 * plugin replaces (the last one wins). Registering a sequence of entries in
 * order is a fold of the single-entry step.
 */
module Registry {

  /** Insert-once: an id already present keeps its entry; a fresh id is bound and nothing else changes. */
  function InsertOnce<V>(m: map<string, V>, id: string, v: V): (r: map<string, V>)
    ensures r.Keys == m.Keys + {id}
    ensures forall k :: k in m ==> r[k] == m[k]
    ensures id !in m ==> r[id] == v
    ensures |r| == if id in m then |m| else |m| + 1
  {
    if id in m then m else m[id := v]
  }

  /** Replace: the id is bound to the new entry whether or not it was present; no other key changes. */
  function Replace<V>(m: map<string, V>, id: string, v: V): (r: map<string, V>)
    ensures r.Keys == m.Keys + {id}
    ensures r[id] == v
    ensures forall k :: k in m && k != id ==> r[k] == m[k]
    ensures |r| == if id in m then |m| else |m| + 1
  {
    m[id := v]
  }

  /** The ids named by a sequence of entries. */
  function Ids<V>(entries: seq<(string, V)>): set<string>
  {
    set i | 0 <= i < |entries| :: entries[i].0
  }

  /** The registry after inserting `entries` in order, insert-once. */
  function FirstWins<V>(entries: seq<(string, V)>): map<string, V>
  {
    if entries == [] then map[]
    else
      var last := entries[|entries| - 1];
      InsertOnce(FirstWins(entries[..|entries| - 1]), last.0, last.1)
  }

  /** The registry after registering `entries` in order, replacing. */
  function LastWins<V>(entries: seq<(string, V)>): map<string, V>
  {
    if entries == [] then map[]
    else
      var last := entries[|entries| - 1];
      Replace(LastWins(entries[..|entries| - 1]), last.0, last.1)
  }

  /** Registering one more entry insert-once is one InsertOnce step. */
  lemma FirstWinsSnoc<V>(entries: seq<(string, V)>, id: string, v: V)
    ensures FirstWins(entries + [(id, v)]) == InsertOnce(FirstWins(entries), id, v)
  {
    assert (entries + [(id, v)])[..|entries|] == entries;
  }

  /** Registering one more entry with replacement is one Replace step. */
  lemma LastWinsSnoc<V>(entries: seq<(string, V)>, id: string, v: V)
    ensures LastWins(entries + [(id, v)]) == Replace(LastWins(entries), id, v)
  {
    assert (entries + [(id, v)])[..|entries|] == entries;
  }

  lemma IdsOfInit<V>(entries: seq<(string, V)>)
    requires entries != []
    ensures Ids(entries) == Ids(entries[..|entries| - 1]) + {entries[|entries| - 1].0}
  {
    var init := entries[..|entries| - 1];
    forall id | id in Ids(entries) ensures id in Ids(init) + {entries[|entries| - 1].0} {
      var i :| 0 <= i < |entries| && entries[i].0 == id;
      if i < |entries| - 1 { assert init[i] == entries[i]; }
    }
    forall id | id in Ids(init) ensures id in Ids(entries) {
      var i :| 0 <= i < |init| && init[i].0 == id;
      assert entries[i] == init[i];
    }
  }

  /** Exactly the ids that were registered end up in the insert-once registry. */
  lemma {:induction false} FirstWinsKeys<V>(entries: seq<(string, V)>)
    ensures FirstWins(entries).Keys == Ids(entries)
    decreases |entries|
  {
    if entries != [] {
      FirstWinsKeys(entries[..|entries| - 1]);
      IdsOfInit(entries);
    }
  }

  /** Exactly the ids that were registered end up in the replacing registry. */
  lemma {:induction false} LastWinsKeys<V>(entries: seq<(string, V)>)
    ensures LastWins(entries).Keys == Ids(entries)
    decreases |entries|
  {
    if entries != [] {
      LastWinsKeys(entries[..|entries| - 1]);
      IdsOfInit(entries);
    }
  }

  /** With insert-once, an id is bound to the entry of its earliest registration. */
  lemma {:induction false} FirstWinsKeepsEarliest<V>(entries: seq<(string, V)>, i: nat)
    requires i < |entries|
    requires forall j :: 0 <= j < i ==> entries[j].0 != entries[i].0
    ensures entries[i].0 in FirstWins(entries)
    ensures FirstWins(entries)[entries[i].0] == entries[i].1
    decreases |entries|
  {
    var init := entries[..|entries| - 1];
    if i == |entries| - 1 {
      FirstWinsKeys(init);
      forall j | 0 <= j < |init| ensures init[j].0 != entries[i].0 {
        assert init[j] == entries[j];
      }
    } else {
      assert init[i] == entries[i];
      FirstWinsKeepsEarliest(init, i);
    }
  }

  /** With replacement, an id is bound to the entry of its latest registration. */
  lemma {:induction false} LastWinsKeepsLatest<V>(entries: seq<(string, V)>, i: nat)
    requires i < |entries|
    requires forall j :: i < j < |entries| ==> entries[j].0 != entries[i].0
    ensures entries[i].0 in LastWins(entries)
    ensures LastWins(entries)[entries[i].0] == entries[i].1
    decreases |entries|
  {
    var init := entries[..|entries| - 1];
    if i < |entries| - 1 {
      assert init[i] == entries[i];
      LastWinsKeepsLatest(init, i);
    }
  }
}
