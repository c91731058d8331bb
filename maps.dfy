/**
 * Dicts built by a loop of `d[k] = v` assignments: a later assignment to
 * the same key overwrites an earlier one.
 */
module Maps {
  import opened Wrappers

  /** The dict after assigning every present entry, in order. */
  function Collect<K(==), V>(entries: seq<Option<(K, V)>>): map<K, V>
  {
    if entries == [] then map[]
    else
      var m := Collect(entries[..|entries| - 1]);
      match entries[|entries| - 1]
      case None => m
      case Some(kv) => m[kv.0 := kv.1]
  }

  /** The entry assigns to `k`. */
  predicate Writes<K(==), V>(e: Option<(K, V)>, k: K) {
    e.Some? && e.value.0 == k
  }

  /** A key is in the dict exactly when some entry assigns to it. */
  lemma {:induction false} CollectKeys<K, V>(entries: seq<Option<(K, V)>>, k: K)
    ensures k in Collect(entries) <==> exists j :: 0 <= j < |entries| && Writes(entries[j], k)
  {
    if entries != [] {
      var n := |entries| - 1;
      var init := entries[..n];
      CollectKeys(init, k);
      if k in Collect(init) {
        var j :| 0 <= j < |init| && Writes(init[j], k);
        assert entries[j] == init[j];
      }
      if exists j :: 0 <= j < |entries| && Writes(entries[j], k) {
        var j :| 0 <= j < |entries| && Writes(entries[j], k);
        if j < n {
          assert init[j] == entries[j];
        }
      }
    }
  }

  /** The last assignment to a key is the one that stays. */
  lemma {:induction false} CollectLastWins<K, V>(entries: seq<Option<(K, V)>>, j: nat)
    requires j < |entries| && entries[j].Some?
    requires forall l :: j < l < |entries| ==> !Writes(entries[l], entries[j].value.0)
    ensures entries[j].value.0 in Collect(entries)
    ensures Collect(entries)[entries[j].value.0] == entries[j].value.1
  {
    var n := |entries| - 1;
    var init := entries[..n];
    if j < n {
      assert init[j] == entries[j];
      assert !Writes(entries[n], entries[j].value.0);
      CollectLastWins(init, j);
    }
  }

  /** Appending an entry assigns it last. */
  lemma CollectSnoc<K, V>(entries: seq<Option<(K, V)>>, e: Option<(K, V)>)
    ensures Collect(entries + [e]) == if e.Some? then Collect(entries)[e.value.0 := e.value.1] else Collect(entries)
  {
    assert (entries + [e])[..|entries|] == entries;
  }
}
