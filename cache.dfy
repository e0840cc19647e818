/**
 * The details cache both adapters keep: a map from product id to the last
 * details the vendor returned for it. A successful query response is stored
 * with one `put` per returned record, in list order.
 */
module DetailsCache {

  /** The cache after `cache.put(key(e), e)` for each `e` of `entries`, in order. */
  function PutAll<V>(cache: map<string, V>, entries: seq<V>, key: V -> string): map<string, V>
    decreases |entries|
  {
    if entries == [] then cache
    else
      var last := entries[|entries| - 1];
      PutAll(cache, entries[..|entries| - 1], key)[key(last) := last]
  }

  /** The ids in the cache afterwards are the old ones plus every returned id. */
  lemma {:induction false} PutAllKeys<V>(cache: map<string, V>, entries: seq<V>, key: V -> string)
    ensures PutAll(cache, entries, key).Keys == cache.Keys + set e | e in entries :: key(e)
    decreases |entries|
  {
    if entries != [] {
      var init := entries[..|entries| - 1];
      var last := entries[|entries| - 1];
      PutAllKeys(cache, init, key);
      assert entries == init + [last];
      assert (set e | e in entries :: key(e)) == (set e | e in init :: key(e)) + {key(last)};
    }
  }

  /** Last write wins: a record no later record shares its id with is what the cache holds for that id. */
  lemma {:induction false} PutAllLastWins<V>(cache: map<string, V>, entries: seq<V>, key: V -> string, i: nat)
    requires i < |entries|
    requires forall j :: i < j < |entries| ==> key(entries[j]) != key(entries[i])
    ensures key(entries[i]) in PutAll(cache, entries, key)
    ensures PutAll(cache, entries, key)[key(entries[i])] == entries[i]
    decreases |entries|
  {
    if i < |entries| - 1 {
      var init := entries[..|entries| - 1];
      assert init[i] == entries[i];
      PutAllLastWins(cache, init, key, i);
    }
  }

  /** An id none of the returned records carries keeps its old entry, or stays absent. */
  lemma {:induction false} PutAllUntouched<V>(cache: map<string, V>, entries: seq<V>, key: V -> string, id: string)
    requires forall j :: 0 <= j < |entries| ==> key(entries[j]) != id
    ensures id in PutAll(cache, entries, key) <==> id in cache
    ensures id in cache ==> PutAll(cache, entries, key)[id] == cache[id]
    decreases |entries|
  {
    if entries != [] {
      PutAllUntouched(cache, entries[..|entries| - 1], key, id);
    }
  }

  /** A cache whose every entry is stored under its own key stays so. */
  lemma {:induction false} PutAllKeyed<V>(cache: map<string, V>, entries: seq<V>, key: V -> string)
    requires forall id :: id in cache ==> key(cache[id]) == id
    ensures var result := PutAll(cache, entries, key);
      forall id :: id in result ==> key(result[id]) == id
    decreases |entries|
  {
    if entries != [] {
      var init := entries[..|entries| - 1];
      var last := entries[|entries| - 1];
      PutAllKeyed(cache, init, key);
      assert PutAll(cache, entries, key) == PutAll(cache, init, key)[key(last) := last];
    }
  }
}
