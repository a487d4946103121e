/**
 * The device's string key-value storage (AsyncStorage), seen as a map from
 * keys to stored strings. The real store is asynchronous and foreign; here
 * every call is synchronous, and whether the platform rejects a call is an
 * input (`fault`), since nothing in the program decides it.
 */
module Storage {
  import opened Wrappers

  /** What `getItem(key)` yields: the stored string, or null when the key is absent. */
  function Lookup(m: map<string, string>, key: string): (r: Option<string>)
    ensures r.Some? <==> key in m
    ensures r.Some? ==> r.value == m[key]
  {
    if key in m then Some(m[key]) else None
  }

  /**
   * The map after `multiSet(pairs)`: the pairs are written left to right,
   * so a key keeps its old value unless written, and a written key ends
   * with the value of its last pair.
   */
  function SetAll(m: map<string, string>, pairs: seq<(string, string)>): (r: map<string, string>)
    ensures r.Keys == m.Keys + set p | p in pairs :: p.0
    ensures forall k :: k in m && k !in (set p | p in pairs :: p.0) ==> r[k] == m[k]
    ensures forall i :: 0 <= i < |pairs| && LastWrite(pairs, i) ==> r[pairs[i].0] == pairs[i].1
    decreases |pairs|
  {
    if pairs == [] then m
    else
      var r := SetAll(m[pairs[0].0 := pairs[0].1], pairs[1..]);
      assert forall i :: 1 <= i < |pairs| && LastWrite(pairs, i) ==> LastWrite(pairs[1..], i - 1) by {
        forall i | 1 <= i < |pairs| && LastWrite(pairs, i) ensures LastWrite(pairs[1..], i - 1) {
          forall j | i - 1 < j < |pairs[1..]| ensures pairs[1..][j].0 != pairs[1..][i - 1].0 {
            assert pairs[1..][j] == pairs[j + 1];
          }
        }
      }
      assert LastWrite(pairs, 0) ==> pairs[0].0 !in (set p | p in pairs[1..] :: p.0) by {
        if LastWrite(pairs, 0) {
          forall p | p in pairs[1..] ensures p.0 != pairs[0].0 {
            var j :| 0 <= j < |pairs[1..]| && pairs[1..][j] == p;
            assert pairs[j + 1] == p;
          }
        }
      }
      r
  }

  /** No later pair in `pairs` writes the key of pair `i`. */
  predicate LastWrite(pairs: seq<(string, string)>, i: nat)
    requires i < |pairs|
  {
    forall j :: i < j < |pairs| ==> pairs[j].0 != pairs[i].0
  }

  /** The map after `multiRemove(keys)`. */
  function RemoveAll(m: map<string, string>, keys: seq<string>): (r: map<string, string>)
    ensures r.Keys == m.Keys - set k | k in keys
    ensures forall k :: k in r ==> r[k] == m[k]
  {
    m - set k | k in keys
  }

  class AsyncStorage {
    var entries: map<string, string>

    constructor (initial: map<string, string>)
      ensures entries == initial
    {
      entries := initial;
    }

    /** `getItem(key)`; `ok` is false when the platform rejects the read. */
    method GetItem(key: string, fault: bool) returns (ok: bool, value: Option<string>)
      ensures ok == !fault
      ensures ok ==> value == Lookup(entries, key)
    {
      ok := !fault;
      value := if ok then Lookup(entries, key) else None;
    }

    /** `multiGet(keys)`: one optional value per key, in the order of `keys`. */
    method MultiGet(keys: seq<string>, fault: bool) returns (ok: bool, values: seq<Option<string>>)
      ensures ok == !fault
      ensures ok ==> |values| == |keys|
      ensures ok ==> forall i :: 0 <= i < |keys| ==> values[i] == Lookup(entries, keys[i])
    {
      ok := !fault;
      var m := entries;
      values := if ok then seq(|keys|, i requires 0 <= i < |keys| => Lookup(m, keys[i])) else [];
    }

    /** `setItem(key, value)`; a rejected write leaves the store as it was. */
    method SetItem(key: string, value: string, fault: bool) returns (ok: bool)
      modifies this
      ensures ok == !fault
      ensures entries == if ok then old(entries)[key := value] else old(entries)
    {
      ok := !fault;
      if ok {
        entries := entries[key := value];
      }
    }

    /** `multiSet(pairs)`; a rejected write leaves the store as it was. */
    method MultiSet(pairs: seq<(string, string)>, fault: bool) returns (ok: bool)
      modifies this
      ensures ok == !fault
      ensures entries == if ok then SetAll(old(entries), pairs) else old(entries)
    {
      ok := !fault;
      if ok {
        entries := SetAll(entries, pairs);
      }
    }

    /** `removeItem(key)`; a rejected removal leaves the store as it was. */
    method RemoveItem(key: string, fault: bool) returns (ok: bool)
      modifies this
      ensures ok == !fault
      ensures entries == if ok then old(entries) - {key} else old(entries)
    {
      ok := !fault;
      if ok {
        entries := entries - {key};
      }
    }

    /** `multiRemove(keys)`; a rejected removal leaves the store as it was. */
    method MultiRemove(keys: seq<string>, fault: bool) returns (ok: bool)
      modifies this
      ensures ok == !fault
      ensures entries == if ok then RemoveAll(old(entries), keys) else old(entries)
    {
      ok := !fault;
      if ok {
        entries := RemoveAll(entries, keys);
      }
    }
  }
}
