/** Python dictionaries with string keys, whose iteration order is the order
    in which keys were first inserted. A dictionary is the sequence of its
    entries in that order; keys are distinct. */
module Dicts {
  import opened Wire

  type Dict<V> = seq<(string, V)>

  predicate DistinctKeys<V>(d: Dict<V>) {
    forall i, j :: 0 <= i < j < |d| ==> d[i].0 != d[j].0
  }

  function Keys<V>(d: Dict<V>): (ks: seq<string>)
    ensures |ks| == |d|
    ensures forall i :: 0 <= i < |d| ==> ks[i] == d[i].0
  {
    if d == [] then [] else [d[0].0] + Keys(d[1..])
  }

  /** Position of key `k`, or -1. */
  function IndexOf<V>(d: Dict<V>, k: string): (r: int)
    ensures -1 <= r < |d|
    ensures r >= 0 ==> d[r].0 == k
    ensures r < 0 ==> forall i :: 0 <= i < |d| ==> d[i].0 != k
  {
    if d == [] then -1
    else if d[0].0 == k then 0
    else
      var r := IndexOf(d[1..], k);
      if r < 0 then -1 else r + 1
  }

  predicate HasKey<V>(d: Dict<V>, k: string) {
    IndexOf(d, k) >= 0
  }

  /** `d.get(k)`. */
  function Lookup<V>(d: Dict<V>, k: string): Option<V> {
    var i := IndexOf(d, k);
    if i < 0 then None else Some(d[i].1)
  }

  /** `d[k] = v`: an existing key keeps its position, a new key goes last. */
  function Put<V>(d: Dict<V>, k: string, v: V): (r: Dict<V>)
    ensures HasKey(d, k) ==> |r| == |d| && r[IndexOf(d, k)] == (k, v)
    ensures HasKey(d, k) ==> forall i :: 0 <= i < |d| && i != IndexOf(d, k) ==> r[i] == d[i]
    ensures !HasKey(d, k) ==> r == d + [(k, v)]
  {
    var i := IndexOf(d, k);
    if i < 0 then d + [(k, v)] else d[i := (k, v)]
  }

  /** `del d[k]` when present; nothing happens otherwise. */
  function Delete<V>(d: Dict<V>, k: string): (r: Dict<V>)
    ensures !HasKey(d, k) ==> r == d
    ensures HasKey(d, k) ==> |r| == |d| - 1
  {
    var i := IndexOf(d, k);
    if i < 0 then d else d[..i] + d[i + 1..]
  }

  /** With distinct keys, a key's position is the one entry that holds it. */
  lemma IndexOfUnique<V>(d: Dict<V>, k: string, i: nat)
    requires DistinctKeys(d) && i < |d| && d[i].0 == k
    ensures IndexOf(d, k) == i
  {
  }

  /** Writing a key makes it read back, and leaves every other key alone. */
  lemma PutThenLookup<V>(d: Dict<V>, k: string, v: V, other: string)
    requires DistinctKeys(d)
    ensures DistinctKeys(Put(d, k, v))
    ensures Lookup(Put(d, k, v), k) == Some(v)
    ensures other != k ==> Lookup(Put(d, k, v), other) == Lookup(d, other)
  {
    var r := Put(d, k, v);
    var i := IndexOf(d, k);
    var ik := if i < 0 then |d| else i;
    assert forall j :: 0 <= j < |r| ==> r[j].0 == (if j < |d| then d[j].0 else k);
    assert DistinctKeys(r);
    IndexOfUnique(r, k, ik);
    if other != k {
      var io := IndexOf(d, other);
      if io >= 0 {
        IndexOfUnique(r, other, io);
      }
    }
  }

  /** Deleting a present key closes the gap: the entries after it move down one. */
  lemma DeleteShifts<V>(d: Dict<V>, k: string)
    requires HasKey(d, k)
    ensures var i, r := IndexOf(d, k), Delete(d, k);
      forall j :: 0 <= j < |r| ==> r[j] == (if j < i then d[j] else d[j + 1])
  {
  }

  /** Deleting a key makes it absent and leaves every other key alone. */
  lemma DeleteThenLookup<V>(d: Dict<V>, k: string, other: string)
    requires DistinctKeys(d)
    ensures DistinctKeys(Delete(d, k))
    ensures Lookup(Delete(d, k), k) == None
    ensures other != k ==> Lookup(Delete(d, k), other) == Lookup(d, other)
  {
    var i := IndexOf(d, k);
    if i >= 0 {
      var r := Delete(d, k);
      assert DistinctKeys(r) by { DeleteShifts(d, k); }
      assert forall j :: 0 <= j < |r| ==> r[j].0 != k by { DeleteShifts(d, k); }
      if other != k {
        var io := IndexOf(d, other);
        if io >= 0 {
          var jo := if io < i then io else io - 1;
          assert r[jo] == d[io] by { DeleteShifts(d, k); }
          IndexOfUnique(r, other, jo);
        } else {
          assert forall j :: 0 <= j < |r| ==> r[j].0 != other by { DeleteShifts(d, k); }
        }
      }
    }
  }

  /** `DeleteThenLookup` for every other key at once. */
  lemma DeleteThenLookupAll<V>(d: Dict<V>, k: string)
    requires DistinctKeys(d)
    ensures DistinctKeys(Delete(d, k)) && Lookup(Delete(d, k), k) == None
    ensures forall o :: o != k ==> Lookup(Delete(d, k), o) == Lookup(d, o)
  {
    DeleteThenLookup(d, k, k);
    forall o | o != k ensures Lookup(Delete(d, k), o) == Lookup(d, o) {
      DeleteThenLookup(d, k, o);
    }
  }

  /** `PutThenLookup` for every other key at once. */
  lemma PutThenLookupAll<V>(d: Dict<V>, k: string, v: V)
    requires DistinctKeys(d)
    ensures DistinctKeys(Put(d, k, v)) && Lookup(Put(d, k, v), k) == Some(v)
    ensures forall o :: o != k ==> Lookup(Put(d, k, v), o) == Lookup(d, o)
  {
    PutThenLookup(d, k, v, k);
    forall o | o != k ensures Lookup(Put(d, k, v), o) == Lookup(d, o) {
      PutThenLookup(d, k, v, o);
    }
  }
}
