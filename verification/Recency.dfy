/** What the cache means: the cached entries in order of use, most recent first. */
module Recency {

  datatype Option<+T> = None | Some(value: T)

  datatype Entry<+V> = Entry(key: string, value: V)

  const CACHE_DEFAULT_CAPACITY := 100

  type Order<+V> = seq<Entry<V>>

  ghost predicate Distinct<V>(s: Order<V>) {
    forall i, j | 0 <= i < j < |s| :: s[i].key != s[j].key
  }

  ghost predicate Cached<V>(s: Order<V>, key: string) {
    exists i | 0 <= i < |s| :: s[i].key == key
  }

  ghost function KeySet<V>(s: Order<V>): set<string> {
    if s == [] then {} else {s[0].key} + KeySet(s[1..])
  }

  lemma {:induction false} KeySetCached<V>(s: Order<V>)
    ensures forall k :: k in KeySet(s) <==> Cached(s, k)
  {
    if s == [] {
    } else {
      KeySetCached(s[1..]);
      forall k | Cached(s, k) && k != s[0].key
        ensures Cached(s[1..], k)
      {
        assert s[1..][IndexOf(s, k) - 1].key == k;
      }
      forall k | Cached(s[1..], k)
        ensures Cached(s, k)
      {
        assert s[IndexOf(s[1..], k) + 1].key == k;
      }
    }
  }

  lemma {:induction false} KeySetConcat<V>(s: Order<V>, t: Order<V>)
    ensures KeySet(s + t) == KeySet(s) + KeySet(t)
  {
    if s == [] {
      assert s + t == t;
    } else {
      assert (s + t)[1..] == s[1..] + t;
      KeySetConcat(s[1..], t);
    }
  }

  lemma KeySetSplit<V>(s: Order<V>, i: nat)
    requires i < |s|
    ensures KeySet(s) == {s[i].key} + KeySet(s[..i] + s[i + 1..])
  {
    assert s == s[..i] + ([s[i]] + s[i + 1..]);
    assert ([s[i]] + s[i + 1..])[1..] == s[i + 1..];
    KeySetConcat(s[..i], [s[i]] + s[i + 1..]);
    KeySetConcat(s[..i], s[i + 1..]);
  }

  /** Where a key stands: 0 for the most recently used one. */
  ghost function IndexOf<V>(s: Order<V>, key: string): (i: nat)
    requires Cached(s, key)
    ensures i < |s| && s[i].key == key
  {
    var i :| 0 <= i < |s| && s[i].key == key;
    i
  }

  ghost function Lookup<V>(s: Order<V>, key: string): Option<V> {
    if Cached(s, key) then Some(s[IndexOf(s, key)].value) else None
  }

  ghost function ToFront<T>(s: seq<T>, i: nat): (r: seq<T>)
    requires i < |s|
    ensures |r| == |s|
  {
    [s[i]] + (s[..i] + s[i + 1..])
  }

  ghost function Remove<V>(s: Order<V>, key: string): Order<V> {
    if Cached(s, key) then s[..IndexOf(s, key)] + s[IndexOf(s, key) + 1..] else s
  }

  /** `get`: a hit moves the entry to the front, a miss changes nothing. */
  ghost function Got<V>(s: Order<V>, key: string): Order<V> {
    if Cached(s, key) then ToFront(s, IndexOf(s, key)) else s
  }

  /** The least recently used entry is dropped from a full cache before the key is looked up,
      even when the key is cached already. */
  ghost function Evicted<V>(capacity: nat, s: Order<V>): Order<V> {
    if s != [] && |s| == capacity then s[..|s| - 1] else s
  }

  ghost function Updated<V>(capacity: nat, s: Order<V>, key: string, value: V): Order<V> {
    if capacity == 0 then s
    else [Entry(key, value)] + Remove(Evicted(capacity, s), key)
  }

  /** What `update` returns: the key was there, and was not the entry dropped to make room. */
  ghost predicate Existed<V>(capacity: nat, s: Order<V>, key: string) {
    capacity != 0 && Cached(Evicted(capacity, s), key)
  }

  lemma SubsetSize<T>(a: set<T>, b: set<T>)
    requires a <= b
    ensures |a| <= |b| && (a != b ==> |a| < |b|)
  {
    assert b == a + (b - a);
  }
}
