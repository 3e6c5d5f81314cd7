/** What every run of cache operations obeys, stated without the recency order: how far a key
    has sunk is how many other keys were touched since it was. */
module RecencyLaws {
  import opened Recency

  datatype Op<+V> = Get(key: string) | Update(key: string, value: V) | Clear

  ghost function Step<V>(capacity: nat, s: Order<V>, op: Op<V>): Order<V> {
    match op
    case Get(key) => Got(s, key)
    case Update(key, value) => Updated(capacity, s, key, value)
    case Clear => []
  }

  /** The cache after a run of operations on an empty one. */
  ghost function Run<V>(capacity: nat, ops: seq<Op<V>>): Order<V> {
    if ops == [] then [] else Step(capacity, Run(capacity, Init(ops)), Last(ops))
  }

  function Init<T>(s: seq<T>): seq<T>
    requires s != []
  {
    s[..|s| - 1]
  }

  function Last<T>(s: seq<T>): T
    requires s != []
  {
    s[|s| - 1]
  }

  /** The key an operation uses: the one a `get` finds, the one an `update` stores. */
  ghost function Touched<V>(capacity: nat, s: Order<V>, op: Op<V>): set<string> {
    match op
    case Get(key) => if Cached(s, key) then {key} else {}
    case Update(key, value) => if capacity > 0 then {key} else {}
    case Clear => {}
  }

  /** The distinct other keys touched since `key` was last touched, or since the last `clear`. */
  ghost function TouchedSince<V>(capacity: nat, ops: seq<Op<V>>, key: string): set<string> {
    if ops == [] || Last(ops) == Clear then {}
    else
      var touched := Touched(capacity, Run(capacity, Init(ops)), Last(ops));
      if key in touched then {} else TouchedSince(capacity, Init(ops), key) + touched
  }

  /** The value last stored under `key` since the last `clear`, were nothing ever evicted. */
  ghost function LastStored<V>(ops: seq<Op<V>>, key: string): Option<V> {
    if ops == [] || Last(ops) == Clear then None
    else if Last(ops).Update? && Last(ops).key == key then Some(Last(ops).value)
    else LastStored(Init(ops), key)
  }

  // ------------------------------------------------------ one key to the front

  ghost function Front<V>(s: Order<V>, key: string, value: V): Order<V> {
    [Entry(key, value)] + Remove(s, key)
  }

  lemma FrontDistinct<V>(s: Order<V>, key: string, value: V)
    requires Distinct(s)
    ensures Distinct(Front(s, key, value)) && |Front(s, key, value)| <= |s| + 1
    ensures Cached(s, key) ==> |Front(s, key, value)| == |s|
  {
    assert !Cached(s, key) ==> forall i | 0 <= i < |s| :: s[i].key != key;
  }

  lemma IndexIs<V>(s: Order<V>, key: string, i: nat)
    requires Distinct(s) && i < |s| && s[i].key == key
    ensures Cached(s, key) && IndexOf(s, key) == i && Lookup(s, key) == Some(s[i].value)
  {
  }

  lemma FrontFirst<V>(s: Order<V>, key: string, value: V)
    requires Distinct(s)
    ensures var t := Front(s, key, value);
      Cached(t, key) && IndexOf(t, key) == 0 && Lookup(t, key) == Some(value)
  {
    FrontDistinct(s, key, value);
    IndexIs(Front(s, key, value), key, 0);
  }

  lemma PrefixOfMoved<T>(s: seq<T>, i: nat, e: T, m: nat)
    requires i < m < |s|
    ensures var t := [e] + (s[..i] + s[i + 1..]);
      t[m] == s[m] && t[..m] == [e] + (s[..m][..i] + s[..m][i + 1..])
  {
  }

  lemma KeySetCons<V>(e: Entry<V>, s: Order<V>)
    ensures KeySet([e] + s) == {e.key} + KeySet(s)
  {
    assert ([e] + s)[1..] == s;
  }

  lemma PassedKeySet<V>(s: Order<V>, i: nat, e: Entry<V>, m: nat)
    requires i < m < |s| && s[i].key == e.key
    ensures var t := [e] + (s[..i] + s[i + 1..]);
      t[m] == s[m] && KeySet(t[..m]) == KeySet(s[..m]) + {e.key}
  {
    PrefixOfMoved(s, i, e, m);
    KeySetCons(e, s[..m][..i] + s[..m][i + 1..]);
    KeySetSplit(s[..m], i);
  }

  lemma FrontPasses<V>(s: Order<V>, key: string, value: V, other: string)
    requires Distinct(s) && other != key && Cached(s, other)
    requires Cached(s, key) && IndexOf(s, key) < IndexOf(s, other)
    ensures var t := Front(s, key, value);
      && Cached(t, other) && IndexOf(t, other) == IndexOf(s, other)
      && Lookup(t, other) == Lookup(s, other)
      && KeySet(t[..IndexOf(t, other)]) == KeySet(s[..IndexOf(s, other)]) + {key}
  {
    var i, m := IndexOf(s, key), IndexOf(s, other);
    PassedKeySet(s, i, Entry(key, value), m);
    FrontDistinct(s, key, value);
    IndexIs(Front(s, key, value), other, m);
  }

  lemma RemovedPrefix<V>(s: Order<V>, key: string, m: nat)
    requires m < |s| && s[m].key != key && (Cached(s, key) ==> m <= IndexOf(s, key))
    ensures m < |Remove(s, key)| && Remove(s, key)[m] == s[m] && Remove(s, key)[..m] == s[..m]
  {
  }

  lemma FrontPushes<V>(s: Order<V>, key: string, value: V, other: string)
    requires Distinct(s) && other != key && Cached(s, other)
    requires Cached(s, key) ==> IndexOf(s, other) <= IndexOf(s, key)
    ensures var t := Front(s, key, value);
      && Cached(t, other) && IndexOf(t, other) == IndexOf(s, other) + 1
      && Lookup(t, other) == Lookup(s, other)
      && KeySet(t[..IndexOf(t, other)]) == KeySet(s[..IndexOf(s, other)]) + {key}
  {
    var m := IndexOf(s, other);
    RemovedPrefix(s, key, m);
    FrontDistinct(s, key, value);
    IndexIs(Front(s, key, value), other, m + 1);
    assert Front(s, key, value)[..m + 1] == [Entry(key, value)] + s[..m];
    KeySetCons(Entry(key, value), s[..m]);
  }

  /** Where another key goes, and which keys then stand before it. */
  lemma FrontOther<V>(s: Order<V>, key: string, value: V, other: string)
    requires Distinct(s) && other != key && Cached(s, other)
    ensures var t := Front(s, key, value);
      && Cached(t, other)
      && Lookup(t, other) == Lookup(s, other)
      && KeySet(t[..IndexOf(t, other)]) == KeySet(s[..IndexOf(s, other)]) + {key}
  {
    if Cached(s, key) && IndexOf(s, key) < IndexOf(s, other) {
      FrontPasses(s, key, value, other);
    } else {
      FrontPushes(s, key, value, other);
    }
  }

  lemma FrontOnly<V>(s: Order<V>, key: string, value: V, other: string)
    requires other != key && Cached(Front(s, key, value), other)
    ensures Cached(s, other)
  {
    var t := Front(s, key, value);
    assert t[IndexOf(t, other)] in s;
  }

  // ------------------------------------------------------------- one operation

  ghost predicate Fits<V>(capacity: nat, s: Order<V>) {
    Distinct(s) && |s| <= capacity
  }

  lemma GotIsFront<V>(s: Order<V>, key: string)
    requires Cached(s, key)
    ensures Got(s, key) == Front(s, key, s[IndexOf(s, key)].value)
  {
    assert s[IndexOf(s, key)] == Entry(key, s[IndexOf(s, key)].value);
  }

  lemma EvictedKeeps<V>(capacity: nat, s: Order<V>, key: string)
    requires Fits(capacity, s)
    ensures var e := Evicted(capacity, s);
      && Distinct(e) && (capacity > 0 ==> |e| < capacity)
      && (Cached(e, key) <==> Cached(s, key) && IndexOf(s, key) != capacity - 1)
      && (Cached(e, key) ==> IndexOf(e, key) == IndexOf(s, key) && Lookup(e, key) == Lookup(s, key)
                             && e[..IndexOf(e, key)] == s[..IndexOf(s, key)])
  {
    var e := Evicted(capacity, s);
    if Cached(s, key) && IndexOf(s, key) != capacity - 1 {
      IndexIs(s, key, IndexOf(s, key));
      IndexIs(e, key, IndexOf(s, key));
    }
    if Cached(e, key) {
      IndexIs(s, key, IndexOf(e, key));
    }
  }

  lemma StepFits<V>(capacity: nat, s: Order<V>, op: Op<V>)
    requires Fits(capacity, s)
    ensures Fits(capacity, Step(capacity, s, op))
  {
    match op
    case Get(key) =>
      if Cached(s, key) {
        GotIsFront(s, key);
        FrontDistinct(s, key, s[IndexOf(s, key)].value);
      }
    case Update(key, value) =>
      EvictedKeeps(capacity, s, key);
      FrontDistinct(Evicted(capacity, s), key, value);
    case Clear =>
  }

  /** The key an operation touches comes first. */
  lemma StepTouched<V>(capacity: nat, s: Order<V>, op: Op<V>, key: string)
    requires Fits(capacity, s) && key in Touched(capacity, s, op)
    ensures var t := Step(capacity, s, op);
      && Cached(t, key) && IndexOf(t, key) == 0
      && Lookup(t, key) == if op.Update? then Some(op.value) else Lookup(s, key)
  {
    if op.Update? {
      EvictedKeeps(capacity, s, key);
      FrontFirst(Evicted(capacity, s), key, op.value);
    } else {
      GotIsFront(s, key);
      FrontFirst(s, key, s[IndexOf(s, key)].value);
    }
  }

  /** A key that is not touched stays exactly when it is not the last of a full cache being
      updated; the keys before it gain the one that was touched. */
  lemma StepUntouched<V>(capacity: nat, s: Order<V>, op: Op<V>, key: string)
    requires Fits(capacity, s) && !op.Clear? && key !in Touched(capacity, s, op)
    ensures var t := Step(capacity, s, op);
      && (Cached(t, key) <==>
            Cached(s, key) && !(op.Update? && IndexOf(s, key) == capacity - 1))
      && (Cached(t, key) ==>
            && Lookup(t, key) == Lookup(s, key)
            && KeySet(t[..IndexOf(t, key)])
            == KeySet(s[..IndexOf(s, key)]) + Touched(capacity, s, op))
  {
    match op
    case Get(other) =>
      if Cached(s, other) {
        GotIsFront(s, other);
        UntouchedByFront(s, other, s[IndexOf(s, other)].value, key);
      }
    case Update(other, value) =>
      EvictedKeeps(capacity, s, key);
      if capacity > 0 {
        UntouchedByFront(Evicted(capacity, s), other, value, key);
      }
  }

  lemma UntouchedByFront<V>(s: Order<V>, key: string, value: V, other: string)
    requires Distinct(s) && other != key
    ensures var t := Front(s, key, value);
      && (Cached(t, other) <==> Cached(s, other))
      && (Cached(t, other) ==>
            && Lookup(t, other) == Lookup(s, other)
            && KeySet(t[..IndexOf(t, other)]) == KeySet(s[..IndexOf(s, other)]) + {key})
  {
    if Cached(s, other) {
      FrontOther(s, key, value, other);
    } else if Cached(Front(s, key, value), other) {
      FrontOnly(s, key, value, other);
    }
  }

  // ------------------------------------------------------------------ whole runs

  lemma {:induction false} RunFits<V>(capacity: nat, ops: seq<Op<V>>)
    ensures Fits(capacity, Run(capacity, ops))
  {
    if ops == [] {
    } else {
      RunFits(capacity, Init(ops));
      StepFits(capacity, Run(capacity, Init(ops)), Last(ops));
    }
  }

  lemma {:induction false} KeySetSize<V>(s: Order<V>)
    requires Distinct(s)
    ensures |KeySet(s)| == |s|
  {
    if s == [] {
    } else {
      KeySetSize(s[1..]);
      KeySetCached(s[1..]);
    }
  }

  lemma {:induction false} KeysBefore<V>(capacity: nat, ops: seq<Op<V>>, key: string)
    requires Cached(Run(capacity, ops), key)
    ensures var s := Run(capacity, ops);
      KeySet(s[..IndexOf(s, key)]) == TouchedSince(capacity, ops, key)
  {
    var s, op := Run(capacity, Init(ops)), Last(ops);
    RunFits(capacity, Init(ops));
    if key in Touched(capacity, s, op) {
      StepTouched(capacity, s, op, key);
    } else {
      StepUntouched(capacity, s, op, key);
      KeysBefore(capacity, Init(ops), key);
    }
  }

  /** The stack-distance law: a cached key stands as far from the front as there were distinct
      other keys touched since it was touched last. */
  lemma StackDistance<V>(capacity: nat, ops: seq<Op<V>>, key: string)
    requires Cached(Run(capacity, ops), key)
    ensures IndexOf(Run(capacity, ops), key) == |TouchedSince(capacity, ops, key)|
  {
    var s := Run(capacity, ops);
    RunFits(capacity, ops);
    KeysBefore(capacity, ops, key);
    KeySetSize(s[..IndexOf(s, key)]);
  }

  /** A cached key is gone after one more operation exactly when that is a `clear`, or an
      `update` of another key at a distance of capacity - 1. */
  lemma GoneExactly<V>(capacity: nat, ops: seq<Op<V>>, op: Op<V>, key: string)
    requires Cached(Run(capacity, ops), key)
    ensures !Cached(Run(capacity, ops + [op]), key) <==>
      || op.Clear?
      || (op.Update? && op.key != key && |TouchedSince(capacity, ops, key)| == capacity - 1)
  {
    var s := Run(capacity, ops);
    assert Init(ops + [op]) == ops;
    RunFits(capacity, ops);
    StackDistance(capacity, ops, key);
    if key in Touched(capacity, s, op) {
      StepTouched(capacity, s, op, key);
    } else if !op.Clear? {
      StepUntouched(capacity, s, op, key);
    }
  }

  /** `update` reports an existing key exactly when it is cached at a smaller distance: at
      capacity - 1 the key itself is the entry dropped to make room. */
  lemma ExistedExactly<V>(capacity: nat, ops: seq<Op<V>>, key: string)
    ensures Existed(capacity, Run(capacity, ops), key) <==>
      Cached(Run(capacity, ops), key) && |TouchedSince(capacity, ops, key)| != capacity - 1
  {
    RunFits(capacity, ops);
    EvictedKeeps(capacity, Run(capacity, ops), key);
    if Cached(Run(capacity, ops), key) {
      StackDistance(capacity, ops, key);
    }
  }

  /** Whatever was evicted, what is cached is the last value stored. */
  lemma {:induction false} CachedIsLastStored<V>(capacity: nat, ops: seq<Op<V>>, key: string)
    requires Cached(Run(capacity, ops), key)
    ensures Lookup(Run(capacity, ops), key) == LastStored(ops, key)
  {
    var s, op := Run(capacity, Init(ops)), Last(ops);
    RunFits(capacity, Init(ops));
    if key in Touched(capacity, s, op) {
      StepTouched(capacity, s, op, key);
    } else {
      StepUntouched(capacity, s, op, key);
    }
    if op.Update? && op.key == key {
    } else {
      CachedIsLastStored(capacity, Init(ops), key);
    }
  }

  /** The keys a run of operations names. */
  ghost function Named<V>(ops: seq<Op<V>>): set<string> {
    set op | op in ops && !op.Clear? :: op.key
  }

  lemma NamedMore<V>(ops: seq<Op<V>>)
    requires ops != [] && Clear !in ops
    ensures Last(ops) != Clear && Clear !in Init(ops)
    ensures Named(Init(ops)) <= Named(ops) && Last(ops).key in Named(ops)
  {
    assert Last(ops) in ops;
    assert forall o | o in Init(ops) :: o in ops;
  }

  lemma TouchedMore<V>(capacity: nat, ops: seq<Op<V>>, op: Op<V>, key: string)
    requires !op.Clear?
    ensures TouchedSince(capacity, ops + [op], key)
         <= TouchedSince(capacity, ops, key) + ({op.key} - {key})
  {
    assert Init(ops + [op]) == ops;
  }

  /** A key just touched survives every run without `clear` that names at most capacity - 2
      other keys. */
  lemma {:induction false} Survives<V>(capacity: nat, ops: seq<Op<V>>, more: seq<Op<V>>, key: string)
    requires Cached(Run(capacity, ops), key) && TouchedSince(capacity, ops, key) == {}
    requires Clear !in more
    requires |Named(more) - {key}| + 2 <= capacity
    ensures Cached(Run(capacity, ops + more), key)
    ensures TouchedSince(capacity, ops + more, key) <= Named(more) - {key}
  {
    if more == [] {
      assert ops + more == ops;
    } else {
      hide Run, TouchedSince, Named, Cached;
      var before, op := ops + Init(more), Last(more);
      assert ops + more == before + [op];
      NamedMore(more);
      SubsetSize(Named(Init(more)) - {key}, Named(more) - {key});
      Survives(capacity, ops, Init(more), key);
      SubsetSize(TouchedSince(capacity, before, key), Named(more) - {key});
      GoneExactly(capacity, before, op, key);
      TouchedMore(capacity, before, op, key);
    }
  }
}
