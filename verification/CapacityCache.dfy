/** The least-recently-used cache as it lies in memory: a doubly linked list of keys and a map
    from keys to values and list nodes (src/plugin/service/CapacityCache.h). */
module CapacityCache {
  import opened Recency

  /** A node of the `std::list`; the end node of the list carries no key. */
  class UsageNode {
    const key: string
    var prev: UsageNode
    var next: UsageNode

    /** A node linked to itself: an empty ring. */
    constructor (key: string)
      ensures this.key == key && prev == this && next == this
    {
      this.key := key;
      prev := this;
      next := this;
    }
  }

  /** `std::list<std::string>`: a ring of nodes closed by an end node. */
  class UsageList {
    const end: UsageNode
    ghost var nodes: seq<UsageNode>
    /** The objects of the list, nodes since erased included. */
    ghost var Repr: set<object>

    ghost predicate Valid()
      reads this, Repr
    {
      && this in Repr && end in Repr && (forall n | n in nodes :: n in Repr)
      && end !in nodes
      && (forall i, j | 0 <= i < j < |nodes| :: nodes[i] != nodes[j])
      && end.next == (if nodes == [] then end else nodes[0])
      && end.prev == (if nodes == [] then end else nodes[|nodes| - 1])
      && (nodes != [] ==> nodes[0].prev == end && nodes[|nodes| - 1].next == end)
      && (forall i {:trigger nodes[i].next} | 0 <= i < |nodes| - 1 :: nodes[i].next == nodes[i + 1])
      && (forall i {:trigger nodes[i].prev} | 0 < i < |nodes| :: nodes[i].prev == nodes[i - 1])
    }

    constructor ()
      ensures Valid() && fresh(Repr) && nodes == []
    {
      end := new UsageNode("");
      nodes := [];
      Repr := {this, end};
    }

    /** Links a node that is in no list at the front. */
    method Hook(n: UsageNode)
      requires Valid() && n !in nodes && n != end
      modifies Repr, n
      ensures Repr == old(Repr) + {n}
      ensures Valid() && nodes == [n] + old(nodes)
    {
      n.next := end.next;
      n.prev := end;
      end.next.prev := n;
      end.next := n;
      nodes := [n] + nodes;
      Repr := Repr + {n};
    }

    /** Takes a node out of the ring. */
    method Unhook(n: UsageNode, ghost k: nat)
      requires Valid() && k < |nodes| && nodes[k] == n
      modifies Repr
      ensures Repr == old(Repr)
      ensures Valid() && n !in nodes && nodes == old(nodes[..k] + nodes[k + 1..])
    {
      assert nodes[k].next == if k + 1 < |nodes| then nodes[k + 1] else end;
      assert nodes[k].prev == if k > 0 then nodes[k - 1] else end;
      n.prev.next := n.next;
      n.next.prev := n.prev;
      nodes := nodes[..k] + nodes[k + 1..];
    }

    /** `push_front`. */
    method PushFront(key: string) returns (n: UsageNode)
      requires Valid()
      modifies Repr
      ensures Valid() && fresh(n) && n.key == key && Repr == old(Repr) + {n}
      ensures nodes == [n] + old(nodes)
    {
      n := new UsageNode(key);
      Hook(n);
    }

    /** `back`. */
    method Back() returns (key: string)
      requires Valid() && nodes != []
      ensures key == nodes[|nodes| - 1].key
    {
      key := end.prev.key;
    }

    /** `pop_back`. */
    method PopBack()
      requires Valid() && nodes != []
      modifies Repr
      ensures Repr == old(Repr)
      ensures Valid() && nodes == old(nodes[..|nodes| - 1])
    {
      Unhook(end.prev, |nodes| - 1);
    }

    /** `splice(begin(), *this, n)`: nothing is copied, the node is relinked at the front. */
    method MoveToFront(n: UsageNode, ghost k: nat)
      requires Valid() && k < |nodes| && nodes[k] == n
      modifies Repr
      ensures Repr == old(Repr)
      ensures Valid() && nodes == ToFront(old(nodes), k)
    {
      if n != end.next {
        Unhook(n, k);
        Hook(n);
      } else {
        assert nodes == ToFront(nodes, k);
      }
    }

    /** `begin`. */
    method Front() returns (n: UsageNode)
      requires Valid() && nodes != []
      ensures n == nodes[0]
    {
      n := end.next;
    }

    /** `clear`. */
    method Clear()
      requires Valid()
      modifies Repr
      ensures Repr == old(Repr)
      ensures Valid() && nodes == []
    {
      end.next := end;
      end.prev := end;
      nodes := [];
    }
  }

  /** Every iterator stored in the map points at the list node of its own key, and the keys of
      the map are those of the list, each once. */
  ghost predicate Indexed<V>(s: Order<V>, nodes: seq<UsageNode>, m: map<string, (V, UsageNode)>) {
    && |s| == |nodes| == |m|
    && Distinct(s)
    && (forall i | 0 <= i < |s| :: nodes[i].key == s[i].key)
    && (forall i | 0 <= i < |s| :: s[i].key in m && m[s[i].key] == (s[i].value, nodes[i]))
    && m.Keys == KeySet(s)
  }

  lemma CachedInMap<V>(s: Order<V>, nodes: seq<UsageNode>, m: map<string, (V, UsageNode)>, key: string)
    requires Indexed(s, nodes, m)
    ensures key in m <==> Cached(s, key)
    ensures key !in m ==> Remove(s, key) == s
  {
    KeySetCached(s);
  }

  /** Where the element at `j` of a sequence with `i` moved to the front came from. */
  function CameFrom(i: nat, j: nat): nat {
    if j == 0 then i else if j <= i then j - 1 else j
  }

  lemma ToFrontAt<T>(s: seq<T>, i: nat, j: nat)
    requires i < |s| && j < |s|
    ensures ToFront(s, i)[j] == s[CameFrom(i, j)]
  {
  }

  lemma ToFrontDistinct<V>(s: Order<V>, i: nat)
    requires Distinct(s) && i < |s|
    ensures Distinct(ToFront(s, i))
  {
  }

  lemma ToFrontIndexed<V>(s: Order<V>, nodes: seq<UsageNode>, m: map<string, (V, UsageNode)>, i: nat)
    requires Indexed(s, nodes, m) && i < |s|
    ensures Indexed(ToFront(s, i), ToFront(nodes, i), m)
  {
    ToFrontDistinct(s, i);
    KeySetSplit(s, i);
    var t := ToFront(s, i);
    assert t[1..] == s[..i] + s[i + 1..];
    forall j | 0 <= j < |s|
      ensures ToFront(nodes, i)[j].key == t[j].key
      ensures t[j].key in m && m[t[j].key] == (t[j].value, ToFront(nodes, i)[j])
    {
      ToFrontAt(s, i, j);
      ToFrontAt(nodes, i, j);
    }
  }

  lemma DropLastKeySet<V>(s: Order<V>)
    requires Distinct(s) && s != []
    ensures KeySet(s[..|s| - 1]) == KeySet(s) - {s[|s| - 1].key}
  {
    var last := |s| - 1;
    KeySetSplit(s, last);
    assert s[..last] + s[last + 1..] == s[..last];
    KeySetCached(s[..last]);
  }

  lemma DropLastIndexed<V>(s: Order<V>, nodes: seq<UsageNode>, m: map<string, (V, UsageNode)>)
    requires Indexed(s, nodes, m) && s != []
    ensures Indexed(s[..|s| - 1], nodes[..|s| - 1], m - {s[|s| - 1].key})
  {
    DropLastKeySet(s);
    var m' := m - {s[|s| - 1].key};
    assert m'.Keys == m.Keys - {s[|s| - 1].key} && |m'| == |m'.Keys| && |m| == |m.Keys|;
  }

  lemma PushIndexed<V>(s: Order<V>, nodes: seq<UsageNode>, m: map<string, (V, UsageNode)>, e: Entry<V>, n: UsageNode)
    requires Indexed(s, nodes, m) && e.key !in m && n.key == e.key
    ensures Indexed([e] + s, [n] + nodes, m[e.key := (e.value, n)])
  {
    var t := [e] + s;
    assert t[0].key == e.key && t[1..] == s;
  }

  /** A cached entry moved to the front with a new value. */
  ghost function Refreshed<V>(s: Order<V>, i: nat, v: V): (r: Order<V>)
    requires i < |s|
    ensures |r| == |s|
  {
    [Entry(s[i].key, v)] + (s[..i] + s[i + 1..])
  }

  lemma RefreshedAt<V>(s: Order<V>, i: nat, v: V, j: nat)
    requires i < |s| && j < |s|
    ensures Refreshed(s, i, v)[j].key == s[CameFrom(i, j)].key
    ensures Refreshed(s, i, v)[j] == if j == 0 then Entry(s[i].key, v) else s[CameFrom(i, j)]
  {
  }

  lemma RefreshedDistinct<V>(s: Order<V>, i: nat, v: V)
    requires Distinct(s) && i < |s|
    ensures Distinct(Refreshed(s, i, v))
  {
    var t := Refreshed(s, i, v);
    forall j, k | 0 <= j < k < |t|
      ensures t[j].key != t[k].key
    {
      RefreshedAt(s, i, v, j);
      RefreshedAt(s, i, v, k);
    }
  }

  lemma RefreshedIndexed<V>(s: Order<V>, nodes: seq<UsageNode>, m: map<string, (V, UsageNode)>, i: nat, v: V)
    requires Indexed(s, nodes, m) && i < |s|
    ensures Indexed(Refreshed(s, i, v), ToFront(nodes, i), m[s[i].key := (v, nodes[i])])
  {
    RefreshedDistinct(s, i, v);
    KeySetSplit(s, i);
    var t := Refreshed(s, i, v);
    assert t[1..] == s[..i] + s[i + 1..];
    var m' := m[s[i].key := (v, nodes[i])];
    assert m'.Keys == m.Keys && |m'| == |m'.Keys| && |m| == |m.Keys|;
    forall j | 0 <= j < |s|
      ensures ToFront(nodes, i)[j].key == t[j].key
      ensures t[j].key in m' && m'[t[j].key] == (t[j].value, ToFront(nodes, i)[j])
    {
      RefreshedAt(s, i, v, j);
      ToFrontAt(nodes, i, j);
    }
  }


  class CapacityCache<Key, V> {
    const m_capacity: nat
    const m_keyHasher: Key -> string
    const m_keyUsage: UsageList
    var m_keyValue: map<string, (V, UsageNode)>
    /** The cached entries, most recently used first. */
    ghost var order: Order<V>

    /** The list and the map describe the same entries. */
    ghost predicate Valid()
      reads this, m_keyUsage, m_keyUsage.Repr
    {
      && m_keyUsage.Valid() && this !in m_keyUsage.Repr
      && Indexed(order, m_keyUsage.nodes, m_keyValue)
      && |order| <= m_capacity
    }

    constructor (hasher: Key -> string, capacity: nat := CACHE_DEFAULT_CAPACITY)
      ensures Valid() && fresh(m_keyUsage.Repr)
      ensures m_capacity == capacity && m_keyHasher == hasher && order == []
    {
      m_capacity := capacity;
      m_keyHasher := hasher;
      m_keyUsage := new UsageList();
      m_keyValue := map[];
      order := [];
    }

    /** The splice both operations do on a hit. */
    method Touch(usage: UsageNode, ghost k: nat)
      requires Valid() && k < |order| && m_keyUsage.nodes[k] == usage
      modifies this`order, m_keyUsage.Repr
      ensures Valid()
      ensures fresh(m_keyUsage.Repr - old(m_keyUsage.Repr))
      ensures order == ToFront(old(order), k)
      ensures m_keyUsage.nodes == ToFront(old(m_keyUsage.nodes), k)
    {
      ghost var s, ns := order, m_keyUsage.nodes;
      ToFrontIndexed(s, ns, m_keyValue, k);
      m_keyUsage.MoveToFront(usage, k);
      order := ToFront(s, k);
    }

    method Get(key: Key, value: V) returns (found: bool, result: V)
      requires Valid()
      modifies this, m_keyUsage.Repr
      ensures Valid()
      ensures fresh(m_keyUsage.Repr - old(m_keyUsage.Repr))
      ensures order == Got(old(order), m_keyHasher(key))
      ensures found == Cached(old(order), m_keyHasher(key))
      ensures Lookup(old(order), m_keyHasher(key)) == if found then Some(result) else None
      ensures !found ==> result == value
    {
      var cacheKey := m_keyHasher(key);
      CachedInMap(order, m_keyUsage.nodes, m_keyValue, cacheKey);
      if cacheKey !in m_keyValue {
        return false, value;
      }
      var (stored, usage) := m_keyValue[cacheKey];
      ghost var k := IndexOf(order, cacheKey);
      Touch(usage, k);
      return true, stored;
    }

    method Clear()
      requires Valid()
      modifies this, m_keyUsage.Repr
      ensures Valid() && m_keyUsage.Repr == old(m_keyUsage.Repr)
      ensures order == []
    {
      m_keyUsage.Clear();
      m_keyValue := map[];
      order := [];
    }

    method Evict()
      requires Valid() && order != [] && |order| == m_capacity
      modifies this, m_keyUsage.Repr
      ensures Valid()
      ensures m_keyUsage.Repr == old(m_keyUsage.Repr)
      ensures order == Evicted(m_capacity, old(order)) && |order| < m_capacity
    {
      var lastUsedKey := m_keyUsage.Back();
      assert lastUsedKey == order[|order| - 1].key;
      DropLastIndexed(order, m_keyUsage.nodes, m_keyValue);
      m_keyUsage.PopBack();
      m_keyValue := m_keyValue - {lastUsedKey};
      order := order[..|order| - 1];
    }

    /** The end of `update` when the key is cached. */
    method StoreHit(cacheKey: string, value: V, ghost k: nat)
      requires Valid() && k < |order| && order[k].key == cacheKey
      modifies this, m_keyUsage.Repr
      ensures Valid()
      ensures m_keyUsage.Repr == old(m_keyUsage.Repr)
      ensures order == Refreshed(old(order), k, value)
    {
      ghost var s, ns := order, m_keyUsage.nodes;
      RefreshedIndexed(s, ns, m_keyValue, k, value);
      m_keyUsage.MoveToFront(m_keyValue[cacheKey].1, k);
      var first := m_keyUsage.Front();
      assert first == ns[k];
      m_keyValue := m_keyValue[cacheKey := (value, first)];
      order := Refreshed(s, k, value);
    }

    /** The end of `update` when it is not. */
    method StoreMiss(cacheKey: string, value: V)
      requires Valid() && cacheKey !in m_keyValue && |order| < m_capacity
      modifies this, m_keyUsage.Repr
      ensures Valid()
      ensures fresh(m_keyUsage.Repr - old(m_keyUsage.Repr))
      ensures order == [Entry(cacheKey, value)] + old(order)
    {
      ghost var s, ns := order, m_keyUsage.nodes;
      var n := m_keyUsage.PushFront(cacheKey);
      var first := m_keyUsage.Front();
      PushIndexed(s, ns, m_keyValue, Entry(cacheKey, value), n);
      m_keyValue := m_keyValue[cacheKey := (value, first)];
      order := [Entry(cacheKey, value)] + s;
    }

    method Update(key: Key, value: V) returns (existed: bool)
      requires Valid()
      modifies this, m_keyUsage.Repr
      ensures Valid()
      ensures fresh(m_keyUsage.Repr - old(m_keyUsage.Repr))
      ensures order == Updated(m_capacity, old(order), m_keyHasher(key), value)
      ensures existed == Existed(m_capacity, old(order), m_keyHasher(key))
    {
      if m_capacity == 0 {
        return false;
      }
      if |m_keyValue| == m_capacity {
        Evict();
      }
      var cacheKey := m_keyHasher(key);
      existed := cacheKey in m_keyValue;
      CachedInMap(order, m_keyUsage.nodes, m_keyValue, cacheKey);
      if existed {
        StoreHit(cacheKey, value, IndexOf(order, cacheKey));
      } else {
        StoreMiss(cacheKey, value);
      }
    }
  }
}
