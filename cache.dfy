/**
 * The in-process response cache: a bounded map from cache keys to values,
 * each stamped with the time it was stored. A read of an entry older than the
 * time-to-live drops it and misses; a write stamps the entry with the current
 * time and, when the cache is one over its bound, evicts the entry with the
 * oldest stamp.
 *
 * The store is a sequence in insertion order, which is the iteration order of
 * the source's dictionary: overwriting a key keeps its position, and a tie for
 * the oldest stamp goes to the entry inserted first. Times are seconds, passed
 * in by the caller rather than read from a clock.
 */
module Cache {
  import opened Common

  datatype Entry<V> = Entry(key: string, ts: real, value: V)

  predicate DistinctKeys<V>(s: seq<Entry<V>>) {
    forall i, j | 0 <= i < j < |s| :: s[i].key != s[j].key
  }

  /** The number of entries the cache can hold once a write has evicted: a negative bound holds nothing. */
  function Capacity(maxItems: int): nat {
    if maxItems < 0 then 0 else maxItems
  }

  /** The position of key k in the store, or -1. */
  function IndexOf<V>(s: seq<Entry<V>>, k: string): (i: int)
    ensures -1 <= i < |s|
    ensures i >= 0 ==> s[i].key == k
    ensures i == -1 <==> forall j | 0 <= j < |s| :: s[j].key != k
  {
    if s == [] then -1
    else if s[0].key == k then 0
    else
      var j := IndexOf(s[1..], k);
      if j == -1 then -1 else j + 1
  }

  function RemoveAt<V>(s: seq<Entry<V>>, i: nat): (r: seq<Entry<V>>)
    requires i < |s|
    ensures |r| == |s| - 1
    ensures forall j | 0 <= j < i :: r[j] == s[j]
    ensures forall j | i <= j < |r| :: r[j] == s[j + 1]
  {
    s[..i] + s[i + 1..]
  }

  /** An entry stored at ts is stale at `now` once more than ttl seconds have passed. */
  predicate Expired(ts: real, now: real, ttl: int) {
    now - ts > ttl as real
  }

  /** What `get(k)` returns at time `now`: the stored value, unless absent or stale. */
  function Fetch<V>(s: seq<Entry<V>>, k: string, now: real, ttl: int): Option<V> {
    var i := IndexOf(s, k);
    if i == -1 then None
    else if Expired(s[i].ts, now, ttl) then None
    else Some(s[i].value)
  }

  /** The store after `get(k)` at time `now`: a stale entry for k is dropped, nothing else changes. */
  function AfterGet<V>(s: seq<Entry<V>>, k: string, now: real, ttl: int): seq<Entry<V>> {
    var i := IndexOf(s, k);
    if i >= 0 && Expired(s[i].ts, now, ttl) then RemoveAt(s, i) else s
  }

  /** `store[k] = (now, v)`: overwrite in place, or append a new key. */
  function Put<V>(s: seq<Entry<V>>, k: string, v: V, now: real): seq<Entry<V>> {
    var i := IndexOf(s, k);
    if i >= 0 then s[i := Entry(k, now, v)] else s + [Entry(k, now, v)]
  }

  /** The entry `min(items, key=stamp)` picks: a smallest stamp, and no earlier entry has one as small. */
  predicate IsOldest<V>(s: seq<Entry<V>>, i: int) {
    0 <= i < |s|
    && (forall j | 0 <= j < |s| :: s[i].ts <= s[j].ts)
    && (forall j | 0 <= j < i :: s[j].ts > s[i].ts)
  }

  /** The left-to-right scan of `min`: a later entry replaces the candidate only when strictly older. */
  function OldestIndex<V>(s: seq<Entry<V>>): (i: nat)
    requires |s| >= 1
    ensures IsOldest(s, i)
  {
    if |s| == 1 then 0
    else
      var k := OldestIndex(s[..|s| - 1]);
      if s[|s| - 1].ts < s[k].ts then |s| - 1 else k
  }

  /** Only one index has the properties of the oldest entry. */
  lemma OldestUnique<V>(s: seq<Entry<V>>, i: int, j: int)
    requires IsOldest(s, i) && IsOldest(s, j)
    ensures i == j
  {
    assert s[i].ts <= s[j].ts && s[j].ts <= s[i].ts;
  }

  /** `_evict_if_needed`: above the bound, drop the oldest entry. */
  function Evict<V>(s: seq<Entry<V>>, maxItems: int): seq<Entry<V>>
    requires |s| >= 1
  {
    if |s| <= maxItems then s else RemoveAt(s, OldestIndex(s))
  }

  /** The store after `set(k, v)` at time `now`. */
  function AfterSet<V>(s: seq<Entry<V>>, k: string, v: V, now: real, maxItems: int): seq<Entry<V>> {
    Evict(Put(s, k, v, now), maxItems)
  }

  /** The well-formed stores: one entry per key, within the bound. */
  predicate ValidStore<V>(s: seq<Entry<V>>, maxItems: int) {
    DistinctKeys(s) && |s| <= Capacity(maxItems)
  }

  // ---------------------------------------------------------------------------
  // Keys
  // ---------------------------------------------------------------------------

  /** The bytes `make_key` feeds to the hash: model, system text and user text, newline-separated. */
  function HashInput(model: string, systemText: string, userText: string): string {
    model + "\n" + systemText + "\n" + userText
  }

  /** `make_key`: the hex digest of the hash input, with the hash function as a parameter. */
  function MakeKey(model: string, systemText: string, userText: string, sha256: string -> string): string {
    sha256(HashInput(model, systemText, userText))
  }

  /** The separator makes the key unambiguous as long as neither the model nor the system text holds a newline. */
  lemma HashInputInjective(m1: string, s1: string, u1: string, m2: string, s2: string, u2: string)
    requires '\n' !in m1 && '\n' !in s1 && '\n' !in m2 && '\n' !in s2
    requires HashInput(m1, s1, u1) == HashInput(m2, s2, u2)
    ensures m1 == m2 && s1 == s2 && u1 == u2
  {
    assert HashInput(m1, s1, u1) == m1 + "\n" + (s1 + "\n" + u1);
    assert HashInput(m2, s2, u2) == m2 + "\n" + (s2 + "\n" + u2);
    SplitAtNewline(m1, s1 + "\n" + u1, m2, s2 + "\n" + u2);
    SplitAtNewline(s1, u1, s2, u2);
  }

  lemma SplitAtNewline(a1: string, b1: string, a2: string, b2: string)
    requires '\n' !in a1 && '\n' !in a2
    requires a1 + "\n" + b1 == a2 + "\n" + b2
    ensures a1 == a2 && b1 == b2
  {
    var x1, x2 := a1 + "\n" + b1, a2 + "\n" + b2;
    assert x1[|a1|] == '\n' && x2[|a2|] == '\n';
    assert forall m | 0 <= m < |a1| :: x1[m] == a1[m];
    assert forall m | 0 <= m < |a2| :: x2[m] == a2[m];
    assert |a1| == |a2|;
    assert a1 == x1[..|a1|] && a2 == x2[..|a2|];
    assert b1 == x1[|a1| + 1..] && b2 == x2[|a2| + 1..];
  }

  /** A newline in the model name makes two different requests share a key, whatever the hash. */
  lemma HashInputCollision(sha256: string -> string)
    ensures MakeKey("a\nb", "c", "d", sha256) == MakeKey("a", "b\nc", "d", sha256)
  {
    assert HashInput("a\nb", "c", "d") == HashInput("a", "b\nc", "d");
  }

  // ---------------------------------------------------------------------------
  // Properties of the store operations
  // ---------------------------------------------------------------------------

  /** Removing an entry keeps the keys distinct. */
  lemma RemoveAtDistinct<V>(s: seq<Entry<V>>, i: nat)
    requires i < |s| && DistinctKeys(s)
    ensures DistinctKeys(RemoveAt(s, i))
  {
    var r := RemoveAt(s, i);
    forall a, b | 0 <= a < b < |r|
      ensures r[a].key != r[b].key
    {
      var a', b' := if a < i then a else a + 1, if b < i then b else b + 1;
      assert r[a] == s[a'] && r[b] == s[b'];
    }
  }

  /** Where a key sits once the entry at position i is removed. */
  lemma IndexOfRemoveAt<V>(s: seq<Entry<V>>, i: nat, k: string)
    requires i < |s| && DistinctKeys(s)
    ensures var j := IndexOf(s, k);
            IndexOf(RemoveAt(s, i), k) == if j == -1 || j == i then -1 else if j < i then j else j - 1
  {
    var r := RemoveAt(s, i);
    RemoveAtDistinct(s, i);
    var j := IndexOf(s, k);
    if j == -1 || j == i {
      forall m | 0 <= m < |r| ensures r[m].key != k {
        if m < i { assert r[m] == s[m]; } else { assert r[m] == s[m + 1]; }
      }
    } else {
      var e := if j < i then j else j - 1;
      assert r[e] == s[j];
      assert IndexOf(r, k) >= 0;
    }
  }

  /** Removing the entry at position i makes its key miss and leaves every other answer alone. */
  lemma FetchRemoveAt<V>(s: seq<Entry<V>>, i: nat, k: string, t: real, ttl: int)
    requires i < |s| && DistinctKeys(s)
    ensures Fetch(RemoveAt(s, i), k, t, ttl) == if s[i].key == k then None else Fetch(s, k, t, ttl)
  {
    IndexOfRemoveAt(s, i, k);
    var j := IndexOf(s, k);
    if j >= 0 && j != i {
      var e := if j < i then j else j - 1;
      assert RemoveAt(s, i)[e] == s[j];
    }
  }

  /** `get` keeps the store well formed. */
  lemma AfterGetValid<V>(s: seq<Entry<V>>, k: string, now: real, ttl: int, maxItems: int)
    requires ValidStore(s, maxItems)
    ensures ValidStore(AfterGet(s, k, now, ttl), maxItems)
  {
    var i := IndexOf(s, k);
    if i >= 0 && Expired(s[i].ts, now, ttl) { RemoveAtDistinct(s, i); }
  }

  /** Dropping a stale entry changes no answer at the same instant: two reads in a row agree. */
  lemma GetIsStable<V>(s: seq<Entry<V>>, k: string, k2: string, now: real, ttl: int)
    requires DistinctKeys(s)
    ensures Fetch(AfterGet(s, k, now, ttl), k2, now, ttl) == Fetch(s, k2, now, ttl)
  {
    var i := IndexOf(s, k);
    if i >= 0 && Expired(s[i].ts, now, ttl) {
      FetchRemoveAt(s, i, k2, now, ttl);
    }
  }

  /** Overwriting or appending keeps the keys distinct. */
  lemma PutDistinct<V>(s: seq<Entry<V>>, k: string, v: V, now: real)
    requires DistinctKeys(s)
    ensures DistinctKeys(Put(s, k, v, now))
    ensures |Put(s, k, v, now)| == if IndexOf(s, k) >= 0 then |s| else |s| + 1
  {
  }

  /** Right after `store[k] = (now, v)`, key k holds v, and every other key answers as before. */
  lemma PutFetch<V>(s: seq<Entry<V>>, k: string, v: V, now: real, k2: string, t: real, ttl: int)
    requires DistinctKeys(s)
    ensures Fetch(Put(s, k, v, now), k2, t, ttl) ==
      if k2 == k then (if Expired(now, t, ttl) then None else Some(v)) else Fetch(s, k2, t, ttl)
  {
    var p := Put(s, k, v, now);
    PutDistinct(s, k, v, now);
    var i := IndexOf(s, k);
    var j := IndexOf(s, k2);
    var j' := IndexOf(p, k2);
    if k2 == k {
      if i >= 0 { assert p[i].key == k; } else { assert p[|s|].key == k; }
      assert p[j'] == Entry(k, now, v);
    } else if j >= 0 {
      assert p[j] == s[j];
      assert j' == j;
    } else {
      assert forall m | 0 <= m < |p| :: p[m].key != k2 by {
        forall m | 0 <= m < |p| ensures p[m].key != k2 {
          if m < |s| { assert p[m].key == s[m].key || p[m].key == k; }
        }
      }
    }
  }

  /** Eviction drops at most one entry, the oldest, and only when the store is over the bound. */
  lemma EvictShape<V>(s: seq<Entry<V>>, maxItems: int)
    requires |s| >= 1
    ensures |s| <= maxItems ==> Evict(s, maxItems) == s
    ensures |s| > maxItems ==>
      exists i | IsOldest(s, i) :: Evict(s, maxItems) == RemoveAt(s, i)
  {
    if |s| > maxItems {
      var i := OldestIndex(s);
      assert IsOldest(s, i);
    }
  }

  /** `set` keeps the store well formed: at most one entry over the bound is ever added, and it is evicted. */
  lemma AfterSetValid<V>(s: seq<Entry<V>>, k: string, v: V, now: real, maxItems: int)
    requires ValidStore(s, maxItems)
    ensures ValidStore(AfterSet(s, k, v, now, maxItems), maxItems)
  {
    var p := Put(s, k, v, now);
    PutDistinct(s, k, v, now);
    if |p| > maxItems { RemoveAtDistinct(p, OldestIndex(p)); }
  }

  /**
   * A read within the time-to-live after a write returns the written value,
   * provided the cache holds at least one entry and no stored stamp is later
   * than the write: the written entry is then never the one evicted.
   */
  lemma SetThenGet<V>(s: seq<Entry<V>>, k: string, v: V, now: real, t: real, ttl: int, maxItems: int)
    requires ValidStore(s, maxItems) && Capacity(maxItems) >= 1
    requires forall i | 0 <= i < |s| :: s[i].ts <= now
    requires !Expired(now, t, ttl)
    ensures Fetch(AfterSet(s, k, v, now, maxItems), k, t, ttl) == Some(v)
  {
    var p := Put(s, k, v, now);
    PutDistinct(s, k, v, now);
    PutFetch(s, k, v, now, k, t, ttl);
    if |p| > maxItems {
      assert IndexOf(s, k) == -1 && |s| == maxItems && |s| >= 1;
      var o := OldestIndex(p);
      assert p[0].ts <= now && p[|s|] == Entry(k, now, v);
      assert o < |s|;
      assert p[o].key != k;
      FetchRemoveAt(p, o, k, t, ttl);
    }
  }

  /**
   * A write never changes another key's answer, except that the key loses its
   * entry exactly when the write overfills the store and that key's entry is
   * the oldest one.
   */
  lemma SetLeavesOthers<V>(s: seq<Entry<V>>, k: string, v: V, now: real, k2: string, t: real, ttl: int, maxItems: int)
    requires DistinctKeys(s) && k2 != k
    ensures var p := Put(s, k, v, now);
            Fetch(AfterSet(s, k, v, now, maxItems), k2, t, ttl)
            == if |p| > maxItems && p[OldestIndex(p)].key == k2 then None else Fetch(s, k2, t, ttl)
  {
    var p := Put(s, k, v, now);
    PutDistinct(s, k, v, now);
    PutFetch(s, k, v, now, k2, t, ttl);
    if |p| > maxItems {
      FetchRemoveAt(p, OldestIndex(p), k2, t, ttl);
    }
  }

  // ---------------------------------------------------------------------------
  // The cache object
  // ---------------------------------------------------------------------------

  class TTLCache<V> {
    const ttl: int
    const maxItems: int
    var items: seq<Entry<V>>

    predicate Valid()
      reads this
    {
      ValidStore(items, maxItems)
    }

    constructor(ttlSeconds: int := 3600, maxItems: int := 500)
      ensures ttl == ttlSeconds && this.maxItems == maxItems
      ensures items == [] && Valid()
    {
      ttl := ttlSeconds;
      this.maxItems := maxItems;
      items := [];
    }

    /** The scan `min(items, key=stamp)` performs: the first entry with the smallest stamp. */
    method FindOldest() returns (idx: nat)
      requires |items| >= 1
      ensures IsOldest(items, idx)
      ensures idx == OldestIndex(items)
    {
      idx := 0;
      var i := 1;
      while i < |items|
        invariant 1 <= i <= |items| && idx < i
        invariant forall j | 0 <= j < i :: items[idx].ts <= items[j].ts
        invariant forall j | 0 <= j < idx :: items[j].ts > items[idx].ts
      {
        if items[i].ts < items[idx].ts {
          idx := i;
        }
        i := i + 1;
      }
      OldestUnique(items, idx, OldestIndex(items));
    }

    /** `_evict_if_needed`. */
    method EvictIfNeeded()
      requires |items| >= 1
      modifies this
      ensures items == Evict(old(items), maxItems)
    {
      if |items| <= maxItems {
        return;
      }
      var oldest := FindOldest();
      items := items[..oldest] + items[oldest + 1..];
    }

    /** `get(key)` at time `now`. */
    method Get(key: string, now: real) returns (r: Option<V>)
      requires Valid()
      modifies this
      ensures r == Fetch(old(items), key, now, ttl)
      ensures items == AfterGet(old(items), key, now, ttl)
      ensures Valid()
    {
      AfterGetValid(items, key, now, ttl, maxItems);
      var i := IndexOf(items, key);
      if i == -1 {
        return None;
      }
      var item := items[i];
      if now - item.ts > ttl as real {
        items := items[..i] + items[i + 1..];
        return None;
      }
      return Some(item.value);
    }

    /** `set(key, value)` at time `now`. */
    method Set(key: string, value: V, now: real)
      requires Valid()
      modifies this
      ensures items == AfterSet(old(items), key, value, now, maxItems)
      ensures Valid()
    {
      AfterSetValid(items, key, value, now, maxItems);
      var i := IndexOf(items, key);
      if i >= 0 {
        items := items[i := Entry(key, now, value)];
      } else {
        items := items + [Entry(key, now, value)];
      }
      EvictIfNeeded();
    }
  }
}
