/** The least-recently-used cache, and what it holds after any requests. */
module LruCaches {
  import opened Domain
  import opened Lists

  /** `keys` from least to most recently used. */
  datatype Store<K, V> = Store(keys: seq<K>, values: map<K, V>)

  ghost predicate StoreOk<K(!new), V>(s: Store<K, V>, size: nat) {
    Distinct(s.keys) && |s.keys| <= size && forall k :: k in s.keys <==> k in s.values
  }

  function Touched<K(==, !new)>(keys: seq<K>, k: K): seq<K> { Without(keys, k) + [k] }

  /** The store after `get`; whether it was a hit is whether the key is there. */
  function Got<K(==, !new), V>(s: Store<K, V>, k: K): Store<K, V> {
    if k in s.values then s.(keys := Touched(s.keys, k)) else s
  }

  function Put<K(==, !new), V>(s: Store<K, V>, k: K, v: V, size: nat): Store<K, V>
    requires size > 0
  {
    var keys := if k in s.values then Touched(s.keys, k) else s.keys + [k];
    if |keys| > size then Store(keys[1..], s.values[k := v] - {keys[0]}) else Store(keys, s.values[k := v])
  }

  /** The cache's only use: get, and on a miss compute and set. */
  function Requested<K(==, !new), V>(s: Store<K, V>, k: K, v: V, size: nat): Store<K, V>
    requires size > 0
  {
    if k in s.values then Got(s, k) else Put(Got(s, k), k, v, size)
  }

  // ---------- Recency ----------

  /** The distinct keys of a request sequence, from least to most recently requested. */
  function Recency<K(==, !new)>(requests: seq<K>): seq<K> {
    if requests == [] then []
    else Touched(Recency(requests[..|requests| - 1]), requests[|requests| - 1])
  }

  function Last<K>(s: seq<K>, n: nat): seq<K> { if |s| <= n then s else s[|s| - n..] }

  lemma TouchedIsDistinct<K(!new)>(s: seq<K>, k: K)
    requires Distinct(s)
    ensures Distinct(Touched(s, k)) && |Touched(s, k)| == if k in s then |s| else |s| + 1
    ensures forall x :: x in Touched(s, k) <==> x in s || x == k
  {
    WithoutIsDistinct(s, k);
    var r := Without(s, k);
    assert forall i | 0 <= i < |r| :: r[i] in r;
  }

  lemma {:induction false} RecencyIsDistinct<K(!new)>(requests: seq<K>)
    ensures Distinct(Recency(requests))
    ensures forall k :: k in Recency(requests) <==> k in requests
  {
    if requests != [] {
      var n := |requests| - 1;
      RecencyIsDistinct(requests[..n]);
      TouchedIsDistinct(Recency(requests[..n]), requests[n]);
      assert requests == requests[..n] + [requests[n]];
    }
  }

  lemma LastOfJoin<K>(a: seq<K>, b: seq<K>, n: nat)
    requires |b| >= n || a == []
    ensures Last(a + b, n) == Last(b, n)
  {
    if a == [] { assert a + b == b; }
  }

  lemma PartsAreDisjoint<K(!new)>(a: seq<K>, b: seq<K>, k: K)
    requires Distinct(a + b) && k in b
    ensures k !in a && Distinct(b)
  {
    var s := a + b;
    assert forall j | 0 <= j < |b| :: b[j] == s[|a| + j];
    var j: nat :| j < |b| && b[j] == k;
    forall i | 0 <= i < |a| ensures a[i] != k {
      assert s[i] == a[i] && s[|a| + j] == k;
    }
  }

  /** The last `n` of a list commute with touching a key, as the cache does it. */
  lemma LastOfTouched<K(!new)>(s: seq<K>, k: K, n: nat)
    requires Distinct(s) && n > 0
    ensures Last(Touched(s, k), n)
         == if k in Last(s, n) then Touched(Last(s, n), k)
            else if |s| < n then Last(s, n) + [k] else Last(s, n)[1..] + [k]
  {
    hide Without, Distinct;
    var head, tail := s[..|s| - |Last(s, n)|], Last(s, n);
    assert s == head + tail;
    if k in tail {
      TouchedInTail(head, tail, k);
      LastOfJoin(head, Touched(tail, k), n);
    } else {
      TouchedOutside(head, tail, k);
      LastOfJoin(Without(head, k), tail + [k], n);
    }
  }

  lemma TouchedInTail<K(!new)>(head: seq<K>, tail: seq<K>, k: K)
    requires Distinct(head + tail) && k in tail
    ensures Touched(head + tail, k) == head + Touched(tail, k) && |Touched(tail, k)| == |tail|
  {
    hide Without, Distinct;
    PartsAreDisjoint(head, tail, k);
    WithoutJoin(head, tail, k);
    WithoutAbsent(head, k);
    WithoutIsDistinct(tail, k);
  }

  lemma TouchedOutside<K(!new)>(head: seq<K>, tail: seq<K>, k: K)
    requires k !in tail
    ensures Touched(head + tail, k) == Without(head, k) + (tail + [k])
    ensures head == [] ==> Without(head, k) == []
  {
    WithoutJoin(head, tail, k);
    WithoutAbsent(tail, k);
    hide Without;
    assert Without(head, k) + tail + [k] == Without(head, k) + (tail + [k]);
  }

  /** Requests served by a cache of the given size, each with its value. */
  function Served<K(==, !new), V>(requests: seq<(K, V)>, size: nat): Store<K, V>
    requires size > 0
  {
    if requests == [] then Store([], map[])
    else
      var n := |requests| - 1;
      Requested(Served(requests[..n], size), requests[n].0, requests[n].1, size)
  }

  function KeysOf<K, V>(requests: seq<(K, V)>): (ks: seq<K>)
    ensures |ks| == |requests| && forall i | 0 <= i < |ks| :: ks[i] == requests[i].0
  {
    seq(|requests|, i requires 0 <= i < |requests| => requests[i].0)
  }

  lemma PutKeepsStore<K(!new), V>(s: Store<K, V>, k: K, v: V, size: nat)
    requires size > 0 && StoreOk(s, size)
    ensures StoreOk(Put(s, k, v, size), size)
    ensures k !in s.keys ==>
              Put(s, k, v, size).keys == if |s.keys| < size then s.keys + [k] else s.keys[1..] + [k]
  {
    hide Without, Touched;
    TouchedIsDistinct(s.keys, k);
    if k !in s.keys {
      var keys := s.keys + [k];
      assert Distinct(keys);
      if |keys| > size {
        assert keys == [keys[0]] + keys[1..];
        assert keys[0] !in keys[1..];
        assert keys[1..] == s.keys[1..] + [k];
      }
    }
  }

  lemma RequestKeepsStore<K(!new), V>(s: Store<K, V>, k: K, v: V, size: nat)
    requires size > 0 && StoreOk(s, size)
    ensures StoreOk(Requested(s, k, v, size), size)
    ensures Requested(s, k, v, size).keys
         == if k in s.keys then Touched(s.keys, k)
            else if |s.keys| < size then s.keys + [k] else s.keys[1..] + [k]
  {
    hide Without, Put;
    TouchedIsDistinct(s.keys, k);
    PutKeepsStore(s, k, v, size);
  }

  /** The stack property's heart: a cache of size `n` holds exactly the `n` most
      recently requested distinct keys, in that order. */
  lemma {:induction false} HoldsTheMostRecent<K(!new), V>(requests: seq<(K, V)>, size: nat)
    requires size > 0
    ensures StoreOk(Served(requests, size), size)
    ensures Served(requests, size).keys == Last(Recency(KeysOf(requests)), size)
  {
    hide StoreOk, Put, Got;
    if requests == [] {
      EmptyIsOk<K, V>(size);
    } else {
      var n := |requests| - 1;
      HoldsTheMostRecent(requests[..n], size);
      var recent := Recency(KeysOf(requests[..n]));
      RecencyIsDistinct(KeysOf(requests[..n]));
      assert KeysOf(requests)[..n] == KeysOf(requests[..n]);
      RequestKeepsStore(Served(requests[..n], size), requests[n].0, requests[n].1, size);
      LastOfTouched(recent, requests[n].0, size);
    }
  }

  lemma EmptyIsOk<K(!new), V>(size: nat)
    ensures StoreOk<K, V>(Store([], map[]), size)
  {
  }

  /** The stack property: whatever a smaller cache holds, a larger one holds. */
  lemma SmallerIsContained<K(!new), V>(requests: seq<(K, V)>, small: nat, large: nat, k: K)
    requires 0 < small <= large && k in Served(requests, small).values
    ensures k in Served(requests, large).values
  {
    hide Served, Recency, KeysOf, Distinct;
    HoldsTheMostRecent(requests, small);
    HoldsTheMostRecent(requests, large);
    var r := Recency(KeysOf(requests));
    var i :| 0 <= i < |Last(r, small)| && Last(r, small)[i] == k;
    assert Last(r, large)[i + |Last(r, large)| - |Last(r, small)|] == k;
  }

  // ---------- Stack distance ----------

  function Elements<K>(s: seq<K>): set<K> { set x | x in s }

  /** Where `k` was last requested. */
  function LastUse<K(==, !new)>(requests: seq<K>, k: K): (i: nat)
    requires k in requests
    ensures i < |requests| && requests[i] == k && k !in requests[i + 1..]
  {
    var n := |requests| - 1;
    if requests[n] == k then n
    else
      assert requests == requests[..n] + [requests[n]];
      var i := LastUse(requests[..n], k);
      assert requests[i + 1..] == requests[..n][i + 1..] + [requests[n]];
      i
  }

  /** How many different keys were requested since `k` was. */
  function Distance<K(==, !new)>(requests: seq<K>, k: K): nat
    requires k in requests
  {
    |Elements(requests[LastUse(requests, k) + 1..])|
  }

  lemma {:induction false} DistinctCount<K(!new)>(s: seq<K>)
    requires Distinct(s)
    ensures |Elements(s)| == |s|
  {
    if s != [] {
      DistinctCount(s[1..]);
      assert s[0] !in s[1..];
      assert Elements(s) == {s[0]} + Elements(s[1..]);
    }
  }

  /** Touching another key leaves what followed `k` and appends that key. */
  lemma TouchedAround<K(!new)>(s: seq<K>, q: nat, last: K)
    requires q < |s| && s[q] != last
    ensures Touched(s, last) == Without(s[..q], last) + [s[q]] + Without(s[q + 1..], last) + [last]
  {
    WithoutJoin(s[..q], s[q..], last);
    assert s == s[..q] + s[q..];
    assert s[q..][1..] == s[q + 1..];
  }

  /** The keys after `k` in the recency list are those requested since. */
  lemma {:induction false} AfterInRecency<K(!new)>(requests: seq<K>, k: K) returns (p: nat)
    requires k in requests
    ensures p < |Recency(requests)| && Recency(requests)[p] == k
    ensures Elements(Recency(requests)[p + 1..]) == Elements(requests[LastUse(requests, k) + 1..])
  {
    hide Without;
    var n := |requests| - 1;
    var last := requests[n];
    var before := Recency(requests[..n]);
    assert requests == requests[..n] + [last];
    if last == k {
      p := |Without(before, k)|;
      assert Recency(requests)[p + 1..] == [] && requests[n + 1..] == [];
    } else {
      var q := AfterInRecency(requests[..n], k);
      TouchedAround(before, q, last);
      p := |Without(before[..q], last)|;
      var i := LastUse(requests, k);
      var tail := Without(before[q + 1..], last);
      assert Recency(requests)[p + 1..] == tail + [last];
      assert requests[i + 1..] == requests[..n][i + 1..] + [last];
      assert Elements(tail + [last]) == Elements(before[q + 1..]) + {last};
      assert Elements(requests[i + 1..]) == Elements(requests[..n][i + 1..]) + {last};
    }
  }

  /** A key's place from the end of the recency list is its stack distance. */
  lemma DistanceIsPlace<K(!new)>(requests: seq<K>, k: K) returns (p: nat)
    requires k in requests
    ensures p < |Recency(requests)| && Recency(requests)[p] == k
    ensures |Recency(requests)| - p - 1 == Distance(requests, k)
  {
    RecencyIsDistinct(requests);
    p := AfterInRecency(requests, k);
    hide Recency, LastUse;
    assert Distinct(Recency(requests)[p + 1..]);
    DistinctCount(Recency(requests)[p + 1..]);
  }

  /** A key is cached if and only if it was requested and fewer than `size`
      different keys have been requested since. */
  lemma CachedExactlyWhenRecent<K(!new), V>(requests: seq<(K, V)>, size: nat, k: K)
    requires size > 0
    ensures k in Served(requests, size).values
            <==> k in KeysOf(requests) && Distance(KeysOf(requests), k) < size
  {
    hide Recency, KeysOf, Served, Distinct, Distance;
    HoldsTheMostRecent(requests, size);
    var r := Recency(KeysOf(requests));
    RecencyIsDistinct(KeysOf(requests));
    if k in KeysOf(requests) {
      var p := DistanceIsPlace(KeysOf(requests), k);
      InLast(r, size, p);
    } else {
      assert forall x | x in Last(r, size) :: x in r;
    }
  }

  /** In a list without repetition an element is among the last `n` if fewer than `n` follow it. */
  lemma InLast<K(!new)>(r: seq<K>, n: nat, p: nat)
    requires Distinct(r) && p < |r|
    ensures r[p] in Last(r, n) <==> |r| - p - 1 < n
  {
    var l := Last(r, n);
    if p + |l| >= |r| {
      assert l[p + |l| - |r|] == r[p];
    } else {
      assert forall i | 0 <= i < |l| :: l[i] == r[|r| - |l| + i];
    }
  }

  class LRUCache<K(==, !new), V> {
    const maxSize: nat
    var keys: seq<K>
    var values: map<K, V>

    ghost predicate Valid()
      reads this
    {
      maxSize > 0 && StoreOk(View(), maxSize)
    }

    ghost function View(): Store<K, V>
      reads this
    {
      Store(keys, values)
    }

    constructor (maxSize: nat)
      requires maxSize > 0
      ensures Valid() && this.maxSize == maxSize && View() == Store([], map[])
    {
      this.maxSize, keys, values := maxSize, [], map[];
    }

    method Get(key: K) returns (r: Option<V>)
      requires Valid()
      modifies this
      ensures Valid() && View() == Got(old(View()), key)
      ensures r == if key in old(values) then Some(old(values)[key]) else None
    {
      if key !in values { return None; }
      TouchedIsDistinct(keys, key);
      keys := Touched(keys, key);
      return Some(values[key]);
    }

    method Set(key: K, value: V)
      requires Valid()
      modifies this
      ensures Valid() && View() == Put(old(View()), key, value, maxSize)
    {
      PutKeepsStore(View(), key, value, maxSize);
      if key in values { keys := Touched(keys, key); } else { keys := keys + [key]; }
      values := values[key := value];
      if |keys| > maxSize {
        keys, values := keys[1..], values - {keys[0]};
      }
    }

    method Clear()
      requires Valid()
      modifies this
      ensures Valid() && View() == Store([], map[])
    {
      keys, values := [], map[];
    }
  }
}
