/** Sums over maps and over lists, and how one change moves them. */
module Sums {

  /** Sum of all values of a map; no order is involved. */
  ghost function Total<K>(m: map<K, real>): real
    decreases |m|
  {
    if m == map[] then 0.0
    else
      var k :| k in m;
      Smaller(m, k);
      m[k] + Total(m - {k})
  }

  lemma Smaller<K>(m: map<K, real>, k: K)
    requires k in m
    ensures |m - {k}| < |m|
  {
    var n := m - {k};
    assert m == n[k := m[k]];
  }

  lemma {:induction false} TotalWithout<K>(m: map<K, real>, k: K)
    requires k in m
    ensures Total(m) == m[k] + Total(m - {k})
    decreases |m|
  {
    var j :| j in m && Total(m) == m[j] + Total(m - {j});
    if j != k {
      Smaller(m, j);
      Smaller(m, k);
      TotalWithout(m - {j}, k);
      TotalWithout(m - {k}, j);
      assert m - {j} - {k} == m - {k} - {j};
    }
  }

  /** The value at `k`, zero when there is none. */
  function At<K>(m: map<K, real>, k: K): real { if k in m then m[k] else 0.0 }

  /** Rewriting or removing one entry moves the total by the difference. */
  lemma TotalAfter<K>(m: map<K, real>, n: map<K, real>, k: K)
    requires m - {k} == n - {k}
    ensures Total(n) == Total(m) - At(m, k) + At(n, k)
  {
    if k in m { TotalWithout(m, k); } else { assert m - {k} == m; }
    if k in n { TotalWithout(n, k); } else { assert n - {k} == n; }
  }

  /** Listing a map without repetition lists its total. */
  lemma {:induction false} TotalOfListing<K>(m: map<K, real>, keys: seq<K>, values: seq<real>)
    requires |keys| == |values|
    requires forall i, j | 0 <= i < j < |keys| :: keys[i] != keys[j]
    requires forall k :: k in keys <==> k in m
    requires forall i | 0 <= i < |keys| :: values[i] == m[keys[i]]
    ensures Total(m) == SumOf(values)
  {
    if keys == [] {
      assert m == map[] by {
        assert forall k :: k in m ==> k in keys;
      }
    } else {
      var k := keys[0];
      assert k in keys;
      TotalWithout(m, k);
      forall j | j in keys[1..] ensures j in m - {k} {
        assert j in keys;
      }
      forall j | j in m - {k} ensures j in keys[1..] {
        assert j in keys;
      }
      TotalOfListing(m - {k}, keys[1..], values[1..]);
    }
  }

  function SumOf(values: seq<real>): real {
    if values == [] then 0.0 else values[0] + SumOf(values[1..])
  }

  lemma {:induction false} SumOfAppend(a: seq<real>, b: seq<real>)
    ensures SumOf(a + b) == SumOf(a) + SumOf(b)
  {
    if a == [] {
      assert a + b == b;
    } else {
      SumOfAppend(a[1..], b);
      assert (a + b)[1..] == a[1..] + b;
    }
  }
}
