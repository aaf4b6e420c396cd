/** Lists without repetition. */
module Lists {
  predicate Distinct<K(==, !new)>(s: seq<K>) { forall i, j | 0 <= i < j < |s| :: s[i] != s[j] }

  /** `order` lists the elements of `all`, each once. */
  ghost predicate ListsOnce<X(!new)>(order: seq<X>, all: set<X>) {
    Distinct(order) && forall x :: x in order <==> x in all
  }

  lemma ListedIsIn<X(!new)>(order: seq<X>, all: set<X>)
    requires ListsOnce(order, all)
    ensures forall x | x in order :: x in all
  {
  }

  /** `s` without `k`. */
  function Without<K(==, !new)>(s: seq<K>, k: K): (r: seq<K>)
    ensures forall x :: x in r <==> x in s && x != k
    ensures |r| <= |s|
  {
    if s == [] then [] else if s[0] == k then Without(s[1..], k) else [s[0]] + Without(s[1..], k)
  }

  /** A dictionary's order after `k` was stored: a new key comes last, a known one keeps its place. */
  function Joined<K(==, !new)>(s: seq<K>, k: K): seq<K> { if k in s then s else s + [k] }

  /** `s` without the elements of `out`. */
  function Kept<K(==)>(s: seq<K>, out: set<K>): seq<K> {
    if s == [] then []
    else
      var n := |s| - 1;
      Kept(s[..n], out) + if s[n] in out then [] else [s[n]]
  }

  lemma {:induction false} WithoutAbsent<K(!new)>(s: seq<K>, k: K)
    requires k !in s
    ensures Without(s, k) == s
  {
    if s != [] {
      WithoutAbsent(s[1..], k);
      assert s == [s[0]] + s[1..];
    }
  }

  lemma WithoutFirst<K(!new)>(x: K, s: seq<K>, k: K)
    ensures Without([x] + s, k) == if x == k then Without(s, k) else [x] + Without(s, k)
  {
    assert ([x] + s)[1..] == s;
  }

  lemma {:induction false} WithoutJoin<K(!new)>(a: seq<K>, b: seq<K>, k: K)
    ensures Without(a + b, k) == Without(a, k) + Without(b, k)
  {
    if a == [] {
      assert a + b == b;
    } else {
      WithoutJoin(a[1..], b, k);
      WithoutFirst(a[0], a[1..], k);
      WithoutFirst(a[0], a[1..] + b, k);
      assert a == [a[0]] + a[1..];
      assert a + b == [a[0]] + (a[1..] + b);
      hide Without;
      if a[0] != k {
        assert [a[0]] + (Without(a[1..], k) + Without(b, k)) == [a[0]] + Without(a[1..], k) + Without(b, k);
      }
    }
  }

  lemma {:induction false} WithoutIsDistinct<K(!new)>(s: seq<K>, k: K)
    requires Distinct(s)
    ensures Distinct(Without(s, k))
    ensures |Without(s, k)| == if k in s then |s| - 1 else |s|
  {
    if s != [] {
      WithoutIsDistinct(s[1..], k);
      if s[0] == k {
        WithoutAbsent(s[1..], k);
      } else {
        var rest := Without(s[1..], k);
        assert s[0] !in s[1..];
        assert forall j | 0 <= j < |rest| :: rest[j] in rest;
      }
    }
  }

  lemma {:induction false} KeptIsPrefix<K>(s: seq<K>, out: set<K>, i: nat)
    requires i <= |s|
    ensures Kept(s[..i], out) <= Kept(s, out)
  {
    if i == |s| {
      assert s[..i] == s;
    } else {
      KeptIsPrefix(s[..|s| - 1], out, i);
      assert s[..|s| - 1][..i] == s[..i];
    }
  }

  lemma KeptOneMore<K>(s: seq<K>, out: set<K>, i: nat)
    requires i < |s|
    ensures Kept(s[..i + 1], out) == Kept(s[..i], out) + if s[i] in out then [] else [s[i]]
  {
    assert s[..i + 1][..i] == s[..i];
  }
}
