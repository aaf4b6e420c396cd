/** The indicator engine: a memo over the least-recently-used cache.  The
    indicators themselves, their parameters and the fingerprint of a data frame
    are functions the engine is given. */
module Indicators {
  import opened Domain
  import opened LruCaches

  datatype IndicatorRequest<P> = IndicatorRequest(name: string, params: P, alias: Option<string>) {
    /** The alias; a missing or an empty one leaves the name. */
    function ResultKey(): string { if alias.Some? && alias.value != "" then alias.value else name }
  }

  /** What a cached result is filed under: the indicator, its resolved parameters and the data's fingerprint. */
  datatype CacheKey<R> = CacheKey(name: string, params: R, fingerprint: int)

  /** `usable`: the data frame is valid.  `resolve`: the indicator exists and its
      parameters validate.  `compute`: the indicator itself, which may raise. */
  datatype Library<!F, !P, !R, !V> = Library(
    usable: F -> bool, fingerprint: F -> int, resolve: (string, P) -> Result<R>, compute: (F, string, R) -> Result<V>)

  /** Direct computation of the listed requests, without any cache; the first that raises ends it. */
  function Direct<F, P, R, V>(lib: Library<F, P, R, V>, df: F, requests: seq<IndicatorRequest<P>>,
                              results: map<string, V>): Result<map<string, V>>
  {
    if requests == [] then Ok(results)
    else
      var request := requests[0];
      var params :- lib.resolve(request.name, request.params);
      var value :- lib.compute(df, request.name, params);
      Direct(lib, df, requests[1..], results[request.ResultKey() := value])
  }

  /** Request `i` is the last one filed under its key. */
  predicate LastOfKey<P>(requests: seq<IndicatorRequest<P>>, i: nat)
    requires i < |requests|
  {
    forall j | i < j < |requests| :: requests[j].ResultKey() != requests[i].ResultKey()
  }

  /** What direct computation answers: under each requested key, and no other
      beside those there before, the result of the last request filed under it. */
  lemma {:induction false} DirectAnswersEach<F, P, R, V>(lib: Library<F, P, R, V>, df: F,
                                                        requests: seq<IndicatorRequest<P>>, results: map<string, V>)
    requires Direct(lib, df, requests, results).Ok?
    ensures var m := Direct(lib, df, requests, results).value;
            && (forall k :: k in m <==> k in results || exists i :: 0 <= i < |requests| && requests[i].ResultKey() == k)
            && (forall k | k in results && forall i | 0 <= i < |requests| :: requests[i].ResultKey() != k ::
                  k in m && m[k] == results[k])
            && forall i: nat | i < |requests| && LastOfKey(requests, i) ::
                 && requests[i].ResultKey() in m
                 && var params := lib.resolve(requests[i].name, requests[i].params);
                    params.Ok? && lib.compute(df, requests[i].name, params.value) == Ok(m[requests[i].ResultKey()])
    decreases |requests|
  {
    if requests != [] {
      var first, rest := requests[0], requests[1..];
      var params := lib.resolve(first.name, first.params).value;
      var value := lib.compute(df, first.name, params).value;
      DirectAnswersEach(lib, df, rest, results[first.ResultKey() := value]);
      assert forall i | 0 < i < |requests| :: requests[i] == rest[i - 1];
      forall i: nat | 0 < i < |requests| && LastOfKey(requests, i) ensures LastOfKey(rest, i - 1) {
        forall j | i - 1 < j < |rest| ensures rest[j].ResultKey() != rest[i - 1].ResultKey() {
          assert requests[j + 1] == rest[j];
        }
      }
    }
  }

  /** The keys a call asks the cache for, with their values, up to the first that raises. */
  function Asked<F, P, R, V>(lib: Library<F, P, R, V>, df: F, requests: seq<IndicatorRequest<P>>)
    : seq<(CacheKey<R>, V)>
  {
    if requests == [] then []
    else
      var request := requests[0];
      match lib.resolve(request.name, request.params)
      case Err(_) => []
      case Ok(params) =>
        match lib.compute(df, request.name, params)
        case Err(_) => []
        case Ok(value) =>
          [(CacheKey(request.name, params, lib.fingerprint(df)), value)] + Asked(lib, df, requests[1..])
  }

  /** Equal fingerprints mean equal results: the key determines the result. */
  ghost predicate KeyDetermines<F(!new), P, R(!new), V>(lib: Library<F, P, R, V>) {
    forall f: F, g: F, name: string, params: R ::
      lib.fingerprint(f) == lib.fingerprint(g) ==> lib.compute(f, name, params) == lib.compute(g, name, params)
  }

  /** Every cached value is what its key stands for. */
  ghost predicate Coherent<F(!new), P, R(!new), V>(lib: Library<F, P, R, V>, values: map<CacheKey<R>, V>) {
    forall f: F, name: string, params: R ::
      var key := CacheKey(name, params, lib.fingerprint(f));
      key in values ==> lib.compute(f, name, params) == Ok(values[key])
  }

  /** Serving one request keeps the cache coherent, and a hit is the value itself. */
  lemma RequestIsCoherent<F(!new), P, R(!new), V>(lib: Library<F, P, R, V>, s: Store<CacheKey<R>, V>, df: F,
                                                  name: string, params: R, size: nat)
    requires size > 0 && KeyDetermines(lib) && Coherent(lib, s.values)
    ensures var key := CacheKey(name, params, lib.fingerprint(df));
            && Coherent(lib, Got(s, key).values) && (key !in s.values ==> Got(s, key) == s)
            && (key in s.values ==> lib.compute(df, name, params) == Ok(s.values[key]))
            && (lib.compute(df, name, params).Ok? ==>
                  Coherent(lib, Requested(s, key, lib.compute(df, name, params).value, size).values))
  {
    hide Touched;
  }

  lemma ServedMore<K(!new), V>(past: seq<(K, V)>, k: K, v: V, size: nat)
    requires size > 0
    ensures Served(past + [(k, v)], size) == Requested(Served(past, size), k, v, size)
  {
    assert (past + [(k, v)])[..|past|] == past;
  }

  class IndicatorEngine<F(!new), P, R(==, !new), V> {
    const lib: Library<F, P, R, V>
    const cache: LRUCache<CacheKey<R>, V>
    /** Everything the cache was ever asked for since it was last cleared. */
    ghost var past: seq<(CacheKey<R>, V)>

    ghost predicate Valid()
      reads this, cache
    {
      cache.Valid() && Coherent(lib, cache.values) && cache.View() == Served(past, cache.maxSize)
    }

    constructor (lib: Library<F, P, R, V>, size: nat)
      requires size > 0
      ensures Valid() && fresh(cache) && this.lib == lib && cache.maxSize == size && past == []
    {
      this.lib, past := lib, [];
      cache := new LRUCache(size);
    }

    /** Memo transparency: whatever was asked before and whatever the cache's
        size, the answer is that of direct computation. */
    method Calculate(df: F, requests: seq<IndicatorRequest<P>>) returns (r: Result<map<string, V>>)
      requires Valid() && KeyDetermines(lib)
      modifies this, cache
      ensures Valid()
      ensures past == if lib.usable(df) then old(past) + Asked(lib, df, requests) else old(past)
      ensures r == if lib.usable(df) then Direct(lib, df, requests, map[]) else Err(ValidationFailed)
    {
      hide Put, Got, StoreOk, Coherent, KeyDetermines, Served, IndicatorRequest.ResultKey;
      if !lib.usable(df) { return Err(ValidationFailed); }
      var fingerprint := lib.fingerprint(df);
      var results: map<string, V> := map[];
      for i := 0 to |requests|
        invariant Valid()
        invariant past + Asked(lib, df, requests[i..]) == old(past) + Asked(lib, df, requests)
        invariant Direct(lib, df, requests, map[]) == Direct(lib, df, requests[i..], results)
      {
        var request := requests[i];
        assert requests[i..][0] == request && requests[i..][1..] == requests[i + 1..];
        var params :- lib.resolve(request.name, request.params);
        var key := CacheKey(request.name, params, fingerprint);
        RequestIsCoherent(lib, cache.View(), df, request.name, params, cache.maxSize);
        ghost var store := cache.View();
        var cached := cache.Get(key);
        var value: V;
        if cached.Some? {
          value := cached.value;
        } else {
          value :- lib.compute(df, request.name, params);
          cache.Set(key, value);
        }
        ServedMore(past, key, value, cache.maxSize);
        assert cache.View() == Requested(store, key, value, cache.maxSize);
        past := past + [(key, value)];
        results := results[request.ResultKey() := value];
      }
      return Ok(results);
    }

    method ClearCache()
      requires Valid()
      modifies this, cache
      ensures Valid() && cache.values == map[] && past == []
    {
      cache.Clear();
      past := [];
    }
  }

  /** What an engine's cache holds: exactly the keys asked for recently enough. */
  lemma EngineCachesTheRecent<F(!new), P, R(!new), V>(engine: IndicatorEngine<F, P, R, V>, key: CacheKey<R>)
    requires engine.Valid()
    ensures key in engine.cache.values
            <==> key in KeysOf(engine.past) && Distance(KeysOf(engine.past), key) < engine.cache.maxSize
  {
    CachedExactlyWhenRecent(engine.past, engine.cache.maxSize, key);
  }
}
