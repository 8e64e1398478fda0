/** The web client's trend cache (`TrendService` in
    src/lib/services/trendService.ts): Twitter trends are scored, stored in
    a map keyed `twitter-<name>`, refreshed at most every five minutes, and
    listed highest score first. The Twitter fetch is an input; clock
    readings are integer milliseconds. */
module TrendCache {
  import opened Wrappers
  import Ranking

  /** `UPDATE_INTERVAL`: five minutes in milliseconds. */
  const UpdateInterval: int := 5 * 60 * 1000
  const ErrorCode: string := "TREND_SERVICE_ERROR"
  const ErrorSource: string := "TrendService"
  /** The message used when what was thrown is not an `Error`. */
  const DefaultErrorMessage: string := "Error fetching trends"

  /** A trend as the Twitter service returns it; `volume` is `None` for a
      null `tweet_volume`. */
  datatype TwitterTrend = TwitterTrend(name: string, query: string, volume: Option<int>, url: string)

  datatype ProcessedTrend = ProcessedTrend(
    id: string, name: string, source: string, volume: int, score: real,
    timestamp: int, query: string, url: string)

  /** What the Twitter fetch did: it answered, or it threw (an `Error` with
      its message, or something else). */
  datatype Fetch = Fetched(trends: seq<TwitterTrend>) | FetchThrew(message: Option<string>)

  datatype ServiceError = ServiceError(message: string, code: string, source: string)

  /** `calculateTrendScore`: a null or zero volume scores 0, otherwise the
      volume per ten thousand, capped at 1. */
  function CalculateTrendScore(volume: Option<int>): (r: real)
    ensures volume.None? || volume.value == 0 ==> r == 0.0
    ensures volume.Some? && volume.value >= 0 ==> 0.0 <= r <= 1.0
    ensures volume.Some? && volume.value >= 10000 ==> r == 1.0
  {
    if volume.None? || volume.value == 0 then 0.0
    else if volume.value as real / 10000.0 < 1.0 then volume.value as real / 10000.0
    else 1.0
  }

  /** More tweets never score lower. */
  lemma ScoreMonotone(v: int, w: int)
    requires 0 <= v <= w
    ensures CalculateTrendScore(Some(v)) <= CalculateTrendScore(Some(w))
  {
  }

  /** The cache key of a trend name. */
  function Key(name: string): (r: string)
    ensures |r| == |name| + 8 && r[8..] == name
  {
    "twitter-" + name
  }

  /** Distinct names give distinct keys, so entries only collide on a
      repeated name. */
  lemma KeyInjective(a: string, b: string)
    ensures Key(a) == Key(b) <==> a == b
  {
    if Key(a) == Key(b) {
      assert a == Key(a)[8..] == Key(b)[8..] == b;
    }
  }

  /** The entry written for a trend at time `now`: a null volume is stored as
      0. */
  function Process(t: TwitterTrend, now: int): (r: ProcessedTrend)
    ensures r.id == Key(t.name) && r.name == t.name && r.source == "twitter"
    ensures r.volume == (if t.volume.Some? then t.volume.value else 0)
    ensures r.score == CalculateTrendScore(t.volume)
  {
    ProcessedTrend(Key(t.name), t.name, "twitter", t.volume.GetOr(0),
                   CalculateTrendScore(t.volume), now, t.query, t.url)
  }

  /** The map after writing each trend of `ts` in turn. */
  function CacheAfter(cache: map<string, ProcessedTrend>, ts: seq<TwitterTrend>, now: int): map<string, ProcessedTrend> {
    if ts == [] then cache
    else CacheAfter(cache, ts[..|ts| - 1], now)[Key(ts[|ts| - 1].name) := Process(ts[|ts| - 1], now)]
  }

  /** The key order of a JavaScript `Map` after those writes: a new key goes
      last, an existing key keeps its place. */
  function OrderAfter(keys: seq<string>, ts: seq<TwitterTrend>): seq<string> {
    if ts == [] then keys
    else
      var prev := OrderAfter(keys, ts[..|ts| - 1]);
      if Key(ts[|ts| - 1].name) in prev then prev else prev + [Key(ts[|ts| - 1].name)]
  }

  predicate Distinct<T(==)>(xs: seq<T>) {
    forall i, j :: 0 <= i < j < |xs| ==> xs[i] != xs[j]
  }

  /** The key order lists every key of the map once. */
  ghost predicate Indexed(cache: map<string, ProcessedTrend>, keys: seq<string>) {
    Distinct(keys) && (forall k :: k in keys <==> k in cache)
  }

  /** Writing a batch keeps the key order in step with the map. */
  lemma {:induction false} OrderAfterIndexed(cache: map<string, ProcessedTrend>, keys: seq<string>, ts: seq<TwitterTrend>, now: int)
    requires Indexed(cache, keys)
    ensures Indexed(CacheAfter(cache, ts, now), OrderAfter(keys, ts))
    ensures keys <= OrderAfter(keys, ts)
  {
    if ts != [] {
      OrderAfterIndexed(cache, keys, ts[..|ts| - 1], now);
    }
  }

  /** After a batch the map holds exactly the old keys and the keys of the
      batch's names: nothing is ever deleted. */
  lemma {:induction false} CacheAfterKeys(cache: map<string, ProcessedTrend>, ts: seq<TwitterTrend>, now: int)
    ensures forall k :: k in CacheAfter(cache, ts, now)
                   <==> k in cache || exists i :: 0 <= i < |ts| && k == Key(ts[i].name)
  {
    forall k ensures k in CacheAfter(cache, ts, now) <==> k in cache || exists i :: 0 <= i < |ts| && k == Key(ts[i].name) {
      CacheAfterHas(cache, ts, now, k);
    }
  }

  /** One key of the map after a batch: present exactly when it was before
      or some trend of the batch names it. */
  lemma {:induction false} CacheAfterHas(cache: map<string, ProcessedTrend>, ts: seq<TwitterTrend>, now: int, k: string)
    ensures k in CacheAfter(cache, ts, now) <==> k in cache || exists i :: 0 <= i < |ts| && k == Key(ts[i].name)
  {
    if ts != [] {
      var n := |ts| - 1;
      CacheAfterHas(cache, ts[..n], now, k);
      if k != Key(ts[n].name) {
        if exists i :: 0 <= i < |ts| && k == Key(ts[i].name) {
          var i :| 0 <= i < |ts| && k == Key(ts[i].name);
          assert i < n && ts[..n][i] == ts[i];
        }
        if exists i :: 0 <= i < n && k == Key(ts[..n][i].name) {
          var i :| 0 <= i < n && k == Key(ts[..n][i].name);
          assert ts[..n][i] == ts[i];
        }
      }
    }
  }

  /** The entry of a name is the one written by its last occurrence in the
      batch; a repeated name overwrites instead of duplicating. */
  lemma {:induction false} CacheAfterLastWins(cache: map<string, ProcessedTrend>, ts: seq<TwitterTrend>, now: int, i: nat)
    requires i < |ts|
    requires forall j :: i < j < |ts| ==> ts[j].name != ts[i].name
    ensures Key(ts[i].name) in CacheAfter(cache, ts, now)
    ensures CacheAfter(cache, ts, now)[Key(ts[i].name)] == Process(ts[i], now)
  {
    var n := |ts| - 1;
    if i < n {
      KeyInjective(ts[n].name, ts[i].name);
      forall j | i < j < |ts[..n]| ensures ts[..n][j].name != ts[..n][i].name {
        assert ts[..n][j] == ts[j];
      }
      CacheAfterLastWins(cache, ts[..n], now, i);
      assert ts[..n][i] == ts[i];
    }
  }

  /** An entry no trend of the batch names keeps its value. */
  lemma {:induction false} CacheAfterKeepsOthers(cache: map<string, ProcessedTrend>, ts: seq<TwitterTrend>, now: int, k: string)
    requires k in cache
    requires forall j :: 0 <= j < |ts| ==> k != Key(ts[j].name)
    ensures k in CacheAfter(cache, ts, now) && CacheAfter(cache, ts, now)[k] == cache[k]
  {
    if ts != [] {
      var n := |ts| - 1;
      forall j | 0 <= j < n ensures k != Key(ts[..n][j].name) {
        assert ts[..n][j] == ts[j];
      }
      CacheAfterKeepsOthers(cache, ts[..n], now, k);
    }
  }

  /** The cached values in key order. */
  function Values(cache: map<string, ProcessedTrend>, keys: seq<string>): (r: seq<ProcessedTrend>)
    requires forall k :: k in keys ==> k in cache
    ensures |r| == |keys|
    ensures forall i :: 0 <= i < |keys| ==> r[i] == cache[keys[i]]
  {
    seq(|keys|, i requires 0 <= i < |keys| => cache[keys[i]])
  }

  function ScoreOf(t: ProcessedTrend): real {
    t.score
  }

  /** What `getTrends` returns: the cached values, highest score first,
      equal scores in the map's order. */
  function Listing(cache: map<string, ProcessedTrend>, keys: seq<string>): seq<ProcessedTrend>
    requires forall k :: k in keys ==> k in cache
  {
    Ranking.SortDesc(Values(cache, keys), ScoreOf)
  }

  /** The listing is sorted non-increasing by score and holds each cached
      entry exactly once. */
  lemma ListingCorrect(cache: map<string, ProcessedTrend>, keys: seq<string>)
    requires Indexed(cache, keys)
    ensures var r := Listing(cache, keys);
      && Ranking.SortedDesc(r, ScoreOf)
      && |r| == |cache|
      && (forall t :: t in r <==> exists k :: k in cache && cache[k] == t)
      && multiset(r) == multiset(Values(cache, keys))
  {
    Ranking.SortDescCorrect(Values(cache, keys), ScoreOf);
    assert cache.Keys == set k | k in keys;
    DistinctCardinality(keys);
    forall t ensures t in Listing(cache, keys) <==> exists k :: k in cache && cache[k] == t {
      ListingHas(cache, keys, t);
    }
  }

  /** A value is listed exactly when some cached key holds it. */
  lemma ListingHas(cache: map<string, ProcessedTrend>, keys: seq<string>, t: ProcessedTrend)
    requires Indexed(cache, keys)
    ensures t in Listing(cache, keys) <==> exists k :: k in cache && cache[k] == t
  {
    var vs := Values(cache, keys);
    var r := Listing(cache, keys);
    Ranking.SortDescCorrect(vs, ScoreOf);
    if t in r {
      assert t in multiset(r);
      assert t in multiset(vs);
      var i :| 0 <= i < |vs| && vs[i] == t;
      assert cache[keys[i]] == t;
    }
    if exists k :: k in cache && cache[k] == t {
      var k :| k in cache && cache[k] == t;
      var i :| 0 <= i < |keys| && keys[i] == k;
      assert vs[i] == t;
      assert t in multiset(vs);
      assert t in multiset(r);
    }
  }

  lemma {:induction false} DistinctCardinality<T>(xs: seq<T>)
    requires Distinct(xs)
    ensures |set x | x in xs| == |xs|
  {
    if xs != [] {
      var n := |xs| - 1;
      DistinctCardinality(xs[..n]);
      assert (set x | x in xs) == (set x | x in xs[..n]) + {xs[n]};
      assert xs[n] !in xs[..n];
    }
  }

  /** `shouldUpdateCache`: strictly more than five minutes since the last
      refresh. */
  predicate Stale(lastUpdate: int, now: int) {
    now - lastUpdate > UpdateInterval
  }

  /** Right after a refresh at `t`, no refresh happens until five minutes
      have passed; from the initial epoch time any current clock is stale. */
  lemma StaleWindow(t: int, now: int)
    ensures t <= now <= t + UpdateInterval ==> !Stale(t, now)
    ensures now > t + UpdateInterval ==> Stale(t, now)
    ensures now > UpdateInterval ==> Stale(0, now)
  {
  }

  class TrendService {
    var cache: map<string, ProcessedTrend>
    /** The `Map`'s insertion order. */
    var keys: seq<string>
    var lastUpdate: int

    ghost predicate Valid()
      reads this
    {
      Indexed(cache, keys)
    }

    /** An empty cache whose last refresh is the epoch. */
    constructor()
      ensures Valid() && cache == map[] && keys == [] && lastUpdate == 0
    {
      cache := map[];
      keys := [];
      lastUpdate := 0;
    }

    predicate ShouldUpdateCache(now: int)
      reads this
    {
      Stale(lastUpdate, now)
    }

    /** `updateTrends`: write every fetched trend, then record the time; a
        fetch that throws changes nothing and is passed on. */
    method UpdateTrends(fetch: Fetch, now: int) returns (r: Result<(), Option<string>>)
      modifies this
      requires Valid()
      ensures Valid()
      ensures fetch.FetchThrew? ==> r == Err(fetch.message) && unchanged(this)
      ensures fetch.Fetched? ==> r.Ok? && cache == CacheAfter(old(cache), fetch.trends, now)
                                 && keys == OrderAfter(old(keys), fetch.trends) && lastUpdate == now
    {
      match fetch
      case FetchThrew(m) =>
        r := Err(m);
      case Fetched(ts) =>
        var i := 0;
        while i < |ts|
          invariant 0 <= i <= |ts|
          invariant cache == CacheAfter(old(cache), ts[..i], now)
          invariant keys == OrderAfter(old(keys), ts[..i])
          invariant lastUpdate == old(lastUpdate)
        {
          var p := Process(ts[i], now);
          if p.id !in cache {
            keys := keys + [p.id];
          }
          assert ts[..i + 1][..i] == ts[..i];
          OrderAfterIndexed(old(cache), old(keys), ts[..i], now);
          cache := cache[p.id := p];
          i := i + 1;
        }
        assert ts[..i] == ts;
        OrderAfterIndexed(old(cache), old(keys), ts, now);
        lastUpdate := now;
        r := Ok(());
    }

    /** `getTrends`: refresh when stale, then list the cache; a failed
        refresh becomes a `TREND_SERVICE_ERROR` from `TrendService`. */
    method GetTrends(fetch: Fetch, now: int) returns (r: Result<seq<ProcessedTrend>, ServiceError>)
      modifies this
      requires Valid()
      ensures Valid()
      ensures !old(ShouldUpdateCache(now)) ==> unchanged(this) && r == Ok(Listing(cache, keys))
      ensures old(ShouldUpdateCache(now)) && fetch.FetchThrew? ==>
                unchanged(this) && r == Err(ServiceError(fetch.message.GetOr(DefaultErrorMessage), ErrorCode, ErrorSource))
      ensures old(ShouldUpdateCache(now)) && fetch.Fetched? ==>
                cache == CacheAfter(old(cache), fetch.trends, now) && keys == OrderAfter(old(keys), fetch.trends)
                && lastUpdate == now && r == Ok(Listing(cache, keys))
    {
      if ShouldUpdateCache(now) {
        var u := UpdateTrends(fetch, now);
        if u.Err? {
          r := Err(ServiceError(u.error.GetOr(DefaultErrorMessage), ErrorCode, ErrorSource));
          return;
        }
      }
      r := Ok(Listing(cache, keys));
    }
  }
}
