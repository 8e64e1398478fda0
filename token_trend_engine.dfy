/** The token trend engine (`TokenTrendService` in
    src/backend/services/token_trend_service.py): one batch of tweets from the
    search feed is reduced to the tweets that name a `$SYMBOL`, aggregated per
    symbol, filtered by a mention threshold, scored, checked against a
    verified-symbol cache and ranked by score. The tweet feed and the on-chain
    lookup are inputs; times are integers. */
module TokenTrendEngine {
  import opened Wrappers
  import opened TokenSymbols
  import Ranking

  /** `min_token_mentions`: symbols mentioned in fewer tweets are dropped. */
  const MinTokenMentions: nat := 5
  /** `time_window_minutes`: configured but never read by the engine. */
  const TimeWindowMinutes: nat := 30
  /** `max_token_length`: configured; the pattern itself carries the bound. */
  const MaxTokenLength: nat := 10
  /** The search query and batch size used for the feed. */
  const SearchQuery: string := "$ lang:en -is:retweet"
  const MaxResults: nat := 100

  // ---------------------------------------------------------------------------
  // Data
  // ---------------------------------------------------------------------------

  datatype Metrics = Metrics(retweetCount: nat, likeCount: nat, replyCount: nat)

  /** One tweet as the search returns it. */
  datatype Tweet = Tweet(id: nat, text: string, createdAt: int, metrics: Metrics, authorId: string)

  /** A tweet kept by `_get_token_tweets`, with its extracted symbols. */
  datatype TokenTweet = TokenTweet(id: nat, text: string, createdAt: int, metrics: Metrics,
                                   tokens: set<string>, authorId: string)

  /** The outcome of `search_recent_tweets`: it raised, or it answered with
      `data`, which is absent when nothing matched. */
  datatype FeedResponse = FeedFailed(message: string) | FeedAnswered(data: Option<seq<Tweet>>)

  /** The per-symbol accumulator of `_analyze_token_mentions`. */
  datatype Stats = Stats(mentions: nat, uniqueUsers: set<string>, engagement: nat, firstSeen: int)

  /** One entry of the ranked output. */
  datatype TrendRecord = TrendRecord(symbol: string, mentions: nat, uniqueUsers: nat, engagement: nat,
                                     score: real, tokenVerified: bool, firstSeen: int, timestamp: int)

  /** What the on-chain check answered for a symbol, or the error it raised. */
  datatype ChainLookup = Answer(found: bool) | LookupRaised(message: string)

  /** The dictionary `_verify_token_existence` returns. */
  datatype TokenInfo = TokenInfo(found: bool, symbol: string, error: Option<string>)

  function Min(a: int, b: int): int { if a <= b then a else b }

  function MinReal(a: real, b: real): real { if a <= b then a else b }

  /** `retweet_count + like_count + reply_count`. */
  function EngagementOf(m: Metrics): nat { m.retweetCount + m.likeCount + m.replyCount }

  // ---------------------------------------------------------------------------
  // _get_token_tweets
  // ---------------------------------------------------------------------------

  function ToTokenTweet(t: Tweet): TokenTweet {
    TokenTweet(t.id, t.text, t.createdAt, t.metrics, ExtractTokenSymbols(t.text), t.authorId)
  }

  /** The tweets that name at least one symbol, in feed order. */
  function TokenTweetsOf(tweets: seq<Tweet>): seq<TokenTweet>
  {
    if tweets == [] then []
    else
      var last := tweets[|tweets| - 1];
      TokenTweetsOf(tweets[..|tweets| - 1])
        + (if ExtractTokenSymbols(last.text) != {} then [ToTokenTweet(last)] else [])
  }

  /** Every feed tweet that names a symbol is kept. */
  lemma {:induction false} TokenTweetKept(tweets: seq<Tweet>, k: nat)
    requires k < |tweets| && ExtractTokenSymbols(tweets[k].text) != {}
    ensures ToTokenTweet(tweets[k]) in TokenTweetsOf(tweets)
  {
    var init := tweets[..|tweets| - 1];
    if k < |tweets| - 1 {
      assert tweets[k] == init[k];
      TokenTweetKept(init, k);
    }
  }

  /** Every kept tweet comes from a feed tweet that names a symbol, and
      carries the symbols extracted from its own text. */
  lemma {:induction false} TokenTweetOrigin(tweets: seq<Tweet>, p: TokenTweet)
    requires p in TokenTweetsOf(tweets)
    ensures exists k :: 0 <= k < |tweets| && ExtractTokenSymbols(tweets[k].text) != {}
                        && p == ToTokenTweet(tweets[k])
    ensures p.tokens != {} && p.tokens == ExtractTokenSymbols(p.text)
  {
    var init := tweets[..|tweets| - 1];
    var n := |tweets| - 1;
    if p in TokenTweetsOf(init) {
      TokenTweetOrigin(init, p);
      var k :| 0 <= k < |init| && ExtractTokenSymbols(init[k].text) != {} && p == ToTokenTweet(init[k]);
      assert tweets[k] == init[k];
    } else {
      assert p == ToTokenTweet(tweets[n]);
    }
  }

  /** The kept tweets are exactly the feed's tweets with a symbol, and each
      carries the symbols extracted from its own text. */
  lemma TokenTweetsKeepExactly(tweets: seq<Tweet>, p: TokenTweet)
    ensures p in TokenTweetsOf(tweets)
        <==> exists k :: 0 <= k < |tweets| && ExtractTokenSymbols(tweets[k].text) != {}
                         && p == ToTokenTweet(tweets[k])
    ensures p in TokenTweetsOf(tweets) ==> p.tokens != {} && p.tokens == ExtractTokenSymbols(p.text)
  {
    if p in TokenTweetsOf(tweets) {
      TokenTweetOrigin(tweets, p);
    }
    if exists k :: 0 <= k < |tweets| && ExtractTokenSymbols(tweets[k].text) != {} && p == ToTokenTweet(tweets[k]) {
      var k :| 0 <= k < |tweets| && ExtractTokenSymbols(tweets[k].text) != {} && p == ToTokenTweet(tweets[k]);
      TokenTweetKept(tweets, k);
    }
  }

  /** `_get_token_tweets`: a feed failure, or an answer without data, gives
      no tweets; otherwise the tweets that name a symbol are kept. */
  method GetTokenTweets(feed: FeedResponse) returns (processed: seq<TokenTweet>)
    ensures feed.FeedFailed? || feed.data.None? ==> processed == []
    ensures feed.FeedAnswered? && feed.data.Some? ==> processed == TokenTweetsOf(feed.data.value)
  {
    processed := [];
    if feed.FeedFailed? || feed.data.None? {
      return;
    }
    var tweets := feed.data.value;
    var i := 0;
    while i < |tweets|
      invariant 0 <= i <= |tweets|
      invariant processed == TokenTweetsOf(tweets[..i])
    {
      var tokens := ExtractTokenSymbols(tweets[i].text);
      if tokens != {} {
        processed := processed + [TokenTweet(tweets[i].id, tweets[i].text, tweets[i].createdAt,
                                             tweets[i].metrics, tokens, tweets[i].authorId)];
      }
      assert tweets[..i + 1][..i] == tweets[..i];
      i := i + 1;
    }
    assert tweets[..i] == tweets;
  }

  // ---------------------------------------------------------------------------
  // Aggregation
  // ---------------------------------------------------------------------------

  /** The `defaultdict` entry a symbol starts from. */
  function EmptyStats(now: int): Stats { Stats(0, {}, 0, now) }

  /** The update the inner loop applies for one tweet naming the symbol. */
  function AddTweet(st: Stats, t: TokenTweet): Stats {
    Stats(st.mentions + 1, st.uniqueUsers + {t.authorId}, st.engagement + EngagementOf(t.metrics),
          Min(st.firstSeen, t.createdAt))
  }

  /** The statistics of `sym` after the tweets of `tweets`, in order. */
  function StatsFor(tweets: seq<TokenTweet>, sym: string, now: int): Stats
  {
    if tweets == [] then EmptyStats(now)
    else
      var prev := StatsFor(tweets[..|tweets| - 1], sym, now);
      if sym in tweets[|tweets| - 1].tokens then AddTweet(prev, tweets[|tweets| - 1]) else prev
  }

  /** The indices of the tweets whose symbol set holds `sym`. */
  function MentionIndices(tweets: seq<TokenTweet>, sym: string): set<nat> {
    set k: nat | k < |tweets| && sym in tweets[k].tokens
  }

  /** The authors of those tweets. */
  function MentionAuthors(tweets: seq<TokenTweet>, sym: string): set<string> {
    set k | 0 <= k < |tweets| && sym in tweets[k].tokens :: tweets[k].authorId
  }

  /** Every symbol named by some tweet. */
  function AllTokens(tweets: seq<TokenTweet>): (r: set<string>)
    ensures forall s :: s in r <==> exists k :: 0 <= k < |tweets| && s in tweets[k].tokens
  {
    if tweets == [] then {}
    else
      var init := tweets[..|tweets| - 1];
      assert forall k :: 0 <= k < |init| ==> init[k] == tweets[k];
      AllTokens(init) + tweets[|tweets| - 1].tokens
  }

  /** The index of the first tweet naming `sym`, or `|tweets|` if none does. */
  function FirstIndex(tweets: seq<TokenTweet>, sym: string): (r: nat)
    ensures r <= |tweets|
    ensures r < |tweets| ==> sym in tweets[r].tokens
    ensures forall k :: 0 <= k < r ==> sym !in tweets[k].tokens
  {
    if tweets == [] then 0
    else if sym in tweets[0].tokens then 0
    else 1 + FirstIndex(tweets[1..], sym)
  }

  lemma MentionIndicesStep(tweets: seq<TokenTweet>, sym: string)
    requires tweets != []
    ensures MentionIndices(tweets, sym)
         == MentionIndices(tweets[..|tweets| - 1], sym)
            + (if sym in tweets[|tweets| - 1].tokens then {|tweets| - 1} else {})
  {
  }

  lemma MentionAuthorsStep(tweets: seq<TokenTweet>, sym: string)
    requires tweets != []
    ensures MentionAuthors(tweets, sym)
         == MentionAuthors(tweets[..|tweets| - 1], sym)
            + (if sym in tweets[|tweets| - 1].tokens then {tweets[|tweets| - 1].authorId} else {})
  {
    var init := tweets[..|tweets| - 1];
    var n := |tweets| - 1;
    forall a | a in MentionAuthors(tweets, sym)
      ensures a in MentionAuthors(init, sym) || (sym in tweets[n].tokens && a == tweets[n].authorId)
    {
      var k :| 0 <= k < |tweets| && sym in tweets[k].tokens && a == tweets[k].authorId;
      if k < n { assert init[k] == tweets[k]; }
    }
    forall a | a in MentionAuthors(init, sym) ensures a in MentionAuthors(tweets, sym) {
      var k :| 0 <= k < |init| && sym in init[k].tokens && a == init[k].authorId;
      assert init[k] == tweets[k];
    }
  }

  /** `mentions` counts the tweets naming the symbol and `uniqueUsers` is the
      set of their authors. */
  lemma {:induction false} StatsForCounts(tweets: seq<TokenTweet>, sym: string, now: int)
    ensures StatsFor(tweets, sym, now).mentions == |MentionIndices(tweets, sym)|
    ensures StatsFor(tweets, sym, now).uniqueUsers == MentionAuthors(tweets, sym)
    ensures |StatsFor(tweets, sym, now).uniqueUsers| <= StatsFor(tweets, sym, now).mentions
  {
    if tweets == [] {
      assert MentionIndices(tweets, sym) == {};
      assert MentionAuthors(tweets, sym) == {};
    } else {
      var init := tweets[..|tweets| - 1];
      var n := |tweets| - 1;
      StatsForCounts(init, sym, now);
      MentionIndicesStep(tweets, sym);
      MentionAuthorsStep(tweets, sym);
      if sym in tweets[n].tokens {
        assert n !in MentionIndices(init, sym);
      }
    }
  }

  /** `firstSeen` is the earliest of the analysis time and the times of the
      tweets naming the symbol. */
  lemma {:induction false} StatsForFirstSeen(tweets: seq<TokenTweet>, sym: string, now: int)
    ensures StatsFor(tweets, sym, now).firstSeen <= now
    ensures forall k :: 0 <= k < |tweets| && sym in tweets[k].tokens
                        ==> StatsFor(tweets, sym, now).firstSeen <= tweets[k].createdAt
    ensures StatsFor(tweets, sym, now).firstSeen == now
            || exists k :: 0 <= k < |tweets| && sym in tweets[k].tokens
                           && StatsFor(tweets, sym, now).firstSeen == tweets[k].createdAt
  {
    if tweets != [] {
      var init := tweets[..|tweets| - 1];
      var n := |tweets| - 1;
      StatsForFirstSeen(init, sym, now);
      assert forall k :: 0 <= k < n ==> init[k] == tweets[k];
      var prev := StatsFor(init, sym, now);
      if prev.firstSeen != now {
        var k :| 0 <= k < |init| && sym in init[k].tokens && prev.firstSeen == init[k].createdAt;
        assert tweets[k] == init[k];
      }
    }
  }

  /** What the aggregated statistics of a symbol mean: `mentions` counts the
      tweets naming it, `uniqueUsers` is the set of their authors (so it is
      never larger than `mentions`), and `firstSeen` is the earliest of the
      analysis time and those tweets' times. */
  lemma StatsForMeaning(tweets: seq<TokenTweet>, sym: string, now: int)
    ensures StatsFor(tweets, sym, now).mentions == |MentionIndices(tweets, sym)|
    ensures StatsFor(tweets, sym, now).uniqueUsers == MentionAuthors(tweets, sym)
    ensures |StatsFor(tweets, sym, now).uniqueUsers| <= StatsFor(tweets, sym, now).mentions
    ensures StatsFor(tweets, sym, now).firstSeen <= now
    ensures forall k :: 0 <= k < |tweets| && sym in tweets[k].tokens
                        ==> StatsFor(tweets, sym, now).firstSeen <= tweets[k].createdAt
    ensures StatsFor(tweets, sym, now).firstSeen == now
            || exists k :: 0 <= k < |tweets| && sym in tweets[k].tokens
                           && StatsFor(tweets, sym, now).firstSeen == tweets[k].createdAt
  {
    StatsForCounts(tweets, sym, now);
    StatsForFirstSeen(tweets, sym, now);
  }

  /** The engagement of the tweets naming `sym`, summed from the first
      tweet on. */
  function MentionEngagement(tweets: seq<TokenTweet>, sym: string): nat {
    if tweets == [] then 0
    else (if sym in tweets[0].tokens then EngagementOf(tweets[0].metrics) else 0)
         + MentionEngagement(tweets[1..], sym)
  }

  lemma {:induction false} MentionEngagementAppend(tweets: seq<TokenTweet>, t: TokenTweet, sym: string)
    ensures MentionEngagement(tweets + [t], sym)
         == MentionEngagement(tweets, sym) + (if sym in t.tokens then EngagementOf(t.metrics) else 0)
  {
    if tweets != [] {
      assert (tweets + [t])[1..] == tweets[1..] + [t];
      MentionEngagementAppend(tweets[1..], t, sym);
    }
  }

  /** A symbol's `engagement` is the sum of retweets, likes and replies over
      the tweets naming it. */
  lemma {:induction false} StatsForEngagement(tweets: seq<TokenTweet>, sym: string, now: int)
    ensures StatsFor(tweets, sym, now).engagement == MentionEngagement(tweets, sym)
  {
    if tweets != [] {
      var n := |tweets| - 1;
      StatsForEngagement(tweets[..n], sym, now);
      MentionEngagementAppend(tweets[..n], tweets[n], sym);
      assert tweets[..n] + [tweets[n]] == tweets;
    }
  }

  /** A symbol has a positive mention count exactly when some tweet names it. */
  lemma MentionedIffToken(tweets: seq<TokenTweet>, sym: string, now: int)
    ensures StatsFor(tweets, sym, now).mentions > 0 <==> sym in AllTokens(tweets)
  {
    StatsForMeaning(tweets, sym, now);
    if sym in AllTokens(tweets) {
      var k :| 0 <= k < |tweets| && sym in tweets[k].tokens;
      assert k in MentionIndices(tweets, sym);
    } else {
      assert MentionIndices(tweets, sym) == {};
    }
  }

  /** The symbols in `order` are pairwise different. */
  predicate Distinct(order: seq<string>) {
    forall a, b :: 0 <= a < b < |order| ==> order[a] != order[b]
  }

  /** The symbols of `order` were first named in non-decreasing tweet order. */
  ghost predicate ByFirstIndex(tweets: seq<TokenTweet>, order: seq<string>) {
    forall a, b :: 0 <= a < b < |order| ==> FirstIndex(tweets, order[a]) <= FirstIndex(tweets, order[b])
  }

  /** `order` lists each symbol of the batch once, in the order in which the
      symbols first appeared (ties inside one tweet in any order). */
  ghost predicate FirstSeenOrder(tweets: seq<TokenTweet>, order: seq<string>) {
    && Distinct(order)
    && (forall s :: s in order <==> s in AllTokens(tweets))
    && ByFirstIndex(tweets, order)
  }

  lemma StatsForStep(tweets: seq<TokenTweet>, i: nat, sym: string, now: int)
    requires i < |tweets|
    ensures StatsFor(tweets[..i + 1], sym, now)
         == if sym in tweets[i].tokens then AddTweet(StatsFor(tweets[..i], sym, now), tweets[i])
            else StatsFor(tweets[..i], sym, now)
  {
    assert tweets[..i + 1][..i] == tweets[..i];
  }

  lemma AllTokensStep(tweets: seq<TokenTweet>, i: nat)
    requires i < |tweets|
    ensures AllTokens(tweets[..i + 1]) == AllTokens(tweets[..i]) + tweets[i].tokens
  {
    assert tweets[..i + 1][..i] == tweets[..i];
  }

  /** A symbol already named before tweet `i` was first named before `i`; one
      named first by tweet `i` has first index `i`. */
  lemma FirstIndexPrefix(tweets: seq<TokenTweet>, i: nat, sym: string)
    requires i < |tweets|
    ensures sym in AllTokens(tweets[..i]) ==> FirstIndex(tweets, sym) < i
    ensures sym !in AllTokens(tweets[..i]) && sym in tweets[i].tokens ==> FirstIndex(tweets, sym) == i
  {
    if sym in AllTokens(tweets[..i]) {
      var k :| 0 <= k < i && sym in tweets[..i][k].tokens;
      assert tweets[..i][k] == tweets[k];
    }
    if sym !in AllTokens(tweets[..i]) {
      forall k | 0 <= k < i ensures sym !in tweets[k].tokens {
        assert tweets[..i][k] == tweets[k];
      }
    }
  }

  /** `order` lists the keys of `stats` once each, all first named before
      tweet `bound`, in the order in which they were first named. */
  ghost predicate OrderedKeys(tweets: seq<TokenTweet>, order: seq<string>, stats: map<string, Stats>, bound: nat) {
    && Distinct(order)
    && (forall s :: s in order <==> s in stats)
    && (forall s :: s in order ==> FirstIndex(tweets, s) < bound)
    && ByFirstIndex(tweets, order)
  }

  lemma OrderedKeysWiden(tweets: seq<TokenTweet>, order: seq<string>, stats: map<string, Stats>, bound: nat)
    requires OrderedKeys(tweets, order, stats, bound)
    ensures OrderedKeys(tweets, order, stats, bound + 1)
  {
  }

  lemma OrderedKeysUpdate(tweets: seq<TokenTweet>, order: seq<string>, stats: map<string, Stats>, bound: nat,
                          token: string, v: Stats)
    requires OrderedKeys(tweets, order, stats, bound) && token in stats
    ensures OrderedKeys(tweets, order, stats[token := v], bound)
  {
  }

  lemma OrderedKeysAppend(tweets: seq<TokenTweet>, order: seq<string>, stats: map<string, Stats>, i: nat,
                          token: string, v: Stats)
    requires OrderedKeys(tweets, order, stats, i + 1) && token !in stats
    requires FirstIndex(tweets, token) == i
    ensures OrderedKeys(tweets, order + [token], stats[token := v], i + 1)
  {
    var o := order + [token];
    forall a, b | 0 <= a < b < |o| ensures o[a] != o[b] {
      AppendedPair(tweets, order, stats, i, token, a, b);
    }
    forall a, b | 0 <= a < b < |o| ensures FirstIndex(tweets, o[a]) <= FirstIndex(tweets, o[b]) {
      AppendedPair(tweets, order, stats, i, token, a, b);
    }
    forall s | s in o ensures FirstIndex(tweets, s) < i + 1 {
      if s != token {
        assert s in order;
      }
    }
  }

  /** Two positions of `order + [token]` hold different symbols in first-index order. */
  lemma AppendedPair(tweets: seq<TokenTweet>, order: seq<string>, stats: map<string, Stats>, i: nat,
                     token: string, a: nat, b: nat)
    requires OrderedKeys(tweets, order, stats, i + 1) && token !in stats
    requires FirstIndex(tweets, token) == i
    requires a < b < |order| + 1
    ensures (order + [token])[a] != (order + [token])[b]
    ensures FirstIndex(tweets, (order + [token])[a]) <= FirstIndex(tweets, (order + [token])[b])
  {
    var o := order + [token];
    if b < |order| {
      assert o[a] == order[a] && o[b] == order[b];
    } else {
      assert o[a] == order[a] && o[a] in order && o[b] == token;
    }
  }

  /** Part-way through tweet `i`: the symbols of `done` have been counted
      with tweet `i`, every other key holds its statistics before tweet `i`. */
  ghost predicate PartlyBumped(tweets: seq<TokenTweet>, i: nat, now: int, stats: map<string, Stats>,
                               done: set<string>)
    requires i < |tweets|
  {
    && stats.Keys == AllTokens(tweets[..i]) + done
    && (forall s :: s in stats && s !in done ==> stats[s] == StatsFor(tweets[..i], s, now))
    && (forall s :: s in done ==> stats[s] == StatsFor(tweets[..i + 1], s, now))
  }

  /** One symbol of tweet `i` bumps its entry, created on first use: the
      entry then holds the statistics up to and including tweet `i`. */
  lemma BumpStats(tweets: seq<TokenTweet>, i: nat, now: int, stats: map<string, Stats>, done: set<string>,
                  token: string)
    requires i < |tweets| && token in tweets[i].tokens && token !in done
    requires PartlyBumped(tweets, i, now, stats, done)
    ensures token !in stats ==> FirstIndex(tweets, token) == i
    ensures PartlyBumped(tweets, i, now,
                         stats[token := AddTweet(if token in stats then stats[token] else EmptyStats(now), tweets[i])],
                         done + {token})
  {
    FirstIndexPrefix(tweets, i, token);
    var v := AddTweet(if token in stats then stats[token] else EmptyStats(now), tweets[i]);
    var next := stats[token := v];
    assert v == StatsFor(tweets[..i + 1], token, now) by {
      StatsForStep(tweets, i, token, now);
      if token !in stats {
        StatsForAbsent(tweets[..i], token, now);
      }
    }
    assert next.Keys == AllTokens(tweets[..i]) + (done + {token});
    forall s | s in next && s !in done + {token} ensures next[s] == StatsFor(tweets[..i], s, now) {
      assert next[s] == stats[s];
    }
    forall s | s in done + {token} ensures next[s] == StatsFor(tweets[..i + 1], s, now) {
      if s != token {
        assert next[s] == stats[s];
      }
    }
  }

  /** Once every symbol of tweet `i` is counted, the map holds the
      statistics of the first `i + 1` tweets. */
  lemma BumpedAll(tweets: seq<TokenTweet>, i: nat, now: int, stats: map<string, Stats>)
    requires i < |tweets| && PartlyBumped(tweets, i, now, stats, tweets[i].tokens)
    ensures stats.Keys == AllTokens(tweets[..i + 1])
    ensures forall s :: s in stats ==> stats[s] == StatsFor(tweets[..i + 1], s, now)
  {
    AllTokensStep(tweets, i);
    forall s | s in stats ensures stats[s] == StatsFor(tweets[..i + 1], s, now) {
      StatsForStep(tweets, i, s, now);
    }
  }

  /** The inner loop of `_analyze_token_mentions`: the symbols of tweet `i`,
      in any order, each bump their entry, created on first use. */
  method AggregateTweet(tweets: seq<TokenTweet>, i: nat, now: int, stats0: map<string, Stats>, order0: seq<string>)
    returns (stats: map<string, Stats>, order: seq<string>)
    requires i < |tweets|
    requires stats0.Keys == AllTokens(tweets[..i])
    requires forall s :: s in stats0 ==> stats0[s] == StatsFor(tweets[..i], s, now)
    requires OrderedKeys(tweets, order0, stats0, i)
    ensures stats.Keys == AllTokens(tweets[..i + 1])
    ensures forall s :: s in stats ==> stats[s] == StatsFor(tweets[..i + 1], s, now)
    ensures OrderedKeys(tweets, order, stats, i + 1)
  {
    stats, order := stats0, order0;
    var tweet := tweets[i];
    var pending := tweet.tokens;
    ghost var done: set<string> := {};
    OrderedKeysWiden(tweets, order, stats, i);
    while pending != {}
      invariant pending + done == tweet.tokens && pending !! done
      invariant PartlyBumped(tweets, i, now, stats, done)
      invariant OrderedKeys(tweets, order, stats, i + 1)
      decreases pending
    {
      var token :| token in pending;
      var v := AddTweet(if token in stats then stats[token] else EmptyStats(now), tweet);
      BumpStats(tweets, i, now, stats, done, token);
      if token !in stats {
        OrderedKeysAppend(tweets, order, stats, i, token, v);
        order := order + [token];
      } else {
        OrderedKeysUpdate(tweets, order, stats, i + 1, token, v);
      }
      stats := stats[token := v];
      pending := pending - {token};
      done := done + {token};
    }
    BumpedAll(tweets, i, now, stats);
  }

  /** The nested loops of `_analyze_token_mentions`: one pass over the tweets
      and, per tweet, over its symbols, filling the per-symbol statistics.
      `order` is the insertion order of the dictionary's keys. */
  method AggregateMentions(tweets: seq<TokenTweet>, now: int)
    returns (stats: map<string, Stats>, order: seq<string>)
    ensures stats.Keys == AllTokens(tweets)
    ensures forall s :: s in stats ==> stats[s] == StatsFor(tweets, s, now)
    ensures FirstSeenOrder(tweets, order)
  {
    stats := map[];
    order := [];
    var i := 0;
    while i < |tweets|
      invariant 0 <= i <= |tweets|
      invariant stats.Keys == AllTokens(tweets[..i])
      invariant forall s :: s in stats ==> stats[s] == StatsFor(tweets[..i], s, now)
      invariant OrderedKeys(tweets, order, stats, i)
    {
      stats, order := AggregateTweet(tweets, i, now, stats, order);
      i := i + 1;
    }
    assert tweets[..i] == tweets;
  }

  /** A symbol no tweet names keeps the `defaultdict` default. */
  lemma {:induction false} StatsForAbsent(tweets: seq<TokenTweet>, sym: string, now: int)
    requires sym !in AllTokens(tweets)
    ensures StatsFor(tweets, sym, now) == EmptyStats(now)
  {
    if tweets != [] {
      StatsForAbsent(tweets[..|tweets| - 1], sym, now);
    }
  }

  // ---------------------------------------------------------------------------
  // _calculate_token_trend_score
  // ---------------------------------------------------------------------------

  /** The weighted score of a symbol with `m` mentions by `u` distinct users
      and engagement `e` (before the rounding to four decimals):
      0.4 min(m/5, 2) + 0.3 u/max(m,1) + 0.3 min(e/max(m,1)/10, 1), times a
      time factor fixed at 1. */
  function TrendScore(m: nat, u: nat, e: nat): real {
    var perMention := (if m > 1 then m else 1) as real;
    var mentionScore := MinReal(m as real / MinTokenMentions as real, 2.0);
    var uniqueUsersScore := u as real / perMention;
    var engagementScore := MinReal(e as real / perMention / 10.0, 1.0);
    var timeFactor := 1.0;
    (mentionScore * 0.4 + uniqueUsersScore * 0.3 + engagementScore * 0.3) * timeFactor
  }

  /** `round(x, 4)` on the exact value: the nearest multiple of 1/10000, a
      tie going to the even multiple. */
  function Round4(x: real): (r: real)
    ensures -0.00005 <= r - x <= 0.00005
    ensures (r * 10000.0).Floor as real == r * 10000.0
  {
    var y := x * 10000.0;
    var f := y.Floor;
    var d := y - f as real;
    var n := if d < 0.5 then f else if d > 0.5 then f + 1 else if f % 2 == 0 then f else f + 1;
    n as real / 10000.0
  }

  /** Rounding never reverses the order of two values. */
  lemma Round4Monotone(x: real, y: real)
    requires x <= y
    ensures Round4(x) <= Round4(y)
  {
    var fx, fy := (x * 10000.0).Floor, (y * 10000.0).Floor;
    assert fx <= fy;
  }

  /** A multiple of 1/10000 is left as it is. */
  lemma Round4Exact(n: int)
    ensures Round4(n as real / 10000.0) == n as real / 10000.0
  {
    var y := n as real / 10000.0 * 10000.0;
    assert y == n as real;
    assert y.Floor == n;
  }

  /** Rounding can merge scores: 8 mentions by one user with 39
      interactions score 0.82375 and 29 mentions by one user with 13
      interactions score about 0.823793, yet both round to 0.8238, so the
      stable sort keeps them in first-seen order. */
  lemma Round4MergesNearScores()
    ensures TrendScore(8, 1, 39) < TrendScore(29, 1, 13)
    ensures Round4(TrendScore(8, 1, 39)) == 0.8238 == Round4(TrendScore(29, 1, 13))
  {
    assert TrendScore(8, 1, 39) == 0.82375;
    assert (0.82375 * 10000.0).Floor == 8237;
    assert TrendScore(29, 1, 13) == 0.8 + 6.9 / 290.0;
    assert ((0.8 + 6.9 / 290.0) * 10000.0).Floor == 8237;
  }

  /** `_calculate_token_trend_score(stats)`: the weighted score rounded to
      four decimals. Its error branch (score 0.0) is unreachable: every
      divisor is at least 1. */
  function CalculateTokenTrendScore(st: Stats): (r: real)
    ensures -0.00005 <= r - TrendScore(st.mentions, |st.uniqueUsers|, st.engagement) <= 0.00005
    ensures (r * 10000.0).Floor as real == r * 10000.0
  {
    Round4(TrendScore(st.mentions, |st.uniqueUsers|, st.engagement))
  }

  /** With no more distinct users than mentions the rounded score lies in
      [0, 1.4] too. */
  lemma RoundedScoreBounds(st: Stats)
    requires |st.uniqueUsers| <= st.mentions
    ensures 0.0 <= CalculateTokenTrendScore(st) <= 1.4
  {
    var t := TrendScore(st.mentions, |st.uniqueUsers|, st.engagement);
    ScoreBounds(st.mentions, |st.uniqueUsers|, st.engagement);
    Round4Exact(0);
    Round4Exact(14000);
    Round4Monotone(0.0, t);
    Round4Monotone(t, 1.4);
  }

  lemma RatioAtMostOne(u: nat, d: nat)
    requires 0 < d && u <= d
    ensures 0.0 <= u as real / d as real <= 1.0
  {
    var q := u as real / d as real;
    assert q * d as real == u as real;
  }

  /** With no more distinct users than mentions the score lies in [0, 1.4]. */
  lemma ScoreBounds(m: nat, u: nat, e: nat)
    requires u <= m
    ensures 0.0 <= TrendScore(m, u, e) <= 1.4
  {
    var d := if m > 1 then m else 1;
    RatioAtMostOne(u, d);
    assert e as real / d as real >= 0.0;
  }

  /** The upper bound is reached: ten mentions by ten users with ten
      interactions each score 1.4. */
  lemma ScoreReachesMaximum()
    ensures TrendScore(10, 10, 100) == 1.4
  {
  }

  /** Five mentions by five users with fifty interactions score exactly 1.0. */
  lemma ScoreExample()
    ensures TrendScore(5, 5, 50) == 1.0
  {
  }

  // ---------------------------------------------------------------------------
  // Records and ranking
  // ---------------------------------------------------------------------------

  /** The placeholder `_check_token_on_chain`: every symbol is unknown. */
  function CheckTokenOnChain(symbol: string): ChainLookup {
    Answer(false)
  }

  /** The `exists` flag `_verify_token_existence` reports for a symbol not
      yet seen in this pass: cached symbols exist, otherwise the lookup's
      answer, and a lookup error reads as "does not exist". */
  predicate IsVerified(known: set<string>, lookup: string -> ChainLookup, sym: string) {
    sym in known || lookup(sym) == Answer(true)
  }

  function ScoreOf(r: TrendRecord): real { r.score }

  /** The record `_analyze_token_mentions` emits for `sym`. */
  function RecordFor(tweets: seq<TokenTweet>, sym: string, now: int, verified: bool): TrendRecord {
    var st := StatsFor(tweets, sym, now);
    TrendRecord(sym, st.mentions, |st.uniqueUsers|, st.engagement, CalculateTokenTrendScore(st),
                verified, st.firstSeen, now)
  }

  /** The symbols of `syms` that reach the mention threshold, in order. */
  function Kept(syms: seq<string>, tweets: seq<TokenTweet>, now: int): seq<string>
  {
    if syms == [] then []
    else
      var sym := syms[|syms| - 1];
      Kept(syms[..|syms| - 1], tweets, now)
        + (if StatsFor(tweets, sym, now).mentions >= MinTokenMentions then [sym] else [])
  }

  /** The same symbols as a set. */
  function QualifyingSet(syms: seq<string>, tweets: seq<TokenTweet>, now: int): set<string> {
    set s | s in syms && StatsFor(tweets, s, now).mentions >= MinTokenMentions
  }

  /** The records of `kept`, in order, before sorting. */
  function Records(kept: seq<string>, tweets: seq<TokenTweet>, now: int,
                   known: set<string>, lookup: string -> ChainLookup): (r: seq<TrendRecord>)
    ensures |r| == |kept|
    ensures forall k :: 0 <= k < |kept| ==> r[k].symbol == kept[k]
  {
    seq(|kept|, k requires 0 <= k < |kept| => RecordFor(tweets, kept[k], now, IsVerified(known, lookup, kept[k])))
  }

  /** The ranked output for a batch whose symbols first appeared in `order`. */
  function Ranked(tweets: seq<TokenTweet>, order: seq<string>, now: int,
                  known: set<string>, lookup: string -> ChainLookup): seq<TrendRecord>
  {
    Ranking.SortDesc(Records(Kept(order, tweets, now), tweets, now, known, lookup), ScoreOf)
  }

  /** The cache after a pass: the symbols that reached the threshold and that
      the lookup found are added; nothing else. */
  function CacheAfter(known: set<string>, lookup: string -> ChainLookup, qualifying: set<string>): set<string> {
    known + set s | s in qualifying && lookup(s) == Answer(true)
  }

  /** Taking one more symbol into the pass adds it to the qualifying set
      when it reaches the threshold. */
  lemma QualifyingAppend(syms: seq<string>, sym: string, tweets: seq<TokenTweet>, now: int)
    ensures QualifyingSet(syms + [sym], tweets, now)
         == QualifyingSet(syms, tweets, now)
            + (if StatsFor(tweets, sym, now).mentions >= MinTokenMentions then {sym} else {})
  {
  }

  /** Adding one symbol to the qualifying set adds it to the cache exactly
      when the lookup confirms it. */
  lemma CacheStep(known: set<string>, lookup: string -> ChainLookup, q: set<string>, extra: set<string>, sym: string)
    requires extra <= {sym}
    ensures CacheAfter(known, lookup, q + extra)
         == CacheAfter(known, lookup, q) + (if sym in extra && lookup(sym) == Answer(true) then {sym} else {})
  {
  }

  lemma {:induction false} KeptMembers(syms: seq<string>, tweets: seq<TokenTweet>, now: int, s: string)
    ensures s in Kept(syms, tweets, now) <==> s in syms && StatsFor(tweets, s, now).mentions >= MinTokenMentions
  {
    if syms != [] {
      var init := syms[..|syms| - 1];
      KeptMembers(init, tweets, now, s);
      assert syms == init + [syms[|syms| - 1]];
    }
  }

  /** Filtering keeps the symbols distinct and in first-appearance order. */
  lemma {:induction false} KeptOrdered(syms: seq<string>, tweets: seq<TokenTweet>, now: int)
    requires Distinct(syms) && ByFirstIndex(tweets, syms)
    ensures Distinct(Kept(syms, tweets, now)) && ByFirstIndex(tweets, Kept(syms, tweets, now))
  {
    if syms != [] {
      var init := syms[..|syms| - 1];
      var last := syms[|syms| - 1];
      KeptOrdered(init, tweets, now);
      var q := Kept(syms, tweets, now);
      var qi := Kept(init, tweets, now);
      forall a, b | 0 <= a < b < |q|
        ensures q[a] != q[b] && FirstIndex(tweets, q[a]) <= FirstIndex(tweets, q[b])
      {
        if b < |qi| {
          assert q[a] == qi[a] && q[b] == qi[b];
        } else {
          assert q[a] == qi[a] && q[b] == last;
          KeptMembers(init, tweets, now, qi[a]);
          var j :| 0 <= j < |init| && init[j] == qi[a];
          assert syms[j] == init[j] && last == syms[|syms| - 1];
          assert syms[j] != syms[|syms| - 1];
          assert FirstIndex(tweets, syms[j]) <= FirstIndex(tweets, syms[|syms| - 1]);
        }
      }
    }
  }

  lemma KeptAppend(syms: seq<string>, sym: string, tweets: seq<TokenTweet>, now: int)
    ensures Kept(syms + [sym], tweets, now)
         == Kept(syms, tweets, now) + (if StatsFor(tweets, sym, now).mentions >= MinTokenMentions then [sym] else [])
  {
    assert (syms + [sym])[..|syms|] == syms;
  }

  lemma RecordsAppend(kept: seq<string>, sym: string, tweets: seq<TokenTweet>, now: int,
                      known: set<string>, lookup: string -> ChainLookup)
    ensures Records(kept + [sym], tweets, now, known, lookup)
         == Records(kept, tweets, now, known, lookup) + [RecordFor(tweets, sym, now, IsVerified(known, lookup, sym))]
  {
  }

  /** A list of records with distinct symbols holds each record at most once. */
  lemma {:induction false} CountAtMostOne(q: seq<TrendRecord>, x: TrendRecord)
    requires forall i, j :: 0 <= i < j < |q| ==> q[i].symbol != q[j].symbol
    ensures multiset(q)[x] <= 1
  {
    if q != [] {
      var init := q[..|q| - 1];
      CountAtMostOne(init, x);
      assert q == init + [q[|q| - 1]];
      if q[|q| - 1] == x {
        forall k | 0 <= k < |init| ensures init[k] != x {
          assert init[k].symbol == q[k].symbol;
        }
        assert x !in init;
      }
    }
  }

  /** Two positions holding the same element make it count twice. */
  lemma CountTwoPositions<T>(xs: seq<T>, a: nat, b: nat)
    requires a < b < |xs|
    ensures multiset(xs)[xs[a]] >= if xs[a] == xs[b] then 2 else 1
  {
    assert xs == xs[..a] + [xs[a]] + xs[a + 1..b] + [xs[b]] + xs[b + 1..];
  }

  /** Two records of a list with distinct symbols that share a symbol are one. */
  lemma SameSymbolSameRecord(q: seq<TrendRecord>, r1: TrendRecord, r2: TrendRecord)
    requires forall i, j :: 0 <= i < j < |q| ==> q[i].symbol != q[j].symbol
    requires r1 in q && r2 in q
    ensures r1.symbol == r2.symbol ==> r1 == r2
  {
    var i :| 0 <= i < |q| && q[i] == r1;
    var j :| 0 <= j < |q| && q[j] == r2;
    assert i < j ==> q[i].symbol != q[j].symbol;
    assert j < i ==> q[j].symbol != q[i].symbol;
  }

  /** Each ranked record is the record of a batch symbol with at least
      `MinTokenMentions` mentions, with its own statistics, score and flag. */
  lemma RankedRecords(tweets: seq<TokenTweet>, order: seq<string>, now: int,
                      known: set<string>, lookup: string -> ChainLookup, r: TrendRecord)
    requires FirstSeenOrder(tweets, order)
    requires r in Ranked(tweets, order, now, known, lookup)
    ensures r.symbol in AllTokens(tweets) && r.mentions >= MinTokenMentions
    ensures r == RecordFor(tweets, r.symbol, now, IsVerified(known, lookup, r.symbol))
  {
    var kept := Kept(order, tweets, now);
    var q := Records(kept, tweets, now, known, lookup);
    Ranking.SortDescCorrect(q, ScoreOf);
    assert r in multiset(q);
    var k :| 0 <= k < |q| && q[k] == r;
    KeptMembers(order, tweets, now, kept[k]);
  }

  /** Every batch symbol with at least `MinTokenMentions` mentions is ranked. */
  lemma RankedComplete(tweets: seq<TokenTweet>, order: seq<string>, now: int,
                       known: set<string>, lookup: string -> ChainLookup, s: string)
    requires FirstSeenOrder(tweets, order)
    requires s in AllTokens(tweets) && StatsFor(tweets, s, now).mentions >= MinTokenMentions
    ensures exists k :: 0 <= k < |Ranked(tweets, order, now, known, lookup)|
                        && Ranked(tweets, order, now, known, lookup)[k].symbol == s
  {
    var kept := Kept(order, tweets, now);
    var q := Records(kept, tweets, now, known, lookup);
    var out := Ranked(tweets, order, now, known, lookup);
    KeptMembers(order, tweets, now, s);
    var j :| 0 <= j < |kept| && kept[j] == s;
    Ranking.SortDescCorrect(q, ScoreOf);
    assert q[j] in multiset(out);
    var k :| 0 <= k < |out| && out[k] == q[j];
  }

  /** No symbol is ranked twice. */
  lemma RankedDistinct(tweets: seq<TokenTweet>, order: seq<string>, now: int,
                       known: set<string>, lookup: string -> ChainLookup)
    requires FirstSeenOrder(tweets, order)
    ensures var out := Ranked(tweets, order, now, known, lookup);
      forall a, b :: 0 <= a < b < |out| ==> out[a].symbol != out[b].symbol
  {
    var kept := Kept(order, tweets, now);
    var q := Records(kept, tweets, now, known, lookup);
    var out := Ranked(tweets, order, now, known, lookup);
    KeptOrdered(order, tweets, now);
    Ranking.SortDescCorrect(q, ScoreOf);
    forall a, b | 0 <= a < b < |out| ensures out[a].symbol != out[b].symbol {
      assert out[a] in multiset(q) && out[b] in multiset(q);
      SameSymbolSameRecord(q, out[a], out[b]);
      CountTwoPositions(out, a, b);
      CountAtMostOne(q, out[a]);
    }
  }

  /** The ranking is by non-increasing score, and records with equal scores
      keep the order in which their symbols first appeared. */
  lemma RankedOrder(tweets: seq<TokenTweet>, order: seq<string>, now: int,
                    known: set<string>, lookup: string -> ChainLookup)
    requires FirstSeenOrder(tweets, order)
    ensures Ranking.SortedDesc(Ranked(tweets, order, now, known, lookup), ScoreOf)
    ensures var out := Ranked(tweets, order, now, known, lookup);
      forall a, b :: 0 <= a < b < |out| && out[a].score == out[b].score
                     ==> FirstIndex(tweets, out[a].symbol) <= FirstIndex(tweets, out[b].symbol)
  {
    var kept := Kept(order, tweets, now);
    var q := Records(kept, tweets, now, known, lookup);
    KeptOrdered(order, tweets, now);
    Ranking.SortDescCorrect(q, ScoreOf);
    var rank := (r: TrendRecord) => FirstIndex(tweets, r.symbol);
    forall a, b | 0 <= a < b < |q| ensures rank(q[a]) <= rank(q[b]) {
      assert q[a].symbol == kept[a] && q[b].symbol == kept[b];
      assert FirstIndex(tweets, kept[a]) <= FirstIndex(tweets, kept[b]);
    }
    Ranking.SortDescKeepsRankOnTies(q, ScoreOf, rank);
  }

  /** Every emitted record has no more distinct users than mentions, a score
      in [0, 1.4] and a first-seen time no later than its timestamp. */
  lemma RecordBounds(tweets: seq<TokenTweet>, sym: string, now: int, verified: bool)
    ensures var r := RecordFor(tweets, sym, now, verified);
      r.uniqueUsers <= r.mentions && 0.0 <= r.score <= 1.4 && r.firstSeen <= r.timestamp
  {
    StatsForMeaning(tweets, sym, now);
    var st := StatsFor(tweets, sym, now);
    RoundedScoreBounds(st);
  }

  /** With the placeholder lookup nothing new is ever verified: a symbol is
      reported as existing only if it was already cached, and the cache is
      left as it was. From the empty cache every record is unverified. */
  lemma PlaceholderVerifiesNothing(known: set<string>, qualifying: set<string>, sym: string)
    ensures IsVerified(known, CheckTokenOnChain, sym) <==> sym in known
    ensures CacheAfter(known, CheckTokenOnChain, qualifying) == known
  {
  }

  /** In an empty batch no symbol reaches the threshold. */
  lemma {:induction false} EmptyBatchKeepsNothing(order: seq<string>, now: int)
    ensures Kept(order, [], now) == []
    ensures QualifyingSet(order, [], now) == {}
  {
    if order != [] {
      EmptyBatchKeepsNothing(order[..|order| - 1], now);
    }
  }

  /** A batch that names no symbol ranks nothing and caches nothing. */
  lemma NothingToRank(tweets: seq<TokenTweet>, order: seq<string>, now: int,
                      known: set<string>, lookup: string -> ChainLookup)
    requires FirstSeenOrder(tweets, order) && AllTokens(tweets) == {}
    ensures Ranked(tweets, order, now, known, lookup) == []
    ensures CacheAfter(known, lookup, QualifyingSet(order, tweets, now)) == known
  {
    forall x ensures StatsFor(tweets, x, now).mentions < MinTokenMentions {
      MentionedIffToken(tweets, x, now);
    }
    NoneQualifies(order, tweets, now);
  }

  /** When no symbol of `syms` reaches the threshold, none is kept. */
  lemma {:induction false} NoneQualifies(syms: seq<string>, tweets: seq<TokenTweet>, now: int)
    requires forall x :: x in syms ==> StatsFor(tweets, x, now).mentions < MinTokenMentions
    ensures Kept(syms, tweets, now) == []
    ensures QualifyingSet(syms, tweets, now) == {}
  {
    if syms != [] {
      NoneQualifies(syms[..|syms| - 1], tweets, now);
    }
  }

  /** `_analyze_token_mentions` as written, giving the trends and the cache
      afterwards. `first_seen` starts as the naive `datetime.now()` while
      tweepy's `created_at` is timezone-aware, so the `min` that updates it
      raises `TypeError` at the first mention, and the outer `except`
      answers []. A batch that names some symbol thus yields no trends and
      caches nothing; one that names none ranks nothing anyway. */
  function AnalyzedAsWritten(tweets: seq<TokenTweet>, order: seq<string>, now: int,
                             known: set<string>, lookup: string -> ChainLookup): (r: (seq<TrendRecord>, set<string>))
    requires FirstSeenOrder(tweets, order)
    ensures r.0 == [] && r.1 == known
  {
    if AllTokens(tweets) != {} then ([], known)
    else
      NothingToRank(tweets, order, now, known, lookup);
      (Ranked(tweets, order, now, known, lookup), CacheAfter(known, lookup, QualifyingSet(order, tweets, now)))
  }

  /** As written every trend is lost: a symbol with enough mentions is
      ranked by the intended pass, yet the pass as written returns []. */
  lemma AsWrittenLosesTrends(tweets: seq<TokenTweet>, order: seq<string>, now: int,
                             known: set<string>, lookup: string -> ChainLookup, s: string)
    requires FirstSeenOrder(tweets, order)
    requires s in AllTokens(tweets) && StatsFor(tweets, s, now).mentions >= MinTokenMentions
    ensures AnalyzedAsWritten(tweets, order, now, known, lookup).0 == []
    ensures exists k :: 0 <= k < |Ranked(tweets, order, now, known, lookup)|
                        && Ranked(tweets, order, now, known, lookup)[k].symbol == s
  {
    RankedComplete(tweets, order, now, known, lookup, s);
  }

  // ---------------------------------------------------------------------------
  // The service object and its verified-symbol cache
  // ---------------------------------------------------------------------------

  class TokenTrendService {
    /** `known_tokens`: symbols the lookup has confirmed. */
    var knownTokens: set<string>

    constructor()
      ensures knownTokens == {}
    {
      knownTokens := {};
    }

    /** `_verify_token_existence`: a cached symbol exists without a lookup;
        otherwise the lookup decides, a positive answer is cached, and a
        lookup error is reported as not existing. */
    method VerifyTokenExistence(symbol: string, lookup: string -> ChainLookup) returns (info: TokenInfo)
      modifies this
      ensures symbol in old(knownTokens) ==> info == TokenInfo(true, symbol, None) && knownTokens == old(knownTokens)
      ensures symbol !in old(knownTokens) && lookup(symbol).Answer? ==>
                info == TokenInfo(lookup(symbol).found, symbol, None)
      ensures symbol !in old(knownTokens) && lookup(symbol).LookupRaised? ==>
                info == TokenInfo(false, symbol, Some(lookup(symbol).message))
      ensures knownTokens == old(knownTokens) + (if lookup(symbol) == Answer(true) then {symbol} else {})
      ensures info.found == IsVerified(old(knownTokens), lookup, symbol)
    {
      if symbol in knownTokens {
        return TokenInfo(true, symbol, None);
      }
      match lookup(symbol)
      case LookupRaised(msg) =>
        info := TokenInfo(false, symbol, Some(msg));
      case Answer(found) =>
        if found {
          knownTokens := knownTokens + {symbol};
        }
        info := TokenInfo(found, symbol, None);
    }

    /** `_analyze_token_mentions`: aggregate, keep the symbols with enough
        mentions, verify and score each, and sort by score. `order` is the
        order in which the symbols first appeared. */
    method AnalyzeTokenMentions(tweets: seq<TokenTweet>, now: int, lookup: string -> ChainLookup)
      returns (trends: seq<TrendRecord>, ghost order: seq<string>)
      modifies this
      ensures FirstSeenOrder(tweets, order)
      ensures trends == Ranked(tweets, order, now, old(knownTokens), lookup)
      ensures knownTokens == CacheAfter(old(knownTokens), lookup, QualifyingSet(order, tweets, now))
    {
      var stats, keys := AggregateMentions(tweets, now);
      order := keys;
      var unsorted := RecordPass(keys, stats, tweets, now, lookup);
      trends := Ranking.SortDesc(unsorted, ScoreOf);
    }

    /** The record loop of `_analyze_token_mentions`: each symbol with enough
        mentions, in key order, is verified and scored. */
    method RecordPass(keys: seq<string>, stats: map<string, Stats>, tweets: seq<TokenTweet>, now: int,
                      lookup: string -> ChainLookup)
      returns (unsorted: seq<TrendRecord>)
      modifies this
      requires Distinct(keys)
      requires forall s :: s in keys ==> s in stats && stats[s] == StatsFor(tweets, s, now)
      ensures unsorted == Records(Kept(keys, tweets, now), tweets, now, old(knownTokens), lookup)
      ensures knownTokens == CacheAfter(old(knownTokens), lookup, QualifyingSet(keys, tweets, now))
    {
      unsorted := [];
      var i := 0;
      while i < |keys|
        invariant 0 <= i <= |keys|
        invariant unsorted == Records(Kept(keys[..i], tweets, now), tweets, now, old(knownTokens), lookup)
        invariant knownTokens == CacheAfter(old(knownTokens), lookup, QualifyingSet(keys[..i], tweets, now))
      {
        var sym := keys[i];
        assert sym !in keys[..i] by {
          forall j | 0 <= j < i ensures keys[j] != sym { }
        }
        unsorted := AnalyzeSymbol(keys[..i], sym, stats[sym], tweets, now, lookup, unsorted, old(knownTokens));
        assert keys[..i + 1] == keys[..i] + [sym];
        i := i + 1;
      }
      assert keys[..i] == keys;
    }

    /** One pass of the record loop: the symbol `sym`, met after `done`, is
        verified, scored and appended when it has enough mentions. */
    method AnalyzeSymbol(ghost done: seq<string>, sym: string, st: Stats, tweets: seq<TokenTweet>, now: int,
                         lookup: string -> ChainLookup, unsorted: seq<TrendRecord>, ghost known0: set<string>)
      returns (out: seq<TrendRecord>)
      modifies this
      requires st == StatsFor(tweets, sym, now) && sym !in done
      requires unsorted == Records(Kept(done, tweets, now), tweets, now, known0, lookup)
      requires knownTokens == CacheAfter(known0, lookup, QualifyingSet(done, tweets, now))
      ensures out == Records(Kept(done + [sym], tweets, now), tweets, now, known0, lookup)
      ensures knownTokens == CacheAfter(known0, lookup, QualifyingSet(done + [sym], tweets, now))
    {
      ghost var q := QualifyingSet(done, tweets, now);
      ghost var extra: set<string> := if st.mentions >= MinTokenMentions then {sym} else {};
      QualifyingAppend(done, sym, tweets, now);
      CacheStep(known0, lookup, q, extra, sym);
      KeptAppend(done, sym, tweets, now);
      out := unsorted;
      if st.mentions >= MinTokenMentions {
        RecordsAppend(Kept(done, tweets, now), sym, tweets, now, known0, lookup);
        assert sym !in q;
        var info := VerifyTokenExistence(sym, lookup);
        out := out + [TrendRecord(sym, st.mentions, |st.uniqueUsers|, st.engagement,
                                  CalculateTokenTrendScore(st), info.found, st.firstSeen, now)];
      }
    }

    /** `detect_token_trends`: fetch, filter, analyse. A failed or empty feed
        degrades to an empty list. */
    method DetectTokenTrends(feed: FeedResponse, now: int, lookup: string -> ChainLookup)
      returns (trends: seq<TrendRecord>, ghost order: seq<string>)
      modifies this
      ensures feed.FeedFailed? ==> trends == [] && knownTokens == old(knownTokens)
      ensures var tweets := if feed.FeedAnswered? && feed.data.Some? then TokenTweetsOf(feed.data.value) else [];
        && FirstSeenOrder(tweets, order)
        && trends == Ranked(tweets, order, now, old(knownTokens), lookup)
        && knownTokens == CacheAfter(old(knownTokens), lookup, QualifyingSet(order, tweets, now))
    {
      var tweets := GetTokenTweets(feed);
      trends, order := AnalyzeTokenMentions(tweets, now, lookup);
      if feed.FeedFailed? {
        EmptyBatchKeepsNothing(order, now);
      }
    }
  }
}
