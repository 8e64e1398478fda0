/** The web client's trading agent (`TrendAgent` in
    src/lib/services/agentService.ts): a configuration merged over defaults,
    start and stop guards, the periodic update that keeps the trends scoring
    at least `minTrendScore`, and the gates of `processTrend`. The position
    helpers the class calls (`findRelatedTokens`, `shouldTakePosition`,
    `openPosition`, `updatePositions`) have no body in the source: what they
    add to the open positions is an input. `emitState` and `handleError` are
    recorded as events. */
module TrendAgentFrontend {
  import opened Wrappers
  import opened TrendCache

  /** The update period the client's timer uses, in milliseconds. */
  const UpdatePeriod: nat := 30000

  datatype AgentConfig = AgentConfig(
    minTrendScore: real, maxPositions: int, maxInvestmentPerTrade: real,
    stopLossPercentage: real, takeProfitPercentage: real, riskThreshold: real)

  /** A `Partial<AgentConfig>`: the fields a caller specifies. */
  datatype ConfigPatch = ConfigPatch(
    minTrendScore: Option<real>, maxPositions: Option<int>, maxInvestmentPerTrade: Option<real>,
    stopLossPercentage: Option<real>, takeProfitPercentage: Option<real>, riskThreshold: Option<real>)

  const DefaultConfig: AgentConfig := AgentConfig(0.8, 5, 100.0, 10.0, 20.0, 0.7)
  const NoChanges: ConfigPatch := ConfigPatch(None, None, None, None, None, None)

  function Pick<T>(o: Option<T>, d: T): T {
    if o.Some? then o.value else d
  }

  /** `{ ...config, ...patch }`: each specified field replaces the old one,
      every other field keeps its value. */
  function Merge(c: AgentConfig, p: ConfigPatch): AgentConfig {
    AgentConfig(Pick(p.minTrendScore, c.minTrendScore), Pick(p.maxPositions, c.maxPositions),
                Pick(p.maxInvestmentPerTrade, c.maxInvestmentPerTrade),
                Pick(p.stopLossPercentage, c.stopLossPercentage),
                Pick(p.takeProfitPercentage, c.takeProfitPercentage),
                Pick(p.riskThreshold, c.riskThreshold))
  }

  /** Two patches as one: the later one's fields win. */
  function Then(p: ConfigPatch, q: ConfigPatch): ConfigPatch {
    ConfigPatch(if q.minTrendScore.Some? then q.minTrendScore else p.minTrendScore,
                if q.maxPositions.Some? then q.maxPositions else p.maxPositions,
                if q.maxInvestmentPerTrade.Some? then q.maxInvestmentPerTrade else p.maxInvestmentPerTrade,
                if q.stopLossPercentage.Some? then q.stopLossPercentage else p.stopLossPercentage,
                if q.takeProfitPercentage.Some? then q.takeProfitPercentage else p.takeProfitPercentage,
                if q.riskThreshold.Some? then q.riskThreshold else p.riskThreshold)
  }

  /** An empty patch changes nothing, a patch applied twice acts once, and
      two updates in a row equal one update with the combined patch. */
  lemma MergeLaws(c: AgentConfig, p: ConfigPatch, q: ConfigPatch)
    ensures Merge(c, NoChanges) == c
    ensures Merge(Merge(c, p), p) == Merge(c, p)
    ensures Merge(Merge(c, p), q) == Merge(c, Then(p, q))
  {
  }

  /** Without overrides the defaults are 0.8, 5, 100, 10, 20 and 0.7; a
      constructor patch replaces only the fields it names. */
  lemma DefaultsAndOverrides(p: ConfigPatch)
    ensures Merge(DefaultConfig, NoChanges).minTrendScore == 0.8
    ensures Merge(DefaultConfig, NoChanges).maxPositions == 5
    ensures p.minTrendScore.None? ==> Merge(DefaultConfig, p).minTrendScore == 0.8
    ensures p.maxPositions.None? ==> Merge(DefaultConfig, p).maxPositions == 5
    ensures p.maxPositions.Some? ==> Merge(DefaultConfig, p).maxPositions == p.maxPositions.value
  {
  }

  datatype Performance = Performance(totalPnl: real, successRate: real, totalTrades: int)

  datatype TokenPosition = TokenPosition(
    address: string, symbol: string, name: string, trend: string,
    amount: real, entryPrice: real, currentPrice: real, pnl: real, timestamp: int)

  /** A copy of the agent's state, as `getState` returns it. */
  datatype AgentState = AgentState(
    isRunning: bool, autoTrading: bool, lastUpdate: int,
    activeTrends: seq<ProcessedTrend>, activeTokens: seq<TokenPosition>, performance: Performance)

  /** What the agent announced: a detected trend, a state emission, or an
      error handed to its handler. */
  datatype Event = TrendDetected(trend: ProcessedTrend) | StateEmitted | ErrorHandled(error: ServiceError)

  /** The trends `update` keeps: those scoring at least `minScore`, in order. */
  function Active(trends: seq<ProcessedTrend>, minScore: real): seq<ProcessedTrend> {
    if trends == [] then []
    else
      var n := |trends| - 1;
      Active(trends[..n], minScore) + (if trends[n].score >= minScore then [trends[n]] else [])
  }

  /** A trend is kept exactly when it is listed and scores enough. */
  lemma {:induction false} ActiveIff(trends: seq<ProcessedTrend>, minScore: real)
    ensures forall t :: t in Active(trends, minScore) <==> t in trends && t.score >= minScore
  {
    if trends != [] {
      var n := |trends| - 1;
      ActiveIff(trends[..n], minScore);
      assert trends == trends[..n] + [trends[n]];
    }
  }

  /** Filtering respects concatenation, so the kept trends keep their
      relative order. */
  lemma {:induction false} ActiveAppend(xs: seq<ProcessedTrend>, ys: seq<ProcessedTrend>, minScore: real)
    ensures Active(xs + ys, minScore) == Active(xs, minScore) + Active(ys, minScore)
  {
    if ys == [] {
      assert xs + ys == xs;
    } else {
      var n := |ys| - 1;
      assert (xs + ys)[..|xs + ys| - 1] == xs + ys[..n];
      assert (xs + ys)[|xs + ys| - 1] == ys[n];
      ActiveAppend(xs, ys[..n], minScore);
    }
  }

  /** The trend events of one update: one detection per kept trend, in order. */
  function Detections(trends: seq<ProcessedTrend>): (r: seq<Event>)
    ensures |r| == |trends|
    ensures forall i :: 0 <= i < |trends| ==> r[i] == TrendDetected(trends[i])
  {
    seq(|trends|, i requires 0 <= i < |trends| => TrendDetected(trends[i]))
  }

  /** Whether `processTrend` goes past its gates. */
  predicate MayOpen(autoTrading: bool, tokens: seq<TokenPosition>, maxPositions: int) {
    autoTrading && |tokens| < maxPositions
  }

  /** The open positions after processing `trends` in order, the `k`-th
      trend adding `opens(k)` when it passes the gates. */
  function PositionsAfter(tokens: seq<TokenPosition>, trends: seq<ProcessedTrend>, autoTrading: bool,
                          maxPositions: int, opens: nat -> seq<TokenPosition>): seq<TokenPosition> {
    if trends == [] then tokens
    else
      var prev := PositionsAfter(tokens, trends[..|trends| - 1], autoTrading, maxPositions, opens);
      if MayOpen(autoTrading, prev, maxPositions) then prev + opens(|trends| - 1) else prev
  }

  /** No position is taken with auto trading off or with the positions
      already at the limit; positions are only ever added. */
  lemma {:induction false} PositionsGated(tokens: seq<TokenPosition>, trends: seq<ProcessedTrend>, autoTrading: bool,
                                          maxPositions: int, opens: nat -> seq<TokenPosition>)
    ensures tokens <= PositionsAfter(tokens, trends, autoTrading, maxPositions, opens)
    ensures !autoTrading || |tokens| >= maxPositions ==> PositionsAfter(tokens, trends, autoTrading, maxPositions, opens) == tokens
  {
    if trends != [] {
      PositionsGated(tokens, trends[..|trends| - 1], autoTrading, maxPositions, opens);
    }
  }

  class TrendAgent {
    const trendService: TrendService
    var config: AgentConfig
    var isRunning: bool
    var autoTrading: bool
    var lastUpdate: int
    var activeTrends: seq<ProcessedTrend>
    var activeTokens: seq<TokenPosition>
    var performance: Performance
    /** Whether the periodic update timer is set. */
    var intervalSet: bool
    var events: seq<Event>

    ghost predicate Valid()
      reads this, trendService
    {
      trendService.Valid()
    }

    /** The defaults overridden by `patch`, a fresh trend service and the
        initial state: stopped, no trading, nothing active, zero performance. */
    constructor(patch: ConfigPatch, now: int)
      ensures Valid() && fresh(trendService)
      ensures config == Merge(DefaultConfig, patch)
      ensures !isRunning && !autoTrading && lastUpdate == now && !intervalSet
      ensures activeTrends == [] && activeTokens == [] && performance == Performance(0.0, 0.0, 0) && events == []
    {
      trendService := new TrendService();
      config := Merge(DefaultConfig, patch);
      isRunning := false;
      autoTrading := false;
      lastUpdate := now;
      activeTrends := [];
      activeTokens := [];
      performance := Performance(0.0, 0.0, 0);
      intervalSet := false;
      events := [];
    }

    /** `processTrend`: announce the trend; with auto trading on and room
        under `maxPositions`, take the positions the helpers open. */
    method ProcessTrend(trend: ProcessedTrend, taken: seq<TokenPosition>)
      modifies this
      ensures events == old(events) + [TrendDetected(trend)]
      ensures activeTokens == if MayOpen(autoTrading, old(activeTokens), config.maxPositions)
                              then old(activeTokens) + taken else old(activeTokens)
      ensures config == old(config) && isRunning == old(isRunning) && autoTrading == old(autoTrading)
      ensures lastUpdate == old(lastUpdate) && activeTrends == old(activeTrends)
      ensures intervalSet == old(intervalSet) && performance == old(performance)
    {
      events := events + [TrendDetected(trend)];
      if !autoTrading {
        return;
      }
      if |activeTokens| >= config.maxPositions {
        return;
      }
      activeTokens := activeTokens + taken;
    }

    /** `update`: fetch the listing from the trend service, keep the trends
        scoring at least `minTrendScore`, process each in order, stamp the
        time and emit the state. A failing trend service goes to the error
        handler and leaves the agent's state as it was. */
    method Update(fetch: Fetch, now: int, opens: nat -> seq<TokenPosition>)
      modifies this, trendService
      requires Valid()
      ensures Valid()
      ensures var failed := old(trendService.ShouldUpdateCache(now)) && fetch.FetchThrew?;
        && (failed ==>
              activeTrends == old(activeTrends) && activeTokens == old(activeTokens) && lastUpdate == old(lastUpdate)
              && events == old(events) + [ErrorHandled(ServiceError(fetch.message.GetOr(DefaultErrorMessage), ErrorCode, ErrorSource))])
        && (!failed ==>
              activeTrends == Active(Listing(trendService.cache, trendService.keys), config.minTrendScore)
              && activeTokens == PositionsAfter(old(activeTokens), activeTrends, autoTrading, config.maxPositions, opens)
              && lastUpdate == now
              && events == old(events) + Detections(activeTrends) + [StateEmitted])
      ensures var refreshed := old(trendService.ShouldUpdateCache(now)) && fetch.Fetched?;
        && trendService.cache == (if refreshed then CacheAfter(old(trendService.cache), fetch.trends, now)
                                  else old(trendService.cache))
        && trendService.keys == (if refreshed then OrderAfter(old(trendService.keys), fetch.trends)
                                 else old(trendService.keys))
        && trendService.lastUpdate == (if refreshed then now else old(trendService.lastUpdate))
      ensures config == old(config) && isRunning == old(isRunning) && autoTrading == old(autoTrading)
      ensures intervalSet == old(intervalSet) && performance == old(performance)
    {
      var listed := trendService.GetTrends(fetch, now);
      match listed
      case Err(e) =>
        events := events + [ErrorHandled(e)];
      case Ok(trends) =>
        activeTrends := Active(trends, config.minTrendScore);
        ProcessAll(activeTrends, opens);
        lastUpdate := now;
        events := events + [StateEmitted];
    }

    /** The loop of `update`: each kept trend in order goes through
        `processTrend`, the `k`-th with the positions `opens(k)`. */
    method ProcessAll(trends: seq<ProcessedTrend>, opens: nat -> seq<TokenPosition>)
      modifies this
      ensures activeTokens == PositionsAfter(old(activeTokens), trends, autoTrading, config.maxPositions, opens)
      ensures events == old(events) + Detections(trends)
      ensures config == old(config) && isRunning == old(isRunning) && autoTrading == old(autoTrading)
      ensures lastUpdate == old(lastUpdate) && activeTrends == old(activeTrends)
      ensures intervalSet == old(intervalSet) && performance == old(performance)
    {
      var i := 0;
      while i < |trends|
        invariant 0 <= i <= |trends|
        invariant activeTokens == PositionsAfter(old(activeTokens), trends[..i], autoTrading, config.maxPositions, opens)
        invariant events == old(events) + Detections(trends[..i])
        invariant config == old(config) && isRunning == old(isRunning) && autoTrading == old(autoTrading)
        invariant lastUpdate == old(lastUpdate) && activeTrends == old(activeTrends)
        invariant intervalSet == old(intervalSet) && performance == old(performance)
      {
        ProcessTrend(trends[i], opens(i));
        assert trends[..i + 1][..i] == trends[..i];
        assert Detections(trends[..i + 1]) == Detections(trends[..i]) + [TrendDetected(trends[i])];
        i := i + 1;
      }
      assert trends[..i] == trends;
    }

    /** `start`: when stopped, mark running, update once, set the timer and
        emit the state; when running, nothing happens. */
    method Start(fetch: Fetch, now: int, opens: nat -> seq<TokenPosition>)
      modifies this, trendService
      requires Valid()
      ensures Valid()
      ensures old(isRunning) ==> unchanged(this) && unchanged(trendService)
      ensures !old(isRunning) ==> isRunning && intervalSet
      ensures !old(isRunning) ==>
        var failed := old(trendService.ShouldUpdateCache(now)) && fetch.FetchThrew?;
        && (failed ==>
              activeTrends == old(activeTrends) && activeTokens == old(activeTokens) && lastUpdate == old(lastUpdate)
              && events == old(events) + [ErrorHandled(ServiceError(fetch.message.GetOr(DefaultErrorMessage), ErrorCode, ErrorSource)), StateEmitted])
        && (!failed ==>
              activeTrends == Active(Listing(trendService.cache, trendService.keys), config.minTrendScore)
              && activeTokens == PositionsAfter(old(activeTokens), activeTrends, autoTrading, config.maxPositions, opens)
              && lastUpdate == now
              && events == old(events) + Detections(activeTrends) + [StateEmitted, StateEmitted])
      ensures !old(isRunning) ==>
        var refreshed := old(trendService.ShouldUpdateCache(now)) && fetch.Fetched?;
        && trendService.cache == (if refreshed then CacheAfter(old(trendService.cache), fetch.trends, now)
                                  else old(trendService.cache))
        && trendService.keys == (if refreshed then OrderAfter(old(trendService.keys), fetch.trends)
                                 else old(trendService.keys))
        && trendService.lastUpdate == (if refreshed then now else old(trendService.lastUpdate))
      ensures autoTrading == old(autoTrading) && config == old(config) && performance == old(performance)
    {
      if isRunning {
        return;
      }
      isRunning := true;
      Update(fetch, now, opens);
      intervalSet := true;
      events := events + [StateEmitted];
    }

    /** `stop`: when running, clear the flag and the timer and emit the
        state; when stopped, nothing happens. */
    method Stop()
      modifies this
      ensures !old(isRunning) ==> unchanged(this)
      ensures old(isRunning) ==> !isRunning && !intervalSet && events == old(events) + [StateEmitted]
      ensures autoTrading == old(autoTrading) && activeTokens == old(activeTokens) && activeTrends == old(activeTrends)
      ensures config == old(config) && lastUpdate == old(lastUpdate) && performance == old(performance)
    {
      if !isRunning {
        return;
      }
      isRunning := false;
      intervalSet := false;
      events := events + [StateEmitted];
    }

    /** `setAutoTrading`: set the flag and emit the state. */
    method SetAutoTrading(enabled: bool)
      modifies this
      ensures autoTrading == enabled && events == old(events) + [StateEmitted]
      ensures isRunning == old(isRunning) && intervalSet == old(intervalSet) && config == old(config)
      ensures activeTokens == old(activeTokens) && activeTrends == old(activeTrends)
      ensures lastUpdate == old(lastUpdate) && performance == old(performance)
    {
      autoTrading := enabled;
      events := events + [StateEmitted];
    }

    /** `getState`: a copy of the state fields. */
    method GetState() returns (s: AgentState)
      ensures s == AgentState(isRunning, autoTrading, lastUpdate, activeTrends, activeTokens, performance)
    {
      s := AgentState(isRunning, autoTrading, lastUpdate, activeTrends, activeTokens, performance);
    }

    /** `updateConfig`: merge the patch over the current configuration. */
    method UpdateConfig(patch: ConfigPatch)
      modifies this
      ensures config == Merge(old(config), patch)
      ensures isRunning == old(isRunning) && autoTrading == old(autoTrading) && events == old(events)
      ensures activeTokens == old(activeTokens) && activeTrends == old(activeTrends) && intervalSet == old(intervalSet)
      ensures lastUpdate == old(lastUpdate) && performance == old(performance)
    {
      config := Merge(config, patch);
    }
  }
}
