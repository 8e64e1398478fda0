# Degents trend engine and agents, modelled in Dafny

This project models the sequential logic of the degents repository, a
meme-token agent for the Base network, and proves properties of it. The
Twitter search, the CDP wallet toolkit, the LLM calls, websockets and timers
are replaced by inputs: each call's outcome is a parameter of the modelled
operation.

- `TokenSymbols` (`token_symbols.dfy`) models the `$SYMBOL` extractor of the
  backend token trend service. It is a left-to-right scanner with the
  semantics of `re.finditer`.
- `TokenTrendEngine` (`token_trend_engine.dfy`) models the rest of
  `TokenTrendService`. It keeps tweets that name a symbol, aggregates
  per-symbol statistics in a map, drops symbols under the mention threshold,
  scores and ranks the records, and caches verified symbols.
- `AgentBackend` (`agent_service.dfy`) models the backend `AgentService`:
  - the 100-entry activity log and its websocket subscribers;
  - the start, stop and auto-trading state;
  - one iteration of the trend monitor;
  - meme-token generation and creation;
  - parsing of the wallet tool's balance and address text;
  - the fund-action dispatch.
- `TrendCache` (`trend_cache.dfy`) models the web client's `TrendService`.
  It holds a five-minute cache of scored Twitter trends in a map keyed
  `twitter-<name>`.
- `TrendAgentFrontend` (`trend_agent.dfy`) models the web client's
  `TrendAgent`:
  - the configuration merged over defaults;
  - the start and stop guards;
  - the score filter of `update`;
  - the gates of `processTrend`.
- `LlmConfig` (`llm_config.dfy`) models the choice of primary and secondary
  chat model from the environment.
- `Utils` (`utils.dfy`) models the BaseScan transaction link.
- `Text`, `Ranking` and `Wrappers` are shared pieces:
  - `Text` holds the Python string operations the source uses (ASCII
    `upper`, `split`, `strip`, slicing).
  - `Ranking` is a stable descending sort, standing for Python's `sort` and
    for JavaScript's `Array.prototype.sort`.
  - `Wrappers` holds `Option` and `Result`.

Times are integers. Scores are `real`. Python's `int()` on a float is
truncation toward zero.

Where the code differs from what it evidently means or from a natural reading, the model follows the code:

- `"$toolongtoolong"` yields `TOOLONGTOO`. The pattern has no trailing
  boundary, although the evident intent of the pattern's comment
  (`token_trend_service.py:88-92`, "2-10 characters") is to reject such a run.
- Records with equal scores keep the order in which their symbols first
  appeared in the batch. The code sorts by score only. A deterministic
  tie-break, by mentions and then by name, would be natural, but the code
  does not implement one.

## Model

| member | source | states |
|---|---|---|
| Text.Upper | src/backend/services/agent_service.py:448 | `str.upper` on ASCII: the length is kept, no lower-case ASCII letter is left, each lower-case letter becomes its capital and every other character is kept |
| Text.UpperIdempotent | src/backend/services/agent_service.py:448 | upper-casing an upper-cased text changes nothing |
| Text.Strip | src/backend/services/agent_service.py:268 | `strip()` returns the slice of its input with no leading and no trailing whitespace, and only whitespace is removed |
| Text.StripIdempotent | src/backend/services/agent_service.py:268 | stripping twice equals stripping once |
| Text.Split | src/backend/services/agent_service.py:267-268 | `split(sep)` yields at least one piece, and no piece contains the separator |
| Text.JoinSplit | src/backend/services/agent_service.py:267-268 | joining the pieces of `split(sep)` with `sep` gives back the input |
| Text.SplitSeveralIffContains | src/backend/services/agent_service.py:125-126 | `split` yields two or more pieces exactly when the input contains the separator |
| Text.SplitLastIsSuffix | src/backend/services/agent_service.py:126 | `split(sep)[-1]` is a suffix of the text; when the separator occurs, an occurrence ends right where that suffix begins |
| Ranking.SortDescCorrect | src/backend/services/token_trend_service.py:179 | the reverse sort by score is a permutation of its input, sorted non-increasing, and keeps equal-score elements in their input order |
| Ranking.SortDescKeepsRankOnTies | src/backend/services/token_trend_service.py:179 | if the input is ordered by some rank, equal scores stay ordered by that rank after sorting |
| TokenSymbols.AlnumRun | src/backend/services/token_trend_service.py:93 | the greedy `[A-Za-z0-9]{0,n}` run: all alphanumeric, at most n, stopped only by the text's end, the bound or a non-alphanumeric character |
| TokenSymbols.MatchAt | src/backend/services/token_trend_service.py:93 | a match at `i` is `$`, a letter, then 1 to 9 alphanumerics, and the group is the text right after the `$` |
| TokenSymbols.Scan | src/backend/services/token_trend_service.py:94-95 | every symbol found by the left-to-right scan is 2 to 10 uppercase letters or digits and starts with a letter |
| TokenSymbols.ExtractTokenSymbols | src/backend/services/token_trend_service.py:85-95 | every extracted symbol is 2 to 10 characters long, starts with a letter and is ASCII letters and digits in upper case |
| TokenSymbols.ScanFindsAllMatches | src/backend/services/token_trend_service.py:94-95 | the scan from a position finds exactly the uppercased groups of the matches starting at or after it; no match starts inside another |
| TokenSymbols.ExtractIffMatch | src/backend/services/token_trend_service.py:93-95 | a symbol is extracted exactly when the pattern matches at some position with that uppercased group |
| TokenSymbols.DollarDigitNoMatch | src/backend/services/token_trend_service.py:93 | `$` followed by a digit never matches |
| TokenSymbols.NoLetterAfterDollarNoSymbol | src/backend/services/token_trend_service.py:93-95 | a text with no `$` followed by a letter yields no symbol |
| TokenSymbols.LongRunCutToTen | src/backend/services/token_trend_service.py:93 | a run of ten or more alphanumerics after `$` gives its first ten characters |
| TokenSymbols.ExtractCaseFolds | src/backend/services/token_trend_service.py:95 | `$ab` and `$AB` in one text give the single symbol `AB` |
| TokenSymbols.ExtractDigitFirst | src/backend/services/token_trend_service.py:93 | `$1x` yields nothing |
| TokenSymbols.ExtractTooLong | src/backend/services/token_trend_service.py:93-95 | `$toolongtoolong` yields `TOOLONGTOO` |
| TokenTrendEngine.TokenTweetsKeepExactly | src/backend/services/token_trend_service.py:64-79 | `TokenTweetsOf` keeps a tweet exactly when its symbol set is non-empty, in feed order, and the kept record carries that set |
| TokenTrendEngine.GetTokenTweets | src/backend/services/token_trend_service.py:52-83 | a failed search or an answer without data gives no tweets; otherwise the kept tweets, in feed order |
| TokenTrendEngine.AllTokens | src/backend/services/token_trend_service.py:140-142 | the aggregated symbols are exactly those named by some tweet |
| TokenTrendEngine.FirstIndex | src/backend/services/token_trend_service.py:140-142 | the index of the first tweet naming a symbol: it names it and no earlier tweet does |
| TokenTrendEngine.StatsForMeaning | src/backend/services/token_trend_service.py:140-155 | `mentions` counts the tweets naming the symbol; `unique_users` is their authors, so it is at most `mentions`; `first_seen` is the minimum of the analysis time and their times |
| TokenTrendEngine.StatsForEngagement | src/backend/services/token_trend_service.py:145-149 | `engagement` is the sum of retweets, likes and replies over the tweets naming the symbol |
| TokenTrendEngine.MentionedIffToken | src/backend/services/token_trend_service.py:140-143 | a symbol has a positive mention count exactly when some tweet names it |
| TokenTrendEngine.StatsForAbsent | src/backend/services/token_trend_service.py:131-137 | a symbol no tweet names keeps the default statistics |
| TokenTrendEngine.AggregateTweet | src/backend/services/token_trend_service.py:141-155 | the inner loop over one tweet's symbols extends the map to that tweet's prefix and keeps keys in first-seen order |
| TokenTrendEngine.AggregateMentions | src/backend/services/token_trend_service.py:131-155 | the `defaultdict` holds exactly the named symbols, each with its statistics, and its keys are in first-seen order |
| TokenTrendEngine.ScoreBounds | src/backend/services/token_trend_service.py:186-207 | the unrounded weighted score `TrendScore` (0.4 min(m/5, 2) + 0.3 u/max(m,1) + 0.3 min(e/max(m,1)/10, 1)) lies in [0, 1.4] when there are no more unique users than mentions |
| TokenTrendEngine.ScoreReachesMaximum | src/backend/services/token_trend_service.py:190-207 | `TrendScore` attains its bound: 10 mentions, 10 users and engagement 100 score exactly 1.4 |
| TokenTrendEngine.ScoreExample | src/backend/services/token_trend_service.py:190-207 | `TrendScore` of 5 mentions, 5 users and engagement 50 is exactly 1.0 |
| TokenTrendEngine.Round4 | src/backend/services/token_trend_service.py:209 | `round(x, 4)`: the result is a multiple of 1/10000 within 1/20000 of the input |
| TokenTrendEngine.Round4Monotone | src/backend/services/token_trend_service.py:209 | rounding never reverses the order of two scores |
| TokenTrendEngine.Round4Exact | src/backend/services/token_trend_service.py:209 | a score that already has four decimals is left as it is |
| TokenTrendEngine.Round4MergesNearScores | src/backend/services/token_trend_service.py:186-209 | (8 mentions, 1 user, engagement 39) scores below (29, 1, 13) unrounded, but both round to 0.8238, so they tie in the sort |
| TokenTrendEngine.CalculateTokenTrendScore | src/backend/services/token_trend_service.py:186-213 | the returned score is the weighted score rounded to four decimals: within 1/20000 of it and a multiple of 1/10000 |
| TokenTrendEngine.RoundedScoreBounds | src/backend/services/token_trend_service.py:186-209 | with no more unique users than mentions the rounded score also lies in [0, 1.4] |
| TokenTrendEngine.KeptMembers | src/backend/services/token_trend_service.py:159-160 | a symbol gets a record exactly when its mentions reach the threshold of 5 |
| TokenTrendEngine.KeptOrdered | src/backend/services/token_trend_service.py:159-160 | the threshold filter keeps distinctness and first-seen order |
| TokenTrendEngine.RankedRecords | src/backend/services/token_trend_service.py:158-176 | every output record is the record of a named symbol with at least 5 mentions, with its statistics, score and verification flag |
| TokenTrendEngine.RankedComplete | src/backend/services/token_trend_service.py:158-176 | every symbol with at least 5 mentions has a record in the output |
| TokenTrendEngine.RankedDistinct | src/backend/services/token_trend_service.py:158-176 | no symbol has two records |
| TokenTrendEngine.RankedOrder | src/backend/services/token_trend_service.py:179 | the output is sorted non-increasing by the rounded score, and records whose rounded scores are equal keep first-seen order |
| TokenTrendEngine.RecordBounds | src/backend/services/token_trend_service.py:167-176 | every record has `unique_users <= mentions`, a score in [0, 1.4] and `first_seen` no later than `timestamp` |
| TokenTrendEngine.PlaceholderVerifiesNothing | src/backend/services/token_trend_service.py:97-122 | with the placeholder `CheckTokenOnChain`, `IsVerified` holds only for cached symbols and `CacheAfter` never grows the cache |
| TokenTrendEngine.EmptyBatchKeepsNothing | src/backend/services/token_trend_service.py:44-50 | an empty batch yields no record and no cache change |
| TokenTrendEngine.NothingToRank | src/backend/services/token_trend_service.py:131-180 | a batch in which no tweet names a symbol ranks nothing and caches nothing |
| TokenTrendEngine.NoneQualifies | src/backend/services/token_trend_service.py:159-160 | when no symbol reaches five mentions none is kept and none is looked up |
| TokenTrendEngine.AnalyzedAsWritten | src/backend/services/token_trend_service.py:127-184 | as written, the pass returns no trends and leaves the cache unchanged for every batch |
| TokenTrendEngine.AsWrittenLosesTrends | src/backend/services/token_trend_service.py:130-184 | a symbol with five mentions is ranked by the intended pass, yet the pass as written returns no trends |
| TokenTrendEngine.TokenTrendService.constructor | src/backend/services/token_trend_service.py:33 | the verified-symbol cache starts empty |
| TokenTrendEngine.TokenTrendService.VerifyTokenExistence | src/backend/services/token_trend_service.py:97-115 | a cached symbol exists without a lookup; otherwise the lookup answers and a lookup error reads as "does not exist" with its message; only a positive answer is cached |
| TokenTrendEngine.TokenTrendService.AnalyzeTokenMentions | src/backend/services/token_trend_service.py:127-184 | the output is the sorted records of the qualifying symbols, and the cache gains exactly the qualifying symbols the lookup confirms |
| TokenTrendEngine.TokenTrendService.RecordPass | src/backend/services/token_trend_service.py:157-176 | the unsorted records are those of the symbols reaching five mentions, in key order, each verified against the cache as it stood before the pass; the cache gains exactly those symbols the lookup confirms |
| TokenTrendEngine.TokenTrendService.AnalyzeSymbol | src/backend/services/token_trend_service.py:159-176 | one symbol extends the records and the cache of the symbols before it: by its record and its confirmation when it has at least five mentions, by nothing otherwise |
| TokenTrendEngine.TokenTrendService.DetectTokenTrends | src/backend/services/token_trend_service.py:40-50 | a failed search degrades to an empty list and leaves the cache as it was; otherwise the records of the kept tweets |
| AgentBackend.Window | src/backend/services/agent_service.py:75 | the log holds the last 100 entries of the history, oldest first |
| AgentBackend.AppendBoundedWindow | src/backend/services/agent_service.py:159 | appending to a full log evicts the oldest entry: the log stays the last 100 entries in order and never exceeds 100 |
| AgentBackend.Trunc | src/backend/services/agent_service.py:444 | `int()` on a float truncates toward zero |
| AgentBackend.SupplyBounds | src/backend/services/agent_service.py:443-444 | `InitialSupply` of two scores in [0, 1] lies between 1,000,000 and 11,000,000 |
| AgentBackend.SupplyMonotone | src/backend/services/agent_service.py:443-444 | a larger score sum never gives a smaller `InitialSupply` |
| AgentBackend.SupplyExample | src/backend/services/agent_service.py:443-444 | scores 0.5 and 0.5 give 6,000,000 |
| AgentBackend.GeneratedTokenFields | src/backend/services/agent_service.py:443-462 | `TokenFromIdea` keeps the LLM's name and description, takes its first ten characters uppercased as symbol, sets the supply from the two scores and ten times that as maximum, and is not yet created |
| AgentBackend.BackendExplorer | src/backend/services/agent_service.py:541 | the Sepolia explorer is chosen exactly for `base-sepolia` |
| AgentBackend.ExplorerRulesDisagree | src/backend/services/agent_service.py:541 | the backend and the web client pick different explorers exactly for a network that is neither `base-mainnet` nor `base-sepolia` |
| AgentBackend.CreatedTokenFields | src/backend/services/agent_service.py:544-553 | `CreatedToken` keeps the generated fields and records hash and network; it has a link exactly for a non-empty hash, and the link ends with the hash |
| AgentBackend.CombinationShape | src/backend/services/agent_service.py:590-610 | `CombinationOf`: with fewer than two trends a failure; otherwise exactly one recommendation, built from the first two trends, or the generator's error; `CombinationLog` logs only the generator's entry |
| AgentBackend.CombinationsAlwaysFail | src/backend/services/agent_service.py:586-617 | as written the trend-service call raises, so the answer is always a failure and nothing is generated |
| AgentBackend.ParseEthBalance | src/backend/services/agent_service.py:262-270 | both parse failures give `"0"`: a text without a second line, and a second line without `": "` |
| AgentBackend.ParseEthBalanceReads | src/backend/services/agent_service.py:262-268 | for `header\nlabel: amount` the balance is the stripped amount |
| AgentBackend.ParseEthBalanceReadsFollowed | src/backend/services/agent_service.py:262-268 | for `header\nlabel: amount\nmore` the balance is the stripped amount, whatever follows the second line |
| AgentBackend.NoTagReadsZero | src/backend/services/agent_service.py:264-270 | for `header\nline` where the line holds no colon, the balance is `"0"` |
| AgentBackend.ParseEthBalanceNoTagExample | src/backend/services/agent_service.py:264-270 | `"Balances:\n eth 0.5"` has no `": "` on its second line and gives `"0"` |
| AgentBackend.ParseEthBalanceExample | src/backend/services/agent_service.py:262 | `"Balances for wallet abc123:\n  default: 0.5"` gives `"0.5"` |
| AgentBackend.ParseWalletAddress | src/backend/services/agent_service.py:125-126 | an address is taken exactly when the marker occurs; it is the stripped text after an occurrence of the marker that is followed by no other, so the text after the last one |
| AgentBackend.ParseWalletAddressExample | src/backend/services/agent_service.py:125-126 | `"default address: 0xAB"` gives `0xAB` |
| AgentBackend.IntendedSetupAddress | src/backend/services/agent_service.py:119-131 | the wallet-details step finds an address exactly when the tool answered with the marker |
| AgentBackend.SetupAddress | src/backend/services/agent_service.py:93-140 | as written, no address is stored off `base-sepolia` |
| AgentBackend.MainnetAddressNeverStored | src/backend/services/agent_service.py:93-140 | on `base-mainnet` a well-formed wallet answer is ignored, while the intended step stores its address |
| AgentBackend.EthBalance | src/backend/services/agent_service.py:246-282 | a missing or failing balance tool gives `"0"`; an answer is parsed |
| AgentBackend.WalletBalance | src/backend/services/agent_service.py:214-231 | the reported balance is never empty and is the tool's text whenever that is non-empty |
| AgentBackend.FundsCommand | src/backend/services/agent_service.py:332-345 | only `deposit` and `withdraw` are accepted; any other action fails with `Invalid action` |
| AgentBackend.CreatedTokensCount | src/backend/services/agent_service.py:365-376 | `CreatedTokens`: a monitor pass appends at most one created record per recommendation, one for each if every call returns, all marked created |
| AgentBackend.CreationsLogLength | src/backend/services/agent_service.py:365-376 | `CreationsLog` holds one or two entries per recommendation |
| AgentBackend.CreationsLogPrefix | src/backend/services/agent_service.py:365-376 | the log of the first creations is the start of the log of all of them |
| AgentBackend.CreationsLogAttempt | src/backend/services/agent_service.py:365-376 | every recommendation is attempted in order whatever happened before: the `k`-th one's `CreationLog` entries for its own outcome follow those of the first `k` |
| AgentBackend.AgentService.constructor | src/backend/services/agent_service.py:70-83 | both flags off, no subscribers; the wallet-file entry (loaded, or a warning on failure) and then the success entry are logged |
| AgentBackend.AgentService.AddActivity | src/backend/services/agent_service.py:155-163 | the entry goes to the bounded log, and a notification is scheduled exactly when a subscriber is registered |
| AgentBackend.AgentService.NotifyClients | src/backend/services/agent_service.py:165-185 | every subscriber is tried once, even after a failure, and afterwards the set is the old set minus the failed sends |
| AgentBackend.AgentService.AddConnection | src/backend/app.py:49 | a connecting websocket joins the subscriber set; nothing else changes |
| AgentBackend.AgentService.Start | src/backend/services/agent_service.py:187-193 | only when stopped: set running, log one "Agent started" (notified exactly when a subscriber is registered) and spawn one monitor task; otherwise nothing changes; wallet, tokens, subscribers and trading flag are kept |
| AgentBackend.AgentService.Stop | src/backend/services/agent_service.py:195-200 | only when running: clear the flag and log one "Agent stopped" (notified exactly when a subscriber is registered); otherwise nothing changes; every other field is kept |
| AgentBackend.AgentService.SetAutoTrading | src/backend/services/agent_service.py:202-206 | the flag is set and one entry logged (and notified when a subscriber is registered) on every call, even without a change; every other field is kept |
| AgentBackend.AgentService.GetState | src/backend/services/agent_service.py:393-399 | reports both flags |
| AgentBackend.AgentService.GetGeneratedTokens | src/backend/services/agent_service.py:619-627 | returns the generated tokens |
| AgentBackend.AgentService.VerifyWalletSetup | src/backend/services/agent_service.py:89-140 | as written: the address is stored and logged only on `base-sepolia` with a well-formed answer; otherwise nothing changes; tokens, subscribers, tasks and flags are kept, and the entries are notified exactly when a subscriber is registered |
| AgentBackend.AgentService.VerifyWalletSetupOnAnyNetwork | src/backend/services/agent_service.py:112-131 | intended: the address is stored and logged on any network when the answer is well-formed; every other field is kept |
| AgentBackend.AgentService.StoreAddress | src/backend/services/agent_service.py:119-131 | stores and logs the address found in the tool's answer, and changes nothing without one; every other field is kept |
| AgentBackend.AgentService.GetWalletInfo | src/backend/services/agent_service.py:208-234 | the stored address, a non-empty balance and the network |
| AgentBackend.AgentService.GetEthBalance | src/backend/services/agent_service.py:246-282 | the parsed ETH amount, `"0"` for a one-line answer or a missing tool |
| AgentBackend.AgentService.GetTokenHoldings | src/backend/services/agent_service.py:284-327 | one ETH holding with the parsed balance when the tool answers; none otherwise, and only a missing tool is logged; wallet, tokens, subscribers, tasks and flags are kept |
| AgentBackend.AgentService.ManageFunds | src/backend/services/agent_service.py:329-349 | deposit or withdraw logs the attempt, then either logs success and returns the tool's whole result dictionary, or logs the error and re-raises; any other action logs and raises `Invalid action`; every other field is kept |
| AgentBackend.AgentService.FundsMove | src/backend/services/agent_service.py:333-337 | one accepted movement logs its start, then success with the whole result returned, or the error re-raised; a raising run logs no success; every other field is kept |
| AgentBackend.AgentService.FundsRun | src/backend/services/agent_service.py:334-349 | a tool run that returns logs success and gives back its whole result dictionary (`return result`); one that raises logs the error and re-raises; every other field is kept |
| AgentBackend.AwaitedAsWritten | src/backend/services/agent_service.py:334 | awaiting the synchronous `run` always raises: its own error, or the `TypeError` for awaiting the text it returned |
| AgentBackend.AgentService.ManageFundsAsWritten | src/backend/services/agent_service.py:329-349 | as written every call answers with an error, logs it as its last entry and logs no success; every other field is kept |
| AgentBackend.AgentService.GenerateMemeToken | src/backend/services/agent_service.py:401-494 | a usable reply gives the record built from it, which is appended and logged; a failed reply logs and returns the error and appends nothing; every other field is kept |
| AgentBackend.AgentService.CreateMemeToken | src/backend/services/agent_service.py:496-584 | a missing tool logs only the error; otherwise "Creating" is logged first, and a returning call appends the created record and logs success; every other field is kept |
| AgentBackend.AgentService.GetMemeCombinationsFrom | src/backend/services/agent_service.py:592-617 | corrected: the answer and log follow the trends actually obtained: failure under two, else one recommendation from the first two; every other field is kept |
| AgentBackend.AgentService.GetMemeCombinations | src/backend/services/agent_service.py:586-617 | as written: always a failure with the missing-method message; nothing at all changes |
| AgentBackend.AgentService.MonitorIteration | src/backend/services/agent_service.py:355-391 | logs "Analyzing token trends..." first; creates only with a successful combination and auto trading on, in order, sleeping 30 s after each; then sleeps 3600 s; wallet, subscribers, tasks and flags are kept and the new entries are notified exactly when a subscriber is registered |
| AgentBackend.AgentService.CreateAll | src/backend/services/agent_service.py:365-376 | every recommendation is attempted in order, a failure not stopping the rest: the log gains each attempt's entries, the records gain the tokens whose creation returned, and a 30 s pause follows each; every other field is kept |
| TrendCache.CalculateTrendScore | src/lib/services/trendService.ts:73-89 | a null or zero volume scores 0; a non-negative volume scores in [0, 1], and 1 from 10000 on |
| TrendCache.ScoreMonotone | src/lib/services/trendService.ts:76-79 | more tweets never score lower |
| TrendCache.Key | src/lib/services/trendService.ts:51 | the key is the name behind an eight-character prefix |
| TrendCache.KeyInjective | src/lib/services/trendService.ts:51 | two keys are equal exactly when the names are |
| TrendCache.Process | src/lib/services/trendService.ts:50-61 | the entry has the key as id, source `twitter`, the volume with null stored as 0, and the volume's score |
| TrendCache.OrderAfterIndexed | src/lib/services/trendService.ts:49-64 | after the writes, `OrderAfter` lists every key of `CacheAfter` once and extends the old order |
| TrendCache.CacheAfterKeys | src/lib/services/trendService.ts:49-64 | after a batch, `CacheAfter` holds exactly the old keys and the batch's keys: nothing is deleted |
| TrendCache.CacheAfterLastWins | src/lib/services/trendService.ts:49-64 | a repeated name overwrites: the entry is the one written by the name's last occurrence |
| TrendCache.CacheAfterKeepsOthers | src/lib/services/trendService.ts:49-64 | an entry no trend of the batch names keeps its value |
| TrendCache.Values | src/lib/services/trendService.ts:25 | the cached values in map order |
| TrendCache.ListingCorrect | src/lib/services/trendService.ts:25-27 | `Listing` is sorted non-increasing by score and holds each cached entry exactly once |
| TrendCache.StaleWindow | src/lib/services/trendService.ts:91-96 | `Stale`: a refresh is due exactly when more than five minutes have passed, so the first call after the epoch start refreshes |
| TrendCache.TrendService.constructor | src/lib/services/trendService.ts:11-15 | an empty cache whose last refresh is the epoch |
| TrendCache.TrendService.UpdateTrends | src/lib/services/trendService.ts:43-71 | every fetched trend is written and then the time recorded; a throwing fetch changes nothing and is passed on |
| TrendCache.TrendService.GetTrends | src/lib/services/trendService.ts:17-41 | refreshes only when stale and returns the sorted listing; a failed refresh becomes a `TREND_SERVICE_ERROR` from `TrendService` with the message or the default one |
| TrendAgentFrontend.MergeLaws | src/lib/services/agentService.ts:174-176 | `Merge`: an empty patch changes nothing, a patch applied twice acts once, and two merges equal one with the combined patch |
| TrendAgentFrontend.DefaultsAndOverrides | src/lib/services/agentService.ts:39-47 | the defaults include 0.8 and 5, and a constructor patch replaces only the fields it names |
| TrendAgentFrontend.ActiveIff | src/lib/services/agentService.ts:103-105 | `Active` keeps a trend exactly when it is listed and scores at least `minTrendScore` |
| TrendAgentFrontend.ActiveAppend | src/lib/services/agentService.ts:103-105 | filtering respects concatenation, so kept trends stay in order |
| TrendAgentFrontend.Detections | src/lib/services/agentService.ts:108-110 | one detection event per kept trend, in order |
| TrendAgentFrontend.PositionsGated | src/lib/services/agentService.ts:123-146 | `PositionsAfter`: no position is taken with auto trading off or at the position cap, and positions are only added |
| TrendAgentFrontend.TrendAgent.constructor | src/lib/services/agentService.ts:27-62 | the defaults overridden by the patch, stopped, no trading, nothing active, zero performance |
| TrendAgentFrontend.TrendAgent.ProcessTrend | src/lib/services/agentService.ts:123-146 | the trend is announced; positions are taken only with auto trading on and room under `maxPositions` |
| TrendAgentFrontend.TrendAgent.Update | src/lib/services/agentService.ts:99-121 | the trend service's cache, key order and refresh time are those of a refresh exactly when it was stale and the fetch succeeded; the active trends are its listing filtered by score, each processed in order, then time and state are updated; a failing refresh goes to the error handler and changes nothing else |
| TrendAgentFrontend.TrendAgent.ProcessAll | src/lib/services/agentService.ts:107-110 | each trend is announced once, in order, and positions are taken only while auto trading is on and under the limit |
| TrendAgentFrontend.TrendAgent.Start | src/lib/services/agentService.ts:64-82 | no effect when running; otherwise marks running, performs exactly the update above (cache, active trends, positions, time, events), sets the timer and emits the state once more |
| TrendAgentFrontend.TrendAgent.Stop | src/lib/services/agentService.ts:84-97 | no effect when stopped; otherwise clears the flag and the timer and emits the state |
| TrendAgentFrontend.TrendAgent.SetAutoTrading | src/lib/services/agentService.ts:165-168 | sets the flag and emits the state |
| TrendAgentFrontend.TrendAgent.GetState | src/lib/services/agentService.ts:170-172 | a copy of the state fields |
| TrendAgentFrontend.TrendAgent.UpdateConfig | src/lib/services/agentService.ts:174-176 | the patch is merged over the current configuration; every other field is kept |
| LlmConfig.GetEnv | src/backend/llm_config.py:11-13 | a variable is present exactly when it is set |
| LlmConfig.LLMProvider.constructor | src/backend/llm_config.py:10-19 | preference defaults to `claude`, both keys are read, and the state is one `__init__` can produce |
| LlmConfig.LLMProvider.InitializeLlms | src/backend/llm_config.py:21-35 | Claude is built exactly when `WantsClaude` (`claude`/`both` with an Anthropic key), OpenAI exactly when `WantsOpenAi` (`openai`/`both` with an OpenAI key) |
| LlmConfig.LLMProvider.GetPrimaryLlm | src/backend/llm_config.py:37-48 | a model exactly when one is built: the preferred one first, then Claude, then OpenAI; otherwise the `ValueError` message |
| LlmConfig.LLMProvider.GetSecondaryLlm | src/backend/llm_config.py:50-56 | only the other provider of a single preference; nothing for `both` or any other preference |
| LlmConfig.SecondaryNeverBuilt | src/backend/llm_config.py:21-56 | in every state `__init__` produces there is no secondary model |
| LlmConfig.PrimaryWhenReachable | src/backend/llm_config.py:37-48 | after `__init__` a primary exists exactly when the preference and keys allow one; `both` with an Anthropic key gives Claude |
| LlmConfig.DefaultPreferenceIsClaude | src/backend/llm_config.py:11 | without `PREFERRED_LLM` the preference is Claude and OpenAI is never built |
| Utils.BaseScanPrefix | src/lib/utils.ts:12-15 | the mainnet explorer exactly for `base-mainnet`, the Sepolia explorer otherwise |
| Utils.GetBaseScanUrl | src/lib/utils.ts:8-18 | the link is the explorer, `/tx/`, then the hash as an exact suffix |
| Utils.TxHashRoundTrip | src/lib/utils.ts:17 | the hash read back from a link is the hash it was built from |
| Utils.DefaultIsTestnet | src/lib/utils.ts:10 | an omitted network gives the Sepolia link |

## Left out

- External calls are inputs, not models: the Twitter search, the CDP toolkit tools, the Anthropic and OpenAI calls, the Pyth price feed and the websocket sends.
- Concurrency is not modelled: asyncio tasks, `setInterval` and the real sleeps.
  - A spawned monitor task is a counter.
  - A scheduled notification is a queued entry.
  - The sleeps of one monitor pass are a returned list of durations.
- The race after a `stop` and `start` within an hour is not modelled. An old monitor loop only re-checks `is_running` after its sleep, so two loops can run.
- Timestamps are integers. The `isoformat` strings, activity details and the `recent_tweets` lists are not modelled.
- AgentBackend.AgentService.FundsRun and AgentBackend.AgentService.ManageFunds: the success entry's `tx_hash` detail (`result.get("tx_hash")`) is not kept, since activities carry no details. `RunReturned` stands for the evidently intended awaitable run that returns a dictionary; the Findings table covers the run as written.
- TokenTrendEngine.TokenTrendService.AnalyzeTokenMentions: models the pass as evidently intended, with `first_seen` the earliest of the analysis time and the tweets' times. As written, that comparison mixes a naive and a timezone-aware `datetime` and every batch naming a symbol yields [] (see "## Findings"; the as-written pass is `AnalyzedAsWritten`).
- TokenTrendEngine.CalculateTokenTrendScore: the score is computed on exact reals and then rounded to four decimals, half to even. Python rounds the nearest double instead, so a score lying exactly halfway between two four-decimal values may round the other way there.
- TokenTrendEngine.RankedOrder and TokenTrendEngine.TokenTrendService.AnalyzeTokenMentions: the sort is on the rounded score, as in the source, but that score comes from exact reals. Two symbols whose float scores round differently from their exact scores can therefore tie in one and not in the other, which changes their relative order.
- TokenTrendEngine.CalculateTokenTrendScore: the error branch that returns 0.0 is not modelled. Every divisor is at least 1, so it cannot occur.
- AgentBackend.InitialSupply and AgentBackend.TokenFromIdea: the supply is computed on exact reals and then truncated. Python's float product can fall just below an integer, so its `int()` can be one lower: scores 0.57 and 0.57 give 6,699,999 in Python but 6,700,000 here, and the maximum supply differs in the same way. SupplyBounds, SupplyMonotone and SupplyExample are stated on the exact value.
- `get_token_details` in the token trend service is not modelled. It is a wrapper over `_verify_token_existence` outside the modelled core.
- Text.Upper: only the ASCII case mapping is modelled. Python's Unicode upper-casing of other characters is not.
- TokenTrendEngine.AnalyzeTokenMentions: the key order of the symbol map is returned as a ghost value. Within one tweet, symbols of a set are visited in an unspecified order, so the order is characterised by a predicate.
- AgentBackend.AgentService.CreateMemeToken: the record is treated as a value. The source updates the very dict that generation already appended, so that earlier entry also becomes "created". The model keeps that entry unchanged.
- AgentBackend.AgentService.MonitorIteration: models one pass of the `while self.is_running` loop.
  - Its two `except` branches ("Failed to create token" at line 380 and "Monitoring error" at line 390) cannot be reached, because every call inside catches its own errors.
  - So the 30-second pause follows every creation call.
- AgentBackend.AgentService.ManageFunds: the amount is text; the float formatting of `{amount}` is not modelled.
- AgentBackend.AgentService.GetWalletInfo: its outer `except` branch ("Error fetching address") is not modelled. No modelled step inside it raises.
- The removal of a websocket in src/backend/app.py:54 is not modelled. It raises `KeyError` when the send path already pruned that socket.
- TrendCache.TrendService.UpdateTrends: every entry of a batch gets the same timestamp. `NaN` volumes are not modelled.
- TrendCache.Listing: the listing relies on `Array.prototype.sort` being stable, as required since ECMAScript 2019.
- TrendAgentFrontend: `findRelatedTokens`, `shouldTakePosition`, `openPosition`, `updatePositions`, `emitState` and `handleError` have no body in the source.
  - The positions taken for each trend are an input.
  - `updatePositions` changes nothing in the model.
  - The emitted state and the handled errors are recorded as events.
- TrendAgentFrontend.TrendAgent.Start: the periodic timer's later calls to `update` are not modelled, and neither is the `.catch` that emits `'error'`.
- The `cn` class-name helper of src/lib/utils.ts is not modelled. It is a wrapper over two styling libraries.

## Findings

| source | as written | input that shows it | evidently intended | confidence | as-written member | corrected member |
|---|---|---|---|---|---|---|
| src/backend/services/agent_service.py:590 | `get_meme_combinations` calls `self.trend_service.get_top_trends(2)`, which `TokenTrendService` does not define. The `AttributeError` is caught, so the call always answers `success=False`, and the monitor never generates or creates a token. | any call, for example with an LLM that would answer correctly | take the two highest-ranked trends from the trend service and combine them | high (not executed) | AgentBackend.AgentService.GetMemeCombinations, AgentBackend.CombinationsAlwaysFail | AgentBackend.AgentService.GetMemeCombinationsFrom, AgentBackend.CombinationShape |
| src/backend/services/agent_service.py:114 | `tools` is bound only inside the `base-sepolia` branch at line 95. On any other network the loop at line 114 raises `NameError`, which line 139 catches, so the wallet address is never stored. | network `base-mainnet` with wallet details `"default address: 0xAB"` | request faucet funds on the testnet only, but read the wallet details on every network | high (not executed) | AgentBackend.AgentService.VerifyWalletSetup, AgentBackend.MainnetAddressNeverStored | AgentBackend.AgentService.VerifyWalletSetupOnAnyNetwork, AgentBackend.IntendedSetupAddress |
| src/backend/services/token_trend_service.py:155 | `first_seen` starts as the naive `datetime.now()` (line 130), and `min` compares it with tweepy's timezone-aware `created_at`. That raises `TypeError` at the first mention, which line 182 catches, so the pass returns [] and verifies nothing. | five tweets from the search, each naming `$ABC` | `first_seen` is the earliest of the analysis time and the mentioning tweets' times, and the qualifying symbols are ranked | high (not executed) | TokenTrendEngine.AnalyzedAsWritten, TokenTrendEngine.AsWrittenLosesTrends | TokenTrendEngine.TokenTrendService.AnalyzeTokenMentions, TokenTrendEngine.RankedComplete |
| src/backend/services/agent_service.py:334 | `manage_funds` awaits `self.toolkit.get_tools()[0].run(...)`. `run` is a synchronous tool call, and this file treats toolkit output as text everywhere else (lines 125, 264, 302, 529). Awaiting the returned text raises `TypeError`, and even a result that could be awaited would be text with no `.get` (lines 336 and 342). Line 346 catches the error, logs it and re-raises, so no deposit or withdrawal ever reports success. | action `deposit`, amount `0.1`, with the tool answering `"Received 0.1 ETH from faucet"` | run the tool (awaiting `arun`, as lines 105, 121, 218, 257 and 298 do), log success and return its result | high (not executed) | AgentBackend.AwaitedAsWritten, AgentBackend.AgentService.ManageFundsAsWritten | AgentBackend.AgentService.ManageFunds, AgentBackend.AgentService.FundsRun |
