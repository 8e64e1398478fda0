/** The backend agent (`AgentService` in src/backend/services/agent_service.py):
    a bounded activity log with websocket subscribers, the running and
    auto-trading flags, meme-token generation and creation, one iteration of
    the trend monitor, and the parsing of wallet-tool output. The CDP tools,
    the LLM and the websockets are inputs: each call's outcome is a parameter.
    Timestamps and activity details are not modelled. */
module AgentBackend {
  import opened Wrappers
  import opened Text
  import Utils

  /** `deque(maxlen=100)`. */
  const ActivityCapacity: nat := 100
  const DefaultNetwork: string := "base-sepolia"
  /** Seconds slept after each creation call, after each monitor iteration,
      and after an iteration that failed. */
  const CreationPause: nat := 30
  const MonitorPeriod: nat := 3600
  const RetryPause: nat := 60

  // ---------------------------------------------------------------------------
  // The activity log
  // ---------------------------------------------------------------------------

  datatype ActivityKind = Info | Success | Warning | Error

  /** An `AgentActivity` without its details and timestamp. */
  datatype Activity = Activity(kind: ActivityKind, message: string)

  /** The last `ActivityCapacity` entries of a history, oldest first. */
  function Window<T>(h: seq<T>): (r: seq<T>)
    ensures |r| == if |h| <= ActivityCapacity then |h| else ActivityCapacity
    ensures forall k :: 0 <= k < |r| ==> r[k] == h[|h| - |r| + k]
  {
    if |h| <= ActivityCapacity then h else h[|h| - ActivityCapacity..]
  }

  /** `deque.append` on a deque with `maxlen=100`: a full log drops its
      oldest entry. */
  function AppendBounded<T>(log: seq<T>, a: T): (r: seq<T>)
    requires |log| <= ActivityCapacity
  {
    if |log| < ActivityCapacity then log + [a] else log[1..] + [a]
  }

  /** Appending to the window of a history gives the window of the longer
      history: the log always holds the latest entries, in order, and never
      more than 100. */
  lemma AppendBoundedWindow<T>(h: seq<T>, a: T)
    ensures AppendBounded(Window(h), a) == Window(h + [a])
    ensures |Window(h + [a])| <= ActivityCapacity
  {
    var w := Window(h);
    var r := AppendBounded(w, a);
    var h2 := h + [a];
    if |h| >= ActivityCapacity {
      assert |r| == |Window(h2)|;
      forall k | 0 <= k < |r| ensures r[k] == Window(h2)[k] {
        if k < |r| - 1 {
          assert r[k] == w[k + 1] == h[|h| - ActivityCapacity + k + 1];
        }
      }
    }
  }

  // ---------------------------------------------------------------------------
  // Tool and LLM outcomes
  // ---------------------------------------------------------------------------

  /** A trend handed to the generator. */
  datatype Trend = Trend(name: string, symbol: string, score: real)

  /** The fields the LLM's JSON reply provides. */
  datatype TokenIdea = TokenIdea(name: string, symbol: string, description: string,
                                 tagline: string, memePotential: string)

  /** What the LLM call produced: it raised, its text was not JSON, the JSON
      lacked a field, or a complete idea. */
  datatype LlmReply = LlmFailed(error: string) | NotJson(error: string) | MissingField(field: string) | Reply(idea: TokenIdea)

  datatype SourceTrend = SourceTrend(symbol: string, score: real)

  /** The `token_params` record. `baseScanUrl` is `None` both before creation
      and when the creation returned no transaction hash. */
  datatype TokenParams = TokenParams(
    name: string, symbol: string, description: string,
    initialSupply: int, maxSupply: int, sourceTrends: seq<SourceTrend>,
    tagline: string, memePotential: string,
    created: bool, transactionHash: Option<string>, network: string, baseScanUrl: Option<string>)

  /** What `wow_create_token` did: the tool is not in the toolkit, it raised,
      or it returned (with the transaction hash, if its result had one). */
  datatype CreationOutcome = ToolMissing | ToolRaised(error: string) | ToolReturned(transactionHash: Option<string>)

  /** What the `get_balance` or `get_wallet_details` tool did. */
  datatype ToolText = TextToolMissing | TextToolRaised(error: string) | TextReturned(text: string)

  /** What the awaited run of the first toolkit tool did for a fund
      movement: it raised, or it returned its result dictionary. This is the
      evidently intended awaitable run; `AwaitedAsWritten` gives what the
      synchronous `run` of the toolkit makes of it. */
  datatype FundsOutcome = RunRaised(error: string) | RunReturned(result: map<string, string>)

  /** What the first toolkit tool's synchronous `run` did: it raised, or it
      returned its text, as every toolkit tool of this service answers. */
  datatype SyncRun = SyncRaised(error: string) | SyncReturned(text: string)

  /** The `TypeError` raised by awaiting a text. */
  const AwaitTextError: string := "object str can't be used in 'await' expression"

  /** `await tool.run(...)` as written: `run` is not a coroutine, so it either
      raises itself or returns a text that cannot be awaited. Either way the
      awaited run raises. */
  function AwaitedAsWritten(run: SyncRun): (r: FundsOutcome)
    ensures r.RunRaised?
    ensures run.SyncRaised? ==> r.error == run.error
    ensures run.SyncReturned? ==> r.error == AwaitTextError
  {
    match run
    case SyncRaised(e) => RunRaised(e)
    case SyncReturned(_) => RunRaised(AwaitTextError)
  }

  /** The wallet data file at start-up. */
  datatype WalletFile = NoWalletFile | WalletFileText(text: string) | WalletFileUnreadable(error: string)

  /** The answer of `get_meme_combinations`. */
  datatype Combination = Recommendations(tokens: seq<TokenParams>) | NoCombination(message: string)

  const ToolNotFound: string := "WOW token creation tool not found"
  const NotEnoughTrends: string := "Not enough trending tokens available"
  /** The message of the `AttributeError` raised at line 590: the trend
      service has no `get_top_trends`. */
  const MissingTopTrends: string := "'TokenTrendService' object has no attribute 'get_top_trends'"
  const AddressMarker: string := "default address:"

  // ---------------------------------------------------------------------------
  // Generated tokens
  // ---------------------------------------------------------------------------

  /** Python's `int()` on a float: truncation toward zero. */
  function Trunc(x: real): (r: int)
    ensures x >= 0.0 ==> r as real <= x < r as real + 1.0
    ensures x < 0.0 ==> r as real - 1.0 < x <= r as real
  {
    if x >= 0.0 then x.Floor else -((-x).Floor)
  }

  /** `int(1_000_000 * (1 + combined_score * 10))` with the average score. */
  function InitialSupply(score1: real, score2: real): int {
    Trunc(1_000_000.0 * (1.0 + (score1 + score2) / 2.0 * 10.0))
  }

  /** Scores in [0, 1] give an initial supply between one and eleven
      million, growing with the scores; 0.5 and 0.5 give six million. */
  lemma SupplyBounds(score1: real, score2: real)
    requires 0.0 <= score1 <= 1.0 && 0.0 <= score2 <= 1.0
    ensures 1_000_000 <= InitialSupply(score1, score2) <= 11_000_000
  {
  }

  lemma SupplyMonotone(a1: real, a2: real, b1: real, b2: real)
    requires 0.0 <= a1 + a2 <= b1 + b2
    ensures InitialSupply(a1, a2) <= InitialSupply(b1, b2)
  {
    var x := 1_000_000.0 * (1.0 + (a1 + a2) / 2.0 * 10.0);
    var y := 1_000_000.0 * (1.0 + (b1 + b2) / 2.0 * 10.0);
    assert x <= y;
  }

  lemma SupplyExample()
    ensures InitialSupply(0.5, 0.5) == 6_000_000
  {
  }

  /** The record `generate_meme_token` builds from the LLM's idea. */
  function TokenFromIdea(trend1: Trend, trend2: Trend, idea: TokenIdea, network: string): TokenParams {
    var supply := InitialSupply(trend1.score, trend2.score);
    TokenParams(idea.name, Upper(Take(idea.symbol, 10)), idea.description, supply, supply * 10,
                [SourceTrend(trend1.symbol, trend1.score), SourceTrend(trend2.symbol, trend2.score)],
                idea.tagline, idea.memePotential, false, None, network, None)
  }

  /** A generated record: its symbol is the LLM's first ten characters
      uppercased, the maximum supply is ten times the initial one, and it is
      not yet created. */
  lemma GeneratedTokenFields(trend1: Trend, trend2: Trend, idea: TokenIdea, network: string)
    ensures var t := TokenFromIdea(trend1, trend2, idea, network);
      && |t.symbol| == (if |idea.symbol| < 10 then |idea.symbol| else 10)
      && (forall k :: 0 <= k < |t.symbol| ==> t.symbol[k] == UpperChar(idea.symbol[k]) && !('a' <= t.symbol[k] <= 'z'))
      && t.maxSupply == 10 * t.initialSupply
      && !t.created && t.transactionHash == None && t.baseScanUrl == None
  {
  }

  /** The error text `generate_meme_token` reports for a failed reply. */
  function GenerationError(reply: LlmReply): string
    requires !reply.Reply?
  {
    match reply
    case LlmFailed(e) => e
    case NotJson(e) => "Failed to parse AI response as JSON: " + e
    case MissingField(f) => "'" + f + "'"
  }

  /** The explorer rule at line 541: Sepolia exactly for `base-sepolia`. */
  function BackendExplorer(network: string): (r: string)
    ensures r == Utils.TestnetExplorer <==> network == "base-sepolia"
  {
    if network == "base-sepolia" then Utils.TestnetExplorer else Utils.MainnetExplorer
  }

  /** The backend and the web client pick the same explorer except for a
      network that is neither `base-mainnet` nor `base-sepolia`. */
  lemma ExplorerRulesDisagree(network: string)
    ensures BackendExplorer(network) != Utils.BaseScanPrefix(network)
        <==> network != "base-mainnet" && network != "base-sepolia"
  {
  }

  /** The record after a creation call that returned: marked created, with
      the hash, the network and a link when the hash is non-empty. */
  function CreatedToken(params: TokenParams, txHash: Option<string>, network: string): (r: TokenParams)
  {
    params.(created := true, transactionHash := txHash, network := network,
            baseScanUrl := if txHash.Some? && txHash.value != ""
                           then Some(BackendExplorer(network) + "/tx/" + txHash.value) else None)
  }

  /** A created record keeps the generated fields; its link exists exactly
      for a non-empty hash and ends with that hash. */
  lemma CreatedTokenFields(params: TokenParams, txHash: Option<string>, network: string)
    ensures var t := CreatedToken(params, txHash, network);
      && t.created && t.transactionHash == txHash && t.network == network
      && t.name == params.name && t.symbol == params.symbol
      && t.initialSupply == params.initialSupply && t.maxSupply == params.maxSupply
      && (t.baseScanUrl.Some? <==> txHash.Some? && txHash.value != "")
      && (t.baseScanUrl.Some? ==> t.baseScanUrl.value[|t.baseScanUrl.value| - |txHash.value|..] == txHash.value)
  {
  }

  /** The activities `create_meme_token` logs for a record and a tool outcome. */
  function CreationLog(params: TokenParams, tool: CreationOutcome): seq<Activity> {
    match tool
    case ToolMissing => [Activity(Error, "Failed to create token " + params.symbol + ": " + ToolNotFound)]
    case ToolRaised(e) =>
      [Activity(Info, "Creating meme token " + params.symbol + "..."),
       Activity(Error, "Failed to create token " + params.symbol + ": " + e)]
    case ToolReturned(_) =>
      [Activity(Info, "Creating meme token " + params.symbol + "..."),
       Activity(Success, "Created meme token " + params.symbol)]
  }

  /** The log of creating each of `recs` in turn, the `k`-th with `tool(k)`. */
  function CreationsLog(recs: seq<TokenParams>, tool: nat -> CreationOutcome): seq<Activity> {
    if recs == [] then []
    else CreationsLog(recs[..|recs| - 1], tool) + CreationLog(recs[|recs| - 1], tool(|recs| - 1))
  }

  /** The records those creations append. */
  function CreatedTokens(recs: seq<TokenParams>, tool: nat -> CreationOutcome, network: string): seq<TokenParams> {
    if recs == [] then []
    else
      var k := |recs| - 1;
      CreatedTokens(recs[..k], tool, network)
        + (if tool(k).ToolReturned? then [CreatedToken(recs[k], tool(k).transactionHash, network)] else [])
  }

  /** What `get_meme_combinations` answers, given what the trend service
      returned and what the LLM replied. */
  function CombinationOf(trends: Result<seq<Trend>, string>, reply: LlmReply, network: string): Combination {
    match trends
    case Err(e) => NoCombination(e)
    case Ok(ts) =>
      if |ts| < 2 then NoCombination(NotEnoughTrends)
      else if reply.Reply? then Recommendations([TokenFromIdea(ts[0], ts[1], reply.idea, network)])
      else NoCombination(GenerationError(reply))
  }

  /** The activities `get_meme_combinations` logs (those of the generator). */
  function CombinationLog(trends: Result<seq<Trend>, string>, reply: LlmReply): seq<Activity> {
    if trends.Err? || |trends.value| < 2 then []
    else if reply.Reply? then
      [Activity(Info, "Generated new meme token: " + Upper(Take(reply.idea.symbol, 10)))]
    else [Activity(Error, "Failed to generate meme token: " + GenerationError(reply))]
  }

  /** A combination succeeds exactly with two trends and a usable reply, and
      then recommends one token built from the first two trends. */
  lemma CombinationShape(trends: Result<seq<Trend>, string>, reply: LlmReply, network: string)
    ensures CombinationOf(trends, reply, network).Recommendations?
        <==> trends.Ok? && |trends.value| >= 2 && reply.Reply?
    ensures CombinationOf(trends, reply, network).Recommendations? ==>
              CombinationOf(trends, reply, network).tokens
                == [TokenFromIdea(trends.value[0], trends.value[1], reply.idea, network)]
    ensures trends.Ok? && |trends.value| < 2 ==> CombinationOf(trends, reply, network) == NoCombination(NotEnoughTrends)
  {
  }

  /** The trend service as called at line 590: the method does not exist, so
      the call raises. */
  function TopTrends(): Result<seq<Trend>, string> {
    Err(MissingTopTrends)
  }

  /** As written, no combination is ever produced, so the monitor never
      creates a token. */
  lemma CombinationsAlwaysFail(reply: LlmReply, network: string)
    ensures CombinationOf(TopTrends(), reply, network) == NoCombination(MissingTopTrends)
    ensures CombinationLog(TopTrends(), reply) == []
  {
  }

  // ---------------------------------------------------------------------------
  // Parsing tool output
  // ---------------------------------------------------------------------------

  /** The ETH amount in a `get_balance` answer: the second line, after its
      first `": "`, stripped; `"0"` when either piece is missing. */
  function ParseEthBalance(result: string): (r: string)
    ensures !Contains(result, "\n") ==> r == "0"
    ensures var lines := Split(result, "\n");
      |lines| >= 2 && !Contains(lines[1], ": ") ==> r == "0"
  {
    var lines := Split(result, "\n");
    if |lines| < 2 then "0"
    else
      var parts := Split(lines[1], ": ");
      SplitSeveralIffContains(lines[1], ": ");
      if |parts| < 2 then "0" else Strip(parts[1])
  }

  /** The documented format: a header line, then `tag: amount`; the amount
      comes back stripped. */
  lemma ParseEthBalanceReads(header: string, tag: string, amount: string)
    requires forall k :: 0 <= k < |header| ==> header[k] != '\n'
    requires forall k :: 0 <= k < |tag| ==> tag[k] != '\n' && tag[k] != ':'
    requires forall k :: 0 <= k < |amount| ==> amount[k] != '\n' && amount[k] != ':'
    ensures ParseEthBalance(header + "\n" + tag + ": " + amount) == Strip(amount)
  {
    var line := tag + ": " + amount;
    BalanceLineAvoidsNewline(tag, amount);
    TwoPieces(header, "\n", line);
    TwoPieces(tag, ": ", amount);
    Regroup(header + "\n", tag, ": ", amount);
    ParseEthBalanceOfPieces(header + "\n" + line, line, amount);
  }

  /** The same with more lines after the amount: only the second line is
      read. */
  lemma ParseEthBalanceReadsFollowed(header: string, tag: string, amount: string, more: string)
    requires forall k :: 0 <= k < |header| ==> header[k] != '\n'
    requires forall k :: 0 <= k < |tag| ==> tag[k] != '\n' && tag[k] != ':'
    requires forall k :: 0 <= k < |amount| ==> amount[k] != '\n' && amount[k] != ':'
    ensures ParseEthBalance(header + "\n" + tag + ": " + amount + "\n" + more) == Strip(amount)
  {
    var line := tag + ": " + amount;
    BalanceLineAvoidsNewline(tag, amount);
    SecondLine(header, line, more);
    TwoPieces(tag, ": ", amount);
    ParseEthBalanceOfPieces(header + "\n" + (line + "\n" + more), line, amount);
    BalanceLines(header, tag, amount, more);
  }

  /** The balance text read as its lines. */
  lemma BalanceLines(header: string, tag: string, amount: string, more: string)
    ensures header + "\n" + tag + ": " + amount + "\n" + more == header + "\n" + ((tag + ": " + amount) + "\n" + more)
  {
  }

  /** The second line of `header \n line \n more`, when the first two hold
      no newline. */
  lemma SecondLine(header: string, line: string, more: string)
    requires forall k :: 0 <= k < |header| ==> header[k] != '\n'
    requires forall k :: 0 <= k < |line| ==> line[k] != '\n'
    ensures |Split(header + "\n" + (line + "\n" + more), "\n")| >= 2
    ensures Split(header + "\n" + (line + "\n" + more), "\n")[1] == line
  {
    var tail := line + "\n" + more;
    FirstSeparatorAfter(header, "\n", tail);
    SplitAfterFirst(header, "\n", tail);
    FirstSeparatorAfter(line, "\n", more);
    SplitAfterFirst(line, "\n", more);
  }

  /** `"Balances:\n eth 0.5"`: the second line has no `": "`, so the answer
      is `"0"`. */
  lemma ParseEthBalanceNoTagExample()
    ensures ParseEthBalance("Balances:\n eth 0.5") == "0"
  {
    var header, line := "Balances:", " eth 0.5";
    assert "Balances:\n eth 0.5" == header + "\n" + line;
    NoTagReadsZero(header, line);
  }

  /** A second line without a colon gives `"0"`. */
  lemma NoTagReadsZero(header: string, line: string)
    requires forall k :: 0 <= k < |header| ==> header[k] != '\n'
    requires forall k :: 0 <= k < |line| ==> line[k] != '\n' && line[k] != ':'
    ensures ParseEthBalance(header + "\n" + line) == "0"
  {
    TwoPieces(header, "\n", line);
    NoSeparatorSplitsToItself(line, ": ");
  }

  /** Concatenation regrouped to the right. */
  lemma Regroup<T>(a: seq<T>, b: seq<T>, c: seq<T>, d: seq<T>)
    ensures a + b + c + d == a + (b + c + d)
  {
  }

  /** A `tag: amount` line built from newline-free parts has no newline. */
  lemma BalanceLineAvoidsNewline(tag: string, amount: string)
    requires forall k :: 0 <= k < |tag| ==> tag[k] != '\n'
    requires forall k :: 0 <= k < |amount| ==> amount[k] != '\n'
    ensures forall k :: 0 <= k < |tag + ": " + amount| ==> (tag + ": " + amount)[k] != '\n'
  {
    var line := tag + ": " + amount;
    forall k | 0 <= k < |line| ensures line[k] != '\n' {
      if k >= |tag| + 2 {
        assert line[k] == amount[k - |tag| - 2];
      }
    }
  }

  /** The balance is the stripped second piece of the second line. */
  lemma ParseEthBalanceOfPieces(result: string, line: string, amount: string)
    requires |Split(result, "\n")| >= 2 && Split(result, "\n")[1] == line
    requires |Split(line, ": ")| == 2 && Split(line, ": ")[1] == amount
    ensures ParseEthBalance(result) == Strip(amount)
  {
  }

  /** `a + sep + b` splits into `a` and `b` when neither holds the first
      character of `sep`. */
  lemma TwoPieces(a: string, sep: string, b: string)
    requires |sep| > 0
    requires forall k :: 0 <= k < |a| ==> a[k] != sep[0]
    requires forall k :: 0 <= k < |b| ==> b[k] != sep[0]
    ensures Split(a + sep + b, sep) == [a, b]
  {
    FirstSeparatorAfter(a, sep, b);
    SplitAfterFirst(a, sep, b);
    NoSeparatorSplitsToItself(b, sep);
  }

  /** A text avoiding the first character of `sep` is one piece. */
  lemma NoSeparatorSplitsToItself(s: string, sep: string)
    requires |sep| > 0
    requires forall k :: 0 <= k < |s| ==> s[k] != sep[0]
    ensures Split(s, sep) == [s]
  {
    forall k | 0 <= k < |s| ensures !OccursAt(s, sep, k) {
      assert k + |sep| <= |s| ==> s[k..k + |sep|][0] == s[k];
    }
    assert IndexOf(s, sep).None?;
  }

  /** `"Balances for wallet abc123:\n  default: 0.5"` gives `"0.5"`. */
  lemma ParseEthBalanceExample()
    ensures ParseEthBalance("Balances for wallet abc123:\n  default: 0.5") == "0.5"
  {
    var header := "Balances for wallet abc123:";
    ExampleBalanceParts(header, "  default", "0.5");
    ParseEthBalanceReads(header, "  default", "0.5");
    ExampleBalanceText(header);
    ExampleBalanceStrip("0.5");
  }

  lemma ExampleBalanceStrip(amount: string)
    requires amount == "0.5"
    ensures Strip(amount) == "0.5"
  {
    assert LeadingSpaces(amount) == 0;
    assert TrimEnd(amount) == amount;
  }

  lemma ExampleBalanceParts(header: string, tag: string, amount: string)
    requires header == "Balances for wallet abc123:" && tag == "  default" && amount == "0.5"
    ensures forall k :: 0 <= k < |header| ==> header[k] != '\n'
    ensures forall k :: 0 <= k < |tag| ==> tag[k] != '\n' && tag[k] != ':'
    ensures forall k :: 0 <= k < |amount| ==> amount[k] != '\n' && amount[k] != ':'
  {
  }

  lemma ExampleBalanceText(header: string)
    requires header == "Balances for wallet abc123:"
    ensures "Balances for wallet abc123:\n  default: 0.5" == header + "\n" + "  default" + ": " + "0.5"
  {
  }

  /** The wallet address in a `get_wallet_details` answer: the text after the
      last `default address:`, stripped; nothing without the marker. */
  function ParseWalletAddress(info: string): (r: Option<string>)
    ensures r.Some? <==> Contains(info, AddressMarker)
    ensures r.Some? ==> !Contains(r.value, AddressMarker)
    ensures r.Some? ==> exists k :: OccursAt(info, AddressMarker, k)
                                    && !Contains(info[k + |AddressMarker|..], AddressMarker)
                                    && r.value == Strip(info[k + |AddressMarker|..])
  {
    if Contains(info, AddressMarker) then
      AddressAfterLastMarker(info);
      Some(Strip(LastPiece(info, AddressMarker)))
    else None
  }

  /** The text after the last marker has no marker, and neither has its
      stripped form. */
  lemma AddressAfterLastMarker(info: string)
    requires Contains(info, AddressMarker)
    ensures !Contains(Strip(LastPiece(info, AddressMarker)), AddressMarker)
    ensures exists k :: OccursAt(info, AddressMarker, k)
                        && !Contains(info[k + |AddressMarker|..], AddressMarker)
                        && Strip(LastPiece(info, AddressMarker)) == Strip(info[k + |AddressMarker|..])
  {
    var last := LastPiece(info, AddressMarker);
    StripAvoids(last, AddressMarker);
    SplitLastIsSuffix(info, AddressMarker);
    var k := |info| - |last| - |AddressMarker|;
    assert OccursAt(info, AddressMarker, k) && info[k + |AddressMarker|..] == last;
  }

  lemma ParseWalletAddressExample()
    ensures ParseWalletAddress("default address: 0xAB") == Some("0xAB")
  {
    var rest := " 0xAB";
    ExampleAddressText(rest);
    ExampleAddressPieces(rest);
    ParseWalletAddressOfPieces(AddressMarker + rest, rest);
    ExampleAddressStrip(rest);
  }

  lemma ExampleAddressPieces(rest: string)
    requires forall k :: 0 <= k < |rest| ==> rest[k] != AddressMarker[0]
    ensures Contains(AddressMarker + rest, AddressMarker)
    ensures Split(AddressMarker + rest, AddressMarker) == [[], rest]
  {
    FirstSeparatorAfter([], AddressMarker, rest);
    TwoPieces([], AddressMarker, rest);
    assert [] + AddressMarker + rest == AddressMarker + rest;
  }

  lemma ExampleAddressStrip(rest: string)
    requires rest == " 0xAB"
    ensures Strip(rest) == "0xAB"
  {
    assert LeadingSpaces(rest) == 1;
    assert rest[1..] == "0xAB";
    assert TrimEnd("0xAB") == "0xAB";
  }

  /** A text holding the marker once gives the stripped text after it. */
  lemma ParseWalletAddressOfPieces(info: string, rest: string)
    requires Contains(info, AddressMarker) && Split(info, AddressMarker) == [[], rest]
    ensures ParseWalletAddress(info) == Some(Strip(rest))
  {
  }

  lemma ExampleAddressText(rest: string)
    requires rest == " 0xAB"
    ensures "default address: 0xAB" == AddressMarker + rest
    ensures forall k :: 0 <= k < |rest| ==> rest[k] != AddressMarker[0]
  {
  }

  /** The balance `get_eth_balance` reports: a missing or failing tool gives
      `"0"`, an answer is parsed. */
  function EthBalance(tool: ToolText): (r: string)
    ensures !tool.TextReturned? ==> r == "0"
    ensures tool.TextReturned? ==> r == ParseEthBalance(tool.text)
  {
    match tool
    case TextReturned(t) => ParseEthBalance(t)
    case _ => "0"
  }

  /** The raw balance `get_wallet_info` reports: the tool's text unless it
      is missing, failing or empty, then `"0"`. */
  function WalletBalance(tool: ToolText): (r: string)
    ensures r != ""
    ensures tool.TextReturned? && tool.text != "" ==> r == tool.text
  {
    match tool
    case TextReturned(t) => if t != "" then t else "0"
    case _ => "0"
  }

  /** The action dispatch of `manage_funds`: the tool command for a deposit
      or a withdrawal, `ValueError("Invalid action")` otherwise. */
  function FundsCommand(action: string, amount: string): (r: Result<string, string>)
    ensures r.Ok? <==> action == "deposit" || action == "withdraw"
    ensures r.Err? ==> r.error == "Invalid action"
  {
    if action == "deposit" then Ok("request_faucet_funds " + amount)
    else if action == "withdraw" then Ok("transfer " + amount)
    else Err("Invalid action")
  }

  /** The address the wallet-details step finds in the tool's answer. */
  function IntendedSetupAddress(details: ToolText): (r: Option<string>)
    ensures r.Some? <==> details.TextReturned? && Contains(details.text, AddressMarker)
  {
    if details.TextReturned? then ParseWalletAddress(details.text) else None
  }

  /** The address `_verify_wallet_setup` stores as written: only on
      `base-sepolia`, because elsewhere the tool list it reads is unbound. */
  function SetupAddress(network: string, details: ToolText): (r: Option<string>)
    ensures network != "base-sepolia" ==> r == None
    ensures network == "base-sepolia" ==> r == IntendedSetupAddress(details)
  {
    if network == "base-sepolia" then IntendedSetupAddress(details) else None
  }

  /** On mainnet a well-formed wallet answer is ignored as written, while
      the intended setup would store its address. */
  lemma MainnetAddressNeverStored()
    ensures SetupAddress("base-mainnet", TextReturned("default address: 0xAB")) == None
    ensures IntendedSetupAddress(TextReturned("default address: 0xAB")) == Some("0xAB")
  {
    ParseWalletAddressExample();
  }

  /** One ETH holding as `get_token_holdings` lists it. */
  datatype Holding = Holding(symbol: string, balance: string, tokenAddress: string)

  // ---------------------------------------------------------------------------
  // The service object
  // ---------------------------------------------------------------------------

  class AgentService {
    /** `NETWORK_ID`, read from the environment. */
    const network: string
    var walletAddress: Option<string>
    var generatedTokens: seq<TokenParams>
    var isRunning: bool
    var autoTrading: bool
    /** The deque of recent activities. */
    var activities: seq<Activity>
    /** Every activity ever logged, oldest first. */
    ghost var history: seq<Activity>
    /** The registered websockets, by id. */
    var connections: set<nat>
    /** The notifications handed to the event loop, in order. */
    var scheduled: seq<Activity>
    /** The number of monitor tasks spawned. */
    var monitorTasks: nat

    /** The log is the latest part of the history. */
    ghost predicate Valid()
      reads this
    {
      activities == Window(history)
    }

    /** Since the state with history `h0` and notifications `s0`: the
        history only grew, and the notifications scheduled meanwhile are the
        activities logged meanwhile when some client is connected, none
        otherwise. */
    ghost predicate NotifiedSince(h0: seq<Activity>, s0: seq<Activity>)
      reads this
    {
      h0 <= history && scheduled == s0 + (if connections == {} then [] else history[|h0|..])
    }

    /** `__init__` after the toolkit is set up: both flags off, no
        subscribers, then the wallet-file check and the success entry. */
    constructor(network: string, walletFile: WalletFile)
      ensures Valid()
      ensures this.network == network && walletAddress == None && generatedTokens == []
      ensures !isRunning && !autoTrading && connections == {} && scheduled == [] && monitorTasks == 0
      ensures history == (match walletFile
                          case WalletFileText(t) => if t != "" then [Activity(Info, "Loaded existing wallet data")] else []
                          case WalletFileUnreadable(_) => [Activity(Warning, "No existing wallet data found")]
                          case NoWalletFile => [])
                         + [Activity(Info, "Agent service initialized successfully")]
    {
      this.network := network;
      walletAddress := None;
      generatedTokens := [];
      isRunning := false;
      autoTrading := false;
      activities := [];
      history := [];
      connections := {};
      scheduled := [];
      monitorTasks := 0;
      new;
      match walletFile {
        case WalletFileText(t) =>
          if t != "" {
            AddActivity(Info, "Loaded existing wallet data");
          }
        case WalletFileUnreadable(_) =>
          AddActivity(Warning, "No existing wallet data found");
        case NoWalletFile =>
      }
      AddActivity(Info, "Agent service initialized successfully");
    }

    /** `add_activity`: append to the bounded log and, when anyone is
        subscribed, schedule a notification. */
    method AddActivity(kind: ActivityKind, message: string)
      modifies this
      requires Valid()
      ensures Valid()
      ensures history == old(history) + [Activity(kind, message)]
      ensures activities == AppendBounded(old(activities), Activity(kind, message))
      ensures scheduled == old(scheduled) + (if connections != {} then [Activity(kind, message)] else [])
      ensures connections == old(connections) && walletAddress == old(walletAddress)
      ensures generatedTokens == old(generatedTokens) && monitorTasks == old(monitorTasks)
      ensures isRunning == old(isRunning) && autoTrading == old(autoTrading)
    {
      var a := Activity(kind, message);
      AppendBoundedWindow(history, a);
      activities := AppendBounded(activities, a);
      history := history + [a];
      if connections != {} {
        scheduled := scheduled + [a];
      }
    }

    /** `_notify_clients`: try every subscriber, even after a failure, then
        drop exactly those whose send failed. `attempted` lists the
        subscribers tried, each once. */
    method NotifyClients(activity: Activity, sendOk: nat -> bool) returns (attempted: seq<nat>)
      modifies this
      ensures connections == old(connections) - set c | c in old(connections) && !sendOk(c)
      ensures forall c :: c in attempted <==> c in old(connections)
      ensures forall i, j :: 0 <= i < j < |attempted| ==> attempted[i] != attempted[j]
      ensures activities == old(activities) && history == old(history) && scheduled == old(scheduled)
      ensures walletAddress == old(walletAddress) && generatedTokens == old(generatedTokens)
      ensures isRunning == old(isRunning) && autoTrading == old(autoTrading) && monitorTasks == old(monitorTasks)
    {
      var remaining := connections;
      var dead: set<nat> := {};
      attempted := [];
      while remaining != {}
        invariant remaining <= old(connections)
        invariant dead == set c | c in old(connections) - remaining && !sendOk(c)
        invariant forall c :: c in attempted <==> c in old(connections) - remaining
        invariant forall i, j :: 0 <= i < j < |attempted| ==> attempted[i] != attempted[j]
        decreases remaining
      {
        var ws :| ws in remaining;
        if !sendOk(ws) {
          dead := dead + {ws};
        }
        attempted := attempted + [ws];
        remaining := remaining - {ws};
      }
      connections := connections - dead;
    }

    /** A websocket connects (src/backend/app.py). */
    method AddConnection(id: nat)
      modifies this
      ensures connections == old(connections) + {id}
      ensures activities == old(activities) && history == old(history) && scheduled == old(scheduled)
      ensures isRunning == old(isRunning) && autoTrading == old(autoTrading)
      ensures walletAddress == old(walletAddress) && generatedTokens == old(generatedTokens) && monitorTasks == old(monitorTasks)
    {
      connections := connections + {id};
    }

    /** `start`: only when stopped, set the flag, log once and spawn one
        monitor task; otherwise nothing happens. */
    method Start()
      modifies this
      requires Valid()
      ensures Valid()
      ensures old(isRunning) ==> unchanged(this)
      ensures !old(isRunning) ==> isRunning && history == old(history) + [Activity(Info, "Agent started")]
                                  && monitorTasks == old(monitorTasks) + 1
      ensures autoTrading == old(autoTrading) && connections == old(connections)
      ensures walletAddress == old(walletAddress) && generatedTokens == old(generatedTokens)
      ensures NotifiedSince(old(history), old(scheduled))
    {
      if !isRunning {
        isRunning := true;
        AddActivity(Info, "Agent started");
        monitorTasks := monitorTasks + 1;
      }
    }

    /** `stop`: only when running, clear the flag and log once. */
    method Stop()
      modifies this
      requires Valid()
      ensures Valid()
      ensures !old(isRunning) ==> unchanged(this)
      ensures old(isRunning) ==> !isRunning && history == old(history) + [Activity(Info, "Agent stopped")]
      ensures autoTrading == old(autoTrading) && monitorTasks == old(monitorTasks) && connections == old(connections)
      ensures walletAddress == old(walletAddress) && generatedTokens == old(generatedTokens)
      ensures NotifiedSince(old(history), old(scheduled))
    {
      if isRunning {
        isRunning := false;
        AddActivity(Info, "Agent stopped");
      }
    }

    /** `set_auto_trading`: set the flag and log on every call, even when the
        value does not change. */
    method SetAutoTrading(enabled: bool)
      modifies this
      requires Valid()
      ensures Valid()
      ensures autoTrading == enabled && isRunning == old(isRunning)
      ensures history == old(history) + [Activity(Info, if enabled then "Auto trading enabled" else "Auto trading disabled")]
      ensures walletAddress == old(walletAddress) && connections == old(connections) && monitorTasks == old(monitorTasks)
      ensures generatedTokens == old(generatedTokens)
      ensures NotifiedSince(old(history), old(scheduled))
    {
      autoTrading := enabled;
      AddActivity(Info, if enabled then "Auto trading enabled" else "Auto trading disabled");
    }

    /** `get_state`: both flags. */
    method GetState() returns (running: bool, trading: bool)
      ensures running == isRunning && trading == autoTrading
    {
      running, trading := isRunning, autoTrading;
    }

    /** `get_generated_tokens`. */
    method GetGeneratedTokens() returns (tokens: seq<TokenParams>)
      ensures tokens == generatedTokens
    {
      tokens := generatedTokens;
    }

    /** `_verify_wallet_setup` as written: on `base-sepolia`, read the
        wallet details and store the address when the marker is present. On
        any other network the method fails before reading them (the tool
        list is only bound in the Sepolia branch) and nothing changes. */
    method VerifyWalletSetup(details: ToolText)
      modifies this
      requires Valid()
      ensures Valid()
      ensures SetupAddress(network, details).None? ==> unchanged(this)
      ensures SetupAddress(network, details).Some? ==>
                var a := SetupAddress(network, details).value;
                walletAddress == Some(a)
                && history == old(history) + [Activity(Info, "Wallet initialized with address: " + a)]
      ensures isRunning == old(isRunning) && autoTrading == old(autoTrading)
      ensures generatedTokens == old(generatedTokens) && connections == old(connections) && monitorTasks == old(monitorTasks)
      ensures NotifiedSince(old(history), old(scheduled))
    {
      if network == "base-sepolia" {
        StoreAddress(details);
      }
    }

    /** `_verify_wallet_setup` as evidently intended: the faucet request is
        for the testnet only, but the wallet details are read on every
        network. */
    method VerifyWalletSetupOnAnyNetwork(details: ToolText)
      modifies this
      requires Valid()
      ensures Valid()
      ensures IntendedSetupAddress(details).None? ==> unchanged(this)
      ensures IntendedSetupAddress(details).Some? ==>
                var a := IntendedSetupAddress(details).value;
                walletAddress == Some(a)
                && history == old(history) + [Activity(Info, "Wallet initialized with address: " + a)]
      ensures isRunning == old(isRunning) && autoTrading == old(autoTrading)
      ensures generatedTokens == old(generatedTokens) && connections == old(connections) && monitorTasks == old(monitorTasks)
      ensures NotifiedSince(old(history), old(scheduled))
    {
      StoreAddress(details);
    }

    /** The wallet-details step: keep the address found in the tool's text. */
    method StoreAddress(details: ToolText)
      modifies this
      requires Valid()
      ensures Valid()
      ensures IntendedSetupAddress(details).None? ==> unchanged(this)
      ensures IntendedSetupAddress(details).Some? ==>
                var a := IntendedSetupAddress(details).value;
                walletAddress == Some(a)
                && history == old(history) + [Activity(Info, "Wallet initialized with address: " + a)]
      ensures isRunning == old(isRunning) && autoTrading == old(autoTrading)
      ensures generatedTokens == old(generatedTokens) && connections == old(connections) && monitorTasks == old(monitorTasks)
      ensures NotifiedSince(old(history), old(scheduled))
    {
      if details.TextReturned? {
        match ParseWalletAddress(details.text) {
          case Some(a) =>
            AddActivity(Info, "Wallet initialized with address: " + a);
            walletAddress := Some(a);
          case None =>
        }
      }
    }

    /** `get_wallet_info`: the stored address, the raw balance and the
        network. */
    method GetWalletInfo(balance: ToolText) returns (address: Option<string>, amount: string, net: string)
      ensures address == walletAddress && net == network
      ensures amount == WalletBalance(balance) && amount != ""
    {
      address, amount, net := walletAddress, WalletBalance(balance), network;
    }

    /** `get_eth_balance`. */
    method GetEthBalance(balance: ToolText) returns (amount: string)
      ensures amount == EthBalance(balance)
      ensures balance.TextReturned? && !Contains(balance.text, "\n") ==> amount == "0"
    {
      amount := EthBalance(balance);
    }

    /** `get_token_holdings`: only the ETH line; a missing tool logs an error. */
    method GetTokenHoldings(balance: ToolText) returns (holdings: seq<Holding>)
      modifies this
      requires Valid()
      ensures Valid()
      ensures balance.TextReturned? ==> holdings == [Holding("ETH", ParseEthBalance(balance.text), "native")]
      ensures !balance.TextReturned? ==> holdings == []
      ensures balance.TextToolMissing? ==>
                history == old(history) + [Activity(Error, "Error getting token holdings: Balance tool not found")]
      ensures !balance.TextToolMissing? ==> history == old(history)
      ensures generatedTokens == old(generatedTokens) && isRunning == old(isRunning) && autoTrading == old(autoTrading)
      ensures walletAddress == old(walletAddress) && connections == old(connections) && monitorTasks == old(monitorTasks)
      ensures NotifiedSince(old(history), old(scheduled))
    {
      match balance
      case TextToolMissing =>
        AddActivity(Error, "Error getting token holdings: Balance tool not found");
        holdings := [];
      case TextToolRaised(_) =>
        holdings := [];
      case TextReturned(t) =>
        holdings := [Holding("ETH", ParseEthBalance(t), "native")];
    }

    /** `manage_funds`: dispatch the action to the first tool, log the
        attempt and the outcome, and re-raise any failure (as `Err`). */
    method ManageFunds(action: string, amount: string, run: FundsOutcome) returns (r: Result<map<string, string>, string>)
      modifies this
      requires Valid()
      ensures Valid()
      ensures FundsCommand(action, amount).Err? ==>
                r == Err("Invalid action")
                && history == old(history) + [Activity(Error, "Fund management error: Invalid action")]
      ensures FundsCommand(action, amount).Ok? && run.RunRaised? ==> r == Err(run.error)
      ensures FundsCommand(action, amount).Ok? && run.RunReturned? ==> r == Ok(run.result)
      ensures r.Err? ==> |old(history)| < |history| && history[|history| - 1] == Activity(Error, "Fund management error: " + r.error)
      ensures run.RunRaised? ==> forall k :: |old(history)| <= k < |history| ==> history[k].kind != Success
      ensures action == "deposit" ==>
                history == old(history) + [Activity(Info, "Initiating deposit of " + amount + " ETH...")]
                  + [if run.RunReturned? then Activity(Success, "Successfully deposited " + amount + " ETH")
                     else Activity(Error, "Fund management error: " + run.error)]
      ensures action == "withdraw" ==>
                history == old(history) + [Activity(Info, "Initiating withdrawal of " + amount + " ETH...")]
                  + [if run.RunReturned? then Activity(Success, "Successfully withdrawn " + amount + " ETH")
                     else Activity(Error, "Fund management error: " + run.error)]
      ensures isRunning == old(isRunning) && autoTrading == old(autoTrading) && generatedTokens == old(generatedTokens)
      ensures walletAddress == old(walletAddress) && connections == old(connections) && monitorTasks == old(monitorTasks)
      ensures NotifiedSince(old(history), old(scheduled))
    {
      if action == "deposit" {
        r := FundsMove("Initiating deposit of " + amount + " ETH...", "Successfully deposited " + amount + " ETH", run);
      } else if action == "withdraw" {
        r := FundsMove("Initiating withdrawal of " + amount + " ETH...", "Successfully withdrawn " + amount + " ETH", run);
      } else {
        AddActivity(Error, "Fund management error: Invalid action");
        r := Err("Invalid action");
      }
    }

    /** One accepted fund movement: log its start, then run the tool. */
    method FundsMove(start: string, success: string, run: FundsOutcome) returns (r: Result<map<string, string>, string>)
      modifies this
      requires Valid()
      ensures Valid()
      ensures run.RunRaised? ==> r == Err(run.error)
      ensures run.RunReturned? ==> r == Ok(run.result)
      ensures history == old(history) + [Activity(Info, start)]
                + [if run.RunReturned? then Activity(Success, success)
                   else Activity(Error, "Fund management error: " + run.error)]
      ensures r.Err? ==> |old(history)| < |history| && history[|history| - 1] == Activity(Error, "Fund management error: " + r.error)
      ensures run.RunRaised? ==> forall k :: |old(history)| <= k < |history| ==> history[k].kind != Success
      ensures isRunning == old(isRunning) && autoTrading == old(autoTrading) && generatedTokens == old(generatedTokens)
      ensures walletAddress == old(walletAddress) && connections == old(connections) && monitorTasks == old(monitorTasks)
      ensures NotifiedSince(old(history), old(scheduled))
    {
      AddActivity(Info, start);
      ghost var h, n := history, scheduled;
      r := FundsRun(run, success);
      NoticesChain(old(history), h, history, old(scheduled), n, scheduled, connections != {});
      NoSuccessSince(old(history), h, history, run.RunRaised?);
    }

    /** The tool run of `manage_funds` and its outcome entry. */
    method FundsRun(run: FundsOutcome, success: string) returns (r: Result<map<string, string>, string>)
      modifies this
      requires Valid()
      ensures Valid()
      ensures run.RunRaised? ==> r == Err(run.error)
                                 && history == old(history) + [Activity(Error, "Fund management error: " + run.error)]
      ensures run.RunReturned? ==> r == Ok(run.result)
                                   && history == old(history) + [Activity(Success, success)]
      ensures r.Err? ==> |old(history)| < |history| && history[|history| - 1] == Activity(Error, "Fund management error: " + r.error)
      ensures run.RunRaised? ==> forall k :: |old(history)| <= k < |history| ==> history[k].kind != Success
      ensures isRunning == old(isRunning) && autoTrading == old(autoTrading) && generatedTokens == old(generatedTokens)
      ensures walletAddress == old(walletAddress) && connections == old(connections) && monitorTasks == old(monitorTasks)
      ensures NotifiedSince(old(history), old(scheduled))
    {
      match run
      case RunRaised(e) =>
        AddActivity(Error, "Fund management error: " + e);
        r := Err(e);
      case RunReturned(result) =>
        AddActivity(Success, success);
        r := Ok(result);
    }

    /** `manage_funds` as written: the run is awaited although it is
        synchronous, so no fund movement ever succeeds. Every call answers
        with an error and logs no success. */
    method ManageFundsAsWritten(action: string, amount: string, run: SyncRun) returns (r: Result<map<string, string>, string>)
      modifies this
      requires Valid()
      ensures Valid()
      ensures r.Err?
      ensures FundsCommand(action, amount).Ok? ==> r == Err(AwaitedAsWritten(run).error)
      ensures |old(history)| < |history|
      ensures forall k :: |old(history)| <= k < |history| ==> history[k].kind != Success
      ensures history[|history| - 1] == Activity(Error, "Fund management error: " + r.error)
      ensures isRunning == old(isRunning) && autoTrading == old(autoTrading) && generatedTokens == old(generatedTokens)
      ensures walletAddress == old(walletAddress) && connections == old(connections) && monitorTasks == old(monitorTasks)
      ensures NotifiedSince(old(history), old(scheduled))
    {
      r := ManageFunds(action, amount, AwaitedAsWritten(run));
    }

    /** `generate_meme_token`: build the record from the LLM's idea, append
        it to the generated tokens and log it; a failed reply logs the error. */
    method GenerateMemeToken(trend1: Trend, trend2: Trend, reply: LlmReply) returns (r: Result<TokenParams, string>)
      modifies this
      requires Valid()
      ensures Valid()
      ensures reply.Reply? ==> r == Ok(TokenFromIdea(trend1, trend2, reply.idea, network))
                               && generatedTokens == old(generatedTokens) + [r.value]
      ensures !reply.Reply? ==> r == Err(GenerationError(reply)) && generatedTokens == old(generatedTokens)
      ensures history == old(history) + CombinationLog(Ok([trend1, trend2]), reply)
      ensures isRunning == old(isRunning) && autoTrading == old(autoTrading)
      ensures walletAddress == old(walletAddress) && connections == old(connections) && monitorTasks == old(monitorTasks)
      ensures NotifiedSince(old(history), old(scheduled))
    {
      match reply
      case Reply(idea) =>
        var token := TokenFromIdea(trend1, trend2, idea, network);
        generatedTokens := generatedTokens + [token];
        AddActivity(Info, "Generated new meme token: " + token.symbol);
        r := Ok(token);
      case _ =>
        AddActivity(Error, "Failed to generate meme token: " + GenerationError(reply));
        r := Err(GenerationError(reply));
    }

    /** `create_meme_token`: call the creation tool; when it returns, mark the
        record created, append it and log success; otherwise log the error. */
    method CreateMemeToken(params: TokenParams, tool: CreationOutcome) returns (r: Result<TokenParams, string>)
      modifies this
      requires Valid()
      ensures Valid()
      ensures tool.ToolMissing? ==> r == Err(ToolNotFound)
      ensures tool.ToolRaised? ==> r == Err(tool.error)
      ensures tool.ToolReturned? ==> r == Ok(CreatedToken(params, tool.transactionHash, network))
      ensures generatedTokens == old(generatedTokens) + (if r.Ok? then [r.value] else [])
      ensures history == old(history) + CreationLog(params, tool)
      ensures isRunning == old(isRunning) && autoTrading == old(autoTrading)
      ensures walletAddress == old(walletAddress) && connections == old(connections) && monitorTasks == old(monitorTasks)
      ensures NotifiedSince(old(history), old(scheduled))
    {
      match tool
      case ToolMissing =>
        AddActivity(Error, "Failed to create token " + params.symbol + ": " + ToolNotFound);
        r := Err(ToolNotFound);
      case ToolRaised(e) =>
        AddActivity(Info, "Creating meme token " + params.symbol + "...");
        AddActivity(Error, "Failed to create token " + params.symbol + ": " + e);
        r := Err(e);
      case ToolReturned(tx) =>
        AddActivity(Info, "Creating meme token " + params.symbol + "...");
        var token := CreatedToken(params, tx, network);
        generatedTokens := generatedTokens + [token];
        AddActivity(Success, "Created meme token " + params.symbol);
        r := Ok(token);
    }

    /** The body of `get_meme_combinations` once the trend service has
        answered `trends`: fewer than two trends fail, otherwise one token is
        generated from the first two. */
    method GetMemeCombinationsFrom(trends: Result<seq<Trend>, string>, reply: LlmReply) returns (r: Combination)
      modifies this
      requires Valid()
      ensures Valid()
      ensures r == CombinationOf(trends, reply, network)
      ensures history == old(history) + CombinationLog(trends, reply)
      ensures generatedTokens == old(generatedTokens) + (if r.Recommendations? then r.tokens else [])
      ensures isRunning == old(isRunning) && autoTrading == old(autoTrading)
      ensures walletAddress == old(walletAddress) && connections == old(connections) && monitorTasks == old(monitorTasks)
      ensures NotifiedSince(old(history), old(scheduled))
    {
      match trends
      case Err(e) =>
        r := NoCombination(e);
      case Ok(ts) =>
        if |ts| < 2 {
          r := NoCombination(NotEnoughTrends);
        } else {
          var g := GenerateMemeToken(ts[0], ts[1], reply);
          assert [ts[0], ts[1]][0] == ts[0];
          match g
          case Ok(token) => r := Recommendations([token]);
          case Err(e) => r := NoCombination(e);
        }
    }

    /** `get_meme_combinations` as written: the trend service is asked for a
        method it does not have, so the answer is always a failure and
        nothing is logged or generated. */
    method GetMemeCombinations(reply: LlmReply) returns (r: Combination)
      modifies this
      requires Valid()
      ensures Valid()
      ensures r == NoCombination(MissingTopTrends)
      ensures history == old(history) && generatedTokens == old(generatedTokens)
      ensures activities == old(activities) && scheduled == old(scheduled)
      ensures isRunning == old(isRunning) && autoTrading == old(autoTrading)
      ensures walletAddress == old(walletAddress) && connections == old(connections) && monitorTasks == old(monitorTasks)
    {
      r := GetMemeCombinationsFrom(TopTrends(), reply);
      assert history[|old(history)|..] == [];
    }

    /** One pass of the `monitor_trends` loop: log, ask for combinations and,
        with auto trading on, create each recommended token (the `k`-th with
        tool outcome `tool(k)`), pausing 30 s after each; then sleep an hour.
        `sleeps` lists the pauses in order. */
    method MonitorIteration(trends: Result<seq<Trend>, string>, reply: LlmReply, tool: nat -> CreationOutcome)
      returns (sleeps: seq<nat>)
      modifies this
      requires Valid()
      ensures Valid()
      ensures var c := CombinationOf(trends, reply, network);
        var recs := if c.Recommendations? && autoTrading then c.tokens else [];
        && |sleeps| == |recs| + 1
        && (forall k :: 0 <= k < |recs| ==> sleeps[k] == CreationPause)
        && sleeps[|recs|] == MonitorPeriod
        && history == old(history) + [Activity(Info, "Analyzing token trends...")]
                      + CombinationLog(trends, reply) + CreationsLog(recs, tool)
        && generatedTokens == old(generatedTokens) + (if c.Recommendations? then c.tokens else [])
                              + CreatedTokens(recs, tool, network)
      ensures isRunning == old(isRunning) && autoTrading == old(autoTrading)
      ensures walletAddress == old(walletAddress) && connections == old(connections) && monitorTasks == old(monitorTasks)
      ensures NotifiedSince(old(history), old(scheduled))
    {
      AddActivity(Info, "Analyzing token trends...");
      ghost var h1, s1 := history, scheduled;
      var analysis := GetMemeCombinationsFrom(trends, reply);
      ghost var h2, s2 := history, scheduled;
      var recs := if analysis.Recommendations? && autoTrading then analysis.tokens else [];
      sleeps := CreateAll(recs, tool);
      NoticesChain(old(history), h1, h2, old(scheduled), s1, s2, connections != {});
      NoticesChain(old(history), h2, history, old(scheduled), s2, scheduled, connections != {});
      sleeps := sleeps + [MonitorPeriod];
    }

    /** The creation loop of `monitor_trends`: each recommendation in turn,
        the `k`-th with tool outcome `tool(k)`, a failure not stopping the
        rest, with a 30 s pause after each. */
    method CreateAll(recs: seq<TokenParams>, tool: nat -> CreationOutcome) returns (sleeps: seq<nat>)
      modifies this
      requires Valid()
      ensures Valid()
      ensures |sleeps| == |recs| && forall k :: 0 <= k < |recs| ==> sleeps[k] == CreationPause
      ensures history == old(history) + CreationsLog(recs, tool)
      ensures generatedTokens == old(generatedTokens) + CreatedTokens(recs, tool, network)
      ensures isRunning == old(isRunning) && autoTrading == old(autoTrading)
      ensures walletAddress == old(walletAddress) && connections == old(connections) && monitorTasks == old(monitorTasks)
      ensures NotifiedSince(old(history), old(scheduled))
    {
      sleeps := [];
      var i := 0;
      while i < |recs|
        invariant 0 <= i <= |recs|
        invariant Valid()
        invariant |sleeps| == i && forall k :: 0 <= k < i ==> sleeps[k] == CreationPause
        invariant history == old(history) + CreationsLog(recs[..i], tool)
        invariant generatedTokens == old(generatedTokens) + CreatedTokens(recs[..i], tool, network)
        invariant isRunning == old(isRunning) && autoTrading == old(autoTrading)
        invariant walletAddress == old(walletAddress) && connections == old(connections) && monitorTasks == old(monitorTasks)
        invariant NotifiedSince(old(history), old(scheduled))
      {
        ghost var h, n := history, scheduled;
        var _ := CreateMemeToken(recs[i], tool(i));
        NoticesChain(old(history), h, history, old(scheduled), n, scheduled, connections != {});
        CreationsStep(recs, i, tool, network);
        ExtendBy(old(history), CreationsLog(recs[..i], tool), CreationLog(recs[i], tool(i)));
        ExtendBy(old(generatedTokens), CreatedTokens(recs[..i], tool, network),
                 if tool(i).ToolReturned? then [CreatedToken(recs[i], tool(i).transactionHash, network)] else []);
        sleeps := sleeps + [CreationPause];
        i := i + 1;
      }
      assert recs[..i] == recs;
    }
  }

  /** Notifications scheduled over two consecutive spans of the history are
      those scheduled over the whole span. */
  lemma NoticesChain(h0: seq<Activity>, h1: seq<Activity>, h2: seq<Activity>,
                     s0: seq<Activity>, s1: seq<Activity>, s2: seq<Activity>, on: bool)
    requires h0 <= h1 <= h2
    requires s1 == s0 + (if on then h1[|h0|..] else [])
    requires s2 == s1 + (if on then h2[|h1|..] else [])
    ensures s2 == s0 + (if on then h2[|h0|..] else [])
  {
    if on {
      assert h2[|h0|..] == h1[|h0|..] + h2[|h1|..];
    }
  }

  /** Appending in two steps appends the concatenation. */
  lemma ExtendBy<T>(base: seq<T>, done: seq<T>, step: seq<T>)
    ensures base + done + step == base + (done + step)
  {
  }

  /** Creating one more recommendation extends the log and the records by
      that one creation. */
  lemma CreationsStep(recs: seq<TokenParams>, i: nat, tool: nat -> CreationOutcome, network: string)
    requires i < |recs|
    ensures CreationsLog(recs[..i + 1], tool) == CreationsLog(recs[..i], tool) + CreationLog(recs[i], tool(i))
    ensures CreatedTokens(recs[..i + 1], tool, network)
         == CreatedTokens(recs[..i], tool, network)
            + (if tool(i).ToolReturned? then [CreatedToken(recs[i], tool(i).transactionHash, network)] else [])
  {
    assert recs[..i + 1][..i] == recs[..i];
  }

  /** Created tokens come only from creation calls that returned, one each. */
  lemma {:induction false} CreatedTokensCount(recs: seq<TokenParams>, tool: nat -> CreationOutcome, network: string)
    ensures |CreatedTokens(recs, tool, network)| <= |recs|
    ensures (forall k :: 0 <= k < |recs| ==> tool(k).ToolReturned?) ==> |CreatedTokens(recs, tool, network)| == |recs|
    ensures forall t :: t in CreatedTokens(recs, tool, network) ==> t.created
  {
    if recs != [] {
      CreatedTokensCount(recs[..|recs| - 1], tool, network);
    }
  }

  /** The creation log holds one or two entries per recommendation. */
  lemma {:induction false} CreationsLogLength(recs: seq<TokenParams>, tool: nat -> CreationOutcome)
    ensures |recs| <= |CreationsLog(recs, tool)| <= 2 * |recs|
  {
    if recs != [] {
      CreationsLogLength(recs[..|recs| - 1], tool);
    }
  }

  /** No success entry since `h0`, given none in the entry that led to
      `h1` and none since `h1`. */
  lemma NoSuccessSince(h0: seq<Activity>, h1: seq<Activity>, h2: seq<Activity>, raised: bool)
    requires |h1| == |h0| + 1 && h1[|h0|].kind != Success && h1 <= h2
    requires raised ==> forall k :: |h1| <= k < |h2| ==> h2[k].kind != Success
    ensures raised ==> forall k :: |h0| <= k < |h2| ==> h2[k].kind != Success
  {
  }

  /** The log of the first `m` creations is the start of the whole log. */
  lemma {:induction false} CreationsLogPrefix(recs: seq<TokenParams>, m: nat, tool: nat -> CreationOutcome)
    requires m <= |recs|
    ensures CreationsLog(recs[..m], tool) <= CreationsLog(recs, tool)
    decreases |recs| - m
  {
    if m < |recs| {
      CreationsLogPrefix(recs, m + 1, tool);
      CreationsStep(recs, m, tool, "");
    } else {
      assert recs[..m] == recs;
    }
  }

  /** Each recommendation is attempted in order, whatever happened to the
      earlier ones: the `k`-th one's own entries, for its outcome `tool(k)`,
      sit in the log right after those of the first `k`. */
  lemma CreationsLogAttempt(recs: seq<TokenParams>, tool: nat -> CreationOutcome, k: nat)
    requires k < |recs|
    ensures var off := |CreationsLog(recs[..k], tool)|;
      var entry := CreationLog(recs[k], tool(k));
      off + |entry| <= |CreationsLog(recs, tool)| && CreationsLog(recs, tool)[off..off + |entry|] == entry
  {
    CreationsLogPrefix(recs, k + 1, tool);
    CreationsStep(recs, k, tool, "");
    PrefixSlice(CreationsLog(recs[..k], tool), CreationLog(recs[k], tool(k)), CreationsLog(recs, tool));
  }

  /** A block that follows a prefix can be read back by slicing. */
  lemma PrefixSlice<T>(a: seq<T>, b: seq<T>, c: seq<T>)
    requires a + b <= c
    ensures |a| + |b| <= |c| && c[|a|..|a| + |b|] == b
  {
    assert c[|a|..|a| + |b|] == (a + b)[|a|..];
  }
}
