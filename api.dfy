/**
  Requests and responses of the HTTP handlers, and the replies the BSC, Polygon and
  generic EVM controllers share: balance lookups, history listings and the mapping of a
  transfer flow's outcome to a response.
*/
module Api {
  import opened Wrappers
  import opened Chain
  import opened Units
  import opened History
  import opened Flows

  /** A request field is given when it is present and not the empty string (`!field` is false). */
  predicate Given(field: Option<string>) {
    field.Some? && field.value != ""
  }

  /** A numeric amount is given when it is present and not zero. */
  predicate GivenAmount(amount: Option<real>) {
    amount.Some? && amount.value != 0.0
  }

  datatype BalanceRequest = BalanceRequest(tokenContract: Option<string>, address: Option<string>)

  datatype TransferRequest = TransferRequest(
    mode: Option<string>,
    fromPrivateKey: Option<string>,
    tokenContract: Option<string>,
    toAddress: Option<string>,
    amount: Option<real>)

  /** The `token` object of a balance answer. */
  datatype TokenInfo = TokenInfo(
    contract: Address,
    symbol: string,
    name: Option<string>,
    standard: Option<string>,
    decimals: nat)

  datatype Body =
    | Problem(text: string)
    | Failed(text: string, cause: string)
    | Shortage(text: string, current: real, required: real)
    | Holding(wallet: Address, network: Option<string>, token: TokenInfo, raw: nat)
    | CoinBalance(address: Address, symbol: string, raw: nat)
    | Transferred(message: Option<string>, txHash: Hash, blockNumber: nat, gasTopUpTx: Option<Hash>)
    | Transactions(total: nat, entries: seq<Entry>)
    | TokenTransfers(total: nat, transfers: seq<TokenTransfer>)

  /** An HTTP answer: status, the `success` flag when the handler sets one, and the payload. */
  datatype Response = Response(status: nat, success: Option<bool>, body: Body)

  /** What a lookup says about the chain it serves. */
  datatype Network = Network(
    title: string,
    short: string,
    coin: TokenInfo,
    standard: string)

  const Bsc := Network("Binance Smart Chain", "BSC",
    TokenInfo("native", "BNB", Some("Binance Coin"), Some("native"), 18), "BEP20")

  const Polygon := Network("Polygon", "Polygon",
    TokenInfo("native", "POL", Some("Polygon Ecosystem Token"), Some("native"), 18), "ERC-20")

  /** `ethers.getAddress`: a malformed address is an invalid argument. */
  function CheckAddress(s: string): (r: Result<Address, Error>)
    ensures r.Success? <==> IsAddress(s)
    ensures r.Success? ==> r.value == s
    ensures r.Failure? ==> r.error.code == InvalidArgument
  {
    if IsAddress(s) then Success(s) else Failure(Error(InvalidArgument, "invalid address"))
  }

  /**
    The `catch` of a balance lookup. A call exception (and, where `mapsInvalid`, an invalid
    argument) is the caller's fault, 400; everything else is 500, with the network named
    for a network error and the error's own message (or a generic one) otherwise.
  */
  function LookupFailure(e: Error, mapsInvalid: bool, short: string): (r: Response)
    ensures r.success == Some(false)
    ensures r.status == 400 <==> e.code == CallException || (mapsInvalid && e.code == InvalidArgument)
    ensures r.status != 400 ==> r.status == 500
    ensures e.code == NetworkError ==> r.body == Problem("Network error - cannot connect to " + short)
    ensures r.body.Problem? && r.body.text != ""
  {
    if mapsInvalid && e.code == InvalidArgument then Response(400, Some(false), Problem("Invalid address format"))
    else if e.code == CallException then
      Response(400, Some(false), Problem("Contract call failed - check contract address"))
    else if e.code == NetworkError then
      Response(500, Some(false), Problem("Network error - cannot connect to " + short))
    else Response(500, Some(false), Problem(OrElse(e.message, "Internal server error")))
  }

  /**
    A token's description in a balance answer. Only the balance read is required: a
    failing `decimals`, `symbol` or `name` read falls back to 18, "UNKNOWN" and
    "Unknown Token".
  */
  function Metadata(w: ChainState, token: Address, standard: Option<string>, named: bool): (t: TokenInfo)
    ensures t.contract == token && t.standard == standard && (t.name.Some? <==> named)
    ensures t.decimals == (if w.TokenDecimals(token).Success? then w.TokenDecimals(token).value else 18)
    ensures t.symbol == (if w.TokenSymbol(token).Success? then w.TokenSymbol(token).value else "UNKNOWN")
    ensures named ==> t.name == Some(if w.TokenName(token).Success? then w.TokenName(token).value else "Unknown Token")
  {
    TokenInfo(token, w.TokenSymbol(token).GetOr("UNKNOWN"),
              if named then Some(w.TokenName(token).GetOr("Unknown Token")) else None,
              standard, w.TokenDecimals(token).GetOr(18))
  }

  /** The balance a lookup must read: the coin's, or the named token's. */
  function HeldBalance(w: ChainState, req: BalanceRequest): Result<nat, Error>
    requires Given(req.address)
  {
    match CheckAddress(req.address.value)
    case Failure(e) => Failure(e)
    case Success(wallet) =>
      if !Given(req.tokenContract) then w.NativeBalance(wallet)
      else
        match CheckAddress(req.tokenContract.value)
        case Failure(e) => Failure(e)
        case Success(token) => w.TokenBalance(token, wallet)
  }

  /**
    The BSC and Polygon balance lookup. A missing address is 400. The answer is 200
    exactly when the addresses are well formed and the balance read succeeds, whatever
    the metadata reads do, and it reports the raw balance unchanged: the coin with 18
    decimals, or the token with its metadata and fallbacks.
  */
  function BalanceReply(w: ChainState, req: BalanceRequest, net: Network): (r: Response)
    ensures !Given(req.address) ==> r == Response(400, Some(false), Problem("Address is required"))
    ensures r.status == 200 <==> Given(req.address) && HeldBalance(w, req).Success?
    ensures r.status == 200 ==>
      r.success == Some(true) && r.body.Holding? &&
      r.body.wallet == req.address.value && r.body.raw == HeldBalance(w, req).value &&
      r.body.token == (if Given(req.tokenContract)
                       then Metadata(w, req.tokenContract.value, Some(net.standard), true)
                       else net.coin)
    ensures Given(req.address) && HeldBalance(w, req).Failure? ==>
      r == LookupFailure(HeldBalance(w, req).error, true, net.short)
  {
    if !Given(req.address) then Response(400, Some(false), Problem("Address is required"))
    else
      match HeldBalance(w, req)
      case Failure(e) => LookupFailure(e, true, net.short)
      case Success(raw) =>
        var token := if Given(req.tokenContract)
                     then Metadata(w, req.tokenContract.value, Some(net.standard), true)
                     else net.coin;
        Response(200, Some(true), Holding(req.address.value, Some(net.title), token, raw))
  }

  /** The coin balance a BSC lookup of the generic controller reads, when the address is well formed. */
  function CoinBalanceReply(w: ChainState, address: Option<string>): (r: Response)
    ensures r.status == 400 <==> !(Given(address) && IsAddress(address.value))
    ensures r.status == 200 <==> Given(address) && IsAddress(address.value) && w.NativeBalance(address.value).Success?
    ensures r.status == 200 ==> r.body == CoinBalance(address.value, "BNB", w.NativeBalance(address.value).value)
    ensures r.status != 200 ==> r.success == Some(false)
  {
    if !Given(address) then Response(400, Some(false), Problem("Wallet address is required"))
    else if !IsAddress(address.value) then Response(400, Some(false), Problem("Invalid wallet address format"))
    else
      match w.NativeBalance(address.value)
      case Failure(e) => Response(500, Some(false), Failed("Failed to fetch BNB balance", e.message))
      case Success(raw) => Response(200, Some(true), CoinBalance(address.value, "BNB", raw))
  }

  /** How a history handler decides whether an explorer answer counts. */
  datatype Rule = StatusAndLength | TruthyAndLength

  function Select(rule: Rule, reply: Reply): Selection {
    match rule
    case StatusAndLength => SelectListed(reply)
    case TruthyAndLength => SelectTruthy(reply)
  }

  /**
    The merged history. A missing address is 400; a failed request or an answer the
    handler cannot read is 500. Otherwise the answer is 200, `total` counts every entry
    of the counted answers and the entries are the hundred newest, newest first.
  */
  function AllTransactionsReply(address: Option<string>, native: Result<Reply, string>,
                                token: Result<Reply, string>, rule: Rule, coin: TokenInfo): (r: Response)
    ensures !Given(address) ==> r == Response(400, Some(false), Problem("Address required"))
    ensures r.status == 200 <==>
      Given(address) && native.Success? && token.Success? &&
      !Select(rule, native.value).Crash? && !Select(rule, token.value).Crash?
    ensures r.status != 200 ==> r.status in {400, 500}
    ensures r.status == 200 ==>
      var all := Merge(Select(rule, native.value), Select(rule, token.value), coin.symbol, coin.name.GetOr(""));
      r.body == Transactions(|all|, Page(all))
  {
    if !Given(address) then Response(400, Some(false), Problem("Address required"))
    else if native.Failure? then Response(500, Some(false), Failed("Failed to fetch transactions", native.error))
    else if token.Failure? then Response(500, Some(false), Failed("Failed to fetch transactions", token.error))
    else
      var n := Select(rule, native.value);
      var t := Select(rule, token.value);
      if n.Crash? then Response(500, Some(false), Failed("Failed to fetch transactions", n.message))
      else if t.Crash? then Response(500, Some(false), Failed("Failed to fetch transactions", t.message))
      else
        var all := Merge(n, t, coin.symbol, coin.name.GetOr(""));
        Response(200, Some(true), Transactions(|all|, Page(all)))
  }

  /**
    A successful history answer holds at most a hundred entries, newest first, all of
    them from the counted answers, and counts every entry in `total`.
  */
  lemma AllTransactionsArePaged(address: Option<string>, native: Result<Reply, string>,
                                token: Result<Reply, string>, rule: Rule, coin: TokenInfo)
    requires AllTransactionsReply(address, native, token, rule, coin).status == 200
    ensures var r := AllTransactionsReply(address, native, token, rule, coin);
      var all := Merge(Select(rule, native.value), Select(rule, token.value), coin.symbol, coin.name.GetOr(""));
      r.body.total == |all| && |r.body.entries| == (if |all| < PageSize then |all| else PageSize) &&
      NewestFirstOrder(r.body.entries) && multiset(r.body.entries) <= multiset(all)
  {
    var all := Merge(Select(rule, native.value), Select(rule, token.value), coin.symbol, coin.name.GetOr(""));
    PageIsNewest(all);
  }

  /** `!result?.length`: no result, an empty message or no rows. */
  predicate NoRows(f: Field) {
    match f
    case Absent => true
    case Text(t) => t == ""
    case Rows(rows) => rows == []
  }

  /**
    The token-transfer listing. A missing address is 400, a failed request 500, an answer
    without status "1" or without rows 404; otherwise every row is listed, in the
    explorer's order, and `total` is their number.
  */
  function TokenTransfersReply(address: Option<string>, fetched: Result<Reply, string>): (r: Response)
    ensures !Given(address) ==> r.status == 400
    ensures r.status == 404 <==>
      Given(address) && fetched.Success? && (fetched.value.status != "1" || NoRows(fetched.value.result))
    ensures r.status == 200 <==>
      Given(address) && fetched.Success? && fetched.value.status == "1" &&
      fetched.value.result.Rows? && fetched.value.result.rows != []
    ensures r.status == 200 ==>
      r.body == TokenTransfers(|fetched.value.result.rows|, TransferViews(fetched.value.result.rows)) &&
      r.body.total == |r.body.transfers| > 0
  {
    if !Given(address) then Response(400, Some(false), Problem("Address is required"))
    else if fetched.Failure? then Response(500, Some(false), Failed("Failed to fetch transactions", fetched.error))
    else if fetched.value.status != "1" || NoRows(fetched.value.result) then
      Response(404, Some(false), Problem("No BEP20 transactions found"))
    else
      match fetched.value.result
      case Rows(rows) => Response(200, Some(true), TokenTransfers(|rows|, TransferViews(rows)))
      case _ => Response(500, Some(false), Failed("Failed to fetch transactions", NoMap))
  }

  /** The `success` flag of a handler's failure answers: `false`, or left out. */
  function Flag(flagged: bool): Option<bool> {
    if flagged then Some(false) else None
  }

  /** The answer to a request that lacks a field. */
  function Missing(flagged: bool): (r: Response)
    ensures r.status == 400 && r.success != Some(true)
  {
    Response(400, Flag(flagged), Problem("Missing required fields"))
  }

  /** The `message` of a successful transfer: none, a fixed one, or the token symbol and a suffix. */
  datatype Praise = NoMessage | Fixed(text: string) | AfterSymbol(suffix: string)

  function Message(p: Praise, token: Option<string>): Option<string> {
    match p
    case NoMessage => None
    case Fixed(text) => Some(text)
    case AfterSymbol(suffix) => Some(token.GetOr("") + suffix)
  }

  function ShortfallText(s: Shortfall): string {
    match s
    case NativeShort(_, _) => "Insufficient BNB balance"
    case FeeShort(_, _) => "Insufficient BNB for amount + gas fees"
    case TokenShort(symbol, _, _) => "Insufficient " + symbol + " balance"
    case GasShort(_) => "Insufficient BNB for gas fee"
  }

  function ShortfallBody(s: Shortfall): Body {
    match s
    case NativeShort(current, required) => Shortage(ShortfallText(s), current, required)
    case FeeShort(available, required) => Shortage(ShortfallText(s), available, required)
    case TokenShort(_, current, required) => Shortage(ShortfallText(s), current, required)
    case GasShort(current) => Shortage(ShortfallText(s), current, MinGas)
  }

  /**
    The answer of a transfer handler to its flow's outcome: 200 exactly when the flow
    succeeded, with the transfer's hash and block and the funding hash of a sponsored
    transfer; 400 exactly when a balance guard refused; 500 exactly when a call threw,
    with the error's message.
  */
  function Answer(o: Outcome, flagged: bool, praise: Praise): (r: Response)
    ensures r.status == 200 <==> o.Done?
    ensures r.status == 400 <==> o.Refused?
    ensures r.status == 500 <==> o.Threw?
    ensures r.success == Some(true) <==> o.Done?
    ensures o.Done? ==>
      r.body.Transferred? && r.body.txHash == o.hash && r.body.blockNumber == o.receipt.blockNumber &&
      r.body.gasTopUpTx == o.topUp
    ensures o.Threw? ==> r.body == Problem(o.error.message)
  {
    match o
    case Refused(why) => Response(400, Flag(flagged), ShortfallBody(why))
    case Threw(e) => Response(500, Flag(flagged), Problem(e.message))
    case Done(hash, receipt, topUp, token) =>
      Response(200, Some(true), Transferred(Message(praise, token), hash, receipt.blockNumber, topUp))
  }

  /**
    Carries out a transfer decision on `chain` and answers for it. A refusal appends
    nothing to the history; a success names the transfer, and for a sponsored transfer
    the funding before it, among the transactions the history holds.
  */
  method Respond(chain: Ledger, d: Decision, flagged: bool, praise: Praise) returns (r: Response)
    requires d.Stop? ==> !d.outcome.Done?
    modifies chain`history
    ensures var run := Plan(chain.world, d, |old(chain.history)|);
      r == Answer(run.outcome, flagged, praise) && chain.history == old(chain.history) + run.events
    ensures r.status == 400 ==> chain.history == old(chain.history)
    ensures r.status == 200 ==> r.body.txHash < |chain.history| && chain.history[r.body.txHash].Sent?
    ensures r.status == 200 && d.Sponsor? ==>
      r.body.gasTopUpTx.Some? && r.body.gasTopUpTx.value < r.body.txHash &&
      chain.history[r.body.gasTopUpTx.value].Sent?
  {
    var base := |chain.history|;
    var o := Execute(chain, d);
    r := Answer(o, flagged, praise);
    PlanFollowsIntent(chain.world, d, base);
    if o.Done? {
      DoneNamesItsTransactions(chain.world, d, base);
    }
  }
}
