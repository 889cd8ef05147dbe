/**
  The Polygon controller: balance lookup, merged history, the transfer handler (whose
  native-coin mode is switched off) and the gas-sponsored token transfer.
*/
module PolygonApi {
  import opened Wrappers
  import opened Chain
  import opened History
  import opened Flows
  import opened Api

  /** The answer to a native-coin transfer, which Polygon does not offer yet. */
  const Unavailable := Response(400, None, Problem("the matic still in the development"))

  class PolygonController {
    /** The Polygon provider all handlers share. */
    const chain: Ledger
    /** The address of the gas wallet that funds sponsored transfers. */
    const admin: Address

    constructor (chain: Ledger, admin: Address)
      ensures this.chain == chain && this.admin == admin
    {
      this.chain := chain;
      this.admin := admin;
    }

    /** `getBalance`: the POL balance, or a token balance when a contract is named. */
    method GetBalance(req: BalanceRequest) returns (r: Response)
      ensures r == BalanceReply(chain.world, req, Polygon)
    {
      if !Given(req.address) {
        return Response(400, Some(false), Problem("Address is required"));
      }
      var wallet := CheckAddress(req.address.value);
      if wallet.Failure? {
        return LookupFailure(wallet.error, true, Polygon.short);
      }
      if !Given(req.tokenContract) {
        var balance := chain.world.NativeBalance(wallet.value);
        if balance.Failure? {
          return LookupFailure(balance.error, true, Polygon.short);
        }
        return Response(200, Some(true), Holding(wallet.value, Some(Polygon.title), Polygon.coin, balance.value));
      }
      var token := CheckAddress(req.tokenContract.value);
      if token.Failure? {
        return LookupFailure(token.error, true, Polygon.short);
      }
      var raw := chain.world.TokenBalance(token.value, wallet.value);
      if raw.Failure? {
        return LookupFailure(raw.error, true, Polygon.short);
      }
      var info := Metadata(chain.world, token.value, Some(Polygon.standard), true);
      r := Response(200, Some(true), Holding(wallet.value, Some(Polygon.title), info, raw.value));
    }

    /**
      `getAllTransactions`: every non-empty answer counts, whatever its status; native
      entries first, then token entries, sorted newest first, the first hundred returned.
    */
    method GetAllTransactions(address: Option<string>, native: Result<Reply, string>, token: Result<Reply, string>)
      returns (r: Response)
      ensures r == AllTransactionsReply(address, native, token, TruthyAndLength, Polygon.coin)
    {
      if !Given(address) {
        return Response(400, Some(false), Problem("Address required"));
      }
      if native.Failure? || token.Failure? {
        var cause := if native.Failure? then native.error else token.error;
        return Response(500, Some(false), Failed("Failed to fetch transactions", cause));
      }
      var all: seq<Entry> := [];
      var coins := SelectTruthy(native.value);
      if coins.Crash? {
        return Response(500, Some(false), Failed("Failed to fetch transactions", coins.message));
      }
      if coins.Take? {
        all := all + NativeEntries(coins, "POL", "Polygon Ecosystem Token");
      }
      assert all == NativeEntries(coins, "POL", "Polygon Ecosystem Token");
      var tokens := SelectTruthy(token.value);
      if tokens.Crash? {
        return Response(500, Some(false), Failed("Failed to fetch transactions", tokens.message));
      }
      if tokens.Take? {
        all := all + TokenEntries(tokens);
      }
      assert all == Merge(coins, tokens, Polygon.coin.symbol, Polygon.coin.name.GetOr(""));
      var total := |all|;
      all := NewestFirst(all);
      r := Response(200, Some(true), Transactions(total, all[..if total < PageSize then total else PageSize]));
    }

    /**
      `transfer`. Mode "MATIC" is refused outright and submits nothing; any other mode
      moves a token after checking the token balance. A request that lacks a field, or
      that the guard refuses, submits nothing.
    */
    method Transfer(req: TransferRequest) returns (r: Response)
      modifies chain`history
      ensures var base := |old(chain.history)|;
        if req.mode == Some("MATIC") then
          r == Unavailable && chain.history == old(chain.history)
        else if !(Given(req.fromPrivateKey) && Given(req.tokenContract) && Given(req.toAddress) && GivenAmount(req.amount)) then
          r == Missing(false) && chain.history == old(chain.history)
        else
          var d := TokenDecision(chain.world, req.fromPrivateKey.value, req.tokenContract.value,
                                 req.toAddress.value, req.amount.value, false);
          r == Answer(Plan(chain.world, d, base).outcome, true, AfterSymbol(" transferred successfully on Polygon!")) &&
          chain.history == old(chain.history) + Plan(chain.world, d, base).events
      ensures r.status == 400 ==> chain.history == old(chain.history)
      ensures r.status == 200 ==> r.body.txHash < |chain.history| && chain.history[r.body.txHash].Sent?
    {
      if req.mode == Some("MATIC") {
        return Unavailable;
      }
      if !(Given(req.fromPrivateKey) && Given(req.tokenContract) && Given(req.toAddress) && GivenAmount(req.amount)) {
        return Missing(false);
      }
      var d := TokenDecision(chain.world, req.fromPrivateKey.value, req.tokenContract.value,
                             req.toAddress.value, req.amount.value, false);
      r := Respond(chain, d, true, AfterSymbol(" transferred successfully on Polygon!"));
    }

    /**
      `transferTokenWithGasSupport`: the gas wallet funds the sender with the quoted fee
      plus 20%, then the token transfer goes out. A refusal submits nothing; a successful
      answer names both transactions, the funding first.
    */
    method TransferTokenWithGasSupport(req: TransferRequest) returns (r: Response)
      modifies chain`history
      ensures var base := |old(chain.history)|;
        if !(Given(req.fromPrivateKey) && Given(req.tokenContract) && Given(req.toAddress) && GivenAmount(req.amount)) then
          r == Missing(false) && chain.history == old(chain.history)
        else
          var d := SponsoredDecision(chain.world, admin, req.fromPrivateKey.value, req.tokenContract.value,
                                     req.toAddress.value, req.amount.value);
          r == Answer(Plan(chain.world, d, base).outcome, true, AfterSymbol(" transferred successfully on Polygon.")) &&
          chain.history == old(chain.history) + Plan(chain.world, d, base).events
      ensures r.status == 400 ==> chain.history == old(chain.history)
      ensures r.status == 200 ==>
        r.body.gasTopUpTx.Some? && r.body.gasTopUpTx.value < r.body.txHash < |chain.history| &&
        chain.history[r.body.gasTopUpTx.value].Sent? && chain.history[r.body.txHash].Sent?
    {
      if !(Given(req.fromPrivateKey) && Given(req.tokenContract) && Given(req.toAddress) && GivenAmount(req.amount)) {
        return Missing(false);
      }
      var d := SponsoredDecision(chain.world, admin, req.fromPrivateKey.value, req.tokenContract.value,
                                 req.toAddress.value, req.amount.value);
      r := Respond(chain, d, true, AfterSymbol(" transferred successfully on Polygon."));
    }
  }
}
