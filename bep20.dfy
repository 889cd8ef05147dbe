/**
  The BSC controller: balance lookup, token-transfer listing, merged history, the
  transfer handler (native coin in mode "BNP", a token otherwise), the gas-sponsored token
  transfer and the plain native transfer.
*/
module Bep20 {
  import opened Wrappers
  import opened Chain
  import opened History
  import opened Flows
  import opened Api

  class Bep20Controller {
    /** The BSC provider all handlers share. */
    const chain: Ledger
    /** The address of the gas wallet that funds sponsored transfers. */
    const admin: Address

    constructor (chain: Ledger, admin: Address)
      ensures this.chain == chain && this.admin == admin
    {
      this.chain := chain;
      this.admin := admin;
    }

    /** `getBalance`: the coin balance, or a token balance when a contract is named. */
    method GetBalance(req: BalanceRequest) returns (r: Response)
      ensures r == BalanceReply(chain.world, req, Bsc)
    {
      if !Given(req.address) {
        return Response(400, Some(false), Problem("Address is required"));
      }
      var wallet := CheckAddress(req.address.value);
      if wallet.Failure? {
        return LookupFailure(wallet.error, true, Bsc.short);
      }
      if !Given(req.tokenContract) {
        var balance := chain.world.NativeBalance(wallet.value);
        if balance.Failure? {
          return LookupFailure(balance.error, true, Bsc.short);
        }
        return Response(200, Some(true), Holding(wallet.value, Some(Bsc.title), Bsc.coin, balance.value));
      }
      var token := CheckAddress(req.tokenContract.value);
      if token.Failure? {
        return LookupFailure(token.error, true, Bsc.short);
      }
      var raw := chain.world.TokenBalance(token.value, wallet.value);
      if raw.Failure? {
        return LookupFailure(raw.error, true, Bsc.short);
      }
      var info := Metadata(chain.world, token.value, Some(Bsc.standard), true);
      r := Response(200, Some(true), Holding(wallet.value, Some(Bsc.title), info, raw.value));
    }

    /** `getTransactions`: the address's token transfers as the explorer lists them. */
    method GetTransactions(address: Option<string>, fetched: Result<Reply, string>) returns (r: Response)
      ensures r == TokenTransfersReply(address, fetched)
    {
      if !Given(address) {
        return Response(400, Some(false), Problem("Address is required"));
      }
      if fetched.Failure? {
        return Response(500, Some(false), Failed("Failed to fetch transactions", fetched.error));
      }
      var data := fetched.value;
      if data.status != "1" || NoRows(data.result) {
        return Response(404, Some(false), Problem("No BEP20 transactions found"));
      }
      if !data.result.Rows? {
        return Response(500, Some(false), Failed("Failed to fetch transactions", NoMap));
      }
      r := Response(200, Some(true), TokenTransfers(|data.result.rows|, TransferViews(data.result.rows)));
    }

    /**
      `getAllTransactions`: native entries of a counted `txlist` answer, then token entries
      of a counted `tokentx` answer, sorted newest first, the first hundred returned.
    */
    method GetAllTransactions(address: Option<string>, native: Result<Reply, string>, token: Result<Reply, string>)
      returns (r: Response)
      ensures r == AllTransactionsReply(address, native, token, StatusAndLength, Bsc.coin)
    {
      if !Given(address) {
        return Response(400, Some(false), Problem("Address required"));
      }
      if native.Failure? || token.Failure? {
        var cause := if native.Failure? then native.error else token.error;
        return Response(500, Some(false), Failed("Failed to fetch transactions", cause));
      }
      var all: seq<Entry> := [];
      var coins := SelectListed(native.value);
      if coins.Crash? {
        return Response(500, Some(false), Failed("Failed to fetch transactions", coins.message));
      }
      if coins.Take? {
        all := all + NativeEntries(coins, "BNB", "Binance Coin");
      }
      assert all == NativeEntries(coins, "BNB", "Binance Coin");
      var tokens := SelectListed(token.value);
      if tokens.Crash? {
        return Response(500, Some(false), Failed("Failed to fetch transactions", tokens.message));
      }
      if tokens.Take? {
        all := all + TokenEntries(tokens);
      }
      assert all == Merge(coins, tokens, Bsc.coin.symbol, Bsc.coin.name.GetOr(""));
      var total := |all|;
      all := NewestFirst(all);
      r := Response(200, Some(true), Transactions(total, all[..if total < PageSize then total else PageSize]));
    }

    /**
      `transfer`. Mode "BNP" moves the native coin; any other mode moves a token, after
      checking the token balance and the 0.0002 BNB gas minimum. A request that lacks a
      field, or that a guard refuses, submits nothing; a successful answer names a
      transaction the history holds.
    */
    method Transfer(req: TransferRequest) returns (r: Response)
      modifies chain`history
      ensures var base := |old(chain.history)|;
        if req.mode == Some("BNP") then
          if !(Given(req.fromPrivateKey) && Given(req.toAddress) && GivenAmount(req.amount)) then
            r == Missing(true) && chain.history == old(chain.history)
          else
            var d := NativeDecision(chain.world, req.fromPrivateKey.value, req.toAddress.value, req.amount.value);
            r == Answer(Plan(chain.world, d, base).outcome, true, NoMessage) &&
            chain.history == old(chain.history) + Plan(chain.world, d, base).events
        else
          if !(Given(req.fromPrivateKey) && Given(req.tokenContract) && Given(req.toAddress) && GivenAmount(req.amount)) then
            r == Missing(false) && chain.history == old(chain.history)
          else
            var d := TokenDecision(chain.world, req.fromPrivateKey.value, req.tokenContract.value,
                                   req.toAddress.value, req.amount.value, true);
            r == Answer(Plan(chain.world, d, base).outcome, true, AfterSymbol(" transferred successfully!")) &&
            chain.history == old(chain.history) + Plan(chain.world, d, base).events
      ensures r.status == 400 ==> chain.history == old(chain.history)
      ensures r.status == 200 ==> r.body.txHash < |chain.history| && chain.history[r.body.txHash].Sent?
    {
      var d;
      var praise;
      if req.mode == Some("BNP") {
        if !(Given(req.fromPrivateKey) && Given(req.toAddress) && GivenAmount(req.amount)) {
          return Missing(true);
        }
        d := NativeDecision(chain.world, req.fromPrivateKey.value, req.toAddress.value, req.amount.value);
        praise := NoMessage;
      } else {
        if !(Given(req.fromPrivateKey) && Given(req.tokenContract) && Given(req.toAddress) && GivenAmount(req.amount)) {
          return Missing(false);
        }
        d := TokenDecision(chain.world, req.fromPrivateKey.value, req.tokenContract.value,
                           req.toAddress.value, req.amount.value, true);
        praise := AfterSymbol(" transferred successfully!");
      }
      r := Respond(chain, d, true, praise);
    }

    /**
      `transferBEP20WithGasSupport`: the gas wallet funds the sender with the quoted fee
      plus 20%, then the token transfer goes out. A refusal submits nothing; a successful
      answer names both transactions, the funding first.
    */
    method TransferWithGasSupport(req: TransferRequest) returns (r: Response)
      modifies chain`history
      ensures var base := |old(chain.history)|;
        if !(Given(req.fromPrivateKey) && Given(req.tokenContract) && Given(req.toAddress) && GivenAmount(req.amount)) then
          r == Missing(false) && chain.history == old(chain.history)
        else
          var d := SponsoredDecision(chain.world, admin, req.fromPrivateKey.value, req.tokenContract.value,
                                     req.toAddress.value, req.amount.value);
          r == Answer(Plan(chain.world, d, base).outcome, true, AfterSymbol(" transferred successfully on BSC.")) &&
          chain.history == old(chain.history) + Plan(chain.world, d, base).events
      ensures r.status == 400 ==> chain.history == old(chain.history)
      ensures r.status == 200 ==>
        r.body.gasTopUpTx.Some? && r.body.gasTopUpTx.value < r.body.txHash < |chain.history| &&
        chain.history[r.body.gasTopUpTx.value].Sent? && chain.history[r.body.txHash].Sent?
    {
      if !(Given(req.fromPrivateKey) && Given(req.tokenContract) && Given(req.toAddress) && GivenAmount(req.amount)) {
        return Missing(false);
      }
      var d := SponsoredDecision(chain.world, admin, req.fromPrivateKey.value, req.tokenContract.value,
                                 req.toAddress.value, req.amount.value);
      r := Respond(chain, d, true, AfterSymbol(" transferred successfully on BSC."));
    }

    /** `transferBNB`: the native transfer, answered without `success` on failure. */
    method TransferBnb(req: TransferRequest) returns (r: Response)
      modifies chain`history
      ensures var base := |old(chain.history)|;
        if !(Given(req.fromPrivateKey) && Given(req.toAddress) && GivenAmount(req.amount)) then
          r == Missing(false) && chain.history == old(chain.history)
        else
          var d := NativeDecision(chain.world, req.fromPrivateKey.value, req.toAddress.value, req.amount.value);
          r == Answer(Plan(chain.world, d, base).outcome, false, Fixed("BNB transferred successfully!")) &&
          chain.history == old(chain.history) + Plan(chain.world, d, base).events
      ensures r.status == 400 ==> chain.history == old(chain.history)
      ensures r.status == 200 ==> r.body.txHash < |chain.history| && chain.history[r.body.txHash].Sent?
    {
      if !(Given(req.fromPrivateKey) && Given(req.toAddress) && GivenAmount(req.amount)) {
        return Missing(false);
      }
      var d := NativeDecision(chain.world, req.fromPrivateKey.value, req.toAddress.value, req.amount.value);
      r := Respond(chain, d, false, Fixed("BNB transferred successfully!"));
    }
  }
}
