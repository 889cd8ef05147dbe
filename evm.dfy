/**
  The generic EVM controller, wired to BSC: token balance lookup, token-transfer listing,
  the transfer handler (native coin in mode "BNP", a token otherwise), the coin balance
  lookup and the plain native transfer.
*/
module Evm {
  import opened Wrappers
  import opened Chain
  import opened History
  import opened Flows
  import opened Api

  /**
    `getTokenBalance`. Both fields are required (400). The answer is 200 exactly when both
    addresses are well formed and the balance read succeeds; it reports the raw balance
    unchanged, the decimals (18 when unreadable) and the symbol ("UNKNOWN" when
    unreadable). Only a call exception is the caller's fault: a malformed address is 500.
  */
  function TokenBalanceReply(w: ChainState, req: BalanceRequest): (r: Response)
    ensures !(Given(req.tokenContract) && Given(req.address)) ==>
      r == Response(400, Some(false), Problem("tokenContract and address are required"))
    ensures r.status == 200 <==>
      Given(req.tokenContract) && Given(req.address) &&
      IsAddress(req.tokenContract.value) && IsAddress(req.address.value) &&
      w.TokenBalance(req.tokenContract.value, req.address.value).Success?
    ensures r.status == 200 ==>
      r.body == Holding(req.address.value, None, Metadata(w, req.tokenContract.value, None, false),
                        w.TokenBalance(req.tokenContract.value, req.address.value).value)
    ensures (Given(req.tokenContract) && Given(req.address) &&
             !(IsAddress(req.tokenContract.value) && IsAddress(req.address.value))) ==> r.status == 500
  {
    if !(Given(req.tokenContract) && Given(req.address)) then
      Response(400, Some(false), Problem("tokenContract and address are required"))
    else
      match CheckAddress(req.tokenContract.value)
      case Failure(e) => LookupFailure(e, false, "BSC")
      case Success(token) =>
        match CheckAddress(req.address.value)
        case Failure(e) => LookupFailure(e, false, "BSC")
        case Success(wallet) =>
          match w.TokenBalance(token, wallet)
          case Failure(e) => LookupFailure(e, false, "BSC")
          case Success(raw) => Response(200, Some(true), Holding(wallet, None, Metadata(w, token, None, false), raw))
  }

  class EvmController {
    /** The provider all handlers share. */
    const chain: Ledger

    constructor (chain: Ledger)
      ensures this.chain == chain
    {
      this.chain := chain;
    }

    /** `getTokenBalance`. */
    method GetTokenBalance(req: BalanceRequest) returns (r: Response)
      ensures r == TokenBalanceReply(chain.world, req)
    {
      if !(Given(req.tokenContract) && Given(req.address)) {
        return Response(400, Some(false), Problem("tokenContract and address are required"));
      }
      var token := CheckAddress(req.tokenContract.value);
      if token.Failure? {
        return LookupFailure(token.error, false, "BSC");
      }
      var wallet := CheckAddress(req.address.value);
      if wallet.Failure? {
        return LookupFailure(wallet.error, false, "BSC");
      }
      var raw := chain.world.TokenBalance(token.value, wallet.value);
      if raw.Failure? {
        return LookupFailure(raw.error, false, "BSC");
      }
      var info := Metadata(chain.world, token.value, None, false);
      r := Response(200, Some(true), Holding(wallet.value, None, info, raw.value));
    }

    /** `getTransactions`: the same listing as the BSC controller's. */
    method GetTransactions(address: Option<string>, fetched: Result<Reply, string>) returns (r: Response)
      ensures r == TokenTransfersReply(address, fetched)
    {
      if !Given(address) {
        return Response(400, Some(false), Problem("Address is required"));
      }
      if fetched.Failure? {
        return Response(500, Some(false), Failed("Failed to fetch transactions", fetched.error));
      }
      var data := fetched.value;
      if data.status != "1" || NoRows(data.result) {
        return Response(404, Some(false), Problem("No BEP20 transactions found"));
      }
      if !data.result.Rows? {
        return Response(500, Some(false), Failed("Failed to fetch transactions", NoMap));
      }
      r := Response(200, Some(true), TokenTransfers(|data.result.rows|, TransferViews(data.result.rows)));
    }

    /**
      `transfer`. Mode "BNP" moves the native coin; any other mode moves a token after
      checking the token balance. A request that lacks a field, or that a guard refuses,
      submits nothing; a successful answer names a transaction the history holds.
    */
    method Transfer(req: TransferRequest) returns (r: Response)
      modifies chain`history
      ensures var base := |old(chain.history)|;
        if req.mode == Some("BNP") then
          if !(Given(req.fromPrivateKey) && Given(req.toAddress) && GivenAmount(req.amount)) then
            r == Missing(true) && chain.history == old(chain.history)
          else
            var d := NativeDecision(chain.world, req.fromPrivateKey.value, req.toAddress.value, req.amount.value);
            r == Answer(Plan(chain.world, d, base).outcome, true, NoMessage) &&
            chain.history == old(chain.history) + Plan(chain.world, d, base).events
        else
          if !(Given(req.fromPrivateKey) && Given(req.tokenContract) && Given(req.toAddress) && GivenAmount(req.amount)) then
            r == Missing(false) && chain.history == old(chain.history)
          else
            var d := TokenDecision(chain.world, req.fromPrivateKey.value, req.tokenContract.value,
                                   req.toAddress.value, req.amount.value, false);
            r == Answer(Plan(chain.world, d, base).outcome, true, AfterSymbol(" transferred successfully!")) &&
            chain.history == old(chain.history) + Plan(chain.world, d, base).events
      ensures r.status == 400 ==> chain.history == old(chain.history)
      ensures r.status == 200 ==> r.body.txHash < |chain.history| && chain.history[r.body.txHash].Sent?
    {
      var d;
      var praise;
      if req.mode == Some("BNP") {
        if !(Given(req.fromPrivateKey) && Given(req.toAddress) && GivenAmount(req.amount)) {
          return Missing(true);
        }
        d := NativeDecision(chain.world, req.fromPrivateKey.value, req.toAddress.value, req.amount.value);
        praise := NoMessage;
      } else {
        if !(Given(req.fromPrivateKey) && Given(req.tokenContract) && Given(req.toAddress) && GivenAmount(req.amount)) {
          return Missing(false);
        }
        d := TokenDecision(chain.world, req.fromPrivateKey.value, req.tokenContract.value,
                           req.toAddress.value, req.amount.value, false);
        praise := AfterSymbol(" transferred successfully!");
      }
      r := Respond(chain, d, true, praise);
    }

    /** `getBNBBalance`: a missing or malformed address is refused before the chain is read. */
    method GetBnbBalance(address: Option<string>) returns (r: Response)
      ensures r == CoinBalanceReply(chain.world, address)
    {
      if !Given(address) {
        return Response(400, Some(false), Problem("Wallet address is required"));
      }
      if !IsAddress(address.value) {
        return Response(400, Some(false), Problem("Invalid wallet address format"));
      }
      var balance := chain.world.NativeBalance(address.value);
      if balance.Failure? {
        return Response(500, Some(false), Failed("Failed to fetch BNB balance", balance.error.message));
      }
      r := Response(200, Some(true), CoinBalance(address.value, "BNB", balance.value));
    }

    /** `transferBNB`: the native transfer, answered without `success` on failure. */
    method TransferBnb(req: TransferRequest) returns (r: Response)
      modifies chain`history
      ensures var base := |old(chain.history)|;
        if !(Given(req.fromPrivateKey) && Given(req.toAddress) && GivenAmount(req.amount)) then
          r == Missing(false) && chain.history == old(chain.history)
        else
          var d := NativeDecision(chain.world, req.fromPrivateKey.value, req.toAddress.value, req.amount.value);
          r == Answer(Plan(chain.world, d, base).outcome, false, Fixed("BNB transferred successfully!")) &&
          chain.history == old(chain.history) + Plan(chain.world, d, base).events
      ensures r.status == 400 ==> chain.history == old(chain.history)
      ensures r.status == 200 ==> r.body.txHash < |chain.history| && chain.history[r.body.txHash].Sent?
    {
      if !(Given(req.fromPrivateKey) && Given(req.toAddress) && GivenAmount(req.amount)) {
        return Missing(false);
      }
      var d := NativeDecision(chain.world, req.fromPrivateKey.value, req.toAddress.value, req.amount.value);
      r := Respond(chain, d, false, Fixed("BNB transferred successfully!"));
    }
  }
}
