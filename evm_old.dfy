/**
  The older EVM forwarding helpers, on BSC: reading a token balance, and sweeping a
  wallet's whole token balance to another address once its native balance covers the
  quoted fee, then notifying the back office.
*/
module EvmForwarding {
  import opened Wrappers
  import opened Chain
  import opened Units
  import opened Webhooks

  /** How many confirmations a forward waits for. */
  const Confirmations: nat := 3

  /** A balance as `getTokenBalance` reports it: raw units, decimals, human amount. */
  datatype TokenAmount = TokenAmount(raw: nat, decimals: nat, balance: real)

  /**
    `getTokenBalance`. Only the balance read can fail; the decimals fall back to 18. The
    human amount is the raw amount scaled down by `10^decimals`, exactly.
  */
  function TokenBalanceOf(w: ChainState, token: Address, holder: Address): (r: Result<TokenAmount, Error>)
    ensures r.Success? <==> w.TokenBalance(token, holder).Success?
    ensures r.Failure? ==> r.error == w.TokenBalance(token, holder).error
    ensures r.Success? ==>
      r.value.raw == w.TokenBalance(token, holder).value &&
      r.value.decimals == w.TokenDecimals(token).GetOr(18) &&
      r.value.balance * Scale(r.value.decimals) == r.value.raw as real
  {
    match w.TokenBalance(token, holder)
    case Failure(e) => Failure(e)
    case Success(raw) =>
      var decimals := w.TokenDecimals(token).GetOr(18);
      ScaleBack(raw, decimals);
      Success(TokenAmount(raw, decimals, Human(raw, decimals)))
  }

  /** The fee a forward must be able to pay: the gas estimate times the gas price, in wei. */
  function NativeNeeded(gas: nat, price: nat): nat {
    gas * price
  }

  /**
    The reads and guards of `forwardToken`, up to the transfer it submits. The key must be
    valid and the token balance readable and not zero; only then are the gas price and
    estimate read, and the native balance must cover their product. The transfer moves the
    whole token balance with the estimate as its gas limit.
  */
  function Prepare(w: ChainState, key: string, token: Address, to: Address): (r: Result<Tx, Error>)
    ensures r.Success? <==>
      w.Wallet(key).Success? &&
      w.TokenBalance(token, w.Wallet(key).value).Success? && w.TokenBalance(token, w.Wallet(key).value).value > 0 &&
      w.GasPrice().Success? && w.EstimateGasFor(to, w.TokenBalance(token, w.Wallet(key).value).value).Success? &&
      w.NativeBalance(w.Wallet(key).value).Success? &&
      w.NativeBalance(w.Wallet(key).value).value >=
        NativeNeeded(w.EstimateGasFor(to, w.TokenBalance(token, w.Wallet(key).value).value).value, w.GasPrice().value)
    ensures r.Success? ==>
      IsAddress(to) &&
      r.value == TokenTx(token, w.Wallet(key).value, to, w.TokenBalance(token, w.Wallet(key).value).value,
                         Some(w.gasUnits), None)
    ensures w.Wallet(key).Success? && w.TokenBalance(token, w.Wallet(key).value) == Success(0) ==>
      r == Failure(Error(Plain, "zero token balance"))
  {
    match w.Wallet(key)
    case Failure(e) => Failure(e)
    case Success(from) =>
      match w.TokenBalance(token, from)
      case Failure(e) => Failure(e)
      case Success(raw) =>
        if raw == 0 then Failure(Error(Plain, "zero token balance"))
        else
          match w.GasPrice()
          case Failure(e) => Failure(e)
          case Success(price) =>
            match w.EstimateGasFor(to, raw)
            case Failure(e) => Failure(e)
            case Success(gas) =>
              match w.NativeBalance(from)
              case Failure(e) => Failure(e)
              case Success(balance) =>
                if balance < NativeNeeded(gas, price) then Failure(Error(Plain, "insufficient native balance for gas"))
                else Success(TokenTx(token, from, to, raw, Some(gas), None))
  }

  /** What `forwardToken` resolves with: the transaction hash and its receipt. */
  datatype Forwarded = Forwarded(txHash: Hash, receipt: Receipt)

  /** A whole forward: its result, the ledger events, the notice posted. */
  datatype ForwardRun = ForwardRun(result: Result<Forwarded, Error>, events: seq<Event>, notice: Option<Notice>)

  /**
    What happens to a prepared transfer `tx` when the history holds `base` events: it is
    submitted once and awaited for three confirmations; only then is the back office
    notified. A refused submission appends nothing; a failed wait leaves the transfer
    submitted, throws, and notifies no one.
  */
  function Dispatch(w: ChainState, tx: Tx, base: nat): (run: ForwardRun)
    ensures run.result.Success? <==> w.SendFault(tx).None? && w.WaitFault(tx).None?
    ensures w.SendFault(tx).Some? ==> run == ForwardRun(Failure(w.SendFault(tx).value), [], None)
    ensures w.SendFault(tx).None? ==> |run.events| > 0 && run.events[0] == Sent(tx)
    ensures w.SendFault(tx).None? && w.WaitFault(tx).Some? ==>
      run == ForwardRun(Failure(w.WaitFault(tx).value), [Sent(tx)], None)
    ensures forall k :: 1 <= k < |run.events| ==> !run.events[k].Sent?
    ensures run.notice.Some? <==> run.result.Success?
    ensures run.result.Success? ==>
      run.result.value == Forwarded(base, Receipt(w.height)) &&
      run.events[1..] == [Confirmed(base, Confirmations)] &&
      run.notice == Some(BscForwarded(base, Receipt(w.height)))
  {
    if w.SendFault(tx).Some? then ForwardRun(Failure(w.SendFault(tx).value), [], None)
    else if w.WaitFault(tx).Some? then ForwardRun(Failure(w.WaitFault(tx).value), [Sent(tx)], None)
    else
      var receipt := Receipt(w.height);
      ForwardRun(Success(Forwarded(base, receipt)), [Sent(tx), Confirmed(base, Confirmations)],
                 Some(BscForwarded(base, receipt)))
  }

  /**
    `forwardToken` from `key` to `to`, when the history holds `base` events: the guards,
    then the dispatch of the whole token balance.
  */
  function ForwardPlan(w: ChainState, key: string, token: Address, to: Address, base: nat): (run: ForwardRun)
    ensures run.result.Success? <==>
      Prepare(w, key, token, to).Success? &&
      w.SendFault(Prepare(w, key, token, to).value).None? && w.WaitFault(Prepare(w, key, token, to).value).None?
    ensures Prepare(w, key, token, to).Failure? ==>
      run == ForwardRun(Failure(Prepare(w, key, token, to).error), [], None)
  {
    match Prepare(w, key, token, to)
    case Failure(e) => ForwardRun(Failure(e), [], None)
    case Success(tx) => Dispatch(w, tx, base)
  }

  /**
    Nothing is submitted unless the sender's native balance covers the quoted fee, and
    what is submitted is one transfer of the sender's whole token balance, gas-limited to
    the estimate.
  */
  lemma ForwardSendsOnlyFundedSweep(w: ChainState, key: string, token: Address, to: Address, base: nat, k: nat)
    requires k < |ForwardPlan(w, key, token, to, base).events|
    requires ForwardPlan(w, key, token, to, base).events[k].Sent?
    ensures k == 0
    ensures w.Wallet(key).Success? && w.GasPrice().Success? && w.NativeBalance(w.Wallet(key).value).Success?
    ensures var from := w.Wallet(key).value;
      var raw := w.TokenBalance(token, from).value;
      w.TokenBalance(token, from).Success? && raw > 0 &&
      w.NativeBalance(from).value >= NativeNeeded(w.gasUnits, w.gasPrice) &&
      ForwardPlan(w, key, token, to, base).events[k] == Sent(TokenTx(token, from, to, raw, Some(w.gasUnits), None))
  {
    var prepared := Prepare(w, key, token, to);
    assert prepared.Success?;
    assert ForwardPlan(w, key, token, to, base) == Dispatch(w, prepared.value, base);
  }

  /** The shared provider and the back office the helpers talk to. */
  class EvmForwarder {
    /** The BSC provider. */
    const provider: Ledger
    /** The back office notified after each forward. */
    const hook: Webhook

    constructor (provider: Ledger, hook: Webhook)
      ensures this.provider == provider && this.hook == hook
    {
      this.provider := provider;
      this.hook := hook;
    }

    /** `getTokenBalance`: the decimals start at 18 and are replaced when the read succeeds. */
    method GetTokenBalance(token: Address, holder: Address) returns (r: Result<TokenAmount, Error>)
      ensures r == TokenBalanceOf(provider.world, token, holder)
    {
      var raw := provider.world.TokenBalance(token, holder);
      if raw.Failure? {
        return Failure(raw.error);
      }
      var decimals := 18;
      var read := provider.world.TokenDecimals(token);
      if read.Success? {
        decimals := read.value;
      }
      r := Success(TokenAmount(raw.value, decimals, Human(raw.value, decimals)));
    }

    /** The reads and guards of `forwardToken`, as `Prepare` states them; nothing changes. */
    method Preflight(key: string, token: Address, to: Address) returns (r: Result<Tx, Error>)
      ensures r == Prepare(provider.world, key, token, to)
    {
      var from := provider.world.Wallet(key);
      if from.Failure? {
        return Failure(from.error);
      }
      var rawBal := provider.world.TokenBalance(token, from.value);
      if rawBal.Failure? {
        return Failure(rawBal.error);
      }
      if rawBal.value == 0 {
        return Failure(Error(Plain, "zero token balance"));
      }
      var gasPrice := provider.world.GasPrice();
      if gasPrice.Failure? {
        return Failure(gasPrice.error);
      }
      var gasEstimate := provider.world.EstimateGasFor(to, rawBal.value);
      if gasEstimate.Failure? {
        return Failure(gasEstimate.error);
      }
      var nativeNeeded := gasEstimate.value * gasPrice.value;
      var nativeBal := provider.world.NativeBalance(from.value);
      if nativeBal.Failure? {
        return Failure(nativeBal.error);
      }
      if nativeBal.value < nativeNeeded {
        return Failure(Error(Plain, "insufficient native balance for gas"));
      }
      r := Success(TokenTx(token, from.value, to, rawBal.value, Some(gasEstimate.value), None));
    }

    /** Submits `tx`, waits for three confirmations and notifies the back office, as `Dispatch` states. */
    method Send(tx: Tx) returns (r: Result<Forwarded, Error>)
      modifies provider`history, hook`delivered
      ensures var run := Dispatch(provider.world, tx, |old(provider.history)|);
        r == run.result &&
        provider.history == old(provider.history) + run.events &&
        hook.delivered == old(hook.delivered) + (if run.notice.Some? && hook.reachable then [run.notice.value] else [])
    {
      ghost var before := provider.history;
      var sent := provider.Submit(tx);
      if sent.Failure? {
        return Failure(sent.error);
      }
      var hash := sent.value;
      var receipt := provider.Wait(hash, tx, Confirmations);
      if receipt.Failure? {
        return Failure(receipt.error);
      }
      AppendAssociates(before, [Sent(tx)], [Confirmed(hash, Confirmations)]);
      hook.Post(BscForwarded(hash, receipt.value));
      r := Success(Forwarded(hash, receipt.value));
    }

    /**
      `forwardToken`. The ledger and the back office change exactly as `ForwardPlan` says;
      whether the back office is reachable never changes the result.
    */
    method ForwardToken(key: string, token: Address, to: Address) returns (r: Result<Forwarded, Error>)
      modifies provider`history, hook`delivered
      ensures var run := ForwardPlan(provider.world, key, token, to, |old(provider.history)|);
        r == run.result &&
        provider.history == old(provider.history) + run.events &&
        hook.delivered == old(hook.delivered) + (if run.notice.Some? && hook.reachable then [run.notice.value] else [])
    {
      var prepared := Preflight(key, token, to);
      if prepared.Failure? {
        return Failure(prepared.error);
      }
      r := Send(prepared.value);
    }
  }
}
