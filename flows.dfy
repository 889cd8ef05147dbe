/**
  The three transfer flows the handlers share.

  - A native transfer: the balance must cover the amount, then the amount plus the quoted
    fee; the transaction carries the quoted gas price.
  - A direct token transfer: the token balance must cover the amount (and, on BSC, the
    native balance must hold 0.0002 of the coin); the transfer carries the gas estimate as
    its gas limit and the quoted gas price.
  - A sponsored token transfer: after the same token check, an admin wallet sends the user
    the quoted fee plus 20%, waits for it, pauses five seconds, and then the user's
    transfer goes out with the estimate and price quoted before the funding.

  Each flow is split in two. A decision function does the reads and the guards and says
  what to send; `Plan` says what sending does to the history, and the method `Execute`
  does it on a `Ledger`.
*/
module Flows {
  import opened Wrappers
  import opened Chain
  import opened Units

  /** Why a guard refused a transfer. Amounts are human-scaled. */
  datatype Shortfall =
    | NativeShort(current: real, required: real)
    | FeeShort(available: real, required: real)
    | TokenShort(symbol: string, current: real, required: real)
    | GasShort(current: real)

  datatype Outcome =
    | Refused(why: Shortfall)
    | Threw(error: Error)
      /** `token` is the symbol of the token moved, None for the native coin. */
    | Done(hash: Hash, receipt: Receipt, topUp: Option<Hash>, token: Option<string>)

  /** What a flow answers, and the events it appends to the history. */
  datatype Run = Run(outcome: Outcome, events: seq<Event>)

  /** What the guards decided: stop, send one transaction, or fund the sender and then send. */
  datatype Decision =
    | Stop(outcome: Outcome)
    | Go(tx: Tx, token: Option<string>)
    | Sponsor(funding: Tx, transfer: Tx, symbol: string)

  /** The token reads of a transfer, all of which must succeed. */
  datatype Reads = Reads(symbol: string, decimals: nat, balance: nat)

  /** Symbol, decimals and balance, read together; the first failing read is the error. */
  function ReadHolding(w: ChainState, token: Address, holder: Address): (r: Result<Reads, Error>)
    ensures r.Success? <==>
      w.TokenSymbol(token).Success? && w.TokenDecimals(token).Success? && w.TokenBalance(token, holder).Success?
    ensures r.Success? ==> r.value.balance == w.TokenBalance(token, holder).value
    ensures r.Success? ==> r.value.decimals == w.TokenDecimals(token).value
    ensures r.Success? ==> r.value.symbol == w.TokenSymbol(token).value
  {
    match w.TokenSymbol(token)
    case Failure(e) => Failure(e)
    case Success(symbol) =>
      match w.TokenDecimals(token)
      case Failure(e) => Failure(e)
      case Success(decimals) =>
        match w.TokenBalance(token, holder)
        case Failure(e) => Failure(e)
        case Success(balance) => Success(Reads(symbol, decimals, balance))
  }

  /** The quoted fee of `gas` units at `price`, in wei. */
  function Fee(gas: nat, price: nat): nat {
    gas * price
  }

  /**
    The native transfer's reads and guards. It is refused (400) exactly when a readable
    balance falls short of the amount, or, with every read answered, of the amount plus
    the quoted fee. When it decides to send, the recipient is an address and the
    transaction moves exactly the requested amount at the quoted price.
  */
  function NativeDecision(w: ChainState, key: string, to: Address, amount: real): (d: Decision)
    ensures !d.Sponsor?
    ensures d.Stop? ==> !d.outcome.Done?
    ensures d.Go? ==>
      d.tx.NativeTx? && d.token.None? && IsAddress(to) &&
      w.Wallet(key) == Success(d.tx.from) && d.tx.to == to &&
      d.tx.value as real == amount * Scale(18) && d.tx.gasPrice == Some(w.gasPrice) &&
      w.NativeBalance(d.tx.from).Success? &&
      Human(w.NativeBalance(d.tx.from).value, 18) >= amount &&
      w.NativeBalance(d.tx.from).value >= d.tx.value + Fee(w.gasUnits, w.gasPrice)
    ensures w.Wallet(key).Success? && w.NativeBalance(w.Wallet(key).value).Success? ==>
      var balance := w.NativeBalance(w.Wallet(key).value).value;
      Human(balance, 18) < amount ==> d == Stop(Refused(NativeShort(Human(balance, 18), amount)))
    ensures w.Wallet(key).Success? && w.NativeBalance(w.Wallet(key).value).Success? &&
            ParseAmount(amount, 18).Success? && w.GasPrice().Success? &&
            w.EstimateGasFor(to, ParseAmount(amount, 18).value).Success? ==>
      var balance := w.NativeBalance(w.Wallet(key).value).value;
      var total := ParseAmount(amount, 18).value + Fee(w.gasUnits, w.gasPrice);
      Human(balance, 18) >= amount && balance < total ==>
        d == Stop(Refused(FeeShort(Human(balance, 18), Human(total, 18))))
    ensures d.Stop? && d.outcome.Refused? ==>
      w.Wallet(key).Success? && w.NativeBalance(w.Wallet(key).value).Success? &&
      var balance := w.NativeBalance(w.Wallet(key).value).value;
      Human(balance, 18) < amount ||
      (ParseAmount(amount, 18).Success? && balance < ParseAmount(amount, 18).value + Fee(w.gasUnits, w.gasPrice))
  {
    match w.Wallet(key)
    case Failure(e) => Stop(Threw(e))
    case Success(from) =>
      match w.NativeBalance(from)
      case Failure(e) => Stop(Threw(e))
      case Success(balance) =>
        if Human(balance, 18) < amount then Stop(Refused(NativeShort(Human(balance, 18), amount)))
        else
          FeeDecision(w, from, to, amount, balance)
  }

  /**
    The second guard of a native transfer, once the balance covers the amount: the amount
    in wei, the gas price and the estimate are read, and the balance must then cover the
    amount plus the fee.
  */
  function FeeDecision(w: ChainState, from: Address, to: Address, amount: real, balance: nat): (d: Decision)
    ensures !d.Sponsor?
    ensures d.Stop? ==> !d.outcome.Done?
    ensures d.Go? ==>
      IsAddress(to) && ParseAmount(amount, 18).Success? && d.token.None? &&
      d.tx.NativeTx? && d.tx.from == from && d.tx.to == to && d.tx.gasPrice == Some(w.gasPrice) &&
      d.tx.value == ParseAmount(amount, 18).value &&
      balance >= ParseAmount(amount, 18).value + Fee(w.gasUnits, w.gasPrice)
    ensures ParseAmount(amount, 18).Success? && w.GasPrice().Success? &&
            w.EstimateGasFor(to, ParseAmount(amount, 18).value).Success? ==>
      var total := ParseAmount(amount, 18).value + Fee(w.gasUnits, w.gasPrice);
      balance < total ==> d == Stop(Refused(FeeShort(Human(balance, 18), Human(total, 18))))
    ensures d.Stop? && d.outcome.Refused? ==>
      ParseAmount(amount, 18).Success? && balance < ParseAmount(amount, 18).value + Fee(w.gasUnits, w.gasPrice)
  {
    match ParseAmount(amount, 18)
    case Failure(e) => Stop(Threw(e))
    case Success(wei) =>
      match w.GasPrice()
      case Failure(e) => Stop(Threw(e))
      case Success(price) =>
        match w.EstimateGasFor(to, wei)
        case Failure(e) => Stop(Threw(e))
        case Success(gas) =>
          if balance < wei + Fee(gas, price) then
            Stop(Refused(FeeShort(Human(balance, 18), Human(wei + Fee(gas, price), 18))))
          else Go(NativeTx(from, to, wei, Some(price)), None)
  }

  /** 0.0002 of the native coin: the least the BSC token transfer wants for gas. */
  const MinGas: real := 0.0002

  /** The human-scaled gas check is the check of the raw balance against 2 * 10^14 wei. */
  lemma MinGasIsRaw(balance: nat)
    ensures Human(balance, 18) < MinGas <==> balance < MinGasWei
  {
    Pow10Of18();
    ParseFormatRoundTrip(MinGasWei, 18);
    assert Human(MinGasWei, 18) == MinGas;
    ShortfallIsRawShortfall(balance, MinGas, 18);
  }

  /**
    The BSC check that the sender holds at least 0.0002 of the native coin for gas, when
    `gasCheck` asks for it: None when it passes, else the outcome that ends the transfer.
  */
  function GasGuard(w: ChainState, from: Address, gasCheck: bool): (r: Option<Outcome>)
    ensures r.Some? ==> gasCheck && !r.value.Done?
    ensures r.None? && gasCheck ==> w.NativeBalance(from).Success? && w.NativeBalance(from).value >= MinGasWei
    ensures gasCheck && w.NativeBalance(from).Success? ==>
      (r.Some? <==> w.NativeBalance(from).value < MinGasWei)
  {
    if !gasCheck then None
    else
      match w.NativeBalance(from)
      case Failure(e) => Some(Threw(e))
      case Success(balance) =>
        MinGasIsRaw(balance);
        if Human(balance, 18) < MinGas then Some(Refused(GasShort(Human(balance, 18)))) else None
  }

  /** The raw amount of a token transfer, with the gas estimate and price quoted for it. */
  datatype Quote = Quote(units: nat, gas: nat, price: nat)

  /**
    The quote both token flows obtain once the balance checks pass: the amount in raw
    units, then the gas estimate for moving it to `to`, then the gas price.
  */
  function TokenQuote(w: ChainState, to: Address, amount: real, decimals: nat): (r: Result<Quote, Error>)
    ensures r.Success? <==>
      ParseAmount(amount, decimals).Success? &&
      w.EstimateGasFor(to, ParseAmount(amount, decimals).value).Success? && w.GasPrice().Success?
    ensures r.Success? ==>
      IsAddress(to) &&
      r.value.units as real == amount * Scale(decimals) && r.value.gas == w.gasUnits && r.value.price == w.gasPrice
    ensures ParseAmount(amount, decimals).Failure? ==> r == Failure(ParseAmount(amount, decimals).error)
  {
    match ParseAmount(amount, decimals)
    case Failure(e) => Failure(e)
    case Success(units) =>
      match w.EstimateGasFor(to, units)
      case Failure(e) => Failure(e)
      case Success(gas) =>
        match w.GasPrice()
        case Failure(e) => Failure(e)
        case Success(price) => Success(Quote(units, gas, price))
  }

  /**
    The direct token transfer's reads and guards; `gasCheck` adds the BSC minimum of
    native coin. It is refused (400) exactly when the readable token balance falls short
    of the amount, or, asked for, the readable native balance is below the minimum. When
    it decides to send, the recipient is an address and the transfer moves exactly the
    requested amount with the estimate as gas limit and the quoted price.
  */
  function TokenDecision(w: ChainState, key: string, token: Address, to: Address, amount: real,
                         gasCheck: bool): (d: Decision)
    ensures !d.Sponsor?
    ensures d.Stop? ==> !d.outcome.Done?
    ensures d.Go? ==>
      d.tx.TokenTx? && d.tx.token == token && d.tx.to == to &&
      w.Wallet(key) == Success(d.tx.from) &&
      ReadHolding(w, token, d.tx.from).Success? &&
      d.token == Some(ReadHolding(w, token, d.tx.from).value.symbol) &&
      Human(w.TokenBalance(token, d.tx.from).value, w.TokenDecimals(token).value) >= amount &&
      d.tx.amount as real == amount * Scale(w.TokenDecimals(token).value) &&
      d.tx.gasLimit == Some(w.gasUnits) && d.tx.gasPrice == Some(w.gasPrice) &&
      (gasCheck ==> w.NativeBalance(d.tx.from).Success? && w.NativeBalance(d.tx.from).value >= MinGasWei) &&
      IsAddress(to)
    ensures w.Wallet(key).Success? && ReadHolding(w, token, w.Wallet(key).value).Success? ==>
      var h := ReadHolding(w, token, w.Wallet(key).value).value;
      Human(h.balance, h.decimals) < amount ==>
        d == Stop(Refused(TokenShort(h.symbol, Human(h.balance, h.decimals), amount)))
    ensures gasCheck && w.Wallet(key).Success? && ReadHolding(w, token, w.Wallet(key).value).Success? &&
            w.NativeBalance(w.Wallet(key).value).Success? ==>
      var h := ReadHolding(w, token, w.Wallet(key).value).value;
      var native := w.NativeBalance(w.Wallet(key).value).value;
      Human(h.balance, h.decimals) >= amount && native < MinGasWei ==>
        d == Stop(Refused(GasShort(Human(native, 18))))
    ensures d.Stop? && d.outcome.Refused? ==>
      w.Wallet(key).Success? && ReadHolding(w, token, w.Wallet(key).value).Success? &&
      var h := ReadHolding(w, token, w.Wallet(key).value).value;
      Human(h.balance, h.decimals) < amount ||
      (gasCheck && w.NativeBalance(w.Wallet(key).value).Success? && w.NativeBalance(w.Wallet(key).value).value < MinGasWei)
  {
    match w.Wallet(key)
    case Failure(e) => Stop(Threw(e))
    case Success(from) =>
      match ReadHolding(w, token, from)
      case Failure(e) => Stop(Threw(e))
      case Success(h) =>
        HoldingDecision(w, from, token, to, amount, gasCheck, h)
  }

  /**
    The guards of a token transfer once the holding `h` of `from` is read: the token
    balance must cover the amount, then (when `gasCheck` asks) the native balance must
    cover 0.0002 of the coin for gas, then the amount is parsed and the fee quoted.
  */
  function HoldingDecision(w: ChainState, from: Address, token: Address, to: Address, amount: real,
                           gasCheck: bool, h: Reads): (d: Decision)
    ensures !d.Sponsor?
    ensures d.Stop? ==> !d.outcome.Done?
    ensures d.Go? ==>
      d.tx.TokenTx? && d.tx.token == token && d.tx.from == from && d.tx.to == to &&
      d.token == Some(h.symbol) && Human(h.balance, h.decimals) >= amount &&
      d.tx.amount as real == amount * Scale(h.decimals) &&
      d.tx.gasLimit == Some(w.gasUnits) && d.tx.gasPrice == Some(w.gasPrice) &&
      (gasCheck ==> w.NativeBalance(from).Success? && w.NativeBalance(from).value >= MinGasWei) &&
      IsAddress(to)
    ensures Human(h.balance, h.decimals) < amount ==>
      d == Stop(Refused(TokenShort(h.symbol, Human(h.balance, h.decimals), amount)))
    ensures gasCheck && w.NativeBalance(from).Success? &&
            Human(h.balance, h.decimals) >= amount && w.NativeBalance(from).value < MinGasWei ==>
      d == Stop(Refused(GasShort(Human(w.NativeBalance(from).value, 18))))
    ensures d.Stop? && d.outcome.Refused? ==>
      Human(h.balance, h.decimals) < amount ||
      (gasCheck && w.NativeBalance(from).Success? && w.NativeBalance(from).value < MinGasWei)
  {
    if Human(h.balance, h.decimals) < amount then
      Stop(Refused(TokenShort(h.symbol, Human(h.balance, h.decimals), amount)))
    else if GasGuard(w, from, gasCheck).Some? then Stop(GasGuard(w, from, gasCheck).value)
    else
      match TokenQuote(w, to, amount, h.decimals)
      case Failure(e) => Stop(Threw(e))
      case Success(q) => Go(TokenTx(token, from, to, q.units, Some(q.gas), Some(q.price)), Some(h.symbol))
  }

  /**
    The sponsored transfer's reads and guards. It is refused (400) exactly when the
    readable token balance falls short of the amount. When it decides to go on, the
    recipient is an address; the funding moves the 20% top-up of the quoted fee from the
    admin wallet to the sender, and the transfer carries the same estimate and price.
  */
  function SponsoredDecision(w: ChainState, admin: Address, key: string, token: Address, to: Address,
                             amount: real): (d: Decision)
    ensures !d.Go?
    ensures d.Stop? ==> !d.outcome.Done?
    ensures d.Sponsor? ==>
      d.funding.NativeTx? && d.transfer.TokenTx? &&
      w.Wallet(key) == Success(d.transfer.from) &&
      d.funding == NativeTx(admin, d.transfer.from, TopUp(Fee(w.gasUnits, w.gasPrice)), None) &&
      d.transfer.token == token && d.transfer.to == to &&
      ReadHolding(w, token, d.transfer.from).Success? &&
      d.symbol == ReadHolding(w, token, d.transfer.from).value.symbol &&
      Human(w.TokenBalance(token, d.transfer.from).value, w.TokenDecimals(token).value) >= amount &&
      d.transfer.amount as real == amount * Scale(w.TokenDecimals(token).value) &&
      d.transfer.gasLimit == Some(w.gasUnits) && d.transfer.gasPrice == Some(w.gasPrice) &&
      IsAddress(to)
    ensures d.Stop? && d.outcome.Refused? <==>
      w.Wallet(key).Success? && ReadHolding(w, token, w.Wallet(key).value).Success? &&
      var h := ReadHolding(w, token, w.Wallet(key).value).value;
      Human(h.balance, h.decimals) < amount
    ensures w.Wallet(key).Success? && ReadHolding(w, token, w.Wallet(key).value).Success? ==>
      var h := ReadHolding(w, token, w.Wallet(key).value).value;
      Human(h.balance, h.decimals) < amount ==>
        d == Stop(Refused(TokenShort(h.symbol, Human(h.balance, h.decimals), amount)))
  {
    match w.Wallet(key)
    case Failure(e) => Stop(Threw(e))
    case Success(user) =>
      match ReadHolding(w, token, user)
      case Failure(e) => Stop(Threw(e))
      case Success(h) =>
        if Human(h.balance, h.decimals) < amount then
          Stop(Refused(TokenShort(h.symbol, Human(h.balance, h.decimals), amount)))
        else
          match TokenQuote(w, to, amount, h.decimals)
          case Failure(e) => Stop(Threw(e))
          case Success(q) =>
            Sponsor(NativeTx(admin, user, TopUp(Fee(q.gas, q.price)), None),
                    TokenTx(token, user, to, q.units, Some(q.gas), Some(q.price)), h.symbol)
  }

  /** Sending `tx` and waiting for one confirmation, when the history is `base` long. */
  function Delivery(w: ChainState, tx: Tx, base: nat, topUp: Option<Hash>, token: Option<string>): Run {
    if w.SendFault(tx).Some? then Run(Threw(w.SendFault(tx).value), [])
    else if w.WaitFault(tx).Some? then Run(Threw(w.WaitFault(tx).value), [Sent(tx)])
    else Run(Done(base, Receipt(w.height), topUp, token), [Sent(tx), Confirmed(base, 1)])
  }

  /** What carrying out a decision does, when the history is `base` long. */
  function Plan(w: ChainState, d: Decision, base: nat): Run {
    match d
    case Stop(o) => Run(o, [])
    case Go(tx, token) => Delivery(w, tx, base, None, token)
    case Sponsor(funding, transfer, symbol) =>
      if w.SendFault(funding).Some? then Run(Threw(w.SendFault(funding).value), [])
      else if w.WaitFault(funding).Some? then Run(Threw(w.WaitFault(funding).value), [Sent(funding)])
      else
        var rest := Delivery(w, transfer, base + 3, Some(base), Some(symbol));
        Run(rest.outcome, [Sent(funding), Confirmed(base, 1), Paused(5000)] + rest.events)
  }

  /** Every step of a decision, as it appears in the history when nothing fails. */
  function Intended(d: Decision, base: nat): seq<Event> {
    match d
    case Stop(_) => []
    case Go(tx, _) => [Sent(tx), Confirmed(base, 1)]
    case Sponsor(funding, transfer, _) =>
      [Sent(funding), Confirmed(base, 1), Paused(5000), Sent(transfer), Confirmed(base + 3, 1)]
  }

  /**
    The steps happen in order and a failure cuts them short: what a flow appends is a
    prefix of its intended steps, all of them exactly when it succeeds. A refusal appends
    nothing.
  */
  lemma PlanFollowsIntent(w: ChainState, d: Decision, base: nat)
    requires d.Stop? ==> !d.outcome.Done?
    ensures Plan(w, d, base).events <= Intended(d, base)
    ensures Plan(w, d, base).outcome.Done? <==> !d.Stop? && Plan(w, d, base).events == Intended(d, base)
    ensures d.Stop? ==> Plan(w, d, base).events == [] && Plan(w, d, base).outcome == d.outcome
  {
    match d
    case Stop(_) =>
    case Go(tx, _) =>
    case Sponsor(funding, transfer, symbol) =>
      var rest := Delivery(w, transfer, base + 3, Some(base), Some(symbol));
      if w.SendFault(funding).None? && w.WaitFault(funding).None? {
        assert Plan(w, d, base).events == [Sent(funding), Confirmed(base, 1), Paused(5000)] + rest.events;
        assert Intended(d, base) == [Sent(funding), Confirmed(base, 1), Paused(5000)] + [Sent(transfer), Confirmed(base + 3, 1)];
      }
  }

  /**
    A successful flow's hash is the position of its transfer's `Sent` event; a sponsored
    one also reports the position of the funding's `Sent` event, which was confirmed
    before the transfer was sent.
  */
  lemma DoneNamesItsTransactions(w: ChainState, d: Decision, base: nat)
    requires d.Stop? ==> !d.outcome.Done?
    requires Plan(w, d, base).outcome.Done?
    ensures var run := Plan(w, d, base);
      base <= run.outcome.hash < base + |run.events| &&
      run.events[run.outcome.hash - base] == Sent(if d.Go? then d.tx else d.transfer) &&
      run.outcome.receipt == Receipt(w.height)
    ensures d.Go? ==> Plan(w, d, base).outcome.topUp.None?
    ensures d.Sponsor? ==>
      var run := Plan(w, d, base);
      run.outcome.topUp == Some(base) && run.outcome.hash == base + 3 &&
      run.events[0] == Sent(d.funding) && run.events[1] == Confirmed(base, 1)
  {
    PlanFollowsIntent(w, d, base);
  }

  /** Sends `tx` and waits for one confirmation. */
  method Deliver(chain: Ledger, tx: Tx, topUp: Option<Hash>, token: Option<string>) returns (o: Outcome)
    modifies chain`history
    ensures var run := Delivery(chain.world, tx, |old(chain.history)|, topUp, token);
      o == run.outcome && chain.history == old(chain.history) + run.events
  {
    var sent := chain.Submit(tx);
    if sent.Failure? {
      return Threw(sent.error);
    }
    var receipt := chain.Wait(sent.value, tx, 1);
    if receipt.Failure? {
      return Threw(receipt.error);
    }
    o := Done(sent.value, receipt.value, topUp, token);
  }

  /** Carries out a decision on the ledger: exactly the run `Plan` describes. */
  method Execute(chain: Ledger, d: Decision) returns (o: Outcome)
    modifies chain`history
    ensures var run := Plan(chain.world, d, |old(chain.history)|);
      o == run.outcome && chain.history == old(chain.history) + run.events
  {
    match d
    case Stop(outcome) =>
      o := outcome;
    case Go(tx, token) =>
      o := Deliver(chain, tx, None, token);
    case Sponsor(funding, transfer, symbol) =>
      var funded := chain.Submit(funding);
      if funded.Failure? {
        return Threw(funded.error);
      }
      var confirmed := chain.Wait(funded.value, funding, 1);
      if confirmed.Failure? {
        return Threw(confirmed.error);
      }
      chain.Pause(5000);
      o := Deliver(chain, transfer, Some(funded.value), Some(symbol));
  }
}
