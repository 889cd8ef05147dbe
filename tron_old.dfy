/**
  The older Tron forwarding helpers: reading a TRC-20 balance, and sweeping a wallet's
  whole token balance to another address, polling for the result and notifying the
  back office.

  The TronWeb client is one shared instance. `forwardToken` installs the sender's key on
  it before anything else, so a valid key outlives the call whatever the outcome; a key
  that derives no address is refused there, and the previous key stays installed.
*/
module TronForwarding {
  import opened Wrappers
  import opened Chain
  import opened Units
  import opened Webhooks

  /** How many times a forward asks for the transaction's status. */
  const PollLimit: nat := 20
  /** The pause after every status answer that is not a success, in milliseconds. */
  const PollPause: nat := 3000
  /** The `receipt.result` of a transaction that executed successfully. */
  const Executed := "SUCCESS"

  /** What `setPrivateKey` throws for a key it cannot derive an address from. */
  const KeyRejected := Error(Plain, "Invalid private key provided")

  /** `tron.contract().at(token)`: fails unless a contract is deployed at `token`. */
  function At(w: ChainState, token: Address): Result<Address, Error> {
    if token in w.tokens then Success(token)
    else Failure(Error(BadData, "Contract has not been deployed on the network"))
  }

  /** A balance as `getTokenBalance` reports it: raw units, decimals, whole tokens. */
  datatype TokenAmount = TokenAmount(raw: nat, decimals: nat, balance: nat)

  /**
    `getTokenBalance`. The contract must be deployed and its balance read must succeed; the
    decimals fall back to 18. The balance is the integer quotient of the raw amount by
    `10^decimals`, so any fractional token is dropped.
  */
  function TokenBalanceOf(w: ChainState, token: Address, holder: Address): (r: Result<TokenAmount, Error>)
    ensures r.Success? <==> token in w.tokens && w.TokenBalance(token, holder).Success?
    ensures token !in w.tokens ==> r == Failure(At(w, token).error)
    ensures r.Success? ==>
      r.value.raw == w.TokenBalance(token, holder).value &&
      r.value.decimals == w.TokenDecimals(token).GetOr(18)
    ensures r.Success? ==> RoundsDown(r.value.balance, r.value.raw, Pow10(r.value.decimals))
  {
    match At(w, token)
    case Failure(e) => Failure(e)
    case Success(contract) =>
      match w.TokenBalance(contract, holder)
      case Failure(e) => Failure(e)
      case Success(raw) =>
        var decimals := w.TokenDecimals(contract).GetOr(18);
        Success(TokenAmount(raw, decimals, Quotient(raw, Pow10(decimals))))
  }

  /** `q` is `n / d` rounded down: `q` whole `d`s fit in `n`, and one more does not. */
  predicate RoundsDown(q: nat, n: nat, d: nat) {
    q * d <= n < (q + 1) * d
  }

  /** `BigInt` division of naturals: the quotient rounded down. */
  function Quotient(n: nat, d: nat): (q: nat)
    requires d >= 1
    ensures RoundsDown(q, n, d)
  {
    var q: int := n / d;
    assert n == q * d + n % d;
    q
  }

  /** Whether the `k`-th status query answers that the transaction executed. */
  predicate Succeeds(w: ChainState, k: nat) {
    w.PollAnswerAt(k).Answered? && w.PollAnswerAt(k).info.result == Some(Executed)
  }

  /** The info held after the `k`-th query: its answer, or `last` when the query failed. */
  function Latest(w: ChainState, k: nat, last: Option<TxInfo>): Option<TxInfo> {
    if w.PollAnswerAt(k).Answered? then Some(w.PollAnswerAt(k).info) else last
  }

  /**
    The polling that follows a submission: how many status queries were made, whether the
    last one reported success, and the last transaction info received (`receipt`).
  */
  datatype Polling = Polling(receipt: Option<TxInfo>, attempts: nat, confirmed: bool)

  /**
    The polling loop from attempt `i` on, the next query being the `cursor`-th. A query
    that fails keeps the previous info; an answer replaces it. The loop stops at the first
    success or after the twentieth attempt.
  */
  function Poll(w: ChainState, cursor: nat, i: nat, last: Option<TxInfo>): (p: Polling)
    requires i <= PollLimit
    decreases PollLimit - i
    ensures p.attempts <= PollLimit - i
    ensures !p.confirmed ==> p.attempts == PollLimit - i
    ensures p.confirmed ==> 1 <= p.attempts && Succeeds(w, cursor + p.attempts - 1)
    ensures p.confirmed ==> p.receipt == Some(TxInfo(Some(Executed)))
  {
    if i == PollLimit then Polling(last, 0, false)
    else if Succeeds(w, cursor) then Polling(Latest(w, cursor, last), 1, true)
    else
      var rest := Poll(w, cursor + 1, i + 1, Latest(w, cursor, last));
      Polling(rest.receipt, rest.attempts + 1, rest.confirmed)
  }

  /** Every query a polling makes before its last one, and its last one unless confirmed, fails. */
  lemma {:induction false} PollMissesFirst(w: ChainState, cursor: nat, i: nat, last: Option<TxInfo>)
    requires i <= PollLimit
    decreases PollLimit - i
    ensures var p := Poll(w, cursor, i, last);
      forall k :: cursor <= k < cursor + p.attempts - (if p.confirmed then 1 else 0) ==> !Succeeds(w, k)
  {
    if i < PollLimit && !Succeeds(w, cursor) {
      PollMissesFirst(w, cursor + 1, i + 1, Latest(w, cursor, last));
    }
  }

  /** A polling is confirmed exactly when one of the queries it may make reports success. */
  lemma PollConfirmsIffSomeSuccess(w: ChainState, cursor: nat, i: nat, last: Option<TxInfo>)
    requires i <= PollLimit
    ensures Poll(w, cursor, i, last).confirmed <==> exists k :: cursor <= k < cursor + (PollLimit - i) && Succeeds(w, k)
  {
    var p := Poll(w, cursor, i, last);
    PollMissesFirst(w, cursor, i, last);
    if p.confirmed {
      assert Succeeds(w, cursor + p.attempts - 1);
    }
  }

  /** The ledger events of `n` queries that did not report success: each is followed by a pause. */
  function Rounds(hash: Hash, n: nat): (r: seq<Event>)
    ensures |r| == 2 * n
  {
    if n == 0 then [] else Rounds(hash, n - 1) + [StatusQueried(hash), Paused(PollPause)]
  }

  /**
    The ledger events of a polling of `attempts` queries: a query, then a pause, and so on;
    the pause after a query that reported success is skipped.
  */
  function Pacing(hash: Hash, attempts: nat, confirmed: bool): (r: seq<Event>)
    requires confirmed ==> attempts >= 1
    ensures |r| == 2 * attempts - (if confirmed then 1 else 0)
  {
    if confirmed then Rounds(hash, attempts - 1) + [StatusQueried(hash)] else Rounds(hash, attempts)
  }

  /** Queries and pauses alternate, a query first. */
  lemma {:induction false} RoundsAlternate(hash: Hash, n: nat)
    ensures forall k :: 0 <= k < |Rounds(hash, n)| ==>
      Rounds(hash, n)[k] == (if k % 2 == 0 then StatusQueried(hash) else Paused(PollPause))
  {
    if n > 0 {
      RoundsAlternate(hash, n - 1);
      var r := Rounds(hash, n);
      forall k | 0 <= k < |r|
        ensures r[k] == (if k % 2 == 0 then StatusQueried(hash) else Paused(PollPause))
      {
        if k >= 2 * (n - 1) {
          assert k == 2 * (n - 1) || k == 2 * (n - 1) + 1;
        } else {
          assert r[k] == Rounds(hash, n - 1)[k];
        }
      }
    }
  }

  /** A polling sends nothing: it only queries and pauses, alternately, a query first and last. */
  lemma PacingAlternates(hash: Hash, attempts: nat, confirmed: bool)
    requires confirmed ==> attempts >= 1
    ensures var r := Pacing(hash, attempts, confirmed);
      forall k :: 0 <= k < |r| ==> r[k] == (if k % 2 == 0 then StatusQueried(hash) else Paused(PollPause))
  {
    if confirmed {
      RoundsAlternate(hash, attempts - 1);
      var r := Pacing(hash, attempts, confirmed);
      forall k | 0 <= k < |r|
        ensures r[k] == (if k % 2 == 0 then StatusQueried(hash) else Paused(PollPause))
      {
        if k < |r| - 1 {
          assert r[k] == Rounds(hash, attempts - 1)[k];
        }
      }
    } else {
      RoundsAlternate(hash, attempts);
    }
  }

  /** One more query, and its pause unless it reported success. */
  lemma PacingStep(hash: Hash, n: nat, hit: bool)
    ensures Pacing(hash, n + 1, hit) ==
      Pacing(hash, n, false) + (if hit then [StatusQueried(hash)] else [StatusQueried(hash), Paused(PollPause)])
  {
  }

  /** The info held after the first `n` queries from the `cursor`-th on. */
  function Received(w: ChainState, cursor: nat, n: nat): Option<TxInfo> {
    if n == 0 then None else Latest(w, cursor + (n - 1), Received(w, cursor, n - 1))
  }

  /**
    The polling loop read forwards. Suppose the first `n - 1` queries report no success,
    and either the `n`-th reports one (`confirmed`) or `n` is the limit and none does.
    Then from attempt `i` on the loop makes the remaining `n - i` queries and ends holding
    what the `n` queries received.
  */
  lemma {:induction false} PollTail(w: ChainState, cursor: nat, i: nat, n: nat, confirmed: bool)
    requires n <= PollLimit
    requires forall k :: cursor <= k < cursor + n - 1 ==> !Succeeds(w, k)
    requires confirmed ==> 1 <= n && i < n && Succeeds(w, cursor + (n - 1))
    requires !confirmed ==> n == PollLimit && i <= n && (n >= 1 ==> !Succeeds(w, cursor + (n - 1)))
    decreases n - i
    ensures Poll(w, cursor + i, i, Received(w, cursor, i)) == Polling(Received(w, cursor, n), n - i, confirmed)
  {
    if confirmed && i == n - 1 {
      assert Received(w, cursor, n) == Latest(w, cursor + i, Received(w, cursor, i));
    } else if i < n {
      assert !Succeeds(w, cursor + i);
      assert Received(w, cursor, i + 1) == Latest(w, cursor + i, Received(w, cursor, i));
      PollTail(w, cursor, i + 1, n, confirmed);
    }
  }

  /** What `forwardToken` resolves with: the transaction id and the last status info. */
  datatype Forwarded = Forwarded(txId: Hash, receipt: Option<TxInfo>)

  /** A whole forward: its result, the ledger events, the status queries made, the notice posted. */
  datatype ForwardRun = ForwardRun(result: Result<Forwarded, Error>, events: seq<Event>, polls: nat, notice: Option<Notice>)

  function Abort(e: Error): ForwardRun {
    ForwardRun(Failure(e), [], 0, None)
  }

  /**
    The reads and guards of `forwardToken`, up to the transfer it submits: the key must be
    valid, the contract deployed, the token balance readable and not zero, and the sender
    must hold any TRX at all. The transfer moves the whole token balance.
  */
  function Prepare(w: ChainState, key: string, token: Address, to: Address): (r: Result<Tx, Error>)
    ensures w.Wallet(key).Failure? ==> r == Failure(KeyRejected)
    ensures w.Wallet(key).Success? && token !in w.tokens ==> r == Failure(At(w, token).error)
    ensures r.Success? <==>
      w.Wallet(key).Success? && token in w.tokens &&
      w.TokenBalance(token, w.Wallet(key).value).Success? && w.TokenBalance(token, w.Wallet(key).value).value > 0 &&
      w.NativeBalance(w.Wallet(key).value).Success? && w.NativeBalance(w.Wallet(key).value).value >= 1
    ensures r.Success? ==>
      r.value == TokenTx(token, w.Wallet(key).value, to, w.TokenBalance(token, w.Wallet(key).value).value, None, None)
  {
    match w.Wallet(key)
    case Failure(_) => Failure(KeyRejected)
    case Success(from) =>
      match At(w, token)
      case Failure(e) => Failure(e)
      case Success(contract) =>
        match w.TokenBalance(contract, from)
        case Failure(e) => Failure(e)
        case Success(raw) =>
          if raw == 0 then Failure(Error(Plain, "zero token balance"))
          else
            match w.NativeBalance(from)
            case Failure(e) => Failure(e)
            case Success(trx) =>
              if trx < 1 then Failure(Error(Plain, "insufficient TRX for fee"))
              else Success(TokenTx(contract, from, to, raw, None, None))
  }

  /**
    What happens to a prepared transfer `tx` when the history holds `base` events and the
    next status query is the `cursor`-th: it is submitted once; unless the node refuses
    it, its status is polled and the back office notified. A refused submission appends
    nothing and notifies no one.
  */
  function Dispatch(w: ChainState, tx: Tx, base: nat, cursor: nat): (run: ForwardRun)
    ensures run.result.Success? <==> w.SendFault(tx).None?
    ensures run.result.Failure? ==> run == Abort(w.SendFault(tx).value)
    ensures run.result.Success? ==>
      |run.events| > 0 && run.events[0] == Sent(tx) &&
      (forall k :: 1 <= k < |run.events| ==> !run.events[k].Sent?) &&
      run.result.value.txId == base &&
      1 <= run.polls <= PollLimit &&
      run.notice == Some(TronForwarded(base, run.result.value.receipt))
    ensures w.SendFault(tx).None? ==>
      var p := Poll(w, cursor, 0, None);
      run.result == Success(Forwarded(base, p.receipt)) && run.polls == p.attempts &&
      run.events == [Sent(tx)] + Pacing(base, p.attempts, p.confirmed)
  {
    if w.SendFault(tx).Some? then Abort(w.SendFault(tx).value)
    else
      var p := Poll(w, cursor, 0, None);
      PacingAlternates(base, p.attempts, p.confirmed);
      ForwardRun(Success(Forwarded(base, p.receipt)), [Sent(tx)] + Pacing(base, p.attempts, p.confirmed),
                 p.attempts, Some(TronForwarded(base, p.receipt)))
  }

  /**
    `forwardToken` from `key` to `to`: the guards, then the dispatch of the whole token
    balance. A refusal appends nothing and notifies no one.
  */
  function ForwardPlan(w: ChainState, key: string, token: Address, to: Address, base: nat, cursor: nat): (run: ForwardRun)
    ensures run.result.Success? <==>
      Prepare(w, key, token, to).Success? && w.SendFault(Prepare(w, key, token, to).value).None?
    ensures run.result.Failure? ==> run.events == [] && run.polls == 0 && run.notice.None?
    ensures run.result.Success? ==>
      |run.events| > 0 && run.events[0] == Sent(Prepare(w, key, token, to).value) &&
      (forall k :: 1 <= k < |run.events| ==> !run.events[k].Sent?) &&
      run.result.value.txId == base &&
      1 <= run.polls <= PollLimit &&
      run.notice == Some(TronForwarded(base, run.result.value.receipt))
    ensures run.result.Success? ==>
      var p := Poll(w, cursor, 0, None);
      run.result.value.receipt == p.receipt && run.polls == p.attempts &&
      run.events == [Sent(Prepare(w, key, token, to).value)] + Pacing(base, p.attempts, p.confirmed)
  {
    match Prepare(w, key, token, to)
    case Failure(e) => Abort(e)
    case Success(tx) => Dispatch(w, tx, base, cursor)
  }

  /**
    A successful forward reports the info of the last status query that was answered
    (None when none was), whether or not it says the transfer executed.
  */
  lemma ForwardReportsLastInfo(w: ChainState, key: string, token: Address, to: Address, base: nat, cursor: nat)
    requires ForwardPlan(w, key, token, to, base, cursor).result.Success?
    ensures var run := ForwardPlan(w, key, token, to, base, cursor);
      run.result.value.receipt == Received(w, cursor, run.polls)
  {
    PollEndsWithReceived(w, cursor);
  }

  /** A whole polling ends holding what its queries received. */
  lemma PollEndsWithReceived(w: ChainState, cursor: nat)
    ensures var p := Poll(w, cursor, 0, None);
      p.receipt == Received(w, cursor, p.attempts)
  {
    var p := Poll(w, cursor, 0, None);
    PollMissesFirst(w, cursor, 0, None);
    PollTail(w, cursor, 0, p.attempts, p.confirmed);
    assert cursor + 0 == cursor && Received(w, cursor, 0) == None;
  }

  /** The shared TronWeb client, with the key installed last. */
  class TronClient {
    var privateKey: Option<string>
    /** The Tron full node the client talks to. */
    const node: Ledger
    /** The back office notified after each forward. */
    const hook: Webhook

    constructor (node: Ledger, hook: Webhook)
      ensures privateKey == None && this.node == node && this.hook == hook
    {
      privateKey := None;
      this.node := node;
      this.hook := hook;
    }

    /**
      One pass of the polling loop: a status query whose failure is swallowed, then a pause
      unless the answer is a success. `hit` says whether the loop stops here.
    */
    method Attempt(hash: Hash, last: Option<TxInfo>) returns (receipt: Option<TxInfo>, hit: bool)
      modifies node`history, node`polled
      ensures hit == Succeeds(node.world, old(node.polled))
      ensures receipt == Latest(node.world, old(node.polled), last)
      ensures node.polled == old(node.polled) + 1
      ensures node.history == old(node.history) +
        (if hit then [StatusQueried(hash)] else [StatusQueried(hash), Paused(PollPause)])
    {
      receipt := last;
      var answer := node.QueryStatus(hash);
      if answer.Success? {
        receipt := Some(answer.value);
        if answer.value.result == Some(Executed) {
          return receipt, true;
        }
      }
      node.Pause(PollPause);
      hit := false;
    }

    /**
      The polling loop of `forwardToken`: up to twenty attempts, stopping at the first
      success. The receipt is the last info received.
    */
    method AwaitStatus(hash: Hash) returns (receipt: Option<TxInfo>)
      modifies node`history, node`polled
      ensures var p := Poll(node.world, old(node.polled), 0, None);
        receipt == p.receipt &&
        node.history == old(node.history) + Pacing(hash, p.attempts, p.confirmed) &&
        node.polled == old(node.polled) + p.attempts
    {
      ghost var w := node.world;
      ghost var cursor := node.polled;
      ghost var start := node.history;
      receipt := None;
      var i := 0;
      var hit := false;
      while i < PollLimit
        invariant 0 <= i <= PollLimit && !hit
        invariant node.polled == cursor + i
        invariant node.history == start + Pacing(hash, i, false)
        invariant receipt == Received(w, cursor, i)
        invariant forall k :: cursor <= k < cursor + i ==> !Succeeds(w, k)
      {
        receipt, hit := Attempt(hash, receipt);
        PacingStep(hash, i, hit);
        AppendAssociates(start, Pacing(hash, i, false),
                         if hit then [StatusQueried(hash)] else [StatusQueried(hash), Paused(PollPause)]);
        i := i + 1;
        if hit {
          break;
        }
      }
      PollTail(w, cursor, 0, i, hit);
    }

    /** `getTokenBalance`: the decimals start at 18 and are replaced when the read succeeds. */
    method GetTokenBalance(token: Address, holder: Address) returns (r: Result<TokenAmount, Error>)
      ensures r == TokenBalanceOf(node.world, token, holder)
    {
      var contract := At(node.world, token);
      if contract.Failure? {
        return Failure(contract.error);
      }
      var raw := node.world.TokenBalance(contract.value, holder);
      if raw.Failure? {
        return Failure(raw.error);
      }
      var decimals := 18;
      var read := node.world.TokenDecimals(contract.value);
      if read.Success? {
        decimals := read.value;
      }
      r := Success(TokenAmount(raw.value, decimals, Quotient(raw.value, Pow10(decimals))));
    }

    /**
      `tron.setPrivateKey(key)`: a key that derives an address is installed; any other is
      refused with an error, and the installed key stays as it was.
    */
    method SetPrivateKey(key: string) returns (r: Result<Address, Error>)
      modifies this`privateKey
      ensures node.world.Wallet(key).Success? ==> r == node.world.Wallet(key) && privateKey == Some(key)
      ensures node.world.Wallet(key).Failure? ==> r == Failure(KeyRejected) && privateKey == old(privateKey)
    {
      var from := node.world.Wallet(key);
      if from.Failure? {
        return Failure(KeyRejected);
      }
      privateKey := Some(key);
      r := from;
    }

    /** The reads and guards of `forwardToken`, as `Prepare` states them; nothing changes. */
    method Preflight(key: string, token: Address, to: Address) returns (r: Result<Tx, Error>)
      ensures r == Prepare(node.world, key, token, to)
    {
      var from := node.world.Wallet(key);
      if from.Failure? {
        return Failure(KeyRejected);
      }
      var contract := At(node.world, token);
      if contract.Failure? {
        return Failure(contract.error);
      }
      var rawBal := node.world.TokenBalance(token, from.value);
      if rawBal.Failure? {
        return Failure(rawBal.error);
      }
      if rawBal.value == 0 {
        return Failure(Error(Plain, "zero token balance"));
      }
      var trx := node.world.NativeBalance(from.value);
      if trx.Failure? {
        return Failure(trx.error);
      }
      if trx.value < 1 {
        return Failure(Error(Plain, "insufficient TRX for fee"));
      }
      r := Success(TokenTx(token, from.value, to, rawBal.value, None, None));
    }

    /** Submits `tx`, awaits its status and notifies the back office, as `Dispatch` states. */
    method Send(tx: Tx) returns (r: Result<Forwarded, Error>)
      modifies node`history, node`polled, hook`delivered
      ensures var run := Dispatch(node.world, tx, |old(node.history)|, old(node.polled));
        r == run.result &&
        node.history == old(node.history) + run.events &&
        node.polled == old(node.polled) + run.polls &&
        hook.delivered == old(hook.delivered) + (if run.notice.Some? && hook.reachable then [run.notice.value] else [])
    {
      ghost var before := node.history;
      ghost var p := Poll(node.world, node.polled, 0, None);
      var sent := node.Submit(tx);
      if sent.Failure? {
        return Failure(sent.error);
      }
      var hash := sent.value;
      var receipt := AwaitStatus(hash);
      AppendAssociates(before, [Sent(tx)], Pacing(hash, p.attempts, p.confirmed));
      hook.Post(TronForwarded(hash, receipt));
      r := Success(Forwarded(hash, receipt));
    }

    /**
      `forwardToken`. A valid key stays installed whatever happens, and a refused one
      leaves the previous key; the ledger, the status cursor and the back office change
      exactly as `ForwardPlan` says.
    */
    method ForwardToken(key: string, token: Address, to: Address) returns (r: Result<Forwarded, Error>)
      modifies this`privateKey, node`history, node`polled, hook`delivered
      ensures privateKey == (if node.world.Wallet(key).Success? then Some(key) else old(privateKey))
      ensures var run := ForwardPlan(node.world, key, token, to, |old(node.history)|, old(node.polled));
        r == run.result &&
        node.history == old(node.history) + run.events &&
        node.polled == old(node.polled) + run.polls &&
        hook.delivered == old(hook.delivered) + (if run.notice.Some? && hook.reachable then [run.notice.value] else [])
    {
      var installed := SetPrivateKey(key);
      if installed.Failure? {
        return Failure(installed.error);
      }
      var prepared := Preflight(key, token, to);
      if prepared.Failure? {
        return Failure(prepared.error);
      }
      r := Send(prepared.value);
    }
  }
}
