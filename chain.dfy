/**
  The chain client the controllers talk to (an ethers provider/contract/wallet, or the
  shared TronWeb instance), replaced by an abstract ledger.

  `ChainState` is what the client reads: native balances, token contracts with their
  balances and metadata, the key-to-address derivation, and scripted answers for the gas
  price, the gas estimate, the block height and the transaction-status queries. A script
  of faults says which kinds of call throw, and with which error.

  `Ledger` adds what the handlers change: an append-only history of submissions,
  confirmations, pauses and status queries. A transaction's hash is the position of its
  `Sent` event in that history.
*/
module Chain {
  import opened Wrappers

  type Address = string

  /** A transaction hash: the index of the transaction's `Sent` event in the history. */
  type Hash = nat

  /**
    The `code` of a thrown error: an ethers error code, or `Plain` for an `Error` the
    handlers throw themselves, which carries no code.
  */
  datatype ErrorCode =
    | InvalidArgument
    | CallException
    | NetworkError
    | BadData
    | NumericFault
    | Plain

  datatype Error = Error(code: ErrorCode, message: string)

  /** The kinds of client call whose failure can be scripted. */
  datatype Call =
    | GetBalance | BalanceOf | Decimals | Symbol | Name
    | FeeData | EstimateGas
    | SendNative | SendToken
    | WaitNative | WaitToken

  /** A deployed token contract: balances and the optional metadata reads (None: the read reverts). */
  datatype TokenContract = TokenContract(
    balances: map<Address, nat>,
    decimals: Option<nat>,
    symbol: Option<string>,
    name: Option<string>)

  /** A submitted transaction. Amounts are raw integers (wei, sun, token base units). */
  datatype Tx =
    | NativeTx(from: Address, to: Address, value: nat, gasPrice: Option<nat>)
    | TokenTx(token: Address, from: Address, to: Address, amount: nat,
              gasLimit: Option<nat>, gasPrice: Option<nat>)

  /** The receipt `tx.wait()` resolves with. */
  datatype Receipt = Receipt(blockNumber: nat)

  /** A Tron transaction-info record; `result` is `receipt.result`, None when absent. */
  datatype TxInfo = TxInfo(result: Option<string>)

  /** The scripted answer to one Tron status query. */
  datatype PollAnswer = QueryFailed | Answered(info: TxInfo)

  datatype Event =
    | Sent(tx: Tx)
    | Confirmed(hash: Hash, confirmations: nat)
    | Paused(ms: nat)
    | StatusQueried(hash: Hash)

  predicate IsHexDigit(c: char) {
    ('0' <= c <= '9') || ('a' <= c <= 'f') || ('A' <= c <= 'F')
  }

  /** A syntactically valid EVM address: "0x" followed by 40 hex digits. */
  predicate IsAddress(s: string) {
    |s| == 42 && s[0] == '0' && s[1] == 'x' && forall i :: 2 <= i < 42 ==> IsHexDigit(s[i])
  }

  const Reverted := Error(CallException, "execution reverted")
  const NoContract := Error(BadData, "could not decode result data")

  datatype ChainState = ChainState(
    native: map<Address, nat>,
    tokens: map<Address, TokenContract>,
    wallets: map<string, Address>,
    gasPrice: nat,
    gasUnits: nat,
    height: nat,
    faults: map<Call, Error>,
    pollScript: seq<PollAnswer>)
  {
    function Fault(c: Call): Option<Error> {
      if c in faults then Some(faults[c]) else None
    }

    /** The address a private key controls; a malformed key is rejected. */
    function Wallet(key: string): Result<Address, Error> {
      if key in wallets then Success(wallets[key])
      else Failure(Error(InvalidArgument, "invalid private key"))
    }

    function NativeBalance(a: Address): Result<nat, Error> {
      if Fault(GetBalance).Some? then Failure(Fault(GetBalance).value)
      else Success(if a in native then native[a] else 0)
    }

    function TokenBalance(token: Address, holder: Address): Result<nat, Error> {
      if Fault(BalanceOf).Some? then Failure(Fault(BalanceOf).value)
      else if token !in tokens then Failure(NoContract)
      else Success(if holder in tokens[token].balances then tokens[token].balances[holder] else 0)
    }

    function TokenDecimals(token: Address): Result<nat, Error> {
      if Fault(Decimals).Some? then Failure(Fault(Decimals).value)
      else if token !in tokens then Failure(NoContract)
      else if tokens[token].decimals.None? then Failure(Reverted)
      else Success(tokens[token].decimals.value)
    }

    function TokenSymbol(token: Address): Result<string, Error> {
      if Fault(Symbol).Some? then Failure(Fault(Symbol).value)
      else if token !in tokens then Failure(NoContract)
      else if tokens[token].symbol.None? then Failure(Reverted)
      else Success(tokens[token].symbol.value)
    }

    function TokenName(token: Address): Result<string, Error> {
      if Fault(Name).Some? then Failure(Fault(Name).value)
      else if token !in tokens then Failure(NoContract)
      else if tokens[token].name.None? then Failure(Reverted)
      else Success(tokens[token].name.value)
    }

    /** `getFeeData().gasPrice` (or `getGasPrice()`). */
    function GasPrice(): Result<nat, Error> {
      if Fault(FeeData).Some? then Failure(Fault(FeeData).value) else Success(gasPrice)
    }

    /**
      A gas estimate for moving `value` to `to`. A recipient that is not an address, and a
      negative value, are refused before anything is sent.
    */
    function EstimateGasFor(to: Address, value: int): Result<nat, Error> {
      if !IsAddress(to) then Failure(Error(InvalidArgument, "invalid address"))
      else if value < 0 then Failure(Error(InvalidArgument, "value out of range"))
      else if Fault(EstimateGas).Some? then Failure(Fault(EstimateGas).value)
      else Success(gasUnits)
    }

    function SendFault(tx: Tx): Option<Error> {
      Fault(if tx.NativeTx? then SendNative else SendToken)
    }

    function WaitFault(tx: Tx): Option<Error> {
      Fault(if tx.NativeTx? then WaitNative else WaitToken)
    }

    /** The answer to the `k`-th status query; past the script the transaction is still unknown. */
    function PollAnswerAt(k: nat): PollAnswer {
      if k < |pollScript| then pollScript[k] else Answered(TxInfo(None))
    }
  }

  /** Appending two pieces one after the other is appending them joined. */
  lemma AppendAssociates(a: seq<Event>, b: seq<Event>, c: seq<Event>)
    ensures a + b + c == a + (b + c)
  {
  }

  class Ledger {
    const world: ChainState
    var history: seq<Event>
    var polled: nat

    constructor (world: ChainState)
      ensures this.world == world && history == [] && polled == 0
    {
      this.world := world;
      history := [];
      polled := 0;
    }

    /** Broadcasts `tx`; on success its hash is its position in the history. */
    method Submit(tx: Tx) returns (r: Result<Hash, Error>)
      modifies this`history
      ensures world.SendFault(tx).Some? ==>
        r == Failure(world.SendFault(tx).value) && history == old(history)
      ensures world.SendFault(tx).None? ==>
        r == Success(|old(history)|) && history == old(history) + [Sent(tx)]
    {
      var fault := world.SendFault(tx);
      if fault.Some? {
        r := Failure(fault.value);
      } else {
        r := Success(|history|);
        history := history + [Sent(tx)];
      }
    }

    /** `tx.wait(confirmations)`: resolves with a receipt, or throws when the transaction failed. */
    method Wait(hash: Hash, tx: Tx, confirmations: nat) returns (r: Result<Receipt, Error>)
      modifies this`history
      ensures world.WaitFault(tx).Some? ==>
        r == Failure(world.WaitFault(tx).value) && history == old(history)
      ensures world.WaitFault(tx).None? ==>
        r == Success(Receipt(world.height)) && history == old(history) + [Confirmed(hash, confirmations)]
    {
      var fault := world.WaitFault(tx);
      if fault.Some? {
        r := Failure(fault.value);
      } else {
        r := Success(Receipt(world.height));
        history := history + [Confirmed(hash, confirmations)];
      }
    }

    /** `await new Promise(r => setTimeout(r, ms))`. */
    method Pause(ms: nat)
      modifies this`history
      ensures history == old(history) + [Paused(ms)]
    {
      history := history + [Paused(ms)];
    }

    /** Tron `trx.getTransactionInfo(hash)`: answers from the poll script, in order. */
    method QueryStatus(hash: Hash) returns (r: Result<TxInfo, Error>)
      modifies this`history, this`polled
      ensures polled == old(polled) + 1
      ensures history == old(history) + [StatusQueried(hash)]
      ensures world.PollAnswerAt(old(polled)).QueryFailed? ==> r.Failure?
      ensures world.PollAnswerAt(old(polled)).Answered? ==>
        r == Success(world.PollAnswerAt(old(polled)).info)
    {
      var answer := world.PollAnswerAt(polled);
      polled := polled + 1;
      history := history + [StatusQueried(hash)];
      if answer.QueryFailed? {
        r := Failure(Error(NetworkError, "transaction info unavailable"));
      } else {
        r := Success(answer.info);
      }
    }
  }
}
