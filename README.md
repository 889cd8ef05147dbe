# Custodial wallet transfer handlers, modelled in Dafny

The backend keeps custodial wallets on several chains and serves HTTP handlers that do
four things: look up balances, list a wallet's history, move coins and tokens, and sweep
a deposit wallet to a collection address. This project models the decision and
sequencing logic of those handlers:

- **BSC controller** (`controllers/Bep20Controller.js`): balance lookup, token-transfer
  listing, merged history, the transfer handler, the gas-sponsored token transfer and
  the plain BNB transfer.
- **Polygon controller** (`controllers/polygonConroller.js`): balance lookup, merged
  history, the transfer handler (its MATIC mode is switched off) and the gas-sponsored
  token transfer.
- **Generic EVM controller** (`controllers/evmController.js`), wired to BSC: token balance
  lookup, token-transfer listing, the transfer handler, coin balance lookup and the
  plain BNB transfer.
- **Older forwarding helpers** for Tron (`controllers/tronControllerold.js`) and BSC
  (`controllers/evmControllerold.js`): token balance reads, and `forwardToken`, which
  sweeps a wallet's whole token balance and then notifies the back office.

The blockchain is an abstract ledger (`Chain`):

- A `ChainState` value scripts every read the handlers make: native and token balances,
  token metadata, the gas price and estimate, which submissions and waits fail, and the
  answers to Tron status queries. A read that the real client would throw on is a
  `Failure` carrying the ethers error code.
- A `Ledger` object holds that state and an append-only `history` of events:
  - `Sent(tx)`: a transaction was submitted; its hash is its position in the history;
  - `Confirmed`: a wait resolved;
  - `Paused`: a `setTimeout` delay;
  - `StatusQueried`: a Tron status query was made.

The back-office webhook is a `Webhook` object that records the notices it receives. An
unreachable back office swallows the post, as the handlers' `catch` does.

Module layout:

- `wrappers.dfy`: `Option` and `Result`.
- `chain.dfy`: the ledger.
- `units.dfy`: raw and human amounts, and the gas top-up.
- `history.dfy`: explorer replies, the merge, the newest-first sort and the page.
- `flows.dfy`: the three transfer flows (native, direct token, sponsored token). Each is a
  decision function, plus `Plan` and the method `Execute` that carries the decision out.
- `api.dfy`: requests, responses, and the replies and answer mapping the controllers
  share.
- `bep20.dfy`, `polygon.dfy`, `evm.dfy`: one class per controller. Each class holds the
  provider it shares across handlers and has one method per handler.
- `webhook.dfy`, `tron_old.dfy`, `evm_old.dfy`: the forwarding helpers.

Each transfer handler is a method proved equal to a pure plan. That plan's properties are
lemmas:

- the steps happen in order;
- a failure cuts them short;
- a refusal submits nothing;
- a success names transactions the history holds.

## Model

| member | source | states |
|---|---|---|
| Chain.Ledger.constructor | controllers/Bep20Controller.js:17 | A fresh provider has an empty history and has answered no status query yet. |
| Chain.Ledger.Submit | controllers/Bep20Controller.js:384-388 | A refused submission throws and records nothing; an accepted one appends exactly one `Sent` event, and its hash locates that event. |
| Chain.Ledger.Wait | controllers/Bep20Controller.js:393 | `wait()` resolves with a receipt at the current height and records the confirmation, or throws and records nothing. |
| Chain.Ledger.Pause | controllers/Bep20Controller.js:573 | A delay records one pause of the given length and nothing else. |
| Chain.Ledger.QueryStatus | controllers/tronControllerold.js:57 | Each status query consumes the next scripted answer: a failed query throws, an answered one returns that info; every query is recorded. |
| Webhooks.Webhook.constructor | controllers/tronControllerold.js:62 | The back office starts with no notices. |
| Webhooks.Webhook.Post | controllers/evmControllerold.js:44-46 | A reachable back office receives the notice; an unreachable one receives nothing and the failure goes no further. |
| Units.ParseUnits | controllers/Bep20Controller.js:468 | `parseUnits` succeeds exactly when the amount has no more fractional digits than the decimals, and then gives the raw amount that equals amount × 10^decimals. |
| Units.ParseAmount | controllers/Bep20Controller.js:341 | `parseUnits(amount.toString(), ..)` succeeds exactly when the number is not written in exponent form (non-zero and below 10^-6, or from 10^21 up) and has no more fractional digits than the decimals; then it gives amount × 10^decimals. An exponent-form amount fails with an invalid-argument error. |
| Units.TinyAmountIsRefused | controllers/Bep20Controller.js:468 | 0.0000001 is a whole number of wei, yet the handlers cannot parse it, because its text is "1e-7". |
| Units.ScaleBack | controllers/Bep20Controller.js:97 | Formatting a raw amount and scaling it back up gives the raw amount. |
| Units.ParseExact | controllers/Bep20Controller.js:468 | An amount that scales to a whole number parses to exactly that number. |
| Units.ParseFormatRoundTrip | controllers/Bep20Controller.js:439 | Parsing a formatted raw amount gives back the raw amount, for every precision. |
| Units.FormatParseRoundTrip | controllers/Bep20Controller.js:468 | Formatting a parsed amount gives back the human amount. |
| Units.ShortfallIsRawShortfall | controllers/Bep20Controller.js:439-450 | With exact values, the handlers' human-scaled "balance < amount" check is the raw-integer check the chain itself makes, in both directions. |
| Units.TopUp | controllers/Bep20Controller.js:558-567 | The funding is a whole number of micro-coins within half a micro-coin of 1.2 × fee: the 20% margin rounded half-up to 6 decimals. |
| Units.TopUpCoversFee | controllers/polygonConroller.js:484-494 | The funding exceeds the fee whenever the fee is at least 2.5 micro-coins. |
| Units.TopUpRoundsTinyFeeToZero | controllers/polygonConroller.js:484-494 | A fee below 5/12 of a micro-coin is rounded away, so the funding carries nothing. |
| Units.TopUpMonotonic | controllers/Bep20Controller.js:558-567 | A larger fee never receives a smaller funding. |
| History.SelectListed | controllers/Bep20Controller.js:241-257 | A BSC explorer answer counts exactly when its status is "1" and it has rows, and then all its rows. With status "1", a missing or non-empty text result makes the handler throw. |
| History.SelectTruthy | controllers/polygonConroller.js:172-188 | A Polygon answer counts exactly when it has rows, whatever its status, and a non-empty text result makes the handler throw. |
| History.DecimalsOr18 | controllers/Bep20Controller.js:261 | A token entry's precision is never 0: an unparsable or zero precision becomes 18, and any other is kept. |
| History.OrElse | controllers/Bep20Controller.js:269-270 | A non-empty symbol or name is kept, and an empty one is always replaced by the fallback. |
| History.Merge | controllers/Bep20Controller.js:238-279 | The merged list holds one entry per counted row. Position i < n (n native rows) is the native entry built from native row i with the chain's symbol and name; every later position i is the token entry built from token row i - n. |
| History.InsertByTime | controllers/Bep20Controller.js:281 | One step of the sort adds exactly the given entry and loses none. |
| History.NewestFirst | controllers/Bep20Controller.js:281 | The sort is a permutation of the merged list. |
| History.NewestFirstIsOrdered | controllers/Bep20Controller.js:281 | The sorted history is newest first. |
| History.NewestFirstIsStable | controllers/polygonConroller.js:211 | Entries with equal timestamps keep their merged order: the sort is stable. |
| History.PageIsNewest | controllers/Bep20Controller.js:281-289 | The page holds min(total, 100) entries, newest first, drawn from the merged list. No entry left out is newer than an entry kept. |
| History.TransferViews | controllers/Bep20Controller.js:176-191 | The listing shows every explorer row, one view per row, in the explorer's order. |
| Flows.ReadHolding | controllers/Bep20Controller.js:433-437 | The symbol, decimals and balance reads all have to succeed; the symbol, balance and decimals are passed on unchanged. |
| Flows.NativeDecision | controllers/Bep20Controller.js:315-388 | A native transfer is sent only to an address, when the balance covers the amount and covers the amount plus estimate × price in wei; it moves exactly the requested amount at the quoted price. Conversely, a readable balance below the amount is refused as a native shortfall, and, once every quote succeeds, a balance below amount plus fee is refused as a fee shortfall. Every refusal had one of these two shortfalls. A failed read never counts as success. |
| Flows.FeeDecision | controllers/Bep20Controller.js:340-388 | After the amount check: the parse, the price and the estimate must succeed, and the transfer goes ahead exactly when the balance covers amount plus fee. Any shortfall is reported with the balance and the total. |
| Flows.MinGasIsRaw | controllers/Bep20Controller.js:452-458 | The check `bnbBalance < 0.0002` is the raw check `balance < 2 × 10^14 wei`. |
| Flows.GasGuard | controllers/Bep20Controller.js:452-466 | When asked for, the BSC gas minimum refuses exactly the balances below 0.0002 BNB; passing it means the balance was read and holds the minimum. |
| Flows.TokenQuote | controllers/Bep20Controller.js:468-475 | The quote succeeds exactly when the amount parses, the estimate for that recipient and amount succeeds, and the price read succeeds. The raw amount then equals amount × 10^decimals, the recipient is an address, and the estimate and price are the chain's quotes. An amount that does not parse fails with the parse error. |
| Flows.TokenDecision | controllers/Bep20Controller.js:422-486 | A direct token transfer is sent only to an address, when the token balance covers the amount and, on BSC, the sender holds 0.0002 BNB. It moves exactly the requested raw amount with the estimate as gas limit and the quoted price. Conversely, a readable token balance below the amount is refused as a token shortfall, and on BSC a readable native balance under 0.0002 BNB is refused as a gas shortfall. Every refusal had one of these two shortfalls. |
| Flows.HoldingDecision | controllers/Bep20Controller.js:439-486 | Once the holding is read: a token shortfall is refused first, then on BSC a gas shortfall; a transfer that goes ahead moves amount × 10^decimals to an address with the quoted gas. Every refusal is one of the two shortfalls. |
| Flows.SponsoredDecision | controllers/Bep20Controller.js:522-567 | A sponsored transfer is refused exactly when the readable token balance falls short of the amount, and that refusal reports the symbol, the balance and the amount. When it goes ahead, the recipient is an address, the admin wallet funds the sender with the top-up of estimate × price, and the transfer moves exactly the requested amount with the estimate as gas limit and the quoted price. |
| Flows.PlanFollowsIntent | controllers/Bep20Controller.js:565-583 | What a flow does is a prefix of its intended steps (funding, its confirmation, the pause, the transfer, its confirmation); it does all of them exactly when it succeeds, and a refusal does nothing. |
| Flows.DoneNamesItsTransactions | controllers/Bep20Controller.js:583-599 | A successful flow's hash locates its transfer's `Sent` event and its receipt is the chain's. A sponsored flow also reports the funding's hash, which was sent and confirmed first. |
| Flows.Deliver | controllers/Bep20Controller.js:483-491 | Sending and waiting changes the history exactly as the plan for a single transaction says. |
| Flows.Execute | controllers/Bep20Controller.js:565-583 | Carrying out a decision changes the history and answers exactly as `Plan` says. |
| Api.CheckAddress | controllers/Bep20Controller.js:49 | `getAddress` accepts exactly the well-formed addresses and rejects the rest as an invalid argument. |
| Api.LookupFailure | controllers/Bep20Controller.js:118-142 | Each lookup error maps to a status. A call exception (and, where mapped, an invalid argument) is 400 and everything else is 500. A network error names the network. |
| Api.Metadata | controllers/Bep20Controller.js:88-108 | Failing decimals, symbol and name reads fall back to 18, "UNKNOWN" and "Unknown Token"; successful reads are reported as read. |
| Api.BalanceReply | controllers/polygonConroller.js:44-144 | A missing address is 400. The lookup is 200 exactly when the addresses are well formed and the balance read succeeds, whatever the metadata reads do. It reports the raw balance unchanged, with the coin's or the token's description. Any other failure is mapped by `LookupFailure`. |
| Api.CoinBalanceReply | controllers/evmController.js:356-396 | A missing or malformed address is 400 before any read. The answer is 200 exactly when the balance read succeeds, and reports that balance. |
| Api.AllTransactionsReply | controllers/polygonConroller.js:148-228 | A missing address is 400 and a failed fetch or an unreadable answer 500. Otherwise it is 200 with the total of the merged list and its page. |
| Api.AllTransactionsArePaged | controllers/Bep20Controller.js:281-289 | A successful history answer counts every merged entry in `total` and returns min(total, 100) of them, newest first, drawn from the merge. |
| Api.TokenTransfersReply | controllers/evmController.js:103-158 | A missing address is 400 and a failed fetch 500. A status other than "1" or an empty result is 404. The answer is 200 exactly when there are rows, and then lists all of them with `total` their number. |
| Api.Missing | controllers/Bep20Controller.js:418 | A request that lacks a field is a 400 that never claims success. |
| Api.Answer | controllers/Bep20Controller.js:493-510 | A flow's outcome decides the status: 200 exactly on success (with the transfer's hash and block, and the funding hash when there is one), 400 exactly on a guard refusal, and 500 exactly when a call threw (with its message). |
| Api.Respond | controllers/Bep20Controller.js:414-511 | A transfer answers as its plan says and changes the history as its plan says. A 400 appends nothing. A 200 names a `Sent` transaction in the history, and for a sponsored transfer names the earlier funding too. |
| Bep20.Bep20Controller.constructor | controllers/Bep20Controller.js:17-19 | The controller shares one provider and one admin wallet across its handlers. |
| Bep20.Bep20Controller.GetBalance | controllers/Bep20Controller.js:37-144 | `getBalance` answers as `BalanceReply` for BSC. |
| Bep20.Bep20Controller.GetTransactions | controllers/Bep20Controller.js:147-200 | `getTransactions` answers as `TokenTransfersReply`. |
| Bep20.Bep20Controller.GetAllTransactions | controllers/Bep20Controller.js:203-299 | `getAllTransactions` answers as `AllTransactionsReply` under the status-"1" rule with the BNB coin. |
| Bep20.Bep20Controller.Transfer | controllers/Bep20Controller.js:303-512 | Mode "BNP" runs the native flow and any other mode the token flow with the gas minimum. Missing fields and refusals submit nothing, and a 200 names a transaction the history holds. |
| Bep20.Bep20Controller.TransferWithGasSupport | controllers/Bep20Controller.js:514-608 | The sponsored flow runs. Missing fields and refusals submit nothing. A 200 names both the funding and the transfer, funding first. |
| Bep20.Bep20Controller.TransferBnb | controllers/Bep20Controller.js:611-711 | The native flow runs, and its failures are answered without a `success` flag. Missing fields and refusals submit nothing. |
| PolygonApi.PolygonController.constructor | controllers/polygonConroller.js:18-22 | The controller shares one provider and one admin wallet across its handlers. |
| PolygonApi.PolygonController.GetBalance | controllers/polygonConroller.js:44-144 | `getBalance` answers as `BalanceReply` for Polygon. |
| PolygonApi.PolygonController.GetAllTransactions | controllers/polygonConroller.js:148-228 | `getAllTransactions` answers as `AllTransactionsReply` under the truthy-result rule with the POL coin. |
| PolygonApi.PolygonController.Transfer | controllers/polygonConroller.js:231-438 | Mode "MATIC" is always 400 and submits nothing. Any other mode runs the token flow without the gas minimum. A 200 names a transaction the history holds. |
| PolygonApi.PolygonController.TransferTokenWithGasSupport | controllers/polygonConroller.js:440-534 | The sponsored flow runs. Refusals submit nothing. A 200 names both the funding and the transfer, funding first. |
| Evm.TokenBalanceReply | controllers/evmController.js:33-100 | Both fields are required (400). The lookup is 200 exactly when both addresses are well formed and the balance read succeeds. It reports the raw balance with decimals and symbol falling back to 18 and "UNKNOWN". A malformed address is 500, since only a call exception maps to 400. |
| Evm.EvmController.constructor | controllers/evmController.js:15 | The controller shares one provider across its handlers. |
| Evm.EvmController.GetTokenBalance | controllers/evmController.js:33-100 | `getTokenBalance` answers as `TokenBalanceReply`. |
| Evm.EvmController.GetTransactions | controllers/evmController.js:103-158 | `getTransactions` answers as `TokenTransfersReply`. |
| Evm.EvmController.Transfer | controllers/evmController.js:161-345 | Mode "BNP" runs the native flow and any other mode the token flow without the gas minimum. Missing fields and refusals submit nothing, and a 200 names a transaction the history holds. |
| Evm.EvmController.GetBnbBalance | controllers/evmController.js:356-396 | `getBNBBalance` answers as `CoinBalanceReply`. |
| Evm.EvmController.TransferBnb | controllers/evmController.js:399-499 | The native flow runs, and its failures are answered without a `success` flag. Missing fields and refusals submit nothing. |
| TronForwarding.TokenBalanceOf | controllers/tronControllerold.js:34-41 | The contract must be deployed and the balance read must succeed. The decimals fall back to 18 and the raw balance is kept. The reported balance is raw / 10^decimals rounded down. |
| TronForwarding.Quotient | controllers/tronControllerold.js:39 | `BigInt` division gives the largest quotient whose multiple does not exceed the dividend. |
| TronForwarding.Poll | controllers/tronControllerold.js:54-61 | The polling makes at most 20 queries, and all 20 when none succeeds. When it stops early, its last query reported "SUCCESS" and that is the receipt kept. |
| TronForwarding.PollMissesFirst | controllers/tronControllerold.js:55-59 | Every query before the last fails to report success, and the last fails too unless the polling was confirmed: polling stops at the first success. |
| TronForwarding.PollConfirmsIffSomeSuccess | controllers/tronControllerold.js:55-61 | A polling is confirmed exactly when one of the 20 queries it may make reports success. |
| TronForwarding.Rounds | controllers/tronControllerold.js:55-61 | Each unsuccessful round is one query and one pause. |
| TronForwarding.Pacing | controllers/tronControllerold.js:55-61 | A polling records two events per attempt, one fewer when it stops at a success. |
| TronForwarding.RoundsAlternate | controllers/tronControllerold.js:57-60 | Over unsuccessful rounds, queries and 3000 ms pauses alternate, a query first. |
| TronForwarding.PacingAlternates | controllers/tronControllerold.js:55-61 | A polling only queries and pauses, alternately. It pauses after every non-success but not after the break. |
| TronForwarding.PollTail | controllers/tronControllerold.js:55-61 | The loop's state after its last pass agrees with the polling specification from that pass on. |
| TronForwarding.Prepare | controllers/tronControllerold.js:44-53 | A bad key is refused first, with the key-installation error; with a valid key, an undeployed contract fails with the lookup error. The forward goes ahead exactly when the key is valid, the contract is deployed, the token balance is readable and non-zero, and the TRX balance is at least 1 sun. The transfer moves the whole raw token balance. |
| TronForwarding.Dispatch | controllers/tronControllerold.js:53-63 | A refused submission throws, and nothing is recorded or notified. Otherwise exactly one transfer is sent, the id is its hash, and the queries and pauses that follow are exactly `Pacing` of `Poll`'s attempts. The id and `Poll`'s last receipt are returned and sent to the back office, even when unconfirmed. |
| TronForwarding.ForwardPlan | controllers/tronControllerold.js:43-64 | A forward succeeds exactly when the guards pass and the node accepts the transfer. A failure records nothing, queries nothing and notifies no one. A success sends one transfer of the guarded sweep, then queries exactly as `Poll` says (at most 20 times, with `Pacing`'s events), and reports `Poll`'s last receipt. |
| TronForwarding.ForwardReportsLastInfo | controllers/tronControllerold.js:54-63 | A successful forward reports the info of the last status query that was answered, or none when no query was answered, whether or not it says the transfer executed. |
| TronForwarding.PollEndsWithReceived | controllers/tronControllerold.js:54-61 | The whole polling loop ends holding the info its queries received, the last answered one. |
| TronForwarding.TronClient.constructor | controllers/tronControllerold.js:4 | The shared client starts without a key. |
| TronForwarding.TronClient.Attempt | controllers/tronControllerold.js:56-60 | One pass queries once, and a failed query keeps the previous receipt. It stops exactly on "SUCCESS"; otherwise it pauses 3000 ms. |
| TronForwarding.TronClient.AwaitStatus | controllers/tronControllerold.js:54-61 | The loop's receipt, recorded events and query count are exactly those of `Poll`. |
| TronForwarding.TronClient.GetTokenBalance | controllers/tronControllerold.js:34-41 | The decimals start at 18 and are replaced when the read succeeds; the result is `TokenBalanceOf`. |
| TronForwarding.TronClient.Preflight | controllers/tronControllerold.js:44-51 | The guards run in the source's order and change nothing; the result is `Prepare`. |
| TronForwarding.TronClient.Send | controllers/tronControllerold.js:53-63 | The submission, the polling and the notice change the ledger and the back office exactly as `Dispatch` says. |
| TronForwarding.TronClient.SetPrivateKey | controllers/tronControllerold.js:44 | A key that derives an address is installed. Any other key is refused with an error and leaves the installed key as it was. |
| TronForwarding.TronClient.ForwardToken | controllers/tronControllerold.js:43-64 | A valid key stays installed; a refused key leaves the previous one. The ledger, the query cursor and the back office change exactly as `ForwardPlan` says. |
| EvmForwarding.TokenBalanceOf | controllers/evmControllerold.js:19-26 | Only the balance read can fail. The decimals fall back to 18, the raw balance is kept, and the human balance × 10^decimals is the raw balance. |
| EvmForwarding.Prepare | controllers/evmControllerold.js:28-42 | The forward goes ahead exactly when the key is valid, the token balance is readable and non-zero, the quotes succeed (the recipient must be an address), and the native balance covers estimate × price in wei. A zero balance always fails with "zero token balance". The transfer moves the whole raw balance with the estimate as gas limit. |
| EvmForwarding.Dispatch | controllers/evmControllerold.js:42-47 | The transfer is submitted once. The forward succeeds exactly when neither the submission nor the three-confirmation wait fails, and a refused submission records nothing. Nothing but the first event is a submission. The back office is notified exactly on success. A failed wait throws its error with the transfer recorded as sent and no one notified. |
| EvmForwarding.ForwardPlan | controllers/evmControllerold.js:28-47 | A forward succeeds exactly when the guards pass and the transfer is accepted and confirmed. A failed guard records and notifies nothing. |
| EvmForwarding.ForwardSendsOnlyFundedSweep | controllers/evmControllerold.js:31-43 | Any submission is the first event and is the full-balance sweep, gas-limited to the estimate, from a sender whose native balance covered the quoted fee. |
| EvmForwarding.EvmForwarder.constructor | controllers/evmControllerold.js:4 | The helpers share one provider and one back office. |
| EvmForwarding.EvmForwarder.GetTokenBalance | controllers/evmControllerold.js:19-26 | The decimals start at 18 and are replaced when the read succeeds; the result is `TokenBalanceOf`. |
| EvmForwarding.EvmForwarder.Preflight | controllers/evmControllerold.js:29-40 | The guards run in the source's order and change nothing; the result is `Prepare`. |
| EvmForwarding.EvmForwarder.Send | controllers/evmControllerold.js:42-47 | The submission, the wait and the notice change the ledger and the back office exactly as `Dispatch` says. |
| EvmForwarding.EvmForwarder.ForwardToken | controllers/evmControllerold.js:28-47 | The ledger and the back office change exactly as `ForwardPlan` says, and the back office's reachability never changes the result. |

## Left out

- Wallet creation (`createWallet` in every controller) is not modelled: it is random key generation.
- The Polygon `getGasPrice` handler is not modelled. It only reports the provider's fee data in gwei.
- Routes, server start-up, configuration, the database and `controllers/tronController.js` are not part of this model.
- Floating point is not modelled. `Number(formatUnits(..))`, `parseFloat`, `Math.pow`, `toFixed` and the `* 1.2` margin are exact rationals here. The funding's `toFixed(6)` rounding is kept exactly, as `TopUp`.
- Formatting for display is not modelled: the 6-decimal strings of history values, the 4-decimal strings of the token-transfer listing (`toFixed(4)`), gwei logging and `console.log`.
- History.TransferViews: a view's value is None when the explorer's precision is not a number. `Math.pow(10, tokenDecimal)` coerces an empty precision to 10^0, so the source then shows the unscaled value; that case is not distinguished.
- `ethers.getAddress` checksum normalisation is not modelled. An address is well formed when it is `0x` and 40 hex digits, and it is reported as given. A recipient that is not well formed makes the gas estimate fail with an invalid-argument error, as ethers' address resolution does.
- Flows.SponsoredDecision: the chain's gas price and estimate are fixed for the whole call, so the model does not distinguish the transfer reusing the quote taken before the funding (as the source does) from a fresh quote after it.
- The `Promise.all` reads are sequential reads of one fixed chain state. Chain state does not change between a handler's reads.
- Delays (`setTimeout` of 5000 ms and 3000 ms) are recorded `Paused` events. Time does not pass.
- Submitted transactions are recorded, but balances in the chain state are not moved by them.
- Request fields echoed back in answers (`from`, `to`, `amount`, network names, gas figures) are left out of `Response`. So is the nested error object of the BSC shortfall answers. The status, the success flag, the message and the amounts compared are kept.
- Amounts in requests are numbers. A string amount, and JavaScript truthiness beyond "absent, empty or zero", are not modelled.
- History timestamps are integers; the `Date` built from them, and an invalid date, are not modelled.
- The explorer requests, their URLs and their query limits are not modelled. The explorer's answers are inputs.
- The webhook payload is a `Notice` with the hash and the receipt. The URL and the `chain` tag are not modelled.
- The Polygon MATIC branch returns 400 unconditionally; the native-transfer code after that return is unreachable and not modelled.
- `controllers/evmControllerold.js` calls ethers v5 methods (`isZero`, `mul`, `lt`, `getGasPrice`, `estimateGas.transfer`) on a v6 provider. The model gives them their intended v5 meaning.
- TronWeb's key-to-address derivation is the chain state's wallet map, shared with the EVM side. A bad key is refused by `setPrivateKey` before anything else, so the later `fromPrivateKey` call never sees one.
- The Tron `balanceTRX < 1` check compares sun with 1 and is modelled as written: only a zero TRX balance is refused.
- TronForwarding.TokenBalanceOf: `10 ** decimals` is a JavaScript number that is exact only up to 22 decimals; the model uses the exact power for every precision.
- When a sponsored transfer's funding succeeds but the transfer then fails, the 500 answer carries only the error. The funding hash is not reported, in the source or here.
