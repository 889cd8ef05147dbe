/**
  The back-office webhook the forwarding helpers notify after a forward. A failed
  notification is logged and swallowed, so it never changes a forward's result.
*/
module Webhooks {
  import opened Chain
  import opened Wrappers

  /** The payload posted to `<webhook base>/forwarded`. */
  datatype Notice =
    | TronForwarded(txId: Hash, info: Option<TxInfo>)
    | BscForwarded(txHash: Hash, receipt: Receipt)

  class Webhook {
    /** Whether the back office accepts posts; when it does not, the post throws. */
    const reachable: bool
    /** The notices the back office has received, oldest first. */
    var delivered: seq<Notice>

    constructor (reachable: bool)
      ensures this.reachable == reachable && delivered == []
    {
      this.reachable := reachable;
      delivered := [];
    }

    /** Posts `n`; the failure of an unreachable back office is swallowed. */
    method Post(n: Notice)
      modifies this`delivered
      ensures delivered == old(delivered) + (if reachable then [n] else [])
    {
      if reachable {
        delivered := delivered + [n];
      }
    }
  }
}
