/**
  Transaction history. The handlers ask a block explorer for an address's native
  transactions (`txlist`) and token transfers (`tokentx`), turn each row into an entry,
  merge the two lists, order them newest first and keep the first hundred.

  Explorer rows are given with their numeric strings already parsed; timestamps are whole
  seconds.
*/
module History {
  import opened Wrappers
  import opened Units

  /** One row of an explorer answer. */
  datatype RawTx = RawTx(
    hash: string,
    from: string,
    to: string,
    value: nat,
    tokenSymbol: string,
    tokenName: string,
    /** `parseInt(tokenDecimal)`; None when it is not a number. */
    tokenDecimal: Option<int>,
    blockNumber: int,
    timeStamp: int,
    contractAddress: string,
    isError: string)

  /** The `result` field of an explorer answer: a list of rows, a message, or nothing. */
  datatype Field = Rows(rows: seq<RawTx>) | Text(text: string) | Absent

  /** An explorer answer: `status` ("1" on success) and `result`. */
  datatype Reply = Reply(status: string, result: Field)

  /** What a handler does with one answer: leave it out, take its rows, or fail on it. */
  datatype Selection = Skip | Take(rows: seq<RawTx>) | Crash(message: string)

  const NoLength := "Cannot read properties of undefined (reading 'length')"
  const NoMap := "result.map is not a function"

  /**
    The BSC rule: an answer counts when its status is "1" and its result is non-empty.
    A successful status with no result, or with a message for a result, makes the handler
    throw while reading it.
  */
  function SelectListed(reply: Reply): (s: Selection)
    ensures s.Take? <==> reply.status == "1" && reply.result.Rows? && |reply.result.rows| > 0
    ensures s.Take? ==> s.rows == reply.result.rows
    ensures s.Crash? <==> reply.status == "1" && (reply.result.Absent? || (reply.result.Text? && reply.result.text != ""))
  {
    if reply.status != "1" then Skip
    else match reply.result
      case Absent => Crash(NoLength)
      case Text(t) => if t != "" then Crash(NoMap) else Skip
      case Rows(rows) => if |rows| > 0 then Take(rows) else Skip
  }

  /**
    The Polygon rule: an answer counts when its result is truthy and non-empty, whatever
    its status. A non-empty message for a result makes the handler throw.
  */
  function SelectTruthy(reply: Reply): (s: Selection)
    ensures s.Take? <==> reply.result.Rows? && |reply.result.rows| > 0
    ensures s.Take? ==> s.rows == reply.result.rows
    ensures s.Crash? <==> reply.result.Text? && reply.result.text != ""
  {
    match reply.result
    case Absent => Skip
    case Text(t) => if t != "" then Crash(NoMap) else Skip
    case Rows(rows) => if |rows| > 0 then Take(rows) else Skip
  }

  datatype Kind = Native | Token

  /** An entry of the merged history. */
  datatype Entry = Entry(
    hash: string,
    from: string,
    to: string,
    value: real,
    tokenSymbol: string,
    tokenName: string,
    kind: Kind,
    blockNumber: int,
    timeStamp: int,
    contractAddress: Option<string>,
    isError: Option<bool>)

  /** `raw / 10^decimals` for a possibly negative exponent (`Math.pow(10, decimals)`). */
  function Shift(raw: nat, decimals: int): real {
    if decimals >= 0 then Human(raw, decimals) else raw as real * Scale(-decimals)
  }

  /** `parseInt(tokenDecimal) || 18`: an unparsable or zero precision becomes 18. */
  function DecimalsOr18(d: Option<int>): (r: int)
    ensures r != 0
    ensures r != 18 ==> d == Some(r)
    ensures d.Some? && d.value != 0 ==> r == d.value
  {
    if d.None? || d.value == 0 then 18 else d.value
  }

  /** `symbol || "UNKNOWN"` and `name || "Unknown Token"`. */
  function OrElse(s: string, fallback: string): (r: string)
    ensures s != "" ==> r == s
    ensures s == "" ==> r == fallback
  {
    if s == "" then fallback else s
  }

  /** A native row: the coin's symbol and name, 18 decimals, an error flag and no contract. */
  function NativeEntry(tx: RawTx, symbol: string, name: string): Entry {
    Entry(tx.hash, tx.from, tx.to, Human(tx.value, 18), symbol, name, Native,
          tx.blockNumber, tx.timeStamp, None, Some(tx.isError != "0"))
  }

  /** A token row: its own precision (18 by default), symbol and name with fallbacks. */
  function TokenEntry(tx: RawTx): Entry {
    Entry(tx.hash, tx.from, tx.to, Shift(tx.value, DecimalsOr18(tx.tokenDecimal)),
          OrElse(tx.tokenSymbol, "UNKNOWN"), OrElse(tx.tokenName, "Unknown Token"), Token,
          tx.blockNumber, tx.timeStamp, Some(tx.contractAddress), None)
  }

  function NativeEntries(s: Selection, symbol: string, name: string): seq<Entry> {
    if s.Take? then seq(|s.rows|, i requires 0 <= i < |s.rows| => NativeEntry(s.rows[i], symbol, name))
    else []
  }

  function TokenEntries(s: Selection): seq<Entry> {
    if s.Take? then seq(|s.rows|, i requires 0 <= i < |s.rows| => TokenEntry(s.rows[i]))
    else []
  }

  /** Native entries first, then token entries, each in the explorer's order. */
  function Merge(native: Selection, token: Selection, symbol: string, name: string): (all: seq<Entry>)
    ensures |all| == (if native.Take? then |native.rows| else 0) + (if token.Take? then |token.rows| else 0)
    ensures forall i :: 0 <= i < |all| ==> (all[i].kind == Native <==> native.Take? && i < |native.rows|)
    ensures native.Take? ==>
      forall i :: 0 <= i < |native.rows| ==> all[i] == NativeEntry(native.rows[i], symbol, name)
    ensures var n := if native.Take? then |native.rows| else 0;
      forall i :: n <= i < |all| ==> token.Take? && all[i] == TokenEntry(token.rows[i - n])
  {
    NativeEntries(native, symbol, name) + TokenEntries(token)
  }

  /** Newest first: no entry is older than one after it. */
  predicate NewestFirstOrder(s: seq<Entry>) {
    forall i, j :: 0 <= i < j < |s| ==> s[i].timeStamp >= s[j].timeStamp
  }

  /** Puts `x` before the first entry that is not newer than it. */
  function InsertByTime(x: Entry, s: seq<Entry>): (r: seq<Entry>)
    ensures |r| == |s| + 1
    ensures multiset(r) == multiset(s) + multiset{x}
  {
    if s == [] || x.timeStamp >= s[0].timeStamp then [x] + s
    else
      assert s == [s[0]] + s[1..];
      [s[0]] + InsertByTime(x, s[1..])
  }

  /**
    `sort((a, b) => b.timeStamp - a.timeStamp)`: a stable sort, newest first. Written as
    an insertion sort; its properties are the lemmas below.
  */
  function NewestFirst(s: seq<Entry>): (r: seq<Entry>)
    ensures |r| == |s|
    ensures multiset(r) == multiset(s)
  {
    if s == [] then []
    else
      assert s == [s[0]] + s[1..];
      InsertByTime(s[0], NewestFirst(s[1..]))
  }

  lemma {:induction false} InsertKeepsOrder(x: Entry, s: seq<Entry>)
    requires NewestFirstOrder(s)
    ensures NewestFirstOrder(InsertByTime(x, s))
  {
    if s == [] || x.timeStamp >= s[0].timeStamp {
    } else {
      InsertKeepsOrder(x, s[1..]);
      var rest := InsertByTime(x, s[1..]);
      assert multiset(rest) == multiset(s[1..]) + multiset{x};
      forall j | 0 <= j < |rest|
        ensures s[0].timeStamp >= rest[j].timeStamp
      {
        assert rest[j] in multiset(rest);
        if rest[j] == x {
        } else {
          assert rest[j] in multiset(s[1..]);
          var k :| 0 <= k < |s[1..]| && s[1..][k] == rest[j];
          assert s[k + 1] == rest[j];
        }
      }
    }
  }

  /** The merged history comes out newest first. */
  lemma {:induction false} NewestFirstIsOrdered(s: seq<Entry>)
    ensures NewestFirstOrder(NewestFirst(s))
  {
    if s != [] {
      NewestFirstIsOrdered(s[1..]);
      InsertKeepsOrder(s[0], NewestFirst(s[1..]));
    }
  }

  /** The entries of `s` stamped `t`, in order. */
  function AtTime(s: seq<Entry>, t: int): seq<Entry> {
    if s == [] then [] else (if s[0].timeStamp == t then [s[0]] else []) + AtTime(s[1..], t)
  }

  lemma AtTimeCons(y: Entry, r: seq<Entry>, t: int)
    ensures AtTime([y] + r, t) == (if y.timeStamp == t then [y] else []) + AtTime(r, t)
  {
    assert ([y] + r)[1..] == r;
  }

  lemma {:induction false} InsertAtTime(x: Entry, s: seq<Entry>, t: int)
    ensures AtTime(InsertByTime(x, s), t) == (if x.timeStamp == t then [x] else []) + AtTime(s, t)
  {
    if s == [] || x.timeStamp >= s[0].timeStamp {
      AtTimeCons(x, s, t);
    } else {
      var rest := InsertByTime(x, s[1..]);
      InsertAtTime(x, s[1..], t);
      AtTimeCons(s[0], rest, t);
      assert AtTime(s, t) == (if s[0].timeStamp == t then [s[0]] else []) + AtTime(s[1..], t);
    }
  }

  /** Entries with the same timestamp keep their merged order: the sort is stable. */
  lemma {:induction false} NewestFirstIsStable(s: seq<Entry>, t: int)
    ensures AtTime(NewestFirst(s), t) == AtTime(s, t)
  {
    if s != [] {
      NewestFirstIsStable(s[1..], t);
      InsertAtTime(s[0], NewestFirst(s[1..]), t);
    }
  }

  const PageSize: nat := 100

  /** `slice(0, 100)` of the sorted history. */
  function Page(all: seq<Entry>): seq<Entry> {
    NewestFirst(all)[..if |all| < PageSize then |all| else PageSize]
  }

  /**
    The page holds the hundred newest entries (all of them when there are fewer), newest
    first, and every entry it leaves out is no newer than every entry it keeps.
  */
  lemma PageIsNewest(all: seq<Entry>)
    ensures |Page(all)| == if |all| < PageSize then |all| else PageSize
    ensures NewestFirstOrder(Page(all))
    ensures multiset(Page(all)) <= multiset(all)
    ensures forall i, j :: 0 <= i < |Page(all)| <= j < |all| ==>
      Page(all)[i].timeStamp >= NewestFirst(all)[j].timeStamp
  {
    var sorted := NewestFirst(all);
    NewestFirstIsOrdered(all);
    var n := if |all| < PageSize then |all| else PageSize;
    assert sorted == sorted[..n] + sorted[n..];
    assert multiset(sorted) == multiset(sorted[..n]) + multiset(sorted[n..]);
  }

  /** How `getTransactions` shows one token transfer. */
  datatype TokenTransfer = TokenTransfer(
    hash: string,
    from: string,
    to: string,
    tokenName: string,
    tokenSymbol: string,
    /** `value / 10^tokenDecimal`; None when the precision is not a number. */
    value: Option<real>,
    blockNumber: int,
    timeStamp: int)

  function TransferView(tx: RawTx): TokenTransfer {
    TokenTransfer(tx.hash, tx.from, tx.to, tx.tokenName, tx.tokenSymbol,
                  if tx.tokenDecimal.Some? then Some(Shift(tx.value, tx.tokenDecimal.value)) else None,
                  tx.blockNumber, tx.timeStamp)
  }

  function TransferViews(rows: seq<RawTx>): (r: seq<TokenTransfer>)
    ensures |r| == |rows|
    ensures forall i :: 0 <= i < |rows| ==> r[i].hash == rows[i].hash
  {
    seq(|rows|, i requires 0 <= i < |rows| => TransferView(rows[i]))
  }
}
