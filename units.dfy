/**
  Amounts. The chain counts in raw integers (wei, sun, token base units); the handlers
  compare and report human-scaled values, `raw / 10^decimals`. The source goes through
  JavaScript numbers (`Number(formatUnits(..))`, `parseFloat`, `toFixed`); here every such
  value is the exact rational it approximates.
*/
module Units {
  import opened Wrappers
  import opened Chain

  function Pow10(n: nat): (p: nat)
    ensures p >= 1
  {
    if n == 0 then 1 else 10 * Pow10(n - 1)
  }

  /** `10^decimals` as a number. */
  function Scale(decimals: nat): real {
    Pow10(decimals) as real
  }

  /** A number without a fractional part. */
  predicate Whole(x: real) {
    x.Floor as real == x
  }

  /** `formatUnits(raw, decimals)`, read as an exact number. */
  function Human(raw: int, decimals: nat): real {
    raw as real / Scale(decimals)
  }

  /**
    `parseUnits(amount, decimals)`: the raw integer of a human amount. Like ethers it
    refuses an amount with more fractional digits than the token has decimals.
  */
  function ParseUnits(amount: real, decimals: nat): (r: Result<int, Error>)
    ensures r.Success? <==> Whole(amount * Scale(decimals))
    ensures r.Success? ==> r.value as real == amount * Scale(decimals)
    ensures r.Failure? ==> r.error.code == NumericFault
  {
    if Whole(amount * Scale(decimals)) then Success((amount * Scale(decimals)).Floor)
    else Failure(Error(NumericFault, "too many decimals for format"))
  }

  function Abs(x: real): real {
    if x < 0.0 then -x else x
  }

  /**
    Whether `Number.prototype.toString` writes `x` in exponent form ("1e-7", "1e+21"):
    a non-zero magnitude below 10^-6, or from 10^21 up.
  */
  predicate ExponentForm(x: real) {
    x != 0.0 && (Abs(x) < 0.000001 || Abs(x) >= 1_000_000_000_000_000_000_000.0)
  }

  /**
    `parseUnits(amount.toString(), decimals)`, as the transfer handlers call it. The text of
    a number in exponent form is not a decimal string, and `parseUnits` rejects it as an
    invalid argument; any other amount parses as `ParseUnits` says.
  */
  function ParseAmount(amount: real, decimals: nat): (r: Result<int, Error>)
    ensures r.Success? <==> !ExponentForm(amount) && Whole(amount * Scale(decimals))
    ensures r.Success? ==> r.value as real == amount * Scale(decimals)
    ensures ExponentForm(amount) ==> r.Failure? && r.error.code == InvalidArgument
    ensures !ExponentForm(amount) && r.Failure? ==> r.error.code == NumericFault
  {
    if ExponentForm(amount) then Failure(Error(InvalidArgument, "invalid FixedNumber string value"))
    else ParseUnits(amount, decimals)
  }

  /**
    A tenth of a micro-coin is a whole number of wei, yet the handlers cannot parse it:
    its text is "1e-7".
  */
  lemma TinyAmountIsRefused()
    ensures ParseUnits(0.0000001, 18).Success?
    ensures ParseAmount(0.0000001, 18).Failure?
  {
    ParseFormatRoundTrip(100_000_000_000, 18);
    Pow10Of18();
    assert Human(100_000_000_000, 18) == 0.0000001;
  }

  /** The wei in one coin of 18 decimals. */
  lemma Pow10Of18()
    ensures Pow10(18) == 1_000_000_000_000_000_000
  {
    assert Pow10(3) == 1000;
    assert Pow10(6) == 1000 * Pow10(3) by { assert Pow10(6) == 10 * Pow10(5) == 100 * Pow10(4) == 1000 * Pow10(3); }
    assert Pow10(9) == 1000 * Pow10(6) by { assert Pow10(9) == 10 * Pow10(8) == 100 * Pow10(7) == 1000 * Pow10(6); }
    assert Pow10(12) == 1000 * Pow10(9) by { assert Pow10(12) == 10 * Pow10(11) == 100 * Pow10(10) == 1000 * Pow10(9); }
    assert Pow10(15) == 1000 * Pow10(12) by { assert Pow10(15) == 10 * Pow10(14) == 100 * Pow10(13) == 1000 * Pow10(12); }
    assert Pow10(18) == 1000 * Pow10(15) by { assert Pow10(18) == 10 * Pow10(17) == 100 * Pow10(16) == 1000 * Pow10(15); }
  }

  lemma ScaleBack(raw: int, decimals: nat)
    ensures Human(raw, decimals) * Scale(decimals) == raw as real
  {
  }

  /** A human amount that scales to a whole number parses to exactly that number. */
  lemma ParseExact(amount: real, decimals: nat, raw: int)
    requires amount * Scale(decimals) == raw as real
    ensures ParseUnits(amount, decimals) == Success(raw)
  {
    assert (raw as real).Floor == raw;
    assert Whole(amount * Scale(decimals));
    assert ParseUnits(amount, decimals).Success?;
  }

  /** Formatting a raw amount and parsing it back gives the raw amount, for every precision. */
  lemma ParseFormatRoundTrip(raw: int, decimals: nat)
    ensures ParseUnits(Human(raw, decimals), decimals) == Success(raw)
  {
    ScaleBack(raw, decimals);
    ParseExact(Human(raw, decimals), decimals, raw);
  }

  /** A human amount that parses gives back the same human amount when formatted. */
  lemma FormatParseRoundTrip(amount: real, decimals: nat)
    requires ParseUnits(amount, decimals).Success?
    ensures Human(ParseUnits(amount, decimals).value, decimals) == amount
  {
    var p := Scale(decimals);
    assert ParseUnits(amount, decimals).value as real == amount * p;
    assert amount * p / p == amount;
  }

  /**
    The handlers compare human balances with the requested amount. With exact values this
    is the comparison of raw integers, the one the chain itself makes.
  */
  lemma ShortfallIsRawShortfall(raw: int, amount: real, decimals: nat)
    requires ParseUnits(amount, decimals).Success?
    ensures Human(raw, decimals) < amount <==> raw < ParseUnits(amount, decimals).value
  {
    var p := Scale(decimals);
    var units := ParseUnits(amount, decimals).value;
    assert units as real == amount * p;
    ScaleBack(raw, decimals);
    if Human(raw, decimals) < amount {
      assert Human(raw, decimals) * p < amount * p;
    } else {
      assert Human(raw, decimals) * p >= amount * p;
    }
  }

  /** 10^-6 of the native coin in wei: the step of `toFixed(6)` on an 18-decimal coin. */
  const MicroCoin: nat := 1_000_000_000_000

  /** The native minimum the BSC token branch asks for gas, 0.0002 BNB, in wei. */
  const MinGasWei: nat := 200_000_000_000_000

  /**
    The gas top-up an admin wallet sends: the fee `gasEstimate * gasPrice` with a 20%
    margin, rounded half-up to 6 decimals of the coin (`(fee * 1.2).toFixed(6)`), in wei.
  */
  function TopUp(fee: nat): (f: nat)
    ensures f % MicroCoin == 0
    ensures 10 * f <= 12 * fee + 5 * MicroCoin
    ensures 12 * fee < 10 * f + 5 * MicroCoin
  {
    ((12 * fee + 5 * MicroCoin) / (10 * MicroCoin)) * MicroCoin
  }

  /** The margin covers the fee whenever the fee is at least 2.5 millionths of a coin. */
  lemma TopUpCoversFee(fee: nat)
    requires 2 * fee >= 5 * MicroCoin
    ensures TopUp(fee) > fee
  {
  }

  /** A tiny fee is rounded away: the funding transaction then carries nothing. */
  lemma TopUpRoundsTinyFeeToZero(fee: nat)
    requires 12 * fee < 5 * MicroCoin
    ensures TopUp(fee) == 0
  {
  }

  /** A larger fee never gets a smaller top-up. */
  lemma TopUpMonotonic(a: nat, b: nat)
    requires a <= b
    ensures TopUp(a) <= TopUp(b)
  {
    var m := 10 * MicroCoin;
    var x, y := 12 * a + 5 * MicroCoin, 12 * b + 5 * MicroCoin;
    assert x <= y;
    assert x / m <= y / m;
  }
}
