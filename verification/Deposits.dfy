/**
 The deposit policy of a service. Money is in cents; a percentage is in
 hundredths of a percent, as NUMERIC(10, 2) stores it.
 */
module Deposits {
  import opened Calendar

  datatype DepositType = FixedAmount | Percentage

  const FULL := 10000

  /** Quotient n / d rounded to the nearest integer, ties to the even one (Decimal.quantize). */
  function RoundHalfEven(n: nat, d: nat): nat
    requires d > 0
  {
    var q, r := n / d, n % d;
    if 2 * r < d then q
    else if 2 * r > d then q + 1
    else if q % 2 == 0 then q else q + 1
  }

  /** The deposit in cents, None when no deposit type is set. */
  function Amount(kind: Option<DepositType>, value: nat, price: nat): Option<nat> {
    match kind
    case None => None
    case Some(FixedAmount) => Some(value)
    case Some(Percentage) => Some(PercentageAmount(price, value))
  }

  function PercentageAmount(price: nat, value: nat): nat {
    RoundHalfEven(price * value, FULL)
  }

  /** When a charge is recorded as a full payment. */
  predicate TypedFull(kind: Option<DepositType>, value: nat) {
    kind == Some(Percentage) && value == FULL
  }

  /** r is the integer nearest to n / d; of two nearest ones it is the even one. */
  predicate NearestEven(r: nat, n: nat, d: nat) {
    && n * 2 <= d * r * 2 + d
    && d * r * 2 <= n * 2 + d
    && (n * 2 == d * r * 2 + d || d * r * 2 == n * 2 + d ==> r % 2 == 0)
  }

  /** The rounding is within half a unit, breaks ties to even, and nothing else does both. */
  lemma RoundingIsNearestEven(n: nat, d: nat, r: nat)
    requires d > 0
    ensures NearestEven(r, n, d) <==> r == RoundHalfEven(n, d)
  {
    var q := n / d;
    QuotientAndRemainder(n, d);
    ScaleKeepsOrder(d, r, q - 1);
    ScaleKeepsOrder(d, q + 2, r);
    Distributes(d, q);
  }

  lemma QuotientAndRemainder(n: nat, d: nat)
    requires d > 0
    ensures n == d * (n / d) + n % d
  {
  }

  lemma Distributes(d: nat, q: int)
    ensures d * (q + 1) == d * q + d && d * (q - 1) == d * q - d && d * (q + 2) == d * q + 2 * d
  {
  }

  lemma {:induction false} ScaleKeepsOrder(d: nat, a: int, b: int)
    ensures a <= b ==> d * a <= d * b
  {
    if d > 0 { ScaleKeepsOrder(d - 1, a, b); }
  }

  lemma RoundingIsMonotone(a: nat, b: nat, d: nat)
    requires d > 0 && a <= b
    ensures RoundHalfEven(a, d) <= RoundHalfEven(b, d)
  {
    var p, q := a / d, b / d;
    assert a == d * p + a % d && b == d * q + b % d;
    ScaleKeepsOrder(d, q + 1, p);
    assert d * (q + 1) == d * q + d;
    assert p <= q;
  }

  lemma PercentageAmountIsMonotone(price: nat, value: nat, price': nat, value': nat)
    requires price <= price' && value <= value'
    ensures PercentageAmount(price, value) <= PercentageAmount(price', value')
  {
    ScaleKeepsOrder(price, value, value');
    ScaleKeepsOrder(value', price, price');
    assert price * value <= price' * value';
    RoundingIsMonotone(price * value, price' * value', FULL);
  }

  lemma WholePriceRoundsToItself(price: nat)
    ensures PercentageAmount(price, FULL) == price
  {
    RoundingIsNearestEven(price * FULL, FULL, price);
  }

  /** A percentage of at most 100 never asks for more than the price; a larger one may. */
  lemma PercentageStaysBelowPrice(price: nat, value: nat)
    requires value <= FULL
    ensures PercentageAmount(price, value) <= price
  {
    PercentageAmountIsMonotone(price, value, price, FULL);
    WholePriceRoundsToItself(price);
  }

  /** A charge typed as full asks for exactly the price. */
  lemma FullChargeIsThePrice(kind: Option<DepositType>, value: nat, price: nat)
    requires TypedFull(kind, value)
    ensures Amount(kind, value, price) == Some(price)
  {
    WholePriceRoundsToItself(price);
  }

  /** The converse fails: 99.99% of one cent is one cent, and the charge is typed as partial. */
  lemma PartialChargeCanBeThePrice()
    ensures Amount(Some(Percentage), 9999, 1) == Some(1) && !TypedFull(Some(Percentage), 9999)
  {
  }

  /** What a percentage is off 100%, worth at this price, in hundredths of a percent of a cent. */
  function Gap(price: nat, value: nat): nat {
    if value < FULL then price * (FULL - value) else price * (value - FULL)
  }

  lemma GapIsDistance(price: nat, value: nat)
    ensures Gap(price, value) == FULL * price - price * value || Gap(price, value) == price * value - FULL * price
  {
  }

  /** Half a cent at most, ties to even, around the whole price. */
  lemma NearestToPrice(n: nat, price: nat, gap: nat)
    requires gap == FULL * price - n || gap == n - FULL * price
    ensures NearestEven(price, n, FULL) <==> 2 * gap < FULL || (2 * gap == FULL && price % 2 == 0)
  {
  }

  /** When a percentage asks for exactly the price: its distance from 100% is worth at most half a cent. */
  lemma PercentageAmountIsThePriceExactlyWhen(price: nat, value: nat)
    ensures var gap := if value < FULL then price * (FULL - value) else price * (value - FULL);
            PercentageAmount(price, value) == price <==> 2 * gap < FULL || (2 * gap == FULL && price % 2 == 0)
  {
    RoundingIsNearestEven(price * value, FULL, price);
    GapIsDistance(price, value);
    NearestToPrice(price * value, price, Gap(price, value));
  }

  /**
   Under which policies does "asks for the whole price" mean "typed as full"?
   Without a policy always; for a fixed amount unless it is the price; for a
   percentage unless it is not 100 and still rounds to the price.
   */
  lemma FullTypeMeansPriceExactlyWhen(kind: Option<DepositType>, value: nat, price: nat)
    ensures var gap := if value < FULL then price * (FULL - value) else price * (value - FULL);
            (Amount(kind, value, price) == Some(price) <==> TypedFull(kind, value)) <==>
              match kind
              case None => true
              case Some(FixedAmount) => value != price
              case Some(Percentage) => value == FULL || !(2 * gap < FULL || (2 * gap == FULL && price % 2 == 0))
  {
    PercentageAmountIsThePriceExactlyWhen(price, value);
    WholePriceRoundsToItself(price);
  }
}
