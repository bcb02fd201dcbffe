/** Decimal prices: the quoted fee and the five referral rewards, and when rounding bites. */
module Pricing {

  const UNIT_PRICE: real := 20.00
  const MAX_LEVELS: nat := 5

  /** The rate of a referral level: the seller's own referrer is level 1. */
  function Rate(level: nat): real
    requires 1 <= level <= MAX_LEVELS
  {
    match level
    case 1 => 0.10
    case 2 => 0.05
    case 3 => 0.025
    case 4 => 0.0125
    case _ => 0.0075
  }

  datatype Kind = Individual | Organization

  /** One seat for a person, 2 to 10,000 for an organisation. */
  predicate LegalScope(kind: Kind, seats: int) {
    (kind == Individual && seats == 1) || (kind == Organization && 2 <= seats <= 10000)
  }

  function Discount(kind: Kind, referred: bool): int {
    if kind == Organization then 20 else if referred then 10 else 0
  }

  /** Decimal's default rounding: to nearest, ties to the even neighbour. */
  function RoundHalfEven(x: real): int {
    var low := x.Floor;
    var gap := x - low as real;
    if gap < 0.5 || (gap == 0.5 && low % 2 == 0) then low else low + 1
  }

  /** `quantize(Decimal('.01'))`. */
  function ToCents(x: real): real {
    RoundHalfEven(x * 100.0) as real / 100.0
  }

  /** What a column with `decimal_places=4` stores. */
  function ToFourPlaces(x: real): real {
    RoundHalfEven(x * 10000.0) as real / 10000.0
  }

  /** The discounted price before it is rounded to cents. */
  function ListPrice(seats: int, discount: int): real {
    UNIT_PRICE * seats as real * (100 - discount) as real / 100.0
  }

  function Fee(seats: int, discount: int): real {
    ToCents(ListPrice(seats, discount))
  }

  /** What the reward column stores: amount times rate, kept to four decimals. */
  function RewardAmount(amount: real, level: nat): real
    requires 1 <= level <= MAX_LEVELS
  {
    ToFourPlaces(Accrual(amount, level))
  }

  /** amount * Rate(level), one case a level (see AccrualIsAmountTimesRate). */
  function Accrual(amount: real, level: nat): real
    requires 1 <= level <= MAX_LEVELS
  {
    match level
    case 1 => amount * 0.10
    case 2 => amount * 0.05
    case 3 => amount * 0.025
    case 4 => amount * 0.0125
    case _ => amount * 0.0075
  }

  lemma AccrualIsAmountTimesRate(amount: real, level: nat)
    requires 1 <= level <= MAX_LEVELS
    ensures Accrual(amount, level) == amount * Rate(level)
  {
  }

  function RatesUpTo(levels: nat): real
    requires levels <= MAX_LEVELS
  {
    if levels == 0 then 0.0 else RatesUpTo(levels - 1) + Rate(levels)
  }

  function RewardsUpTo(amount: real, levels: nat): real
    requires levels <= MAX_LEVELS
  {
    if levels == 0 then 0.0 else RewardsUpTo(amount, levels - 1) + RewardAmount(amount, levels)
  }

  // ---- when quantize changes nothing ----------------------------------------

  lemma RoundingFixes(x: real)
    ensures RoundHalfEven(x) as real == x <==> x == x.Floor as real
  {
    var r := RoundHalfEven(x);
    assert (r as real).Floor == r;
  }

  /** A rounded value is nearest, and of two nearest the even one. */
  lemma RoundsToNearestEven(x: real)
    ensures -0.5 <= x - RoundHalfEven(x) as real <= 0.5
    ensures x - RoundHalfEven(x) as real in {-0.5, 0.5} ==> RoundHalfEven(x) % 2 == 0
  {
  }

  lemma WholeProduct(a: int, b: int)
    ensures a as real * b as real == (a * b) as real
  {
  }

  lemma TwentyShares(p: real, q: real)
    ensures 20.0 * p * q / 100.0 * 100.0 == 20.0 * (p * q)
    ensures 20.0 * p * q / 100.0 == (p * q) / 5.0
  {
    assert 20.0 * p * q == 20.0 * (p * q);
  }

  lemma WholeCents(x: real, cents: int)
    requires x * 100.0 == cents as real
    ensures ToCents(x) == x
  {
    assert (cents as real).Floor == cents;
    RoundingFixes(x * 100.0);
  }

  lemma ListPriceInFifths(seats: int, discount: int)
    ensures ListPrice(seats, discount) == (seats * (100 - discount)) as real / 5.0
    ensures ListPrice(seats, discount) * 100.0 == (20 * (seats * (100 - discount))) as real
  {
    WholeProduct(seats, 100 - discount);
    TwentyShares(seats as real, (100 - discount) as real);
  }

  /** `quantize` never changes a quoted price: 20 dollars a seat less the discount is a whole number of cents. */
  lemma FeeIsExact(seats: int, discount: int)
    ensures Fee(seats, discount) == ListPrice(seats, discount) == (seats * (100 - discount)) as real / 5.0
  {
    hide ListPrice, ToCents;
    ListPriceInFifths(seats, discount);
    WholeCents(ListPrice(seats, discount), 20 * (seats * (100 - discount)));
  }

  /** For a fee of any number of cents, the level decides which amounts fit four decimals:
      levels 1 and 2 always do, level 3 needs an even number of cents, 4 and 5 a multiple of four. */
  lemma RewardFitsIff(cents: int, level: nat)
    requires 1 <= level <= MAX_LEVELS
    ensures RewardAmount(cents as real / 100.0, level) == Accrual(cents as real / 100.0, level)
       <==> (level == 3 ==> cents % 2 == 0) && (level >= 4 ==> cents % 4 == 0)
  {
    var n, d := ScaledAccrual(cents, level);
    FitsWhenWhole(Accrual(cents as real / 100.0, level), n, d);
  }

  /** An accrual in ten-thousandths of a dollar, as a fraction. */
  lemma ScaledAccrual(cents: int, level: nat) returns (n: int, d: int)
    requires 1 <= level <= MAX_LEVELS
    ensures d == 1 || d == 2 || d == 4
    ensures Accrual(cents as real / 100.0, level) * 10000.0 == n as real / d as real
    ensures n % d == 0 <==> (level == 3 ==> cents % 2 == 0) && (level >= 4 ==> cents % 4 == 0)
  {
    match level
    case 1 => n, d := 10 * cents, 1;
    case 2 => n, d := 5 * cents, 1;
    case 3 => n, d := 5 * cents, 2;
    case 4 => n, d := 5 * cents, 4;
    case _ => n, d := 3 * cents, 4;
  }

  lemma FitsWhenWhole(x: real, n: int, d: int)
    requires d == 1 || d == 2 || d == 4
    requires x * 10000.0 == n as real / d as real
    ensures ToFourPlaces(x) == x <==> n % d == 0
  {
    RoundingFixes(x * 10000.0);
    WholeQuotient(n, d);
  }

  lemma WholeQuotient(n: int, d: int)
    requires d == 1 || d == 2 || d == 4
    ensures (n as real / d as real) == (n as real / d as real).Floor as real <==> n % d == 0
  {
    var q := n / d;
    var x := n as real / d as real;
    assert n == q * d + n % d;
    assert x == q as real + (n % d) as real / d as real;
    assert 0.0 <= (n % d) as real / d as real < 1.0;
    assert x.Floor == q;
  }

  /** Every quoted fee is a multiple of four cents, so no reward of any order is rounded. */
  lemma RewardIsExact(seats: int, discount: int, level: nat)
    requires 1 <= level <= MAX_LEVELS
    ensures RewardAmount(Fee(seats, discount), level) == Accrual(Fee(seats, discount), level)
  {
    hide Fee, RewardAmount, Accrual;
    FeeIsExact(seats, discount);
    var n := seats * (100 - discount);
    FifthsInCents(n);
    RewardFitsIff(20 * n, level);
  }

  lemma FifthsInCents(n: int)
    ensures n as real / 5.0 == (20 * n) as real / 100.0 && (20 * n) % 4 == 0
  {
    assert 20 * n == 4 * (5 * n);
  }

  /** The rewards of one order add up to its fee times the sum of the rates used. */
  lemma {:induction false} RewardsAddUp(seats: int, discount: int, levels: nat)
    requires levels <= MAX_LEVELS
    ensures RewardsUpTo(Fee(seats, discount), levels) == Fee(seats, discount) * RatesUpTo(levels)
  {
    hide Fee, RewardAmount, Accrual, Rate;
    var fee := Fee(seats, discount);
    if levels > 0 {
      RewardsAddUp(seats, discount, levels - 1);
      RewardIsExact(seats, discount, levels);
      AccrualIsAmountTimesRate(fee, levels);
      Distributes(fee, RatesUpTo(levels - 1), Rate(levels));
    }
  }

  lemma Distributes(a: real, b: real, c: real)
    ensures a * b + a * c == a * (b + c)
  {
  }

  /** All five levels together take 19.5%, and fewer levels take less. */
  lemma RateTotals(levels: nat)
    requires levels <= MAX_LEVELS
    ensures RatesUpTo(levels) <= 0.195 && RatesUpTo(MAX_LEVELS) == 0.195
  {
    assert RatesUpTo(1) == RatesUpTo(0) + Rate(1);
    assert RatesUpTo(2) == RatesUpTo(1) + Rate(2);
    assert RatesUpTo(3) == RatesUpTo(2) + Rate(3);
    assert RatesUpTo(4) == RatesUpTo(3) + Rate(4);
    assert RatesUpTo(5) == RatesUpTo(4) + Rate(5);
  }
}
