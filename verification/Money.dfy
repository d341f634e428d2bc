/** Integer minor units, and the one exact rounding step every percentage and factor takes. */
module Money {
  import opened Wrappers

  datatype Mode = HalfEven | HalfUp | HalfDown | Floor | Ceil

  /** A percentage or factor read as the decimal it prints as: `num / den`, `den` a power of ten. */
  datatype Decimal = Decimal(num: int, den: int)

  predicate ValidDecimal(d: Decimal) {
    d.den > 0
  }

  /** Whether the magnitude rounds away from zero, with a remainder left over. */
  function Away(quotient: nat, remainder: nat, denominator: nat, negative: bool, mode: Mode): bool {
    match mode
    case Floor => negative
    case Ceil => !negative
    case _ =>
      if 2 * remainder != denominator then 2 * remainder > denominator
      else if mode == HalfEven then quotient % 2 == 1
      else mode == HalfUp
  }

  /** `numerator / denominator` rounded to an integer; none for a zero denominator, which throws. */
  function DivideRounded(numerator: int, denominator: int, mode: Mode): Option<int> {
    if denominator == 0 then None
    else
      var n := if denominator < 0 then -numerator else numerator;
      var d := if denominator < 0 then -denominator else denominator;
      var size := if n < 0 then -n else n;
      Some(Rounded(size / d, size % d, d, n < 0, mode))
  }

  /** The magnitude rounded down or away from zero, with its sign back on. */
  function Rounded(quotient: nat, remainder: nat, d: nat, negative: bool, mode: Mode): int {
    var magnitude := if remainder != 0 && Away(quotient, remainder, d, negative, mode) then quotient + 1 else quotient;
    if negative then -magnitude else magnitude
  }

  /** Half a unit at most either side. */
  predicate WithinHalf(product: int, n: int, d: int) {
    2 * (product - n) <= d && 2 * (n - product) <= d
  }

  predicate Tie(product: int, n: int, d: int) {
    2 * (product - n) == d || 2 * (n - product) == d
  }

  /** What a rounding mode promises of a result whose product with `d` is `product`. */
  predicate RoundsTo(n: int, d: int, r: int, product: int, mode: Mode) {
    && n - d < product < n + d
    && (mode == Floor ==> product <= n)
    && (mode == Ceil ==> product >= n)
    && (mode != Floor && mode != Ceil ==> WithinHalf(product, n, d))
    && (mode == HalfEven && Tie(product, n, d) ==> r % 2 == 0)
    && (mode == HalfUp && Tie(product, n, d) ==> if n >= 0 then product > n else product < n)
    && (mode == HalfDown && Tie(product, n, d) ==> if n >= 0 then product < n else product > n)
  }

  /** The magnitude chosen for `x + remainder`, `x` being `q` denominators, and its negation. */
  lemma MagnitudeRounds(x: int, q: nat, remainder: nat, d: int, negative: bool, mode: Mode)
    requires d > 0 && remainder < d && x >= 0
    ensures var up := remainder != 0 && Away(q, remainder, d, negative, mode);
            var m, product := if up then q + 1 else q, if up then x + d else x;
            if negative then RoundsTo(-(x + remainder), d, -m, -product, mode)
            else RoundsTo(x + remainder, d, m, product, mode)
  {
  }

  /**
   * Over a positive denominator the result is within one of the exact quotient: floor and ceil
   * bracket it, and the half modes are never further than half a unit from it, ties to even, away from
   * zero or towards it. Both signs changed, nothing changes; and nothing is divided by zero.
   */
  lemma DividesRightly(n: int, d: int, mode: Mode)
    requires d > 0
    ensures DivideRounded(n, d, mode).Some?
    ensures var r := DivideRounded(n, d, mode).value; RoundsTo(n, d, r, r * d, mode)
    ensures DivideRounded(-n, -d, mode) == DivideRounded(n, d, mode)
    ensures DivideRounded(n, 0, mode).None?
  {
    var size := if n < 0 then -n else n;
    var q, rem := size / d, size % d;
    DivMod(size, d, q, rem);
    RoundedRounds(q, rem, d, mode, n);
  }

  lemma DivMod(size: nat, d: int, q: int, rem: int)
    requires d > 0 && q == size / d && rem == size % d
    ensures size == q * d + rem && 0 <= rem < d && q >= 0
  {
  }

  lemma RoundedRounds(q: nat, rem: nat, d: int, mode: Mode, n: int)
    requires d > 0 && rem < d && (if n < 0 then -n else n) == q * d + rem
    ensures var r := Rounded(q, rem, d, n < 0, mode); RoundsTo(n, d, r, r * d, mode)
  {
    MagnitudeRounds(q * d, q, rem, d, n < 0, mode);
    Products(q, d);
  }

  lemma Products(q: int, d: int)
    ensures (q + 1) * d == q * d + d && (-q) * d == -(q * d) && (-(q + 1)) * d == -(q * d + d)
  {
  }

  /** Rounding never crosses a whole number: a quotient at most `k` rounds to at most `k`, and at least to at least. */
  lemma NeverCrosses(n: int, d: int, mode: Mode, k: int)
    requires d > 0
    ensures DivideRounded(n, d, mode).Some?
    ensures n <= k * d ==> DivideRounded(n, d, mode).value <= k
    ensures n >= k * d ==> DivideRounded(n, d, mode).value >= k
  {
    DividesRightly(n, d, mode);
    var r := DivideRounded(n, d, mode).value;
    if r > k {
      MulMonotone(k + 1, r, d);
      assert (k + 1) * d == k * d + d;
    }
    if r < k {
      MulMonotone(r, k - 1, d);
      assert (k - 1) * d == k * d - d;
    }
  }

  lemma MulMonotone(a: int, b: int, d: int)
    requires a <= b && d >= 0
    ensures a * d <= b * d
  {
  }

  /** `m x (100 + p) / 100`, rounded once, half to even. */
  function PercentChange(amount: int, p: Decimal): int
    requires ValidDecimal(p)
  {
    DivideRounded(amount * (100 * p.den + p.num), 100 * p.den, HalfEven).value
  }

  /** The change is the percentage itself: the result is `100 + p` hundredths of the amount, to the nearest, ties to even. */
  lemma PercentChangeIsThatShare(amount: int, p: Decimal)
    requires ValidDecimal(p)
    ensures var whole, r := 100 * p.den, PercentChange(amount, p);
            RoundsTo(amount * whole + amount * p.num, whole, r, r * whole, HalfEven)
  {
    DividesRightly(amount * (100 * p.den + p.num), 100 * p.den, HalfEven);
    assert amount * (100 * p.den + p.num) == amount * (100 * p.den) + amount * p.num;
  }

  /** Taking a percentage off a price that is not negative never raises it, adding one never lowers it. */
  lemma PercentChangeDirection(amount: nat, p: Decimal)
    requires ValidDecimal(p)
    ensures p.num < 0 ==> PercentChange(amount, p) <= amount
    ensures p.num > 0 ==> PercentChange(amount, p) >= amount
    ensures p.num == 0 ==> PercentChange(amount, p) == amount
  {
    var d := 100 * p.den;
    NeverCrosses(amount * (d + p.num), d, HalfEven, amount);
    assert amount * (d + p.num) == amount * d + amount * p.num;
    if p.num < 0 {
      MulMonotone(p.num, 0, amount);
    } else {
      MulMonotone(0, p.num, amount);
    }
  }

  /** The price at which `margin` percent of it is margin over `cost`; none when no price reaches it. */
  function PriceAtMargin(cost: int, margin: Decimal, mode: Mode): (r: Option<int>)
    requires ValidDecimal(margin)
  {
    var kept := 100 * margin.den - margin.num;
    if kept <= 0 then None else DivideRounded(cost * (100 * margin.den), kept, mode)
  }

  /** A floor rounded up meets the margin it is for: `(price - cost) / price >= margin`. */
  lemma MarginFloorMeetsMargin(cost: int, margin: Decimal)
    requires ValidDecimal(margin)
    ensures PriceAtMargin(cost, margin, Ceil).None? <==> margin.num >= 100 * margin.den
    ensures PriceAtMargin(cost, margin, Ceil).Some? ==>
              var price := PriceAtMargin(cost, margin, Ceil).value;
              price * (100 * margin.den - margin.num) >= cost * (100 * margin.den)
              && (price - 1) * (100 * margin.den - margin.num) < cost * (100 * margin.den)
  {
    var kept := 100 * margin.den - margin.num;
    if kept > 0 {
      DividesRightly(cost * (100 * margin.den), kept, Ceil);
      var price := PriceAtMargin(cost, margin, Ceil).value;
      assert (price - 1) * kept == price * kept - kept;
    }
  }
}
