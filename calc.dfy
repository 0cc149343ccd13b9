/**
  The price calculator: from the net price a merchant wants buyers to see
  (`target`), the net price the marketplace shows now (`current_discounted`,
  whole currency units) and the list price it shows now (`current_basic`,
  hundredths), compute the list price to push and the discounted price it is
  predicted to produce.

  The source computes with `f64` and `i32`. This model uses exact `real`s and
  unbounded `int`s: binary floating-point rounding artefacts and the saturation
  of `as i32` casts are abstracted away. `.floor()` is `Floor`, `as i32` on a
  real is truncation toward zero (`Trunc`), `.round()` is rounding half away
  from zero (`Round`), and integer `/` and `%` truncate toward zero.
*/
module Calc {

  // ---------------------------------------------------------------------------
  // Rust's numeric operators on exact numbers
  // ---------------------------------------------------------------------------

  /** `x as i32` for a finite `x`: truncation toward zero. */
  function Trunc(x: real): int {
    if x >= 0.0 then x.Floor else -((-x).Floor)
  }

  /** `x.round()`: to the nearest integer, halves away from zero. */
  function Round(x: real): int {
    if x >= 0.0 then (x + 0.5).Floor else -((-x + 0.5).Floor)
  }

  /** Integer `a / n` on `i32`: the quotient truncated toward zero. */
  function DivTrunc(a: int, n: int): int
    requires n > 0
  {
    if a >= 0 then a / n else -((-a) / n)
  }

  /** `k % 10` on `i64`: the remainder takes the sign of `k`. */
  function LastDigit(k: int): int {
    if k >= 0 then k % 10 else -((-k) % 10)
  }

  // ---------------------------------------------------------------------------
  // The discount fraction (src/calc.rs, correct_part)
  // ---------------------------------------------------------------------------

  /** `x` is a whole number of thousandths whose last digit is 5. */
  predicate IsHalfStep(x: real) {
    (x * 1000.0).Floor as real == x * 1000.0 && LastDigit((x * 1000.0).Floor) == 5
  }

  /**
    Snap a discount fraction to its rounded thousandth when that thousandth
    ends in 5; otherwise keep it.
  */
  function CorrectPart(start: real): (r: real)
    ensures LastDigit(Round(start * 1000.0)) == 5 ==> r == Round(start * 1000.0) as real / 1000.0
    ensures LastDigit(Round(start * 1000.0)) != 5 ==> r == start
    ensures r == start || IsHalfStep(r)
    ensures -0.0005 <= r - start <= 0.0005
  {
    var rounded := Round(start * 1000.0);
    if LastDigit(rounded) == 5 then rounded as real / 1000.0 else start
  }

  /** Snapping a second time changes nothing. */
  lemma CorrectPartIdempotent(start: real)
    ensures CorrectPart(CorrectPart(start)) == CorrectPart(start)
  {
    var k := Round(start * 1000.0);
    if LastDigit(k) == 5 {
      var r := k as real / 1000.0;
      assert k >= 0;
      assert r * 1000.0 == k as real;
      assert Round(r * 1000.0) == k;
    }
  }

  /** A fraction in (0, 1] stays in (0, 1]: a snapped value is k/1000 with k mod 10 = 5, so 5 <= k <= 995. */
  lemma CorrectPartInUnit(start: real)
    requires 0.0 < start <= 1.0
    ensures 0.0 < CorrectPart(start) <= 1.0
  {
    var k := Round(start * 1000.0);
    assert 0 <= k <= 1000;
    if LastDigit(k) == 5 {
      assert 5 <= k <= 995;
    }
  }

  /** The effective discount fraction `current_discounted / current_basic`, snapped. */
  function EffectivePart(currentDiscounted: int, currentBasic: int): (part: real)
    requires 0 < currentDiscounted <= currentBasic
    ensures 0.0 < part <= 1.0
  {
    var raw := currentDiscounted as real / currentBasic as real;
    CorrectPartInUnit(raw);
    CorrectPart(raw)
  }

  // ---------------------------------------------------------------------------
  // The marketplace's net price and the search for a list price (correct)
  // ---------------------------------------------------------------------------

  /** The discounted price the marketplace derives from list price `b`: `floor(b * part)`. */
  function Discounted(b: int, part: real): (d: int)
    ensures 0 <= b && 0.0 < part <= 1.0 ==> 0 <= d <= b
  {
    var x := b as real * part;
    assert 0 <= b && 0.0 < part <= 1.0 ==> 0.0 <= x <= b as real by {
      if 0 <= b && 0.0 < part <= 1.0 {
        assert b as real * part <= b as real * 1.0;
      }
    }
    x.Floor
  }

  /**
    The net price the marketplace shows for list price `b`: the discounted
    price less the 3% rebate, floored.
  */
  function Net(b: int, part: real): (n: int)
    ensures 0 <= Discounted(b, part) ==> 0 <= n <= Discounted(b, part)
  {
    (Discounted(b, part) as real * 0.97).Floor
  }

  /** Adding at most 1 to a real adds 0 or 1 to its floor. */
  lemma FloorStep(x: real, d: real)
    requires 0.0 < d <= 1.0
    ensures x.Floor <= (x + d).Floor <= x.Floor + 1
  {
  }

  /** One step of the list price moves the net price by 0 or 1. */
  lemma NetStep(b: int, part: real)
    requires 0.0 < part <= 1.0
    ensures Net(b, part) <= Net(b + 1, part) <= Net(b, part) + 1
  {
    var x := b as real * part;
    assert (b + 1) as real * part == x + part;
    FloorStep(x, part);
    var m := x.Floor;
    var m' := (x + part).Floor;
    if m' == m + 1 {
      assert m' as real * 0.97 == m as real * 0.97 + 0.97;
      FloorStep(m as real * 0.97, 0.97);
    }
  }

  /** The net price is monotone in the list price. */
  lemma {:induction false} NetMonotone(a: int, b: int, part: real)
    requires 0.0 < part <= 1.0
    requires a <= b
    ensures Net(a, part) <= Net(b, part)
    decreases b - a
  {
    if a < b {
      NetStep(a, part);
      NetMonotone(a + 1, b, part);
    }
  }

  /** `0.97 * b * part - 2 < Net(b, part) <= 0.97 * b * part` */
  lemma NetBounds(b: int, part: real)
    ensures Net(b, part) as real <= 0.97 * (b as real * part)
    ensures Net(b, part) as real > 0.97 * (b as real * part) - 2.0
  {
    var x := b as real * part;
    var m := x.Floor;
    assert m as real * 0.97 <= 0.97 * x;
    assert m as real * 0.97 > 0.97 * x - 0.97;
  }

  lemma BelowQuotient(y: real, b: real, c: real)
    requires c > 0.0
    requires y < b * c
    ensures y / c < b
  {
    var q := y / c;
    assert q * c == y;
    if q >= b {
      assert q * c >= b * c;
    }
  }

  lemma AboveQuotient(y: real, b: real, c: real)
    requires c > 0.0
    requires b * c < y
    ensures b < y / c
  {
    var q := y / c;
    assert q * c == y;
    if b >= q {
      assert b * c >= q * c;
    }
  }

  /**
    How many steps `Correct` still has to take: its distance to a list-price
    bound beyond which the net price is certainly on the other side of `target`.
  */
  ghost function Gap(base: int, part: real, target: int): int
    requires 0.0 < part <= 1.0
  {
    var net := Net(base, part);
    if net == target then 0
    else if net > target then base - (target as real / (0.97 * part)).Floor
    else ((target as real + 2.0) / (0.97 * part)).Floor + 1 - base
  }

  lemma GapPositive(base: int, part: real, target: int)
    requires 0.0 < part <= 1.0
    ensures Net(base, part) != target ==> Gap(base, part, target) > 0
  {
    var x := base as real * part;
    NetBounds(base, part);
    assert 0.97 * x == base as real * (0.97 * part);
    if Net(base, part) > target {
      BelowQuotient(target as real, base as real, 0.97 * part);
    } else if Net(base, part) < target {
      AboveQuotient(target as real + 2.0, base as real, 0.97 * part);
    }
  }

  /** Walk from `base` one step at a time until the net price equals `target`. */
  function Correct(base: int, part: real, target: int): (r: int)
    requires 0.0 < part <= 1.0
    ensures Net(r, part) == target
    ensures Net(base, part) == target ==> r == base
    ensures Net(base, part) > target ==> r < base && forall b :: r < b <= base ==> Net(b, part) > target
    ensures Net(base, part) < target ==> base < r && forall b :: base <= b < r ==> Net(b, part) < target
    decreases Gap(base, part, target)
  {
    var net := Net(base, part);
    if net == target then
      base
    else if net > target then
      NetStep(base - 1, part);
      GapPositive(base, part, target);
      GapPositive(base - 1, part, target);
      Correct(base - 1, part, target)
    else
      NetStep(base, part);
      GapPositive(base, part, target);
      GapPositive(base + 1, part, target);
      Correct(base + 1, part, target)
  }

  // ---------------------------------------------------------------------------
  // count_new_basic
  // ---------------------------------------------------------------------------

  /** The first guess: `target / 0.97 / part`, truncated. */
  function Seed(target: int, part: real): int
    requires part > 0.0
  {
    Trunc(target as real / 0.97 / part)
  }

  /**
    For a non-negative target the seed already shows a net price at most 2
    below the target, so the search walks only a few steps.
  */
  lemma SeedNearTarget(target: int, part: real)
    requires 0.0 < part <= 1.0
    requires 0 <= target
    ensures target - 2 <= Net(Seed(target, part), part) <= target
  {
    var q := target as real / 0.97 / part;
    var s := Seed(target, part);
    assert q * part * 0.97 == target as real;
    assert 0.0 <= q;
    assert s as real <= q < s as real + 1.0;
    assert s as real * part <= q * part by {
      assert (q - s as real) * part >= 0.0;
    }
    assert s as real * part > q * part - 1.0 by {
      assert (s as real + 1.0 - q) * part > 0.0;
    }
    NetBounds(s, part);
  }

  /** The list price the search finds, before the floor clamp. */
  function Unclamped(target: int, currentDiscounted: int, currentBasic: int): int
    requires 0 < currentDiscounted <= currentBasic
  {
    var part := EffectivePart(currentDiscounted, currentBasic);
    Correct(Seed(target, part), part, target)
  }

  /** `current_basic / 100`: the visible list price in whole units. */
  function Rubles(currentBasic: int): (rub: int)
    ensures 0 <= currentBasic ==> 0 <= 100 * rub <= currentBasic < 100 * rub + 100
    ensures currentBasic < 0 ==> 100 * rub - 100 < currentBasic <= 100 * rub <= 0
  {
    DivTrunc(currentBasic, 100)
  }

  /**
    The clamp test `new_price as f64 / rub as f64 < 0.3`. When `rub` is 0 the
    f64 quotient is +inf, NaN or -inf, so only a negative price passes.
  */
  predicate ClampFires(price: int, rub: int) {
    if rub != 0 then price as real / rub as real < 0.3 else price < 0
  }

  /** The replacement list price `round(rub * 0.4)`. */
  function ClampPrice(rub: int): (p: int)
    ensures 0 <= rub ==> -0.5 < p as real - 0.4 * rub as real <= 0.5
    ensures rub < 0 ==> -0.5 <= p as real - 0.4 * rub as real < 0.5
  {
    Round(rub as real * 0.4)
  }

  /**
    For a positive visible price the clamp fires exactly when the new list
    price is below three tenths of it; for a negative one the comparison flips.
  */
  lemma ClampFiresBelowThreeTenths(price: int, rub: int)
    ensures rub > 0 ==> (ClampFires(price, rub) <==> 10 * price < 3 * rub)
    ensures rub < 0 ==> (ClampFires(price, rub) <==> 10 * price > 3 * rub)
  {
    if rub > 0 {
      QuotientBelow(price as real, rub as real, 0.3);
    } else if rub < 0 {
      assert price as real / rub as real == (-price) as real / (-rub) as real;
      QuotientBelow((-price) as real, (-rub) as real, 0.3);
    }
  }

  /** Dividing by a positive number keeps the order: `y / c < b` exactly when `y < b * c`. */
  lemma QuotientBelow(y: real, c: real, b: real)
    requires c > 0.0
    ensures y / c < b <==> y < b * c
  {
    if y < b * c {
      BelowQuotient(y, b, c);
    } else {
      var q := y / c;
      assert q * c == y;
    }
  }

  /**
    Returns `(predicted discounted price, new list price)`. Without the clamp
    the new list price makes the marketplace show exactly `target`.
  */
  function CountNewBasic(target: int, currentDiscounted: int, currentBasic: int): (r: (int, int))
    requires 0 < currentDiscounted <= currentBasic
    ensures r.0 == Discounted(r.1, EffectivePart(currentDiscounted, currentBasic))
    ensures ClampFires(Unclamped(target, currentDiscounted, currentBasic), Rubles(currentBasic))
      ==> r.1 == ClampPrice(Rubles(currentBasic))
    ensures !ClampFires(Unclamped(target, currentDiscounted, currentBasic), Rubles(currentBasic))
      ==> Net(r.1, EffectivePart(currentDiscounted, currentBasic)) == target
  {
    var part := EffectivePart(currentDiscounted, currentBasic);
    var found := Unclamped(target, currentDiscounted, currentBasic);
    var rub := Rubles(currentBasic);
    var newPrice := if ClampFires(found, rub) then ClampPrice(rub) else found;
    (Discounted(newPrice, part), newPrice)
  }

  /** For fixed current prices, a larger target never gives a smaller list price (clamp not firing). */
  lemma CountNewBasicMonotone(t1: int, t2: int, currentDiscounted: int, currentBasic: int)
    requires 0 < currentDiscounted <= currentBasic
    requires t1 <= t2
    requires !ClampFires(Unclamped(t1, currentDiscounted, currentBasic), Rubles(currentBasic))
    requires !ClampFires(Unclamped(t2, currentDiscounted, currentBasic), Rubles(currentBasic))
    ensures CountNewBasic(t1, currentDiscounted, currentBasic).1 <= CountNewBasic(t2, currentDiscounted, currentBasic).1
  {
    var part := EffectivePart(currentDiscounted, currentBasic);
    var p1 := CountNewBasic(t1, currentDiscounted, currentBasic).1;
    var p2 := CountNewBasic(t2, currentDiscounted, currentBasic).1;
    if p1 > p2 {
      NetMonotone(p2, p1, part);
    }
  }

  /** Once the clamp fires, the target no longer matters. */
  lemma ClampIgnoresTarget(t1: int, t2: int, currentDiscounted: int, currentBasic: int)
    requires 0 < currentDiscounted <= currentBasic
    requires ClampFires(Unclamped(t1, currentDiscounted, currentBasic), Rubles(currentBasic))
    requires ClampFires(Unclamped(t2, currentDiscounted, currentBasic), Rubles(currentBasic))
    ensures CountNewBasic(t1, currentDiscounted, currentBasic) == CountNewBasic(t2, currentDiscounted, currentBasic)
  {
  }

  // ---------------------------------------------------------------------------
  // Worked examples: a list price of 1000.00 showing a net price of 970
  // ---------------------------------------------------------------------------

  /** The discount fraction 970 / 100000 = 0.0097 is not snapped: its rounded thousandth is 10. */
  lemma ExamplePart()
    ensures EffectivePart(970, 100000) == 0.0097
  {
    assert Round(0.0097 * 1000.0) == 10;
  }

  /**
    A target of 1000 for a row showing 970 at list price 100000 moves the list
    price to 106289: the search starts from 106281 and stops at 106289, the
    first list price that shows 1000.
  */
  lemma ExampleTarget1000()
    ensures CountNewBasic(1000, 970, 100000) == (1031, 106289)
  {
    ExamplePart();
    var part := 0.0097;
    var seed := Seed(1000, part);
    assert seed == 106281;
    assert Net(seed, part) == 999;
    assert Net(106288, part) == 999;
    assert Net(106289, part) == 1000;
    var found := Unclamped(1000, 970, 100000);
    if found < 106289 {
      NetMonotone(found, 106288, part);
    }
    assert found == 106289;
  }

  /** A target of 0 is found at list price 0, which the clamp lifts to round(1000 * 0.4) = 400. */
  lemma ExampleTarget0()
    ensures CountNewBasic(0, 970, 100000) == (3, 400)
  {
    ExamplePart();
    assert Seed(0, 0.0097) == 0;
    assert Net(0, 0.0097) == 0;
    assert Unclamped(0, 970, 100000) == 0;
  }

  /** At fraction 0.0097 a list price that shows 200 is at least 300. */
  lemma ShowsTwoHundred(found: int, part: real)
    requires part == 0.0097 && Net(found, part) == 200
    ensures found >= 300
  {
    assert Net(299, 0.0097) == 1;
    if found < 300 {
      NetMonotone(found, 299, 0.0097);
    }
  }

  /** For a target of 200 the search ends far above the clamp threshold of 0.3 * 1000. */
  lemma ExampleUnclamped200()
    ensures Unclamped(200, 970, 100000) >= 300
    ensures !ClampFires(Unclamped(200, 970, 100000), Rubles(100000))
  {
    ExamplePart();
    ShowsTwoHundred(Unclamped(200, 970, 100000), 0.0097);
    assert Rubles(100000) == 1000;
  }

  /** At fraction 0.0097 a list price of 400 shows 2, so it cannot be the list price for 200. */
  lemma NotAt400(p: int)
    requires Net(p, 0.0097) == 200
    ensures p != 400
  {
    assert Net(400, 0.0097) == 2;
  }

  /** A target of 200 is not clamped: the list price is not 400 and shows exactly 200. */
  lemma ExampleTarget200()
    ensures CountNewBasic(200, 970, 100000).1 != 400
    ensures Net(CountNewBasic(200, 970, 100000).1, 0.0097) == 200
  {
    ExamplePart();
    ExampleUnclamped200();
    NotAt400(CountNewBasic(200, 970, 100000).1);
  }
}
