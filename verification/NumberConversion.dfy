/** Money arithmetic (src/utils/NumberConversion.ts) over exact reals, with the rounding
    rules of ECMA-262: `Math.round` sends ties up (section 21.3.2.28), `toFixed` sends
    ties away from zero (section 21.1.3.3), BigInt `/` and `%` truncate toward zero. */
module NumberConversion {
  import opened Basics

  const MYRIAD: int := 10000
  const RATE_FIXED_MULTIPLIER: int := 100000

  /** `Math.trunc` */
  function Trunc(x: real): int {
    if x < 0.0 then -((-x).Floor) else x.Floor
  }

  /** `Math.round` */
  function JsRound(x: real): int {
    (x + 0.5).Floor
  }

  /** The digits of `x.toFixed(2)`, in whole cents. */
  function Cents(x: real): int {
    if x < 0.0 then -((-x * 100.0 + 0.5).Floor) else (x * 100.0 + 0.5).Floor
  }

  /** `+x.toFixed(2)` */
  function ToFixed2(x: real): real {
    Cents(x) as real / 100.0
  }

  /** BigInt `/` */
  function BigDiv(a: int, b: int): int
    requires b > 0
  {
    if a < 0 then -((-a) / b) else a / b
  }

  /** BigInt `%` */
  function BigMod(a: int, b: int): int
    requires b > 0
  {
    a - b * BigDiv(a, b)
  }

  /** `numberToMyriadths`; `n % 1` keeps the sign of `n`. */
  function NumberToMyriadths(n: real): int {
    Trunc(n) * MYRIAD + JsRound((n - Trunc(n) as real) * MYRIAD as real)
  }

  function MyriadthsToNumber(m: int): real {
    BigDiv(m, MYRIAD) as real + BigMod(m, MYRIAD) as real / MYRIAD as real
  }

  function MyriadthsToAmount(m: int): real {
    ToFixed2(MyriadthsToNumber(m))
  }

  function SumMyriadths(xs: seq<real>): int {
    if xs == [] then 0 else NumberToMyriadths(xs[0]) + SumMyriadths(xs[1..])
  }

  /** `sumAmounts` */
  function SumAmounts(xs: seq<real>): real {
    MyriadthsToAmount(SumMyriadths(xs))
  }

  function MultiplyRate(rate: real, m: int): int {
    BigDiv(JsRound(rate * RATE_FIXED_MULTIPLIER as real) * m, RATE_FIXED_MULTIPLIER)
  }

  /** `multiplyAmountByRate` */
  function MultiplyAmountByRate(amount: real, rate: real): real {
    MyriadthsToAmount(MultiplyRate(rate, NumberToMyriadths(amount)))
  }

  /** An amount with no fraction of a cent. */
  ghost predicate WholeCents(x: real) {
    (x * 100.0).Floor as real == x * 100.0
  }

  ghost predicate AllWholeCents(xs: seq<real>) {
    forall i :: 0 <= i < |xs| ==> WholeCents(xs[i])
  }

  // ---- Single conversions ----

  lemma FloorUnique(x: real, n: int)
    requires n as real <= x < n as real + 1.0
    ensures x.Floor == n
  {
  }

  lemma FloorMonotone(x: real, y: real)
    requires x <= y
    ensures x.Floor <= y.Floor
  {
  }

  /** The whole part lies between zero and the number, less than one away from it. */
  lemma TruncMeaning(x: real)
    ensures x >= 0.0 ==> 0.0 <= Trunc(x) as real <= x < Trunc(x) as real + 1.0
    ensures x <= 0.0 ==> Trunc(x) as real - 1.0 < x <= Trunc(x) as real <= 0.0
  {
  }

  /** Splitting off the whole part first does not change the rounding. */
  lemma MyriadthsAreRounded(n: real)
    ensures NumberToMyriadths(n) == JsRound(n * 10000.0)
    ensures -0.5 <= NumberToMyriadths(n) as real - n * 10000.0 <= 0.5
  {
    var t := Trunc(n);
    var f := JsRound((n - t as real) * 10000.0);
    assert (n - t as real) * 10000.0 == n * 10000.0 - (t * 10000) as real;
    FloorUnique(n * 10000.0 + 0.5, t * 10000 + f);
  }

  lemma MyriadthsToNumberIsExact(m: int)
    ensures MyriadthsToNumber(m) == m as real / 10000.0
  {
    var q := BigDiv(m, 10000);
    assert BigMod(m, 10000) as real == m as real - 10000.0 * q as real;
  }

  lemma ToFixed2Error(x: real)
    ensures -0.005 <= ToFixed2(x) - x <= 0.005
    ensures WholeCents(ToFixed2(x))
  {
    assert ToFixed2(x) * 100.0 == Cents(x) as real;
  }

  lemma ToFixed2KeepsCents(x: real)
    requires WholeCents(x)
    ensures ToFixed2(x) == x
  {
    var h := (x * 100.0).Floor;
    if x < 0.0 {
      FloorUnique(-x * 100.0 + 0.5, -h);
    } else {
      FloorUnique(x * 100.0 + 0.5, h);
    }
  }

  lemma CentsMonotone(x: real, y: real)
    requires x <= y
    ensures Cents(x) <= Cents(y)
  {
    if y < 0.0 {
      FloorMonotone(-y * 100.0 + 0.5, -x * 100.0 + 0.5);
    } else if 0.0 <= x {
      FloorMonotone(x * 100.0 + 0.5, y * 100.0 + 0.5);
    } else {
      FloorMonotone(0.5, -x * 100.0 + 0.5);
      FloorMonotone(0.5, y * 100.0 + 0.5);
    }
  }

  lemma ToFixed2Monotone(x: real, y: real)
    requires x <= y
    ensures ToFixed2(x) <= ToFixed2(y)
  {
    CentsMonotone(x, y);
  }

  /** `Math.round` sends a tie up, for either sign; `toFixed` sends it away from zero. */
  lemma Ties(k: int)
    ensures JsRound(k as real + 0.5) == k + 1
    ensures k >= 0 ==> ToFixed2((k as real + 0.5) / 100.0) == (k + 1) as real / 100.0
    ensures k >= 0 ==> ToFixed2(-((k as real + 0.5) / 100.0)) == -((k + 1) as real / 100.0)
  {
    FloorUnique(k as real + 0.5 + 0.5, k + 1);
  }

  lemma CentsAreExactMyriadths(x: real)
    requires WholeCents(x)
    ensures NumberToMyriadths(x) as real == x * 10000.0
    ensures NumberToMyriadths(x) == (x * 100.0).Floor * 100
  {
    MyriadthsAreRounded(x);
    var h := (x * 100.0).Floor;
    assert x * 10000.0 == (h * 100) as real;
    FloorUnique(x * 10000.0 + 0.5, h * 100);
  }

  // ---- Whole cents are closed under the operations used on them ----

  lemma WholeCentsClosed(x: real, y: real)
    requires WholeCents(x) && WholeCents(y)
    ensures WholeCents(x + y) && WholeCents(x - y) && WholeCents(-x) && WholeCents(Abs(x))
  {
    var a, b := (x * 100.0).Floor, (y * 100.0).Floor;
    FloorUnique((x + y) * 100.0, a + b);
    FloorUnique((x - y) * 100.0, a - b);
    FloorUnique(-x * 100.0, -a);
  }

  lemma {:induction false} SumIsWholeCents(xs: seq<real>)
    requires AllWholeCents(xs)
    ensures WholeCents(Sum(xs))
  {
    if xs == [] {
      assert WholeCents(0.0);
    } else {
      SumIsWholeCents(xs[1..]);
      WholeCentsClosed(xs[0], Sum(xs[1..]));
    }
  }

  // ---- sumAmounts ----

  lemma {:induction false} SumMyriadthsError(xs: seq<real>)
    ensures -0.5 * |xs| as real <= SumMyriadths(xs) as real - Sum(xs) * 10000.0 <= 0.5 * |xs| as real
  {
    if xs == [] {
    } else {
      MyriadthsAreRounded(xs[0]);
      SumMyriadthsError(xs[1..]);
    }
  }

  /** For any k amounts, `sumAmounts` is within half a cent plus k/20000 of their sum,
      and it is always a whole number of cents. */
  lemma {:induction false} SumAmountsError(xs: seq<real>)
    ensures Abs(SumAmounts(xs) - Sum(xs)) <= 0.005 + |xs| as real / 20000.0
    ensures WholeCents(SumAmounts(xs))
  {
    SumMyriadthsError(xs);
    MyriadthsToNumberIsExact(SumMyriadths(xs));
    ToFixed2Error(MyriadthsToNumber(SumMyriadths(xs)));
  }

  lemma {:induction false} SumMyriadthsOnCents(xs: seq<real>)
    requires AllWholeCents(xs)
    ensures SumMyriadths(xs) as real == Sum(xs) * 10000.0
  {
    if xs == [] {
    } else {
      CentsAreExactMyriadths(xs[0]);
      SumMyriadthsOnCents(xs[1..]);
    }
  }

  /** On whole cents `sumAmounts` is the exact sum. */
  lemma {:induction false} SumAmountsExactOnCents(xs: seq<real>)
    requires AllWholeCents(xs)
    ensures SumAmounts(xs) == Sum(xs)
  {
    SumMyriadthsOnCents(xs);
    MyriadthsToNumberIsExact(SumMyriadths(xs));
    SumIsWholeCents(xs);
    ToFixed2KeepsCents(Sum(xs));
  }

  lemma {:induction false} SumMyriadthsConcat(xs: seq<real>, ys: seq<real>)
    ensures SumMyriadths(xs + ys) == SumMyriadths(xs) + SumMyriadths(ys)
  {
    if xs == [] {
      assert xs + ys == ys;
    } else {
      assert (xs + ys)[1..] == xs[1..] + ys;
      SumMyriadthsConcat(xs[1..], ys);
    }
  }

  /** The order of the amounts never matters, whatever the amounts are. */
  lemma {:induction false} SumAmountsIgnoresOrder(xs: seq<real>, ys: seq<real>)
    requires multiset(xs) == multiset(ys)
    ensures SumAmounts(xs) == SumAmounts(ys)
  {
    SumMyriadthsIgnoresOrder(xs, ys);
  }

  lemma {:induction false} SumMyriadthsIgnoresOrder(xs: seq<real>, ys: seq<real>)
    requires multiset(xs) == multiset(ys)
    ensures SumMyriadths(xs) == SumMyriadths(ys)
    decreases |xs|
  {
    if xs == [] {
      assert |multiset(ys)| == 0;
    } else {
      var k := FoundIn(xs, ys);
      SumMyriadthsWithout(ys, k);
      WithoutHead(xs);
      SumMyriadthsIgnoresOrder(xs[1..], ys[..k] + ys[k+1..]);
    }
  }

  lemma {:induction false} FoundIn(xs: seq<real>, ys: seq<real>) returns (k: nat)
    requires xs != [] && multiset(xs) == multiset(ys)
    ensures k < |ys| && ys[k] == xs[0]
  {
    assert xs[0] in multiset(ys);
    k :| 0 <= k < |ys| && ys[k] == xs[0];
  }

  lemma {:induction false} WithoutHead(xs: seq<real>)
    requires xs != []
    ensures multiset(xs[1..]) == multiset(xs) - multiset{xs[0]}
  {
    assert xs == [xs[0]] + xs[1..];
  }

  lemma {:induction false} SumMyriadthsWithout(ys: seq<real>, k: nat)
    requires k < |ys|
    ensures SumMyriadths(ys) == NumberToMyriadths(ys[k]) + SumMyriadths(ys[..k] + ys[k+1..])
    ensures multiset(ys[..k] + ys[k+1..]) == multiset(ys) - multiset{ys[k]}
  {
    var front, back := ys[..k], ys[k+1..];
    assert ys == front + ([ys[k]] + back);
    SumMyriadthsConcat(front, [ys[k]] + back);
    assert ([ys[k]] + back)[1..] == back;
    SumMyriadthsConcat(front, back);
  }

  function Flatten(groups: seq<seq<real>>): seq<real> {
    if groups == [] then [] else groups[0] + Flatten(groups[1..])
  }

  function GroupSums(groups: seq<seq<real>>): seq<real> {
    if groups == [] then [] else [SumAmounts(groups[0])] + GroupSums(groups[1..])
  }

  lemma {:induction false} SumOfGroupSums(groups: seq<seq<real>>)
    requires forall g <- groups :: AllWholeCents(g)
    ensures AllWholeCents(Flatten(groups)) && AllWholeCents(GroupSums(groups))
    ensures Sum(GroupSums(groups)) == Sum(Flatten(groups))
  {
    if groups == [] {
    } else {
      SumOfGroupSums(groups[1..]);
      SumAmountsError(groups[0]);
      SumAmountsExactOnCents(groups[0]);
      SumConcat(groups[0], Flatten(groups[1..]));
    }
  }

  /** On whole cents the grouping does not matter either: rounding each group first
      gives the same total. */
  lemma {:induction false} SumAmountsIgnoresGrouping(groups: seq<seq<real>>)
    requires forall g <- groups :: AllWholeCents(g)
    ensures SumAmounts(GroupSums(groups)) == SumAmounts(Flatten(groups))
  {
    SumOfGroupSums(groups);
    SumAmountsExactOnCents(GroupSums(groups));
    SumAmountsExactOnCents(Flatten(groups));
  }

  /** Off whole cents the grouping does matter. */
  lemma GroupingMattersOffCents()
    ensures SumAmounts([0.004, 0.004]) == 0.01
    ensures SumAmounts([SumAmounts([0.004]), SumAmounts([0.004])]) == 0.0
  {
    MyriadthsAreRounded(0.004);
    FloorUnique(40.5, 40);
    assert NumberToMyriadths(0.004) == 40;
    assert SumMyriadths([0.004]) == 40 + SumMyriadths([]);
    assert SumMyriadths([0.004, 0.004]) == 40 + SumMyriadths([0.004]) by {
      assert [0.004, 0.004][1..] == [0.004];
    }
    MyriadthsToNumberIsExact(40);
    MyriadthsToNumberIsExact(80);
    assert SumAmounts([0.004]) == 0.0 by { FloorUnique(0.9, 0); }
    assert SumAmounts([0.004, 0.004]) == 0.01 by { FloorUnique(1.3, 1); }
    assert SumAmounts([0.0, 0.0]) == 0.0 by {
      assert WholeCents(0.0);
      SumAmountsExactOnCents([0.0, 0.0]);
      assert [0.0, 0.0][1..] == [0.0];
    }
  }

  // ---- multiplyAmountByRate ----

  lemma BigDivError(a: int)
    ensures -1.0 < BigDiv(a, 100000) as real - a as real / 100000.0 < 1.0
  {
  }

  lemma BigDivMonotone(a: int, b: int)
    requires a <= b
    ensures BigDiv(a, 100000) <= BigDiv(b, 100000)
  {
  }

  lemma ProductBound(x: real, y: real, bndX: real, bndY: real)
    requires Abs(x) <= bndX && Abs(y) <= bndY
    ensures Abs(x * y) <= bndX * bndY
  {
    var p, q := Abs(x), Abs(y);
    assert Abs(x * y) == p * q by {
      if x < 0.0 && y < 0.0 { assert x * y == p * q; }
      else if x < 0.0 { assert x * y == -(p * q); }
      else if y < 0.0 { assert x * y == -(p * q); }
    }
    assert p * q <= bndX * q;
    assert bndX * q <= bndX * bndY;
  }

  /** How far the myriadths of the product can be from the true product. */
  lemma MultiplyRateError(amount: real, rate: real)
    ensures Abs(MultiplyRate(rate, NumberToMyriadths(amount)) as real - amount * rate * 10000.0)
         <= 1.0 + Abs(rate) / 2.0 + Abs(amount) / 20.0 + 1.0 / 400000.0
  {
    var r, a := JsRound(rate * 100000.0), NumberToMyriadths(amount);
    MyriadthsAreRounded(amount);
    RoundedProductError(r, a, rate, amount);
    DivideByMultiplier(r * a, amount * rate, 50000.0 * Abs(rate) + 5000.0 * Abs(amount) + 0.25);
  }

  lemma RoundedProductError(r: int, a: int, rate: real, amount: real)
    requires -0.5 <= r as real - rate * 100000.0 <= 0.5
    requires -0.5 <= a as real - amount * 10000.0 <= 0.5
    ensures Abs((r * a) as real - amount * rate * 1000000000.0) <= 50000.0 * Abs(rate) + 5000.0 * Abs(amount) + 0.25
  {
    var e1, e2 := r as real - rate * 100000.0, a as real - amount * 10000.0;
    ProductErrors(rate, amount, e1, e2);
    IntProduct(r, a, rate * 100000.0 + e1, amount * 10000.0 + e2);
  }

  lemma IntProduct(r: int, a: int, x: real, y: real)
    requires r as real == x && a as real == y
    ensures (r * a) as real == x * y
  {
  }

  lemma DivideByMultiplier(p: int, x: real, bound: real)
    requires Abs(p as real - x * 1000000000.0) <= bound
    ensures Abs(BigDiv(p, 100000) as real - x * 10000.0) <= 1.0 + bound / 100000.0
  {
    BigDivError(p);
  }

  lemma ProductErrors(rate: real, amount: real, e1: real, e2: real)
    requires -0.5 <= e1 <= 0.5 && -0.5 <= e2 <= 0.5
    ensures Abs((rate * 100000.0 + e1) * (amount * 10000.0 + e2) - amount * rate * 1000000000.0)
         <= 50000.0 * Abs(rate) + 5000.0 * Abs(amount) + 0.25
  {
    ProductBound(e1, amount, 0.5, Abs(amount));
    ProductBound(e2, rate, 0.5, Abs(rate));
    ProductBound(e1, e2, 0.5, 0.5);
    ProductExpansion(rate, amount, e1, e2);
  }

  lemma ProductExpansion(rate: real, amount: real, e1: real, e2: real)
    ensures (rate * 100000.0 + e1) * (amount * 10000.0 + e2)
         == amount * rate * 1000000000.0 + e1 * amount * 10000.0 + e2 * rate * 100000.0 + e1 * e2
  {
  }

  /** `multiplyAmountByRate` stays within an explicit distance of the true product. */
  lemma MultiplyAmountByRateError(amount: real, rate: real)
    ensures Abs(MultiplyAmountByRate(amount, rate) - amount * rate)
         <= 0.0051 + Abs(rate) / 20000.0 + Abs(amount) / 200000.0 + 1.0 / 4000000000.0
    ensures WholeCents(MultiplyAmountByRate(amount, rate))
  {
    MultiplyRateError(amount, rate);
    var m := MultiplyRate(rate, NumberToMyriadths(amount));
    MyriadthsToNumberIsExact(m);
    ToFixed2Error(MyriadthsToNumber(m));
  }

  lemma ScaleMonotone(r: int, a: int, b: int)
    requires r >= 0 && a <= b
    ensures r * a <= r * b
  {
  }

  /** For a rate that is not negative, a larger amount never converts to less. */
  lemma MultiplyAmountByRateMonotone(a: real, b: real, rate: real)
    requires a <= b && rate >= 0.0
    ensures MultiplyAmountByRate(a, rate) <= MultiplyAmountByRate(b, rate)
  {
    MyriadthsAreRounded(a);
    MyriadthsAreRounded(b);
    var ma, mb := NumberToMyriadths(a), NumberToMyriadths(b);
    var r := JsRound(rate * 100000.0);
    ScaleMonotone(r, ma, mb);
    BigDivMonotone(r * ma, r * mb);
    MyriadthsToNumberIsExact(MultiplyRate(rate, ma));
    MyriadthsToNumberIsExact(MultiplyRate(rate, mb));
    ToFixed2Monotone(MyriadthsToNumber(MultiplyRate(rate, ma)), MyriadthsToNumber(MultiplyRate(rate, mb)));
  }

  /** 10.00 at a rate of 1.2345 is half way between two cents, and goes up; so does its size when negative. */
  lemma ConvertedTie()
    ensures MultiplyAmountByRate(10.0, 1.2345) == 12.35
    ensures MultiplyAmountByRate(-10.0, 1.2345) == -12.35
  {
    assert WholeCents(10.0) by { FloorUnique(1000.0, 1000); }
    assert WholeCents(-10.0) by { FloorUnique(-1000.0, -1000); }
    CentsAreExactMyriadths(10.0);
    CentsAreExactMyriadths(-10.0);
    assert JsRound(1.2345 * 100000.0) == 123450 by { FloorUnique(123450.5, 123450); }
    MyriadthsToNumberIsExact(123450);
    MyriadthsToNumberIsExact(-123450);
    Ties(1234);
  }

  /** Rate 1 rounds to cents; it changes nothing exactly when there is nothing to round. */
  lemma RateOneIsIdentityOnCents(amount: real)
    ensures MultiplyAmountByRate(amount, 1.0) == amount <==> WholeCents(amount)
  {
    if WholeCents(amount) {
      var m := NumberToMyriadths(amount);
      CentsAreExactMyriadths(amount);
      assert JsRound(1.0 * 100000.0) == 100000 by { FloorUnique(100000.5, 100000); }
      assert MultiplyRate(1.0, m) == m;
      MyriadthsToNumberIsExact(m);
      ToFixed2KeepsCents(amount);
    } else {
      MultiplyAmountByRateError(amount, 1.0);
    }
  }
}
