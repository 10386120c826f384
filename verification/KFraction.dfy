/**
  Fractions of longs (kernel/lib/kfraction.c) and the unit conversion built on them
  (kernel/lib/ktiming.c). Denominators are positive, but for comparisons. When a product of two
  fractions does not fit, the code halves a denominator and tries again, giving up precision.
 */
module KFraction {
  import opened Words
  import opened KMath

  datatype Fraction = Fraction(numerator: int, denominator: int)

  /** A positive denominator, both parts in range. */
  predicate Proper(f: Fraction) {
    FitsLong(f.numerator) && 0 < f.denominator <= LONG_MAX
  }

  /** Equality and order of the rational numbers, by cross-multiplication. */
  predicate SameValue(f: Fraction, g: Fraction) {
    f.numerator * g.denominator == g.numerator * f.denominator
  }

  predicate Below(f: Fraction, g: Fraction) {
    f.numerator * g.denominator < g.numerator * f.denominator
  }

  predicate LowestTerms(f: Fraction) {
    f.denominator > 0 && Gcd(Abs(f.numerator), f.denominator) == 1
  }

  // ----- Lowest terms -----

  /** `k_fraction_compact` */
  function Compact(f: Fraction): Fraction
    requires f.denominator > 0
  {
    GcdPositive(Abs(f.numerator), f.denominator);
    var g := Gcd(Abs(f.numerator), f.denominator);
    Fraction(f.numerator / g, f.denominator / g)
  }

  /** Compacting divides both parts exactly, so it keeps the value, and leaves nothing to divide. */
  lemma CompactIsLowest(f: Fraction) returns (g: nat)
    requires f.denominator > 0
    ensures var c := Compact(f);
            && g == Gcd(Abs(f.numerator), f.denominator) > 0
            && f.numerator == g * c.numerator && f.denominator == g * c.denominator
            && SameValue(c, f) && LowestTerms(c)
  {
    var a, b := Abs(f.numerator), f.denominator;
    g := Gcd(a, b);
    GcdPositive(a, b);
    GcdIsGreatest(a, b);
    ExactQuotient(g, a);
    ExactQuotient(g, b);
    var c := Compact(f);
    ExactSigned(f.numerator, g);
    CrossFactors(g, c);
    CoprimeParts(a, b, g, a / g, b / g);
  }

  lemma ExactSigned(n: int, g: nat)
    requires g > 0 && Abs(n) == g * (Abs(n) / g)
    ensures n == g * (n / g) && Abs(n / g) == Abs(n) / g
  {
    if n < 0 {
      var q := Abs(n) / g;
      assert g * -q == n;
      var e := n / g;
      assert n == g * e + n % g;
      if e < -q {
        MulAtMost(g, e + 1, -q);
      } else if e > -q {
        MulAtMost(g, -q + 1, e);
      }
    }
  }

  lemma CrossFactors(g: int, c: Fraction)
    ensures c.numerator * (g * c.denominator) == (g * c.numerator) * c.denominator
  {
  }

  /** What is left after dividing by the greatest common divisor has no common divisor but one. */
  lemma CoprimeParts(a: nat, b: nat, g: nat, p: nat, q: nat)
    requires b > 0 && g == Gcd(a, b) && a == g * p && b == g * q
    ensures q > 0 && Gcd(p, q) == 1
  {
    var d := Gcd(p, q);
    GcdIsGreatest(p, q);
    GcdIsGreatest(a, b);
    var u: nat :| Times(d, u, p);
    var v: nat :| Times(d, v, q);
    Regroup(g, d, u);
    Regroup(g, d, v);
    assert Times(g * d, u, a) && Times(g * d, v, b);
    assert Divides(g * d, g);
    var w: nat :| Times(g * d, w, g);
    Regroup(g, d, w);
    CancelFactor(g, d * w, 1);
    DivisorAtMost(d, w, 1);
  }

  // ----- Giving up precision -----

  /** One turn of `k_fraction_downcast_precision` on a fraction that is not whole. */
  function Downcast(f: Fraction): Fraction
    requires f.denominator > 1
  {
    Compact(Fraction(f.numerator - f.numerator % 2, f.denominator - f.denominator % 2))
  }

  /** Both parts at least halve, an odd negative numerator after rounding away from zero. */
  lemma DowncastHalves(f: Fraction)
    requires f.denominator > 1
    ensures var d := Downcast(f);
            && 0 < d.denominator && 2 * d.denominator <= f.denominator && LowestTerms(d)
            && (f.numerator >= 0 ==> 0 <= 2 * d.numerator <= f.numerator)
            && (f.numerator < 0 ==> f.numerator - 1 <= 2 * d.numerator < 0)
  {
    var e := Fraction(f.numerator - f.numerator % 2, f.denominator - f.denominator % 2);
    var g := CompactIsLowest(e);
    GcdIsGreatest(Abs(e.numerator), e.denominator);
    TwoDividesEven(Abs(e.numerator));
    TwoDividesEven(e.denominator);
    assert Divides(2, g);
    var k: nat :| Times(2, k, g);
    var d := Downcast(f);
    HalfAtMost(g, k, d.denominator, e.denominator);
    HalfAtMost(g, k, d.numerator, e.numerator);
    hide Compact;
  }

  lemma TwoDividesEven(n: nat)
    requires n % 2 == 0
    ensures Divides(2, n)
  {
    assert Times(2, n / 2, n);
  }

  lemma HalfAtMost(g: nat, k: nat, x: int, n: int)
    requires g > 0 && g == 2 * k && n == g * x
    ensures n >= 0 ==> 0 <= 2 * x <= n && (n > 0 ==> x > 0)
    ensures n < 0 ==> n <= 2 * x < 0
  {
    if x < 0 {
      MulAtMost(-x, 2, g);
    } else {
      MulAtMost(x, 2, g);
    }
  }

  /** `a` lies between 0 and `x`, and has the sign of a negative `x`. */
  predicate Within(a: int, x: int) {
    if x >= 0 then 0 <= a <= x else x <= a < 0
  }

  /** The whole number a fraction ends up as when it is halved all the way. */
  function Whole(f: Fraction): (w: Fraction)
    requires f.denominator > 0
    ensures Within(w.numerator, f.numerator) && w.denominator == 1
    decreases f.denominator
  {
    if f.denominator == 1 then f
    else
      DowncastHalves(f);
      Whole(Downcast(f))
  }

  /** Halving all the way less than doubles the value, and the less so the larger the denominator. */
  lemma {:induction false} WholeAtMost(f: Fraction)
    requires f.denominator > 0 && f.numerator >= 0
    ensures 0 <= Whole(f).numerator && Whole(f).numerator * (f.denominator + 1) <= 2 * f.numerator
    decreases f.denominator
  {
    if f.denominator > 1 {
      var g := DowncastFactor(f);
      var d := Downcast(f);
      WholeAtMost(d);
      hide Downcast, LowestTerms;
      HalvingStep(Whole(d).numerator, g, d.denominator, d.numerator, f.denominator, f.numerator);
    }
  }

  lemma HalvingStep(w: nat, g: nat, d: nat, n: nat, den: nat, num: nat)
    requires g >= 2 && w * (d + 1) <= 2 * n && den <= g * d + 1 && g * n <= num
    ensures w * (den + 1) <= 2 * num
  {
    MulAtMost(w, den + 1, g * d + g);
    Regroup(w, d + 1, g);
    MulAtMost(g, w * (d + 1), 2 * n);
    Regroup(2, n, g);
    assert g * (d + 1) == g * d + g;
  }

  /** A turn of the downcast divides both rounded parts by the same even number. */
  lemma DowncastFactor(f: Fraction) returns (g: nat)
    requires f.denominator > 1 && f.numerator >= 0
    ensures var d := Downcast(f);
            && g >= 2 && d.numerator >= 0 && 0 < d.denominator < f.denominator
            && g * d.numerator == f.numerator - f.numerator % 2
            && g * d.denominator == f.denominator - f.denominator % 2
  {
    hide *;
    DowncastHalves(f);
    var n, m := f.numerator - f.numerator % 2, f.denominator - f.denominator % 2;
    DowncastIs(f);
    g := CompactIsLowest(Fraction(n, m));
    FactorIsEven(g, Downcast(f).denominator, f.denominator);
  }

  lemma DowncastIs(f: Fraction)
    requires f.denominator > 1
    ensures Downcast(f) == Compact(Fraction(f.numerator - f.numerator % 2, f.denominator - f.denominator % 2))
  {
  }

  lemma FactorIsEven(g: nat, d: nat, n: nat)
    requires 0 < d && 2 * d <= n && g * d == n - n % 2
    ensures g >= 2 && d < n
  {
    if g < 2 {
      MulAtMost(d, g, 1);
    }
  }

  /** Halving keeps a whole number the fraction has reached. */
  lemma {:induction false} WholeAtLeast(f: Fraction, q: nat)
    requires f.denominator > 0 && f.numerator >= q * f.denominator
    ensures Whole(f).numerator >= q
    decreases f.denominator
  {
    assert q * f.denominator >= 0;
    if f.denominator > 1 {
      var g := DowncastFactor(f);
      var d := Downcast(f);
      RoundedAtLeast(q, f.numerator, f.denominator);
      Regroup(q, d.denominator, g);
      hide Downcast, LowestTerms, Whole;
      CancelOrder(g, q * d.denominator, d.numerator);
      WholeAtLeast(d, q);
    }
    WholeIs(f);
  }

  lemma WholeIs(f: Fraction)
    requires f.denominator > 0
    ensures f.denominator > 1 ==> Downcast(f).denominator > 0
    ensures Whole(f) == if f.denominator == 1 then f else Whole(Downcast(f))
  {
    if f.denominator > 1 {
      DowncastHalves(f);
    }
  }

  /** Rounding both parts down to even numbers keeps a whole number the fraction has reached. */
  lemma RoundedAtLeast(q: nat, n: nat, d: nat)
    requires d > 0 && n >= q * d
    ensures n - n % 2 >= q * (d - d % 2)
  {
    var h := d / 2;
    assert d - d % 2 == 2 * h;
    Regroup(2, q, h);
    assert q * d == 2 * (q * h) + q * (d % 2);
    assert q * (d - d % 2) == 2 * (q * h);
  }

  lemma CancelOrder(d: int, x: int, y: int)
    requires d > 0 && d * x <= y * d
    ensures x <= y
  {
    if y < x {
      MulAtLeastInt(d, y, x);
    }
  }

  // ----- Multiplication -----

  predicate ProductFits(f: Fraction, g: Fraction) {
    FitsLong(f.numerator * g.numerator) && FitsLong(f.denominator * g.denominator)
  }

  /** The operands the retry loop settles on: it halves the first one as long as it can. */
  function Settled(f: Fraction, g: Fraction): (r: Option<(Fraction, Fraction)>)
    requires f.denominator > 0 && g.denominator > 0
    ensures r.Some? ==> r.value.0.denominator > 0 && r.value.1.denominator > 0
    decreases f.denominator + g.denominator
  {
    if ProductFits(f, g) then Some((f, g))
    else if f.denominator > 1 then
      DowncastHalves(f);
      Settled(Downcast(f), g)
    else if g.denominator > 1 then
      DowncastHalves(g);
      Settled(f, Downcast(g))
    else None
  }

  function Product(f: Fraction, g: Fraction): Fraction {
    Fraction(f.numerator * g.numerator, f.denominator * g.denominator)
  }

  /** `k_fraction_downcast_precision`; false means the fraction is whole already. */
  method DowncastPrecision(f: Fraction) returns (ok: bool, r: Fraction)
    requires f.denominator > 0
    ensures ok <==> f.denominator > 1
    ensures r == if f.denominator > 1 then Downcast(f) else f
  {
    if f.denominator == 1 {
      return false, f;
    }
    r := f;
    if r.numerator % 2 != 0 {
      r := r.(numerator := r.numerator - 1);
    }
    if r.denominator % 2 != 0 {
      r := r.(denominator := r.denominator - 1);
    }
    return true, Compact(r);
  }

  function Multiplied(f: Fraction, g: Fraction): Option<Fraction>
    requires Proper(f) && Proper(g)
  {
    match Settled(f, g)
    case None => None
    case Some(p) =>
      PositiveProduct(p.0, p.1);
      Some(Compact(Product(p.0, p.1)))
  }

  /** `k_fraction_multiply`; `None` is its error. */
  method Multiply(f: Fraction, g: Fraction) returns (r: Option<Fraction>)
    requires Proper(f) && Proper(g)
    ensures r == Multiplied(f, g)
  {
    hide ProductFits, Product, Compact, Downcast;
    var a, b := f, g;
    while !ProductFits(a, b)
      invariant a.denominator > 0 && b.denominator > 0
      invariant Settled(a, b) == Settled(f, g)
      decreases a.denominator + b.denominator
    {
      var ok, c := DowncastPrecision(a);
      if ok {
        DowncastHalves(a);
        a := c;
      } else {
        ok, c := DowncastPrecision(b);
        if !ok {
          return None;
        }
        DowncastHalves(b);
        b := c;
      }
    }
    PositiveProduct(a, b);
    return Some(Compact(Product(a, b)));
  }

  lemma PositiveProduct(f: Fraction, g: Fraction)
    requires f.denominator > 0 && g.denominator > 0
    ensures Product(f, g).denominator > 0
  {
  }

  /** When the first products fit the result is the product itself, in lowest terms. */
  lemma MultiplyIsExact(f: Fraction, g: Fraction)
    requires Proper(f) && Proper(g) && ProductFits(f, g)
    ensures var r := Multiplied(f, g);
            r.Some? && SameValue(r.value, Product(f, g)) && LowestTerms(r.value)
  {
    hide ProductFits, Product;
    PositiveProduct(f, g);
    var k := CompactIsLowest(Product(f, g));
  }

  /** An error means both operands, halved down to whole numbers, still have too large a product. */
  lemma {:induction false} FailsExactlyWhen(f: Fraction, g: Fraction)
    requires f.denominator > 0 && g.denominator > 0
    ensures Settled(f, g).None? <==> !FitsLong(Whole(f).numerator * Whole(g).numerator)
    decreases f.denominator + g.denominator
  {
    SmallerProduct(Whole(f).numerator, f.numerator, Whole(g).numerator, g.numerator);
    if ProductFits(f, g) {
    } else if f.denominator > 1 {
      DowncastHalves(f);
      FailsExactlyWhen(Downcast(f), g);
    } else if g.denominator > 1 {
      DowncastHalves(g);
      FailsExactlyWhen(f, Downcast(g));
    }
  }

  /**
    The halvings of a product with a whole number: whole numbers reached are kept, and the value grows by
    less than the factor two.
   */
  lemma {:induction false} SettledBounds(f: Fraction, m: nat, q: nat)
    requires f.denominator > 0 && f.numerator >= q * f.denominator && Settled(f, Fraction(m, 1)).Some?
    ensures var p := Settled(f, Fraction(m, 1)).value;
            && p.1 == Fraction(m, 1) && p.0.denominator > 0 && FitsLong(p.0.numerator * m)
            && p.0.numerator >= q * p.0.denominator >= 0
            && p.0.numerator * (f.denominator + 1) <= f.numerator * (p.0.denominator + 1)
    decreases f.denominator
  {
    hide *;
    NonNegativeProduct(q, f.denominator);
    SettledIs(f, m);
    if !ProductFits(f, Fraction(m, 1)) {
      var g := DowncastFactor(f);
      var d := Downcast(f);
      RoundedAtLeast(q, f.numerator, f.denominator);
      Regroup(q, d.denominator, g);
      CancelOrder(g, q * d.denominator, d.numerator);
      SettledBounds(d, m, q);
      var a := Settled(d, Fraction(m, 1)).value.0;
      HalvedBound(a.numerator, a.denominator, d.numerator, d.denominator, g, f.numerator, f.denominator);
    }
  }

  lemma SettledIs(f: Fraction, m: nat)
    requires f.denominator > 0 && Settled(f, Fraction(m, 1)).Some?
    ensures ProductFits(f, Fraction(m, 1)) ==>
              Settled(f, Fraction(m, 1)).value == (f, Fraction(m, 1)) && FitsLong(f.numerator * m)
    ensures !ProductFits(f, Fraction(m, 1)) ==>
              f.denominator > 1 && Downcast(f).denominator > 0
              && Settled(f, Fraction(m, 1)) == Settled(Downcast(f), Fraction(m, 1))
  {
    if f.denominator > 1 {
      DowncastHalves(f);
    }
    hide Downcast;
  }

  lemma HalvedBound(a: nat, b: nat, n: nat, d: nat, g: nat, num: nat, den: nat)
    requires g >= 2 && a * (d + 1) <= n * (b + 1) && g * n <= num && den <= g * d + 1
    ensures a * (den + 1) <= num * (b + 1)
  {
    assert den + 1 <= g * (d + 1) by { assert g * (d + 1) == g * d + g; }
    ProductChain(a, den + 1, g, d + 1, n, b + 1, num);
  }

  lemma ProductChain(a: nat, e: nat, g: nat, d: nat, n: nat, y: nat, num: nat)
    requires e <= g * d && a * d <= n * y && g * n <= num
    ensures a * e <= num * y
  {
    calc {
      a * e;
    <= { MulAtMost(a, e, g * d); }
      a * (g * d);
    == { Regroup(g, d, a); Regroup(g, a, d); }
      g * (a * d);
    <= { MulAtMost(g, a * d, n * y); }
      g * (n * y);
    == { Regroup(g, n, y); }
      (g * n) * y;
    <= { MulAtMost(y, g * n, num); }
      num * y;
    }
  }

  lemma SmallerProduct(a: int, x: int, b: int, y: int)
    requires Within(a, x) && Within(b, y)
    ensures FitsLong(x * y) ==> FitsLong(a * b)
  {
    var p, q := Abs(a), Abs(b);
    MulAtMost(p, q, Abs(y));
    MulAtMost(Abs(y), p, Abs(x));
    SignedProduct(a, b);
    SignedProduct(x, y);
  }

  lemma SignedProduct(a: int, b: int)
    ensures a * b == (if (a < 0) == (b < 0) then Abs(a) * Abs(b) else -(Abs(a) * Abs(b)))
  {
  }

  // ----- Sums and comparisons -----

  /** `f` written with the denominator `m`. */
  function Scaled(f: Fraction, m: nat): int
    requires f.denominator > 0
  {
    f.numerator * (m / f.denominator)
  }

  function CommonDenominator(f: Fraction, g: Fraction): nat
    requires f.denominator > 0 && g.denominator > 0
  {
    Lcm(f.denominator, g.denominator)
  }

  /** The common denominator and both numerators over it are longs. */
  predicate Comparable(f: Fraction, g: Fraction)
    requires f.denominator > 0 && g.denominator > 0
  {
    var m := CommonDenominator(f, g);
    m <= LONG_MAX && FitsLong(Scaled(f, m)) && FitsLong(Scaled(g, m))
  }

  /** Over a common denominator, cross products are the scaled numerators times one positive factor. */
  lemma ScaledCross(f: Fraction, g: Fraction) returns (k: nat)
    requires f.denominator > 0 && g.denominator > 0
    ensures var m := CommonDenominator(f, g);
            && m > 0 && k > 0
            && f.numerator * g.denominator == Scaled(f, m) * k
            && g.numerator * f.denominator == Scaled(g, m) * k
            && f.denominator * g.denominator == m * k
  {
    var a, b := f.denominator, g.denominator;
    k := Gcd(a, b);
    GcdPositive(a, b);
    LcmMultiple(a, b);
    var p, q := LcmFactors(a, b);
    var m := Lcm(a, b);
    RemainderUnique(m, a, q, 0);
    RemainderUnique(m, b, p, 0);
    Regroup(f.numerator, q, k);
    Regroup(g.numerator, p, k);
    Regroup(a, q, k);
  }

  /** The same rational number with a positive denominator. */
  function Upright(f: Fraction): (u: Fraction)
    requires f.denominator != 0
    ensures u.denominator == Abs(f.denominator) > 0
  {
    if f.denominator < 0 then Fraction(-f.numerator, -f.denominator) else f
  }

  /** `a / d` towards zero, as in C. */
  function Divided(a: nat, d: int): int
    requires d != 0
  {
    if d > 0 then a / d else -(a / -d)
  }

  lemma UprightScaled(f: Fraction, m: nat)
    requires f.denominator != 0
    ensures f.numerator * Divided(m, f.denominator) == Scaled(Upright(f), m)
  {
    var q := m / Abs(f.denominator);
    assert f.numerator * -q == -f.numerator * q;
  }

  /** `k_fraction_lt` */
  method LessThan(f: Fraction, g: Fraction) returns (less: bool)
    requires f.denominator != 0 && g.denominator != 0 && Comparable(Upright(f), Upright(g))
    ensures less <==> Below(Upright(f), Upright(g))
  {
    var m := LeastCommonMultiple(f.denominator, g.denominator);
    less := f.numerator * Divided(m, f.denominator) < g.numerator * Divided(m, g.denominator);
    CommonScale(m, f, g);
  }

  /** `k_fraction_eq` */
  method Equal(f: Fraction, g: Fraction) returns (equal: bool)
    requires f.denominator != 0 && g.denominator != 0 && Comparable(Upright(f), Upright(g))
    ensures equal <==> SameValue(Upright(f), Upright(g))
  {
    var m := LeastCommonMultiple(f.denominator, g.denominator);
    equal := f.numerator * Divided(m, f.denominator) == g.numerator * Divided(m, g.denominator);
    CommonScale(m, f, g);
  }

  /** Scaled to the least common denominator, numerators compare as the rational numbers do. */
  lemma CommonScale(m: nat, f: Fraction, g: Fraction)
    requires f.denominator != 0 && g.denominator != 0 && IsLcm(m, Abs(f.denominator), Abs(g.denominator))
    ensures var x, y := f.numerator * Divided(m, f.denominator), g.numerator * Divided(m, g.denominator);
            (x < y <==> Below(Upright(f), Upright(g))) && (x == y <==> SameValue(Upright(f), Upright(g)))
  {
    var u, v := Upright(f), Upright(g);
    UprightScaled(f, m);
    UprightScaled(g, m);
    LcmIsUnique(m, u.denominator, v.denominator);
    var k := ScaledCross(u, v);
    hide Scaled, Divided, Upright;
    SameOrder(Scaled(u, m), Scaled(v, m), k);
    SameOrder(Scaled(v, m), Scaled(u, m), k);
  }

  lemma LcmIsUnique(m: nat, a: nat, b: nat)
    requires a > 0 && b > 0 && IsLcm(m, a, b)
    ensures m == Lcm(a, b)
  {
    LcmMultiple(a, b);
    LcmLeast(a, b, m);
    MutualDivisors(m, Lcm(a, b));
  }

  lemma SameOrder(x: int, y: int, k: int)
    requires k > 0
    ensures x < y <==> x * k < y * k
  {
    if x < y {
      MulAtLeastInt(k, x, y);
    } else {
      MulAtMost(k, y, x);
    }
  }

  /** The rational sum, over the product of the denominators. */
  function Sum(f: Fraction, g: Fraction): Fraction {
    Fraction(f.numerator * g.denominator + g.numerator * f.denominator, f.denominator * g.denominator)
  }

  /** `k_fraction_add` where nothing overflows: the exact sum in lowest terms. */
  method Add(f: Fraction, g: Fraction) returns (r: Fraction)
    requires Proper(f) && Proper(g) && Comparable(f, g)
    requires FitsLong(Scaled(f, CommonDenominator(f, g)) + Scaled(g, CommonDenominator(f, g)))
    ensures SameValue(r, Sum(f, g)) && LowestTerms(r)
  {
    hide Scaled, SameValue, Sum;
    var m := LeastCommonMultiple(f.denominator, g.denominator);
    LcmIsUnique(m, f.denominator, g.denominator);
    var s := Fraction(Scaled(f, m) + Scaled(g, m), m);
    r := Compact(s);
    var d := CompactIsLowest(s);
    SumOverCommon(f, g, s, r, d);
  }

  lemma SumOverCommon(f: Fraction, g: Fraction, s: Fraction, r: Fraction, d: nat)
    requires f.denominator > 0 && g.denominator > 0
    requires var m := CommonDenominator(f, g);
             s == Fraction(Scaled(f, m) + Scaled(g, m), m)
    requires s.numerator == d * r.numerator && s.denominator == d * r.denominator
    ensures SameValue(r, Sum(f, g))
  {
    var m := CommonDenominator(f, g);
    var k := ScaledCross(f, g);
    var x, y := Scaled(f, m), Scaled(g, m);
    hide Scaled;
    assert (x + y) * k == x * k + y * k;
    CrossScaled(r, d, k);
  }

  lemma CrossScaled(r: Fraction, d: int, k: int)
    ensures r.numerator * ((d * r.denominator) * k) == ((d * r.numerator) * k) * r.denominator
  {
    Regroup(d, r.denominator, k);
    Regroup(d, r.numerator, k);
    Regroup(r.numerator, d * k, r.denominator);
  }
}
