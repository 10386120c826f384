/** Integer arithmetic of kernel/lib/kmath.c: cyclic ranges, greatest common divisors, multiples. */
module KMath {
  import opened Words

  /** The range of `long`. */
  const LONG_MAX: nat := 0x7fff_ffff

  predicate FitsLong(x: int) {
    -(LONG_MAX as int) - 1 <= x <= LONG_MAX
  }

  function Abs(x: int): nat {
    if x < 0 then -x else x
  }

  // ----- Cyclic ranges -----

  /** `x` brought into the range from `min` up to but excluding `max`, counting cyclically. */
  function Cyclic(x: int, min: nat, max: nat): (r: nat)
    requires min < max
    ensures min <= r < max
  {
    min + (x - min) % (max - min)
  }

  /** One lap more or less is no difference. */
  lemma CyclicLap(x: int, min: nat, max: nat)
    requires min < max
    ensures min <= x < max ==> Cyclic(x, min, max) == x
    ensures max <= x < max + (max - min) ==> Cyclic(x, min, max) == x - (max - min)
    ensures min - (max - min) <= x < min ==> Cyclic(x, min, max) == x + (max - min)
  {
    var m := max - min;
    if max <= x < max + m {
      RemainderUnique(x - min, m, 1, x - min - m);
    } else if min - m <= x < min {
      NegativeRemainder(x - min, m);
    }
  }

  lemma NegativeRemainder(x: int, m: int)
    requires -m <= x < 0
    ensures x % m == x + m
  {
    assert x == m * (x / m) + x % m;
    if x / m < -1 {
      MulAtMost(m, x / m, -2);
    }
  }

  lemma MulAtMost(m: nat, a: int, b: int)
    requires a <= b
    ensures m * a <= m * b
  {
    assert m * b == m * a + m * (b - a);
  }

  /** Steps forward and back cancel. */
  lemma CyclicInverse(a: nat, b: nat, min: nat, max: nat)
    requires min <= a < max && b <= max - min
    ensures Cyclic(Cyclic(a + b, min, max) - b, min, max) == a
    ensures Cyclic(Cyclic(a - b, min, max) + b, min, max) == a
  {
    CyclicLap(a + b, min, max);
    CyclicLap(a - b, min, max);
    CyclicLap(Cyclic(a + b, min, max) - b, min, max);
    CyclicLap(Cyclic(a - b, min, max) + b, min, max);
  }

  /** `k_modulo_add`: a cyclic step for arguments in range, by at most one lap. */
  method ModuloAdd(a: Word, b: Word, min: Word, max: Word) returns (r: Word)
    requires min < max
    ensures min <= a < max && b <= max - min ==> r == Cyclic(a + b, min, max)
  {
    var x: Word, y: Word := a % max, b % max;
    ghost var ranged := min <= a < max && b <= max - min;
    if ranged {
      Reduced(a, max);
      Reduced(b, max);
      CyclicLap(a + b, min, max);
    }
    if x < max - y {
      return x + y;
    }
    r := Plus(Minus(Plus(x, y), max), min);
  }

  lemma Reduced(a: nat, max: nat)
    requires a <= max && max > 0
    ensures a % max == if a == max then 0 else a
  {
    if a == max {
      RemainderUnique(a, max, 1, 0);
    } else {
      RemainderUnique(a, max, 0, a);
    }
  }

  /** `k_modulo_sub` */
  method ModuloSub(a: Word, b: Word, min: Word, max: Word) returns (r: Word)
    requires min < max
    ensures min <= a < max && b <= max - min ==> r == Cyclic(a - b, min, max)
  {
    var x: Word, y: Word := a % max, b % max;
    if min <= a < max && b <= max - min {
      Reduced(a, max);
      Reduced(b, max);
      CyclicLap(a - b, min, max);
    }
    var distance: Word := if x < min then min - x else x - min;
    if distance < y {
      return Minus(max, y - distance);
    }
    r := Minus(x, y);
  }

  // ----- Divisors and multiples -----

  predicate Times(d: nat, q: nat, n: nat) {
    n == d * q
  }

  ghost predicate Divides(d: nat, n: nat) {
    exists q: nat :: Times(d, q, n)
  }

  /** `g` divides both numbers, and every common divisor divides `g`. */
  ghost predicate IsGcd(g: nat, a: nat, b: nat) {
    Divides(g, a) && Divides(g, b) && forall d: nat :: Divides(d, a) && Divides(d, b) ==> Divides(d, g)
  }

  lemma DividesSum(d: nat, a: nat, b: nat)
    requires Divides(d, a) && Divides(d, b)
    ensures Divides(d, a + b)
  {
    var p: nat :| Times(d, p, a);
    var q: nat :| Times(d, q, b);
    assert d * (p + q) == d * p + d * q;
    assert Times(d, p + q, a + b);
  }

  lemma DividesDifference(d: nat, a: nat, b: nat)
    requires Divides(d, a) && Divides(d, b) && a <= b
    ensures Divides(d, b - a)
  {
    var p: nat :| Times(d, p, a);
    var q: nat :| Times(d, q, b);
    assert d * (q - p) == d * q - d * p;
    if q < p {
      assert d * p == d * q + d * (p - q);
      assert Times(d, 0, b - a);
    } else {
      assert Times(d, q - p, b - a);
    }
  }

  lemma DividesMultiple(d: nat, a: nat, k: nat)
    requires Divides(d, a)
    ensures Divides(d, a * k)
  {
    var p: nat :| Times(d, p, a);
    assert d * (p * k) == (d * p) * k;
    assert Times(d, p * k, a * k);
  }

  /** One turn of Euclid's loop keeps the common divisors. */
  lemma EuclidStep(d: nat, a: nat, b: nat)
    requires b > 0 && Divides(d, b)
    ensures Divides(d, a) <==> Divides(d, a % b)
  {
    DividesMultiple(d, b, a / b);
    assert a == b * (a / b) + a % b;
    if Divides(d, a) {
      assert a - b * (a / b) == a % b;
      DividesDifference(d, b * (a / b), a);
    }
    if Divides(d, a % b) {
      DividesSum(d, b * (a / b), a % b);
    }
  }

  /** `k_gcd` */
  method GreatestCommonDivisor(a: int, b: int) returns (g: nat)
    ensures IsGcd(g, Abs(a), Abs(b))
    ensures g == Gcd(Abs(a), Abs(b))
  {
    var x, y := Abs(a), Abs(b);
    while y != 0
      invariant Gcd(x, y) == Gcd(Abs(a), Abs(b))
      decreases y
    {
      x, y := y, x % y;
    }
    g := x;
    GcdIsGreatest(Abs(a), Abs(b));
  }

  /** The value Euclid's loop arrives at. */
  function Gcd(a: nat, b: nat): (g: nat)
    decreases b
  {
    if b == 0 then a else Gcd(b, a % b)
  }

  lemma {:induction false} GcdIsGreatest(a: nat, b: nat)
    ensures IsGcd(Gcd(a, b), a, b)
    decreases b
  {
    if b == 0 {
      assert Times(a, 1, a) && Times(a, 0, b);
    } else {
      var g := Gcd(a, b);
      GcdIsGreatest(b, a % b);
      EuclidStep(g, a, b);
      forall d: nat | Divides(d, a) && Divides(d, b)
        ensures Divides(d, g)
      {
        EuclidStep(d, a, b);
      }
    }
  }

  lemma GcdPositive(a: nat, b: nat)
    requires a > 0 || b > 0
    ensures Gcd(a, b) > 0
  {
    GcdIsGreatest(a, b);
    if Gcd(a, b) == 0 {
      var p: nat :| Times(0, p, a);
      var q: nat :| Times(0, q, b);
    }
  }

  lemma MutualDivisors(a: nat, b: nat)
    requires Divides(a, b) && Divides(b, a)
    ensures a == b
  {
    var p: nat :| Times(a, p, b);
    var q: nat :| Times(b, q, a);
    if a > 0 && b > 0 {
      DivisorAtMost(a, p, b);
      DivisorAtMost(b, q, a);
    }
  }

  lemma DivisorAtMost(d: nat, q: nat, n: nat)
    requires n == d * q && n > 0
    ensures d <= n && q <= n
  {
    assert d > 0 && q > 0;
    MulAtMost(d, 1, q);
    MulAtMost(q, 1, d);
  }

  // ----- Least common multiples -----

  /** A combination of the two numbers that gives their greatest common divisor. */
  lemma {:induction false} Combination(a: nat, b: nat) returns (x: int, y: int)
    ensures x * a + y * b == Gcd(a, b)
    decreases b
  {
    if b == 0 {
      x, y := 1, 0;
    } else {
      var u, v := Combination(b, a % b);
      x, y := v, u - v * (a / b);
      calc {
        x * a + y * b;
        v * a + u * b - v * (a / b) * b;
        { assert v * (a / b) * b == v * (b * (a / b)); assert a == b * (a / b) + a % b; }
        { assert v * a == v * (b * (a / b)) + v * (a % b); }
        u * b + v * (a % b);
      }
    }
  }

  /** `|a| / gcd * |b|`, before it is cut to a long. */
  function Lcm(a: nat, b: nat): nat
    requires a > 0 || b > 0
  {
    GcdPositive(a, b);
    var q: nat := a / Gcd(a, b);
    NonNegativeProduct(q, b);
    q * b
  }

  lemma NonNegativeProduct(a: nat, b: nat)
    ensures a * b >= 0
  {
  }

  ghost predicate IsLcm(m: nat, a: nat, b: nat) {
    Divides(a, m) && Divides(b, m) && forall n: nat :: Divides(a, n) && Divides(b, n) ==> Divides(m, n)
  }

  lemma ExactQuotient(d: nat, n: nat)
    requires d > 0 && Divides(d, n)
    ensures n == d * (n / d) && n % d == 0
  {
    var q: nat :| Times(d, q, n);
    RemainderUnique(n, d, q, 0);
  }

  lemma Regroup(a: int, b: int, c: int)
    ensures (a * b) * c == a * (b * c) == (a * c) * b
  {
  }

  /** The two ways to write the least common multiple. */
  lemma LcmFactors(a: nat, b: nat) returns (p: nat, q: nat)
    requires a > 0 && b > 0
    ensures p > 0 && q > 0 && a == Gcd(a, b) * p && b == Gcd(a, b) * q
    ensures Lcm(a, b) == p * b == a * q
  {
    var g := Gcd(a, b);
    GcdPositive(a, b);
    GcdIsGreatest(a, b);
    ExactQuotient(g, a);
    ExactQuotient(g, b);
    p, q := a / g, b / g;
    Regroup(g, p, q);
    Regroup(p, g, q);
  }

  lemma LcmMultiple(a: nat, b: nat)
    requires a > 0 && b > 0
    ensures Divides(a, Lcm(a, b)) && Divides(b, Lcm(a, b)) && Lcm(a, b) > 0
  {
    var p, q := LcmFactors(a, b);
    assert Times(a, q, Lcm(a, b));
    assert Times(b, p, Lcm(a, b));
  }

  /** A common multiple is a multiple of the least one. */
  lemma LcmLeast(a: nat, b: nat, n: nat)
    requires a > 0 && b > 0 && Divides(a, n) && Divides(b, n)
    ensures Divides(Lcm(a, b), n)
  {
    var g, m := Gcd(a, b), Lcm(a, b);
    var s: nat :| Times(a, s, n);
    var t: nat :| Times(b, t, n);
    var x, y := Combination(a, b);
    var p, q := LcmFactors(a, b);
    GcdPositive(a, b);
    CombinedMultiple(g, m, n, a, b, s, t, x, y, p);
    var c := t * x + s * y;
    LcmMultiple(a, b);
    if c < 0 {
      MulAtMost(m, c, -1);
    }
    assert Times(m, c, n);
  }

  lemma CombinedMultiple(g: nat, m: nat, n: nat, a: nat, b: nat, s: nat, t: nat, x: int, y: int, p: nat)
    requires g > 0 && x * a + y * b == g && n == a * s == b * t && a == g * p && m == p * b
    ensures n == m * (t * x + s * y)
  {
    var c := t * x + s * y;
    Regroup(g, p, b);
    calc {
      g * n;
      (x * a) * n + (y * b) * n;
      { Interchange(x, a, b, t); Interchange(y, b, a, s); }
      (a * b) * (t * x) + (b * a) * (s * y);
      (a * b) * c;
      { Regroup(g, m, c); }
      g * (m * c);
    }
    CancelFactor(g, n, m * c);
  }

  lemma Interchange(x: int, a: int, b: int, t: int)
    ensures (x * a) * (b * t) == (a * b) * (t * x)
  {
    Regroup(x, a, b * t);
    Regroup(a, b, t);
    Regroup(a * b, t, x);
  }

  lemma CancelFactor(g: int, x: int, y: int)
    requires g > 0 && g * x == g * y
    ensures x == y
  {
    if x < y {
      MulAtLeastInt(g, x, y);
    } else if y < x {
      MulAtLeastInt(g, y, x);
    }
  }

  lemma MulAtLeastInt(g: int, x: int, y: int)
    requires g > 0 && x < y
    ensures g * x < g * y
  {
    assert g * y == g * x + g * (y - x);
  }

  /** `k_lcm`: the least common multiple, whenever it is a long; for two zeros it divides by zero. */
  method LeastCommonMultiple(a: int, b: int) returns (m: nat)
    requires (a != 0 || b != 0) && Lcm(Abs(a), Abs(b)) <= LONG_MAX
    ensures IsLcm(m, Abs(a), Abs(b)) && m <= LONG_MAX
    ensures m == 0 <==> a == 0 || b == 0
  {
    var x, y := Abs(a), Abs(b);
    GcdPositive(x, y);
    var g := GreatestCommonDivisor(a, b);
    m := x / g * y;
    if a == 0 || b == 0 {
      ZeroMultiple(x, y);
    } else {
      LcmMultiple(x, y);
      forall n: nat | Divides(x, n) && Divides(y, n)
        ensures Divides(m, n)
      {
        LcmLeast(x, y, n);
      }
    }
  }

  /** The only common multiple with zero is zero. */
  lemma ZeroMultiple(a: nat, b: nat)
    requires (a == 0) != (b == 0)
    ensures Lcm(a, b) == 0 && IsLcm(0, a, b)
  {
    GcdPositive(a, b);
    assert Times(a, 0, 0) && Times(b, 0, 0);
    forall n: nat | Divides(a, n) && Divides(b, n)
      ensures Divides(0, n)
    {
      var q: nat :| Times(0, q, n);
    }
  }
}
