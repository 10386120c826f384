/**
  Milliseconds and timer ticks (kernel/lib/ktiming.c). A 32-bit argument is read as a long first,
  so one above the largest long counts as negative, and the result is read as unsigned again.
 */
module KTiming {
  import opened Words
  import opened KMath
  import opened KFraction

  const SYSTIMER_FREQUENCY_HZ: nat := 1000000

  type Rate = x: int | 0 < x <= LONG_MAX witness 1
  type Long = x: int | FitsLong(x)

  /** A word read as a long. */
  function Signed(w: Word): Long {
    if w > LONG_MAX then w - WORD_SIZE else w
  }

  /** A long read as a word. */
  function Unsigned(x: int): Word {
    x % WORD_SIZE
  }

  /** Integer division as C has it, towards zero. */
  function Truncated(a: int, b: int): int
    requires b > 0
  {
    if a >= 0 then a / b else -(-a / b)
  }

  /** `n / perSecond`, compacted. */
  function Quotient(n: Long, perSecond: Rate): (s: Fraction)
    ensures Proper(s)
  {
    QuotientIsProper(n, perSecond);
    Compact(Fraction(n, perSecond))
  }

  lemma QuotientIsProper(n: Long, perSecond: Rate)
    ensures var s := Compact(Fraction(n, perSecond));
            Proper(s) && SameValue(s, Fraction(n, perSecond)) && Within(s.numerator, n)
  {
    var g := CompactIsLowest(Fraction(n, perSecond));
    var s := Compact(Fraction(n, perSecond));
    hide Compact;
    FactorWithin(g, s.numerator, n);
    FactorWithin(g, s.denominator, perSecond);
    assert FitsLong(n);
  }

  lemma FactorWithin(g: nat, x: int, n: int)
    requires g > 0 && n == g * x
    ensures Within(x, n)
  {
    if x < 0 {
      MulAtMost(-x, 1, g);
    } else {
      MulAtMost(x, 1, g);
    }
  }

  /** `n / perSecond * factor` in the fraction arithmetic of the kernel, cut to a whole number. */
  function Converted(n: Long, perSecond: Rate, factor: Rate): Option<int> {
    match Multiplied(Quotient(n, perSecond), Fraction(factor, 1))
    case None => None
    case Some(r) =>
      ResultIsPositive(Quotient(n, perSecond), Fraction(factor, 1));
      Some(Truncated(r.numerator, r.denominator))
  }

  lemma ResultIsPositive(f: Fraction, g: Fraction)
    requires Proper(f) && Proper(g) && Multiplied(f, g).Some?
    ensures Multiplied(f, g).value.denominator > 0
  {
    var p := Settled(f, g).value;
    hide Settled, Product, Compact;
    PositiveProduct(p.0, p.1);
    var k := CompactIsLowest(Product(p.0, p.1));
  }

  /** The conversion factor is applied without rounding. */
  predicate Exact(n: Long, perSecond: Rate, factor: Rate) {
    ProductFits(Quotient(n, perSecond), Fraction(factor, 1))
  }

  /** When nothing is rounded, converting is integer division. */
  lemma ConvertsExactly(n: Long, perSecond: Rate, factor: Rate)
    requires Exact(n, perSecond, factor)
    ensures Converted(n, perSecond, factor) == Some(Truncated(n * factor, perSecond))
  {
    hide Multiplied;
    var s := Quotient(n, perSecond);
    QuotientIsProper(n, perSecond);
    MultiplyIsExact(s, Fraction(factor, 1));
    var r := Multiplied(s, Fraction(factor, 1)).value;
    ResultIsPositive(s, Fraction(factor, 1));
    WholeQuotient(n, perSecond, factor, s, r);
  }

  lemma WholeQuotient(n: int, y: int, factor: int, s: Fraction, r: Fraction)
    requires y > 0 && r.denominator > 0 && s.denominator > 0
    requires SameValue(s, Fraction(n, y)) && SameValue(r, Product(s, Fraction(factor, 1)))
    ensures Truncated(r.numerator, r.denominator) == Truncated(n * factor, y)
  {
    var x := n * factor;
    calc {
      (r.numerator * y) * s.denominator;
      { Regroup(r.numerator, y, s.denominator); }
      (r.numerator * s.denominator) * y;
      { Regroup(s.numerator, factor, r.denominator * y); Regroup(s.numerator * factor, r.denominator, y); }
      s.numerator * (factor * (r.denominator * y));
      { Shuffle(s.numerator, factor, r.denominator, y); }
      (s.numerator * y) * (factor * r.denominator);
      { Shuffle2(n, s.denominator, factor, r.denominator); }
      (x * r.denominator) * s.denominator;
    }
    CancelFactor(s.denominator, r.numerator * y, x * r.denominator);
    SameSign(r.numerator, y, x, r.denominator);
    NegatedProduct(r.numerator, y);
    NegatedProduct(x, r.denominator);
    SameQuotient(Abs(r.numerator), r.denominator, Abs(x), y);
  }

  lemma NegatedProduct(a: int, b: int)
    ensures -a * b == -(a * b)
  {
  }

  lemma SameSign(a: int, b: int, c: int, d: int)
    requires b > 0 && d > 0 && a * b == c * d
    ensures a >= 0 <==> c >= 0
  {
    if a < 0 {
      MulAtMost(b, a, -1);
      if c >= 0 {
        MulAtMost(d, 0, c);
      }
    } else {
      MulAtMost(b, 0, a);
      if c < 0 {
        MulAtMost(d, c, -1);
      }
    }
  }

  lemma Shuffle(a: int, b: int, c: int, d: int)
    ensures a * (b * (c * d)) == (a * d) * (b * c)
  {
    Regroup(b, c, d);
    Regroup(a, d, b * c);
  }

  lemma Shuffle2(a: int, b: int, c: int, d: int)
    ensures (a * b) * (c * d) == ((a * c) * d) * b
  {
    Regroup(a, b, c * d);
    Regroup(a, c, d);
  }

  lemma SameQuotient(a: int, b: int, c: int, d: int)
    requires b > 0 && d > 0 && a * d == c * b
    ensures a / b == c / d
  {
    var q := c / d;
    assert c == d * q + c % d;
    MulAtMost(b, d * q, c);
    MulAtLeastInt(b, c, d * q + d);
    Regroup(b, d, q);
    Regroup(b, d, q + 1);
    CancelOrder(d, b * q, a);
    CancelStrictOrder(d, a, b * (q + 1));
    QuotientUnique(a, b, q);
  }

  lemma CancelStrictOrder(d: int, x: int, y: int)
    requires d > 0 && x * d < d * y
    ensures x < y
  {
    if y <= x {
      MulAtMost(d, y, x);
    }
  }

  lemma QuotientUnique(a: int, b: int, q: int)
    requires b > 0 && b * q <= a < b * (q + 1)
    ensures a / b == q
  {
    var e := a / b;
    assert a == b * e + a % b;
    if e < q {
      MulAtMost(b, e + 1, q);
    } else if q < e {
      MulAtMost(b, q + 1, e);
    }
  }

  // ----- The two conversions -----

  /** The ticks of a stall, or none if the conversion fails. */
  function Ticks(ms: Word): Option<Word> {
    match Converted(Signed(ms), 1000, SYSTIMER_FREQUENCY_HZ)
    case None => None
    case Some(x) => Some(Unsigned(x))
  }

  /** The milliseconds of a tick count; when the conversion fails they are whole seconds. */
  function Milliseconds(hz: Word): Word {
    match Converted(Signed(hz), SYSTIMER_FREQUENCY_HZ, 1000)
    case None =>
      var s := Quotient(Signed(hz), SYSTIMER_FREQUENCY_HZ);
      Unsigned(Truncated(s.numerator, s.denominator))
    case Some(x) => Unsigned(x)
  }

  /** `ktiming_milliseconds_to_hertz`; `None` is its error. */
  method MillisecondsToHertz(ms: Word) returns (hz: Option<Word>)
    ensures hz == Ticks(ms)
  {
    hide Multiplied, Quotient;
    var s, freq := Quotient(Signed(ms), 1000), Fraction(SYSTIMER_FREQUENCY_HZ, 1);
    var product := Multiply(s, freq);
    match product {
      case None => return None;
      case Some(r) =>
        ResultIsPositive(s, freq);
        return Some(Unsigned(Truncated(r.numerator, r.denominator)));
    }
  }

  /** `ktiming_hertz_to_milliseconds`, which ignores the error. */
  method HertzToMilliseconds(hz: Word) returns (ms: Word)
    ensures ms == Milliseconds(hz)
  {
    hide Multiplied, Quotient;
    var s, thousand := Quotient(Signed(hz), SYSTIMER_FREQUENCY_HZ), Fraction(1000, 1);
    var product := Multiply(s, thousand);
    match product {
      case None => return Unsigned(Truncated(s.numerator, s.denominator));
      case Some(r) =>
        ResultIsPositive(s, thousand);
        return Unsigned(Truncated(r.numerator, r.denominator));
    }
  }

  /** The duration halved down to whole seconds has a tick count that is no long. */
  predicate Refused(ms: Word) {
    !(-2147 <= Whole(Quotient(Signed(ms), 1000)).numerator <= 2147)
  }

  /** Exactly such durations are refused. */
  lemma StallFailsExactlyWhen(ms: Word)
    ensures Ticks(ms).None? <==> Refused(ms)
  {
    var s, f := Quotient(Signed(ms), 1000), Fraction(SYSTIMER_FREQUENCY_HZ, 1);
    FailsExactlyWhen(s, f);
    assert Whole(f) == f;
    hide Settled, Whole, Quotient;
  }

  /** Up to 2147 milliseconds, or whole seconds, the number of ticks is exact. */
  lemma ShortStallsAreExact(ms: Word)
    requires ms <= 2147 || (ms % 1000 == 0 && ms <= 2147000)
    ensures Ticks(ms) == Some(ms * 1000)
  {
    var s := Quotient(ms, 1000);
    QuotientIsProper(ms, 1000);
    if ms % 1000 == 0 {
      WholeSeconds(ms);
    }
    assert Exact(ms, 1000, SYSTIMER_FREQUENCY_HZ);
    ConvertsExactly(ms, 1000, SYSTIMER_FREQUENCY_HZ);
    hide Converted, Exact, Quotient;
    RemainderUnique(ms * 1000, WORD_SIZE, 0, ms * 1000);
  }

  lemma WholeSeconds(ms: Long)
    requires ms >= 0 && ms % 1000 == 0
    ensures 1000 * Quotient(ms, 1000).numerator <= ms
  {
    WholeQuotients(ms, 1000);
  }

  /** The quotient of an exact division has nothing left below the line. */
  lemma WholeQuotients(n: Long, perSecond: Rate)
    requires n % perSecond == 0
    ensures var q := Quotient(n, perSecond).numerator; Within(perSecond * q, n) && Within(q, n)
  {
    var a := Abs(n);
    var g := CompactIsLowest(Fraction(n, perSecond));
    GcdIsGreatest(a, perSecond);
    AbsMultiple(n, perSecond);
    assert Times(perSecond, a / perSecond, a) && Times(perSecond, 1, perSecond);
    assert Divides(perSecond, g);
    var k: nat :| Times(perSecond, k, g);
    QuotientIsProper(n, perSecond);
    var q := Quotient(n, perSecond).numerator;
    hide Quotient;
    WithinFactor(perSecond, k, q, n);
  }

  lemma AbsMultiple(n: int, y: nat)
    requires y > 0 && n % y == 0
    ensures Abs(n) == y * (Abs(n) / y)
  {
    var e := n / y;
    assert n == y * e;
    if n < 0 {
      assert Abs(n) == y * -e;
      assert -e >= 0;
      RemainderUnique(Abs(n), y, -e, 0);
    } else {
      assert e >= 0;
      RemainderUnique(Abs(n), y, e, 0);
    }
  }

  lemma WithinFactor(y: nat, k: nat, q: int, n: int)
    requires y > 0 && n == (y * k) * q && Within(q, n)
    ensures Within(y * q, n)
  {
    Regroup(y, k, q);
    if n > 0 {
      assert k >= 1 && q >= 1;
      MulAtMost(y * q, 1, k);
    } else if n < 0 {
      assert k >= 1 && q < 0;
      MulAtMost(y * -q, 1, k);
    }
  }

  // ----- What the conversions amount to -----

  /** The division of the product the halvings settle on. */
  lemma ConvertedIs(n: Long, perSecond: Rate, factor: Rate)
    requires n >= 0 && Converted(n, perSecond, factor).Some? && Quotient(n, perSecond).numerator >= 0
    requires Settled(Quotient(n, perSecond), Fraction(factor, 1)).Some? ==>
               var a := Settled(Quotient(n, perSecond), Fraction(factor, 1)).value;
               a.1 == Fraction(factor, 1) && a.0.numerator >= 0
    ensures Settled(Quotient(n, perSecond), Fraction(factor, 1)).Some?
    ensures var a := Settled(Quotient(n, perSecond), Fraction(factor, 1)).value.0;
            a.denominator > 0 && Converted(n, perSecond, factor) == Some(a.numerator * factor / a.denominator)
  {
    var s, m := Quotient(n, perSecond), Fraction(factor, 1);
    var a := Settled(s, m).value.0;
    hide Settled;
    PositiveProduct(a, m);
    var k := CompactIsLowest(Product(a, m));
    ResultIsPositive(s, m);
    var r := Multiplied(s, m).value;
    hide Compact, Quotient;
    NonNegative(a.numerator, factor);
    SignOf(k, r.numerator, a.numerator * factor);
    SameQuotient(r.numerator, r.denominator, a.numerator * factor, a.denominator);
  }

  lemma NonNegative(a: nat, b: nat)
    ensures a * b >= 0
  {
  }

  lemma SignOf(k: nat, x: int, n: nat)
    requires k > 0 && n == k * x
    ensures x >= 0
  {
    if x < 0 {
      MulAtMost(k, x, -1);
    }
  }

  /**
    Whatever is rounded, a conversion keeps the whole seconds, and gives no more than twice the exact value.
   */
  lemma ConvertedBounds(n: Long, perSecond: Rate, factor: Rate)
    requires n >= 0 && Converted(n, perSecond, factor).Some?
    ensures var x := Converted(n, perSecond, factor).value;
            n / perSecond * factor <= x <= LONG_MAX && 0 <= x && x * perSecond <= 2 * n * factor
  {
    hide *;
    var s, m := Quotient(n, perSecond), Fraction(factor, 1);
    var q := n / perSecond;
    var g := CompactIsLowest(Fraction(n, perSecond));
    QuotientParts(n, perSecond, g);
    SettledSome(n, perSecond, factor);
    SettledBounds(s, factor, q);
    ConvertedIs(n, perSecond, factor);
    var a := Settled(s, m).value.0;
    FactorRange(a.numerator, factor);
    LowerBound(q, a.numerator, a.denominator, factor);
    UpperBound(a.numerator, a.denominator, factor, s.numerator, s.denominator, g, n, perSecond);
  }

  lemma QuotientParts(n: Long, perSecond: Rate, g: nat)
    requires n >= 0 && g > 0
    requires var c := Compact(Fraction(n, perSecond)); n == g * c.numerator && perSecond == g * c.denominator
    ensures var s := Quotient(n, perSecond);
            && s.numerator >= 0 && s.denominator > 0 && n == g * s.numerator && perSecond == g * s.denominator
            && n / perSecond >= 0 && s.numerator >= n / perSecond * s.denominator
  {
    QuotientIsProper(n, perSecond);
    var s := Quotient(n, perSecond);
    QuotientIs(n, perSecond);
    hide *;
    SignOf(g, s.numerator, n);
    Reaches(n, perSecond, g, s.numerator, s.denominator);
  }

  lemma QuotientIs(n: Long, perSecond: Rate)
    ensures Quotient(n, perSecond) == Compact(Fraction(n, perSecond)) && Quotient(n, perSecond).denominator > 0
  {
    hide Compact;
  }

  lemma Reaches(n: nat, per: nat, g: nat, x: nat, d: nat)
    requires per > 0 && g > 0 && n == g * x && per == g * d
    ensures n / per >= 0 && x >= n / per * d
  {
    var q := n / per;
    assert per * q <= n by { assert n == per * q + n % per; }
    Regroup(g, d, q);
    CancelOrder(g, d * q, x);
  }

  lemma SettledSome(n: Long, perSecond: Rate, factor: Rate)
    requires Converted(n, perSecond, factor).Some?
    ensures Settled(Quotient(n, perSecond), Fraction(factor, 1)).Some?
  {
    hide Settled, Quotient;
  }

  lemma FactorRange(a: nat, factor: nat)
    requires FitsLong(a * factor)
    ensures 0 <= a * factor <= LONG_MAX
  {
  }

  lemma LowerBound(q: nat, a: nat, b: nat, factor: nat)
    requires b > 0 && a >= q * b
    ensures q * factor <= a * factor / b
  {
    MulAtMost(factor, q * b, a);
    Regroup(q, b, factor);
    var x := a * factor / b;
    assert a * factor == b * x + a * factor % b;
    if x < q * factor {
      MulAtMost(b, x + 1, q * factor);
    }
  }

  lemma UpperBound(a: nat, b: nat, factor: nat, n: nat, d: nat, g: nat, num: nat, per: nat)
    requires b > 0 && g > 0 && d > 0 && a * (d + 1) <= n * (b + 1) && num == g * n && per == g * d
    ensures a * factor / b * per <= 2 * num * factor && a * factor / b <= a * factor
  {
    var x := a * factor / b;
    assert b * x <= a * factor by { assert a * factor == b * x + a * factor % b; }
    assert x <= b * x by { MulAtMost(x, 1, b); }
    MulAtMost(n, b + 1, 2 * b);
    UpperChain(a, b, factor, n, d, x);
    calc {
      x * per;
    == { Regroup(g, d, x); }
      g * (x * d);
    <= { MulAtMost(g, x * d, 2 * n * factor); }
      g * (2 * n * factor);
    == { Regroup(g, 2 * n, factor); Regroup(2, n, g); }
      2 * num * factor;
    }
  }

  /** Cancelling the settled denominator. */
  lemma UpperChain(a: nat, b: nat, factor: nat, n: nat, d: nat, x: nat)
    requires b > 0 && b * x <= a * factor && a * (d + 1) <= n * (2 * b)
    ensures x * d <= 2 * n * factor
  {
    calc {
      b * (x * (d + 1));
    == { Regroup(b, x, d + 1); }
      (b * x) * (d + 1);
    <= { MulAtMost(d + 1, b * x, a * factor); }
      (a * factor) * (d + 1);
    == { Regroup(a, factor, d + 1); }
      (a * (d + 1)) * factor;
    <= { MulAtMost(factor, a * (d + 1), n * (2 * b)); }
      (n * (2 * b)) * factor;
    == { Doubled(n, b, factor); }
      b * (2 * n * factor);
    }
    CancelOrder(b, x * (d + 1), 2 * n * factor);
    assert x * (d + 1) == x * d + x;
  }

  lemma Doubled(n: nat, b: nat, factor: nat)
    ensures (n * (2 * b)) * factor == b * (2 * n * factor)
  {
    Regroup(n, 2 * b, factor);
    Regroup(2, n, factor);
    Regroup(b, 2 * n, factor);
    assert n * (2 * b) == (2 * n) * b;
  }

  lemma UnsignedSmall(x: int)
    requires 0 <= x < WORD_SIZE
    ensures Unsigned(x) == x
  {
  }

  /**
    Up to 2147483 ticks on either side of zero, and for whole seconds, the time in milliseconds is exact, to
    the millisecond below; a reading above the largest long counts as negative.
   */
  lemma MillisecondsAreExact(hz: Word)
    requires -2147483 <= Signed(hz) <= 2147483 || Signed(hz) % 1000000 == 0
    ensures Milliseconds(hz) == Unsigned(Truncated(Signed(hz), 1000))
    ensures hz <= LONG_MAX ==> Milliseconds(hz) == hz / 1000
  {
    var n := Signed(hz);
    QuotientIsProper(n, 1000000);
    if n % 1000000 == 0 {
      WholeQuotients(n, 1000000);
    }
    FitsThousand(Quotient(n, 1000000), n);
    ConvertsExactly(n, SYSTIMER_FREQUENCY_HZ, 1000);
    hide Converted, Exact, Quotient;
    MilliTruncated(n);
    if hz <= LONG_MAX {
      UnsignedSmall(hz / 1000);
    }
  }

  lemma FitsThousand(s: Fraction, n: Long)
    requires Within(s.numerator, n) && (-2147483 <= n <= 2147483 || Within(1000000 * s.numerator, n))
    requires Proper(s)
    ensures ProductFits(s, Fraction(1000, 1))
  {
    ThousandFits(s.numerator, n);
  }

  lemma ThousandFits(q: int, n: Long)
    requires Within(q, n) && (-2147483 <= n <= 2147483 || Within(1000000 * q, n))
    ensures -2147483 <= q <= 2147483
  {
    assert FitsLong(n);
  }

  lemma MilliTruncated(n: Long)
    ensures Truncated(n * 1000, 1000000) == Truncated(n, 1000)
  {
  }

  /** For any other reading up to the largest long the seconds are right, and it is at most twice the exact time. */
  lemma MillisecondsBounds(hz: Word)
    requires hz <= LONG_MAX
    ensures hz / 1000000 * 1000 <= Milliseconds(hz) && 1000 * Milliseconds(hz) <= 2 * hz
  {
    MillisecondsConvert(hz);
    ConvertedBounds(hz, SYSTIMER_FREQUENCY_HZ, 1000);
    hide Converted;
    UnsignedSmall(Converted(hz, SYSTIMER_FREQUENCY_HZ, 1000).value);
  }

  /** The ignored error does not occur for these. */
  lemma MillisecondsConvert(hz: Word)
    requires hz <= LONG_MAX
    ensures Converted(hz, SYSTIMER_FREQUENCY_HZ, 1000).Some?
  {
    var s, f := Quotient(hz, SYSTIMER_FREQUENCY_HZ), Fraction(1000, 1);
    var g := CompactIsLowest(Fraction(hz, SYSTIMER_FREQUENCY_HZ));
    QuotientIs(hz, SYSTIMER_FREQUENCY_HZ);
    QuotientParts(hz, SYSTIMER_FREQUENCY_HZ, g);
    FailsExactlyWhen(s, f);
    assert Whole(f) == f;
    WholeAtMost(s);
    SmallWhole(Whole(s).numerator, s.numerator, s.denominator, g, hz);
    hide Settled, Whole, Quotient;
  }

  lemma SmallWhole(w: nat, n: nat, d: nat, g: nat, hz: nat)
    requires g > 0 && w * (d + 1) <= 2 * n && hz == g * n && g * d == 1000000 && hz <= LONG_MAX
    ensures w <= 4294
  {
    if w >= 4295 {
      MulAtMost(d + 1, 4295, w);
      assert 4295 * d < 2 * n;
      MulAtMost(g, 4295 * d, 2 * n);
      Regroup(4295, d, g);
      Regroup(2, n, g);
    }
  }

  /** The ticks of a stall that is not refused cover its whole seconds, and are at most twice as many as exact. */
  lemma TicksBounds(ms: Word)
    requires ms <= LONG_MAX && !Refused(ms)
    ensures Ticks(ms).Some? && ms / 1000 * 1000000 <= Ticks(ms).value <= 2 * ms * 1000
  {
    StallFailsExactlyWhen(ms);
    hide Refused, Converted;
    assert Converted(ms, 1000, SYSTIMER_FREQUENCY_HZ).Some?;
    ConvertedBounds(ms, 1000, SYSTIMER_FREQUENCY_HZ);
    UnsignedSmall(Converted(ms, 1000, SYSTIMER_FREQUENCY_HZ).value);
  }

  // ----- The shortest refused duration -----

  lemma Reduced(n: nat, d: nat, g: nat)
    requires d > 0 && g > 0 && Gcd(n, d) == g
    ensures Compact(Fraction(n, d)) == Fraction(n / g, d / g)
  {
  }

  /** One turn of Euclid's loop on given numbers, and its end. */
  lemma EuclidTurn(a: nat, b: nat, q: nat, r: nat)
    requires r < b && a == b * q + r
    ensures Gcd(a, b) == Gcd(b, r)
  {
    RemainderUnique(a, b, q, r);
  }

  lemma EuclidEnd(a: nat)
    ensures Gcd(a, 0) == a
  {
  }

  /** One turn of the downcast on given numbers, after rounding both parts to even ones. */
  lemma DowncastTurn(n: nat, d: nat, g: nat, p: nat, q: nat)
    requires d > 1 && g > 0 && n - n % 2 == g * p && d - d % 2 == g * q && Gcd(n - n % 2, d - d % 2) == g
    ensures Downcast(Fraction(n, d)) == Fraction(p, q)
  {
    hide *;
    DowncastIs(Fraction(n, d));
    Reduced(n - n % 2, d - d % 2, g);
    RemainderUnique(n - n % 2, g, p, 0);
    RemainderUnique(d - d % 2, g, q, 0);
  }

  lemma WholeTurn(n: nat, d: nat, p: nat, q: nat)
    requires d > 1 && q > 0 && Downcast(Fraction(n, d)) == Fraction(p, q)
    ensures Whole(Fraction(n, d)) == Whole(Fraction(p, q))
  {
    hide Downcast;
  }

  lemma SharedFactor()
    ensures Quotient(1100032, 1000) == Fraction(137504, 125)
  {
    hide Gcd;
    EuclidTurn(1100032, 1000, 1100, 32);
    EuclidTurn(1000, 32, 31, 8);
    EuclidTurn(32, 8, 4, 0);
    EuclidEnd(8);
    Reduced(1100032, 1000, 8);
  }

  /** 137504/125 is halved to 34376/31. */
  lemma Halve137504()
    ensures Downcast(Fraction(137504, 125)) == Fraction(34376, 31)
    ensures Whole(Fraction(137504, 125)) == Whole(Fraction(34376, 31))
  {
    hide Gcd, Downcast, Whole;
    EuclidTurn(137504, 124, 1108, 112);
    EuclidTurn(124, 112, 1, 12);
    EuclidTurn(112, 12, 9, 4);
    EuclidTurn(12, 4, 3, 0);
    EuclidEnd(4);
    DowncastTurn(137504, 125, 4, 34376, 31);
    WholeTurn(137504, 125, 34376, 31);
  }

  /** 34376/31 is halved to 17188/15. */
  lemma Halve34376()
    ensures Downcast(Fraction(34376, 31)) == Fraction(17188, 15)
    ensures Whole(Fraction(34376, 31)) == Whole(Fraction(17188, 15))
  {
    hide Gcd, Downcast, Whole;
    EuclidTurn(34376, 30, 1145, 26);
    EuclidTurn(30, 26, 1, 4);
    EuclidTurn(26, 4, 6, 2);
    EuclidTurn(4, 2, 2, 0);
    EuclidEnd(2);
    DowncastTurn(34376, 31, 2, 17188, 15);
    WholeTurn(34376, 31, 17188, 15);
  }

  /** 17188/15 is halved to 8594/7. */
  lemma Halve17188()
    ensures Downcast(Fraction(17188, 15)) == Fraction(8594, 7)
    ensures Whole(Fraction(17188, 15)) == Whole(Fraction(8594, 7))
  {
    hide Gcd, Downcast, Whole;
    EuclidTurn(17188, 14, 1227, 10);
    EuclidTurn(14, 10, 1, 4);
    EuclidTurn(10, 4, 2, 2);
    EuclidTurn(4, 2, 2, 0);
    EuclidEnd(2);
    DowncastTurn(17188, 15, 2, 8594, 7);
    WholeTurn(17188, 15, 8594, 7);
  }

  /** 8594/7 is halved to 4297/3. */
  lemma Halve8594()
    ensures Downcast(Fraction(8594, 7)) == Fraction(4297, 3)
    ensures Whole(Fraction(8594, 7)) == Whole(Fraction(4297, 3))
  {
    hide Gcd, Downcast, Whole;
    EuclidTurn(8594, 6, 1432, 2);
    EuclidTurn(6, 2, 3, 0);
    EuclidEnd(2);
    DowncastTurn(8594, 7, 2, 4297, 3);
    WholeTurn(8594, 7, 4297, 3);
  }

  /** 4297/3 is halved to 2148/1. */
  lemma Halve4297()
    ensures Downcast(Fraction(4297, 3)) == Fraction(2148, 1)
    ensures Whole(Fraction(4297, 3)) == Whole(Fraction(2148, 1))
  {
    hide Gcd, Downcast, Whole;
    EuclidTurn(4296, 2, 2148, 0);
    EuclidEnd(2);
    DowncastTurn(4297, 3, 2, 2148, 1);
    WholeTurn(4297, 3, 2148, 1);
  }

  /** 1100032 milliseconds are refused: halved all the way they are 2148 seconds. */
  lemma FirstRefused()
    ensures Refused(1100032)
  {
    SharedFactor();
    Halve137504();
    Halve34376();
    Halve17188();
    Halve8594();
    Halve4297();
    assert Whole(Fraction(2148, 1)) == Fraction(2148, 1);
    hide Downcast, Quotient, Whole;
  }

  /** 34368/31 is halved to 5728/5. */
  lemma Halve34368()
    ensures Downcast(Fraction(34368, 31)) == Fraction(5728, 5)
    ensures Whole(Fraction(34368, 31)) == Whole(Fraction(5728, 5))
  {
    hide Gcd, Downcast, Whole;
    EuclidTurn(34368, 30, 1145, 18);
    EuclidTurn(30, 18, 1, 12);
    EuclidTurn(18, 12, 1, 6);
    EuclidTurn(12, 6, 2, 0);
    EuclidEnd(6);
    DowncastTurn(34368, 31, 6, 5728, 5);
    WholeTurn(34368, 31, 5728, 5);
  }

  /** 34370/31 is halved to 3437/3. */
  lemma Halve34370()
    ensures Downcast(Fraction(34370, 31)) == Fraction(3437, 3)
    ensures Whole(Fraction(34370, 31)) == Whole(Fraction(3437, 3))
  {
    hide Gcd, Downcast, Whole;
    EuclidTurn(34370, 30, 1145, 20);
    EuclidTurn(30, 20, 1, 10);
    EuclidTurn(20, 10, 2, 0);
    EuclidEnd(10);
    DowncastTurn(34370, 31, 10, 3437, 3);
    WholeTurn(34370, 31, 3437, 3);
  }

  /** 34372/31 is halved to 17186/15. */
  lemma Halve34372()
    ensures Downcast(Fraction(34372, 31)) == Fraction(17186, 15)
    ensures Whole(Fraction(34372, 31)) == Whole(Fraction(17186, 15))
  {
    hide Gcd, Downcast, Whole;
    EuclidTurn(34372, 30, 1145, 22);
    EuclidTurn(30, 22, 1, 8);
    EuclidTurn(22, 8, 2, 6);
    EuclidTurn(8, 6, 1, 2);
    EuclidTurn(6, 2, 3, 0);
    EuclidEnd(2);
    DowncastTurn(34372, 31, 2, 17186, 15);
    WholeTurn(34372, 31, 17186, 15);
  }

  /** 34374/31 is halved to 5729/5. */
  lemma Halve34374()
    ensures Downcast(Fraction(34374, 31)) == Fraction(5729, 5)
    ensures Whole(Fraction(34374, 31)) == Whole(Fraction(5729, 5))
  {
    hide Gcd, Downcast, Whole;
    EuclidTurn(34374, 30, 1145, 24);
    EuclidTurn(30, 24, 1, 6);
    EuclidTurn(24, 6, 4, 0);
    EuclidEnd(6);
    DowncastTurn(34374, 31, 6, 5729, 5);
    WholeTurn(34374, 31, 5729, 5);
  }

  /** 17186/15 is halved to 8593/7. */
  lemma Halve17186()
    ensures Downcast(Fraction(17186, 15)) == Fraction(8593, 7)
    ensures Whole(Fraction(17186, 15)) == Whole(Fraction(8593, 7))
  {
    hide Gcd, Downcast, Whole;
    EuclidTurn(17186, 14, 1227, 8);
    EuclidTurn(14, 8, 1, 6);
    EuclidTurn(8, 6, 1, 2);
    EuclidTurn(6, 2, 3, 0);
    EuclidEnd(2);
    DowncastTurn(17186, 15, 2, 8593, 7);
    WholeTurn(17186, 15, 8593, 7);
  }

  /** 8593/7 is halved to 1432/1. */
  lemma Halve8593()
    ensures Downcast(Fraction(8593, 7)) == Fraction(1432, 1)
    ensures Whole(Fraction(8593, 7)) == Whole(Fraction(1432, 1))
  {
    hide Gcd, Downcast, Whole;
    EuclidTurn(8592, 6, 1432, 0);
    EuclidEnd(6);
    DowncastTurn(8593, 7, 6, 1432, 1);
    WholeTurn(8593, 7, 1432, 1);
  }

  /** Denominator 31, the last one on the way down that can still lead past 2147. */
  lemma WholeAt31(n: nat)
    requires n <= 34375
    ensures Whole(Fraction(n, 31)).numerator <= 2147
  {
    hide *;
    if n <= 34367 {
      WholeAtMost(Fraction(n, 31));
    } else {
      EvenPart(n);
      var e := n - n % 2;
      if e == 34368 {
        Halve34368();
        WholeAtMost(Fraction(5728, 5));
      } else if e == 34370 {
        Halve34370();
        WholeAtMost(Fraction(3437, 3));
      } else if e == 34372 {
        Halve34372();
        Halve17186();
        Halve8593();
        WholeAtMost(Fraction(1432, 1));
      } else {
        Halve34374();
        WholeAtMost(Fraction(5729, 5));
      }
    }
  }

  /** An odd numerator is halved like the even one below it. */
  lemma EvenPart(n: nat)
    ensures Whole(Fraction(n, 31)) == Whole(Fraction(n - n % 2, 31))
  {
    hide *;
    WholeIs(Fraction(n, 31));
    WholeIs(Fraction(n - n % 2, 31));
    SameDowncast(n, 31);
  }

  lemma SameDowncast(n: nat, d: nat)
    requires d > 1
    ensures Downcast(Fraction(n, d)) == Downcast(Fraction(n - n % 2, d))
  {
    hide Compact;
  }

  lemma WholeAt62(f: Fraction)
    requires f.denominator == 62 && 0 <= f.numerator <= 68751
    ensures Whole(f).numerator <= 2147
  {
    hide *;
    var g := DowncastFactor(f);
    var d := Downcast(f);
    WholeIs(f);
    if g == 2 {
      assert d == Fraction(d.numerator, 31);
      WholeAt31(d.numerator);
    } else {
      WholeAtMost(d);
      FactorBound(Whole(d).numerator, g, d.denominator, d.numerator, 62, 68751);
    }
  }

  lemma FactorBound(w: nat, g: nat, d: nat, n: nat, e: nat, m: nat)
    requires w * (d + 1) <= 2 * n && g * d == e && g * n <= m
    ensures w * (e + g) <= 2 * m
  {
    Regroup(w, d + 1, g);
    MulAtMost(g, w * (d + 1), 2 * n);
    Regroup(2, n, g);
    assert g * (d + 1) == g * d + g;
  }

  lemma WholeAt125(f: Fraction)
    requires f.denominator == 125 && 0 <= f.numerator <= 137503
    ensures Whole(f).numerator <= 2147
  {
    hide *;
    var g := DowncastFactor(f);
    var d := Downcast(f);
    WholeIs(f);
    if g == 2 {
      WholeAt62(d);
    } else if g == 4 {
      assert d == Fraction(d.numerator, 31);
      WholeAt31(d.numerator);
    } else {
      WholeAtMost(d);
      FactorBound(Whole(d).numerator, g, d.denominator, d.numerator, 124, 137503);
      FiveAtLeast(Whole(d).numerator, g, d.denominator);
    }
  }

  /** 124 is no multiple of three, so the factor is 5 or more. */
  lemma FiveAtLeast(w: nat, g: nat, d: nat)
    requires g > 2 && g != 4 && g * d == 124 && w * (124 + g) <= 275006
    ensures w <= 2147
  {
    if w >= 2148 {
      MulAtMost(124 + g, 2148, w);
    }
  }

  /** The odd divisors of 1000 above 40: only 125. */
  lemma OddDivisor(d: nat, q: nat)
    requires d * q == 1000 && d % 2 == 1 && d > 40
    ensures d == 125
  {
    MulAtMost(q, 41, d);
    OddQuotient(d, q);
    assert q == 8 || q == 16 || q == 24;
  }

  lemma OddQuotient(d: nat, q: nat)
    requires d * q == 1000 && d % 2 == 1
    ensures q % 8 == 0
  {
    EvenFactor(d, q, 500);
    EvenFactor(d, q / 2, 250);
    EvenFactor(d, q / 4, 125);
  }

  /** An even product of an odd number halves with the other factor. */
  lemma EvenFactor(d: nat, q: nat, h: nat)
    requires d % 2 == 1 && d * q == 2 * h
    ensures q % 2 == 0 && d * (q / 2) == h
  {
    var a := d / 2;
    assert d * q == 2 * (a * q) + q by {
      Regroup(2, a, q);
      assert (2 * a + 1) * q == 2 * a * q + q;
    }
    Regroup(d, 2, q / 2);
  }

  /** From a divisor of 1000 on, a value of at most 1100.031 is halved to at most 2147. */
  lemma {:induction false} WholeAtDivisor(f: Fraction, q: nat)
    requires f.numerator >= 0 && f.denominator > 0 && f.denominator * q == 1000
    requires 1000 * f.numerator <= 1100031 * f.denominator
    ensures Whole(f).numerator <= 2147
    decreases f.denominator
  {
    var n, d := f.numerator, f.denominator;
    if d == 1 {
    } else if d % 2 == 0 {
      var g := DowncastFactor(f);
      var h := Downcast(f);
      Regroup(h.denominator, g, q);
      MulAtMost(1000, g * h.numerator, n);
      Regroup(1000, g, h.numerator);
      Regroup(1100031, g, h.denominator);
      CancelOrder(g, 1000 * h.numerator, 1100031 * h.denominator);
      hide Downcast;
      WholeAtDivisor(h, g * q);
    } else if d <= 40 {
      WholeAtMost(f);
      SmallDenominator(Whole(f).numerator, d, n);
    } else {
      OddDivisor(d, q);
      WholeAt125(f);
    }
  }

  lemma SmallDenominator(w: nat, d: nat, n: nat)
    requires 0 < d <= 40 && w * (d + 1) <= 2 * n && 1000 * n <= 1100031 * d
    ensures w <= 2147
  {
    if w >= 2148 {
      MulAtMost(d + 1, 2148, w);
    }
  }

  /** No duration below 1100032 milliseconds, some 18 minutes, is refused. */
  lemma ShorterStallsAreAccepted(ms: Word)
    requires ms < 1100032
    ensures !Refused(ms)
  {
    var s := Quotient(ms, 1000);
    QuotientIsProper(ms, 1000);
    var g := CompactIsLowest(Fraction(ms, 1000));
    hide Quotient, Whole;
    MulAtMost(g, 1000 * s.numerator, 1000 * s.numerator);
    Regroup(1000, g, s.numerator);
    Regroup(1100031, g, s.denominator);
    CancelOrder(g, 1000 * s.numerator, 1100031 * s.denominator);
    WholeAtDivisor(s, g);
  }

  /** From 2148 seconds up to the largest long every duration is refused. */
  lemma LongerStallsAreRefused(ms: Word)
    requires 2148000 <= ms <= LONG_MAX
    ensures Refused(ms)
  {
    var s := Quotient(ms, 1000);
    QuotientIsProper(ms, 1000);
    var g := CompactIsLowest(Fraction(ms, 1000));
    hide Quotient, Whole;
    Regroup(2148, s.denominator, g);
    CancelOrder(g, 2148 * s.denominator, s.numerator);
    WholeAtLeast(s, 2148);
  }
}
