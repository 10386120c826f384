/** Machine words and bytes: the ranges and the wrap-around of `uint32_t`. */
module Words {
  const WORD_SIZE: nat := 0x1_0000_0000
  const MiB: nat := 0x10_0000
  const KiB: nat := 0x400

  type Word = x: int | 0 <= x < WORD_SIZE
  type Byte = x: int | 0 <= x < 256

  datatype Option<+T> = None | Some(value: T)

  /** `a + b` with unsigned 32-bit wrap-around. */
  function Plus(a: Word, b: Word): Word {
    if a + b < WORD_SIZE then a + b else a + b - WORD_SIZE
  }

  /** `a - b` with unsigned 32-bit wrap-around. */
  function Minus(a: Word, b: Word): Word {
    if a >= b then a - b else a - b + WORD_SIZE
  }

  function Min(a: nat, b: nat): nat {
    if a < b then a else b
  }

  function Pow2(k: nat): (p: nat)
    ensures p > 0
  {
    if k == 0 then 1 else 2 * Pow2(k - 1)
  }

  /** Bitwise conjunction, digit by digit. */
  function BitAnd(a: nat, b: nat): nat {
    if a == 0 || b == 0 then 0 else (a % 2) * (b % 2) + 2 * BitAnd(a / 2, b / 2)
  }

  lemma {:induction false} Pow2Sum(j: nat, k: nat)
    ensures Pow2(j + k) == Pow2(j) * Pow2(k)
  {
    if j > 0 {
      Pow2Sum(j - 1, k);
      assert Pow2(j + k) == 2 * Pow2(j - 1 + k);
    }
  }

  /** Masking with a power of two less one is the remainder by that power. */
  lemma {:induction false} MaskIsRemainder(x: nat, k: nat)
    ensures BitAnd(x, Pow2(k) - 1) == x % Pow2(k)
  {
    if k > 0 {
      MaskIsRemainder(x / 2, k - 1);
      MaskStep(x, Pow2(k - 1));
    }
  }

  lemma MaskStep(x: nat, p: nat)
    requires p > 0 && BitAnd(x / 2, p - 1) == x / 2 % p
    ensures BitAnd(x, 2 * p - 1) == x % (2 * p)
  {
    hide BitAnd;
    OddHalf(2 * p - 1, p - 1);
    BitAndOdd(x, 2 * p - 1);
    HalveRemainder(x, p);
  }

  lemma OddHalf(w: nat, h: nat)
    requires w == 2 * h + 1
    ensures w / 2 == h && w % 2 == 1
  {
  }

  lemma BitAndOdd(x: nat, w: nat)
    requires w % 2 == 1
    ensures BitAnd(x, w) == x % 2 + 2 * BitAnd(x / 2, w / 2)
  {
  }

  lemma HalveRemainder(x: nat, p: nat)
    requires p > 0
    ensures x % (2 * p) == 2 * (x / 2 % p) + x % 2
  {
    var h := x / 2;
    var d, r := h / p, h % p;
    assert h == p * d + r;
    assert 2 * (p * d) == (2 * p) * d;
    RemainderUnique(x, 2 * p, d, 2 * r + x % 2);
  }

  lemma RemainderUnique(x: nat, m: nat, d: nat, r: nat)
    requires m > 0 && r < m && x == m * d + r
    ensures x % m == r && x / m == d
  {
    var e, s := x / m, x % m;
    assert x == m * e + s;
    if d > e {
      MulAtLeast(m, e, d);
    } else if d < e {
      MulAtLeast(m, d, e);
    }
  }

  lemma MulAtLeast(m: nat, a: nat, b: nat)
    requires a < b
    ensures m * b >= m * a + m
  {
    assert m * b == m * a + m * (b - a);
    assert m * (b - a) == m + m * (b - a - 1);
  }

  ghost predicate IsPowerOfTwo(x: nat) {
    exists k: nat :: x == Pow2(k)
  }

  /** The test `(x & (x - 1)) == 0` accepts exactly the powers of two. */
  lemma {:induction false} PowerOfTwoTest(x: nat)
    requires x > 0
    ensures BitAnd(x, x - 1) == 0 <==> IsPowerOfTwo(x)
  {
    if x == 1 {
      assert x == Pow2(0);
    } else if x % 2 == 1 {
      assert BitAnd(x, x - 1) == 2 * BitAnd(x / 2, x / 2);
      BitAndSelf(x / 2);
      assert forall k: nat :: x != Pow2(k);
    } else {
      assert (x - 1) / 2 == x / 2 - 1;
      PowerOfTwoTest(x / 2);
      HalfPower(x);
    }
  }

  lemma HalfPower(x: nat)
    requires x > 1 && x % 2 == 0
    ensures IsPowerOfTwo(x / 2) <==> IsPowerOfTwo(x)
  {
    if IsPowerOfTwo(x / 2) {
      var k: nat :| x / 2 == Pow2(k);
      assert x == Pow2(k + 1);
    }
    if IsPowerOfTwo(x) {
      var k: nat :| x == Pow2(k);
      assert x / 2 == Pow2(k - 1);
    }
  }

  lemma {:induction false} BitAndSelf(x: nat)
    ensures BitAnd(x, x) == x
  {
    if x > 0 {
      BitAndSelf(x / 2);
    }
  }

  lemma WordSizeIsPower()
    ensures Pow2(32) == WORD_SIZE
  {
    assert Pow2(8) == 256;
    Pow2Sum(8, 8);
    Pow2Sum(16, 16);
  }
}
