/**
  Number formatting of kernel/lib/kprintf.c: digits are produced backwards into a buffer of 32
  characters, padding, prefix and sign are added behind them, and the buffer is sent from the end.
 */
module KPrintf {
  import opened Words
  import KMath

  const MAX_NUMBER_PRINT_WIDTH: nat := 32
  const EINVAL: nat := 1

  datatype Flags = Flags(zeropad: bool, hash: bool)

  /** `k_to_ascii_hexadecimal_digit` */
  function DigitChar(d: nat): char
    requires d < 16
  {
    if d <= 9 then ('0' as int + d) as char else ('a' as int + d - 10) as char
  }

  function DigitValue(c: char): nat {
    if '0' <= c <= '9' then c as int - '0' as int
    else if 'a' <= c <= 'f' then c as int - 'a' as int + 10
    else 0
  }

  /** The digits of `num`, least significant first. */
  function Numeral(num: nat, base: nat): (s: string)
    requires 2 <= base <= 16
    ensures s != []
    decreases num
  {
    if num < base then [DigitChar(num)]
    else
      Quotient(num, base);
      [DigitChar(num % base)] + Numeral(num / base, base)
  }

  lemma Quotient(num: nat, base: nat)
    requires 2 <= base <= num
    ensures 0 < num / base < num
  {
    assert num == base * (num / base) + num % base;
    if num / base >= num {
      MulAtLeast(num / base, 1, base);
    }
  }

  lemma SmallQuotient(num: nat, base: nat)
    requires num < base
    ensures num / base == 0 && num % base == num
  {
    RemainderUnique(num, base, 0, num);
  }

  function Power(base: nat, k: nat): nat {
    if k == 0 then 1 else base * Power(base, k - 1)
  }

  /** A number has at most `k` digits exactly when it is below the `k`-th power of the base. */
  lemma {:induction false} NumeralLength(num: nat, base: nat, k: nat)
    requires 2 <= base <= 16 && k > 0
    ensures |Numeral(num, base)| <= k <==> num < Power(base, k)
    decreases k
  {
    PowerGrows(base, k - 1);
    if num >= base {
      if k > 1 {
        NumeralLength(num / base, base, k - 1);
        QuotientBelow(num, base, Power(base, k - 1));
      }
    } else {
      KMath.MulAtMost(base, 1, Power(base, k - 1));
    }
  }

  lemma {:induction false} PowerGrows(base: nat, k: nat)
    requires base > 0
    ensures Power(base, k) >= 1
  {
    if k > 0 {
      PowerGrows(base, k - 1);
      KMath.MulAtMost(base, 1, Power(base, k - 1));
    }
  }

  lemma QuotientBelow(num: nat, base: nat, p: nat)
    requires base > 0
    ensures num / base < p <==> num < base * p
  {
    var q := num / base;
    assert num == base * q + num % base;
    if q < p {
      MulAtLeast(base, q, p);
    } else {
      KMath.MulAtMost(base, p, q);
    }
  }

  /** `kprintf_base_less_eq_16_to_ascii`: the numeral, cut off at the end of the buffer. */
  method ToAscii(num: Word, base: nat, out: array<char>, maxLength: nat) returns (digits: nat)
    requires 2 <= base <= 16 && 0 < maxLength <= out.Length
    modifies out
    ensures digits == Min(|Numeral(num, base)|, maxLength)
    ensures out[..digits] == Numeral(num, base)[..digits]
  {
    hide Numeral;
    var n: nat := num;
    digits := 0;
    ghost var rest := Numeral(n, base);
    while true
      invariant digits < maxLength && rest == Numeral(n, base)
      invariant out[..digits] + rest == Numeral(num, base)
      decreases n
    {
      out[digits] := DigitChar(n % base);
      digits := digits + 1;
      NumeralStep(n, base);
      if n >= base {
        Quotient(n, base);
      }
      assert out[..digits] == out[..digits - 1] + [DigitChar(n % base)];
      rest := rest[1..];
      n := n / base;
      assert n == 0 ==> rest == [];
      if n == 0 || digits >= maxLength {
        break;
      }
    }
    assert Numeral(num, base)[..digits] == out[..digits];
  }

  // ----- Layout -----

  function Repeat(c: char, n: nat): (s: string)
    ensures |s| == n && forall i :: 0 <= i < n ==> s[i] == c
  {
    if n == 0 then "" else [c] + Repeat(c, n - 1)
  }

  function Reversed(s: string): (r: string)
    ensures |r| == |s|
  {
    if s == "" then "" else Reversed(s[1..]) + [s[0]]
  }

  /** `SAFE_DECREMENT` */
  function Decrement(a: nat, b: nat): nat {
    if a > b then a - b else 0
  }

  /** The field width that is left for zeros or spaces. */
  function Width(negative: bool, flags: Flags, padWidth: nat): nat {
    var p := Min(padWidth, MAX_NUMBER_PRINT_WIDTH);
    if !flags.zeropad then p
    else
      var q := if flags.hash then Decrement(p, 2) else p;
      if negative then Decrement(q, 1) else q
  }

  /** The character that names a base in a prefix. */
  function BaseMark(base: nat): string {
    if base == 16 then "x" else if base == 2 then "b" else ""
  }

  function Prefix(base: nat, hash: bool): string {
    if hash then BaseMark(base) + "0" else ""
  }

  function Sign(negative: bool): string {
    if negative then "-" else ""
  }

  function Padded(s: string, c: char, width: nat): string {
    s + Repeat(c, Decrement(width, |s|))
  }

  /** The buffer, filled from the least significant digit on. */
  function Layout(num: nat, base: nat, negative: bool, flags: Flags, padWidth: nat): string
    requires 2 <= base <= 16
  {
    var w := Width(negative, flags, padWidth);
    var zeros := if flags.zeropad then Padded(Numeral(num, base), '0', w) else Numeral(num, base);
    Padded(zeros + Prefix(base, flags.hash) + Sign(negative), ' ', w)
  }

  /** A store past the end of the buffer is remembered instead of carried out. */
  class Output {
    const buffer: array<char>
    var length: nat
    var inside: bool

    constructor ()
      ensures buffer.Length == MAX_NUMBER_PRINT_WIDTH && length == 0 && inside && fresh(buffer)
    {
      buffer := new char[MAX_NUMBER_PRINT_WIDTH];
      length, inside := 0, true;
    }

    /** What has been written is `s`, or the buffer has overflowed. */
    ghost predicate Holds(s: string)
      reads this, buffer
    {
      && buffer.Length == MAX_NUMBER_PRINT_WIDTH && length == |s|
      && (inside <==> |s| <= buffer.Length) && (inside ==> buffer[..length] == s)
    }

    method Put(c: char, ghost s: string)
      requires Holds(s)
      modifies this, buffer
      ensures Holds(s + [c])
    {
      if length < buffer.Length {
        buffer[length] := c;
      } else {
        inside := false;
      }
      length := length + 1;
    }

    method PutPrefix(base: nat, hash: bool, ghost s: string)
      requires Holds(s)
      modifies this, buffer
      ensures Holds(s + Prefix(base, hash))
    {
      if hash {
        if base == 16 {
          Put('x', s);
        } else if base == 2 {
          Put('b', s);
        }
        assert Holds(s + BaseMark(base)) by { assert s + "" == s; }
        Put('0', s + BaseMark(base));
        assert s + BaseMark(base) + "0" == s + (BaseMark(base) + "0");
      } else {
        assert s + "" == s;
      }
    }

    method PutSign(negative: bool, ghost s: string)
      requires Holds(s)
      modifies this, buffer
      ensures Holds(s + Sign(negative))
    {
      if negative {
        Put('-', s);
      } else {
        assert s + "" == s;
      }
    }

    /** The buffer goes out from its end. */
    method Send(ghost s: string) returns (sent: string)
      requires Holds(s) && inside
      ensures sent == Reversed(s)
    {
      sent := "";
      var i := length;
      while i > 0
        invariant 0 <= i <= |s| && sent == Reversed(s[i..])
      {
        i := i - 1;
        assert buffer[..length][i] == s[i];
        sent := sent + [buffer[i]];
        assert s[i..] == [s[i]] + s[i + 1..];
      }
      assert s[0..] == s;
    }

    method Pad(c: char, width: nat, ghost s: string)
      requires Holds(s)
      modifies this, buffer
      ensures Holds(Padded(s, c, width))
    {
      ghost var t := s;
      while length < width
        invariant Holds(t) && t == s + Repeat(c, |t| - |s|)
        invariant |s| <= |t| && (|t| <= width || t == s)
      {
        Put(c, t);
        RepeatMore(c, |t| - |s|);
        t := t + [c];
      }
    }
  }

  lemma {:induction false} RepeatMore(c: char, n: nat)
    ensures Repeat(c, n + 1) == Repeat(c, n) + [c]
  {
  }

  /**
    `kprintf_format_and_output_number`: what is sent, the length it returns, and whether all its
    stores stay inside the buffer. For a base above 16 nothing is sent and the length is a wrapped
    error code.
   */
  method FormatAndOutputNumber(num: Word, base: nat, negative: bool, flags: Flags, padWidth: Byte)
    returns (sent: string, length: nat, inside: bool)
    requires 2 <= base
    ensures base > 16 ==> sent == "" && length == WORD_SIZE - EINVAL && inside
    ensures base <= 16 ==> (inside <==> |Layout(num, base, negative, flags, padWidth)| <= MAX_NUMBER_PRINT_WIDTH)
    ensures base <= 16 && inside ==> sent == Reversed(Layout(num, base, negative, flags, padWidth)) && length == |sent|
  {
    if base > 16 {
      return "", WORD_SIZE - EINVAL, true;
    }
    hide Numeral, Padded;
    var out := new Output();
    WordNumeral(num, base);
    length := ToAscii(num, base, out.buffer, MAX_NUMBER_PRINT_WIDTH);
    out.length := length;
    ghost var s := Numeral(num, base);
    assert s[..length] == s;
    var width := Width(negative, flags, padWidth);
    if flags.zeropad {
      out.Pad('0', width, s);
      s := Padded(s, '0', width);
    }
    out.PutPrefix(base, flags.hash, s);
    s := s + Prefix(base, flags.hash);
    out.PutSign(negative, s);
    s := s + Sign(negative);
    out.Pad(' ', width, s);
    s := Padded(s, ' ', width);
    inside, length := out.inside, out.length;
    sent := "";
    if inside {
      sent := out.Send(s);
    }
  }

  /** No word has more than 32 digits, so the digits alone always fit. */
  lemma WordNumeral(num: Word, base: nat)
    requires 2 <= base <= 16
    ensures |Numeral(num, base)| <= MAX_NUMBER_PRINT_WIDTH
  {
    NumeralLength(num, base, 32);
    PowerAtLeast(base, 32);
    WordSizeIsPower();
  }

  lemma {:induction false} PowerAtLeast(base: nat, k: nat)
    requires base >= 2
    ensures Power(base, k) >= Pow2(k)
  {
    if k > 0 {
      PowerAtLeast(base, k - 1);
      KMath.MulAtMost(base, Pow2(k - 1), Power(base, k - 1));
      KMath.MulAtMost(Pow2(k - 1), 2, base);
    }
  }

  // ----- The buffer is large enough -----

  /**
    Every store stays inside the buffer, whatever the padding, in decimal and hexadecimal and for
    unprefixed binary; prefixed binary numbers overflow it exactly from 2^30 on.
   */
  lemma BufferSufficesExactlyWhen(num: Word, base: nat, negative: bool, flags: Flags, padWidth: Byte)
    requires base == 2 || base == 10 || base == 16
    requires negative ==> base == 10
    ensures |Layout(num, base, negative, flags, padWidth)| <= MAX_NUMBER_PRINT_WIDTH
            <==> !(base == 2 && flags.hash && num >= Pow2(30))
  {
    hide Layout;
    FieldLength(num, base, negative, flags, padWidth);
    WordNumeral(num, base);
    if base == 2 {
      NumeralLength(num, 2, 30);
      BinaryPower(30);
    } else if base == 10 {
      NumeralLength(num, 10, 10);
      assert Power(10, 10) > WORD_SIZE by { TenToTheTenth(); }
    } else {
      NumeralLength(num, 16, 8);
      assert Power(16, 8) == WORD_SIZE by { SixteenToTheEighth(); }
    }
  }

  lemma {:induction false} BinaryPower(k: nat)
    ensures Power(2, k) == Pow2(k)
  {
    if k > 0 {
      BinaryPower(k - 1);
    }
  }

  lemma TenToTheTenth()
    ensures Power(10, 10) == 10000000000
  {
    assert Power(10, 3) == 1000;
    assert Power(10, 6) == 1000000;
    assert Power(10, 9) == 1000000000;
  }

  lemma SixteenToTheEighth()
    ensures Power(16, 8) == WORD_SIZE
  {
    assert Power(16, 3) == 0x1000;
    assert Power(16, 6) == 0x100_0000;
  }

  // ----- Reading back -----

  function Horner(s: string, base: nat): nat {
    if s == "" then 0 else Horner(s[..|s| - 1], base) * base + DigitValue(s[|s| - 1])
  }

  function SkipSpaces(s: string): string {
    if s != "" && s[0] == ' ' then SkipSpaces(s[1..]) else s
  }

  datatype Reading = Reading(negative: bool, value: nat)

  /** Reads spaces, a sign, the prefix of the base, and digits. */
  function ReadNumber(s: string, base: nat): Reading {
    var t := SkipSpaces(s);
    var negative := t != "" && t[0] == '-';
    var u := if negative then t[1..] else t;
    var prefixed := |u| >= 2 && u[0] == '0' && ((base == 16 && u[1] == 'x') || (base == 2 && u[1] == 'b'));
    Reading(negative, Horner(if prefixed then u[2..] else u, base))
  }

  lemma {:induction false} ReversedConcat(s: string, t: string)
    ensures Reversed(s + t) == Reversed(t) + Reversed(s)
  {
    if s == "" {
      assert s + t == t;
    } else {
      ReversedConcat(s[1..], t);
      assert (s + t)[1..] == s[1..] + t;
    }
  }

  lemma {:induction false} ReversedRepeat(c: char, n: nat)
    ensures Reversed(Repeat(c, n)) == Repeat(c, n)
  {
    if n > 0 {
      ReversedRepeat(c, n - 1);
      RepeatMore(c, n - 1);
    }
  }

  /** The digits, most significant first, have the value they came from. */
  lemma {:induction false} NumeralValue(num: nat, base: nat)
    requires 2 <= base <= 16
    ensures Horner(Reversed(Numeral(num, base)), base) == num
    decreases num
  {
    var rest := if num < base then "" else Reversed(Numeral(num / base, base));
    NumeralStep(num, base);
    if num >= base {
      Quotient(num, base);
      NumeralValue(num / base, base);
    }
    hide Numeral, Horner;
    assert Reversed(Numeral(num, base)) == rest + [DigitChar(num % base)];
    HornerEmpty(base);
    HornerLast(rest, DigitChar(num % base), base);
    Recompose(num, base);
  }

  /** The first digit, and the numeral of what is left. */
  lemma NumeralStep(num: nat, base: nat)
    requires 2 <= base <= 16
    ensures Numeral(num, base)[0] == DigitChar(num % base)
    ensures Numeral(num, base)[1..] == if num < base then "" else Numeral(num / base, base)
    ensures num < base ==> num / base == 0
  {
    if num < base {
      SmallQuotient(num, base);
    }
  }

  lemma Recompose(num: nat, base: nat)
    requires 2 <= base <= 16
    ensures num / base * base + DigitValue(DigitChar(num % base)) == num
  {
    assert num == base * (num / base) + num % base;
  }

  lemma HornerLast(s: string, c: char, base: nat)
    ensures Horner(s + [c], base) == Horner(s, base) * base + DigitValue(c)
  {
    assert (s + [c])[..|s|] == s;
  }

  /** Leading zeros do not count. */
  lemma {:induction false} LeadingZeros(n: nat, s: string, base: nat)
    ensures Horner(Repeat('0', n) + s, base) == Horner(s, base)
    decreases n + |s|
  {
    var t := Repeat('0', n) + s;
    if s != "" {
      LeadingZeros(n, s[..|s| - 1], base);
      assert t[..|t| - 1] == Repeat('0', n) + s[..|s| - 1];
    } else if n > 0 {
      LeadingZeros(n - 1, "", base);
      RepeatMore('0', n - 1);
      assert t[..|t| - 1] == Repeat('0', n - 1) + "";
    }
  }

  lemma {:induction false} SkipAllSpaces(n: nat, s: string)
    requires s != "" && s[0] != ' '
    ensures SkipSpaces(Repeat(' ', n) + s) == s
  {
    if n > 0 {
      SkipAllSpaces(n - 1, s);
      assert (Repeat(' ', n) + s)[1..] == Repeat(' ', n - 1) + s;
    } else {
      assert Repeat(' ', 0) + s == s;
    }
  }

  /**
    The field a number is printed in: the requested width, at most 32. A prefix is counted as two
    characters under the zero flag, so a base without a mark, which has a prefix of one, falls one
    short.
   */
  function Field(base: nat, flags: Flags, padWidth: nat): int {
    (if padWidth <= 32 then padWidth else 32) - (if flags.zeropad && flags.hash && BaseMark(base) == "" then 1 else 0)
  }

  /**
    What `FormatAndOutputNumber` sends, from left to right: spaces, sign, prefix, zeros, digits. What
    sign, prefix and digits leave of the field is zeros under the zero flag and spaces otherwise.
   */
  lemma SentInOrder(num: nat, base: nat, negative: bool, flags: Flags, padWidth: nat) returns (spaces: nat, zeros: nat)
    requires 2 <= base <= 16
    ensures Reversed(Layout(num, base, negative, flags, padWidth)) ==
            Repeat(' ', spaces) + ((if negative then "-" else "") + ((if flags.hash then "0" + BaseMark(base) else "")
            + (Repeat('0', zeros) + Reversed(Numeral(num, base)))))
    ensures var body := |Numeral(num, base)| + (if negative then 1 else 0)
                        + (if flags.hash then 1 + |BaseMark(base)| else 0);
            spaces + zeros == if Field(base, flags, padWidth) > body then Field(base, flags, padWidth) - body else 0
    ensures if flags.zeropad then spaces == 0 else zeros == 0
  {
    var digits, prefix, sign := Numeral(num, base), Prefix(base, flags.hash), Sign(negative);
    PartsAre(base, flags, negative);
    spaces, zeros := LayoutParts(num, base, negative, flags, padWidth);
    hide *;
    ReversedConcat(digits, Repeat('0', zeros));
    ReversedRepeat('0', zeros);
    var z := digits + Repeat('0', zeros);
    ReversedConcat(z, prefix);
    ReversedConcat(z + prefix, sign);
    ReversedConcat(z + prefix + sign, Repeat(' ', spaces));
    ReversedRepeat(' ', spaces);
    assert Reversed(z + prefix + sign) == Reversed(sign) + (Reversed(prefix) + Reversed(z));
  }

  lemma PartsAre(base: nat, flags: Flags, negative: bool)
    ensures Reversed(Prefix(base, flags.hash)) == if flags.hash then "0" + BaseMark(base) else ""
    ensures Reversed(Sign(negative)) == if negative then "-" else ""
  {
    ReversedConcat(BaseMark(base), "0");
    assert Reversed("x") == "x" && Reversed("b") == "b" && Reversed("0") == "0";
  }

  /** The buffer in pieces. */
  lemma LayoutParts(num: nat, base: nat, negative: bool, flags: Flags, padWidth: nat) returns (spaces: nat, zeros: nat)
    requires 2 <= base <= 16
    ensures Layout(num, base, negative, flags, padWidth) ==
            Numeral(num, base) + Repeat('0', zeros) + Prefix(base, flags.hash) + Sign(negative) + Repeat(' ', spaces)
    ensures var body := |Numeral(num, base)| + (if negative then 1 else 0)
                        + (if flags.hash then 1 + |BaseMark(base)| else 0);
            spaces + zeros == if Field(base, flags, padWidth) > body then Field(base, flags, padWidth) - body else 0
    ensures if flags.zeropad then spaces == 0 else zeros == 0
  {
    var w := Width(negative, flags, padWidth);
    WidthIs(negative, flags, padWidth);
    hide Numeral, Width, Repeat;
    var digits := Numeral(num, base);
    zeros := if flags.zeropad then Decrement(w, |digits|) else 0;
    spaces := Decrement(w, |digits| + zeros + |Prefix(base, flags.hash)| + |Sign(negative)|);
    assert digits + Repeat('0', zeros) == if flags.zeropad then Padded(digits, '0', w) else digits;
  }

  lemma WidthIs(negative: bool, flags: Flags, padWidth: nat)
    ensures var p := (if padWidth <= 32 then padWidth else 32)
                     - (if flags.zeropad && flags.hash then 2 else 0) - (if flags.zeropad && negative then 1 else 0);
            Width(negative, flags, padWidth) == if p > 0 then p else 0
  {
  }

  /** The length returned: the field, unless sign, prefix and digits need more. */
  lemma FieldLength(num: nat, base: nat, negative: bool, flags: Flags, padWidth: nat)
    requires 2 <= base <= 16
    ensures var body := |Numeral(num, base)| + (if negative then 1 else 0)
                        + (if flags.hash then 1 + |BaseMark(base)| else 0);
            |Layout(num, base, negative, flags, padWidth)|
            == if Field(base, flags, padWidth) > body then Field(base, flags, padWidth) else body
  {
    var spaces, zeros := SentInOrder(num, base, negative, flags, padWidth);
    hide Numeral, Layout, Field;
  }

  predicate DigitOf(c: char, base: nat) {
    exists d: nat :: d < 16 && d < base && c == DigitChar(d)
  }

  lemma {:induction false} NumeralDigits(num: nat, base: nat)
    requires 2 <= base <= 16
    ensures forall i :: 0 <= i < |Numeral(num, base)| ==> DigitOf(Numeral(num, base)[i], base)
    decreases num
  {
    if num >= base {
      Quotient(num, base);
      NumeralDigits(num / base, base);
    }
  }

  lemma {:induction false} ReversedDigits(s: string, base: nat)
    requires forall i :: 0 <= i < |s| ==> DigitOf(s[i], base)
    ensures forall i :: 0 <= i < |s| ==> DigitOf(Reversed(s)[i], base)
  {
    if s != "" {
      ReversedDigits(s[1..], base);
    }
  }

  /** A digit is no space, sign or base mark. */
  lemma DigitIsPlain(c: char, base: nat)
    requires 2 <= base <= 16 && DigitOf(c, base)
    ensures c != ' ' && c != '-' && !(base == 16 && c == 'x') && !(base == 2 && c == 'b')
  {
  }

  /** A string of digits is read as the value of its digits. */
  lemma ReadDigits(d: string, base: nat)
    requires 2 <= base <= 16 && d != "" && forall i :: 0 <= i < |d| ==> DigitOf(d[i], base)
    ensures ReadNumber(d, base) == Reading(false, Horner(d, base))
  {
    DigitIsPlain(d[0], base);
    if |d| >= 2 {
      DigitIsPlain(d[1], base);
    }
  }

  /** Reading skips the spaces. */
  lemma ReadAfterSpaces(n: nat, s: string, base: nat)
    requires s != "" && s[0] != ' '
    ensures ReadNumber(Repeat(' ', n) + s, base) == ReadNumber(s, base)
  {
    SkipAllSpaces(n, s);
  }

  lemma ReadAfterSign(s: string, base: nat)
    requires s != "" && s[0] != '-' && s[0] != ' '
    ensures ReadNumber("-" + s, base) == Reading(true, ReadNumber(s, base).value)
  {
    assert ("-" + s)[1..] == s;
  }

  lemma ReadAfterMark(d: string, base: nat)
    requires 2 <= base <= 16 && BaseMark(base) != "" && d != ""
    ensures ReadNumber("0" + BaseMark(base) + d, base) == Reading(false, Horner(d, base))
  {
    var s := "0" + BaseMark(base) + d;
    assert s[2..] == d;
  }

  /** Reading back what was sent gives the number and its sign, whatever the flags and the width. */
  lemma FormatRoundTrip(num: nat, base: nat, negative: bool, flags: Flags, padWidth: nat)
    requires 2 <= base <= 16
    ensures ReadNumber(Reversed(Layout(num, base, negative, flags, padWidth)), base) == Reading(negative, num)
  {
    var spaces, zeros := SentInOrder(num, base, negative, flags, padWidth);
    var digits := Reversed(Numeral(num, base));
    NumeralDigits(num, base);
    ReversedDigits(Numeral(num, base), base);
    NumeralValue(num, base);
    hide Numeral, ReadNumber, Layout, Horner;
    var body := UnsignedRoundTrip(digits, base, flags.hash, zeros, num);
    if negative {
      ReadAfterSign(body, base);
    }
    var signed := (if negative then "-" else "") + body;
    assert !negative ==> signed == body;
    ReadAfterSpaces(spaces, signed, base);
  }

  lemma PaddedDigits(zeros: nat, digits: string, base: nat)
    requires base >= 2 && digits != "" && forall i :: 0 <= i < |digits| ==> DigitOf(digits[i], base)
    ensures var d := Repeat('0', zeros) + digits;
            d != "" && forall i :: 0 <= i < |d| ==> DigitOf(d[i], base)
  {
    assert DigitOf('0', base) by { assert '0' == DigitChar(0); }
  }

  lemma UnsignedRoundTrip(digits: string, base: nat, hash: bool, zeros: nat, num: nat) returns (body: string)
    requires 2 <= base <= 16 && digits != "" && Horner(digits, base) == num
    requires forall i :: 0 <= i < |digits| ==> DigitOf(digits[i], base)
    ensures body == (if hash then "0" + BaseMark(base) else "") + (Repeat('0', zeros) + digits)
    ensures body != "" && body[0] != ' ' && body[0] != '-'
    ensures ReadNumber(body, base) == Reading(false, num)
  {
    var d := Repeat('0', zeros) + digits;
    PaddedDigits(zeros, digits, base);
    LeadingZeros(zeros, digits, base);
    hide ReadNumber, Horner, DigitOf, Repeat;
    DigitIsPlain(d[0], base);
    var prefix := if hash then "0" + BaseMark(base) else "";
    body := prefix + d;
    if !hash {
      assert body == d;
      ReadDigits(d, base);
    } else if BaseMark(base) != "" {
      ReadAfterMark(d, base);
    } else {
      assert prefix == "0";
      ReadAfterZero(zeros, digits, d, base);
    }
  }

  /** In a base without a mark the prefix is one more leading zero. */
  lemma ReadAfterZero(zeros: nat, digits: string, d: string, base: nat)
    requires 2 <= base <= 16 && digits != "" && d == Repeat('0', zeros) + digits
    requires forall i :: 0 <= i < |digits| ==> DigitOf(digits[i], base)
    ensures ReadNumber("0" + d, base) == Reading(false, Horner(digits, base))
  {
    hide *;
    PaddedDigits(zeros + 1, digits, base);
    LeadingZeros(zeros + 1, digits, base);
    OneMoreZero(zeros, digits);
    ReadDigits("0" + d, base);
  }

  lemma OneMoreZero(zeros: nat, digits: string)
    ensures "0" + (Repeat('0', zeros) + digits) == Repeat('0', zeros + 1) + digits
  {
  }

  // ----- The field width -----

  function Digits(s: string): (n: nat)
    ensures n <= |s| && forall i :: 0 <= i < n ==> '0' <= s[i] <= '9'
    ensures n < |s| ==> !('0' <= s[n] <= '9')
  {
    if s != "" && '0' <= s[0] <= '9' then 1 + Digits(s[1..]) else 0
  }

  /**
    `kprintf_set_pad_width`: consumes all decimal digits at `position` and gives their value,
    unless that value does not fit a byte. The original returns -EINVAL where this returns `None`.
   */
  method SetPadWidth(format: string, position: nat) returns (width: Option<Byte>, next: nat)
    requires position <= |format|
    ensures var rest := format[position..];
            var value := Horner(rest[..Digits(rest)], 10);
            && width == (if value < 256 then Some(value) else None)
            && (width.Some? ==> next == position + Digits(rest))
  {
    hide Horner, Digits;
    var converted: Byte := 0;
    ghost var rest := format[position..];
    ghost var k := 0;
    next := position;
    HornerEmpty(10);
    assert rest[..0] == "";
    while next < |format| && '0' <= format[next] <= '9'
      invariant next == position + k && k <= Digits(rest)
      invariant converted == Horner(rest[..k], 10)
      decreases |format| - next
    {
      assert rest[k] == format[next];
      HornerStep(rest, k, 10);
      var digit := DigitValue(format[next]);
      if converted * 10 + digit > 255 {
        HornerPrefix(rest[..Digits(rest)], k + 1, 10);
        assert rest[..Digits(rest)][..k + 1] == rest[..k + 1];
        return None, next;
      }
      converted := converted * 10 + digit;
      next := next + 1;
      k := k + 1;
    }
    assert k < |rest| ==> rest[k] == format[next];
    width := Some(converted);
  }

  lemma HornerEmpty(base: nat)
    ensures Horner("", base) == 0
  {
  }

  lemma HornerStep(s: string, k: nat, base: nat)
    requires k < |s|
    ensures Horner(s[..k + 1], base) == Horner(s[..k], base) * base + DigitValue(s[k])
  {
    assert s[..k + 1][..k] == s[..k];
  }

  /** More digits never make the value smaller. */
  lemma {:induction false} HornerPrefix(s: string, k: nat, base: nat)
    requires k <= |s| && base > 0
    ensures Horner(s[..k], base) <= Horner(s, base)
  {
    if k == |s| {
      assert s[..k] == s;
    } else {
      HornerPrefix(s[..|s| - 1], k, base);
      assert s[..|s| - 1][..k] == s[..k];
      KMath.MulAtMost(Horner(s[..|s| - 1], base), 1, base);
    }
  }
}
