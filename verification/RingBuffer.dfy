/**
  The input ring buffer (kernel/lib/kringbuffer.c): free-running 32-bit indices, a power-of-two
  size whose mask picks the slot, and copies split at the end of the storage.
  It behaves as a bounded FIFO queue.
 */
module RingBuffer {
  import opened Words

  /** The position `n` steps after `at` in a circle of `size` positions. */
  function Around(at: nat, n: nat, size: nat): (p: nat)
    requires at < size && n <= size
    ensures p < size
  {
    if at + n < size then at + n else at + n - size
  }

  /** How many steps lead from position `at` to position `j` in a circle of `size` positions. */
  function Steps(at: nat, j: nat, size: nat): (n: nat)
    requires at < size && j < size
    ensures n < size && Around(at, n, size) == j
  {
    if at <= j then j - at else j + size - at
  }

  /** The `n` bytes from position `at` on, around the end of the storage. */
  function Segment(d: seq<Byte>, at: nat, n: nat): (s: seq<Byte>)
    requires at < |d| && n <= |d|
  {
    seq(n, i requires 0 <= i < n => d[Around(at, i, |d|)])
  }

  lemma SegmentSplit(d: seq<Byte>, at: nat, u: nat, n: nat)
    requires at < |d| && n <= u <= |d|
    ensures Segment(d, at, u)[..n] == Segment(d, at, n)
    ensures Segment(d, at, u)[n..] == Segment(d, Around(at, n, |d|), u - n)
  {
  }

  /** `d` with the bytes `src` written from position `at` on, around the end of the storage. */
  function Overwrite(d: seq<Byte>, at: nat, src: seq<Byte>): seq<Byte>
    requires at < |d| && |src| <= |d|
  {
    seq(|d|, j requires 0 <= j < |d| => if Steps(at, j, |d|) < |src| then src[Steps(at, j, |d|)] else d[j])
  }

  /** Writing behind a segment that leaves room extends it. */
  lemma SegmentExtend(d: seq<Byte>, at: nat, u: nat, src: seq<Byte>)
    requires at < |d| && u + |src| <= |d|
    ensures Segment(Overwrite(d, Around(at, u, |d|), src), at, u + |src|) == Segment(d, at, u) + src
  {
  }

  /** A power of two below the word size divides it, so wrap-around keeps the remainder. */
  lemma WrapKeepsRemainder(a: Word, n: Word, k: nat)
    requires k <= 32
    ensures Plus(a, n) % Pow2(k) == (a + n) % Pow2(k)
  {
    var m, c := Pow2(k), Pow2(32 - k);
    Pow2Sum(k, 32 - k);
    WordSizeIsPower();
    if a + n >= WORD_SIZE {
      RemainderPlusMultiple(Plus(a, n), m, c);
    }
  }

  lemma RemainderPlusMultiple(x: nat, m: nat, c: nat)
    requires m > 0
    ensures (x + m * c) % m == x % m
  {
    var d, r := x / m, x % m;
    assert x == m * d + r;
    assert m * (d + c) == m * d + m * c;
    RemainderUnique(x + m * c, m, d + c, r);
  }

  lemma {:induction false} PowerBelowWord(k: nat)
    ensures k >= 32 ==> Pow2(k) >= WORD_SIZE
  {
    if k == 32 {
      WordSizeIsPower();
    } else if k > 32 {
      PowerBelowWord(k - 1);
    }
  }

  lemma RemainderAround(x: nat, n: nat, m: nat)
    requires m > 0 && n <= m
    ensures (x + n) % m == Around(x % m, n, m)
  {
    var d, r := x / m, x % m;
    if r + n < m {
      RemainderUnique(x + n, m, d, r + n);
    } else {
      assert m * (d + 1) == m * d + m;
      RemainderUnique(x + n, m, d + 1, r + n - m);
    }
  }

  /** `k_memcpy` between two buffers. */
  method CopyBytes(dst: array<Byte>, at: nat, src: array<Byte>, from: nat, n: nat)
    requires dst != src && at + n <= dst.Length && from + n <= src.Length
    modifies dst
    ensures forall i :: 0 <= i < dst.Length ==>
              dst[i] == if at <= i < at + n then src[from + (i - at)] else old(dst[i])
  {
    for i := 0 to n
      invariant forall j :: 0 <= j < dst.Length ==>
                  dst[j] == if at <= j < at + i then src[from + (j - at)] else old(dst[j])
    {
      dst[at + i] := src[from + i];
    }
  }

  datatype Operation = Write(bytes: seq<Byte>) | Read(length: nat) | Peek(length: nat)

  /** A bounded queue's history: what went in, what came out, what each peek showed, what is left. */
  datatype History =
    History(accepted: seq<Byte>, delivered: seq<Byte>, peeked: seq<seq<Byte>>, content: seq<Byte>)

  /** The last `n` bytes, or all of them. */
  function Newest(content: seq<Byte>, n: nat): (p: seq<Byte>)
    ensures |p| == Min(n, |content|)
  {
    content[|content| - Min(n, |content|)..]
  }

  function Run(capacity: nat, content: seq<Byte>, ops: seq<Operation>): History
    requires |content| <= capacity
    decreases |ops|
  {
    if ops == [] then History([], [], [], content) else
    match ops[0]
    case Write(bytes) =>
      var taken := bytes[..Min(|bytes|, capacity - |content|)];
      var h := Run(capacity, content + taken, ops[1..]);
      h.(accepted := taken + h.accepted)
    case Read(length) =>
      var n := Min(length, |content|);
      var h := Run(capacity, content[n..], ops[1..]);
      h.(delivered := content[..n] + h.delivered)
    case Peek(length) =>
      var h := Run(capacity, content, ops[1..]);
      h.(peeked := [Newest(content, length)] + h.peeked)
  }

  /** Over any history nothing is lost, duplicated or reordered, and the bound is kept. */
  lemma {:induction false} FirstInFirstOut(capacity: nat, content: seq<Byte>, ops: seq<Operation>)
    requires |content| <= capacity
    decreases |ops|
    ensures var h := Run(capacity, content, ops);
            content + h.accepted == h.delivered + h.content && |h.content| <= capacity
  {
    if ops != [] {
      match ops[0]
      case Write(bytes) =>
        var taken := bytes[..Min(|bytes|, capacity - |content|)];
        FirstInFirstOut(capacity, content + taken, ops[1..]);
        var h := Run(capacity, content + taken, ops[1..]);
        assert content + (taken + h.accepted) == content + taken + h.accepted;
      case Read(length) =>
        var n := Min(length, |content|);
        FirstInFirstOut(capacity, content[n..], ops[1..]);
        var h := Run(capacity, content[n..], ops[1..]);
        calc {
          content + h.accepted;
          content[..n] + (content[n..] + h.accepted);
          content[..n] + (h.delivered + h.content);
          content[..n] + h.delivered + h.content;
        }
      case Peek(_) =>
        FirstInFirstOut(capacity, content, ops[1..]);
    }
  }

  /** A history followed by one more peek. */
  lemma {:induction false} RunThenPeek(capacity: nat, content: seq<Byte>, ops: seq<Operation>, length: nat)
    requires |content| <= capacity
    ensures var h := Run(capacity, content, ops);
            Run(capacity, content, ops + [Peek(length)]) == h.(peeked := h.peeked + [Newest(h.content, length)])
    decreases |ops|
  {
    if ops == [] {
      assert ops + [Peek(length)] == [Peek(length)];
    } else {
      assert (ops + [Peek(length)])[0] == ops[0] && (ops + [Peek(length)])[1..] == ops[1..] + [Peek(length)];
      var h := Run(capacity, content, ops);
      match ops[0]
      case Write(bytes) =>
        RunThenPeek(capacity, content + bytes[..Min(|bytes|, capacity - |content|)], ops[1..], length);
      case Read(n) => RunThenPeek(capacity, content[Min(n, |content|)..], ops[1..], length);
      case Peek(n) =>
        RunThenPeek(capacity, content, ops[1..], length);
        var shown := Run(capacity, content, ops[1..]).peeked;
        assert [Newest(content, n)] + (shown + [Newest(h.content, length)])
            == [Newest(content, n)] + shown + [Newest(h.content, length)];
    }
  }

  /** After any history a peek shows, in order, the newest of all the bytes that went in, as far as they are left. */
  lemma PeekShowsNewest(capacity: nat, content: seq<Byte>, ops: seq<Operation>, length: nat)
    requires |content| <= capacity
    ensures var h := Run(capacity, content, ops);
            var shown := Run(capacity, content, ops + [Peek(length)]).peeked;
            && |shown| == |h.peeked| + 1 && |shown[|h.peeked|]| == Min(length, |h.content|)
            && shown[|h.peeked|] == Newest(content + h.accepted, |shown[|h.peeked|]|)
  {
    RunThenPeek(capacity, content, ops, length);
    FirstInFirstOut(capacity, content, ops);
  }

  class Buffer {
    const data: array<Byte>
    var mask: Word
    var readIndex: Word
    var writeIndex: Word

    ghost predicate Valid()
      reads this
    {
      && 2 <= data.Length < WORD_SIZE && data.Length == mask + 1
      && IsPowerOfTwo(data.Length)
      && Used() <= data.Length
    }

    function Used(): Word
      reads this
    {
      Minus(writeIndex, readIndex)
    }

    function Unused(): Word
      requires mask + 1 < WORD_SIZE
      reads this
    {
      Minus(mask + 1, Minus(writeIndex, readIndex))
    }

    /** `offset & r->mask` */
    function Slot(offset: nat): nat
      reads this
    {
      BitAnd(offset, mask)
    }

    /** The queue's content, oldest byte first. */
    ghost function Contents(): (s: seq<Byte>)
      requires Valid()
      reads this, data
      ensures |s| == Used()
    {
      MaskedSlot(readIndex);
      Segment(data[..], Slot(readIndex), Used())
    }

    lemma MaskedSlot(offset: nat)
      requires Valid()
      ensures Slot(offset) == offset % data.Length
      ensures Slot(offset) < data.Length
    {
      var k: nat :| data.Length == Pow2(k);
      MaskIsRemainder(offset, k);
    }

    /** Advancing an index, with its wrap-around, advances the slot around the storage. */
    lemma AdvanceSlot(index: Word, n: Word)
      requires Valid() && n <= data.Length
      ensures Slot(index) < data.Length
      ensures Slot(Plus(index, n)) == Around(Slot(index), n, data.Length)
    {
      var k: nat :| data.Length == Pow2(k);
      PowerBelowWord(k);
      MaskIsRemainder(index, k);
      MaskIsRemainder(Plus(index, n), k);
      WrapKeepsRemainder(index, n, k);
      RemainderAround(index, n, data.Length);
    }

    constructor (data: array<Byte>)
      requires 2 <= data.Length < WORD_SIZE && BitAnd(data.Length, data.Length - 1) == 0
      ensures Valid() && Contents() == [] && this.data == data
    {
      PowerOfTwoTest(data.Length);
      this.data := data;
      mask := data.Length - 1;
      readIndex, writeIndex := 0, 0;
    }

    method ReadWithOffset(dst: array<Byte>, length: nat, offset: Word)
      requires Valid() && dst != data && length <= dst.Length && length <= data.Length
      requires Slot(offset) < data.Length
      modifies dst
      ensures dst[..length] == Segment(data[..], Slot(offset), length)
      ensures dst[length..] == old(dst[length..])
    {
      var size := mask + 1;
      var slot := BitAnd(offset, mask);
      var rest := Min(length, size - slot);
      CopyBytes(dst, 0, data, slot, rest);
      CopyBytes(dst, rest, data, 0, length - rest);
    }

    method WriteWithOffset(src: array<Byte>, length: nat, offset: Word)
      requires Valid() && src != data && length <= src.Length && length <= data.Length
      requires Slot(offset) < data.Length
      modifies data
      ensures data[..] == Overwrite(old(data[..]), Slot(offset), src[..length])
    {
      var size := mask + 1;
      var slot := BitAnd(offset, mask);
      var rest := Min(length, size - slot);
      CopyBytes(data, slot, src, 0, rest);
      CopyBytes(data, 0, src, rest, length - rest);
    }

    method Empty() returns (empty: bool)
      requires Valid()
      ensures empty <==> Contents() == []
    {
      empty := Used() == 0;
    }

    method Full() returns (full: bool)
      requires Valid()
      ensures full <==> |Contents()| == data.Length
    {
      full := Unused() == 0;
    }

    /** Copies the newest bytes, oldest of them first, and removes nothing. */
    method PeekNewest(dst: array<Byte>, length: Word) returns (n: nat)
      requires Valid() && dst != data && Min(length, Used()) <= dst.Length
      modifies dst
      ensures Valid() && Contents() == old(Contents())
      ensures n == Min(length, |Contents()|)
      ensures dst[..n] == Contents()[|Contents()| - n..] && dst[n..] == old(dst[n..])
    {
      n := if length > Used() then Used() else length;
      ghost var u := Used() - n;
      AdvanceSlot(readIndex, u);
      ReadWithOffset(dst, n, Minus(writeIndex, n));
      SegmentSplit(data[..], Slot(readIndex), Used(), u);
    }

    /** Removes the longest available prefix of at most `length` bytes. */
    method Read(dst: array<Byte>, length: Word) returns (n: nat)
      requires Valid() && dst != data && Min(length, Used()) <= dst.Length
      modifies this`readIndex, dst
      ensures Valid() && n == Min(length, |old(Contents())|)
      ensures Contents() == old(Contents())[n..]
      ensures dst[..n] == old(Contents())[..n] && dst[n..] == old(dst[n..])
    {
      n := if length > Used() then Used() else length;
      AdvanceSlot(readIndex, n);
      SegmentSplit(data[..], Slot(readIndex), Used(), n);
      ReadWithOffset(dst, n, readIndex);
      readIndex := Plus(readIndex, n);
    }

    /** Appends the longest prefix that fits and drops the rest. */
    method Write(src: array<Byte>, length: Word) returns (n: nat)
      requires Valid() && src != data && length <= src.Length
      modifies this`writeIndex, data
      ensures Valid() && n == Min(length, data.Length - |old(Contents())|)
      ensures Contents() == old(Contents()) + old(src[..n])
    {
      n := if length > Unused() then Unused() else length;
      ghost var u, bytes := Used(), src[..n];
      AdvanceSlot(readIndex, u);
      SegmentExtend(data[..], Slot(readIndex), u, bytes);
      WriteWithOffset(src, n, writeIndex);
      assert src[..n] == bytes;
      writeIndex := Plus(writeIndex, n);
      assert Used() == u + n;
    }
  }

  method Put(b: Buffer, bytes: seq<Byte>) returns (taken: seq<Byte>)
    requires b.Valid()
    modifies b, b.data
    ensures b.Valid() && taken == bytes[..Min(|bytes|, b.data.Length - |old(b.Contents())|)]
    ensures b.Contents() == old(b.Contents()) + taken
  {
    var src := new Byte[|bytes|](i requires 0 <= i < |bytes| => bytes[i]);
    assert forall k :: 0 <= k <= |bytes| ==> src[..k] == bytes[..k];
    var n := b.Write(src, Min(|bytes|, WORD_SIZE - 1));
    return bytes[..n];
  }

  method Take(b: Buffer, length: nat) returns (bytes: seq<Byte>)
    requires b.Valid()
    modifies b, b.data
    ensures b.Valid() && bytes == old(b.Contents())[..Min(length, |old(b.Contents())|)]
    ensures b.Contents() == old(b.Contents())[|bytes|..]
  {
    var m := Min(length, b.Used());
    var dst := new Byte[m];
    var n := b.Read(dst, m);
    return dst[..n];
  }

  method Show(b: Buffer, length: nat) returns (bytes: seq<Byte>)
    requires b.Valid()
    ensures b.Valid() && b.Contents() == old(b.Contents()) && bytes == Newest(b.Contents(), length)
  {
    var m := Min(length, b.Used());
    var dst := new Byte[m];
    var n := b.PeekNewest(dst, m);
    return dst[..n];
  }

  /** A buffer put through any list of operations is the bounded queue `Run` describes. */
  method Execute(b: Buffer, ops: seq<Operation>)
    returns (accepted: seq<Byte>, delivered: seq<Byte>, peeked: seq<seq<Byte>>)
    requires b.Valid()
    modifies b, b.data
    ensures b.Valid()
    ensures History(accepted, delivered, peeked, b.Contents()) == Run(b.data.Length, old(b.Contents()), ops)
    decreases |ops|
  {
    if ops == [] {
      return [], [], [];
    }
    var bytes;
    match ops[0] {
      case Write(src) =>
        bytes := Put(b, src);
        accepted, delivered, peeked := Execute(b, ops[1..]);
        accepted := bytes + accepted;
      case Read(length) =>
        bytes := Take(b, length);
        accepted, delivered, peeked := Execute(b, ops[1..]);
        delivered := bytes + delivered;
      case Peek(length) =>
        bytes := Show(b, length);
        accepted, delivered, peeked := Execute(b, ops[1..]);
        peeked := [bytes] + peeked;
    }
  }
}
