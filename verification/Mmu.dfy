/**
  Address translation (kernel/mmu.c, include/kernel/mmu.h, include/arch/bsp/memory_map.h).

  Descriptors are kept as records; `PackL1` and `PackL2` lay them out as the bit-field structs
  do, and `WalkL1` and `WalkL2` read the words back the way the hardware walk does (ARM DDI
  0406C, sections B3.5.1 and B3.7.1).
 */
module Mmu {
  import opened Words

  const L1_SIZE: nat := 0x1000
  const L2_SIZE: nat := 0x100
  const PAGE: nat := 4 * KiB
  const STACK_SIZE: nat := MiB

  // memory_map.h, as section numbers (1 MiB each)
  const KERNEL_DATA: nat := 3
  const UDATA: nat := 6
  const UDATA_KERNEL_MAP: nat := 7
  const UDATA_ORIGINAL: nat := 15
  const USER_STACKS: nat := 90
  const KERNEL_STACKS: nat := 122
  const MEMORY_TOP: nat := 128
  const USER_STACK_COUNT: nat := 32
  const STACK_COUNT: nat := 38

  datatype L1Entry = Fault | Section(base: nat, ap: nat, xn: bool, pxn: bool) | Table(base: nat)
  datatype L2Entry = PageFault | SmallPage(base: nat, ap: nat, xn: bool)

  /** Read, write and execute rights asked for; the `KREAD | KWRITE ...` flags. */
  datatype Rights = Rights(read: bool, write: bool, exec: bool)

  const NONE := Rights(false, false, false)
  const READ := Rights(true, false, false)
  const READ_EXEC := Rights(true, false, true)
  const READ_WRITE := Rights(true, true, false)

  /** Execution needs reading, so asking for it grants both. */
  function Adjusted(r: Rights): Rights {
    r.(read := r.read || r.exec)
  }

  /** The combinations `get_AP_bits` has an encoding for; it panics on every other one. */
  predicate Encodable(kp: Rights, up: Rights) {
    && (up.write ==> up.read && kp.write) && (up.read ==> kp.read) && (kp.write ==> kp.read)
  }

  function AccessBits(kp: Rights, up: Rights): (ap: nat)
    requires Encodable(kp, up)
    ensures ap < 8
  {
    if !kp.read then 0
    else if !kp.write then (if up.read then 7 else 5)
    else if up.write then 3
    else if up.read then 2 else 1
  }

  // What the hardware grants for AP[2:0].
  predicate KernelMayRead(ap: nat) { ap in {1, 2, 3, 5, 6, 7} }
  predicate KernelMayWrite(ap: nat) { ap in {1, 2, 3} }
  predicate UserMayRead(ap: nat) { ap in {2, 3, 6, 7} }
  predicate UserMayWrite(ap: nat) { ap == 3 }

  /** The encoding grants each privilege level the reads and writes asked for and no others. */
  lemma AccessBitsGrant(kp: Rights, up: Rights)
    requires Encodable(kp, up)
    ensures var ap := AccessBits(kp, up);
            && (KernelMayRead(ap) <==> kp.read) && (KernelMayWrite(ap) <==> kp.write)
            && (UserMayRead(ap) <==> up.read) && (UserMayWrite(ap) <==> up.write)
  {
  }

  function SectionOf(base: nat, kp: Rights, up: Rights): L1Entry
    requires Encodable(Adjusted(kp), Adjusted(up))
  {
    Section(base, AccessBits(Adjusted(kp), Adjusted(up)), !kp.exec && !up.exec, !kp.exec && up.exec)
  }

  // What the hardware lets run: what may be read and is not marked execute-never.
  predicate KernelMayExecute(ap: nat, xn: bool, pxn: bool) { KernelMayRead(ap) && !xn && !pxn }
  predicate UserMayExecute(ap: nat, xn: bool) { UserMayRead(ap) && !xn }

  /**
    A section grants the kernel execution if and only if it was asked for, and user code if and only if it
    was asked for or comes along with the kernel's where user code may read.
   */
  lemma SectionGrants(base: nat, kp: Rights, up: Rights)
    requires Encodable(Adjusted(kp), Adjusted(up))
    ensures var e := SectionOf(base, kp, up);
            && e.base == base
            && (KernelMayExecute(e.ap, e.xn, e.pxn) <==> kp.exec)
            && (UserMayExecute(e.ap, e.xn) <==> up.exec || (kp.exec && up.read))
            && (KernelMayRead(e.ap) <==> kp.read || kp.exec) && (KernelMayWrite(e.ap) <==> kp.write)
            && (UserMayRead(e.ap) <==> up.read || up.exec) && (UserMayWrite(e.ap) <==> up.write)
  {
    AccessBitsGrant(Adjusted(kp), Adjusted(up));
    hide AccessBits;
  }

  function SmallPageOf(base: nat, kp: Rights, up: Rights): L2Entry
    requires Encodable(Adjusted(kp), Adjusted(up))
  {
    SmallPage(base, AccessBits(Adjusted(kp), Adjusted(up)), !kp.exec && !up.exec)
  }

  /** A page has no bit for the kernel alone: what either may execute is not marked. */
  lemma PageGrants(base: nat, kp: Rights, up: Rights)
    requires Encodable(Adjusted(kp), Adjusted(up))
    ensures var e := SmallPageOf(base, kp, up);
            && e.base == base
            && (KernelMayExecute(e.ap, e.xn, false) <==> kp.exec || up.exec)
            && (UserMayExecute(e.ap, e.xn) <==> up.exec || (kp.exec && up.read))
            && (KernelMayRead(e.ap) <==> kp.read || kp.exec) && (KernelMayWrite(e.ap) <==> kp.write)
            && (UserMayRead(e.ap) <==> up.read || up.exec) && (UserMayWrite(e.ap) <==> up.write)
  {
    AccessBitsGrant(Adjusted(kp), Adjusted(up));
    hide AccessBits;
  }

  function Bit(b: bool): nat {
    if b then 1 else 0
  }

  predicate WellFormedL1(e: L1Entry) {
    match e
    case Fault => true
    case Section(base, ap, _, _) => base < 0x1000 && ap < 8
    case Table(base) => base < 0x40_0000
  }

  function PackL1(e: L1Entry): nat {
    match e
    case Fault => 0
    case Section(base, ap, xn, pxn) =>
      Bit(pxn) + 0x2 + 0x10 * Bit(xn) + 0x400 * (ap % 4) + 0x8000 * (ap / 4) + 0x10_0000 * base
    case Table(base) => 0x1 + 0x400 * base
  }

  function PackL2(e: L2Entry): nat {
    match e
    case PageFault => 0
    case SmallPage(base, ap, xn) =>
      Bit(xn) + 0x2 + 0x10 * (ap % 4) + 0x200 * (ap / 4) + 0x1000 * base
  }

  /** First-level walk on a descriptor word; `None` for a supersection. */
  function WalkL1(w: nat): Option<L1Entry> {
    if w % 4 == 0 then Some(Fault)
    else if w % 4 == 1 then Some(Table(w / 0x400))
    else if w / 0x4_0000 % 2 == 1 then None
    else Some(Section(w / 0x10_0000, w / 0x400 % 4 + 4 * (w / 0x8000 % 2), w / 0x10 % 2 == 1, w % 2 == 1))
  }

  /** Second-level walk on a descriptor word; `None` for a large page. */
  function WalkL2(w: nat): Option<L2Entry> {
    if w % 4 == 0 then Some(PageFault)
    else if w % 4 == 1 then None
    else Some(SmallPage(w / 0x1000, w / 0x10 % 4 + 4 * (w / 0x200 % 2), w % 2 == 1))
  }

  lemma WalkReadsPackedL1(e: L1Entry)
    requires WellFormedL1(e)
    ensures WalkL1(PackL1(e)) == Some(e) && PackL1(e) < WORD_SIZE
  {
    match e
    case Fault =>
    case Table(base) =>
      SplitField(PackL1(e), 4, 1, 0x100 * base);
      SplitField(PackL1(e), 0x400, 1, base);
    case Section(base, ap, xn, pxn) =>
      hide WalkL1;
      var w := PackL1(e);
      SectionFields(w, Bit(pxn), Bit(xn), ap % 4, ap / 4, base);
      WalkSection(w, base, ap, xn, pxn);
  }

  lemma WalkSection(w: nat, base: nat, ap: nat, xn: bool, pxn: bool)
    requires ap < 8 && w % 4 == Bit(pxn) + 2 && w % 2 == Bit(pxn)
    requires w / 0x10 % 2 == Bit(xn) && w / 0x400 % 4 == ap % 4 && w / 0x8000 % 2 == ap / 4
    requires w / 0x4_0000 % 2 == 0 && w / 0x10_0000 == base
    ensures WalkL1(w) == Some(Section(base, ap, xn, pxn))
  {
  }

  /** Removing the lowest field of a sum of fields: quotient and remainder. */
  lemma SplitField(w: nat, size: nat, low: nat, rest: nat)
    requires size > 0 && low < size && w == low + size * rest
    ensures w % size == low && w / size == rest
  {
    RemainderUnique(w, size, rest, low);
  }

  lemma SectionFields(w: nat, pxn: nat, xn: nat, low: nat, high: nat, base: nat)
    requires pxn < 2 && xn < 2 && low < 4 && high < 2 && base < 0x1000
    requires w == pxn + 0x2 + 0x10 * xn + 0x400 * low + 0x8000 * high + 0x10_0000 * base
    ensures w < WORD_SIZE && w % 4 == pxn + 2 && w % 2 == pxn
    ensures w / 0x10 % 2 == xn && w / 0x400 % 4 == low && w / 0x8000 % 2 == high
    ensures w / 0x4_0000 % 2 == 0 && w / 0x10_0000 == base
  {
    SplitField(w, 2, pxn, 1 + 8 * xn + 0x200 * low + 0x4000 * high + 0x8_0000 * base);
    SplitField(w, 4, pxn + 2, 4 * xn + 0x100 * low + 0x2000 * high + 0x4_0000 * base);
    SplitField(w, 0x10, pxn + 2, xn + 2 * (0x20 * low + 0x400 * high + 0x8000 * base));
    SplitField(w / 0x10, 2, xn, 0x20 * low + 0x400 * high + 0x8000 * base);
    SplitField(w, 0x400, pxn + 2 + 0x10 * xn, low + 4 * (8 * high + 0x100 * base));
    SplitField(w / 0x400, 4, low, 8 * high + 0x100 * base);
    SplitField(w, 0x8000, pxn + 2 + 0x10 * xn + 0x400 * low, high + 2 * (0x10 * base));
    SplitField(w / 0x8000, 2, high, 0x10 * base);
    SplitField(w, 0x4_0000, pxn + 2 + 0x10 * xn + 0x400 * low + 0x8000 * high, 2 * (2 * base));
    SplitField(w / 0x4_0000, 2, 0, 2 * base);
    SplitField(w, 0x10_0000, pxn + 2 + 0x10 * xn + 0x400 * low + 0x8000 * high, base);
  }

  lemma WalkReadsPackedL2(e: L2Entry)
    requires e.SmallPage? ==> e.base < 0x10_0000 && e.ap < 8
    ensures WalkL2(PackL2(e)) == Some(e) && PackL2(e) < WORD_SIZE
  {
    if e.SmallPage? {
      PageFields(PackL2(e), Bit(e.xn), e.ap % 4, e.ap / 4, e.base);
    }
  }

  lemma PageFields(w: nat, xn: nat, low: nat, high: nat, base: nat)
    requires xn < 2 && low < 4 && high < 2 && base < 0x10_0000
    requires w == xn + 0x2 + 0x10 * low + 0x200 * high + 0x1000 * base
    ensures w < WORD_SIZE && w % 4 == xn + 2 && w % 2 == xn
    ensures w / 0x10 % 4 == low && w / 0x200 % 2 == high && w / 0x1000 == base
  {
    SplitField(w, 2, xn, 1 + 8 * low + 0x100 * high + 0x800 * base);
    SplitField(w, 4, xn + 2, 4 * low + 0x80 * high + 0x400 * base);
    SplitField(w, 0x10, xn + 2, low + 4 * (8 * high + 0x40 * base));
    SplitField(w / 0x10, 4, low, 8 * high + 0x40 * base);
    SplitField(w, 0x200, xn + 2 + 0x10 * low, high + 2 * (4 * base));
    SplitField(w / 0x200, 2, high, 4 * base);
    SplitField(w, 0x1000, xn + 2 + 0x10 * low + 0x200 * high, base);
  }

  // ----- The tables -----

  /** Entry `j` of the table for stack `i`: a guard page at the bottom, then one page after the other. */
  function StackPage(i: nat, j: nat): L2Entry {
    if j == 0 then PageFault
    else SmallPageOf((USER_STACKS + i) * L2_SIZE + j, READ_WRITE, if i < USER_STACK_COUNT then READ_WRITE else NONE)
  }

  method InitialiseL2StackTables(l2: array2<L2Entry>)
    requires l2.Length0 == STACK_COUNT && l2.Length1 == L2_SIZE
    modifies l2
    ensures forall i, j :: 0 <= i < STACK_COUNT && 0 <= j < L2_SIZE ==> l2[i, j] == StackPage(i, j)
  {
    for i := 0 to USER_STACK_COUNT
      invariant forall a, b :: 0 <= a < i && 0 <= b < L2_SIZE ==> l2[a, b] == StackPage(a, b)
    {
      FillStackTable(l2, i, USER_STACKS * MiB + i * STACK_SIZE, READ_WRITE);
    }
    for i := 0 to STACK_COUNT - USER_STACK_COUNT
      invariant forall a, b :: 0 <= a < USER_STACK_COUNT + i && 0 <= b < L2_SIZE ==> l2[a, b] == StackPage(a, b)
    {
      FillStackTable(l2, USER_STACK_COUNT + i, KERNEL_STACKS * MiB + i * STACK_SIZE, NONE);
    }
  }

  /** The body both loops of `initialise_l2_stack_tables` share. */
  method FillStackTable(l2: array2<L2Entry>, i: nat, base: nat, up: Rights)
    requires l2.Length0 == STACK_COUNT && l2.Length1 == L2_SIZE && i < STACK_COUNT
    requires base == (USER_STACKS + i) * MiB && up == (if i < USER_STACK_COUNT then READ_WRITE else NONE)
    modifies l2
    ensures forall b :: 0 <= b < L2_SIZE ==> l2[i, b] == StackPage(i, b)
    ensures forall a, b :: 0 <= a < STACK_COUNT && a != i && 0 <= b < L2_SIZE ==> l2[a, b] == old(l2[a, b])
  {
    l2[i, 0] := PageFault;
    for j := 1 to L2_SIZE
      invariant forall b :: 0 <= b < j ==> l2[i, b] == StackPage(i, b)
      invariant forall a, b :: 0 <= a < STACK_COUNT && a != i && 0 <= b < L2_SIZE ==> l2[a, b] == old(l2[a, b])
    {
      l2[i, j] := SmallPageOf((base + j * PAGE) / PAGE, READ_WRITE, up);
    }
  }

  /** The handle of the `n`-th stack table; `tables` is the address of the first one in KiB. */
  function StackHandle(tables: nat, n: nat): L1Entry {
    Table(tables + n)
  }

  /** A run of sections described by one template (`address_range_starts`, `sections`). */
  datatype Range = Range(start: nat, end: nat, template: L1Entry)

  function Ranges(tables: nat): seq<Range> {
    [ Range(0, 1, Fault),
      Range(1, 2, SectionOf(1, READ_EXEC, NONE)),
      Range(2, 3, SectionOf(2, READ, NONE)),
      Range(3, 4, SectionOf(3, READ_WRITE, NONE)),
      Range(4, 5, SectionOf(4, READ_WRITE, READ_EXEC)),
      Range(5, 6, SectionOf(5, READ, READ)),
      Range(UDATA, UDATA_KERNEL_MAP, SectionOf(UDATA, READ_WRITE, READ_WRITE)),
      Range(UDATA_KERNEL_MAP, UDATA_ORIGINAL, SectionOf(UDATA_KERNEL_MAP, READ_WRITE, NONE)),
      Range(UDATA_ORIGINAL, 16, SectionOf(UDATA, READ, NONE)),
      Range(16, 0x3f0, Fault),
      Range(0x3f0, 0x3f3, SectionOf(0x3f0, READ_WRITE, NONE)),
      Range(0x3f3, USER_STACKS - 4, Fault),
      Range(USER_STACKS - 4, USER_STACKS, StackHandle(tables, 0)),
      Range(USER_STACKS, KERNEL_STACKS, SectionOf(USER_STACKS, READ_WRITE, NONE)),
      Range(KERNEL_STACKS, MEMORY_TOP, StackHandle(tables, 0)) ]
  }

  /** What a range puts at section `m`: sections are mapped onto themselves, kernel stacks get their own table. */
  function Instance(template: L1Entry, m: nat, tables: nat): L1Entry {
    match template
    case Fault => Fault
    case Section(_, ap, xn, pxn) => Section(m, ap, xn, pxn)
    case Table(_) => if m >= KERNEL_STACKS then StackHandle(tables, m - USER_STACKS) else template
  }

  /** The entry for section `m` once the ranges have been written in order. */
  function Filled(ranges: seq<Range>, m: nat, tables: nat): L1Entry {
    if ranges == [] then Fault else
    var r := ranges[|ranges| - 1];
    if r.start <= m < r.end then Instance(r.template, m, tables)
    else Filled(ranges[..|ranges| - 1], m, tables)
  }

  function InitialL1(m: nat, tables: nat): L1Entry {
    if m == UDATA_ORIGINAL then SectionOf(UDATA, READ, NONE) else Filled(Ranges(tables), m, tables)
  }

  method InitialiseL1Table(l1: array<L1Entry>, tables: nat)
    requires l1.Length == L1_SIZE && forall m :: 0 <= m < L1_SIZE ==> l1[m] == Fault
    modifies l1
    ensures forall m :: 0 <= m < L1_SIZE ==> l1[m] == MemoryMap(m, tables)
  {
    var ranges := Ranges(tables);
    for i := 0 to |ranges|
      invariant forall m :: 0 <= m < L1_SIZE ==> l1[m] == Filled(ranges[..i], m, tables)
    {
      FillRange(l1, ranges[i], tables);
      assert ranges[..i + 1][..i] == ranges[..i];
    }
    assert ranges[..|ranges|] == ranges;
    l1[UDATA_ORIGINAL] := SectionOf(UDATA, READ, NONE);
    forall m: nat | m < L1_SIZE
      ensures InitialL1(m, tables) == MemoryMap(m, tables)
    {
      InitialMap(m, tables);
    }
  }

  method FillRange(l1: array<L1Entry>, r: Range, tables: nat)
    requires l1.Length == L1_SIZE && r.end <= L1_SIZE
    modifies l1
    ensures forall m :: 0 <= m < L1_SIZE ==>
              l1[m] == if r.start <= m < r.end then Instance(r.template, m, tables) else old(l1[m])
  {
    var template := r.template;
    var j := r.start;
    while j < r.end
      invariant r.start <= j && (j <= r.end || j == r.start)
      invariant Instance(template, j, tables) == Instance(r.template, j, tables)
      invariant template.Table? == r.template.Table? && template.Section? == r.template.Section?
      invariant template.Table? && j < KERNEL_STACKS ==> template == r.template
      invariant template.Section? ==> template == r.template.(base := template.base)
      invariant forall m :: 0 <= m < L1_SIZE ==>
                  l1[m] == if r.start <= m < j then Instance(r.template, m, tables) else old(l1[m])
    {
      match template {
        case Fault =>
        case Section(_, _, _, _) => template := template.(base := j);
        case Table(_) =>
          if j >= KERNEL_STACKS {
            template := StackHandle(tables, j - USER_STACKS);
          }
      }
      l1[j] := template;
      j := j + 1;
    }
  }

  /** The sections the scheduler relies on, whatever it later puts into the two windows. */
  predicate KernelMap(l1: seq<L1Entry>) {
    && |l1| == L1_SIZE
    && l1[UDATA_ORIGINAL] == SectionOf(UDATA, READ, NONE)
    && (forall m :: UDATA_KERNEL_MAP <= m < UDATA_ORIGINAL ==> l1[m] == SectionOf(m, READ_WRITE, NONE))
    && (forall m :: USER_STACKS <= m < KERNEL_STACKS ==> l1[m] == SectionOf(m, READ_WRITE, NONE))
  }

  /** All entries but the data window's and those of the last `slots` sections below the user stacks. */
  ghost predicate FixedMap(l1: seq<L1Entry>, tables: nat, slots: nat)
    requires |l1| == L1_SIZE && slots <= 4
  {
    forall m: nat :: m < L1_SIZE && m != UDATA && !(USER_STACKS - slots <= m < USER_STACKS) ==>
      l1[m] == MemoryMap(m, tables)
  }

  /** The memory map, section by section, that the two loops build. */
  function MemoryMap(m: nat, tables: nat): L1Entry {
    if m == 1 then SectionOf(m, READ_EXEC, NONE)
    else if m == 2 then SectionOf(m, READ, NONE)
    else if m == 3 then SectionOf(m, READ_WRITE, NONE)
    else if m == 4 then SectionOf(m, READ_WRITE, READ_EXEC)
    else if m == 5 then SectionOf(m, READ, READ)
    else if m == UDATA then SectionOf(m, READ_WRITE, READ_WRITE)
    else if m == UDATA_ORIGINAL then SectionOf(UDATA, READ, NONE)
    else if UDATA_KERNEL_MAP <= m < UDATA_ORIGINAL || USER_STACKS <= m < KERNEL_STACKS || 0x3f0 <= m < 0x3f3
    then SectionOf(m, READ_WRITE, NONE)
    else if USER_STACKS - 4 <= m < USER_STACKS then StackHandle(tables, 0)
    else if KERNEL_STACKS <= m < MEMORY_TOP then StackHandle(tables, m - USER_STACKS)
    else Fault
  }

  lemma InitialMap(m: nat, tables: nat)
    ensures InitialL1(m, tables) == MemoryMap(m, tables)
  {
    FilledStep(tables, m, 15);
    FilledStep(tables, m, 14);
    FilledStep(tables, m, 13);
    FilledStep(tables, m, 12);
    FilledStep(tables, m, 11);
    FilledStep(tables, m, 10);
    FilledStep(tables, m, 9);
    FilledStep(tables, m, 8);
    FilledStep(tables, m, 7);
    FilledStep(tables, m, 6);
    FilledStep(tables, m, 5);
    FilledStep(tables, m, 4);
    FilledStep(tables, m, 3);
    FilledStep(tables, m, 2);
    FilledStep(tables, m, 1);
  }

  lemma FilledStep(tables: nat, m: nat, i: nat)
    requires 0 < i <= 15
    ensures var r := Ranges(tables);
            Filled(r[..i], m, tables) ==
            if r[i - 1].start <= m < r[i - 1].end then Instance(r[i - 1].template, m, tables)
            else Filled(r[..i - 1], m, tables)
    ensures Ranges(tables)[..15] == Ranges(tables)
  {
    assert Ranges(tables)[..i][..i - 1] == Ranges(tables)[..i - 1];
  }

  // ----- The walk -----

  /** The physical byte an address means, with the access bits that guard it. */
  datatype Location = Location(address: nat, ap: nat)

  /** Both levels of the walk. A handle of no stack table of ours is not followed. */
  function Translate(l1: seq<L1Entry>, tables: nat, va: Word): Option<Location>
    requires |l1| == L1_SIZE
  {
    match l1[va / MiB]
    case Fault => None
    case Section(base, ap, _, _) => Some(Location(base * MiB + va % MiB, ap))
    case Table(base) =>
      if tables <= base < tables + STACK_COUNT then
        match StackPage(base - tables, va % MiB / PAGE)
        case PageFault => None
        case SmallPage(page, ap, _) => Some(Location(page * PAGE + va % PAGE, ap))
      else None
  }

  /** A stack handle maps its megabyte onto the stack's own frame, all but the guard page. */
  lemma StackWindow(l1: seq<L1Entry>, tables: nat, va: Word, n: nat)
    requires |l1| == L1_SIZE && n < USER_STACK_COUNT && l1[va / MiB] == StackHandle(tables, n)
    ensures Translate(l1, tables, va) ==
            if va % MiB < PAGE then None else Some(Location((USER_STACKS + n) * MiB + va % MiB, 3))
  {
    var o := va % MiB;
    PageOffset(va, va / MiB, o);
    assert ((USER_STACKS + n) * L2_SIZE + o / PAGE) * PAGE + o % PAGE == (USER_STACKS + n) * MiB + o;
  }

  lemma PageOffset(va: nat, m: nat, o: nat)
    requires va == m * MiB + o && o < MiB
    ensures va % PAGE == o % PAGE && o / PAGE < L2_SIZE && (o / PAGE == 0 <==> o < PAGE)
  {
    assert va == PAGE * (m * L2_SIZE + o / PAGE) + o % PAGE;
  }

  /** The kernel's stacks are mapped onto themselves, but for their guard pages, and for the kernel alone. */
  lemma KernelStackWindow(l1: seq<L1Entry>, tables: nat, va: Word)
    requires |l1| == L1_SIZE && KERNEL_STACKS <= va / MiB < MEMORY_TOP
    requires l1[va / MiB] == StackHandle(tables, va / MiB - USER_STACKS)
    ensures Translate(l1, tables, va) == if va % MiB < PAGE then None else Some(Location(va, 1))
  {
    var m, o := va / MiB, va % MiB;
    PageOffset(va, m, o);
    assert (m * L2_SIZE + o / PAGE) * PAGE + o % PAGE == m * MiB + o;
  }

  // ----- What runs where -----

  /** User code can fetch an instruction at `va`. */
  predicate UserExecutes(l1: seq<L1Entry>, tables: nat, va: Word)
    requires |l1| == L1_SIZE
  {
    match l1[va / MiB]
    case Fault => false
    case Section(_, ap, xn, _) => UserMayExecute(ap, xn)
    case Table(base) =>
      tables <= base < tables + STACK_COUNT &&
      match StackPage(base - tables, va % MiB / PAGE)
      case PageFault => false
      case SmallPage(_, ap, xn) => UserMayExecute(ap, xn)
  }

  /** The kernel can; stack handles do not forbid it. */
  predicate KernelExecutes(l1: seq<L1Entry>, tables: nat, va: Word)
    requires |l1| == L1_SIZE
  {
    match l1[va / MiB]
    case Fault => false
    case Section(_, ap, xn, pxn) => KernelMayExecute(ap, xn, pxn)
    case Table(base) =>
      tables <= base < tables + STACK_COUNT &&
      match StackPage(base - tables, va % MiB / PAGE)
      case PageFault => false
      case SmallPage(_, ap, xn) => KernelMayExecute(ap, xn, false)
  }

  /** No stack can be executed, by anybody. */
  lemma StacksDoNotExecute(l1: seq<L1Entry>, tables: nat, va: Word)
    requires |l1| == L1_SIZE && l1[va / MiB].Table?
    ensures !UserExecutes(l1, tables, va) && !KernelExecutes(l1, tables, va)
  {
    var base := l1[va / MiB].base;
    if tables <= base < tables + STACK_COUNT && va % MiB / PAGE != 0 {
      var i := base - tables;
      PageGrants((USER_STACKS + i) * L2_SIZE + va % MiB / PAGE, READ_WRITE,
                 if i < USER_STACK_COUNT then READ_WRITE else NONE);
    }
    hide SmallPageOf, KernelMayExecute, UserMayExecute;
  }

  /** In the table that is built user code runs in the user text alone, and the kernel in its own text alone. */
  lemma InitialExecutes(l1: seq<L1Entry>, tables: nat, va: Word)
    requires |l1| == L1_SIZE && l1[va / MiB] == MemoryMap(va / MiB, tables)
    ensures UserExecutes(l1, tables, va) <==> va / MiB == 4
    ensures KernelExecutes(l1, tables, va) <==> va / MiB == 1
  {
    var m := va / MiB;
    if l1[m].Table? {
      StacksDoNotExecute(l1, tables, va);
    }
    SectionGrants(m, READ_EXEC, NONE);
    SectionGrants(m, READ, NONE);
    SectionGrants(m, READ_WRITE, NONE);
    SectionGrants(m, READ_WRITE, READ_EXEC);
    SectionGrants(m, READ, READ);
    SectionGrants(m, READ_WRITE, READ_WRITE);
    SectionGrants(UDATA, READ, NONE);
    hide KernelMayExecute, UserMayExecute;
  }
}
