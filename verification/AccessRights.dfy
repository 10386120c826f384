/** Who may read, write and execute what, in every state with a running user thread. */
module AccessRights {
  import opened Words
  import opened IntrusiveList
  import opened Mmu
  import opened SysTimer
  import opened Model
  import opened Invariant
  import opened Preservation
  import opened Machine
  import opened AddressSpaces

  /** User code can read the byte at `va`. */
  predicate UserReads(s: State, va: Word)
    requires |s.l1| == L1_SIZE
  {
    match Translate(s.l1, s.tables, va)
    case None => false
    case Some(loc) => UserMayRead(loc.ap)
  }

  /**
    The megabytes only the kernel maps: its code, constants and variables, all processes' data, the image,
    the devices, and the plain mapping of all user stacks. Its own stacks have a guard page each.
   */
  predicate KernelOnly(va: Word) {
    var m := va / MiB;
    || 1 <= m <= KERNEL_DATA || UDATA_KERNEL_MAP <= m <= UDATA_ORIGINAL || 0x3f0 <= m < 0x3f3
    || USER_STACKS <= m < KERNEL_STACKS || (KERNEL_STACKS <= m < MEMORY_TOP && va % MiB >= PAGE)
  }

  /** These are exactly the addresses a creating call copies from though its caller may not read there. */
  lemma KernelReadsMoreExactlyWhen(s: State, va: Word)
    requires Inv(s) && UserRunning(s)
    ensures Shape(s) && (KernelReads(s, va) && !UserReads(s, va) <==> KernelOnly(va))
    ensures UserReads(s, va) ==> KernelReads(s, va)
  {
    var m := va / MiB;
    RunningIsSeated(s);
    InvShape(s);
    if m == UDATA {
      WindowFollowsRunning(s, va);
    } else if USER_STACKS - 4 <= m < USER_STACKS {
      WindowIsForUsers(s, va);
    } else if KERNEL_STACKS <= m < MEMORY_TOP {
      KernelStackPage(s, va);
    } else {
      assert s.l1[m] == MemoryMap(m, s.tables);
    }
    hide Inv, Shape;
  }

  lemma WindowIsForUsers(s: State, va: Word)
    requires Inv(s) && UserRunning(s) && USER_STACKS - 4 <= va / MiB < USER_STACKS
    ensures |s.l1| == L1_SIZE
    ensures Translate(s.l1, s.tables, va) == None || UserReads(s, va)
  {
    var m := va / MiB;
    RunningIsSeated(s);
    var pid := s.blocks[s.running[0]].pid;
    if USER_STACKS - s.cfg.slots <= m {
      assert ShowsAt(s.l1, s.handles[pid], s.stale, s.tables, Users(s.cfg), USER_STACKS - 1 - m);
      if s.l1[m] != Fault {
        var n: nat :| n < Users(s.cfg) && s.l1[m] == StackHandle(s.tables, n);
        StackWindow(s.l1, s.tables, va, n);
      }
    } else {
      assert s.l1[m] == MemoryMap(m, s.tables);
      StackWindow(s.l1, s.tables, va, 0);
    }
  }

  lemma KernelStackPage(s: State, va: Word)
    requires Inv(s) && KERNEL_STACKS <= va / MiB < MEMORY_TOP
    ensures |s.l1| == L1_SIZE
    ensures !UserReads(s, va) && (KernelReads(s, va) <==> va % MiB >= PAGE)
  {
    assert s.l1[va / MiB] == MemoryMap(va / MiB, s.tables);
    PageOffset(va, va / MiB, va % MiB);
    hide Inv;
  }

  /** A stack window with a stack behind it, above the guard page. */
  predicate OpenWindow(s: State, va: Word)
    requires |s.l1| == L1_SIZE
  {
    USER_STACKS - 4 <= va / MiB < USER_STACKS && StackBehind(s, va / MiB).Some? && va % MiB >= PAGE
  }

  predicate UserWrites(s: State, va: Word)
    requires |s.l1| == L1_SIZE
  {
    match Translate(s.l1, s.tables, va)
    case None => false
    case Some(loc) => UserMayWrite(loc.ap)
  }

  predicate KernelWrites(s: State, va: Word)
    requires |s.l1| == L1_SIZE
  {
    match Translate(s.l1, s.tables, va)
    case None => false
    case Some(loc) => KernelMayWrite(loc.ap)
  }

  /** What the entry of a stack window lets be done: everything but execution, or nothing. */
  lemma WindowRights(s: State, va: Word)
    requires Inv(s) && UserRunning(s) && USER_STACKS - 4 <= va / MiB < USER_STACKS
    ensures |s.l1| == L1_SIZE
    ensures UserReads(s, va) == UserWrites(s, va) == KernelWrites(s, va) == OpenWindow(s, va)
    ensures !UserExecutes(s.l1, s.tables, va) && !KernelExecutes(s.l1, s.tables, va)
  {
    var m := va / MiB;
    RunningIsSeated(s);
    var pid := s.blocks[s.running[0]].pid;
    if USER_STACKS - s.cfg.slots <= m {
      assert ShowsAt(s.l1, s.handles[pid], s.stale, s.tables, Users(s.cfg), USER_STACKS - 1 - m);
      if s.l1[m] != Fault {
        var n: nat :| n < Users(s.cfg) && s.l1[m] == StackHandle(s.tables, n);
        StackWindow(s.l1, s.tables, va, n);
        StacksDoNotExecute(s.l1, s.tables, va);
      }
    } else {
      assert s.l1[m] == MemoryMap(m, s.tables);
      StackWindow(s.l1, s.tables, va, 0);
      StacksDoNotExecute(s.l1, s.tables, va);
    }
    hide Inv;
  }

  /** The entry of any other megabyte is the one of the memory map, but for the frame of the data window. */
  lemma FixedEntry(s: State, m: nat)
    requires Inv(s) && m < L1_SIZE && !(USER_STACKS - 4 <= m < USER_STACKS)
    ensures |s.l1| == L1_SIZE
    ensures m != UDATA ==> s.l1[m] == MemoryMap(m, s.tables)
    ensures m == UDATA ==> s.l1[m] == SectionOf(s.l1[m].base, READ_WRITE, READ_WRITE)
  {
  }

  /**
    User code reads the text, constants and data of its process and its open stack windows, writes its data
    and open stack windows, and runs in the text alone. The kernel runs in its own text alone.
   */
  lemma UserRights(s: State, va: Word)
    requires Inv(s) && UserRunning(s)
    ensures |s.l1| == L1_SIZE
    ensures UserReads(s, va) <==> 4 <= va / MiB <= 6 || OpenWindow(s, va)
    ensures UserWrites(s, va) <==> va / MiB == 6 || OpenWindow(s, va)
    ensures UserExecutes(s.l1, s.tables, va) <==> va / MiB == 4
    ensures KernelExecutes(s.l1, s.tables, va) <==> va / MiB == 1
  {
    var m := va / MiB;
    InvShape(s);
    if USER_STACKS - 4 <= m < USER_STACKS {
      WindowRights(s, va);
    } else {
      FixedEntry(s, m);
      hide Inv;
      if m == UDATA {
        SectionGrants(s.l1[m].base, READ_WRITE, READ_WRITE);
      } else {
        InitialExecutes(s.l1, s.tables, va);
        if KERNEL_STACKS <= m < MEMORY_TOP {
          KernelStackWindow(s.l1, s.tables, va);
        }
      }
    }
  }

  /** The kernel writes all data, the devices and all stacks; texts, constants and the image it does not. */
  lemma KernelRights(s: State, va: Word)
    requires Inv(s) && UserRunning(s)
    ensures |s.l1| == L1_SIZE
    ensures KernelWrites(s, va) <==>
              (|| 3 <= va / MiB <= 4 || UDATA <= va / MiB < UDATA_ORIGINAL || 0x3f0 <= va / MiB < 0x3f3
               || USER_STACKS <= va / MiB < KERNEL_STACKS
               || (KERNEL_STACKS <= va / MiB < MEMORY_TOP && va % MiB >= PAGE) || OpenWindow(s, va))
  {
    var m := va / MiB;
    InvShape(s);
    if USER_STACKS - 4 <= m < USER_STACKS {
      WindowRights(s, va);
    } else {
      FixedEntry(s, m);
      hide Inv;
      if KERNEL_STACKS <= m < MEMORY_TOP {
        KernelStackWindow(s.l1, s.tables, va);
      }
    }
  }

  /** What is mapped outside the windows is mapped onto itself, but for the image, which is the data section's frame. */
  lemma MapsOntoItself(s: State, va: Word)
    requires Inv(s) && va / MiB != UDATA && !(USER_STACKS - 4 <= va / MiB < USER_STACKS)
    ensures |s.l1| == L1_SIZE
    ensures var loc := Translate(s.l1, s.tables, va);
            loc.Some? ==> loc.value.address == if va / MiB == UDATA_ORIGINAL then UDATA * MiB + va % MiB else va
  {
    var m := va / MiB;
    FixedEntry(s, m);
    hide Inv;
    if KERNEL_STACKS <= m < MEMORY_TOP {
      KernelStackWindow(s.l1, s.tables, va);
    }
  }
}
