/**
  The stack windows: what a thread finds at its stack pointer, whose stack a user store reaches
  through which slot, and when a thread runs without its own stack.
 */
module Stacks {
  import opened Words
  import opened IntrusiveList
  import opened Mmu
  import opened SysTimer
  import opened Model
  import opened Invariant
  import opened Preservation
  import opened Machine
  import opened AddressSpaces

  // ----- Arguments -----

  /**
    A new thread's arguments lie at the top of its stack frame and nothing else is written; sp and r0 are
    their virtual address.
   */
  lemma ArgumentsAreStored(s: State, pid: nat, slot: nat, func: Word, args: seq<Byte>, env: Env, k: nat)
    requires Inv(s) && s.finished != [] && pid < s.cfg.spaces && slot < s.cfg.slots && k < |args| <= STACK_SIZE
    ensures var r := StartThread(s, pid, slot, func, args, env);
            var t := s.finished[0];
            && t < |r.blocks| && r.blocks[t].regs.sp == (USER_STACKS - slot) * MiB - Align8(|args|)
            && r.blocks[t].regs.general[0] == r.blocks[t].regs.sp
            && |r.mem| == |s.mem| == MEMORY_SIZE
            && r.mem[(USER_STACKS + t + 1) * MiB - Align8(|args|) + k] == args[k]
    ensures var r := StartThread(s, pid, slot, func, args, env);
            var at := (USER_STACKS + s.finished[0] + 1) * MiB - Align8(|args|);
            forall a: nat :: a < at || at + |args| <= a < MEMORY_SIZE ==> a < |s.mem| && r.mem[a] == s.mem[a]
  {
    ArgumentPlace(s, args);
  }

  /** Through its slot's stack entry a thread reads the bytes the kernel wrote, except in the guard page. */
  lemma MappingsAgree(l1: seq<L1Entry>, tables: nat, slot: nat, t: nat, size: nat, k: nat)
    requires |l1| == L1_SIZE && slot < 4 && t < USER_STACK_COUNT && k < size <= STACK_SIZE
    requires l1[USER_STACKS - 1 - slot] == StackHandle(tables, t)
    ensures var va := (USER_STACKS - slot) * MiB - Align8(size) + k;
            Translate(l1, tables, va) ==
            if MiB - Align8(size) + k < PAGE then None
            else Some(Location((USER_STACKS + t + 1) * MiB - Align8(size) + k, 3))
  {
    var o := MiB - Align8(size) + k;
    var va := (USER_STACKS - slot) * MiB - Align8(size) + k;
    assert va == (USER_STACKS - 1 - slot) * MiB + o;
    FrameOf(USER_STACKS - 1 - slot, o);
    assert va % MiB == o;
    StackWindow(l1, tables, va, t);
  }

  /**
    All arguments are readable exactly when they leave the guard page free. The size check of
    the system calls lets sizes through for which they do not.
   */
  lemma ArgumentsReadableExactlyWhen(l1: seq<L1Entry>, tables: nat, slot: nat, t: nat, size: nat)
    requires |l1| == L1_SIZE && slot < 4 && t < USER_STACK_COUNT && 0 < size <= STACK_SIZE
    requires l1[USER_STACKS - 1 - slot] == StackHandle(tables, t)
    ensures AllReadable(l1, tables, (USER_STACKS - slot) * MiB - Align8(size), size)
            <==> Align8(size) <= STACK_SIZE - PAGE
  {
    var sp := (USER_STACKS - slot) * MiB - Align8(size);
    MappingsAgree(l1, tables, slot, t, size, 0);
    assert Readable(l1, tables, sp, 0) <==> Align8(size) <= STACK_SIZE - PAGE;
    forall k: nat | k < size && Align8(size) <= STACK_SIZE - PAGE
      ensures Readable(l1, tables, sp, k)
    {
      MappingsAgree(l1, tables, slot, t, size, k);
    }
  }

  predicate Readable(l1: seq<L1Entry>, tables: nat, sp: nat, k: nat)
    requires |l1| == L1_SIZE
  {
    sp + k < WORD_SIZE && Translate(l1, tables, sp + k).Some?
  }

  ghost predicate AllReadable(l1: seq<L1Entry>, tables: nat, sp: nat, size: nat)
    requires |l1| == L1_SIZE
  {
    forall k: nat :: k < size ==> Readable(l1, tables, sp, k)
  }

  // ----- Whose stack a slot reaches -----

  /** The megabyte of slot `q`. */
  function SlotEntry(q: nat): nat
    requires q < 4
  {
    USER_STACKS - 1 - q
  }

  function RunningProcess(s: State): (pid: nat)
    requires Inv(s) && UserRunning(s)
    ensures pid < s.cfg.spaces && s.blocks[s.running[0]].pid == pid
  {
    RunningIsSeated(s);
    s.blocks[s.running[0]].pid
  }

  /** The byte of thread `t`'s stack at the offset of `va` in its megabyte. */
  function StackByte(t: nat, va: Word): nat {
    (USER_STACKS + t) * MiB + va % MiB
  }

  /** A store through a slot lands in the stack the slot's entry maps, or in the guard page. */
  lemma StoreThroughSlot(s: State, va: Word, q: nat)
    requires Inv(s) && UserRunning(s) && q < s.cfg.slots && va / MiB == SlotEntry(q)
    ensures StackBehind(s, SlotEntry(q)).Some? ==> StackBehind(s, SlotEntry(q)).value < Users(s.cfg)
    ensures Target(s, va) ==
            match StackBehind(s, SlotEntry(q))
            case None => None
            case Some(t) => if va % MiB < PAGE then None else Some(StackByte(t, va))
  {
    var e := s.l1[SlotEntry(q)];
    assert ShowsAt(s.l1, s.handles[RunningProcess(s)], s.stale, s.tables, Users(s.cfg), q);
    if e != Fault {
      var t: nat :| t < Users(s.cfg) && e == StackHandle(s.tables, t);
      StackWindow(s.l1, s.tables, va, t);
      FrameEnd(USER_STACKS + t, va % MiB);
    }
  }

  lemma FrameEnd(f: nat, o: nat)
    requires f < MEMORY_TOP && o < MiB
    ensures f * MiB + o < MEMORY_SIZE
  {
  }

  /** A slot that is not stale shows the stack its row names. */
  lemma SlotShowsRow(s: State, q: nat, t: nat)
    requires Inv(s) && UserRunning(s) && q < s.cfg.slots && q !in s.stale && t < USER_STACK_COUNT
    ensures StackBehind(s, SlotEntry(q)) == Some(t) <==> s.handles[RunningProcess(s)][q] == StackHandle(s.tables, t)
  {
    assert ShowsAt(s.l1, s.handles[RunningProcess(s)], s.stale, s.tables, Users(s.cfg), q);
  }

  /** Through a used slot that is not stale a process stores to the stack of its own thread in that slot. */
  lemma UsedSlotIsOwn(s: State, va: Word, q: nat)
    requires Inv(s) && UserRunning(s) && q < s.cfg.slots && va / MiB == SlotEntry(q) && va % MiB >= PAGE
    requires Used(s, RunningProcess(s), q) && q !in s.stale
    ensures exists t: nat :: Holds(s, t, RunningProcess(s), q) && Target(s, va) == Some(StackByte(t, va))
  {
    var pid := RunningProcess(s);
    assert Occupied(s, pid, q);
    var t: nat :| Holds(s, t, pid, q);
    assert Seated(s, t);
    SlotShowsRow(s, q, t);
    StoreThroughSlot(s, va, q);
  }

  /** The store reaches the stack of a live thread of another process. */
  ghost predicate ReachesOther(s: State, va: Word)
    requires Inv(s) && UserRunning(s)
  {
    exists t: nat :: Live(s, t) && s.blocks[t].pid != RunningProcess(s) && Target(s, va) == Some(StackByte(t, va))
  }

  /** The row of process `p` still names the stack of a thread that is now live in another process. */
  ghost predicate Leftover(s: State, p: nat, q: nat)
    requires Shape(s) && p < s.cfg.spaces && q < s.cfg.slots
  {
    exists t: nat :: Live(s, t) && s.blocks[t].pid != p && s.handles[p][q] == StackHandle(s.tables, t)
  }

  /** The entry of megabyte `m` maps the stack of a live thread of another process than the running one. */
  predicate OtherBehind(s: State, m: nat)
    requires Inv(s) && UserRunning(s) && m < L1_SIZE
  {
    var t := StackBehind(s, m);
    t.Some? && Live(s, t.value) && s.blocks[t.value].pid != RunningProcess(s)
  }

  /** A store, wherever it goes, reaches a live stack of another process exactly when its entry maps one. */
  lemma StoreReachesOtherExactlyWhen(s: State, va: Word)
    requires Inv(s) && UserRunning(s)
    ensures ReachesOther(s, va) <==> va % MiB >= PAGE && OtherBehind(s, va / MiB)
  {
    if OtherBehind(s, va / MiB) {
      StoreThroughEntry(s, va, StackBehind(s, va / MiB).value);
    }
    if ReachesOther(s, va) {
      var t: nat :| Live(s, t) && s.blocks[t].pid != RunningProcess(s) && Target(s, va) == Some(StackByte(t, va));
      StoreIntoStack(s, va, t);
      StoreThroughEntry(s, va, t);
    }
    hide Inv, Target, StackBehind, UserRunning, Live;
  }

  lemma StoreThroughEntry(s: State, va: Word, t: nat)
    requires Inv(s) && StackBehind(s, va / MiB) == Some(t)
    ensures Shape(s) && Target(s, va) == if va % MiB < PAGE then None else Some(StackByte(t, va))
  {
    StackWindow(s.l1, s.tables, va, t);
    FrameEnd(USER_STACKS + t, va % MiB);
  }

  lemma StoreIntoStack(s: State, va: Word, t: nat)
    requires Inv(s) && UserRunning(s) && Target(s, va) == Some(StackByte(t, va))
    ensures StackBehind(s, va / MiB) == Some(t)
  {
    StoreStaysInUserMemory(s, va);
    hide Target, StackBehind;
    var pid := RunningProcess(s);
    InvShape(s);
    hide Inv;
    FrameNumber(StackByte(t, va), USER_STACKS + t, va % MiB);
    if va / MiB != UDATA {
      FrameNumber(StackByte(t, va), USER_STACKS + StackBehind(s, va / MiB).value, va % MiB);
    }
  }

  lemma FrameNumber(a: nat, f: nat, o: nat)
    requires o < MiB && a == f * MiB + o
    ensures a / MiB == f
  {
  }

  /**
    The entry of a slot that is not stale maps such a stack exactly when the process's row still names
    one: a handle left behind by a thread that exited here and was started there.
   */
  lemma RowNamesOther(s: State, q: nat)
    requires Inv(s) && UserRunning(s) && q < s.cfg.slots && q !in s.stale
    ensures OtherBehind(s, SlotEntry(q)) <==> Leftover(s, RunningProcess(s), q)
  {
    var pid := RunningProcess(s);
    if Leftover(s, pid, q) {
      var t: nat :| Live(s, t) && s.blocks[t].pid != pid && s.handles[pid][q] == StackHandle(s.tables, t);
      SlotShowsRow(s, q, t);
    }
    if OtherBehind(s, SlotEntry(q)) {
      SlotShowsRow(s, q, StackBehind(s, SlotEntry(q)).value);
    }
    hide Inv, StackBehind, UserRunning;
  }

  /** A slot in use has no such handle in its row, so that while it is not stale it reaches no other process. */
  lemma UsedSlotHasNoLeftover(s: State, p: nat, q: nat)
    requires Inv(s) && p < s.cfg.spaces && q < s.cfg.slots && Used(s, p, q)
    ensures !Leftover(s, p, q)
    ensures UserRunning(s) && p == RunningProcess(s) && q !in s.stale ==> !OtherBehind(s, SlotEntry(q))
  {
    assert Occupied(s, p, q);
    var u: nat :| Holds(s, u, p, q);
    assert Seated(s, u);
    forall t: nat | Live(s, t) && s.handles[p][q] == StackHandle(s.tables, t)
      ensures s.blocks[t].pid == p
    {
      assert t == u;
    }
    if UserRunning(s) && p == RunningProcess(s) && q !in s.stale {
      RowNamesOther(s, q);
    }
  }

  /**
    Handing a slot out to a new thread corrects the row but not the entry: the slot is in use, its row
    names its own thread, and stores through it go on reaching whoever they reached before. If the slot
    was not stale, that is another process exactly when the row had a handle left over before the call.
   */
  lemma HandedOutSlotStillReaches(s: State, q: nat, func: Word, args: seq<Byte>, env: Env, va: Word)
    requires Inv(s) && UserRunning(s) && s.finished != [] && |args| <= STACK_SIZE
    requires q < s.cfg.slots && !Used(s, RunningProcess(s), q) && va / MiB == SlotEntry(q)
    ensures var p := RunningProcess(s);
            var r := StartThread(s, p, q, func, args, env);
            && Inv(r) && UserRunning(r) && RunningProcess(r) == p && r.cfg == s.cfg
            && Used(r, p, q) && q in r.stale && !Leftover(r, p, q)
            && (ReachesOther(r, va) <==> ReachesOther(s, va))
            && (q !in s.stale ==> (ReachesOther(r, va) <==> va % MiB >= PAGE && Leftover(s, p, q)))
  {
    var p := RunningProcess(s);
    HandedOut(s, q, func, args, env);
    hide *;
    var r := StartThread(s, p, q, func, args, env);
    StoreReachesOtherExactlyWhen(s, va);
    StoreReachesOtherExactlyWhen(r, va);
    UsedSlotHasNoLeftover(r, p, q);
    if q !in s.stale {
      RowNamesOther(s, q);
    }
  }

  lemma HandedOut(s: State, q: nat, func: Word, args: seq<Byte>, env: Env)
    requires Inv(s) && UserRunning(s) && s.finished != [] && |args| <= STACK_SIZE
    requires q < s.cfg.slots && !Used(s, RunningProcess(s), q)
    ensures var p := RunningProcess(s);
            var r := StartThread(s, p, q, func, args, env);
            && Inv(r) && UserRunning(r) && RunningProcess(r) == p && r.cfg == s.cfg && Shape(r)
            && Used(r, p, q) && q in r.stale && SlotEntry(q) < L1_SIZE
            && StackBehind(r, SlotEntry(q)) == StackBehind(s, SlotEntry(q))
            && (OtherBehind(r, SlotEntry(q)) <==> OtherBehind(s, SlotEntry(q)))
  {
    var p := RunningProcess(s);
    StartThreadKeepsInv(s, p, q, func, args, env);
    StartThreadLives(s, p, q, func, args, env);
    RunningIsSeated(s);
    InvShape(s);
    hide Inv, Shape;
  }

  /**
    How a handle is left over: after the running thread has ended, the next thread started is the same
    control block with the same stack, and the handle is left over exactly when it starts in another process.
   */
  lemma NextThreadInheritsStack(s: State, pid: nat, slot: nat, func: Word, args: seq<Byte>, env: Env)
    requires Inv(s) && UserRunning(s) && pid < s.cfg.spaces && slot < s.cfg.slots && |args| <= STACK_SIZE
    ensures s.blocks[s.running[0]].pid < s.cfg.spaces && s.blocks[s.running[0]].slot < s.cfg.slots
    ensures s.running[0] in s.spaces[s.blocks[s.running[0]].pid]
    ensures var t := s.running[0];
            var p, q := s.blocks[t].pid, s.blocks[t].slot;
            var r := StartThread(CleanupThread(s), pid, slot, func, args, env);
            Live(r, t) && (Leftover(r, p, q) <==> pid != p)
  {
    RunningIsSeated(s);
    CleanupKeepsInv(s);
    var t, c := s.running[0], CleanupThread(s);
    var p, q := s.blocks[t].pid, s.blocks[t].slot;
    StartThreadLives(c, pid, slot, func, args, env);
    var r := StartThread(c, pid, slot, func, args, env);
    if pid == p {
      forall u: nat | Live(r, u) && r.blocks[u].pid != p
        ensures r.handles[p][q] != StackHandle(r.tables, u)
      {
      }
    }
  }

  // ----- Whether a thread sees its own stack -----

  predicate SeesOwnStack(s: State)
    requires Inv(s) && UserRunning(s)
  {
    RunningIsSeated(s);
    StackBehind(s, SlotEntry(s.blocks[s.running[0]].slot)) == Some(s.running[0])
  }

  /** The switch to `t` loads the stack entries. */
  predicate Reloads(s: State, t: nat)
    requires Inv(s) && t < |s.blocks|
  {
    s.running == [] || s.blocks[s.running[0]].pid != s.blocks[t].pid
  }

  /**
    A thread switched in sees its own stack exactly when the switch loads the stack entries, or they were
    loaded after the thread's slot was handed out, or the slot's old entry happens to map it. Without a load
    the thread sees the stack that entry maps, whosever it is.
   */
  lemma SwitchInShowsOwnStack(s: State, forced: bool, env: Env)
    requires Inv(s) && MaySwitch(s, forced) && Switches(s, forced) && UserRunning(RoundRobin(s, forced, env))
    ensures Inv(RoundRobin(s, forced, env))
    ensures var r := RoundRobin(s, forced, env);
            var t := r.running[0];
            && t < |s.blocks| && s.blocks[t].slot < s.cfg.slots
            && (SeesOwnStack(r) <==>
                Reloads(s, t) || s.blocks[t].slot !in s.stale
                || StackBehind(s, SlotEntry(s.blocks[t].slot)) == Some(t))
            && (!Reloads(s, t) ==>
                  StackBehind(r, SlotEntry(s.blocks[t].slot)) == StackBehind(s, SlotEntry(s.blocks[t].slot)))
  {
    RoundRobinKeepsInv(s, forced, env);
    SwitchMap(s, forced, env);
    hide *;
    var r := RoundRobin(s, forced, env);
    SeesOwnStackIs(r);
    LiveRow(r);
  }

  /** What a switch does to the entries, and to what they are compared with. */
  lemma SwitchMap(s: State, forced: bool, env: Env)
    requires Inv(s) && MaySwitch(s, forced) && Switches(s, forced) && UserRunning(RoundRobin(s, forced, env))
    requires Inv(RoundRobin(s, forced, env))
    ensures var r := RoundRobin(s, forced, env);
            var t := r.running[0];
            && t < |s.blocks| && t < |r.blocks|
            && r.blocks[t].slot == s.blocks[t].slot < s.cfg.slots == r.cfg.slots <= 4
            && |s.l1| == L1_SIZE && SlotEntry(s.blocks[t].slot) < L1_SIZE
            && (Reloads(s, t) ==> r.stale == {})
            && (!Reloads(s, t) ==> r.stale == s.stale)
            && (!Reloads(s, t) ==>
                  StackBehind(r, SlotEntry(s.blocks[t].slot)) == StackBehind(s, SlotEntry(s.blocks[t].slot)))
  {
    RunningIsSeated(RoundRobin(s, forced, env));
  }

  /** The running thread's row names its own stack, and so does the entry unless the slot is stale. */
  lemma LiveRow(s: State)
    requires Inv(s) && UserRunning(s)
    ensures s.running[0] < |s.blocks|
    ensures s.blocks[s.running[0]].slot !in s.stale ==> SeesOwnStack(s)
  {
    RunningIsSeated(s);
    var b := s.blocks[s.running[0]];
    assert ShowsAt(s.l1, s.handles[b.pid], s.stale, s.tables, Users(s.cfg), b.slot);
  }

  /**
    The stale case is real. A thread created by a lone running thread is switched in by the next round
    robin with the stack entry its slot had before. It runs on the stack its process's row named before the
    call: its own if that was the one, nobody's if none, and the one of a live thread of another process if
    its handle was left over there.
   */
  lemma FreshThreadMayMissItsStack(s: State, slot: nat, func: Word, args: seq<Byte>, env: Env)
    requires Inv(s) && UserRunning(s) && s.ready == [] && s.finished != [] && |args| <= STACK_SIZE
    requires slot < s.cfg.slots && !Used(s, RunningProcess(s), slot)
    ensures var t, p := s.finished[0], RunningProcess(s);
            var r1 := StartThread(s, p, slot, func, args, env);
            var r2 := RoundRobin(r1, false, env);
            && Inv(r2) && r2.running == [t] && UserRunning(r2) && r2.blocks[t].slot == slot
            && StackBehind(r2, SlotEntry(slot)) == StackBehind(s, SlotEntry(slot))
            && (SeesOwnStack(r2) <==> StackBehind(s, SlotEntry(slot)) == Some(t))
            && (OtherBehind(r2, SlotEntry(slot)) <==> OtherBehind(s, SlotEntry(slot)))
            && (slot !in s.stale ==>
                  && (SeesOwnStack(r2) <==> s.handles[p][slot] == StackHandle(s.tables, t))
                  && (OtherBehind(r2, SlotEntry(slot)) <==> Leftover(s, p, slot)))
  {
    var t, p := s.finished[0], RunningProcess(s);
    var r1 := StartThread(s, p, slot, func, args, env);
    HandedOut(s, slot, func, args, env);
    RoundRobinKeepsInv(r1, false, env);
    FreshSwitch(s, p, slot, func, args, env);
    RowInRange(s, slot);
    if slot !in s.stale {
      RowNamesOther(s, slot);
      SlotShowsRow(s, slot, t);
    }
    hide *;
    SeesOwnStackIs(RoundRobin(r1, false, env));
  }

  lemma RowInRange(s: State, q: nat)
    requires Inv(s) && UserRunning(s) && q < s.cfg.slots
    ensures Shape(s) && |s.l1| == L1_SIZE && SlotEntry(q) < L1_SIZE
    ensures RunningProcess(s) < |s.handles| && q < |s.handles[RunningProcess(s)]| && q < 4
  {
  }

  lemma SeesOwnStackIs(s: State)
    requires Inv(s) && UserRunning(s)
    ensures s.running[0] < |s.blocks| && s.blocks[s.running[0]].slot < 4 && |s.l1| == L1_SIZE
    ensures SlotEntry(s.blocks[s.running[0]].slot) < L1_SIZE
    ensures SeesOwnStack(s) <==> StackBehind(s, SlotEntry(s.blocks[s.running[0]].slot)) == Some(s.running[0])
  {
    RunningIsSeated(s);
  }

  lemma FreshSwitch(s: State, pid: nat, slot: nat, func: Word, args: seq<Byte>, env: Env)
    requires Inv(s) && UserRunning(s) && s.ready == [] && s.finished != [] && |args| <= STACK_SIZE
    requires slot < s.cfg.slots && RunningProcess(s) == pid && !Used(s, pid, slot)
    ensures var t := s.finished[0];
            var r1 := StartThread(s, pid, slot, func, args, env);
            var r := RoundRobin(r1, false, env);
            && Inv(r1) && UserRunning(r1) && Inv(r)
            && r.running == [t] && t < Users(s.cfg) && t < USER_STACK_COUNT && UserRunning(r)
            && t < |r.blocks| && r.blocks[t].slot == slot && |r.l1| == L1_SIZE && SlotEntry(slot) < L1_SIZE
            && StackBehind(r, SlotEntry(slot)) == StackBehind(r1, SlotEntry(slot))
            && (OtherBehind(r, SlotEntry(slot)) <==> OtherBehind(r1, SlotEntry(slot)))
  {
    HandedOut(s, slot, func, args, env);
    var r1 := StartThread(s, pid, slot, func, args, env);
    RoundRobinKeepsInv(r1, false, env);
    FreshFields(s, pid, slot, func, args, env);
    hide *;
    SameBehind(r1, RoundRobin(r1, false, env), SlotEntry(slot));
  }

  lemma FreshFields(s: State, pid: nat, slot: nat, func: Word, args: seq<Byte>, env: Env)
    requires Inv(s) && UserRunning(s) && s.ready == [] && s.finished != [] && |args| <= STACK_SIZE
    requires slot < s.cfg.slots && RunningProcess(s) == pid
    ensures var t := s.finished[0];
            var r1 := StartThread(s, pid, slot, func, args, env);
            var r := RoundRobin(r1, false, env);
            && r.running == [t] && t < Users(s.cfg) <= USER_STACK_COUNT && UserRunning(r) && UserRunning(r1)
            && t < |r.blocks| && r.blocks[t].slot == slot && |r.l1| == L1_SIZE && SlotEntry(slot) < L1_SIZE
            && SameMap(r1, r)
  {
    StartThreadLives(s, pid, slot, func, args, env);
    ListedIsLive(s, s.running[0]);
  }

  /** The same entries, for the same process, and the same threads live in the same processes. */
  ghost predicate SameMap(s: State, r: State) {
    && r.cfg == s.cfg && r.finished == s.finished && r.l1 == s.l1 && r.tables == s.tables
    && |r.blocks| == |s.blocks| && (forall t: nat :: t < |s.blocks| ==> r.blocks[t].pid == s.blocks[t].pid)
    && s.running != [] && r.running != [] && s.running[0] < |s.blocks| && r.running[0] < |s.blocks|
    && r.blocks[r.running[0]].pid == s.blocks[s.running[0]].pid
  }

  lemma SameBehind(s: State, r: State, m: nat)
    requires Inv(s) && Inv(r) && UserRunning(s) && UserRunning(r) && SameMap(s, r) && m < L1_SIZE
    ensures |s.l1| == |r.l1| == L1_SIZE && StackBehind(r, m) == StackBehind(s, m)
    ensures OtherBehind(r, m) <==> OtherBehind(s, m)
  {
  }

  // ----- Over runs -----

  /** The running thread stores through an entry that maps the stack of thread `t`. */
  predicate StoresStack(s: State, e: Event, t: nat)
    requires Inv(s)
  {
    !s.panicked && e.Store? && UserRunning(s) && StackBehind(s, e.va / MiB) == Some(t)
  }

  lemma StackStores(s: State, e: Event, t: nat)
    requires Inv(s) && t < USER_STACK_COUNT && StoresFrame(s, e, USER_STACKS + t)
    ensures StoresStack(s, e, t)
  {
    StoreStaysInUserMemory(s, e.va);
    InvShape(s);
    RunningIsSeated(s);
    if e.va / MiB != UDATA {
      FrameNumber(Target(s, e.va).value, USER_STACKS + StackBehind(s, e.va / MiB).value, e.va % MiB);
    }
  }

  /** The step starts thread `t`. */
  predicate Starts(s: State, e: Event, env: Env, t: nat)
    requires Inv(s)
  {
    !Live(s, t) && Live(Step(s, e, env), t)
  }

  /** During the run nobody stores through an entry that maps the stack of `t`, and `t` is not started. */
  ghost predicate LeftAlone(s: State, es: seq<Event>, env: Env, t: nat)
    requires Inv(s)
    decreases |es|
  {
    es == [] || (!StoresStack(s, es[0], t) && !Starts(s, es[0], env, t)
            && LeftAlone(Step(s, es[0], env), es[1..], env, t))
  }

  /** Then its stack stays as it is, whatever else goes on. */
  lemma {:induction false} StackIsPrivate(s: State, es: seq<Event>, env: Env, t: nat)
    requires Inv(s) && t < USER_STACK_COUNT && LeftAlone(s, es, env, t)
    ensures Shape(s) && Shape(Run(s, es, env))
    ensures Frame(Run(s, es, env).mem, USER_STACKS + t) == Frame(s.mem, USER_STACKS + t)
    decreases |es|
  {
    hide Inv, Shape, Step, Creates, StoresStack, Starts, StoresFrame, Frame, StartsAt;
    MemorySizes(s);
    MemorySizes(Run(s, es, env));
    if es != [] {
      StepMemory(s, es[0], env, USER_STACKS + t);
      CreatedFrame(s, es[0]);
      StartsIs(s, es[0], env, t);
      if StoresFrame(s, es[0], USER_STACKS + t) {
        StackStores(s, es[0], t);
      }
      StackIsPrivate(Step(s, es[0], env), es[1..], env, t);
    }
  }

  lemma StartsIs(s: State, e: Event, env: Env, t: nat)
    requires Inv(s)
    ensures StartsAt(s, Step(s, e, env), USER_STACKS + t) == Starts(s, e, env, t)
  {
    hide Inv, Step;
  }
}
