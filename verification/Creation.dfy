/** What creating and ending threads achieve: when a call is refused, and what changes when it is not. */
module Creation {
  import opened Words
  import opened IntrusiveList
  import opened Mmu
  import opened SysTimer
  import opened Model
  import opened Invariant
  import opened Preservation
  import opened Machine

  /** The call only answers with an error code. */
  ghost predicate Refused(s: State, r: State, code: Word) {
    r == s.(cpu := s.cpu.(general := s.cpu.general[0 := code]))
  }

  /**
    Exactly one more thread is live. It joins the end of the ready list in user mode, starts at
    `func`, returns into the exit call, and sits in the given seat, which was free. Its stack pointer
    and r0 leave room for `size` argument bytes below the end of its slot's stack window; its other
    registers are what the last thread with this block left. The caller goes on unchanged: a
    successful call leaves its r0 as it was.
   */
  ghost predicate Started(s: State, r: State, t: nat, pid: nat, slot: nat, func: Word, size: nat, exit: Word)
    requires Shape(s) && Shape(r) && r.cfg == s.cfg && pid < s.cfg.spaces && slot < s.cfg.slots
  {
    && t < |s.blocks| && t < |r.blocks| && |r.blocks| == |s.blocks|
    && !Live(s, t) && Live(r, t) && (forall u: nat :: u != t ==> (Live(r, u) <==> Live(s, u)))
    && r.running == s.running && r.ready == s.ready + [t] && r.input == s.input && r.stall == s.stall
    && s.finished == [t] + r.finished
    && (var b := r.blocks[t];
        && b.mode == User && b.pid == pid && b.slot == slot && b.regs.pc == func && b.regs.lr == exit
        && b.regs.sp == b.regs.general[0] == (90 - slot) * MiB - Align8(size)
        && (forall i :: 1 <= i < 13 ==> b.regs.general[i] == s.blocks[t].regs.general[i])
        && r.handles[pid][slot] == b.handle == s.blocks[t].handle)
    && (forall u: nat :: u < |s.blocks| && u != t ==> r.blocks[u] == s.blocks[u])
    && !Used(s, pid, slot) && Used(r, pid, slot) && r.cpu == s.cpu
    && (forall p: nat, q: nat :: p < s.cfg.spaces && q < s.cfg.slots && (p, q) != (pid, slot) ==>
            (Used(r, p, q) <==> Used(s, p, q)))
  }

  lemma StartThreadStarts(s: State, pid: nat, slot: nat, func: Word, args: seq<Byte>, env: Env)
    requires Inv(s) && s.finished != [] && pid < s.cfg.spaces && slot < s.cfg.slots && |args| <= STACK_SIZE
    requires !Used(s, pid, slot)
    ensures var r := StartThread(s, pid, slot, func, args, env);
            Shape(r) && r.cfg == s.cfg && Started(s, r, s.finished[0], pid, slot, func, |args|, env.exitThread)
  {
    StartThreadLives(s, pid, slot, func, args, env);
    assert Live(StartThread(s, pid, slot, func, args, env), s.finished[0]);
  }

  ghost predicate HasFreeSlot(s: State, pid: nat)
    requires Shape(s) && pid < s.cfg.spaces
  {
    exists q: nat :: q < s.cfg.slots && !Used(s, pid, q)
  }

  /**
    A thread is created exactly when its arguments fit a stack, its process has a free slot, and
    the kernel can read all of the arguments; it gets the first free slot. Arguments that cannot be
    read halt the machine.
   */
  lemma CreateThreadOutcome(s: State, bytes: seq<Byte>, env: Env)
    requires Inv(s) && UserRunning(s) && !s.panicked
    ensures Shape(s) && s.blocks[s.running[0]].pid < s.cfg.spaces
    ensures EINVAL == 0xffff_ffff && EBUSY == 0xffff_fffd && STACK_SIZE == 0x10_0000
    ensures var pid, r := s.blocks[s.running[0]].pid, CreateThreadSyscall(s, bytes, env);
            if s.cpu.general[2] > STACK_SIZE then Refused(s, r, EINVAL)
            else if !HasFreeSlot(s, pid) then Refused(s, r, EBUSY)
            else if !ArgumentsFetchable(s) then r.panicked
            else Shape(r) && r.cfg == s.cfg && s.finished != [] && exists q: nat ::
                   q < s.cfg.slots && (forall p: nat :: p < q ==> Used(s, pid, p))
                   && Started(s, r, s.finished[0], pid, q, s.cpu.general[0], s.cpu.general[2], env.exitThread)
  {
    RunningIsSeated(s);
    var pid, size := s.blocks[s.running[0]].pid, s.cpu.general[2];
    match FirstEmptySlot(s.slots[pid], 0)
    case None =>
      assert forall q: nat :: q < s.cfg.slots ==> Used(s, pid, q);
    case Some(q) =>
      assert !Used(s, pid, q);
      FreeSlotMeansFreeThread(s, pid, q);
      if size <= STACK_SIZE {
        StartCallIs(s, pid, q, bytes, env);
        StartThreadStarts(s, pid, q, s.cpu.general[0], Arguments(s, bytes), env);
        hide StartThread, Inv, Started, FirstEmptySlot, StartCall, ArgumentsFetchable;
        assert CreateThreadSyscall(s, bytes, env) == StartCall(s, pid, q, bytes, env);
      }
  }

  ghost predicate HasFreeSpace(s: State) {
    exists p: nat :: p < |s.spaces| && s.spaces[p] == []
  }

  /** The same for processes, in the first address space without threads. */
  lemma CreateProcessOutcome(s: State, bytes: seq<Byte>, env: Env)
    requires Inv(s) && UserRunning(s) && !s.panicked
    ensures Shape(s)
    ensures var r := CreateProcessSyscall(s, bytes, env);
            if s.cpu.general[2] > STACK_SIZE then Refused(s, r, EINVAL)
            else if !HasFreeSpace(s) then Refused(s, r, EBUSY)
            else if !ArgumentsFetchable(s) then r.panicked
            else Shape(r) && r.cfg == s.cfg && s.finished != [] && exists p: nat ::
                   p < |s.spaces| && s.spaces[p] == [] && (forall o: nat :: o < p ==> s.spaces[o] != [])
                   && Started(s, r, s.finished[0], p, 0, s.cpu.general[0], s.cpu.general[2], env.exitThread)
  {
    var size := s.cpu.general[2];
    match FirstEmptySpace(s.spaces, 0)
    case None =>
      assert !HasFreeSpace(s);
    case Some(p) =>
      assert s.spaces[p] == [];
      EmptySpaceMeansFreeThread(s, p);
      if size <= STACK_SIZE {
        var s1 := CopyImage(s, p);
        CopyImageKeepsInv(s, p);
        StartCallIs(s1, p, 0, bytes, env);
        CopiedFetchable(s, p);
        var started := StartThread(s1, p, 0, s.cpu.general[0], Arguments(s1, bytes), env);
        StartThreadStarts(s1, p, 0, s.cpu.general[0], Arguments(s1, bytes), env);
        StartedAfterCopy(s, p, started, s.finished[0], s.cpu.general[0], size, env.exitThread);
        hide StartThread, Inv, Started, FirstEmptySpace, StartCall, ArgumentsFetchable;
        assert CreateProcessSyscall(s, bytes, env) == StartCall(s1, p, 0, bytes, env);
      }
  }

  /** The image is copied without touching the tables. */
  lemma CopiedFetchable(s: State, space: nat)
    requires Shape(s) && space < s.cfg.spaces && s.cpu.general[2] <= STACK_SIZE
    ensures Shape(CopyImage(s, space)) && CopyImage(s, space).cpu == s.cpu
    ensures ArgumentsFetchable(CopyImage(s, space)) == ArgumentsFetchable(s)
  {
  }

  /**
    The new thread gets the caller's bytes: each one as it was in the memory behind the caller's
    pointer, as long as the caller's block and the place it is copied to do not overlap.
   */
  lemma {:induction false} ArgumentsAreTheCallers(s: State, src: Word, to: nat, n: nat, others: seq<Byte>, k: nat)
    requires |s.l1| == L1_SIZE && k < n <= STACK_SIZE && Apart(s, src, to, n)
    ensures var address := Translate(s.l1, s.tables, Plus(src, k)).value.address;
            address < |s.mem| && Fetched(s, src, to, n, others)[k] == s.mem[address]
  {
    assert BehindApart(s, Plus(src, k), to, n);
    assert forall i :: 0 <= i < n - 1 ==> BehindApart(s, Plus(src, i), to, n - 1) by {
      assert forall i :: 0 <= i < n - 1 ==> BehindApart(s, Plus(src, i), to, n);
    }
    if k < n - 1 {
      ArgumentsAreTheCallers(s, src, to, n - 1, others, k);
    }
  }

  /** The memory behind `va` is kept by the model and lies outside the `n` bytes from `to` on. */
  ghost predicate BehindApart(s: State, va: Word, to: nat, n: nat)
    requires |s.l1| == L1_SIZE
  {
    var location := Translate(s.l1, s.tables, va);
    location.Some? && Kept(s.mem, location.value.address) && !(to <= location.value.address < to + n)
  }

  ghost predicate Apart(s: State, src: Word, to: nat, n: nat)
    requires |s.l1| == L1_SIZE && n <= STACK_SIZE
  {
    forall i :: 0 <= i < n ==> BehindApart(s, Plus(src, i), to, n)
  }

  lemma StartedAfterCopy(s: State, space: nat, r: State, t: nat, func: Word, size: nat, exit: Word)
    requires Shape(s) && space < s.cfg.spaces && Shape(r) && r.cfg == s.cfg
    requires Started(CopyImage(s, space), r, t, space, 0, func, size, exit)
    ensures Started(s, r, t, space, 0, func, size, exit)
  {
  }

  /**
    The running thread is no longer live and its seat is free; all other books are as before. So is
    the row of stack handles: the thread's handle stays in it.
   */
  ghost predicate GivenBack(s: State, r: State, t: nat)
    requires Shape(s) && Shape(r) && r.cfg == s.cfg && t < |s.blocks|
  {
    var pid, slot := s.blocks[t].pid, s.blocks[t].slot;
    && pid < s.cfg.spaces && slot < s.cfg.slots
    && Live(s, t) && !Live(r, t) && (forall u: nat :: u != t ==> (Live(r, u) <==> Live(s, u)))
    && Used(s, pid, slot) && !Used(r, pid, slot)
    && (forall p: nat, q: nat :: p < s.cfg.spaces && q < s.cfg.slots && (p, q) != (pid, slot) ==>
            (Used(r, p, q) <==> Used(s, p, q)))
    && t !in r.spaces[pid] && r.finished == [t] + s.finished
    && r.handles == s.handles && r.handles[pid][slot] == s.blocks[t].handle
  }

  lemma CleanupGivesBack(s: State)
    requires Inv(s) && UserRunning(s)
    ensures var t := s.running[0];
            && t < |s.blocks| && s.blocks[t].pid < s.cfg.spaces && s.blocks[t].slot < s.cfg.slots
                    && t in s.spaces[s.blocks[t].pid]
    ensures var r := CleanupThread(s); Shape(s) && Shape(r) && r.cfg == s.cfg && GivenBack(s, r, s.running[0])
  {
    RunningIsSeated(s);
    CleanupKeepsInv(s);
    assert !Live(CleanupThread(s), s.running[0]);
  }

  lemma SameBooks(s: State, c: State, r: State, t: nat)
    requires Shape(s) && Shape(c) && Shape(r) && c.cfg == r.cfg == s.cfg && t < |s.blocks| && GivenBack(s, c, t)
    requires r.finished == c.finished && r.slots == c.slots && r.spaces == c.spaces && r.handles == c.handles
    ensures GivenBack(s, r, t)
  {
    hide Shape;
  }

  /** Exiting ends the caller and nobody else and frees its seat; the stack handle in its row is not taken back. */
  lemma ExitGivesBack(s: State, env: Env)
    requires Inv(s) && UserRunning(s)
    ensures var r := ExitThreadCall(s, env);
            Shape(s) && Shape(r) && r.cfg == s.cfg && s.running[0] < |s.blocks| && GivenBack(s, r, s.running[0])
  {
    CleanupGivesBack(s);
    ExitKeepsBooks(s, env);
    ExitShape(s, env);
    hide *;
    SameBooks(s, CleanupThread(s), ExitThreadCall(s, env), s.running[0]);
  }

  lemma ExitShape(s: State, env: Env)
    requires Inv(s) && UserRunning(s)
    ensures Shape(ExitThreadCall(s, env)) && s.running != []
  {
    hide ExitThreadCall;
  }

  /** The switch after the clean-up changes nothing the books are kept in. */
  lemma ExitKeepsBooks(s: State, env: Env)
    requires Inv(s) && UserRunning(s)
    ensures var t := s.running[0];
            && s.blocks[t].pid < s.cfg.spaces && s.blocks[t].slot < s.cfg.slots && t in s.spaces[s.blocks[t].pid]
    ensures var c, r := CleanupThread(s), ExitThreadCall(s, env);
            && r.cfg == c.cfg && r.finished == c.finished && r.slots == c.slots && r.spaces == c.spaces
            && r.handles == c.handles
  {
    RunningIsSeated(s);
    hide Inv;
  }
}
