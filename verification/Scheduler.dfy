/** kernel/scheduler.c: every function computes the function of `Model` it is named after. */
module Scheduler {
  import opened Words
  import opened IntrusiveList
  import opened ListGroup
  import opened Mmu
  import opened SysTimer
  import opened Model
  import opened Invariant
  import opened Preservation
  import opened Steps
  import opened Store

  /** `scheduler_save_thread_context` */
  method SaveThreadContext(k: Kernel, t: nat)
    requires k.Valid() && t < k.blocks.Length
    modifies k.Repr()
    ensures k.Valid()
    ensures var s := old(k.Abs()); k.Abs() == s.(blocks := s.blocks[t := s.blocks[t].(regs := s.cpu)])
  {
    hide Kernel.Abs, Kernel.Valid;
    var b := k.Block(t);
    var regs := k.Registers();
    k.SetBlock(t, b.(regs := regs));
  }

  /** `scheduler_switch_thread` */
  method SwitchThread(k: Kernel, t: nat)
    requires k.Valid() && t < k.blocks.Length
    modifies k.Repr()
    ensures k.Valid() && k.Abs() == old(k.Abs()).(cpu := old(k.Abs()).blocks[t].regs)
  {
    hide Kernel.Abs, Kernel.Valid;
    var b := k.Block(t);
    k.SetRegisters(b.regs);
  }

  /** Takes the running thread off the processor; a user thread goes to the end of the ready list. */
  method Preempt(k: Kernel) returns (running: Option<nat>)
    requires k.Valid() && |k.Abs().running| <= 1
    requires k.blocks.Length == Idle(k.Abs()) + 1 && InRange(k.Abs().running, k.blocks.Length)
    modifies k.Repr()
    ensures k.Valid() && k.Abs() == Preempted(old(k.Abs()))
    ensures running == Current(old(k.Abs()))
  {
    hide Kernel.Abs, Kernel.Valid, Preempted, InRange, Current;
    PreemptCases(k.Abs());
    var empty := k.IsEmpty(RUNNING);
    if empty {
      return None;
    }
    var r := k.First(RUNNING);
    k.NowhereElse(RUNNING, 0, r);
    k.Remove(RUNNING, r, 0);
    if r != k.blocks.Length - 1 {
      k.AppendLast(READY, r);
      SaveThreadContext(k, r);
    }
    return Some(r);
  }

  method Retarget(k: Kernel, running: Option<nat>, pid: nat)
    requires k.Valid() && TablesFit(k.Abs()) && (running.Some? ==> running.value < k.blocks.Length)
    modifies k.Repr()
    ensures k.Valid() && k.Abs() == Retargeted(old(k.Abs()), running, pid, HandleRow(old(k.Abs()), pid, k.env))
  {
    hide Kernel.Abs, Kernel.Valid;
    if running == None {
      k.LoadWindows(pid);
    } else {
      var b := k.Block(running.value);
      if b.pid != pid {
        k.LoadWindows(pid);
      }
    }
  }

  method Resume(k: Kernel, next: nat)
    requires k.Valid() && At(k.Abs(), READY, 0, next) && k.Abs().running == [] && next < k.blocks.Length
    modifies k.Repr()
    ensures k.Valid() && k.Abs() == Resumed(old(k.Abs()))
  {
    hide Kernel.Abs, Kernel.Valid, StallSorted;
    k.TransferFirst(READY, RUNNING, next, 0);
    SwitchThread(k, next);
    var ok := k.VerifyThreadListIntegrity();
    k.Halt(!ok);
  }

  /** The switch itself, once somebody is ready. */
  method Switch(k: Kernel)
    requires k.Valid() && CanSwitch(k.Abs())
    modifies k.Repr()
    ensures k.Valid() && k.Abs() == Switched(old(k.Abs()), k.env)
  {
    hide Kernel.Abs, Kernel.Valid, HandleRow;
    var running := Preempt(k);
    var next := k.First(READY);
    var b := k.Block(next);
    Retarget(k, running, b.pid);
    Resume(k, next);
  }

  /** `scheduler_round_robin` */
  method RoundRobin(k: Kernel, forced: bool)
    requires k.Valid() && Inv(k.Abs()) && MaySwitch(k.Abs(), forced)
    modifies k.Repr()
    ensures k.Valid() && k.Abs() == Model.RoundRobin(old(k.Abs()), forced, k.env)
  {
    hide Kernel.Abs, Kernel.Valid, Inv, Model.RoundRobin, Switched, CanSwitch, Readied, Unlisted;
    RoundRobinPlan(k.Abs(), forced, k.env);
    var readyEmpty := k.IsEmpty(READY);
    var idling := k.IsEmpty(RUNNING);
    if !forced && readyEmpty && !idling {
      return;
    }
    if readyEmpty {
      k.AppendFirst(READY, k.blocks.Length - 1);
    }
    Switch(k);
  }

  // ----- Processes and threads -----

  /** `scheduler_find_first_empty_address_space` */
  method FindFirstEmptyAddressSpace(k: Kernel) returns (r: Option<nat>)
    requires k.Valid() && |k.Abs().spaces| == k.cfg.spaces
    ensures r == FirstEmptySpace(k.Abs().spaces, 0)
  {
    hide Kernel.Abs, Kernel.Valid;
    for i := 0 to k.cfg.spaces
      invariant FirstEmptySpace(k.Abs().spaces, 0) == FirstEmptySpace(k.Abs().spaces, i)
    {
      var empty := k.IsSpaceEmpty(i);
      if empty {
        return Some(i);
      }
    }
    return None;
  }

  /** `scheduler_find_first_empty_slot_in_address_space` */
  method FindFirstEmptySlot(k: Kernel, p: nat) returns (r: Option<nat>)
    requires k.Valid() && p < |k.Abs().slots| && |k.Abs().slots[p]| == k.cfg.slots
    ensures r == FirstEmptySlot(k.Abs().slots[p], 0)
  {
    hide Kernel.Abs, Kernel.Valid;
    for i := 0 to k.cfg.slots
      invariant FirstEmptySlot(k.Abs().slots[p], 0) == FirstEmptySlot(k.Abs().slots[p], i)
    {
      var used := k.SlotUsed(p, i);
      if !used {
        return Some(i);
      }
    }
    return None;
  }

  /** Gives thread `t` its seat in a process. */
  method Enrol(k: Kernel, t: nat, pid: nat, slot: nat)
    requires k.Valid() && Enrollable(k.Abs(), t, pid, slot)
    modifies k.Repr()
    ensures k.Valid() && k.Abs() == Enrolled(old(k.Abs()), t, pid, slot)
  {
    hide Kernel.Abs, Kernel.Valid, Stale;
    var b := k.Block(t);
    k.MarkStale(pid, slot);
    k.JoinSpace(pid, t);
    k.SetHandle(pid, slot, b.handle);
    k.SetSlot(pid, slot, true);
  }

  /** Copies the argument block to the top of the stack of thread `t`; a failing copy halts the machine. */
  method StoreArguments(k: Kernel, t: nat, src: Word, n: nat, others: seq<Byte>) returns (ok: bool)
    requires k.Valid() && ArgumentsFit(k.Abs(), t, n)
    modifies k.Repr()
    ensures k.Valid() && ok == Fetchable(old(k.Abs()), src, n)
    ensures ok ==> k.Abs() == WithArguments(old(k.Abs()), t,
                                            Fetched(old(k.Abs()), src, (USER_STACKS + t + 1) * MiB - Align8(n), n,
                                                    others))
    ensures !ok ==> k.Abs().panicked
  {
    hide Kernel.Abs, Kernel.Valid, Stored, KernelAddress, Align8, Fetched, KernelReads;
    if n == 0 {
      return true;
    }
    var pa := k.Physical((USER_STACKS + t + 1) * MiB - Align8(n));
    ok := k.CopyArguments(src, pa, n, others);
    if !ok {
      k.Halt(true);
    }
  }

  /** Writes the initial context and makes the thread ready. */
  method Launch(k: Kernel, pid: nat, slot: nat, func: Word, sp: Word)
    requires k.Valid() && k.Abs().finished != [] && k.Abs().finished[0] < k.blocks.Length
    modifies k.Repr()
    ensures k.Valid() && k.Abs() == Launched(old(k.Abs()), pid, slot, func, sp, k.env.exitThread)
  {
    hide Kernel.Abs, Kernel.Valid;
    var t := k.First(FINISHED);
    var b := k.Block(t);
    k.SetBlock(t, b.(regs := Registers(b.regs.general[0 := sp], sp, k.env.exitThread, func), mode := User,
            pid := pid, slot := slot));
    k.TransferLast(FINISHED, READY, t, 0);
  }

  /**
    What `scheduler_create_process` and `scheduler_create_thread` do alike. The result says whether
    the copy of the arguments got through; if not, the machine has halted.
   */
  method StartThread(k: Kernel, pid: nat, slot: nat, func: Word, src: Word, n: nat, others: seq<Byte>)
    returns (ok: bool)
    requires k.Valid() && CanStart(k.Abs(), pid, slot, n)
    modifies k.Repr()
    ensures k.Valid() && ok == Fetchable(old(k.Abs()), src, n)
    ensures ok ==>
              k.Abs() == Model.StartThread(old(k.Abs()), pid, slot, func, ArgumentBytes(old(k.Abs()), src, n, others),
                                           k.env)
    ensures !ok ==> k.Abs().panicked
  {
    hide *;
    StartFacts(k.Abs(), pid, slot, n);
    ghost var args := ArgumentBytes(k.Abs(), src, n, others);
    StartThreadInSteps(k.Abs(), pid, slot, func, args, k.env);
    var t := FirstFinished(k);
    ArgumentsFrame(k.Abs(), t, pid, slot, src, n, others);
    Enrol(k, t, pid, slot);
    ok := StoreArguments(k, t, src, n, others);
    if ok {
      Launch(k, pid, slot, func, InitialStackPointer(slot, n));
    }
  }

  method FirstFinished(k: Kernel) returns (t: nat)
    requires k.Valid() && k.Abs().finished != []
    ensures t == k.Abs().finished[0]
  {
    t := k.First(FINISHED);
  }

  /** The copy at the start of `scheduler_create_process`. */
  method CopyImage(k: Kernel, space: nat)
    requires k.Valid() && Shape(k.Abs()) && space < k.cfg.spaces
    modifies k.Repr()
    ensures k.Valid() && k.Abs() == Model.CopyImage(old(k.Abs()), space)
  {
    hide Kernel.Abs, Kernel.Valid, Stored, Shape;
    ImageFacts(k.Abs(), space);
    var from := k.Physical(UDATA_ORIGINAL * MiB);
    var to := k.Physical((UDATA + space + 1) * MiB);
    k.CopyMemory(from, to, MiB);
  }

  /** `scheduler_create_process` */
  method CreateProcess(k: Kernel, space: nat, func: Word, src: Word, n: nat, others: seq<Byte>) returns (ok: bool)
    requires k.Valid() && CanStart(k.Abs(), space, 0, n)
    modifies k.Repr()
    ensures k.Valid() && ok == Fetchable(Model.CopyImage(old(k.Abs()), space), src, n)
    ensures ok ==> k.Abs() == CreatedProcess(old(k.Abs()), space, func, src, n, others, k.env)
    ensures !ok ==> k.Abs().panicked
  {
    hide *;
    CopiedCanStart(k.Abs(), space, n);
    CreatedInSteps(k.Abs(), space, func, src, n, others, k.env);
    CopyImage(k, space);
    ok := StartThread(k, space, 0, func, src, n, others);
  }

  /** `scheduler_cleanup_thread` */
  method CleanupThread(k: Kernel)
    requires k.Valid() && CanCleanUp(k.Abs())
    modifies k.Repr()
    ensures k.Valid() && k.Abs() == Model.CleanupThread(old(k.Abs()))
  {
    hide Kernel.Abs, Kernel.Valid, Shape;
    CleanupFacts(k.Abs());
    ghost var s := k.Abs();
    var t := k.First(RUNNING);
    var b := k.Block(t);
    k.SetSlot(b.pid, b.slot, false);
    k.LeaveSpace(b.pid, t, IndexOf(s.spaces[b.pid], t));
    k.TransferFirst(RUNNING, FINISHED, t, 0);
    assert RemoveAt(s.running, 0) == s.running[1..];
  }

  // ----- Waiting -----

  /** `scheduler_ignore_thread_until_character_input` */
  method AwaitInput(k: Kernel, t: nat)
    requires k.Valid() && k.Abs().ready != [] && k.Abs().ready[|k.Abs().ready| - 1] == t
    modifies k.Repr()
    ensures k.Valid() && k.Abs() == Model.AwaitInput(old(k.Abs()), t)
  {
    hide Kernel.Abs, Kernel.Valid;
    ghost var q := k.Abs().ready;
    k.TransferLast(READY, INPUT, t, |q| - 1);
    assert RemoveAt(q, |q| - 1) == q[..|q| - 1];
  }

  /** `scheduler_unblock_first_input_waiting_thread` */
  method UnblockFirstInput(k: Kernel, ch: Byte)
    requires k.Valid() && Shape(k.Abs()) && k.Abs().input != []
    modifies k.Repr()
    ensures k.Valid() && k.Abs() == Model.UnblockFirstInput(old(k.Abs()), ch)
  {
    hide Kernel.Abs, Kernel.Valid, Shape;
    ghost var q := k.Abs().input;
    InputBound(k.Abs());
    var t := k.First(INPUT);
    var b := k.Block(t);
    k.SetBlock(t, b.(regs := SetR0(b.regs, ch)));
    k.TransferLast(INPUT, READY, t, 0);
    assert RemoveAt(q, 0) == q[1..];
  }

  /** `scheduler_adjust_stall_timer`; the original returns a negative error where this returns false. */
  method AdjustStallTimer(k: Kernel) returns (ok: bool)
    requires k.Valid() && Shape(k.Abs())
    modifies k.Repr()
    ensures k.Valid() && Adjustment(k.Abs(), ok) == Model.AdjustStallTimer(old(k.Abs()), k.env)
  {
    hide Kernel.Abs, Kernel.Valid, Shape, InterruptAt;
    StallBound(k.Abs());
    var empty := k.IsEmpty(STALL);
    if empty {
      k.DisarmStall();
      return true;
    }
    var first := k.First(STALL);
    var b := k.Block(first);
    ok := k.ArmStall(b.stallUntil);
  }

  method WakeFirst(k: Kernel)
    requires k.Valid() && k.Abs().stall != []
    modifies k.Repr()
    ensures k.Valid() && k.Abs() == Model.WakeFirst(old(k.Abs()))
  {
    hide Kernel.Abs, Kernel.Valid;
    ghost var q := k.Abs().stall;
    var first := k.First(STALL);
    k.TransferLast(STALL, READY, first, 0);
    assert RemoveAt(q, 0) == q[1..];
  }

  /** `scheduler_unblock_overdue_waiting_threads`: every turn shortens the stall list. */
  method UnblockOverdue(k: Kernel)
    requires k.Valid() && Shape(k.Abs())
    modifies k.Repr()
    ensures k.Valid() && k.Abs() == Model.UnblockOverdue(old(k.Abs()), k.env)
  {
    hide Kernel.Abs, Kernel.Valid, Shape, Model.AdjustStallTimer;
    ghost var s := k.Abs();
    UnblockOverdueTurn(s, k.env);
    var ok := AdjustStallTimer(k);
    while !ok
      invariant k.Valid() && Shape(k.Abs())
      invariant !ok ==> k.Abs().stall != []
      invariant Model.UnblockOverdue(s, k.env) == if ok then k.Abs()
              else Model.UnblockOverdue(Model.WakeFirst(k.Abs()), k.env)
      decreases |k.Abs().stall|
    {
      WakeFirst(k);
      UnblockOverdueTurn(k.Abs(), k.env);
      ok := AdjustStallTimer(k);
    }
  }

  /** The start of `scheduler_ignore_thread_until_timer_match`. */
  method EnterStall(k: Kernel, t: nat, ticks: Word)
    requires k.Valid() && Shape(k.Abs()) && k.Abs().ready != [] && k.Abs().ready[|k.Abs().ready| - 1] == t
    modifies k.Repr()
    ensures k.Valid() && k.Abs() == Model.EnterStall(old(k.Abs()), t, ticks, k.env)
  {
    hide Kernel.Abs, Kernel.Valid, Shape, SysTimer.Read, SortedInsert;
    ghost var q := k.Abs().ready;
    k.NowhereElse(READY, |q| - 1, t);
    k.Remove(READY, t, |q| - 1);
    var now := k.ReadTimer();
    var b := k.Block(t);
    k.SetBlock(t, b.(stallUntil := Plus(now, ticks)));
    var order := k.StallOrder();
    k.InsertInOrder(STALL, t, order);
    assert RemoveAt(q, |q| - 1) == q[..|q| - 1];
  }

  /** `scheduler_ignore_thread_until_timer_match` */
  method AwaitTimer(k: Kernel, t: nat, ticks: Word)
    requires k.Valid() && Shape(k.Abs()) && k.Abs().ready != [] && k.Abs().ready[|k.Abs().ready| - 1] == t
    modifies k.Repr()
    ensures k.Valid() && k.Abs() == Model.AwaitTimer(old(k.Abs()), t, ticks, k.env)
  {
    hide Kernel.Abs, Kernel.Valid, Shape, Model.EnterStall, Model.AdjustStallTimer, Model.UnblockOverdue;
    EnterStall(k, t, ticks);
    var first := k.First(STALL);
    if first == t {
      UnblockOverdueTurn(k.Abs(), k.env);
      var ok := AdjustStallTimer(k);
      if !ok {
        UnblockOverdue(k);
      }
    }
  }
}
