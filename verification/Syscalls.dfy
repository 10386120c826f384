/**
  kernel/syscall_impl.c and kernel/interrupt.c: every handler computes the function of `Machine`
  it is named after, and a whole run of handlers computes `Machine.Run`.
 */
module Syscalls {
  import opened Words
  import opened IntrusiveList
  import opened Mmu
  import opened SysTimer
  import opened Model
  import opened Invariant
  import opened Preservation
  import opened Machine
  import opened Steps
  import opened Store
  import Scheduler
  import KTiming

  /** A forced round robin on behalf of the running thread, which it returns. */
  method Yield(k: Kernel) returns (caller: nat)
    requires k.Valid() && Inv(k.Abs()) && UserRunning(k.Abs())
    modifies k.Repr()
    ensures k.Valid() && k.Abs() == Yielded(old(k.Abs()), k.env) && caller == old(k.Abs()).running[0]
  {
    hide Kernel.Abs, Kernel.Valid, Inv, Model.RoundRobin;
    caller := k.First(RUNNING);
    Scheduler.RoundRobin(k, true);
  }

  method ResetTimer(k: Kernel)
    requires k.Valid() && Inv(k.Abs())
    modifies k.Repr()
    ensures k.Valid() && k.Abs() == Rearmed(old(k.Abs()), k.env)
  {
    hide Kernel.Abs, Kernel.Valid, Inv;
    k.ResetTimer();
  }

  /** Writes r0 of whoever resumes. */
  method Answer(k: Kernel, v: Word)
    requires k.Valid() && Inv(k.Abs())
    modifies k.Repr()
    ensures k.Valid() && k.Abs() == Answered(old(k.Abs()), v)
  {
    hide Kernel.Abs, Kernel.Valid, Inv;
    var regs := k.Registers();
    k.SetRegisters(SetR0(regs, v));
  }

  method ReadCharacter(k: Kernel)
    requires k.Valid() && Inv(k.Abs()) && UserRunning(k.Abs())
    modifies k.Repr()
    ensures k.Valid() && k.Abs() == ReadCharacterCall(old(k.Abs()), k.env)
  {
    hide Kernel.Abs, Kernel.Valid, Inv, Yielded;
    var caller := Yield(k);
    var halted := k.Halted();
    if halted {
      return;
    }
    ResetTimer(k);
    Scheduler.AwaitInput(k, caller);
  }

  method CreateProcess(k: Kernel, bytes: seq<Byte>)
    requires k.Valid() && Inv(k.Abs()) && UserRunning(k.Abs())
    modifies k.Repr()
    ensures k.Valid() && Tracks(k.Abs(), CreateProcessSyscall(old(k.Abs()), bytes, k.env))
  {
    hide Kernel.Abs, Kernel.Valid, Inv, Answered, CanStart, FirstEmptySpace, Fetchable, CreatedProcess, StartCall,
         ArgumentsFetchable, Arguments, ArgumentBytes, Model.StartThread, Model.CopyImage;
    var regs := k.Registers();
    var size := regs.general[2];
    if size > STACK_SIZE {
      Answer(k, EINVAL);
      return;
    }
    InvTables(k.Abs());
    var space := Scheduler.FindFirstEmptyAddressSpace(k);
    match space {
      case None => Answer(k, EBUSY);
      case Some(p) =>
        MayCreateProcess(k.Abs(), p, size);
        ProcessCall(k.Abs(), p, bytes, k.env);
        CreatedIs(k.Abs(), p, regs.general[0], regs.general[1], size, bytes, k.env);
        ArgumentsAre(Model.CopyImage(k.Abs(), p), bytes);
        StartCallIs(Model.CopyImage(k.Abs(), p), p, 0, bytes, k.env);
        var _ := Scheduler.CreateProcess(k, p, regs.general[0], regs.general[1], size, bytes);
    }
  }

  method CreateThread(k: Kernel, bytes: seq<Byte>)
    requires k.Valid() && Inv(k.Abs()) && UserRunning(k.Abs())
    modifies k.Repr()
    ensures k.Valid() && Tracks(k.Abs(), CreateThreadSyscall(old(k.Abs()), bytes, k.env))
  {
    hide Kernel.Abs, Kernel.Valid, Inv, Model.StartThread, Answered, CanStart, FirstEmptySlot, Fetchable,
         ArgumentBytes, StartCall,
         ArgumentsFetchable, Arguments;
    var regs := k.Registers();
    var size := regs.general[2];
    if size > STACK_SIZE {
      Answer(k, EINVAL);
      return;
    }
    InvTables(k.Abs());
    CallerTables(k.Abs());
    var caller := k.First(RUNNING);
    var b := k.Block(caller);
    var slot := Scheduler.FindFirstEmptySlot(k, b.pid);
    match slot {
      case None => Answer(k, EBUSY);
      case Some(q) =>
        MayCreateThread(k.Abs(), b.pid, q, size);
        ThreadCall(k.Abs(), q, bytes, k.env);
        ArgumentsAre(k.Abs(), bytes);
        StartCallIs(k.Abs(), b.pid, q, bytes, k.env);
        var _ := Scheduler.StartThread(k, b.pid, q, regs.general[0], regs.general[1], size, bytes);
    }
  }

  method StallThread(k: Kernel)
    requires k.Valid() && Inv(k.Abs()) && UserRunning(k.Abs())
    modifies k.Repr()
    ensures k.Valid() && k.Abs() == StallThreadCall(old(k.Abs()), k.env)
  {
    hide Kernel.Abs, Kernel.Valid, Inv, Yielded, Model.AwaitTimer, Answered, KTiming.Ticks;
    var regs := k.Registers();
    var ms := regs.general[0];
    var caller := Yield(k);
    var halted := k.Halted();
    if halted {
      return;
    }
    ResetTimer(k);
    if ms == 0 {
      return;
    }
    var converted := KTiming.MillisecondsToHertz(ms);
    match converted {
      case None => Answer(k, EINVAL);
      case Some(ticks) =>
        InvTables(k.Abs());
        Scheduler.AwaitTimer(k, caller, ticks);
    }
  }

  method ExitThread(k: Kernel)
    requires k.Valid() && Inv(k.Abs()) && UserRunning(k.Abs())
    modifies k.Repr()
    ensures k.Valid() && k.Abs() == ExitThreadCall(old(k.Abs()), k.env)
  {
    hide Kernel.Abs, Kernel.Valid, Inv, CanCleanUp, MaySwitch, Model.CleanupThread, Model.RoundRobin, Rearmed;
    MayExit(k.Abs());
    Scheduler.CleanupThread(k);
    Scheduler.RoundRobin(k, false);
    var halted := k.Halted();
    if !halted {
      ExitKeepsInv(old(k.Abs()), k.env);
      ResetTimer(k);
    }
  }

  method GetTime(k: Kernel)
    requires k.Valid() && Inv(k.Abs())
    modifies k.Repr()
    ensures k.Valid() && k.Abs() == GetTimeCall(old(k.Abs()), k.env)
  {
    hide Kernel.Abs, Kernel.Valid, Inv, Answered, KTiming.Milliseconds;
    ghost var s := k.Abs();
    var now := k.ReadTimer();
    assert k.Abs() == Clocked(s, SysTimer.Read(s.timer, k.env.delays));
    var ms := KTiming.HertzToMilliseconds(now);
    Answer(k, ms);
  }

  method AnswerThreadId(k: Kernel)
    requires k.Valid() && Inv(k.Abs()) && UserRunning(k.Abs())
    modifies k.Repr()
    ensures k.Valid() && k.Abs() == Answered(old(k.Abs()), old(k.Abs()).running[0])
  {
    hide Kernel.Abs, Kernel.Valid, Inv, Answered;
    var caller := k.First(RUNNING);
    ThreadIdFits(k.Abs());
    Answer(k, caller);
  }
}
