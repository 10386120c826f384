/**
  kernel/interrupt.c: the exception handlers, and runs of the whole machine.
  `Execute` is the main refinement: any run of the pointer-level kernel computes `Machine.Run`.
 */
module Interrupts {
  import opened Words
  import opened IntrusiveList
  import opened Mmu
  import opened SysTimer
  import opened Model
  import opened Invariant
  import opened Preservation
  import opened Machine
  import opened Steps
  import opened Store
  import Scheduler
  import Syscalls

  /** `dispatch_syscall` */
  method DispatchSyscall(k: Kernel, call: Call, bytes: seq<Byte>)
    requires k.Valid() && Inv(k.Abs()) && UserRunning(k.Abs())
    modifies k.Repr()
    ensures k.Valid() && Tracks(k.Abs(), Dispatch(old(k.Abs()), call, bytes, k.env))
  {
    hide *;
    DispatchCases(k.Abs(), bytes, k.env);
    TracksSelf();
    match call {
      case ReadCharacter => Syscalls.ReadCharacter(k);
      case OutputCharacter =>
      case CreateProcessCall => Syscalls.CreateProcess(k, bytes);
      case CreateThreadCall => Syscalls.CreateThread(k, bytes);
      case StallThread => Syscalls.StallThread(k);
      case ExitThread => Syscalls.ExitThread(k);
      case GetTime => Syscalls.GetTime(k);
      case GetThreadId => Syscalls.AnswerThreadId(k);
    }
  }

  /** Whether the interrupted code ran in user mode, which `scheduler_switch_thread` chose. */
  method FromUserMode(k: Kernel) returns (user: bool)
    requires k.Valid() && Inv(k.Abs())
    ensures user <==> UserRunning(k.Abs())
  {
    hide Kernel.Abs, Kernel.Valid, Inv;
    RunningMode(k.Abs());
    var empty := k.IsEmpty(RUNNING);
    if empty {
      return false;
    }
    var t := k.First(RUNNING);
    var b := k.Block(t);
    user := b.mode == User;
  }

  /** `software_interrupt_handler`; `number` is the number in the instruction, or 0 for a malformed one. */
  method SoftwareInterrupt(k: Kernel, user: Registers, number: nat, bytes: seq<Byte>)
    requires k.Valid() && Inv(k.Abs()) && !k.Abs().panicked
    modifies k.Repr()
    ensures k.Valid() && Tracks(k.Abs(), Step(old(k.Abs()), Trap(user, number, bytes), k.env))
  {
    hide Kernel.Abs, Kernel.Valid, Inv, Dispatch, ExitThreadCall, UserRunning;
    var userMode := FromUserMode(k);
    if !userMode {
      k.Halt(true);
      return;
    }
    EnteredUser(k.Abs(), user);
    k.SetRegisters(user);
    match CallNumbered(number) {
      case Some(call) => DispatchSyscall(k, call, bytes);
      case None => Syscalls.ExitThread(k);
    }
  }

  /** The abort, reset and undefined-instruction handlers, which act alike. */
  method AbortInterrupt(k: Kernel, user: Registers)
    requires k.Valid() && Inv(k.Abs()) && !k.Abs().panicked
    modifies k.Repr()
    ensures k.Valid() && k.Abs() == Step(old(k.Abs()), Abort(user), k.env)
  {
    hide Kernel.Abs, Kernel.Valid, Inv, ExitThreadCall, UserRunning;
    var userMode := FromUserMode(k);
    if !userMode {
      k.Halt(true);
      return;
    }
    EnteredUser(k.Abs(), user);
    k.SetRegisters(user);
    Syscalls.ExitThread(k);
  }

  /** The delivery loop: each turn takes one character and one waiting thread. */
  method DeliverInput(k: Kernel)
    requires k.Valid() && Inv(k.Abs())
    modifies k.Repr()
    ensures k.Valid() && k.Abs() == Deliver(old(k.Abs()))
  {
    hide Kernel.Abs, Kernel.Valid, Inv, Model.UnblockFirstInput, Deliver, DeliverOne;
    ghost var s := k.Abs();
    while true
      invariant k.Valid() && Inv(k.Abs()) && Deliver(s) == Deliver(k.Abs())
      decreases |k.Abs().uart|
    {
      DeliverEnds(k.Abs());
      var noneWaits := k.IsEmpty(INPUT);
      var unread := k.HasUnreadCharacter();
      if noneWaits || !unread {
        break;
      }
      DeliverOneInSteps(k.Abs());
      var ch := k.ReadCharacter();
      Scheduler.UnblockFirstInput(k, ch);
    }
  }

  /** `irq_interrupt_handler` */
  method IrqInterrupt(k: Kernel, user: Registers, received: Option<Byte>)
    requires k.Valid() && Inv(k.Abs()) && !k.Abs().panicked
    modifies k.Repr()
    ensures k.Valid() && k.Abs() == Step(old(k.Abs()), Irq(user, received), k.env)
  {
    hide Kernel.Abs, Kernel.Valid, Inv, WokenByTimer, SliceEnded, Receive, Deliver;
    ghost var s := k.Abs();
    k.SetRegisters(user);
    assert k.Abs() == Entered(s, user);
    WakeOverdue(k);
    EndSlice(k);
    var halted := k.Halted();
    if halted {
      return;
    }
    ReceiveInput(k, received);
    DeliverInput(k);
  }

  method WakeOverdue(k: Kernel)
    requires k.Valid() && Inv(k.Abs())
    modifies k.Repr()
    ensures k.Valid() && k.Abs() == WokenByTimer(old(k.Abs()), k.env)
  {
    hide Kernel.Abs, Kernel.Valid, Inv, Model.UnblockOverdue;
    InvTables(k.Abs());
    var slice, stall := k.TimerPending();
    if stall {
      Scheduler.UnblockOverdue(k);
    }
    k.PassBetweenChecks();
  }

  method EndSlice(k: Kernel)
    requires k.Valid() && Inv(k.Abs())
    modifies k.Repr()
    ensures k.Valid() && k.Abs() == SliceEnded(old(k.Abs()), k.env)
  {
    hide Kernel.Abs, Kernel.Valid, Inv, Model.RoundRobin, Rearmed;
    var slice, stall := k.TimerPending();
    if slice {
      RoundRobinKeepsInv(k.Abs(), false, k.env);
      Scheduler.RoundRobin(k, false);
      var halted := k.Halted();
      if !halted {
        Syscalls.ResetTimer(k);
      }
    }
  }

  method ReceiveInput(k: Kernel, received: Option<Byte>)
    requires k.Valid() && Inv(k.Abs())
    modifies k.Repr()
    ensures k.Valid() && k.Abs() == Receive(old(k.Abs()), received)
  {
    hide Kernel.Abs, Kernel.Valid, Inv;
    match received {
      case None =>
      case Some(ch) => k.ReceiveCharacter(ch);
    }
  }

  /** One store instruction of the running thread, as the memory system carries it out. */
  method UserStoreInstruction(k: Kernel, va: Word, byte: Byte)
    requires k.Valid() && Inv(k.Abs()) && !k.Abs().panicked
    modifies k.Repr()
    ensures k.Valid() && k.Abs() == Step(old(k.Abs()), Event.Store(va, byte), k.env)
  {
    hide Kernel.Abs, Kernel.Valid, Inv, ExitThreadCall, Translate;
    var userMode := FromUserMode(k);
    if !userMode {
      return;
    }
    InvTables(k.Abs());
    var target := k.StoreTarget(va);
    match target {
      case Some(a) => k.StoreByte(a, byte);
      case None => Syscalls.ExitThread(k);
    }
  }

  method PassTime(k: Kernel, d: Word)
    requires k.Valid()
    modifies k.Repr()
    ensures k.Valid() && k.Abs() == old(k.Abs()).(timer := Elapse(old(k.Abs()).timer, d))
  {
    k.PassTime(d);
  }

  /** One step of the machine, which has the value `s` unless it has halted. */
  method Handle(k: Kernel, e: Event, ghost s: State)
    requires k.Valid() && Inv(s) && Tracks(k.Abs(), s)
    modifies k.Repr()
    ensures k.Valid() && Tracks(k.Abs(), Step(s, e, k.env))
  {
    TracksHalted(k.Abs(), s);
    hide *;
    StepCases(s, k.env);
    TracksSelf();
    var halted := k.Halted();
    if halted {
      return;
    }
    match e {
      case Trap(user, number, bytes) => SoftwareInterrupt(k, user, number, bytes);
      case Abort(user) => AbortInterrupt(k, user);
      case Irq(user, received) => IrqInterrupt(k, user, received);
      case Store(va, byte) => UserStoreInstruction(k, va, byte);
      case Tick(d) => PassTime(k, d);
    }
  }

  /**
    Any run of the pointer-level kernel computes `Machine.Run`: both halt or neither does, and while
    they have not they agree on the whole state.
   */
  method Execute(k: Kernel, es: seq<Event>)
    requires k.Valid() && Inv(k.Abs())
    modifies k.Repr()
    ensures k.Valid() && k.Abs().panicked == Run(old(k.Abs()), es, k.env).panicked
    ensures !k.Abs().panicked ==> k.Abs() == Run(old(k.Abs()), es, k.env)
  {
    hide Kernel.Abs, Kernel.Valid, Inv, Step;
    ghost var start, s := k.Abs(), k.Abs();
    for i := 0 to |es|
      invariant k.Valid() && Inv(s) && Tracks(k.Abs(), s) && Run(start, es, k.env) == Run(s, es[i..], k.env)
    {
      Handle(k, es[i], s);
      s := Step(s, es[i], k.env);
      assert es[i..][1..] == es[i + 1..];
    }
  }
}
