/**
  When the kernel halts. There are three ways: an exception out of kernel code, a switch that finds
  the stall list out of order, and a creating call whose argument bytes the kernel cannot read.
  Every other VERIFY of the scheduler holds.
 */
module Halting {
  import opened Words
  import opened IntrusiveList
  import opened Mmu
  import opened SysTimer
  import opened Model
  import opened Invariant
  import opened Preservation
  import opened Machine
  import opened InputMatching
  import opened FairQueue
  import opened WakeUp
  import opened Creation

  // ----- Argument bytes -----

  /** The call creates something, gets as far as the copy of its arguments, and the copy fails. */
  ghost predicate CopyFails(s: State, call: Call)
    requires Inv(s) && UserRunning(s)
  {
    InvShape(s);
    RunningIsSeated(s);
    && s.cpu.general[2] <= STACK_SIZE && !ArgumentsFetchable(s)
    && ((call == CreateProcessCall && HasFreeSpace(s))
        || (call == CreateThreadCall && HasFreeSlot(s, s.blocks[s.running[0]].pid)))
  }

  /** The event is such a call. */
  ghost predicate CopyFailsIn(s: State, e: Event)
    requires Inv(s)
  {
    && e.Trap? && UserRunning(s) && CallNumbered(e.number).Some?
    && CopyFails(Entered(s, e.user), CallNumbered(e.number).value)
  }

  // ----- The order of the stall list -----

  /** The deadline a stall call of the running thread would enter with, if it gets that far. */
  function Deadline(s: State, env: Env): Option<Word>
    requires Inv(s) && UserRunning(s)
  {
    var s1 := Yielded(s, env);
    if s1.panicked || s.cpu.general[0] == 0 then None else
    match ToHertz(s.cpu.general[0])
    case None => None
    case Some(ticks) => Some(Plus(Read(Rearmed(s1, env).timer, env.delays).clo, ticks))
  }

  lemma SameStallSorted(s: State, r: State)
    requires SameStall(s, r)
    ensures StallSorted(r.blocks, r.stall) <==> StallSorted(s.blocks, s.stall)
  {
    if StallSorted(r.blocks, r.stall) {
      forall i | 0 <= i < |s.stall| - 1
        ensures StallKey(s.blocks, s.stall[i]) <= StallKey(s.blocks, s.stall[i + 1])
      {
        assert StallKey(r.blocks, r.stall[i]) <= StallKey(r.blocks, r.stall[i + 1]);
      }
    }
  }

  lemma {:induction false} UnblockOverdueSorted(s: State, env: Env)
    requires Shape(s) && StallSorted(s.blocks, s.stall)
    ensures StallSorted(UnblockOverdue(s, env).blocks, UnblockOverdue(s, env).stall)
    decreases |s.stall|
  {
    var a := AdjustStallTimer(s, env);
    if !a.ok {
      SortedTail(s.blocks, s.stall, 1);
      UnblockOverdueSorted(WakeFirst(a.state), env);
    }
  }

  lemma EnterStallSorted(s: State, t: nat, ticks: Word, env: Env)
    requires Inv(s) && s.ready != [] && s.ready[|s.ready| - 1] == t && StallSorted(s.blocks, s.stall)
    ensures var r := EnterStall(s, t, ticks, env);
            StallSorted(r.blocks, r.stall)
            <==> s.stall == [] || StallKey(s.blocks, s.stall[0]) <= Plus(Read(s.timer, env.delays).clo, ticks)
  {
    ListedIsLive(s, t);
    var r := EnterStall(s, t, ticks, env);
    var s1 := s.(blocks := r.blocks);
    assert SameStall(s, s1);
    SameStallSorted(s, s1);
    InsertionKeepsOrder(r.blocks, s.stall, t);
  }

  lemma AwaitTimerSorted(s: State, t: nat, ticks: Word, env: Env)
    requires Inv(s) && s.ready != [] && s.ready[|s.ready| - 1] == t && StallSorted(s.blocks, s.stall)
    ensures var r := AwaitTimer(s, t, ticks, env);
            StallSorted(r.blocks, r.stall)
            <==> s.stall == [] || StallKey(s.blocks, s.stall[0]) <= Plus(Read(s.timer, env.delays).clo, ticks)
  {
    EnterStallSorted(s, t, ticks, env);
    ListedIsLive(s, t);
    var s1 := EnterStall(s, t, ticks, env);
    InsertionPlace(s1.blocks, s.stall, t);
    if s1.stall[0] == t {
      UnblockOverdueSorted(AdjustStallTimer(s1, env).state, env);
    }
  }

  /** A stall call leaves the list sorted exactly when its deadline is not before the first one's. */
  lemma StallKeepsOrderExactlyWhen(s: State, env: Env)
    requires Inv(s) && UserRunning(s) && StallSorted(s.blocks, s.stall)
    ensures var r := StallThreadCall(s, env);
            var d := Deadline(s, env);
            StallSorted(r.blocks, r.stall) <==>
              (d == None || s.stall == [] || StallKey(s.blocks, s.stall[0]) <= d.value)
  {
    RoundRobinStall(s, true, env);
    hide Inv, RoundRobin, AwaitTimer, StallSorted;
    var s1 := Yielded(s, env);
    SameStallSorted(s, s1);
    var h := ToHertz(s.cpu.general[0]);
    if !s1.panicked && s.cpu.general[0] != 0 && h.Some? {
      var s2 := Rearmed(s1, env);
      SameStallSorted(s, s2);
      AwaitTimerSorted(s2, s.running[0], h.value, env);
    }
  }

  /** A round robin that switches halts the machine exactly when the stall list is out of order. */
  lemma SwitchHaltsExactlyWhenUnsorted(s: State, forced: bool, env: Env)
    requires Inv(s) && MaySwitch(s, forced) && Switches(s, forced)
    ensures RoundRobin(s, forced, env).panicked <==> !StallSorted(s.blocks, s.stall)
  {
    RoundRobinStall(s, forced, env);
    SameStallSorted(s, RoundRobin(s, forced, env));
  }

  // ----- When a step halts the machine -----

  lemma CreateHalts(s: State, bytes: seq<Byte>, env: Env)
    requires Inv(s) && UserRunning(s) && !s.panicked
    ensures CreateProcessSyscall(s, bytes, env).panicked <==> CopyFails(s, CreateProcessCall)
    ensures CreateThreadSyscall(s, bytes, env).panicked <==> CopyFails(s, CreateThreadCall)
  {
    CreateProcessOutcome(s, bytes, env);
    CreateThreadOutcome(s, bytes, env);
    CreatePanics(s, bytes, env);
    hide Inv, CreateProcessSyscall, CreateThreadSyscall, ArgumentsFetchable, Started, HasFreeSlot, HasFreeSpace;
  }

  /** Starting a thread does not itself set the flag. */
  lemma CreatePanics(s: State, bytes: seq<Byte>, env: Env)
    requires Inv(s) && UserRunning(s) && !s.panicked
    ensures CreateProcessSyscall(s, bytes, env).panicked ==> s.cpu.general[2] <= STACK_SIZE && !ArgumentsFetchable(s)
    ensures CreateThreadSyscall(s, bytes, env).panicked ==> s.cpu.general[2] <= STACK_SIZE && !ArgumentsFetchable(s)
  {
    InvShape(s);
    var p := FirstEmptySpace(s.spaces, 0);
    if p.Some? && s.cpu.general[2] <= STACK_SIZE {
      CopiedFetchable(s, p.value);
    }
    hide Inv, ArgumentsFetchable, Arguments;
  }

  lemma {:induction false} UnblockOverdueHalts(s: State, env: Env)
    requires Shape(s)
    ensures UnblockOverdue(s, env).panicked == s.panicked
    decreases |s.stall|
  {
    var a := AdjustStallTimer(s, env);
    if !a.ok {
      UnblockOverdueHalts(WakeFirst(a.state), env);
    }
  }

  lemma StallThreadHalts(s: State, env: Env)
    requires Inv(s) && UserRunning(s)
    ensures StallThreadCall(s, env).panicked == RoundRobin(s, true, env).panicked
  {
    hide Inv, RoundRobin, AwaitTimer;
    var s1 := Yielded(s, env);
    var h := ToHertz(s.cpu.general[0]);
    if !s1.panicked && h.Some? {
      var s2 := Rearmed(s1, env);
      InvShape(s2);
      AwaitTimerHalts(s2, s.running[0], h.value, env);
    }
  }

  lemma AwaitTimerHalts(s: State, t: nat, ticks: Word, env: Env)
    requires Shape(s) && s.ready != [] && s.ready[|s.ready| - 1] == t
    ensures AwaitTimer(s, t, ticks, env).panicked == s.panicked
  {
    var s1 := EnterStall(s, t, ticks, env);
    UnblockOverdueHalts(AdjustStallTimer(s1, env).state, env);
  }

  lemma StallCallHalts(s: State, env: Env)
    requires Inv(s) && UserRunning(s)
    ensures StallThreadCall(s, env).panicked <==> !StallSorted(s.blocks, s.stall)
  {
    StallThreadHalts(s, env);
    SwitchHaltsExactlyWhenUnsorted(s, true, env);
    hide Inv, RoundRobin, StallThreadCall;
  }

  lemma ReadCharacterHalts(s: State, env: Env)
    requires Inv(s) && UserRunning(s)
    ensures ReadCharacterCall(s, env).panicked <==> !StallSorted(s.blocks, s.stall)
  {
    SwitchHaltsExactlyWhenUnsorted(s, true, env);
    hide Inv, RoundRobin;
  }

  lemma ExitThreadHalts(s: State, env: Env)
    requires Inv(s) && UserRunning(s)
    ensures ExitThreadCall(s, env).panicked <==> !StallSorted(s.blocks, s.stall)
  {
    RunningIsSeated(s);
    CleanupKeepsInv(s);
    SwitchHaltsExactlyWhenUnsorted(CleanupThread(s), false, env);
    hide Inv, RoundRobin, StallSorted;
  }

  lemma AnswersDoNotHalt(s: State, v: Word, env: Env)
    requires Inv(s)
    ensures Answered(s, v).panicked == s.panicked && GetTimeCall(s, env).panicked == s.panicked
  {
    hide Inv;
  }

  lemma DispatchHalts(s: State, call: Call, bytes: seq<Byte>, env: Env)
    requires Inv(s) && UserRunning(s) && !s.panicked
    ensures Dispatch(s, call, bytes, env).panicked <==>
            (call in {ReadCharacter, StallThread, ExitThread} && !StallSorted(s.blocks, s.stall)) || CopyFails(s, call)
  {
    hide *;
    DispatchCases(s, bytes, env);
    CreateHalts(s, bytes, env);
    OnlyCreatesCopy(s, call);
    match call {
      case ReadCharacter => ReadCharacterHalts(s, env);
      case StallThread => StallCallHalts(s, env);
      case ExitThread => ExitThreadHalts(s, env);
      case GetTime => AnswersDoNotHalt(s, 0, env);
      case GetThreadId => AnswersDoNotHalt(s, s.running[0], env);
      case _ =>
    }
  }

  lemma OnlyCreatesCopy(s: State, call: Call)
    requires Inv(s) && UserRunning(s)
    ensures CopyFails(s, call) ==> call == CreateProcessCall || call == CreateThreadCall
  {
  }

  /** A trap or an abort of code that is not a user thread's. */
  predicate FromKernel(s: State, e: Event) {
    (e.Trap? || e.Abort?) && !UserRunning(s)
  }

  /** The state in which a switch of the step finds the stall list: an interrupt wakes threads first. */
  function AtSwitch(s: State, e: Event, env: Env): State
    requires Inv(s)
  {
    if e.Irq? then WokenByTimer(Entered(s, e.user), env) else s
  }

  /** What halts the machine, or has halted it, as it can be told before the step. */
  ghost predicate Halts(s: State, e: Event, env: Env)
    requires Inv(s)
  {
    || s.panicked
    || FromKernel(s, e)
    || CopyFailsIn(s, e)
    || (Switched(s, e, env) && !StallSorted(AtSwitch(s, e, env).blocks, AtSwitch(s, e, env).stall))
  }

  /** A step ends halted in exactly these cases. */
  lemma StepHaltsExactlyWhen(s: State, e: Event, env: Env)
    requires Inv(s)
    ensures Step(s, e, env).panicked <==> Halts(s, e, env)
  {
    hide *;
    if s.panicked {
      HaltedStays(s, e, env);
    } else if e.Trap? {
      TrapHalts(s, e, env);
    } else if e.Irq? {
      IrqHalts(s, e, env);
    } else {
      OtherHalts(s, e, env);
    }
  }

  lemma HaltedStays(s: State, e: Event, env: Env)
    requires Inv(s) && s.panicked
    ensures Step(s, e, env) == s && Halts(s, e, env)
  {
    hide Inv;
  }

  lemma EnteredStall(s: State, user: Registers)
    requires Inv(s)
    ensures var r := Entered(s, user); r.blocks == s.blocks && r.stall == s.stall && r.panicked == s.panicked
  {
  }

  lemma PanicHalts(s: State)
    requires Inv(s)
    ensures Panic(s).panicked
  {
  }

  lemma TrapHalts(s: State, e: Event, env: Env)
    requires Inv(s) && !s.panicked && e.Trap?
    ensures Step(s, e, env).panicked <==> Halts(s, e, env)
  {
    hide *;
    TrapStep(s, e.user, e.number, e.bytes, env);
    EnteredStall(s, e.user);
    PanicHalts(s);
    TrapCases(s, e, env);
    if UserRunning(s) {
      if CallNumbered(e.number).Some? {
        DispatchHalts(Entered(s, e.user), CallNumbered(e.number).value, e.bytes, env);
      } else {
        ExitThreadHalts(Entered(s, e.user), env);
      }
    }
  }

  /** `Halts` for traps. */
  lemma TrapCases(s: State, e: Event, env: Env)
    requires Inv(s) && !s.panicked && e.Trap?
    ensures !UserRunning(s) ==> Halts(s, e, env)
    ensures UserRunning(s) ==> UserRunning(Entered(s, e.user))
    ensures UserRunning(s) && CallNumbered(e.number).None? ==> (Halts(s, e, env) <==> !StallSorted(s.blocks, s.stall))
    ensures UserRunning(s) && CallNumbered(e.number).Some? ==>
              var call := CallNumbered(e.number).value;
              Halts(s, e, env) <==>
                (call in {ReadCharacter, StallThread, ExitThread} && !StallSorted(s.blocks, s.stall))
                || CopyFails(Entered(s, e.user), call)
  {
    hide Inv, CallNumbered, CopyFails, StallSorted;
  }

  lemma IrqHalts(s: State, e: Event, env: Env)
    requires Inv(s) && !s.panicked && e.Irq?
    ensures Step(s, e, env).panicked <==> Halts(s, e, env)
  {
    hide *;
    OtherSteps(s, e, env);
    EnteredStall(s, e.user);
    var s0 := Entered(s, e.user);
    var s1 := WokenByTimer(s0, env);
    InterruptStages(s0, e.received, env);
    WokenHalts(s0, env);
    SliceHalts(s1, env);
    DeliveredHalts(SliceEnded(s1, env), e.received);
    IrqCases(s, e, env);
  }

  lemma IrqCases(s: State, e: Event, env: Env)
    requires Inv(s) && !s.panicked && e.Irq?
    ensures var s1 := WokenByTimer(Entered(s, e.user), env);
            Halts(s, e, env) <==> s1.timer.m1 && Switches(s1, false) && !StallSorted(s1.blocks, s1.stall)
  {
    hide Inv, WokenByTimer, StallSorted;
  }

  lemma WokenHalts(s: State, env: Env)
    requires Inv(s)
    ensures WokenByTimer(s, env).panicked == s.panicked
  {
    UnblockOverdueHalts(s, env);
  }

  lemma SliceHalts(s: State, env: Env)
    requires Inv(s) && !s.panicked
    ensures SliceEnded(s, env).panicked <==> s.timer.m1 && Switches(s, false) && !StallSorted(s.blocks, s.stall)
  {
    if Switches(s, false) {
      SwitchHaltsExactlyWhenUnsorted(s, false, env);
    } else {
      EarlyReturn(s, env);
    }
    hide Inv, RoundRobin, StallSorted;
  }

  lemma EarlyReturn(s: State, env: Env)
    requires Shape(s) && !Switches(s, false)
    ensures RoundRobin(s, false, env) == s
  {
  }

  lemma DeliveredHalts(s: State, received: Option<Byte>)
    requires Inv(s)
    ensures Deliver(Receive(s, received)).panicked == s.panicked
  {
    DeliverRest(Receive(s, received));
    hide Inv, Deliver;
  }

  lemma OtherHalts(s: State, e: Event, env: Env)
    requires Inv(s) && !s.panicked && !e.Trap? && !e.Irq?
    ensures Step(s, e, env).panicked <==> Halts(s, e, env)
  {
    hide *;
    OtherSteps(s, e, env);
    OtherCases(s, e, env);
    PanicHalts(s);
    if e.Tick? {
      ClockDoesNotHalt(s, Elapse(s.timer, e.d));
    } else if UserRunning(s) {
      if e.Abort? {
        EnteredStall(s, e.user);
        ExitThreadHalts(Entered(s, e.user), env);
      } else {
        UserStoreHalts(s, e.va, e.byte, env);
      }
    }
  }

  lemma OtherCases(s: State, e: Event, env: Env)
    requires Inv(s) && !s.panicked && !e.Trap? && !e.Irq?
    ensures e.Abort? ==> (Halts(s, e, env) <==> !UserRunning(s) || !StallSorted(s.blocks, s.stall))
    ensures Shape(s)
    ensures e.Store? ==>
              (Halts(s, e, env) <==> UserRunning(s) && Target(s, e.va) == None && !StallSorted(s.blocks, s.stall))
    ensures e.Tick? ==> !Halts(s, e, env)
  {
    InvShape(s);
    hide Inv, StallSorted, Target, Shape;
  }

  lemma ClockDoesNotHalt(s: State, tm: Timer)
    requires Inv(s)
    ensures Clocked(s, tm).panicked == s.panicked
  {
  }

  lemma UserStoreHalts(s: State, va: Word, byte: Byte, env: Env)
    requires Inv(s) && UserRunning(s) && !s.panicked
    ensures Shape(s)
    ensures UserStore(s, va, byte, env).panicked <==> Target(s, va) == None && !StallSorted(s.blocks, s.stall)
  {
    InvShape(s);
    ExitThreadHalts(s, env);
    hide Inv, ExitThreadCall, Target, StallSorted, Shape;
  }

  /** A null pointer with a size is enough. */
  lemma NullArgumentsHalt(s: State, user: Registers, bytes: seq<Byte>, env: Env)
    requires Inv(s) && UserRunning(s) && user.general[1] == 0 && 0 < user.general[2] <= STACK_SIZE
    ensures Shape(s) && s.blocks[s.running[0]].pid < s.cfg.spaces
    ensures HasFreeSlot(s, s.blocks[s.running[0]].pid) ==> Step(s, Trap(user, 4, bytes), env).panicked
    ensures HasFreeSpace(s) ==> Step(s, Trap(user, 3, bytes), env).panicked
  {
    StepHaltsExactlyWhen(s, Trap(user, 4, bytes), env);
    StepHaltsExactlyWhen(s, Trap(user, 3, bytes), env);
    SameRoom(s, user);
    NullIsNotFetchable(Entered(s, user));
    hide Inv, Step, HasFreeSlot, HasFreeSpace, ArgumentsFetchable, Switched, StallSorted;
  }

  lemma NullIsNotFetchable(s: State)
    requires Inv(s) && s.cpu.general[1] == 0 && 0 < s.cpu.general[2] <= STACK_SIZE
    ensures Shape(s) && !ArgumentsFetchable(s)
  {
    InvShape(s);
    hide Inv;
  }

  /** The registers of the caller do not matter for the room there is. */
  lemma SameRoom(s: State, user: Registers)
    requires Inv(s) && UserRunning(s)
    ensures var r := Entered(s, user);
            && Shape(s) && Shape(r) && r.running == s.running && r.blocks == s.blocks && r.cfg == s.cfg && r.cpu == user
            && s.running[0] < |s.blocks| && s.blocks[s.running[0]].pid < s.cfg.spaces
            && HasFreeSpace(r) == HasFreeSpace(s)
            && HasFreeSlot(r, s.blocks[s.running[0]].pid) == HasFreeSlot(s, s.blocks[s.running[0]].pid)
  {
    RunningIsSeated(s);
    var r, pid := Entered(s, user), s.blocks[s.running[0]].pid;
    assert forall q: nat :: q < s.cfg.slots ==> Used(r, pid, q) == Used(s, pid, q);
  }

  // ----- Runs -----

  ghost predicate SomeStepHalts(s: State, es: seq<Event>, env: Env)
    requires Inv(s)
    decreases |es|
  {
    es != [] && (Halts(s, es[0], env) || SomeStepHalts(Step(s, es[0], env), es[1..], env))
  }

  /** A run ends halted exactly when it started so or one of its steps halts the machine. */
  lemma {:induction false} RunHaltsExactlyWhen(s: State, es: seq<Event>, env: Env)
    requires Inv(s)
    ensures Run(s, es, env).panicked <==> s.panicked || SomeStepHalts(s, es, env)
    decreases |es|
  {
    hide Inv, Step, Halts;
    if es != [] {
      StepHaltsExactlyWhen(s, es[0], env);
      if s.panicked {
        HaltedStays(s, es[0], env);
      }
      RunHaltsExactlyWhen(Step(s, es[0], env), es[1..], env);
    }
  }

  // ----- Runs that keep the stall list in order -----

  /** The event does not come out of kernel code, and is no creating call whose arguments cannot be read. */
  ghost predicate Legal(s: State, e: Event)
    requires Inv(s)
  {
    !FromKernel(s, e) && !CopyFailsIn(s, e)
  }

  /** No stall call with a deadline before the first one's. */
  predicate Punctual(s: State, e: Event, env: Env)
    requires Inv(s)
  {
    e.Trap? && UserRunning(s) && CallNumbered(e.number) == Some(StallThread) && s.stall != [] ==>
      var d := Deadline(Entered(s, e.user), env);
      d == None || StallKey(s.blocks, s.stall[0]) <= d.value
  }

  ghost predicate Orderly(s: State) {
    !s.panicked && StallSorted(s.blocks, s.stall)
  }

  lemma DispatchSorted(s: State, call: Call, bytes: seq<Byte>, env: Env)
    requires Inv(s) && UserRunning(s) && StallSorted(s.blocks, s.stall)
    requires call == StallThread && s.stall != [] ==>
               var d := Deadline(s, env); d == None || StallKey(s.blocks, s.stall[0]) <= d.value
    ensures var r := Dispatch(s, call, bytes, env); StallSorted(r.blocks, r.stall)
  {
    var r := Dispatch(s, call, bytes, env);
    DispatchCases(s, bytes, env);
    hide Inv, Dispatch, ExitThreadCall, RoundRobin, StallSorted, CreateProcessSyscall, CreateThreadSyscall,
         ReadCharacterCall, StallThreadCall;
    match call {
      case ReadCharacter =>
        ReadCharacterStall(s, env);
        SameStallSorted(s, r);
      case CreateProcessCall =>
        CreateProcessStall(s, bytes, env);
        SameStallSorted(s, r);
      case CreateThreadCall =>
        CreateThreadStall(s, bytes, env);
        SameStallSorted(s, r);
      case StallThread => StallKeepsOrderExactlyWhen(s, env);
      case ExitThread =>
        ExitThreadStall(s, env);
        SameStallSorted(s, r);
      case GetTime =>
      case OutputCharacter =>
      case GetThreadId =>
    }
  }

  lemma InterruptSorted(s: State, received: Option<Byte>, env: Env)
    requires Inv(s) && StallSorted(s.blocks, s.stall)
    ensures var r := WokenByTimer(s, env); StallSorted(r.blocks, r.stall)
    ensures var r := Interrupt(s, received, env); StallSorted(r.blocks, r.stall)
  {
    WokenSorted(s, env);
    hide *;
    var s1 := WokenByTimer(s, env);
    var s2 := SliceEnded(s1, env);
    var s3 := Receive(s2, received);
    InterruptStages(s, received, env);
    SliceEndedStall(s1, env);
    SameStallSorted(s1, s2);
    ReceivedStall(s2, received);
    DeliverStall(s3);
    SameStallSorted(s2, s3);
    SameStallSorted(s3, Deliver(s3));
  }

  lemma WokenSorted(s: State, env: Env)
    requires Inv(s) && StallSorted(s.blocks, s.stall)
    ensures var r := WokenByTimer(s, env); StallSorted(r.blocks, r.stall)
  {
    UnblockOverdueSorted(s, env);
  }

  lemma ReceivedStall(s: State, received: Option<Byte>)
    requires Inv(s)
    ensures SameStall(s, Receive(s, received))
  {
  }

  /** A punctual step keeps the stall list in order. */
  lemma StepSorted(s: State, e: Event, env: Env)
    requires Inv(s) && StallSorted(s.blocks, s.stall) && Punctual(s, e, env)
    ensures var r := Step(s, e, env); StallSorted(r.blocks, r.stall)
    ensures var r := AtSwitch(s, e, env); StallSorted(r.blocks, r.stall)
  {
    hide Inv, Dispatch, ExitThreadCall, Interrupt, Target, StallSorted, Deadline, WokenByTimer;
    match e
    case Trap(user, number, bytes) =>
      if UserRunning(s) {
        match CallNumbered(number) {
          case Some(call) => DispatchSorted(Entered(s, user), call, bytes, env);
          case None => ExitThreadSorted(Entered(s, user), env);
        }
      }
    case Abort(user) =>
      if UserRunning(s) {
        ExitThreadSorted(Entered(s, user), env);
      }
    case Irq(user, received) => InterruptSorted(Entered(s, user), received, env);
    case Store(va, byte) =>
      if UserRunning(s) {
        ExitThreadSorted(s, env);
      }
    case Tick(d) =>
  }

  lemma ExitThreadSorted(s: State, env: Env)
    requires Inv(s) && UserRunning(s) && StallSorted(s.blocks, s.stall)
    ensures var r := ExitThreadCall(s, env); StallSorted(r.blocks, r.stall)
  {
    ExitThreadStall(s, env);
    SameStallSorted(s, ExitThreadCall(s, env));
    hide ExitThreadCall;
  }

  lemma StepOrderly(s: State, e: Event, env: Env)
    requires Inv(s) && Orderly(s) && Legal(s, e) && Punctual(s, e, env)
    ensures Orderly(Step(s, e, env))
  {
    StepSorted(s, e, env);
    StepHaltsExactlyWhen(s, e, env);
    hide Inv, Step, Punctual, StallSorted, Switched, AtSwitch, CopyFailsIn, FromKernel;
  }

  ghost predicate AllPunctual(s: State, es: seq<Event>, env: Env)
    requires Inv(s)
    decreases |es|
  {
    es == [] || (Legal(s, es[0]) && Punctual(s, es[0], env) && AllPunctual(Step(s, es[0], env), es[1..], env))
  }

  /** A run of legal events and punctual stall calls never halts the kernel. */
  lemma {:induction false} PunctualRunsDoNotHalt(s: State, es: seq<Event>, env: Env)
    requires Inv(s) && Orderly(s) && AllPunctual(s, es, env)
    ensures Orderly(Run(s, es, env))
    decreases |es|
  {
    hide Inv, Step, Orderly, Legal, Punctual;
    if es != [] {
      StepOrderly(s, es[0], env);
      PunctualRunsDoNotHalt(Step(s, es[0], env), es[1..], env);
    }
  }

  /** One unpunctual stall call leaves the list out of order, so that the next trap that switches halts the kernel. */
  lemma UnpunctualCallUnsorts(s: State, e: Event, env: Env)
    requires Inv(s) && Orderly(s) && Legal(s, e) && !Punctual(s, e, env)
    ensures var r := Step(s, e, env); !r.panicked && !StallSorted(r.blocks, r.stall)
  {
    var s0 := Entered(s, e.user);
    TrapStep(s, e.user, e.number, e.bytes, env);
    DispatchCases(s0, e.bytes, env);
    StallKeepsOrderExactlyWhen(s0, env);
    StallCallHalts(s0, env);
    hide Inv, Step, Dispatch, StallSorted, Deadline, StallThreadCall, CallNumbered;
  }
}
