/**
  Registers across switches: a thread resumes with the registers it was interrupted with, except
  that a character it waited for is in r0.
 */
module ContextSwitch {
  import opened Words
  import opened IntrusiveList
  import opened Mmu
  import opened SysTimer
  import opened Model
  import opened Invariant
  import opened Preservation
  import opened Machine
  import opened InputMatching
  import opened WakeUp
  import KTiming
  import Halting

  /** The call is a stall whose duration cannot be converted: its error code goes to the wrong thread. */
  predicate FailingCall(s: State, call: Call, env: Env)
    requires Inv(s) && UserRunning(s)
  {
    && call == StallThread && !Yielded(s, env).panicked
    && s.cpu.general[0] != 0 && ToHertz(s.cpu.general[0]) == None
  }

  predicate FailedStall(s: State, e: Event, env: Env)
    requires Inv(s)
  {
    && !s.panicked && e.Trap? && UserRunning(s) && CallNumbered(e.number).Some?
    && FailingCall(Entered(s, e.user), CallNumbered(e.number).value, env)
  }

  /** What a step does to a live thread that is not running: nothing but the deliveries, and a faithful switch-in. */
  ghost predicate Undisturbed(s: State, r: State, d: seq<Delivery>, t: nat, failed: bool)
    requires t < |s.blocks| && t < |r.blocks|
  {
    && Live(r, t)
    && r.blocks[t].regs == Received(s.blocks[t].regs, d, t)
    && (t in r.running ==> r.cpu == if failed then SetR0(s.blocks[t].regs, EINVAL) else s.blocks[t].regs)
  }

  /** A live thread that is not running. */
  ghost predicate Away(s: State, t: nat)
    requires Inv(s)
  {
    Live(s, t) && t !in s.running
  }

  lemma RoundRobinContext(s: State, forced: bool, env: Env, t: nat)
    requires Inv(s) && MaySwitch(s, forced) && Away(s, t)
    ensures t < |RoundRobin(s, forced, env).blocks|
    ensures Undisturbed(s, RoundRobin(s, forced, env), [], t, false)
  {
  }

  lemma ReadCharacterContext(s: State, env: Env, t: nat)
    requires Inv(s) && UserRunning(s) && Away(s, t)
    ensures t < |ReadCharacterCall(s, env).blocks|
    ensures Undisturbed(s, ReadCharacterCall(s, env), [], t, false)
  {
    RoundRobinContext(s, true, env, t);
    hide Inv, RoundRobin;
  }

  lemma ExitThreadContext(s: State, env: Env, t: nat)
    requires Inv(s) && UserRunning(s) && Away(s, t)
    ensures t < |ExitThreadCall(s, env).blocks|
    ensures Undisturbed(s, ExitThreadCall(s, env), [], t, false)
  {
    RunningIsSeated(s);
    CleanupKeepsInv(s);
    RoundRobinContext(CleanupThread(s), false, env, t);
    hide Inv, RoundRobin;
  }

  lemma SparedContext(s: State, r: State, t: nat)
    requires Inv(s) && Spared(s, r) && Away(s, t)
    ensures t < |s.blocks| && t < |r.blocks| && Undisturbed(s, r, [], t, false)
  {
  }

  lemma CreateContext(s: State, bytes: seq<Byte>, env: Env, t: nat)
    requires Inv(s) && UserRunning(s) && Away(s, t)
    ensures t < |s.blocks| && t < |CreateProcessSyscall(s, bytes, env).blocks|
    ensures Undisturbed(s, CreateProcessSyscall(s, bytes, env), [], t, false)
    ensures t < |CreateThreadSyscall(s, bytes, env).blocks|
    ensures Undisturbed(s, CreateThreadSyscall(s, bytes, env), [], t, false)
  {
    hide *;
    CreateProcessSpares(s, bytes, env);
    CreateThreadSpares(s, bytes, env);
    SparedContext(s, CreateProcessSyscall(s, bytes, env), t);
    SparedContext(s, CreateThreadSyscall(s, bytes, env), t);
  }

  /** Waking threads and setting alarms changes no registers. */
  ghost predicate SameRegisters(s: State, r: State) {
    && r.cfg == s.cfg && r.finished == s.finished && r.running == s.running && r.cpu == s.cpu
    && |r.blocks| == |s.blocks| && forall t: nat :: t < |s.blocks| ==> r.blocks[t].regs == s.blocks[t].regs
  }

  lemma {:induction false} UnblockOverdueContext(s: State, env: Env)
    requires Shape(s)
    ensures SameRegisters(s, UnblockOverdue(s, env))
    decreases |s.stall|
  {
    var a := AdjustStallTimer(s, env);
    if !a.ok {
      UnblockOverdueContext(WakeFirst(a.state), env);
    }
  }

  lemma AwaitTimerContext(s: State, t: nat, ticks: Word, env: Env)
    requires Shape(s) && s.ready != [] && s.ready[|s.ready| - 1] == t
    ensures SameRegisters(s, AwaitTimer(s, t, ticks, env))
  {
    var s1 := EnterStall(s, t, ticks, env);
    UnblockOverdueContext(AdjustStallTimer(s1, env).state, env);
  }

  lemma StallThreadContext(s: State, env: Env, t: nat)
    requires Inv(s) && UserRunning(s) && Away(s, t)
    ensures t < |StallThreadCall(s, env).blocks|
    ensures Undisturbed(s, StallThreadCall(s, env), [], t, FailingCall(s, StallThread, env))
  {
    RoundRobinContext(s, true, env, t);
    hide *;
    var s1 := Yielded(s, env);
    StallBranches(s, env);
    YieldedIs(s, env);
    var h := ToHertz(s.cpu.general[0]);
    RearmedSame(s1, env);
    var s2 := Rearmed(s1, env);
    SameRegistersUndisturbed(s, s1, s2, t);
    if !s1.panicked && s.cpu.general[0] != 0 {
      if h.Some? {
        InvShape(s2);
        AwaitTimerContext(s2, s.running[0], h.value, env);
        SameRegistersUndisturbed(s, s2, StallThreadCall(s, env), t);
      } else {
        AnsweredUndisturbed(s, s2, t);
      }
    }
  }

  /** The four ways a stall call ends. */
  lemma StallBranches(s: State, env: Env)
    requires Inv(s) && UserRunning(s)
    ensures var s1 := Yielded(s, env);
            var s2 := Rearmed(s1, env);
            var ms := s.cpu.general[0];
            && (s1.panicked ==> StallThreadCall(s, env) == s1)
            && (!s1.panicked && ms == 0 ==> StallThreadCall(s, env) == s2)
            && (!s1.panicked && ms != 0 && ToHertz(ms).None? ==> StallThreadCall(s, env) == Answered(s2, EINVAL))
            && (!s1.panicked && ms != 0 && ToHertz(ms).Some? ==>
                  && s2.ready != [] && s2.ready[|s2.ready| - 1] == s.running[0] && Shape(s2)
                  && StallThreadCall(s, env) == AwaitTimer(s2, s.running[0], ToHertz(ms).value, env))
            && (FailingCall(s, StallThread, env) <==> !s1.panicked && ms != 0 && ToHertz(ms).None?)
  {
    InvShape(Rearmed(Yielded(s, env), env));
    hide Inv, RoundRobin, AwaitTimer, Answered, Shape;
  }

  lemma YieldedIs(s: State, env: Env)
    requires Inv(s) && UserRunning(s)
    ensures Yielded(s, env) == RoundRobin(s, true, env)
  {
    hide Inv, RoundRobin;
  }

  lemma RearmedSame(s: State, env: Env)
    requires Inv(s)
    ensures SameRegisters(s, Rearmed(s, env))
  {
  }

  lemma SameRegistersUndisturbed(s: State, r: State, u: State, t: nat)
    requires t < |s.blocks| && t < |r.blocks| && Undisturbed(s, r, [], t, false) && SameRegisters(r, u)
    ensures t < |u.blocks| && Undisturbed(s, u, [], t, false)
  {
  }

  lemma AnsweredUndisturbed(s: State, r: State, t: nat)
    requires Inv(r) && t < |s.blocks| && t < |r.blocks| && Undisturbed(s, r, [], t, false)
    ensures t < |Answered(r, EINVAL).blocks| && Undisturbed(s, Answered(r, EINVAL), [], t, true)
  {
  }

  lemma AnswersContext(s: State, v: Word, env: Env, t: nat)
    requires Inv(s) && Away(s, t)
    ensures t < |s.blocks| && Undisturbed(s, s, [], t, false)
    ensures t < |Answered(s, v).blocks| && Undisturbed(s, Answered(s, v), [], t, false)
    ensures t < |GetTimeCall(s, env).blocks| && Undisturbed(s, GetTimeCall(s, env), [], t, false)
  {
  }

  lemma OnlyStallsFail(s: State, call: Call, env: Env)
    requires Inv(s) && UserRunning(s)
    ensures FailingCall(s, call, env) ==> call == StallThread
  {
  }

  lemma DispatchContext(s: State, call: Call, bytes: seq<Byte>, env: Env, t: nat)
    requires Inv(s) && UserRunning(s) && Away(s, t)
    ensures t < |s.blocks| && t < |Dispatch(s, call, bytes, env).blocks|
    ensures Undisturbed(s, Dispatch(s, call, bytes, env), [], t, FailingCall(s, call, env))
  {
    hide *;
    DispatchCases(s, bytes, env);
    OnlyStallsFail(s, call, env);
    AnswersContext(s, s.running[0], env, t);
    match call {
      case ReadCharacter => ReadCharacterContext(s, env, t);
      case CreateProcessCall => CreateContext(s, bytes, env, t);
      case CreateThreadCall => CreateContext(s, bytes, env, t);
      case StallThread => StallThreadContext(s, env, t);
      case ExitThread => ExitThreadContext(s, env, t);
      case _ =>
    }
  }

  lemma {:induction false} ReceivedNothing(regs: Registers, d: seq<Delivery>, t: nat)
    requires forall i :: 0 <= i < |d| ==> d[i].thread != t
    ensures Received(regs, d, t) == regs
    decreases |d|
  {
    if d != [] {
      ReceivedNothing(regs, d[1..], t);
    }
  }

  lemma WokenContext(s: State, env: Env)
    requires Inv(s)
    ensures SameRegisters(s, WokenByTimer(s, env))
  {
    UnblockOverdueContext(s, env);
  }

  lemma SliceEndedContext(s: State, env: Env, t: nat)
    requires Inv(s) && Away(s, t)
    ensures t < |SliceEnded(s, env).blocks|
    ensures Undisturbed(s, SliceEnded(s, env), [], t, false)
  {
    RoundRobinContext(s, false, env, t);
    hide Inv, RoundRobin;
  }

  lemma DeliverContext(s: State, t: nat)
    requires Inv(s) && Live(s, t)
    ensures var r := Deliver(s);
            && t < |s.blocks| && t < |r.blocks| && Live(r, t) && r.running == s.running && r.cpu == s.cpu
            && r.blocks[t].regs == Received(s.blocks[t].regs, Pairing(s.input, s.uart), t)
            && (t in s.running ==> r.blocks[t].regs == s.blocks[t].regs)
  {
    DeliverRest(s);
    DeliverBlocks(s, t);
    ListedIsLive(s, t);
    if t in s.running {
      ReceivedNothing(s.blocks[t].regs, Pairing(s.input, s.uart), t);
    }
  }

  lemma InterruptContext(s: State, received: Option<Byte>, env: Env, t: nat)
    requires Inv(s) && Away(s, t)
    ensures t < |Interrupt(s, received, env).blocks|
    ensures Undisturbed(s, Interrupt(s, received, env), InterruptLog(s, received, env).delivered, t, false)
  {
    hide *;
    var s1 := WokenByTimer(s, env);
    InterruptStages(s, received, env);
    WokenContext(s, env);
    WokenAway(s, s1, t);
    SliceEndedContext(s1, env, t);
    var s2 := SliceEnded(s1, env);
    SameThenUndisturbed(s, s1, s2, t);
    InterruptDeliveries(s, received, env);
    if !s2.panicked {
      ReceiveContext(s, s2, received, t);
      var s3 := Receive(s2, received);
      DeliverContext(s3, t);
      ThenDelivered(s, s3, Deliver(s3), Pairing(s3.input, s3.uart), t);
    }
  }

  lemma WokenAway(s: State, r: State, t: nat)
    requires Inv(s) && Inv(r) && Away(s, t) && SameRegisters(s, r)
    ensures Away(r, t) && t < |s.blocks| && t < |r.blocks|
  {
  }

  lemma SameThenUndisturbed(s: State, r: State, u: State, t: nat)
    requires SameRegisters(s, r) && t < |r.blocks| && t < |u.blocks| && Undisturbed(r, u, [], t, false)
    ensures t < |s.blocks| && Undisturbed(s, u, [], t, false)
  {
  }

  lemma InterruptDeliveries(s: State, received: Option<Byte>, env: Env)
    requires Inv(s)
    ensures var s2 := SliceEnded(WokenByTimer(s, env), env);
            InterruptLog(s, received, env).delivered ==
            if s2.panicked then [] else Pairing(Receive(s2, received).input, Receive(s2, received).uart)
  {
    hide Inv, WokenByTimer, SliceEnded, Pairing;
  }

  lemma ReceiveContext(s: State, r: State, received: Option<Byte>, t: nat)
    requires Inv(r) && t < |s.blocks| && t < |r.blocks| && Undisturbed(s, r, [], t, false)
    ensures var u := Receive(r, received);
            t < |u.blocks| && Undisturbed(s, u, [], t, false) && Live(u, t)
  {
  }

  lemma ThenDelivered(s: State, r: State, u: State, d: seq<Delivery>, t: nat)
    requires t < |s.blocks| && t < |r.blocks| && t < |u.blocks|
    requires Undisturbed(s, r, [], t, false) && Live(u, t) && u.running == r.running && u.cpu == r.cpu
    requires u.blocks[t].regs == Received(r.blocks[t].regs, d, t)
    ensures Undisturbed(s, u, d, t, false)
  {
  }

  /** The step of event `e` leaves the waiting thread `t` alone, deliveries aside. */
  ghost predicate StepUndisturbed(s: State, e: Event, env: Env, t: nat)
    requires Inv(s)
  {
    && t < |s.blocks| && t < |Step(s, e, env).blocks|
    && Undisturbed(s, Step(s, e, env), StepLog(s, e, env).delivered, t, FailedStall(s, e, env))
  }

  lemma TrapContext(s: State, e: Event, env: Env, t: nat)
    requires Inv(s) && Away(s, t) && !s.panicked && e.Trap?
    ensures StepUndisturbed(s, e, env, t)
  {
    hide *;
    TrapStep(s, e.user, e.number, e.bytes, env);
    AwayEntered(s, e.user, t);
    var s1 := Entered(s, e.user);
    if !UserRunning(s) {
      PanicContext(s, t);
    } else if CallNumbered(e.number).Some? {
      DispatchContext(s1, CallNumbered(e.number).value, e.bytes, env, t);
      FailedStallIs(s, e, env);
      FromEntered(s, e.user, Step(s, e, env), t, FailedStall(s, e, env));
    } else {
      ExitThreadContext(s1, env, t);
      FromEntered(s, e.user, Step(s, e, env), t, false);
    }
    QuietStep(s, e, env, t);
  }

  lemma AwayEntered(s: State, user: Registers, t: nat)
    requires Inv(s) && Away(s, t)
    ensures Away(Entered(s, user), t) && t < |s.blocks| && t < |Entered(s, user).blocks|
  {
  }

  lemma PanicContext(s: State, t: nat)
    requires Inv(s) && Away(s, t)
    ensures t < |s.blocks| && t < |Panic(s).blocks|
    ensures Undisturbed(s, Panic(s), [], t, false)
  {
  }

  lemma FromEntered(s: State, user: Registers, r: State, t: nat, failed: bool)
    requires Inv(s) && t < |Entered(s, user).blocks| && t < |r.blocks|
    requires Undisturbed(Entered(s, user), r, [], t, failed)
    ensures t < |s.blocks| && Undisturbed(s, r, [], t, failed)
  {
  }

  lemma FailedStallIs(s: State, e: Event, env: Env)
    requires Inv(s) && UserRunning(s) && !s.panicked && e.Trap? && CallNumbered(e.number).Some?
    ensures UserRunning(Entered(s, e.user))
    ensures FailedStall(s, e, env) == FailingCall(Entered(s, e.user), CallNumbered(e.number).value, env)
  {
    hide Inv, FailingCall, CallNumbered;
  }

  /** Only interrupts deliver characters, and only traps fail to stall. */
  lemma QuietStep(s: State, e: Event, env: Env, t: nat)
    requires Inv(s) && !e.Irq? && t < |s.blocks| && t < |Step(s, e, env).blocks|
    requires Undisturbed(s, Step(s, e, env), [], t, FailedStall(s, e, env))
             || (!(e.Trap? && UserRunning(s) && CallNumbered(e.number).Some?)
                     && Undisturbed(s, Step(s, e, env), [], t, false))
    ensures StepUndisturbed(s, e, env, t)
  {
    hide Inv, Step, Undisturbed, FailingCall, CallNumbered;
  }

  lemma StoreContext(s: State, va: Word, byte: Byte, env: Env, t: nat)
    requires Inv(s) && Away(s, t) && UserRunning(s)
    ensures t < |s.blocks| && t < |UserStore(s, va, byte, env).blocks|
    ensures Undisturbed(s, UserStore(s, va, byte, env), [], t, false)
  {
    ExitThreadContext(s, env, t);
    hide ExitThreadCall, Target;
  }

  lemma AbortContext(s: State, e: Event, env: Env, t: nat)
    requires Inv(s) && Away(s, t) && !s.panicked && (e.Abort? || e.Store? || e.Tick?)
    ensures StepUndisturbed(s, e, env, t)
  {
    hide *;
    OtherSteps(s, e, env);
    StillAway(s, env, t);
    if e.Tick? {
      ClockedContext(s, Elapse(s.timer, e.d), t);
    } else if !UserRunning(s) {
      PanicContext(s, t);
    } else if e.Abort? {
      AwayEntered(s, e.user, t);
      ExitThreadContext(Entered(s, e.user), env, t);
      FromEntered(s, e.user, Step(s, e, env), t, false);
    } else {
      StoreContext(s, e.va, e.byte, env, t);
    }
    QuietStep(s, e, env, t);
  }

  lemma StillAway(s: State, env: Env, t: nat)
    requires Inv(s) && Away(s, t)
    ensures t < |s.blocks| && Undisturbed(s, s, [], t, false)
  {
  }

  lemma ClockedContext(s: State, tm: Timer, t: nat)
    requires Inv(s) && Away(s, t)
    ensures t < |s.blocks| && t < |Clocked(s, tm).blocks|
    ensures Undisturbed(s, Clocked(s, tm), [], t, false)
  {
  }

  lemma IrqContext(s: State, e: Event, env: Env, t: nat)
    requires Inv(s) && Away(s, t) && !s.panicked && e.Irq?
    ensures StepUndisturbed(s, e, env, t)
  {
    InvShape(s);
    hide Inv, Interrupt, InterruptLog;
    InterruptContext(Entered(s, e.user), e.received, env, t);
  }

  lemma StepContext(s: State, e: Event, env: Env, t: nat)
    requires Inv(s) && Away(s, t)
    ensures StepUndisturbed(s, e, env, t)
  {
    hide *;
    if s.panicked {
      HaltedContext(s, e, env, t);
    } else {
      match e
      case Trap(_, _, _) => TrapContext(s, e, env, t);
      case Irq(_, _) => IrqContext(s, e, env, t);
      case _ => AbortContext(s, e, env, t);
    }
  }

  lemma HaltedContext(s: State, e: Event, env: Env, t: nat)
    requires Inv(s) && Away(s, t) && s.panicked
    ensures StepUndisturbed(s, e, env, t)
  {
  }

  // ----- Switching out -----

  /** If the running thread `t` has lost the processor but lives on, the registers it came with are saved. */
  ghost predicate Saved(r: State, regs: Registers, t: nat) {
    t < |r.blocks| && (Live(r, t) && t !in r.running ==> r.blocks[t].regs == regs)
  }

  lemma RoundRobinSaves(s: State, forced: bool, env: Env, t: nat)
    requires Inv(s) && MaySwitch(s, forced) && s.running == [t]
    ensures Saved(RoundRobin(s, forced, env), s.cpu, t)
  {
  }

  lemma StallThreadSaves(s: State, env: Env, t: nat)
    requires Inv(s) && UserRunning(s) && s.running == [t]
    ensures Saved(StallThreadCall(s, env), s.cpu, t)
  {
    RoundRobinSaves(s, true, env, t);
    hide *;
    var s1 := Yielded(s, env);
    StallBranches(s, env);
    YieldedIs(s, env);
    RearmedSame(s1, env);
    var s2 := Rearmed(s1, env);
    SameRegistersSaves(s1, s2, s.cpu, t);
    var h := ToHertz(s.cpu.general[0]);
    if !s1.panicked && s.cpu.general[0] != 0 {
      if h.Some? {
        AwaitTimerContext(s2, s.running[0], h.value, env);
        SameRegistersSaves(s2, StallThreadCall(s, env), s.cpu, t);
      } else {
        AnsweredSaves(s2, s.cpu, t);
      }
    }
  }

  lemma SameRegistersSaves(r: State, u: State, regs: Registers, t: nat)
    requires Saved(r, regs, t) && SameRegisters(r, u)
    ensures Saved(u, regs, t)
  {
  }

  lemma AnsweredSaves(r: State, regs: Registers, t: nat)
    requires Inv(r) && Saved(r, regs, t)
    ensures Saved(Answered(r, EINVAL), regs, t)
  {
  }

  lemma ReadCharacterSaves(s: State, env: Env, t: nat)
    requires Inv(s) && UserRunning(s) && s.running == [t]
    ensures Saved(ReadCharacterCall(s, env), s.cpu, t)
  {
    RoundRobinSaves(s, true, env, t);
    hide Inv, RoundRobin;
  }

  lemma ExitThreadEnds(s: State, env: Env, t: nat)
    requires Inv(s) && UserRunning(s) && s.running == [t]
    ensures !Live(ExitThreadCall(s, env), t) && t < |ExitThreadCall(s, env).blocks|
  {
  }

  lemma CreateStays(s: State, bytes: seq<Byte>, env: Env)
    requires Inv(s) && UserRunning(s)
    ensures var r := CreateProcessSyscall(s, bytes, env); r.running == s.running && |r.blocks| == |s.blocks|
    ensures var r := CreateThreadSyscall(s, bytes, env); r.running == s.running && |r.blocks| == |s.blocks|
  {
    CreateProcessSpares(s, bytes, env);
    CreateThreadSpares(s, bytes, env);
    hide Inv, CreateProcessSyscall, CreateThreadSyscall, Live;
  }

  lemma DispatchSaves(s: State, call: Call, bytes: seq<Byte>, env: Env, t: nat)
    requires Inv(s) && UserRunning(s) && s.running == [t]
    ensures Saved(Dispatch(s, call, bytes, env), s.cpu, t)
  {
    InvShape(s);
    hide Inv, ReadCharacterCall, CreateProcessSyscall, CreateThreadSyscall, StallThreadCall, ExitThreadCall;
    match call {
      case ReadCharacter => ReadCharacterSaves(s, env, t);
      case CreateProcessCall => CreateStays(s, bytes, env);
      case CreateThreadCall => CreateStays(s, bytes, env);
      case StallThread => StallThreadSaves(s, env, t);
      case ExitThread => ExitThreadEnds(s, env, t);
      case GetTime =>
      case OutputCharacter =>
      case GetThreadId =>
    }
  }

  lemma DeliverSaves(s: State, regs: Registers, t: nat)
    requires Inv(s) && Saved(s, regs, t) && t < Users(s.cfg) && t !in s.input
    ensures Saved(Deliver(s), regs, t)
  {
    InvShape(s);
    DeliverLength(s);
    DeliverRest(s);
    hide Inv, Deliver;
    if Live(s, t) {
      DeliverContext(s, t);
      ReceivedNothing(s.blocks[t].regs, Pairing(s.input, s.uart), t);
    }
  }

  lemma InterruptSaves(s: State, received: Option<Byte>, env: Env, t: nat)
    requires Inv(s) && UserRunning(s) && s.running == [t]
    ensures Saved(Interrupt(s, received, env), s.cpu, t)
  {
    hide *;
    var s1 := WokenByTimer(s, env);
    InterruptStages(s, received, env);
    WokenContext(s, env);
    SameRunning(s, s1, t);
    SliceEndedSaves(s1, env, t);
    var s2 := SliceEnded(s1, env);
    NotWaiting(s1, env, t);
    if !s2.panicked {
      ReceiveSaves(s2, received, s.cpu, t);
      DeliverSaves(Receive(s2, received), s.cpu, t);
    }
  }

  lemma SameRunning(s: State, r: State, t: nat)
    requires Inv(s) && UserRunning(s) && s.running == [t] && SameRegisters(s, r)
    ensures r.running == [t] && r.cpu == s.cpu && t < Users(r.cfg)
  {
  }

  lemma ReceiveSaves(s: State, received: Option<Byte>, regs: Registers, t: nat)
    requires Inv(s) && Saved(s, regs, t) && t < Users(s.cfg) && t !in s.input
    ensures var r := Receive(s, received); Saved(r, regs, t) && t < Users(r.cfg) && t !in r.input
  {
  }

  lemma DeliverLength(s: State)
    requires Inv(s)
    ensures |Deliver(s).blocks| == |s.blocks|
  {
    InvShape(s);
    DeliverRest(s);
    InvShape(Deliver(s));
  }

  lemma SliceEndedSaves(s: State, env: Env, t: nat)
    requires Inv(s) && s.running == [t]
    ensures Saved(SliceEnded(s, env), s.cpu, t)
  {
    RoundRobinSaves(s, false, env, t);
    hide Inv, RoundRobin;
  }

  lemma NotWaiting(s: State, env: Env, t: nat)
    requires Inv(s) && s.running == [t] && t < Users(s.cfg)
    ensures t !in SliceEnded(s, env).input && t < Users(SliceEnded(s, env).cfg)
  {
    ListedIsLive(s, t);
  }

  lemma StepSaves(s: State, e: Event, env: Env, t: nat)
    requires Inv(s) && UserRunning(s) && s.running == [t] && (e.Trap? || e.Irq?)
    ensures Saved(Step(s, e, env), e.user, t)
  {
    InvShape(s);
    hide Inv, Dispatch, ExitThreadCall, Interrupt;
    if !s.panicked {
      match e
      case Trap(user, number, bytes) =>
        match CallNumbered(number) {
          case Some(call) => DispatchSaves(Entered(s, user), call, bytes, env, t);
          case None => ExitThreadEnds(Entered(s, user), env, t);
        }
      case Irq(user, received) => InterruptSaves(Entered(s, user), received, env, t);
    }
  }

  // ----- Over runs -----

  lemma {:induction false} ReceivedJoin(regs: Registers, a: seq<Delivery>, b: seq<Delivery>, t: nat)
    ensures Received(regs, a + b, t) == Received(Received(regs, a, t), b, t)
    decreases |a|
  {
    if a == [] {
      assert a + b == b;
    } else {
      assert (a + b)[1..] == a[1..] + b;
      ReceivedJoin(if a[0].thread == t then SetR0(regs, a[0].ch) else regs, a[1..], b, t);
    }
  }

  /** `t` does not run from `s` to the end of the run. */
  ghost predicate AwayThroughout(s: State, es: seq<Event>, env: Env, t: nat)
    requires Inv(s)
    decreases |es|
  {
    t !in s.running && (es == [] || AwayThroughout(Step(s, es[0], env), es[1..], env, t))
  }

  lemma {:induction false} AwayKeepsContext(s: State, es: seq<Event>, env: Env, t: nat)
    requires Inv(s) && Away(s, t) && AwayThroughout(s, es, env, t)
    ensures t < |s.blocks| && t < |Run(s, es, env).blocks| && Away(Run(s, es, env), t)
    ensures Run(s, es, env).blocks[t].regs == Received(s.blocks[t].regs, RunLog(s, es, env).delivered, t)
    decreases |es|
  {
    InvShape(s);
    hide Inv, Step, StepLog;
    if es != [] {
      var s1 := Step(s, es[0], env);
      StepContext(s, es[0], env, t);
      AwayKeepsContext(s1, es[1..], env, t);
      ReceivedJoin(s.blocks[t].regs, StepLog(s, es[0], env).delivered, RunLog(s1, es[1..], env).delivered, t);
    }
  }

  /**
    A thread interrupted with registers `e0.user` resumes, however much later, with exactly
    those, but for r0 if a character was delivered to it, or if the switch to it was made by a
    stall call that then failed.
   */
  lemma ResumesWhereItStopped(s: State, e0: Event, es: seq<Event>, e1: Event, env: Env, t: nat)
    requires Inv(s) && UserRunning(s) && s.running == [t] && (e0.Trap? || e0.Irq?)
    requires var s1 := Step(s, e0, env);
             Live(s1, t) && AwayThroughout(s1, es, env, t)
    requires var s2 := Run(Step(s, e0, env), es, env);
             !s2.panicked && t in Step(s2, e1, env).running
    ensures var s1 := Step(s, e0, env);
            var s2 := Run(s1, es, env);
            var regs := Received(e0.user, RunLog(s1, es, env).delivered, t);
            Step(s2, e1, env).cpu == if FailedStall(s2, e1, env) then SetR0(regs, EINVAL) else regs
  {
    StepSaves(s, e0, env, t);
    hide Inv, Step, StepLog, FailedStall;
    var s1 := Step(s, e0, env);
    AwayKeepsContext(s1, es, env, t);
    var s2 := Run(s1, es, env);
    StepContext(s2, e1, env, t);
  }

  // ----- The stall call that fails -----

  /**
    A stall fails exactly when its duration is refused and the switch before the conversion does not
    halt the machine.
   */
  lemma FailedStallExactlyWhen(s: State, e: Event, env: Env)
    requires Inv(s)
    ensures FailedStall(s, e, env) <==>
              && !s.panicked && e.Trap? && UserRunning(s) && CallNumbered(e.number) == Some(StallThread)
              && StallSorted(s.blocks, s.stall) && KTiming.Refused(e.user.general[0])
  {
    hide *;
    if e.Trap? && UserRunning(s) {
      FailingMeans(s, e, env);
      KTiming.StallFailsExactlyWhen(e.user.general[0]);
      KTiming.ShorterStallsAreAccepted(0);
      Halting.SwitchHaltsExactlyWhenUnsorted(Entered(s, e.user), true, env);
    } else {
      NoTrapFails(s, e, env);
    }
  }

  lemma FailingMeans(s: State, e: Event, env: Env)
    requires Inv(s) && e.Trap? && UserRunning(s)
    ensures var s0 := Entered(s, e.user);
            && UserRunning(s0) && MaySwitch(s0, true) && Switches(s0, true)
            && s0.blocks == s.blocks && s0.stall == s.stall
            && (FailedStall(s, e, env) <==>
                  (&& !s.panicked && CallNumbered(e.number) == Some(StallThread) && !RoundRobin(s0, true, env).panicked
                   && e.user.general[0] != 0 && KTiming.Ticks(e.user.general[0]) == None))
  {
    YieldedIs(Entered(s, e.user), env);
    hide Inv, RoundRobin, Yielded, CallNumbered, KTiming.Ticks;
  }

  lemma NoTrapFails(s: State, e: Event, env: Env)
    requires Inv(s) && !(e.Trap? && UserRunning(s))
    ensures !FailedStall(s, e, env)
  {
    hide Inv, FailingCall;
  }

  /** No stall of less than 1100032 milliseconds fails; one of exactly that long does. */
  lemma EighteenMinutes(s: State, user: Registers, bytes: seq<Byte>, env: Env)
    requires Inv(s) && UserRunning(s) && !s.panicked && StallSorted(s.blocks, s.stall)
    ensures user.general[0] < 1100032 ==> !FailedStall(s, Trap(user, 5, bytes), env)
    ensures user.general[0] == 1100032 ==> FailedStall(s, Trap(user, 5, bytes), env)
  {
    hide Inv, KTiming.Refused, FailedStall, StallSorted;
    FailedStallExactlyWhen(s, Trap(user, 5, bytes), env);
    KTiming.FirstRefused();
    if user.general[0] < 1100032 {
      KTiming.ShorterStallsAreAccepted(user.general[0]);
    }
  }

  /**
    The error code of a failed stall is given to the thread that was switched in. The caller is only
    put at the end of the ready list: it will find its registers as they were and not have slept.
   */
  lemma FailedStallAnswersAnother(s: State, e: Event, env: Env)
    requires Inv(s) && FailedStall(s, e, env)
    ensures UserRunning(s) && |s.blocks| == Idle(s) + 1 && (s.ready != [] ==> s.ready[0] < Idle(s))
    ensures var t, u := s.running[0], if s.ready == [] then Idle(s) else s.ready[0];
            var r := Step(s, e, env);
            && t != u && r.running == [u] && r.cpu == SetR0(s.blocks[u].regs, EINVAL)
            && r.ready == (if s.ready == [] then [] else s.ready[1..]) + [t]
            && |r.blocks| == |s.blocks| && r.blocks[t].regs == e.user && r.stall == s.stall && !r.panicked
  {
    hide *;
    FailingIs(s, e, env);
    TrapStep(s, e.user, e.number, e.bytes, env);
    var s0 := Entered(s, e.user);
    DispatchCases(s0, e.bytes, env);
    StallBranches(s0, env);
    YieldedIs(s0, env);
    SwitchedIs(s, e.user, env);
    AnsweredIs(Yielded(s0, env), env);
  }

  lemma FailingIs(s: State, e: Event, env: Env)
    requires Inv(s) && FailedStall(s, e, env)
    ensures UserRunning(s) && !s.panicked && e.Trap? && CallNumbered(e.number) == Some(StallThread)
    ensures UserRunning(Entered(s, e.user)) && FailingCall(Entered(s, e.user), StallThread, env)
  {
    hide Inv, Yielded, CallNumbered;
  }

  lemma SwitchedIs(s: State, user: Registers, env: Env)
    requires Inv(s) && UserRunning(s)
    ensures |s.blocks| == Idle(s) + 1 && (s.ready != [] ==> s.ready[0] < Idle(s)) && s.running != []
    ensures var t, u := s.running[0], if s.ready == [] then Idle(s) else s.ready[0];
            var r := RoundRobin(Entered(s, user), true, env);
            && t != u && r.running == [u] && r.cpu == s.blocks[u].regs
            && r.ready == (if s.ready == [] then [] else s.ready[1..]) + [t]
            && |r.blocks| == |s.blocks| && r.blocks[t].regs == user && r.stall == s.stall
  {
    ListedIsLive(s, s.running[0]);
  }

  lemma AnsweredIs(s: State, env: Env)
    requires Inv(s)
    ensures Answered(Rearmed(s, env), EINVAL) == s.(cpu := SetR0(s.cpu, EINVAL), timer := Restart(s.timer, env.delays))
  {
  }
}
