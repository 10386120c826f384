/** The idle thread: it always resumes at `halt_cpu`, on its own stack (kernel/scheduler.c:82-89). */
module IdleThread {
  import opened Words
  import opened IntrusiveList
  import opened Mmu
  import opened SysTimer
  import opened Model
  import opened Invariant
  import opened Preservation
  import opened Machine
  import opened Boot
  import opened InputMatching
  import opened ContextSwitch
  import Halting

  /** What idle resumes with stays the same, and if it has got the processor it resumes with that. */
  ghost predicate IdleKept(s: State, r: State, failed: bool) {
    && r.cfg == s.cfg && |s.blocks| == |r.blocks| == Idle(s) + 1
    && r.blocks[Idle(s)].regs == s.blocks[Idle(s)].regs
    && (Idle(s) in r.running && Idle(s) !in s.running ==>
          r.cpu == if failed then SetR0(s.blocks[Idle(s)].regs, EINVAL) else s.blocks[Idle(s)].regs)
  }

  /** A switch runs the idle thread exactly when nobody is ready. */
  lemma SwitchToIdle(s: State, forced: bool, env: Env)
    requires Inv(s) && MaySwitch(s, forced)
    ensures IdleKept(s, RoundRobin(s, forced, env), false)
    ensures Switches(s, forced) ==> (RoundRobin(s, forced, env).running == [Idle(s)] <==> s.ready == [])
  {
  }

  lemma UnchangedIdle(s: State, v: Word, env: Env)
    requires Inv(s)
    ensures IdleKept(s, s, false) && IdleKept(s, Answered(s, v), false) && IdleKept(s, GetTimeCall(s, env), false)
    ensures IdleKept(s, Panic(s), false) && IdleKept(s, Rearmed(s, env), false)
  {
  }

  lemma SameRegistersIdle(s: State, r: State, u: State, failed: bool)
    requires IdleKept(s, r, failed) && SameRegisters(r, u)
    ensures IdleKept(s, u, failed)
  {
  }

  lemma AnsweredIdle(s: State, r: State)
    requires Inv(r) && IdleKept(s, r, false) && Idle(s) !in s.running && Idle(s) in r.running
    ensures IdleKept(s, Answered(r, EINVAL), true)
  {
  }

  lemma AnsweredElse(s: State, r: State)
    requires Inv(r) && IdleKept(s, r, false) && Idle(s) !in r.running
    ensures IdleKept(s, Answered(r, EINVAL), true)
  {
  }

  lemma ReadCharacterIdle(s: State, env: Env)
    requires Inv(s) && UserRunning(s)
    ensures IdleKept(s, ReadCharacterCall(s, env), false)
  {
    SwitchToIdle(s, true, env);
    hide Inv, RoundRobin;
  }

  lemma ExitThreadIdle(s: State, env: Env)
    requires Inv(s) && UserRunning(s)
    ensures IdleKept(s, ExitThreadCall(s, env), false)
  {
    RunningIsSeated(s);
    CleanupKeepsInv(s);
    SwitchToIdle(CleanupThread(s), false, env);
    hide Inv, RoundRobin;
  }

  lemma StallThreadIdle(s: State, env: Env)
    requires Inv(s) && UserRunning(s)
    ensures IdleKept(s, StallThreadCall(s, env), FailingCall(s, StallThread, env))
  {
    SwitchToIdle(s, true, env);
    UserNotIdle(s);
    hide *;
    var s1 := Yielded(s, env);
    StallBranches(s, env);
    YieldedIs(s, env);
    var h := ToHertz(s.cpu.general[0]);
    RearmedSame(s1, env);
    var s2 := Rearmed(s1, env);
    SameRegistersIdle(s, s1, s2, false);
    if !s1.panicked && s.cpu.general[0] != 0 {
      if h.Some? {
        AwaitTimerContext(s2, s.running[0], h.value, env);
        SameRegistersIdle(s, s2, StallThreadCall(s, env), false);
      } else if Idle(s) in s2.running {
        AnsweredIdle(s, s2);
      } else {
        AnsweredElse(s, s2);
      }
    }
  }

  lemma UserNotIdle(s: State)
    requires Inv(s) && UserRunning(s)
    ensures Idle(s) !in s.running
  {
  }

  lemma StartThreadIdle(s: State, pid: nat, slot: nat, func: Word, args: seq<Byte>, env: Env)
    requires Inv(s) && s.finished != [] && pid < s.cfg.spaces && slot < s.cfg.slots && |args| <= STACK_SIZE
    ensures IdleKept(s, StartThread(s, pid, slot, func, args, env), false)
  {
  }

  lemma StartCallIdle(s: State, pid: nat, slot: nat, bytes: seq<Byte>, env: Env)
    requires Inv(s) && s.finished != [] && pid < s.cfg.spaces && slot < s.cfg.slots && !s.slots[pid][slot]
    requires s.cpu.general[2] <= STACK_SIZE
    ensures IdleKept(s, StartCall(s, pid, slot, bytes, env), false)
  {
    StartCallIs(s, pid, slot, bytes, env);
    UnchangedIdle(s, 0, env);
    StartThreadIdle(s, pid, slot, s.cpu.general[0], Arguments(s, bytes), env);
    hide *;
  }

  lemma CopyImageIdle(s: State, space: nat, r: State)
    requires Shape(s) && space < s.cfg.spaces && IdleKept(CopyImage(s, space), r, false)
    ensures IdleKept(s, r, false)
  {
  }

  lemma CreateIdle(s: State, bytes: seq<Byte>, env: Env)
    requires Inv(s) && UserRunning(s)
    ensures IdleKept(s, CreateThreadSyscall(s, bytes, env), false)
    ensures IdleKept(s, CreateProcessSyscall(s, bytes, env), false)
  {
    hide *;
    CreateRefused(s, bytes, env);
    UnchangedIdle(s, EINVAL, env);
    UnchangedIdle(s, EBUSY, env);
    var pid := s.blocks[s.running[0]].pid;
    var slot, space := FirstEmptySlot(s.slots[pid], 0), FirstEmptySpace(s.spaces, 0);
    if s.cpu.general[2] <= STACK_SIZE {
      if slot.Some? {
        ThreadCall(s, slot.value, bytes, env);
        StartCallIdle(s, pid, slot.value, bytes, env);
      }
      if space.Some? {
        ProcessCall(s, space.value, bytes, env);
        StartCallIdle(CopyImage(s, space.value), space.value, 0, bytes, env);
        CopyImageIdle(s, space.value, CreateProcessSyscall(s, bytes, env));
      }
    }
  }

  lemma DispatchIdle(s: State, call: Call, bytes: seq<Byte>, env: Env)
    requires Inv(s) && UserRunning(s)
    ensures IdleKept(s, Dispatch(s, call, bytes, env), FailingCall(s, call, env))
  {
    hide *;
    DispatchCases(s, bytes, env);
    OnlyStallsFail(s, call, env);
    UnchangedIdle(s, s.running[0], env);
    match call {
      case ReadCharacter => ReadCharacterIdle(s, env);
      case CreateProcessCall => CreateIdle(s, bytes, env);
      case CreateThreadCall => CreateIdle(s, bytes, env);
      case StallThread => StallThreadIdle(s, env);
      case ExitThread => ExitThreadIdle(s, env);
      case _ =>
    }
  }

  lemma SliceIdle(s: State, env: Env)
    requires Inv(s)
    ensures IdleKept(s, SliceEnded(s, env), false)
  {
    SwitchToIdle(s, false, env);
    hide Inv, RoundRobin;
  }

  lemma InterruptIdle(s: State, received: Option<Byte>, env: Env)
    requires Inv(s)
    ensures IdleKept(s, Interrupt(s, received, env), false)
  {
    hide *;
    var s1 := WokenByTimer(s, env);
    var s2 := SliceEnded(s1, env);
    InterruptStages(s, received, env);
    WokenContext(s, env);
    SliceIdle(s1, env);
    AfterSame(s, s1, s2);
    if !s2.panicked {
      DeliverIdle(s, s2, received);
    }
  }

  lemma AfterSame(s: State, r: State, u: State)
    requires SameRegisters(s, r) && IdleKept(r, u, false)
    ensures IdleKept(s, u, false)
  {
  }

  /** Idle never waits for input. */
  lemma DeliverIdle(s: State, r: State, received: Option<Byte>)
    requires Inv(r) && IdleKept(s, r, false)
    ensures IdleKept(s, Deliver(Receive(r, received)), false)
  {
    var r1 := Receive(r, received);
    assert r1 == r.(uart := r1.uart);
    DeliverRest(r1);
    DeliverBlocks(r1, Idle(r1));
    assert forall i :: 0 <= i < |r1.input| ==> r1.input[i] != Idle(r1);
    ReceivedNothing(r1.blocks[Idle(r1)].regs, Pairing(r1.input, r1.uart), Idle(r1));
    hide Inv, Deliver;
  }

  lemma FromEnteredIdle(s: State, user: Registers, r: State, failed: bool)
    requires Inv(s) && IdleKept(Entered(s, user), r, failed)
    ensures IdleKept(s, r, failed)
  {
  }

  lemma TrapIdle(s: State, e: Event, env: Env)
    requires Inv(s) && !s.panicked && e.Trap?
    ensures IdleKept(s, Step(s, e, env), FailedStall(s, e, env))
  {
    hide *;
    TrapStep(s, e.user, e.number, e.bytes, env);
    UnchangedIdle(s, 0, env);
    var s1 := Entered(s, e.user);
    OnlyTrapsFail(s, e, env);
    if UserRunning(s) && CallNumbered(e.number).Some? {
      DispatchIdle(s1, CallNumbered(e.number).value, e.bytes, env);
      FailedStallIs(s, e, env);
      FromEnteredIdle(s, e.user, Step(s, e, env), FailedStall(s, e, env));
    } else if UserRunning(s) {
      ExitThreadIdle(s1, env);
      FromEnteredIdle(s, e.user, Step(s, e, env), false);
    }
  }

  lemma OnlyTrapsFail(s: State, e: Event, env: Env)
    requires Inv(s)
    ensures FailedStall(s, e, env) ==> e.Trap? && !s.panicked && UserRunning(s) && CallNumbered(e.number).Some?
  {
    hide FailingCall, CallNumbered;
  }

  lemma StoreIdle(s: State, va: Word, byte: Byte, env: Env)
    requires Inv(s) && UserRunning(s)
    ensures IdleKept(s, UserStore(s, va, byte, env), false)
  {
    ExitThreadIdle(s, env);
    hide ExitThreadCall, Target;
  }

  lemma TickIdle(s: State, tm: Timer)
    requires Inv(s)
    ensures IdleKept(s, Clocked(s, tm), false)
  {
  }

  /** No step touches what idle resumes with, and a step that gives it the processor resumes with it. */
  lemma StepIdle(s: State, e: Event, env: Env)
    requires Inv(s)
    ensures IdleKept(s, Step(s, e, env), FailedStall(s, e, env))
  {
    hide *;
    OnlyTrapsFail(s, e, env);
    UnchangedIdle(s, 0, env);
    if s.panicked {
      Halting.HaltedStays(s, e, env);
    } else {
      OtherSteps(s, e, env);
      match e
      case Trap(_, _, _) => TrapIdle(s, e, env);
      case Irq(user, received) =>
        InterruptIdle(Entered(s, user), received, env);
        FromEnteredIdle(s, user, Step(s, e, env), false);
      case Tick(d) => TickIdle(s, Elapse(s.timer, d));
      case Abort(user) =>
        if UserRunning(s) {
          ExitThreadIdle(Entered(s, user), env);
          FromEnteredIdle(s, user, Step(s, e, env), false);
        }
      case Store(va, byte) =>
        if UserRunning(s) {
          StoreIdle(s, va, byte, env);
        }
    }
  }

  /** Over a whole run too. */
  lemma {:induction false} RunIdle(s: State, es: seq<Event>, env: Env)
    requires Inv(s)
    ensures var r := Run(s, es, env);
            && r.cfg == s.cfg && |s.blocks| == |r.blocks| == Idle(s) + 1
            && r.blocks[Idle(s)].regs == s.blocks[Idle(s)].regs
    decreases |es|
  {
    InvShape(s);
    hide Inv, Step;
    if es != [] {
      StepIdle(s, es[0], env);
      RunIdle(Step(s, es[0], env), es[1..], env);
    }
  }

  lemma InitialIdle(cfg: Config, b: Platform, env: Env)
    requires ValidPlatform(b)
    ensures var s := Initial(cfg, b, env);
            && s.cfg == cfg && Idle(s) < |s.blocks| && s.blocks[Idle(s)].regs.sp == 123 * 0x10_0000
            && s.blocks[Idle(s)].regs.lr == s.blocks[Idle(s)].regs.pc == b.haltCpu
            && forall i :: 0 <= i < 13 ==> s.blocks[Idle(s)].regs.general[i] == 0
  {
  }

  /**
    From power-on, idle always gets the processor at `halt_cpu` in system mode, its stack five below the top of
    memory, with its other registers zero except that a stall call that failed leaves its code in r0.
   */
  lemma IdleHalts(cfg: Config, b: Platform, env: Env, es: seq<Event>, e: Event)
    requires ValidPlatform(b)
    ensures var s := Run(Initial(cfg, b, env), es, env);
            var r := Step(s, e, env);
            && s.cfg == cfg && Idle(s) < |s.blocks| && s.blocks[Idle(s)].mode == System
            && (Idle(s) in r.running && Idle(s) !in s.running ==>
                  && r.cpu.sp == 123 * 0x10_0000 && r.cpu.lr == r.cpu.pc == b.haltCpu
                  && r.cpu.general[0] == (if FailedStall(s, e, env) then 0xffff_ffff else 0)
                  && forall i :: 1 <= i < 13 ==> r.cpu.general[i] == 0)
  {
    hide Inv, Step, Run, Initial, FailedStall, IdleKept, ValidPlatform;
    var s := Run(Initial(cfg, b, env), es, env);
    InitialIdle(cfg, b, env);
    RunIdle(Initial(cfg, b, env), es, env);
    StepIdle(s, e, env);
    IdleMode(s);
    ResumedIdle(s, Step(s, e, env), b.haltCpu, FailedStall(s, e, env));
  }

  lemma IdleMode(s: State)
    requires Inv(s)
    ensures Idle(s) < |s.blocks| && s.blocks[Idle(s)].mode == System
  {
  }

  lemma ResumedIdle(s: State, r: State, haltCpu: Word, failed: bool)
    requires IdleKept(s, r, failed)
    requires s.blocks[Idle(s)].regs.sp == 123 * 0x10_0000
    requires s.blocks[Idle(s)].regs.lr == s.blocks[Idle(s)].regs.pc == haltCpu
    requires forall i :: 0 <= i < 13 ==> s.blocks[Idle(s)].regs.general[i] == 0
    ensures Idle(s) in r.running && Idle(s) !in s.running ==>
              && r.cpu.sp == 123 * 0x10_0000 && r.cpu.lr == r.cpu.pc == haltCpu
              && r.cpu.general[0] == (if failed then 0xffff_ffff else 0)
              && forall i :: 1 <= i < 13 ==> r.cpu.general[i] == 0
  {
  }
}
