/**
  Stall calls from call to wake-up: the deadline a thread is entered with, that nothing else changes a
  deadline, and that a thread is not put back on the ready list before its time.
 */
module Deadlines {
  import opened Words
  import opened IntrusiveList
  import opened Mmu
  import opened SysTimer
  import opened Model
  import opened Invariant
  import opened Preservation
  import opened Machine
  import opened InputMatching
  import opened WakeUp
  import KTiming
  import ContextSwitch
  import Halting
  import TimeSlices

  // ----- Entering the stall list -----

  /** No block's deadline is changed. */
  ghost predicate SameDeadlines(s: State, r: State) {
    |r.blocks| == |s.blocks| && forall u: nat :: u < |s.blocks| ==> r.blocks[u].stallUntil == s.blocks[u].stallUntil
  }

  /** Only block `t` has a new deadline, `deadline`. */
  ghost predicate NewDeadline(s: State, r: State, t: nat, deadline: Word) {
    && |r.blocks| == |s.blocks|
    && forall u: nat :: u < |s.blocks| ==> r.blocks[u].stallUntil == if u == t then deadline else s.blocks[u].stallUntil
  }

  lemma PlusIsModular(a: Word, b: Word)
    ensures Plus(a, b) == (a + b) % WORD_SIZE
  {
  }

  lemma UnblockOverdueDeadlines(s: State, env: Env)
    requires Shape(s)
    ensures UnblockOverdue(s, env).blocks == s.blocks
  {
    var k := UnblockOverdueWakesPrefix(s, env);
    hide UnblockOverdue;
  }

  /** On any stall list, the thread gets the reading of the clock plus its ticks, and no other deadline changes. */
  lemma AwaitTimerDeadlines(s: State, t: nat, ticks: Word, env: Env)
    requires Shape(s) && s.ready != [] && s.ready[|s.ready| - 1] == t
    ensures NewDeadline(s, AwaitTimer(s, t, ticks, env), t, (Read(s.timer, env.delays).clo + ticks) % WORD_SIZE)
  {
    hide *;
    EnterStallBlocks(s, t, ticks, env);
    AwaitTimerBlocks(s, t, ticks, env);
  }

  lemma EnterStallBlocks(s: State, t: nat, ticks: Word, env: Env)
    requires Shape(s) && s.ready != [] && s.ready[|s.ready| - 1] == t
    ensures forall r: State :: r.blocks == EnterStall(s, t, ticks, env).blocks ==>
              NewDeadline(s, r, t, (Read(s.timer, env.delays).clo + ticks) % WORD_SIZE)
  {
    PlusIsModular(Read(s.timer, env.delays).clo, ticks);
    hide SortedInsert, Read;
  }

  lemma AwaitTimerBlocks(s: State, t: nat, ticks: Word, env: Env)
    requires Shape(s) && s.ready != [] && s.ready[|s.ready| - 1] == t
    ensures AwaitTimer(s, t, ticks, env).blocks == EnterStall(s, t, ticks, env).blocks
  {
    var a := AdjustStallTimer(EnterStall(s, t, ticks, env), env);
    UnblockOverdueTurn(EnterStall(s, t, ticks, env), env);
    UnblockOverdueDeadlines(a.state, env);
    hide UnblockOverdue, EnterStall, AdjustStallTimer;
  }

  /** On a list that is not empty it takes its place, and neither wakes anybody nor touches the alarm. */
  lemma AwaitTimerEnters(s: State, t: nat, ticks: Word, env: Env)
    requires Inv(s) && s.ready != [] && s.ready[|s.ready| - 1] == t && s.stall != []
    ensures var r := AwaitTimer(s, t, ticks, env);
            && r == s.(ready := r.ready, stall := r.stall, blocks := r.blocks, timer := Read(s.timer, env.delays))
            && r.stall == SortedInsert(s.stall, t, StallOrder(r.blocks)) && r.ready == s.ready[..|s.ready| - 1]
  {
    var s1 := EnterStall(s, t, ticks, env);
    InsertionPlace(s1.blocks, s.stall, t);
    ListedIsLive(s, t);
    hide SortedInsert, Inv;
  }

  // ----- Every step -----

  /** The event is a stall call that gets as far as entering the list. */
  ghost predicate EntersStall(s: State, e: Event) {
    && !s.panicked && e.Trap? && e.number == 5 && UserRunning(s) && StallSorted(s.blocks, s.stall)
    && e.user.general[0] != 0 && !KTiming.Refused(e.user.general[0])
  }

  /** The timer with the reading such a call takes. */
  function CallTime(s: State, env: Env): Timer {
    Read(Restart(s.timer, env.delays), env.delays)
  }

  /** The ticks it asks for. */
  function Asked(e: Event): Word
    requires e.Trap?
  {
    match KTiming.Ticks(e.user.general[0])
    case None => 0
    case Some(ticks) => ticks
  }

  lemma SwitchDeadlines(s: State, forced: bool, env: Env)
    requires Inv(s) && MaySwitch(s, forced)
    ensures SameDeadlines(s, RoundRobin(s, forced, env))
  {
  }

  lemma ReadCharacterDeadlines(s: State, env: Env)
    requires Inv(s) && UserRunning(s)
    ensures SameDeadlines(s, ReadCharacterCall(s, env))
  {
    SwitchDeadlines(s, true, env);
    hide Inv, RoundRobin;
  }

  lemma ExitThreadDeadlines(s: State, env: Env)
    requires Inv(s) && UserRunning(s)
    ensures SameDeadlines(s, ExitThreadCall(s, env))
  {
    RunningIsSeated(s);
    CleanupKeepsInv(s);
    SwitchDeadlines(CleanupThread(s), false, env);
    hide Inv, RoundRobin;
  }

  lemma AnswersDeadlines(s: State, v: Word, env: Env)
    requires Inv(s)
    ensures SameDeadlines(s, s) && SameDeadlines(s, Answered(s, v)) && SameDeadlines(s, GetTimeCall(s, env))
    ensures SameDeadlines(s, Panic(s)) && SameDeadlines(s, Rearmed(s, env))
  {
  }

  lemma StartCallDeadlines(s: State, pid: nat, slot: nat, bytes: seq<Byte>, env: Env)
    requires Inv(s) && s.finished != [] && pid < s.cfg.spaces && slot < s.cfg.slots && !s.slots[pid][slot]
    requires s.cpu.general[2] <= STACK_SIZE
    ensures SameDeadlines(s, StartCall(s, pid, slot, bytes, env))
  {
    StartCallIs(s, pid, slot, bytes, env);
    StartThreadDeadlines(s, pid, slot, s.cpu.general[0], Arguments(s, bytes), env);
    AnswersDeadlines(s, 0, env);
    hide *;
  }

  lemma StartThreadDeadlines(s: State, pid: nat, slot: nat, func: Word, args: seq<Byte>, env: Env)
    requires Inv(s) && s.finished != [] && pid < s.cfg.spaces && slot < s.cfg.slots && |args| <= STACK_SIZE
    ensures SameDeadlines(s, StartThread(s, pid, slot, func, args, env))
  {
  }

  lemma CopyImageDeadlines(s: State, space: nat, r: State)
    requires Shape(s) && space < s.cfg.spaces && SameDeadlines(CopyImage(s, space), r)
    ensures SameDeadlines(s, r)
  {
  }

  lemma CreateDeadlines(s: State, bytes: seq<Byte>, env: Env)
    requires Inv(s) && UserRunning(s)
    ensures SameDeadlines(s, CreateThreadSyscall(s, bytes, env))
    ensures SameDeadlines(s, CreateProcessSyscall(s, bytes, env))
  {
    hide *;
    CreateRefused(s, bytes, env);
    AnswersDeadlines(s, EINVAL, env);
    AnswersDeadlines(s, EBUSY, env);
    var pid := s.blocks[s.running[0]].pid;
    var slot, space := FirstEmptySlot(s.slots[pid], 0), FirstEmptySpace(s.spaces, 0);
    if s.cpu.general[2] <= STACK_SIZE {
      if slot.Some? {
        ThreadCall(s, slot.value, bytes, env);
        StartCallDeadlines(s, pid, slot.value, bytes, env);
      }
      if space.Some? {
        ProcessCall(s, space.value, bytes, env);
        StartCallDeadlines(CopyImage(s, space.value), space.value, 0, bytes, env);
        CopyImageDeadlines(s, space.value, CreateProcessSyscall(s, bytes, env));
      }
    }
  }

  /** A stall call that has the processor switched enters its caller unless the duration is 0 or refused. */
  lemma StallCallDeadlines(s: State, env: Env)
    requires Inv(s) && UserRunning(s)
    ensures var ms := s.cpu.general[0];
            var r := StallThreadCall(s, env);
            if StallSorted(s.blocks, s.stall) && ms != 0 && !KTiming.Refused(ms) then
              KTiming.Ticks(ms).Some?
              && NewDeadline(s, r, s.running[0], (CallTime(s, env).clo + KTiming.Ticks(ms).value) % WORD_SIZE)
            else SameDeadlines(s, r)
  {
    hide *;
    var ms := s.cpu.general[0];
    ContextSwitch.StallBranches(s, env);
    ContextSwitch.YieldedIs(s, env);
    TimeSlices.YieldMay(s);
    var s1 := Yielded(s, env);
    SwitchDeadlines(s, true, env);
    ForcedSwitches(s);
    Halting.SwitchHaltsExactlyWhenUnsorted(s, true, env);
    KTiming.StallFailsExactlyWhen(ms);
    ToHertzIs(ms);
    var s2 := Rearmed(s1, env);
    TimeSlices.RearmedTimer(s1, env);
    TimeSlices.YieldTimer(s, true, env);
    AnswersDeadlines(s1, 0, env);
    AnswersDeadlines(s2, EINVAL, env);
    CallTimeIs(s, env);
    if !s1.panicked && ms != 0 && KTiming.Ticks(ms).Some? {
      AwaitTimerDeadlines(s2, s.running[0], KTiming.Ticks(ms).value, env);
      var deadline := (CallTime(s, env).clo + KTiming.Ticks(ms).value) % WORD_SIZE;
      ThenNew(s, s1, s2, StallThreadCall(s, env), s.running[0], deadline);
    } else {
      ThenSame(s, s1, s2, StallThreadCall(s, env));
    }
  }

  lemma ForcedSwitches(s: State)
    ensures Switches(s, true)
  {
  }

  lemma ToHertzIs(ms: Word)
    ensures ToHertz(ms) == KTiming.Ticks(ms)
  {
  }

  lemma CallTimeIs(s: State, env: Env)
    ensures CallTime(s, env) == Read(Restart(s.timer, env.delays), env.delays)
  {
  }

  lemma ThenNew(s: State, s1: State, s2: State, r: State, t: nat, deadline: Word)
    requires SameDeadlines(s, s1) && SameDeadlines(s1, s2) && NewDeadline(s2, r, t, deadline)
    ensures NewDeadline(s, r, t, deadline)
  {
  }

  lemma ThenSame(s: State, s1: State, s2: State, r: State)
    requires SameDeadlines(s, s1) && SameDeadlines(s1, s2)
    requires r == s1 || SameDeadlines(s2, r) || r == s2
    ensures SameDeadlines(s, r)
  {
  }

  lemma DispatchDeadlines(s: State, call: Call, bytes: seq<Byte>, env: Env)
    requires Inv(s) && UserRunning(s) && call != StallThread
    ensures SameDeadlines(s, Dispatch(s, call, bytes, env))
  {
    hide *;
    DispatchCases(s, bytes, env);
    AnswersDeadlines(s, s.running[0], env);
    match call {
      case ReadCharacter => ReadCharacterDeadlines(s, env);
      case ExitThread => ExitThreadDeadlines(s, env);
      case CreateProcessCall => CreateDeadlines(s, bytes, env);
      case CreateThreadCall => CreateDeadlines(s, bytes, env);
      case _ =>
    }
  }

  lemma InterruptDeadlines(s: State, received: Option<Byte>, env: Env)
    requires Inv(s)
    ensures SameDeadlines(s, Interrupt(s, received, env))
  {
    hide *;
    var s1 := WokenByTimer(s, env);
    var s2 := SliceEnded(s1, env);
    InterruptStages(s, received, env);
    WokenDeadlines(s, env);
    SliceDeadlines(s1, env);
    DeliverDeadlines(s2, received);
    ThenSame(s, s1, s2, Interrupt(s, received, env));
  }

  lemma WokenDeadlines(s: State, env: Env)
    requires Inv(s)
    ensures SameDeadlines(s, WokenByTimer(s, env))
  {
    UnblockOverdueDeadlines(s, env);
    hide UnblockOverdue;
  }

  lemma SliceDeadlines(s: State, env: Env)
    requires Inv(s)
    ensures SameDeadlines(s, SliceEnded(s, env))
  {
    SwitchDeadlines(s, false, env);
    hide Inv, RoundRobin;
  }

  lemma DeliverDeadlines(s: State, received: Option<Byte>)
    requires Inv(s)
    ensures SameDeadlines(s, Deliver(Receive(s, received)))
  {
    var s1 := Receive(s, received);
    ContextSwitch.DeliverLength(s1);
    assert s1.blocks == s.blocks;
    forall u: nat | u < |s.blocks|
      ensures Deliver(s1).blocks[u].stallUntil == s.blocks[u].stallUntil
    {
      DeliverBlocks(s1, u);
    }
    hide Inv, Deliver;
  }

  /**
    Deadlines change in one way only: a stall call that enters gives its caller the reading it takes plus the
    ticks it asks for, modulo the word size.
   */
  lemma StepDeadlines(s: State, e: Event, env: Env)
    requires Inv(s)
    ensures EntersStall(s, e) ==>
              NewDeadline(s, Step(s, e, env), s.running[0], (CallTime(s, env).clo + Asked(e)) % WORD_SIZE)
    ensures !EntersStall(s, e) ==> SameDeadlines(s, Step(s, e, env))
  {
    hide *;
    AnswersDeadlines(s, 0, env);
    EntersIs(s, e);
    if s.panicked {
      Halting.HaltedStays(s, e, env);
    } else if e.Trap? {
      TrapDeadlines(s, e, env);
    } else if e.Irq? {
      OtherSteps(s, e, env);
      EnteredBlocks(s, e.user);
      InterruptDeadlines(Entered(s, e.user), e.received, env);
      FromEntered(s, e.user, Step(s, e, env));
    } else {
      OtherDeadlines(s, e, env);
    }
  }

  lemma EntersIs(s: State, e: Event)
    ensures EntersStall(s, e) ==> !s.panicked && e.Trap? && e.number == 5 && UserRunning(s) && s.running != []
    ensures e.Trap? && e.number == 5 && UserRunning(s) && !s.panicked ==>
              (EntersStall(s, e) <==>
               StallSorted(s.blocks, s.stall) && e.user.general[0] != 0 && !KTiming.Refused(e.user.general[0]))
  {
    hide StallSorted, KTiming.Refused;
  }

  lemma EnteredBlocks(s: State, user: Registers)
    requires Inv(s)
    ensures var r := Entered(s, user);
            && r.blocks == s.blocks && r.stall == s.stall && r.timer == s.timer && r.running == s.running
            && r.cpu == user && (UserRunning(r) <==> UserRunning(s)) && r.cfg == s.cfg && r.panicked == s.panicked
  {
  }

  lemma FromEntered(s: State, user: Registers, r: State)
    requires Inv(s)
    ensures SameDeadlines(Entered(s, user), r) ==> SameDeadlines(s, r)
    ensures forall t: nat, d: Word :: NewDeadline(Entered(s, user), r, t, d) ==> NewDeadline(s, r, t, d)
  {
  }

  lemma CallTimeOf(s: State, user: Registers, env: Env)
    requires Inv(s)
    ensures CallTime(Entered(s, user), env) == CallTime(s, env)
  {
  }

  lemma TrapDeadlines(s: State, e: Event, env: Env)
    requires Inv(s) && !s.panicked && e.Trap?
    ensures EntersStall(s, e) ==> s.running != []
    ensures EntersStall(s, e) ==>
              NewDeadline(s, Step(s, e, env), s.running[0], (CallTime(s, env).clo + Asked(e)) % WORD_SIZE)
    ensures !EntersStall(s, e) ==> SameDeadlines(s, Step(s, e, env))
  {
    hide *;
    EntersIs(s, e);
    TrapStep(s, e.user, e.number, e.bytes, env);
    EnteredBlocks(s, e.user);
    AnswersDeadlines(s, 0, env);
    FromEntered(s, e.user, Step(s, e, env));
    var s0 := Entered(s, e.user);
    if UserRunning(s) {
      StallIsFive(e.number);
      if e.number == 5 {
        DispatchCases(s0, e.bytes, env);
        StallCallDeadlines(s0, env);
        CallTimeOf(s, e.user, env);
        AskedIs(e);
      } else if CallNumbered(e.number).Some? {
        DispatchDeadlines(s0, CallNumbered(e.number).value, e.bytes, env);
      } else {
        ExitThreadDeadlines(s0, env);
      }
    }
  }

  lemma StallIsFive(n: nat)
    ensures CallNumbered(n) == Some(StallThread) <==> n == 5
  {
  }

  lemma AskedIs(e: Event)
    requires e.Trap?
    ensures KTiming.Ticks(e.user.general[0]).Some? ==> Asked(e) == KTiming.Ticks(e.user.general[0]).value
  {
    hide KTiming.Ticks;
  }

  lemma OtherDeadlines(s: State, e: Event, env: Env)
    requires Inv(s) && !s.panicked && !e.Trap? && !e.Irq?
    ensures SameDeadlines(s, Step(s, e, env))
  {
    hide *;
    OtherSteps(s, e, env);
    AnswersDeadlines(s, 0, env);
    if e.Tick? {
      ClockedDeadlines(s, Elapse(s.timer, e.d));
    } else if UserRunning(s) {
      if e.Abort? {
        EnteredBlocks(s, e.user);
        ExitThreadDeadlines(Entered(s, e.user), env);
        FromEntered(s, e.user, Step(s, e, env));
      } else {
        ExitThreadDeadlines(s, env);
        UserStoreBlocks(s, e.va, e.byte, env);
      }
    }
  }

  lemma ClockedDeadlines(s: State, tm: Timer)
    requires Inv(s)
    ensures SameDeadlines(s, Clocked(s, tm)) && Clocked(s, tm).stall == s.stall
  {
  }

  lemma UserStoreBlocks(s: State, va: Word, byte: Byte, env: Env)
    requires Inv(s) && UserRunning(s)
    ensures var r := UserStore(s, va, byte, env);
            r == ExitThreadCall(s, env) || (SameDeadlines(s, r) && r.stall == s.stall)
  {
    InvShape(s);
    hide Inv, Target, ExitThreadCall, Shape;
  }

  // ----- Leaving the stall list -----

  /** Nothing but an interrupt takes a thread off the stall list. */
  lemma StalledStays(s: State, e: Event, env: Env, t: nat)
    requires Inv(s) && t in s.stall && !e.Irq?
    ensures t in Step(s, e, env).stall
  {
    hide *;
    if s.panicked {
      Halting.HaltedStays(s, e, env);
    } else if e.Trap? {
      TrapStays(s, e, env, t);
    } else {
      OtherSteps(s, e, env);
      PanicStall(s);
      if e.Tick? {
        ClockedDeadlines(s, Elapse(s.timer, e.d));
      } else if UserRunning(s) {
        if e.Abort? {
          EnteredBlocks(s, e.user);
          ExitThreadStall(Entered(s, e.user), env);
          StallOf(Entered(s, e.user), Step(s, e, env));
        } else {
          ExitThreadStall(s, env);
          StallOf(s, ExitThreadCall(s, env));
          UserStoreBlocks(s, e.va, e.byte, env);
        }
      }
    }
  }

  lemma StallOf(s: State, r: State)
    requires SameStall(s, r)
    ensures r.stall == s.stall
  {
  }

  lemma PanicStall(s: State)
    requires Inv(s)
    ensures Panic(s).stall == s.stall
  {
  }

  lemma TrapStays(s: State, e: Event, env: Env, t: nat)
    requires Inv(s) && t in s.stall && e.Trap? && !s.panicked
    ensures t in Step(s, e, env).stall
  {
    hide *;
    TrapStep(s, e.user, e.number, e.bytes, env);
    EnteredBlocks(s, e.user);
    PanicStall(s);
    var s0 := Entered(s, e.user);
    if UserRunning(s) {
      if CallNumbered(e.number).Some? {
        DispatchStays(s0, CallNumbered(e.number).value, e.bytes, env, t);
      } else {
        ExitThreadStall(s0, env);
        StallOf(s0, Step(s, e, env));
      }
    }
  }

  lemma DispatchStays(s: State, call: Call, bytes: seq<Byte>, env: Env, t: nat)
    requires Inv(s) && UserRunning(s) && t in s.stall
    ensures t in Dispatch(s, call, bytes, env).stall
  {
    hide *;
    DispatchCases(s, bytes, env);
    var r := Dispatch(s, call, bytes, env);
    match call {
      case ReadCharacter =>
        ReadCharacterStall(s, env);
        StallOf(s, r);
      case CreateProcessCall =>
        CreateProcessStall(s, bytes, env);
        StallOf(s, r);
      case CreateThreadCall =>
        CreateThreadStall(s, bytes, env);
        StallOf(s, r);
      case StallThread => StallCallStays(s, env, t);
      case ExitThread =>
        ExitThreadStall(s, env);
        StallOf(s, r);
      case OutputCharacter =>
      case _ => AnsweredStall(s, s.running[0], env);
    }
  }

  lemma AnsweredStall(s: State, v: Word, env: Env)
    requires Inv(s)
    ensures Answered(s, v).stall == GetTimeCall(s, env).stall == Rearmed(s, env).stall == s.stall
  {
  }

  lemma StallCallStays(s: State, env: Env, t: nat)
    requires Inv(s) && UserRunning(s) && t in s.stall
    ensures t in StallThreadCall(s, env).stall
  {
    hide *;
    ContextSwitch.StallBranches(s, env);
    ContextSwitch.YieldedIs(s, env);
    TimeSlices.YieldMay(s);
    RoundRobinStall(s, true, env);
    var s1 := Yielded(s, env);
    StallOf(s, s1);
    AnsweredStall(s1, 0, env);
    var s2 := Rearmed(s1, env);
    AnsweredStall(s2, EINVAL, env);
    var ms := s.cpu.general[0];
    if !s1.panicked && ms != 0 && ToHertz(ms).Some? {
      AwaitTimerEnters(s2, s.running[0], ToHertz(ms).value, env);
      InsertedKeeps(s2.stall, s.running[0], StallOrder(StallThreadCall(s, env).blocks), t);
    }
  }

  lemma InsertedKeeps(stall: seq<nat>, t: nat, le: (nat, nat) -> bool, u: nat)
    requires u in stall
    ensures u in SortedInsert(stall, t, le)
  {
    var i :| 0 <= i < |stall| && stall[i] == u;
    var k := SortedPosition(stall, t, le);
    assert SortedInsert(stall, t, le)[if i < k then i else i + 1] == u;
  }

  /** What an interrupt leaves of the stall list. */
  lemma IrqStall(s: State, received: Option<Byte>, env: Env)
    requires Inv(s)
    ensures Shape(s)
    ensures Interrupt(s, received, env).stall == if s.timer.m3 then UnblockOverdue(s, env).stall else s.stall
    ensures Interrupt(s, received, env).finished == s.finished && Interrupt(s, received, env).cfg == s.cfg
    ensures exists m: nat :: m <= |s.input| && Interrupt(s, received, env).input == s.input[m..]
    ensures s.timer.m3 ==> UnblockOverdue(s, env).timer.ticks <= Interrupt(s, received, env).timer.ticks
  {
    InvShape(s);
    hide *;
    InterruptStages(s, received, env);
    var s1 := WokenByTimer(s, env);
    var s2 := SliceEnded(s1, env);
    WokenFields(s, env);
    SliceEndedStall(s1, env);
    StallOf(s1, s2);
    SliceFields(s1, env);
    DeliveredFields(s2, received);
    assert s.input == s.input[0..];
  }

  lemma WokenFields(s: State, env: Env)
    requires Inv(s)
    ensures Shape(s)
    ensures var r := WokenByTimer(s, env);
            && r.stall == (if s.timer.m3 then UnblockOverdue(s, env).stall else s.stall)
            && r.finished == s.finished && r.cfg == s.cfg && r.input == s.input
            && (s.timer.m3 ==> UnblockOverdue(s, env).timer.ticks <= r.timer.ticks)
  {
    InvShape(s);
    var k := UnblockOverdueWakesPrefix(s, env);
    hide Inv, UnblockOverdue, Shape;
  }

  lemma SliceFields(s: State, env: Env)
    requires Inv(s)
    ensures var r := SliceEnded(s, env);
            r.finished == s.finished && r.cfg == s.cfg && r.input == s.input && s.timer.ticks <= r.timer.ticks
  {
    hide Inv;
  }

  lemma DeliveredFields(s: State, received: Option<Byte>)
    requires Inv(s)
    ensures var r := Deliver(Receive(s, received));
            && r.finished == s.finished && r.cfg == s.cfg && r.stall == s.stall && r.timer == s.timer
            && exists m: nat :: m <= |s.input| && r.input == s.input[m..]
  {
    hide Inv, Deliver, Receive, Threads, Pairing;
    ReceivedFields(s, received);
    DeliverRest(Receive(s, received));
    DeliverLists(Receive(s, received));
  }

  lemma ReceivedFields(s: State, received: Option<Byte>)
    requires Inv(s)
    ensures var r := Receive(s, received); r == s.(uart := r.uart)
  {
  }

  lemma OnceOnList(s: State, j: nat, k: nat)
    requires Inv(s) && j < |s.stall| && k <= |s.stall|
    ensures s.stall[j] in s.stall[k..] <==> k <= j
  {
    var t := s.stall[j];
    assert Places(s, t) == 1;
    if k <= j {
      assert s.stall[k..][j - k] == t;
    } else {
      assert s.stall[..k][j] == t;
      CountIn(s.stall[..k], t);
      CountIn(s.stall[k..], t);
      CountConcat(s.stall[..k], s.stall[k..], t);
      assert s.stall[..k] + s.stall[k..] == s.stall;
    }
  }

  /**
    An interrupt takes the thread at position `j` off the stall list exactly when the alarm is pending and
    every turn up to the thread's own has reached its deadline. The thread is then ready, or even runs.
   */
  lemma IrqWakesExactlyWhen(s: State, e: Event, env: Env, j: nat)
    requires Inv(s) && !s.panicked && e.Irq? && j < |s.stall|
    ensures var r, s0 := Step(s, e, env), Entered(s, e.user);
            && Shape(s0) && s0.stall == s.stall
            && (s.stall[j] !in r.stall <==> s.timer.m3 && forall i: nat :: i <= j ==> Reached(s0, env, i))
            && (s.stall[j] !in r.stall ==> s.stall[j] in r.ready || s.stall[j] in r.running)
  {
    hide *;
    var s0, r := Entered(s, e.user), Step(s, e, env);
    OtherSteps(s, e, env);
    EnteredBlocks(s, e.user);
    IrqStall(s0, e.received, env);
    OnceOnList(s0, j, 0);
    assert s0.stall[0..] == s0.stall;
    if s.timer.m3 {
      WokenExactlyWhen(s0, env, j);
      var k := UnblockOverdueWakesPrefix(s0, env);
      WokenCount(s0, UnblockOverdue(s0, env), k);
      WokenSuffix(s0, UnblockOverdue(s0, env), k);
      OnceOnList(s0, j, k);
    }
    if s.stall[j] !in r.stall {
      StillListed(s0, r, s.stall[j]);
    }
  }

  lemma WokenSuffix(s: State, r: State, k: nat)
    requires Woke(s, r, k)
    ensures k <= |s.stall| && r.stall == s.stall[k..]
  {
  }

  lemma StillListed(s: State, r: State, t: nat)
    requires Inv(s) && Inv(r) && t in s.stall && t !in r.stall && r.finished == s.finished && r.cfg == s.cfg
    requires exists m: nat :: m <= |s.input| && r.input == s.input[m..]
    ensures t in r.ready || t in r.running
  {
    ListedIsLive(s, t);
    ListedIsLive(r, t);
  }

  // ----- Not before its time -----

  /** Before the counter wraps around, the reading of a turn is a tick count no later than the loop's end. */
  lemma {:induction false} TurnReadingBound(s: State, env: Env, j: nat)
    requires Shape(s) && InStep(s.timer) && j < |s.stall| - |UnblockOverdue(s, env).stall|
    requires UnblockOverdue(s, env).timer.ticks < WORD_SIZE
    ensures TurnReading(s, env, j) <= UnblockOverdue(s, env).timer.ticks
    decreases |s.stall|
  {
    hide *;
    var a := AdjustStallTimer(s, env);
    UnblockOverdueTurn(s, env);
    SameLength(s, a.state, env);
    FirstTurnReading(s, env, j);
    if !a.ok {
      var s1 := WakeFirst(a.state);
      UnblockOverdueTicks(s1, env);
      TimeSlices.WakeFirstTimer(a.state);
      if j > 0 {
        TurnReadingBound(s1, env, j - 1);
      }
    }
  }

  lemma SameLength(s: State, r: State, env: Env)
    requires Shape(s) && r == s.(timer := r.timer)
    ensures UnblockOverdue(s, env) == r ==> |s.stall| == |UnblockOverdue(s, env).stall|
  {
    hide UnblockOverdue;
  }

  lemma FirstTurnReading(s: State, env: Env, j: nat)
    requires Shape(s) && InStep(s.timer) && j < |s.stall|
    ensures var a := AdjustStallTimer(s, env);
            && Shape(WakeFirst(a.state)) && |WakeFirst(a.state).stall| == |s.stall| - 1 && InStep(a.state.timer)
            && (j > 0 ==> TurnReading(s, env, j) == TurnReading(WakeFirst(a.state), env, j - 1))
            && (a.state.timer.ticks < WORD_SIZE ==> TurnReading(s, env, 0) <= a.state.timer.ticks)
  {
  }

  /** The clock's reading plus the pad has reached a thread's deadline before an interrupt takes it off the list. */
  lemma LeavesInTime(s: State, e: Event, env: Env, t: nat)
    requires Inv(s) && InStep(s.timer) && t in s.stall && t !in Step(s, e, env).stall
    requires Step(s, e, env).timer.ticks < WORD_SIZE
    ensures t < |s.blocks| && s.blocks[t].stallUntil <= Step(s, e, env).timer.ticks + 20
  {
    hide *;
    if s.panicked {
      Halting.HaltedStays(s, e, env);
    }
    if !e.Irq? {
      StalledStays(s, e, env, t);
    }
    var s0 := Entered(s, e.user);
    OtherSteps(s, e, env);
    EnteredBlocks(s, e.user);
    IrqStall(s0, e.received, env);
    var j := PlaceOf(s.stall, t);
    IrqWakesExactlyWhen(s, e, env, j);
    assert Reached(s0, env, j);
    WokenExactlyWhen(s0, env, j);
    NobodyWokenEarly(s0, env, j);
    TurnReadingBound(s0, env, j);
    KeyIs(s0, j);
  }

  lemma PlaceOf(q: seq<nat>, t: nat) returns (j: nat)
    requires t in q
    ensures j < |q| && q[j] == t
  {
    j :| j < |q| && q[j] == t;
  }

  lemma KeyIs(s: State, j: nat)
    requires Inv(s) && j < |s.stall|
    ensures s.stall[j] < |s.blocks| && StallKey(s.blocks, s.stall[j]) == s.blocks[s.stall[j]].stallUntil
    ensures TOCTOU_PAD == 20
  {
  }

  /** Before the counter wraps around, no run takes a stalled thread off the list before its deadline less the pad. */
  lemma {:induction false} RunLeavesInTime(s: State, es: seq<Event>, env: Env, t: nat)
    requires Inv(s) && InStep(s.timer) && t in s.stall && t !in Run(s, es, env).stall
    requires Run(s, es, env).timer.ticks < WORD_SIZE
    ensures t < |s.blocks| && s.blocks[t].stallUntil <= Run(s, es, env).timer.ticks + 20
    decreases |es|
  {
    hide Inv, Step, InStep;
    if es != [] {
      var s1 := Step(s, es[0], env);
      RunTicks(s1, es[1..], env);
      TimeSlices.StepElapses(s, es[0], env);
      if t in s1.stall {
        RunLeavesInTime(s1, es[1..], env, t);
        StalledDeadline(s, es[0], env, t);
      } else {
        LeavesInTime(s, es[0], env, t);
      }
    }
  }

  /** The deadline of a stalled thread does not change. */
  lemma StalledDeadline(s: State, e: Event, env: Env, t: nat)
    requires Inv(s) && t in s.stall
    ensures t < |s.blocks| == |Step(s, e, env).blocks| && Step(s, e, env).blocks[t].stallUntil == s.blocks[t].stallUntil
  {
    hide *;
    StalledIsAway(s, t);
    StepDeadlines(s, e, env);
    EntersIs(s, e);
    KeptDeadline(s, Step(s, e, env), t);
  }

  lemma StalledIsAway(s: State, t: nat)
    requires Inv(s) && t in s.stall
    ensures t < |s.blocks| && (s.running != [] ==> s.running[0] != t)
  {
    ListedIsLive(s, t);
  }

  lemma KeptDeadline(s: State, r: State, t: nat)
    requires t < |s.blocks|
    ensures SameDeadlines(s, r) ==> |r.blocks| == |s.blocks| && r.blocks[t].stallUntil == s.blocks[t].stallUntil
    ensures forall u: nat, d: Word :: u != t && NewDeadline(s, r, u, d) ==>
              |r.blocks| == |s.blocks| && r.blocks[t].stallUntil == s.blocks[t].stallUntil
  {
  }

  /** A caller that is not on the list after its call found its deadline within the pad at once. */
  lemma AwaitTimerInTime(s: State, t: nat, ticks: Word, env: Env)
    requires Inv(s) && InStep(s.timer) && s.ready != [] && s.ready[|s.ready| - 1] == t
    requires var r := AwaitTimer(s, t, ticks, env); t !in r.stall && r.timer.ticks < WORD_SIZE
    ensures Plus(Read(s.timer, env.delays).clo, ticks) <= AwaitTimer(s, t, ticks, env).timer.ticks + 20
  {
    InvShape(s);
    hide *;
    if s.stall != [] {
      AwaitTimerEnters(s, t, ticks, env);
      InsertedIn(s.stall, t, StallOrder(AwaitTimer(s, t, ticks, env).blocks));
    } else {
      StallWaitsExactlyWhen(s, t, ticks, env);
      SingleIn(t);
      FirstTry(s, t, ticks, env);
    }
  }

  lemma SingleIn(t: nat)
    ensures t in [t]
  {
  }

  lemma InsertedIn(stall: seq<nat>, t: nat, le: (nat, nat) -> bool)
    ensures t in SortedInsert(stall, t, le)
  {
    assert SortedInsert(stall, t, le)[SortedPosition(stall, t, le)] == t;
  }

  lemma FirstTry(s: State, t: nat, ticks: Word, env: Env)
    requires Shape(s) && InStep(s.timer) && s.stall == [] && s.ready != [] && s.ready[|s.ready| - 1] == t
    requires !CanArm(Read(s.timer, env.delays), Plus(Read(s.timer, env.delays).clo, ticks), env)
    requires AwaitTimer(s, t, ticks, env).timer.ticks < WORD_SIZE
    ensures Plus(Read(s.timer, env.delays).clo, ticks) <= AwaitTimer(s, t, ticks, env).timer.ticks + 20
  {
    var s1 := EnterStall(s, t, ticks, env);
    UnblockOverdueTicks(AdjustStallTimer(s1, env).state, env);
    hide UnblockOverdue;
  }

  lemma StallCallInTime(s: State, env: Env)
    requires Inv(s) && UserRunning(s) && InStep(s.timer) && StallSorted(s.blocks, s.stall)
    requires s.cpu.general[0] != 0 && KTiming.Ticks(s.cpu.general[0]).Some?
    requires var r := StallThreadCall(s, env); s.running[0] !in r.stall && r.timer.ticks < WORD_SIZE
    ensures Plus(CallTime(s, env).clo, KTiming.Ticks(s.cpu.general[0]).value)
            <= StallThreadCall(s, env).timer.ticks + 20
  {
    hide *;
    var ms := s.cpu.general[0];
    ContextSwitch.StallBranches(s, env);
    ContextSwitch.YieldedIs(s, env);
    TimeSlices.YieldMay(s);
    ForcedSwitches(s);
    Halting.SwitchHaltsExactlyWhenUnsorted(s, true, env);
    ToHertzIs(ms);
    TimeSlices.RearmedTimer(Yielded(s, env), env);
    TimeSlices.YieldTimer(s, true, env);
    TimeSlices.RestartInStep(s.timer, env.delays);
    CallTimeIs(s, env);
    AwaitTimerInTime(Rearmed(Yielded(s, env), env), s.running[0], KTiming.Ticks(ms).value, env);
  }

  /**
    A stall lasts: before the counter wraps around, a caller is not off the stall list again, in the call
    itself or anywhere later, before the clock plus the pad has reached the time of its call plus the ticks
    it asked for.
   */
  lemma StallLasts(s: State, e: Event, es: seq<Event>, env: Env)
    requires Inv(s) && InStep(s.timer) && EntersStall(s, e)
    requires CallTime(s, env).ticks + Asked(e) < WORD_SIZE
    requires var r := Run(Step(s, e, env), es, env); s.running[0] !in r.stall && r.timer.ticks < WORD_SIZE
    ensures CallTime(s, env).ticks + Asked(e) <= Run(Step(s, e, env), es, env).timer.ticks + 20
  {
    hide *;
    EntersIs(s, e);
    var t, s1 := s.running[0], Step(s, e, env);
    RunTicks(s1, es, env);
    CallTimeInStep(s, env);
    StepDeadlines(s, e, env);
    DeadlineOf(s, s1, t, (CallTime(s, env).clo + Asked(e)) % WORD_SIZE);
    SmallSum(CallTime(s, env).clo, Asked(e));
    TimeSlices.StepElapses(s, e, env);
    if t in s1.stall {
      RunLeavesInTime(s1, es, env, t);
    } else {
      CallInTime(s, e, env);
    }
  }

  lemma CallTimeInStep(s: State, env: Env)
    requires InStep(s.timer)
    ensures CallTime(s, env).ticks < WORD_SIZE ==> CallTime(s, env).clo == CallTime(s, env).ticks
  {
  }

  lemma SmallSum(a: Word, b: Word)
    requires a + b < WORD_SIZE
    ensures (a + b) % WORD_SIZE == a + b == Plus(a, b)
  {
  }

  lemma DeadlineOf(s: State, r: State, t: nat, deadline: Word)
    requires Inv(s) && s.running != [] && s.running[0] == t && NewDeadline(s, r, t, deadline)
    ensures t < |r.blocks| && r.blocks[t].stallUntil == deadline
  {
  }

  lemma CallInTime(s: State, e: Event, env: Env)
    requires Inv(s) && InStep(s.timer) && EntersStall(s, e)
    requires s.running[0] !in Step(s, e, env).stall && Step(s, e, env).timer.ticks < WORD_SIZE
    ensures Plus(CallTime(s, env).clo, Asked(e)) <= Step(s, e, env).timer.ticks + 20
  {
    hide *;
    EntersIs(s, e);
    TrapStep(s, e.user, e.number, e.bytes, env);
    StallIsFive(e.number);
    var s0 := Entered(s, e.user);
    EnteredBlocks(s, e.user);
    DispatchCases(s0, e.bytes, env);
    KTiming.StallFailsExactlyWhen(e.user.general[0]);
    AskedIs(e);
    CallTimeOf(s, e.user, env);
    StallCallInTime(s0, env);
  }
}
