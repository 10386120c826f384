/**
  Time slices: the compare register C1 and its pending bit M1. Every switch arms C1 one interval ahead,
  nothing else touches it, and when it has been met the next interrupt hands the processor over.
 */
module TimeSlices {
  import opened Words
  import opened IntrusiveList
  import opened Mmu
  import opened SysTimer
  import opened Model
  import opened Invariant
  import opened Preservation
  import opened Machine
  import InputMatching
  import FairQueue
  import WakeUp
  import ContextSwitch
  import Halting

  // ----- The registers -----

  /** The ticks until the counter next takes the value in C1. */
  function Left(tm: Timer): nat {
    TicksTo(tm, tm.c1)
  }

  /** The tick at which it does. */
  function Meeting(tm: Timer): nat {
    tm.ticks + Left(tm)
  }

  /** Time alone sets M1 exactly when what was left has passed, wherever the counter wraps around. */
  lemma ElapseMeets(tm: Timer, d: Word)
    ensures Elapse(tm, d).m1 <==> tm.m1 || Left(tm) <= d
    ensures Elapse(tm, d).ticks == tm.ticks + d && Elapse(tm, d).clo == (tm.clo + d) % WORD_SIZE
    ensures d < Left(tm) ==> Meeting(Elapse(tm, d)) == Meeting(tm)
  {
  }

  /**
    A restart whose write follows the reading within the interval: C1 is met exactly one interval after the
    reading, and M1 is clear unless the old compare value has been met in the meantime.
   */
  lemma RestartArms(tm: Timer, env: Delays)
    requires env.beforeWrite(tm.readings) < 1000000
    ensures var reading := Read(tm, env);
            var r := Restart(tm, env);
            && r.ticks == reading.ticks + env.beforeWrite(tm.readings)
            && r.c1 == (reading.clo + 1000000) % WORD_SIZE && Meeting(r) == reading.ticks + 1000000
            && (r.m1 <==> Meeting(tm) <= r.ticks)
  {
  }

  /** Time passes and C3 may be set, but C1 is left alone. */
  ghost predicate Coasts(tm: Timer, after: Timer) {
    && tm.ticks <= after.ticks && (InStep(tm) ==> InStep(after)) && (tm.m1 ==> after.m1)
    && (after.ticks < Meeting(tm) ==> Meeting(after) == Meeting(tm) && after.m1 == tm.m1)
    && (Meeting(tm) <= after.ticks ==> after.m1)
  }

  lemma CoastsOn(tm: Timer, mid: Timer, after: Timer)
    requires Coasts(tm, mid) && Coasts(mid, after)
    ensures Coasts(tm, after)
  {
    hide Meeting;
  }

  lemma ElapseCoasts(tm: Timer, d: Word)
    ensures Coasts(tm, Elapse(tm, d))
  {
    ElapseMeets(tm, d);
  }

  lemma ReadCoasts(tm: Timer, env: Delays)
    ensures Coasts(tm, Read(tm, env)) && Coasts(tm, BetweenChecks(tm, env))
    ensures Coasts(tm, tm) && Coasts(tm, tm.(m3 := false))
  {
    ElapseCoasts(tm, env.beforeRead(tm.readings));
    ElapseCoasts(tm, env.betweenChecks(tm.readings));
  }

  lemma InterruptAtCoasts(tm: Timer, hz: Word, env: Delays)
    ensures Coasts(tm, InterruptAt(tm, hz, env).timer)
  {
    var t := Read(tm.(m3 := false), env);
    ReadCoasts(tm.(m3 := false), env);
    ElapseCoasts(t, env.beforeWrite(tm.readings));
    CoastsOn(tm.(m3 := false), t, Elapse(t, env.beforeWrite(tm.readings)));
    hide Elapse;
  }

  // ----- One step -----

  lemma AdjustCoasts(s: State, env: Env)
    requires Shape(s)
    ensures Coasts(s.timer, AdjustStallTimer(s, env).state.timer)
  {
    ReadCoasts(s.timer, env.delays);
    if s.stall != [] {
      InterruptAtCoasts(s.timer, s.blocks[s.stall[0]].stallUntil, env.delays);
    }
    hide Coasts;
  }

  lemma {:induction false} UnblockOverdueCoasts(s: State, env: Env)
    requires Shape(s)
    ensures Coasts(s.timer, UnblockOverdue(s, env).timer)
    decreases |s.stall|
  {
    hide *;
    var a := AdjustStallTimer(s, env);
    UnblockOverdueTurn(s, env);
    AdjustCoasts(s, env);
    if !a.ok {
      var s1 := WakeFirst(a.state);
      WakeFirstTimer(a.state);
      UnblockOverdueCoasts(s1, env);
      CoastsOn(s.timer, s1.timer, UnblockOverdue(s, env).timer);
    }
  }

  lemma WakeFirstTimer(s: State)
    requires s.stall != []
    ensures WakeFirst(s).timer == s.timer
  {
  }

  lemma AwaitTimerCoasts(s: State, t: nat, ticks: Word, env: Env)
    requires Shape(s) && s.ready != [] && s.ready[|s.ready| - 1] == t
    ensures Coasts(s.timer, AwaitTimer(s, t, ticks, env).timer)
  {
    var s1 := EnterStall(s, t, ticks, env);
    ReadCoasts(s.timer, env.delays);
    AdjustCoasts(s1, env);
    var a := AdjustStallTimer(s1, env);
    UnblockOverdueCoasts(a.state, env);
    hide Coasts, UnblockOverdue, AdjustStallTimer, Shape;
    CoastsOn(s.timer, s1.timer, a.state.timer);
    CoastsOn(s.timer, a.state.timer, UnblockOverdue(a.state, env).timer);
  }

  /** The step restarts the slice timer: it switches, or ends a slice with nobody else to run, and does not halt. */
  predicate Restarts(s: State, e: Event, env: Env)
    requires Inv(s)
  {
    && !s.panicked && !Step(s, e, env).panicked
    && (FairQueue.Switched(s, e, env) || (e.Irq? && WokenByTimer(Entered(s, e.user), env).timer.m1))
  }

  /** A call or interrupt stage restarted the timer `tm`, or it halted, and then time went on. */
  ghost predicate Restarted(tm: Timer, r: State, env: Env) {
    if r.panicked then Coasts(tm, r.timer) else Coasts(Restart(tm, env.delays), r.timer)
  }

  lemma YieldTimer(s: State, forced: bool, env: Env)
    requires Inv(s) && MaySwitch(s, forced)
    ensures RoundRobin(s, forced, env).timer == s.timer
  {
    WakeUp.RoundRobinStall(s, forced, env);
  }

  lemma ReadCharacterRestarts(s: State, env: Env)
    requires Inv(s) && UserRunning(s)
    ensures Restarted(s.timer, ReadCharacterCall(s, env), env)
  {
    YieldTimer(s, true, env);
    ReadCoasts(s.timer, env.delays);
    ReadCoasts(Restart(s.timer, env.delays), env.delays);
    hide Inv, RoundRobin, Coasts, Restart;
  }

  lemma ExitRestarts(s: State, env: Env)
    requires Inv(s) && UserRunning(s)
    ensures Restarted(s.timer, ExitThreadCall(s, env), env)
  {
    RunningIsSeated(s);
    CleanupKeepsInv(s);
    YieldTimer(CleanupThread(s), false, env);
    ReadCoasts(s.timer, env.delays);
    ReadCoasts(Restart(s.timer, env.delays), env.delays);
    hide Inv, RoundRobin, Coasts, Restart;
  }

  lemma StallRestarts(s: State, env: Env)
    requires Inv(s) && UserRunning(s)
    ensures Restarted(s.timer, StallThreadCall(s, env), env)
  {
    hide *;
    ContextSwitch.StallBranches(s, env);
    ContextSwitch.YieldedIs(s, env);
    YieldMay(s);
    YieldTimer(s, true, env);
    var s1 := Yielded(s, env);
    var s2 := Rearmed(s1, env);
    RearmedTimer(s1, env);
    AnsweredTimer(s2, EINVAL, env);
    ReadCoasts(s.timer, env.delays);
    ReadCoasts(s2.timer, env.delays);
    var h := ToHertz(s.cpu.general[0]);
    if !s1.panicked && s.cpu.general[0] != 0 && h.Some? {
      AwaitTimerCoasts(s2, s.running[0], h.value, env);
      Halting.AwaitTimerHalts(s2, s.running[0], h.value, env);
    }
    RestartedIs(s.timer, StallThreadCall(s, env), env);
  }

  lemma YieldMay(s: State)
    requires Inv(s) && UserRunning(s)
    ensures MaySwitch(s, true) && s.running != []
  {
  }

  lemma RestartedIs(tm: Timer, r: State, env: Env)
    ensures Restarted(tm, r, env) ==
            if r.panicked then Coasts(tm, r.timer) else Coasts(Restart(tm, env.delays), r.timer)
  {
    hide Coasts;
  }

  lemma RearmedTimer(s: State, env: Env)
    requires Inv(s)
    ensures Rearmed(s, env).timer == Restart(s.timer, env.delays) && Rearmed(s, env).panicked == s.panicked
  {
  }

  lemma AnsweredTimer(s: State, v: Word, env: Env)
    requires Inv(s)
    ensures Answered(s, v).timer == s.timer && Answered(s, v).panicked == s.panicked
    ensures GetTimeCall(s, env).timer == Read(s.timer, env.delays) && Panic(s).timer == s.timer
  {
  }

  lemma DispatchTimer(s: State, call: Call, bytes: seq<Byte>, env: Env)
    requires Inv(s) && UserRunning(s)
    ensures var r := Dispatch(s, call, bytes, env);
            if call in {ReadCharacter, StallThread, ExitThread} then Restarted(s.timer, r, env)
            else Coasts(s.timer, r.timer)
  {
    hide *;
    DispatchCases(s, bytes, env);
    ReadCoasts(s.timer, env.delays);
    match call {
      case ReadCharacter => ReadCharacterRestarts(s, env);
      case StallThread => StallRestarts(s, env);
      case ExitThread => ExitRestarts(s, env);
      case CreateProcessCall => WakeUp.CreateProcessStall(s, bytes, env);
      case CreateThreadCall => WakeUp.CreateThreadStall(s, bytes, env);
      case GetTime => AnsweredTimer(s, 0, env);
      case GetThreadId => AnsweredTimer(s, s.running[0], env);
      case OutputCharacter =>
    }
  }

  lemma WokenCoasts(s: State, env: Env)
    requires Inv(s)
    ensures Coasts(s.timer, WokenByTimer(s, env).timer)
  {
    WokenStages(s, env);
    UnblockOverdueCoasts(s, env);
    ReadCoasts(s.timer, env.delays);
    var tm := if s.timer.m3 then UnblockOverdue(s, env).timer else s.timer;
    ReadCoasts(tm, env.delays);
    hide *;
    CoastsOn(s.timer, tm, BetweenChecks(tm, env.delays));
  }

  lemma WokenStages(s: State, env: Env)
    requires Inv(s)
    ensures Shape(s)
    ensures var tm := if s.timer.m3 then UnblockOverdue(s, env).timer else s.timer;
            WokenByTimer(s, env).timer == BetweenChecks(tm, env.delays)
  {
    InvShape(s);
    hide Inv, Shape, UnblockOverdue, BetweenChecks;
  }

  lemma SliceTimer(s: State, env: Env)
    requires Inv(s)
    ensures if s.timer.m1 then Restarted(s.timer, SliceEnded(s, env), env) else SliceEnded(s, env).timer == s.timer
  {
    YieldTimer(s, false, env);
    ReadCoasts(s.timer, env.delays);
    ReadCoasts(Restart(s.timer, env.delays), env.delays);
    hide Inv, RoundRobin, Coasts, Restart;
  }

  lemma DeliveredTimer(s: State, received: Option<Byte>)
    requires Inv(s)
    ensures var r := Deliver(Receive(s, received)); r.timer == s.timer && r.panicked == s.panicked
  {
    InputMatching.DeliverRest(Receive(s, received));
    hide Inv, Deliver;
  }

  lemma InterruptTimer(s: State, received: Option<Byte>, env: Env)
    requires Inv(s)
    ensures var tm, r := WokenByTimer(s, env).timer, Interrupt(s, received, env);
            && Coasts(s.timer, tm)
            && if tm.m1 then Restarted(tm, r, env) else r.timer == tm
  {
    hide *;
    InterruptStages(s, received, env);
    WokenCoasts(s, env);
    var s1 := WokenByTimer(s, env);
    SliceTimer(s1, env);
    var s2 := SliceEnded(s1, env);
    DeliveredTimer(s2, received);
    RestartedIs(s1.timer, s2, env);
    RestartedIs(s1.timer, Interrupt(s, received, env), env);
  }

  /** A step either restarts the slice timer, at the switch, or leaves C1 alone. */
  lemma StepTimer(s: State, e: Event, env: Env)
    requires Inv(s)
    ensures var r := Step(s, e, env);
            if Restarts(s, e, env) then
              var tm := Halting.AtSwitch(s, e, env).timer;
              Coasts(s.timer, tm) && Coasts(Restart(tm, env.delays), r.timer)
            else Coasts(s.timer, r.timer)
  {
    hide *;
    ReadCoasts(s.timer, env.delays);
    if s.panicked {
      Halting.HaltedStays(s, e, env);
      RestartsIs(s, e, env);
    } else if e.Trap? {
      TrapTimer(s, e, env);
    } else if e.Irq? {
      OtherSteps(s, e, env);
      EnteredTimer(s, e.user);
      InterruptTimer(Entered(s, e.user), e.received, env);
      RestartedIs(WokenByTimer(Entered(s, e.user), env).timer, Step(s, e, env), env);
      IrqRestarts(s, e, env);
      if Step(s, e, env).panicked && WokenByTimer(Entered(s, e.user), env).timer.m1 {
        CoastsOn(s.timer, WokenByTimer(Entered(s, e.user), env).timer, Step(s, e, env).timer);
      }
    } else {
      OtherTimer(s, e, env);
    }
  }

  lemma RestartsIs(s: State, e: Event, env: Env)
    requires Inv(s)
    ensures Restarts(s, e, env) <==>
              (&& !s.panicked && !Step(s, e, env).panicked
               && (FairQueue.Switched(s, e, env) || (e.Irq? && WokenByTimer(Entered(s, e.user), env).timer.m1)))
  {
    hide Inv, Step, FairQueue.Switched, WokenByTimer;
  }

  lemma EnteredTimer(s: State, user: Registers)
    requires Inv(s)
    ensures Entered(s, user).timer == s.timer
  {
  }

  lemma TrapTimer(s: State, e: Event, env: Env)
    requires Inv(s) && !s.panicked && e.Trap?
    ensures var r := Step(s, e, env);
            if Restarts(s, e, env) then
              Halting.AtSwitch(s, e, env).timer == s.timer && Coasts(s.timer, s.timer)
              && Coasts(Restart(s.timer, env.delays), r.timer)
            else Coasts(s.timer, r.timer)
  {
    hide *;
    TrapStep(s, e.user, e.number, e.bytes, env);
    EnteredTimer(s, e.user);
    ReadCoasts(s.timer, env.delays);
    AnsweredTimer(s, 0, env);
    TrapRestarts(s, e, env);
    RestartedIs(s.timer, Step(s, e, env), env);
    if UserRunning(s) {
      if CallNumbered(e.number).Some? {
        DispatchTimer(Entered(s, e.user), CallNumbered(e.number).value, e.bytes, env);
      } else {
        ExitRestarts(Entered(s, e.user), env);
      }
    }
  }

  lemma TrapRestarts(s: State, e: Event, env: Env)
    requires Inv(s) && !s.panicked && e.Trap?
    ensures Halting.AtSwitch(s, e, env) == s
    ensures Restarts(s, e, env) <==>
              (&& !Step(s, e, env).panicked && UserRunning(s)
               && (CallNumbered(e.number) == None
                   || CallNumbered(e.number).value in {ReadCharacter, StallThread, ExitThread}))
  {
    hide Inv, Step, CallNumbered;
  }

  lemma IrqRestarts(s: State, e: Event, env: Env)
    requires Inv(s) && !s.panicked && e.Irq?
    ensures Halting.AtSwitch(s, e, env) == WokenByTimer(Entered(s, e.user), env)
    ensures Restarts(s, e, env) <==> !Step(s, e, env).panicked && WokenByTimer(Entered(s, e.user), env).timer.m1
  {
    hide Inv, Step, WokenByTimer;
  }

  lemma OtherTimer(s: State, e: Event, env: Env)
    requires Inv(s) && !s.panicked && !e.Trap? && !e.Irq?
    ensures var r := Step(s, e, env);
            if Restarts(s, e, env) then
              Halting.AtSwitch(s, e, env).timer == s.timer && Coasts(s.timer, s.timer)
              && Coasts(Restart(s.timer, env.delays), r.timer)
            else Coasts(s.timer, r.timer)
  {
    hide *;
    OtherSteps(s, e, env);
    ReadCoasts(s.timer, env.delays);
    FairQueue.SwitchedOther(s, e, env);
    OtherRestarts(s, e, env);
    AnsweredTimer(s, 0, env);
    RestartedIs(s.timer, Step(s, e, env), env);
    if e.Tick? {
      ElapseCoasts(s.timer, e.d);
      ClockedTimer(s, Elapse(s.timer, e.d));
    } else if UserRunning(s) {
      if e.Abort? {
        EnteredTimer(s, e.user);
        ExitRestarts(Entered(s, e.user), env);
      } else {
        ExitRestarts(s, env);
        UserStoreTimer(s, e.va, e.byte, env);
      }
    }
  }

  lemma OtherRestarts(s: State, e: Event, env: Env)
    requires Inv(s) && !s.panicked && !e.Trap? && !e.Irq?
    ensures Halting.AtSwitch(s, e, env) == s
    ensures Restarts(s, e, env) <==> !Step(s, e, env).panicked && FairQueue.Switched(s, e, env)
  {
    hide Inv, Step, FairQueue.Switched;
  }

  lemma ClockedTimer(s: State, tm: Timer)
    requires Inv(s)
    ensures Clocked(s, tm).timer == tm
  {
  }

  lemma UserStoreTimer(s: State, va: Word, byte: Byte, env: Env)
    requires Inv(s) && UserRunning(s)
    ensures Shape(s)
    ensures if Target(s, va) == None then UserStore(s, va, byte, env) == ExitThreadCall(s, env)
            else UserStore(s, va, byte, env).timer == s.timer
  {
    InvShape(s);
    hide Inv, Target, ExitThreadCall, Shape;
  }

  /** Every step lets time go on, and the counter stays in step with it until it wraps around. */
  lemma StepElapses(s: State, e: Event, env: Env)
    requires Inv(s)
    ensures s.timer.ticks <= Step(s, e, env).timer.ticks && (InStep(s.timer) ==> InStep(Step(s, e, env).timer))
  {
    StepTimer(s, e, env);
    WakeUp.RestartElapses(Halting.AtSwitch(s, e, env).timer, env.delays);
    RestartInStep(Halting.AtSwitch(s, e, env).timer, env.delays);
    hide Inv, Step, Restart, Restarts, Halting.AtSwitch;
  }

  /** A passing of time does just that: the counter and the pending bits move on, and nothing else changes. */
  lemma TimePasses(s: State, d: Word, env: Env)
    requires Inv(s) && !s.panicked
    ensures var r := Step(s, Tick(d), env);
            && r == s.(timer := r.timer) && r.timer.ticks == s.timer.ticks + d
            && r.timer.clo == (s.timer.clo + d) % WORD_SIZE && r.timer.c1 == s.timer.c1 && r.timer.c3 == s.timer.c3
            && (r.timer.m1 <==> s.timer.m1 || TicksTo(s.timer, s.timer.c1) <= d)
            && (r.timer.m3 <==> s.timer.m3 || TicksTo(s.timer, s.timer.c3) <= d)
  {
    OtherSteps(s, Tick(d), env);
    hide Step, Inv;
  }

  lemma RestartInStep(tm: Timer, env: Delays)
    ensures InStep(tm) ==> InStep(Restart(tm, env))
  {
  }

  // ----- Over runs -----

  ghost predicate NoRestart(s: State, es: seq<Event>, env: Env)
    requires Inv(s)
    decreases |es|
  {
    es == [] || (!Restarts(s, es[0], env) && NoRestart(Step(s, es[0], env), es[1..], env))
  }

  lemma {:induction false} RunCoasts(s: State, es: seq<Event>, env: Env)
    requires Inv(s) && NoRestart(s, es, env)
    ensures Coasts(s.timer, Run(s, es, env).timer)
    decreases |es|
  {
    ReadCoasts(s.timer, env.delays);
    hide Inv, Step, Coasts, Restarts;
    if es != [] {
      var s1 := Step(s, es[0], env);
      StepTimer(s, es[0], env);
      RunCoasts(s1, es[1..], env);
      CoastsOn(s.timer, s1.timer, Run(s, es, env).timer);
    }
  }

  /**
    A slice ends: once an interval has passed since the reading with which a step restarted the slice
    timer, M1 is pending, unless the timer has been restarted since. An interrupt then hands the processor
    over if anybody is ready.
   */
  lemma SliceEnds(s: State, e: Event, es: seq<Event>, env: Env)
    requires Inv(s) && Restarts(s, e, env) && NoRestart(Step(s, e, env), es, env)
    requires env.delays.beforeWrite(Halting.AtSwitch(s, e, env).timer.readings) < 1000000
    requires var reading := Read(Halting.AtSwitch(s, e, env).timer, env.delays);
             Run(Step(s, e, env), es, env).timer.ticks >= reading.ticks + 1000000
    ensures var r := Run(Step(s, e, env), es, env);
            && r.timer.m1
            && forall user, received :: !r.panicked && r.ready != [] ==> FairQueue.Switched(r, Irq(user, received), env)
  {
    hide *;
    var tm, s1 := Halting.AtSwitch(s, e, env).timer, Step(s, e, env);
    var r := Run(s1, es, env);
    StepTimer(s, e, env);
    RestartArms(tm, env.delays);
    RunCoasts(s1, es, env);
    CoastsOn(Restart(tm, env.delays), s1.timer, r.timer);
    MetIsPending(Restart(tm, env.delays), r.timer);
    forall user, received | !r.panicked && r.ready != []
      ensures FairQueue.Switched(r, Irq(user, received), env)
    {
      PendingSwitches(r, user, received, env);
    }
  }

  lemma MetIsPending(tm: Timer, after: Timer)
    requires Coasts(tm, after) && Meeting(tm) <= after.ticks
    ensures after.m1
  {
  }

  /** An interrupt that finds M1 pending and somebody ready switches. */
  lemma PendingSwitches(s: State, user: Registers, received: Option<Byte>, env: Env)
    requires Inv(s) && !s.panicked && s.timer.m1 && s.ready != []
    ensures FairQueue.Switched(s, Irq(user, received), env)
  {
    hide *;
    var s0 := Entered(s, user);
    EnteredTimer(s, user);
    EnteredReady(s, user);
    WokenCoasts(s0, env);
    StaysPending(s0.timer, WokenByTimer(s0, env).timer);
    FairQueue.WokenQueue(s0, env);
    IrqSwitches(s, user, received, env);
  }

  lemma EnteredReady(s: State, user: Registers)
    requires Inv(s)
    ensures Entered(s, user).ready == s.ready
  {
  }

  lemma StaysPending(tm: Timer, after: Timer)
    requires Coasts(tm, after)
    ensures tm.m1 ==> after.m1
  {
  }

  lemma IrqSwitches(s: State, user: Registers, received: Option<Byte>, env: Env)
    requires Inv(s) && !s.panicked
    requires var s1 := WokenByTimer(Entered(s, user), env);
             s1.timer.m1 && FairQueue.Extends(s.ready, s1.ready) && s.ready != []
    ensures FairQueue.Switched(s, Irq(user, received), env)
  {
    hide Inv, WokenByTimer;
  }

  // ----- No starvation -----

  /** M1 is pending or will be by tick `due`. */
  predicate PendingBy(tm: Timer, due: nat) {
    tm.m1 || Meeting(tm) <= due
  }

  /** The reading with which a step that restarts the slice timer does so. */
  function RestartReading(s: State, e: Event, env: Env): nat
    requires Inv(s)
  {
    Read(Halting.AtSwitch(s, e, env).timer, env.delays).ticks
  }

  /**
    Interrupts are taken in time: with M1 due at tick `due`, it never pends for more than `lag` ticks beyond
    that, and every restart takes its reading by then.
   */
  ghost predicate Prompt(s: State, es: seq<Event>, env: Env, due: nat, lag: nat)
    requires Inv(s)
    decreases |es|
  {
    && (s.timer.m1 ==> s.timer.ticks <= due + lag)
    && (es != [] ==>
          var again := Restarts(s, es[0], env);
          && (again ==> RestartReading(s, es[0], env) <= due + lag)
          && Prompt(Step(s, es[0], env), es[1..], env,
                    if again then RestartReading(s, es[0], env) + 1000000 else due, lag))
  }

  /** Thread `t` gets the processor at some point of the run. */
  ghost predicate GetsTheProcessor(s: State, es: seq<Event>, env: Env, t: nat)
    requires Inv(s)
    decreases |es|
  {
    es != [] && (Step(s, es[0], env).running == [t] || GetsTheProcessor(Step(s, es[0], env), es[1..], env, t))
  }

  ghost predicate QuickWrites(env: Env) {
    forall i :: env.delays.beforeWrite(i) < 1000000
  }

  lemma StillPendingBy(tm: Timer, after: Timer, due: nat)
    requires Coasts(tm, after) && PendingBy(tm, due)
    ensures PendingBy(after, due)
  {
  }

  lemma PendingInTime(tm: Timer, due: nat)
    requires PendingBy(tm, due)
    ensures tm.m1 || tm.ticks <= due
  {
  }

  lemma StepPendingBy(s: State, e: Event, env: Env, due: nat)
    requires Inv(s) && PendingBy(s.timer, due) && QuickWrites(env)
    ensures PendingBy(Step(s, e, env).timer, if Restarts(s, e, env) then RestartReading(s, e, env) + 1000000 else due)
  {
    hide *;
    StepTimer(s, e, env);
    var tm := Halting.AtSwitch(s, e, env).timer;
    if Restarts(s, e, env) {
      WriteIsQuick(env, tm.readings);
      RestartArms(tm, env.delays);
      RestartReadingIs(s, e, env);
      ArmedPendingBy(Restart(tm, env.delays));
      StillPendingBy(Restart(tm, env.delays), Step(s, e, env).timer, RestartReading(s, e, env) + 1000000);
    } else {
      StillPendingBy(s.timer, Step(s, e, env).timer, due);
    }
  }

  lemma WriteIsQuick(env: Env, i: nat)
    requires QuickWrites(env)
    ensures env.delays.beforeWrite(i) < 1000000
  {
  }

  lemma RestartReadingIs(s: State, e: Event, env: Env)
    requires Inv(s)
    ensures RestartReading(s, e, env) == Read(Halting.AtSwitch(s, e, env).timer, env.delays).ticks
  {
    hide Inv, Read, Halting.AtSwitch;
  }

  lemma ArmedPendingBy(tm: Timer)
    ensures PendingBy(tm, Meeting(tm))
  {
  }

  /** With somebody ready, restarting the slice timer and switching are the same thing. */
  lemma RestartsWhenSwitched(s: State, e: Event, env: Env)
    requires Inv(s) && !s.panicked && !Step(s, e, env).panicked && s.ready != []
    ensures Restarts(s, e, env) <==> FairQueue.Switched(s, e, env)
  {
    hide *;
    RestartsIs(s, e, env);
    if e.Irq? && WokenByTimer(Entered(s, e.user), env).timer.m1 {
      EnteredReady(s, e.user);
      FairQueue.WokenQueue(Entered(s, e.user), env);
      IrqSwitches(s, e.user, e.received, env);
    }
  }

  /** The waiting time of the thread at position `k` of the ready list. */
  function Wait(k: nat, lag: nat): nat {
    if k == 0 then 0 else Wait(k - 1, lag) + 1000000 + lag
  }

  /**
    No starvation: with interrupts taken in time, a thread with `k` others before it in the ready list has the
    processor before `k` further intervals and lags have passed beyond the end of the current slice.
   */
  lemma {:induction false} NoStarvation(s: State, es: seq<Event>, env: Env, k: nat, t: nat, due: nat, lag: nat)
    requires Inv(s) && FairQueue.ReadyAt(s, k) == Some(t) && PendingBy(s.timer, due) && QuickWrites(env)
    requires Prompt(s, es, env, due, lag) && !Run(s, es, env).panicked
    requires Run(s, es, env).timer.ticks > due + lag + Wait(k, lag)
    ensures GetsTheProcessor(s, es, env, t)
    decreases |es|
  {
    hide Inv, Step, Restarts, PendingBy, RestartReading, FairQueue.Switched, QuickWrites;
    PendingInTime(s.timer, due);
    if es != [] {
      var e := es[0];
      var s1 := Step(s, e, env);
      NotYetHalted(s, es, env);
      ReadyNotEmpty(s, k, t);
      RestartsWhenSwitched(s, e, env);
      StepPendingBy(s, e, env, due);
      FairQueue.StepQueue(s, e, env);
      if FairQueue.Switched(s, e, env) && k == 0 {
        assert s1.running == [t];
      } else {
        FairQueue.MovesForward(s, e, env, k, t);
        if FairQueue.Switched(s, e, env) {
          NoStarvation(s1, es[1..], env, k - 1, t, RestartReading(s, e, env) + 1000000, lag);
        } else {
          NoStarvation(s1, es[1..], env, k, t, due, lag);
        }
      }
    }
  }

  lemma ReadyNotEmpty(s: State, k: nat, t: nat)
    requires FairQueue.ReadyAt(s, k) == Some(t)
    ensures s.ready != [] && (k == 0 ==> s.ready[0] == t)
  {
  }

  /** A run that does not end halted has not halted before. */
  lemma NotYetHalted(s: State, es: seq<Event>, env: Env)
    requires Inv(s) && es != [] && !Run(s, es, env).panicked
    ensures !s.panicked && !Step(s, es[0], env).panicked
  {
    hide *;
    RunFirst(s, es, env);
    Halting.RunHaltsExactlyWhen(Step(s, es[0], env), es[1..], env);
    if s.panicked {
      Halting.HaltedStays(s, es[0], env);
    }
  }

  lemma RunFirst(s: State, es: seq<Event>, env: Env)
    requires Inv(s) && es != []
    ensures Run(s, es, env) == Run(Step(s, es[0], env), es[1..], env)
  {
    hide Inv, Step;
  }
}
