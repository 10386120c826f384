/**
  First come, first served: a ready thread runs at exactly the turn its place in the ready list
  says, whatever else happens in between.
 */
module FairQueue {
  import opened Words
  import opened IntrusiveList
  import opened Mmu
  import opened SysTimer
  import opened Model
  import opened Invariant
  import opened Preservation
  import opened Machine

  /** `q` starts with all of `p`: threads have joined at the end, nobody has left. */
  predicate Extends(p: seq<nat>, q: seq<nat>) {
    |p| <= |q| && forall i :: 0 <= i < |p| ==> q[i] == p[i]
  }

  /** The step hands the processor over: it contains a round robin that does not return early. */
  predicate Switched(s: State, e: Event, env: Env)
    requires Inv(s)
  {
    && !s.panicked
    && match e
       case Trap(user, number, bytes) =>
         UserRunning(s) && (CallNumbered(number) == None ||
                            CallNumbered(number).value in {ReadCharacter, StallThread, ExitThread})
       case Abort(user) => UserRunning(s)
       case Irq(user, received) =>
         var s1 := WokenByTimer(Entered(s, user), env);
         s1.timer.m1 && Switches(s1, false)
       case Store(va, byte) => UserRunning(s) && Target(s, va) == None
       case Tick(d) => false
  }

  /** What one step may do to the queue and the processor. */
  ghost predicate QueueStep(s: State, r: State, switched: bool) {
    if !switched then Extends(s.ready, r.ready) && r.running == s.running
    else r.running != [] && (s.ready != [] ==> Extends(s.ready[1..], r.ready) && r.running == [s.ready[0]])
  }

  lemma {:induction false} UnblockOverdueQueue(s: State, env: Env)
    requires Shape(s)
    ensures var r := UnblockOverdue(s, env); Extends(s.ready, r.ready) && r.running == s.running
    decreases |s.stall|
  {
    var a := AdjustStallTimer(s, env);
    if !a.ok {
      UnblockOverdueQueue(WakeFirst(a.state), env);
    }
  }

  lemma {:induction false} DeliverQueue(s: State)
    requires Inv(s)
    ensures var r := Deliver(s); Extends(s.ready, r.ready) && r.running == s.running
    decreases |s.input|
  {
    if s.input != [] && s.uart != [] {
      DeliverQueue(DeliverOne(s));
    }
  }

  lemma ExitThreadQueue(s: State, env: Env)
    requires Inv(s) && UserRunning(s)
    ensures QueueStep(s, ExitThreadCall(s, env), true)
  {
  }

  lemma AwaitTimerQueue(s: State, t: nat, ticks: Word, env: Env)
    requires Shape(s) && s.ready != [] && s.ready[|s.ready| - 1] == t
    ensures var r := AwaitTimer(s, t, ticks, env);
            Extends(s.ready[..|s.ready| - 1], r.ready) && r.running == s.running
  {
    var s1 := EnterStall(s, t, ticks, env);
    if s1.stall[0] == t {
      UnblockOverdueQueue(AdjustStallTimer(s1, env).state, env);
    }
  }

  lemma RoundRobinQueue(s: State, forced: bool, env: Env)
    requires Inv(s) && MaySwitch(s, forced)
    ensures var r := RoundRobin(s, forced, env);
            && QueueStep(s, r, Switches(s, forced))
            && (s.ready != [] && Switches(s, forced) && UserRunning(s) ==> r.ready == s.ready[1..] + [s.running[0]])
  {
  }

  lemma ReadCharacterQueue(s: State, env: Env)
    requires Inv(s) && UserRunning(s)
    ensures QueueStep(s, ReadCharacterCall(s, env), true)
  {
    RoundRobinQueue(s, true, env);
    var s1 := Yielded(s, env);
    assert s1 == RoundRobin(s, true, env);
    hide Inv, RoundRobin, Yielded;
  }

  lemma StallThreadQueue(s: State, env: Env)
    requires Inv(s) && UserRunning(s)
    ensures QueueStep(s, StallThreadCall(s, env), true)
  {
    hide Inv, RoundRobin, AwaitTimer;
    RoundRobinQueue(s, true, env);
    var s1 := Yielded(s, env);
    var h := ToHertz(s.cpu.general[0]);
    if !s1.panicked && h.Some? {
      AwaitTimerQueue(Rearmed(s1, env), s.running[0], h.value, env);
    }
  }

  lemma DispatchQueue(s: State, call: Call, bytes: seq<Byte>, env: Env)
    requires Inv(s) && UserRunning(s)
    ensures QueueStep(s, Dispatch(s, call, bytes, env), call in {ReadCharacter, StallThread, ExitThread})
  {
    match call
    case ReadCharacter => ReadCharacterQueue(s, env);
    case StallThread => StallThreadQueue(s, env);
    case ExitThread => ExitThreadQueue(s, env);
    case CreateProcessCall => CreateQueue(s, bytes, env);
    case CreateThreadCall => CreateQueue(s, bytes, env);
    case OutputCharacter =>
    case GetTime =>
    case GetThreadId =>
  }

  lemma CreateQueue(s: State, bytes: seq<Byte>, env: Env)
    requires Inv(s) && UserRunning(s)
    ensures QueueStep(s, CreateProcessSyscall(s, bytes, env), false)
    ensures QueueStep(s, CreateThreadSyscall(s, bytes, env), false)
  {
    CreateProcessSpares(s, bytes, env);
    CreateThreadSpares(s, bytes, env);
    hide Inv, CreateProcessSyscall, CreateThreadSyscall, Live;
  }

  lemma SliceEndedQueue(s: State, env: Env)
    requires Inv(s)
    ensures QueueStep(s, SliceEnded(s, env), s.timer.m1 && Switches(s, false))
  {
    RoundRobinQueue(s, false, env);
  }

  lemma QueueStepThenExtends(p: State, q: State, r: State, switched: bool)
    requires QueueStep(p, q, switched) && Extends(q.ready, r.ready) && r.running == q.running
    ensures QueueStep(p, r, switched)
  {
  }

  lemma ExtendsThenQueueStep(p: State, q: State, r: State, switched: bool)
    requires Extends(p.ready, q.ready) && q.running == p.running && QueueStep(q, r, switched)
    ensures QueueStep(p, r, switched)
  {
  }

  lemma WokenQueue(s: State, env: Env)
    requires Inv(s)
    ensures var r := WokenByTimer(s, env); Extends(s.ready, r.ready) && r.running == s.running
  {
    UnblockOverdueQueue(s, env);
  }

  lemma DeliveredQueue(s: State, received: Option<Byte>)
    requires Inv(s)
    ensures var r := Deliver(Receive(s, received)); Extends(s.ready, r.ready) && r.running == s.running
  {
    DeliverQueue(Receive(s, received));
    hide Inv, Deliver;
  }

  lemma InterruptQueue(s: State, received: Option<Byte>, env: Env)
    requires Inv(s)
    ensures var s1 := WokenByTimer(s, env);
            QueueStep(s, Interrupt(s, received, env), s1.timer.m1 && Switches(s1, false))
  {
    hide *;
    var s1 := WokenByTimer(s, env);
    var s2 := SliceEnded(s1, env);
    var switched := s1.timer.m1 && Switches(s1, false);
    InterruptStages(s, received, env);
    WokenQueue(s, env);
    SliceEndedQueue(s1, env);
    ExtendsThenQueueStep(s, s1, s2, switched);
    DeliveredQueue(s2, received);
    if !s2.panicked {
      QueueStepThenExtends(s, s2, Deliver(Receive(s2, received)), switched);
    }
  }

  lemma StepQueue(s: State, e: Event, env: Env)
    requires Inv(s)
    ensures QueueStep(s, Step(s, e, env), Switched(s, e, env))
  {
    hide *;
    if s.panicked {
      HaltedQueue(s, e, env);
    } else if e.Trap? {
      TrapQueue(s, e, env);
    } else if e.Irq? {
      IrqQueue(s, e, env);
    } else {
      OtherQueue(s, e, env);
    }
  }

  lemma HaltedQueue(s: State, e: Event, env: Env)
    requires Inv(s) && s.panicked
    ensures QueueStep(s, Step(s, e, env), Switched(s, e, env))
  {
    hide Inv;
  }

  lemma TrapQueue(s: State, e: Event, env: Env)
    requires Inv(s) && !s.panicked && e.Trap?
    ensures QueueStep(s, Step(s, e, env), Switched(s, e, env))
  {
    hide Inv, Dispatch, ExitThreadCall;
    if UserRunning(s) {
      if CallNumbered(e.number).Some? {
        DispatchQueue(Entered(s, e.user), CallNumbered(e.number).value, e.bytes, env);
      } else {
        ExitThreadQueue(Entered(s, e.user), env);
      }
    }
  }

  lemma IrqQueue(s: State, e: Event, env: Env)
    requires Inv(s) && !s.panicked && e.Irq?
    ensures QueueStep(s, Step(s, e, env), Switched(s, e, env))
  {
    InterruptQueue(Entered(s, e.user), e.received, env);
    hide Inv, Interrupt, WokenByTimer;
  }

  lemma OtherQueue(s: State, e: Event, env: Env)
    requires Inv(s) && !s.panicked && !e.Trap? && !e.Irq?
    ensures QueueStep(s, Step(s, e, env), Switched(s, e, env))
  {
    hide *;
    OtherSteps(s, e, env);
    SwitchedOther(s, e, env);
    QuietQueue(s);
    if e.Tick? {
      ClockedQueue(s, Elapse(s.timer, e.d));
    } else if UserRunning(s) {
      if e.Abort? {
        ExitThreadQueue(Entered(s, e.user), env);
        EnteredQueue(s, e.user, Step(s, e, env));
      } else {
        UserStoreQueue(s, e.va, e.byte, env);
      }
    }
  }

  lemma SwitchedOther(s: State, e: Event, env: Env)
    requires Inv(s) && !s.panicked && !e.Trap? && !e.Irq?
    ensures e.Abort? ==> (Switched(s, e, env) <==> UserRunning(s))
    ensures Shape(s) && (e.Store? ==> (Switched(s, e, env) <==> UserRunning(s) && Target(s, e.va) == None))
    ensures e.Tick? ==> !Switched(s, e, env)
  {
    InvShape(s);
    hide Inv, Shape, Target;
  }

  lemma QuietQueue(s: State)
    requires Inv(s)
    ensures QueueStep(s, s, false) && QueueStep(s, Panic(s), false)
  {
  }

  lemma ClockedQueue(s: State, tm: Timer)
    requires Inv(s)
    ensures QueueStep(s, Clocked(s, tm), false)
  {
  }

  lemma EnteredQueue(s: State, user: Registers, r: State)
    requires Inv(s) && QueueStep(Entered(s, user), r, true)
    ensures QueueStep(s, r, true)
  {
  }

  lemma UserStoreQueue(s: State, va: Word, byte: Byte, env: Env)
    requires Inv(s) && UserRunning(s)
    ensures Shape(s) && QueueStep(s, UserStore(s, va, byte, env), Target(s, va) == None)
  {
    ExitThreadQueue(s, env);
    InvShape(s);
    hide Inv, Shape, Target, ExitThreadCall;
  }

  function Switchings(s: State, es: seq<Event>, env: Env): nat
    requires Inv(s)
    decreases |es|
  {
    if es == [] then 0
    else (if Switched(s, es[0], env) then 1 else 0) + Switchings(Step(s, es[0], env), es[1..], env)
  }

  /** The thread with `j` others before it in the ready list. */
  function ReadyAt(s: State, j: int): Option<nat> {
    if 0 <= j < |s.ready| then Some(s.ready[j]) else None
  }

  lemma MovesForward(s: State, e: Event, env: Env, k: nat, t: nat)
    requires Inv(s) && ReadyAt(s, k) == Some(t) && (Switched(s, e, env) ==> k > 0)
    ensures ReadyAt(Step(s, e, env), if Switched(s, e, env) then k - 1 else k) == Some(t)
  {
    hide *;
    StepQueue(s, e, env);
    QueueMoves(s, Step(s, e, env), Switched(s, e, env), k, t);
  }

  lemma QueueMoves(s: State, r: State, switched: bool, k: nat, t: nat)
    requires QueueStep(s, r, switched) && ReadyAt(s, k) == Some(t) && (switched ==> k > 0)
    ensures ReadyAt(r, if switched then k - 1 else k) == Some(t)
  {
    if switched {
      assert s.ready[1..][k - 1] == s.ready[k];
    }
  }

  /** Up to its turn a ready thread waits, one place further forward for every switch. */
  lemma {:induction false} WaitsItsTurn(s: State, es: seq<Event>, env: Env, k: nat, t: nat)
    requires Inv(s) && ReadyAt(s, k) == Some(t) && Switchings(s, es, env) <= k
    ensures ReadyAt(Run(s, es, env), k - Switchings(s, es, env)) == Some(t)
    decreases |es|
  {
    hide Inv, Step, Switched;
    if es != [] {
      MovesForward(s, es[0], env, k, t);
      WaitsItsTurn(Step(s, es[0], env), es[1..], env, if Switched(s, es[0], env) then k - 1 else k, t);
    }
  }

  /** And it is switched in by exactly the switch whose number its place says. */
  lemma RunsAtItsTurn(s: State, es: seq<Event>, e: Event, env: Env, k: nat, t: nat)
    requires Inv(s) && ReadyAt(s, k) == Some(t) && Switchings(s, es, env) == k
    requires Switched(Run(s, es, env), e, env)
    ensures Step(Run(s, es, env), e, env).running == [t]
  {
    hide Inv, Step, Switched;
    WaitsItsTurn(s, es, env, k, t);
    StepQueue(Run(s, es, env), e, env);
  }

  /** Nobody runs before the first switch, and exactly one thread after every switch. */
  lemma {:induction false} OneRunsOnceSwitched(s: State, es: seq<Event>, env: Env)
    requires Inv(s)
    ensures |Run(s, es, env).running| == if s.running != [] || Switchings(s, es, env) > 0 then 1 else 0
    decreases |es|
  {
    InvShape(s);
    hide Inv, Step, Switched;
    if es != [] {
      StepQueue(s, es[0], env);
      OneRunsOnceSwitched(Step(s, es[0], env), es[1..], env);
    }
  }
}
