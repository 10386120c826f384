/** When a thread ends: by its exit call, an unknown call, a fault or a store the tables forbid, and in no other way. */
module Endings {
  import opened Words
  import opened IntrusiveList
  import opened Mmu
  import opened SysTimer
  import opened Model
  import opened Invariant
  import opened Preservation
  import opened Machine
  import opened Creation
  import ContextSwitch
  import AddressSpaces
  import InputMatching
  import Halting

  /** No thread ends. */
  ghost predicate AllLive(s: State, r: State) {
    r.cfg == s.cfg && forall t: nat :: Live(s, t) ==> Live(r, t)
  }

  lemma AllLiveTrans(s: State, r: State, u: State)
    requires AllLive(s, r) && AllLive(r, u)
    ensures AllLive(s, u)
  {
  }

  lemma SwitchEndsNobody(s: State, forced: bool, env: Env)
    requires Shape(s)
    ensures AllLive(s, RoundRobin(s, forced, env))
  {
  }

  lemma AnswersEndNobody(s: State, v: Word, env: Env)
    requires Inv(s)
    ensures AllLive(s, s) && AllLive(s, Answered(s, v)) && AllLive(s, GetTimeCall(s, env)) && AllLive(s, Panic(s))
    ensures AllLive(s, Rearmed(s, env))
  {
  }

  lemma SameRegistersEndNobody(s: State, r: State)
    requires ContextSwitch.SameRegisters(s, r)
    ensures AllLive(s, r)
  {
  }

  lemma SparedEndsNobody(s: State, r: State)
    requires Inv(s) && Spared(s, r)
    ensures AllLive(s, r)
  {
  }

  lemma ReadCharacterEndsNobody(s: State, env: Env)
    requires Inv(s) && UserRunning(s)
    ensures AllLive(s, ReadCharacterCall(s, env))
  {
    SwitchEndsNobody(s, true, env);
    hide Inv, RoundRobin;
  }

  lemma StallEndsNobody(s: State, env: Env)
    requires Inv(s) && UserRunning(s)
    ensures AllLive(s, StallThreadCall(s, env))
  {
    InvShape(s);
    SwitchEndsNobody(s, true, env);
    hide *;
    var s1 := Yielded(s, env);
    ContextSwitch.StallBranches(s, env);
    ContextSwitch.YieldedIs(s, env);
    var h := ToHertz(s.cpu.general[0]);
    var s2 := Rearmed(s1, env);
    AnswersEndNobody(s1, 0, env);
    AnswersEndNobody(s2, EINVAL, env);
    AllLiveTrans(s, s1, s2);
    if !s1.panicked && s.cpu.general[0] != 0 {
      if h.Some? {
        ContextSwitch.AwaitTimerContext(s2, s.running[0], h.value, env);
        SameRegistersEndNobody(s2, StallThreadCall(s, env));
      }
      AllLiveTrans(s, s2, StallThreadCall(s, env));
    }
  }

  lemma DispatchEndsNobody(s: State, call: Call, bytes: seq<Byte>, env: Env)
    requires Inv(s) && UserRunning(s) && call != ExitThread
    ensures AllLive(s, Dispatch(s, call, bytes, env))
  {
    hide *;
    DispatchCases(s, bytes, env);
    AnswersEndNobody(s, s.running[0], env);
    match call {
      case ReadCharacter => ReadCharacterEndsNobody(s, env);
      case CreateProcessCall =>
        CreateProcessSpares(s, bytes, env);
        SparedEndsNobody(s, CreateProcessSyscall(s, bytes, env));
      case CreateThreadCall =>
        CreateThreadSpares(s, bytes, env);
        SparedEndsNobody(s, CreateThreadSyscall(s, bytes, env));
      case StallThread => StallEndsNobody(s, env);
      case _ =>
    }
  }

  lemma InterruptEndsNobody(s: State, received: Option<Byte>, env: Env)
    requires Inv(s)
    ensures AllLive(s, Interrupt(s, received, env))
  {
    hide *;
    var s1 := WokenByTimer(s, env);
    var s2 := SliceEnded(s1, env);
    InterruptStages(s, received, env);
    ContextSwitch.WokenContext(s, env);
    SameRegistersEndNobody(s, s1);
    SliceEndsNobody(s1, env);
    DeliveredEndsNobody(s2, received);
    AllLiveTrans(s, s1, s2);
    AllLiveTrans(s, s2, Interrupt(s, received, env));
  }

  lemma SliceEndsNobody(s: State, env: Env)
    requires Inv(s)
    ensures AllLive(s, SliceEnded(s, env)) && AllLive(SliceEnded(s, env), SliceEnded(s, env))
  {
    InvShape(s);
    SwitchEndsNobody(s, false, env);
    hide Inv, RoundRobin;
  }

  lemma DeliveredEndsNobody(s: State, received: Option<Byte>)
    requires Inv(s)
    ensures AllLive(s, Deliver(Receive(s, received)))
  {
    var s1 := Receive(s, received);
    assert s1 == s.(uart := s1.uart);
    InputMatching.DeliverRest(s1);
    forall t: nat | Live(s, t)
      ensures Live(Deliver(s1), t)
    {
      ContextSwitch.DeliverContext(s1, t);
    }
    hide Inv, Deliver;
  }

  /** The running thread is about to end: by a call, a fault, or a store that is not allowed. */
  predicate Ends(s: State, e: Event)
    requires Shape(s)
  {
    && UserRunning(s) && !s.panicked
    && match e {
         case Trap(_, n, _) => n == 6 || n == 0 || n > 8
         case Abort(_) => true
         case Irq(_, _) => false
         case Store(va, _) =>
           (match Translate(s.l1, s.tables, va)
            case None => true
            case Some(to) => !UserMayWrite(to.ap))
         case Tick(_) => false
       }
  }

  /** What an exit of the running thread achieves, seen from the state `s` before the kernel was entered. */
  ghost predicate RunningEnds(s: State, r: State) {
    && Shape(s) && Shape(r) && r.cfg == s.cfg && s.running != [] && s.running[0] < |s.blocks|
    && GivenBack(s, r, s.running[0])
  }

  lemma ExitEnds(s: State, env: Env)
    requires Inv(s) && UserRunning(s)
    ensures RunningEnds(s, ExitThreadCall(s, env))
  {
    ExitGivesBack(s, env);
    ExitShape(s, env);
    hide Inv, ExitThreadCall, GivenBack;
  }

  lemma EnteredEnds(s: State, user: Registers, r: State)
    requires Inv(s)
    ensures RunningEnds(Entered(s, user), r) ==> RunningEnds(s, r)
    ensures AllLive(Entered(s, user), r) ==> AllLive(s, r)
    ensures UserRunning(Entered(s, user)) <==> UserRunning(s)
  {
  }

  lemma Numbers(n: nat)
    ensures CallNumbered(n).None? <==> n == 0 || n > 8
    ensures CallNumbered(n) == Some(ExitThread) <==> n == 6
  {
  }

  /** A store reaches memory exactly when the tables let it. */
  lemma StoreEnds(s: State, va: Word, byte: Byte, env: Env)
    requires Inv(s) && UserRunning(s) && !s.panicked
    ensures Shape(s)
    ensures Ends(s, Store(va, byte)) ==> UserStore(s, va, byte, env) == ExitThreadCall(s, env)
    ensures !Ends(s, Store(va, byte)) ==> AllLive(s, UserStore(s, va, byte, env))
  {
    InvShape(s);
    var to := Translate(s.l1, s.tables, va);
    if to.Some? && UserMayWrite(to.value.ap) {
      AddressSpaces.UserWritable(s, va);
    }
    hide Inv, ExitThreadCall, Translate, Shape;
  }

  lemma TrapEnds(s: State, e: Event, env: Env)
    requires Inv(s) && !s.panicked && e.Trap?
    ensures Shape(s)
    ensures if Ends(s, e) then RunningEnds(s, Step(s, e, env)) else AllLive(s, Step(s, e, env))
  {
    InvShape(s);
    hide *;
    EndsIs(s, e);
    Numbers(e.number);
    TrapStep(s, e.user, e.number, e.bytes, env);
    AnswersEndNobody(s, 0, env);
    EnteredEnds(s, e.user, Step(s, e, env));
    if UserRunning(s) {
      var s0 := Entered(s, e.user);
      ExitEnds(s0, env);
      DispatchCases(s0, e.bytes, env);
      if !Ends(s, e) {
        DispatchEndsNobody(s0, CallNumbered(e.number).value, e.bytes, env);
      }
    }
  }

  lemma EndsIs(s: State, e: Event)
    requires Shape(s) && !s.panicked
    ensures e.Trap? ==> (Ends(s, e) <==> UserRunning(s) && (e.number == 6 || e.number == 0 || e.number > 8))
    ensures e.Abort? ==> (Ends(s, e) <==> UserRunning(s))
    ensures e.Irq? || e.Tick? ==> !Ends(s, e)
    ensures e.Store? && !UserRunning(s) ==> !Ends(s, e)
  {
  }

  lemma OtherEnds(s: State, e: Event, env: Env)
    requires Inv(s) && !s.panicked && !e.Trap?
    ensures Shape(s)
    ensures if Ends(s, e) then RunningEnds(s, Step(s, e, env)) else AllLive(s, Step(s, e, env))
  {
    InvShape(s);
    hide *;
    EndsIs(s, e);
    OtherSteps(s, e, env);
    AnswersEndNobody(s, 0, env);
    match e {
      case Irq(user, received) =>
        InterruptEndsNobody(Entered(s, user), received, env);
        EnteredEnds(s, user, Step(s, e, env));
      case Tick(d) => TickEndsNobody(s, Elapse(s.timer, d));
      case Abort(user) =>
        if UserRunning(s) {
          ExitEnds(Entered(s, user), env);
          EnteredEnds(s, user, Step(s, e, env));
        }
      case Store(va, byte) =>
        if UserRunning(s) {
          StoreEnds(s, va, byte, env);
          ExitEnds(s, env);
        }
    }
  }

  lemma TickEndsNobody(s: State, tm: Timer)
    requires Inv(s)
    ensures AllLive(s, Clocked(s, tm))
  {
  }

  /**
    A step ends the running user thread exactly when it calls exit or a number that is no call, faults, or
    stores where the tables forbid it; then exactly that thread ends and its seat is free. No other step
    ends anybody.
   */
  lemma EndsExactlyWhen(s: State, e: Event, env: Env)
    requires Inv(s)
    ensures Shape(s)
    ensures Ends(s, e) ==> RunningEnds(s, Step(s, e, env)) && !AllLive(s, Step(s, e, env))
    ensures !Ends(s, e) ==> AllLive(s, Step(s, e, env))
  {
    InvShape(s);
    hide *;
    if s.panicked {
      Halting.HaltedStays(s, e, env);
      AnswersEndNobody(s, 0, env);
      HaltedEndsNobody(s, e);
    } else if e.Trap? {
      TrapEnds(s, e, env);
    } else {
      OtherEnds(s, e, env);
    }
    EndIsSeen(s, Step(s, e, env));
  }

  lemma HaltedEndsNobody(s: State, e: Event)
    requires Shape(s) && s.panicked
    ensures !Ends(s, e)
  {
  }

  lemma EndIsSeen(s: State, r: State)
    requires Shape(s)
    ensures RunningEnds(s, r) ==> !AllLive(s, r)
  {
  }
}
