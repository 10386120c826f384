/**
  Keyboard input over whole runs: the i-th character the ring buffer takes goes to the i-th
  thread that asked for one.
 */
module InputMatching {
  import opened Words
  import opened IntrusiveList
  import opened Mmu
  import opened SysTimer
  import opened Model
  import opened Invariant
  import opened Preservation
  import opened Machine

  datatype Delivery = Delivery(thread: nat, ch: Byte)

  /** What a step contributes: threads that start to wait, characters taken in, characters handed out. */
  datatype Log = Log(readers: seq<nat>, accepted: seq<Byte>, delivered: seq<Delivery>)

  const NOTHING := Log([], [], [])

  function Pairing(threads: seq<nat>, chars: seq<Byte>): (d: seq<Delivery>)
    ensures |d| == Min(|threads|, |chars|)
  {
    seq(Min(|threads|, |chars|), i requires 0 <= i < Min(|threads|, |chars|) => Delivery(threads[i], chars[i]))
  }

  function InterruptLog(s: State, received: Option<Byte>, env: Env): Log
    requires Inv(s)
  {
    var s1 := SliceEnded(WokenByTimer(s, env), env);
    if s1.panicked then NOTHING else
    var s2 := Receive(s1, received);
    Log([], s2.uart[|s1.uart|..], Pairing(s2.input, s2.uart))
  }

  function StepLog(s: State, e: Event, env: Env): Log
    requires Inv(s)
  {
    if s.panicked then NOTHING else
    match e
    case Trap(user, number, _) =>
      if UserRunning(s) && CallNumbered(number) == Some(ReadCharacter) && !Yielded(Entered(s, user), env).panicked
      then Log([s.running[0]], [], []) else NOTHING
    case Irq(user, received) => InterruptLog(Entered(s, user), received, env)
    case _ => NOTHING
  }

  function Threads(d: seq<Delivery>): (t: seq<nat>)
    ensures |t| == |d|
  {
    seq(|d|, i requires 0 <= i < |d| => d[i].thread)
  }

  function Chars(d: seq<Delivery>): (c: seq<Byte>)
    ensures |c| == |d|
  {
    seq(|d|, i requires 0 <= i < |d| => d[i].ch)
  }

  /** Waiting threads and buffered characters balance against a log. */
  ghost predicate Balanced(input: seq<nat>, uart: seq<Byte>, log: Log, input': seq<nat>, uart': seq<Byte>) {
    && input + log.readers == Threads(log.delivered) + input'
    && uart + log.accepted == Chars(log.delivered) + uart'
  }

  /** `regs` of thread `t` after the deliveries `d`: each one meant for `t` overwrites r0. */
  function Received(regs: Registers, d: seq<Delivery>, t: nat): Registers
    decreases |d|
  {
    if d == [] then regs else Received(if d[0].thread == t then SetR0(regs, d[0].ch) else regs, d[1..], t)
  }

  lemma DeliverStops(s: State)
    requires Inv(s) && (s.input == [] || s.uart == [])
    ensures Deliver(s) == s
  {
  }

  /** One turn of the delivery loop. */
  lemma DeliverTurn(s: State)
    requires Inv(s) && s.input != [] && s.uart != []
    ensures Deliver(s) == Deliver(DeliverOne(s))
    ensures DeliverOne(s).input == s.input[1..] && DeliverOne(s).uart == s.uart[1..]
    ensures DeliverOne(s).ready == s.ready + [s.input[0]]
    ensures |DeliverOne(s).blocks| == |s.blocks|
    ensures forall t: nat :: t < |s.blocks| ==>
                DeliverOne(s).blocks[t] == Served(s.blocks[t], s.uart[0], t == s.input[0])
  {
  }

  function Served(b: Block, ch: Byte, yes: bool): Block {
    if yes then b.(regs := SetR0(b.regs, ch)) else b
  }

  /** The delivery loop pairs off as many as it can and makes the served threads ready. */
  lemma {:induction false} DeliverLists(s: State)
    requires Inv(s)
    ensures var r := Deliver(s);
            var m := Min(|s.input|, |s.uart|);
            && r.input == s.input[m..] && r.uart == s.uart[m..] && r.ready == s.ready + s.input[..m]
    decreases |s.input|
  {
    hide Inv, Deliver, DeliverOne;
    var m := Min(|s.input|, |s.uart|);
    if m == 0 {
      DeliverStops(s);
    } else {
      DeliverTurn(s);
      DeliverLists(DeliverOne(s));
      SliceTail(s.input, m);
      SliceTail(s.uart, m);
      assert s.ready + [s.input[0]] + s.input[1..][..m - 1] == s.ready + s.input[..m];
    }
  }

  lemma SliceTail<T>(q: seq<T>, m: nat)
    requires 0 < m <= |q|
    ensures q[1..][m - 1..] == q[m..] && [q[0]] + q[1..][..m - 1] == q[..m]
  {
  }

  lemma {:induction false} DeliverRest(s: State)
    requires Inv(s)
    ensures var r := Deliver(s);
            r == s.(input := r.input, uart := r.uart, ready := r.ready, blocks := r.blocks)
    decreases |s.input|
  {
    hide Inv;
    if s.input != [] && s.uart != [] {
      DeliverRest(DeliverOne(s));
    }
  }


  /** It writes each character to the saved r0 of the thread it is paired with and nothing else. */
  lemma {:induction false} DeliverBlocks(s: State, t: nat)
    requires Inv(s) && t < |s.blocks|
    ensures t < |Deliver(s).blocks|
    ensures Deliver(s).blocks[t] ==
            s.blocks[t].(regs := Received(s.blocks[t].regs, Pairing(s.input, s.uart), t))
    decreases |s.input|
  {
    hide Inv, Deliver, DeliverOne;
    if s.input == [] || s.uart == [] {
      DeliverStops(s);
    } else {
      DeliverTurn(s);
      var s1 := DeliverOne(s);
      DeliverBlocks(s1, t);
      var d := Pairing(s.input, s.uart);
      assert d[1..] == Pairing(s1.input, s1.uart);
    }
  }

  // ----- One step -----

  ghost predicate BalancedStep(s: State, r: State, log: Log) {
    Balanced(s.input, s.uart, log, r.input, r.uart)
  }

  lemma {:induction false} UnblockOverdueInput(s: State, env: Env)
    requires Shape(s)
    ensures UnblockOverdue(s, env).input == s.input && UnblockOverdue(s, env).uart == s.uart
    decreases |s.stall|
  {
    var a := AdjustStallTimer(s, env);
    if !a.ok {
      UnblockOverdueInput(WakeFirst(a.state), env);
    }
  }

  lemma AwaitTimerInput(s: State, t: nat, ticks: Word, env: Env)
    requires Shape(s) && s.ready != [] && s.ready[|s.ready| - 1] == t
    ensures AwaitTimer(s, t, ticks, env).input == s.input && AwaitTimer(s, t, ticks, env).uart == s.uart
  {
    var s1 := EnterStall(s, t, ticks, env);
    if s1.stall[0] == t {
      UnblockOverdueInput(AdjustStallTimer(s1, env).state, env);
    }
  }

  lemma PairingSplits(input: seq<nat>, uart: seq<Byte>)
    ensures var d := Pairing(input, uart);
            input == Threads(d) + input[|d|..] && uart == Chars(d) + uart[|d|..]
  {
  }

  lemma WokenInput(s: State, env: Env)
    requires Inv(s)
    ensures WokenByTimer(s, env).input == s.input && WokenByTimer(s, env).uart == s.uart
  {
    UnblockOverdueInput(s, env);
  }

  lemma SliceEndedInput(s: State, env: Env)
    requires Inv(s)
    ensures SliceEnded(s, env).input == s.input && SliceEnded(s, env).uart == s.uart
  {
    hide Inv;
  }

  lemma InterruptBalances(s: State, received: Option<Byte>, env: Env)
    requires Inv(s)
    ensures BalancedStep(s, Interrupt(s, received, env), InterruptLog(s, received, env))
  {
    hide Inv, SliceEnded, UnblockOverdue, Deliver;
    WokenInput(s, env);
    SliceEndedInput(WokenByTimer(s, env), env);
    var s1 := SliceEnded(WokenByTimer(s, env), env);
    hide WokenByTimer;
    if !s1.panicked {
      var s2 := Receive(s1, received);
      DeliverLists(s2);
      PairingSplits(s2.input, s2.uart);
      assert s2.uart == s1.uart + s2.uart[|s1.uart|..];
    }
  }

  lemma StallThreadInput(s: State, env: Env)
    requires Inv(s) && UserRunning(s)
    ensures StallThreadCall(s, env).input == s.input && StallThreadCall(s, env).uart == s.uart
  {
    hide AwaitTimer;
    var s1 := Yielded(s, env);
    var h := ToHertz(s.cpu.general[0]);
    if !s1.panicked && h.Some? {
      AwaitTimerInput(Rearmed(s1, env), s.running[0], h.value, env);
    }
  }

  lemma ReadCharacterInput(s: State, env: Env)
    requires Inv(s) && UserRunning(s)
    ensures var r := ReadCharacterCall(s, env);
            r.uart == s.uart && r.input == s.input + (if Yielded(s, env).panicked then [] else [s.running[0]])
  {
    hide Inv;
  }

  lemma ExitThreadInput(s: State, env: Env)
    requires Inv(s) && UserRunning(s)
    ensures ExitThreadCall(s, env).input == s.input && ExitThreadCall(s, env).uart == s.uart
  {
  }

  lemma CreateInput(s: State, bytes: seq<Byte>, env: Env)
    requires Inv(s) && UserRunning(s)
    ensures CreateProcessSyscall(s, bytes, env).input == s.input && CreateProcessSyscall(s, bytes, env).uart == s.uart
    ensures CreateThreadSyscall(s, bytes, env).input == s.input && CreateThreadSyscall(s, bytes, env).uart == s.uart
  {
    CreateProcessSpares(s, bytes, env);
    CreateThreadSpares(s, bytes, env);
    hide Inv, CreateProcessSyscall, CreateThreadSyscall, Live;
  }

  lemma DispatchInput(s: State, call: Call, bytes: seq<Byte>, env: Env)
    requires Inv(s) && UserRunning(s) && call != ReadCharacter
    ensures Dispatch(s, call, bytes, env).input == s.input && Dispatch(s, call, bytes, env).uart == s.uart
  {
    CreateInput(s, bytes, env);
    ExitThreadInput(s, env);
    StallThreadInput(s, env);
    hide Inv, CreateProcessSyscall, CreateThreadSyscall, ExitThreadCall, StallThreadCall, ReadCharacterCall;
  }

  lemma TrapBalances(s: State, number: nat, bytes: seq<Byte>, env: Env)
    requires Inv(s) && UserRunning(s)
    ensures match CallNumbered(number)
            case Some(call) =>
              var waits := call == ReadCharacter && !Yielded(s, env).panicked;
              var log := if waits then Log([s.running[0]], [], []) else NOTHING;
              BalancedStep(s, Dispatch(s, call, bytes, env), log)
            case None => BalancedStep(s, ExitThreadCall(s, env), NOTHING)
  {
    hide Inv, ReadCharacterCall, ExitThreadCall, Yielded;
    match CallNumbered(number) {
      case Some(call) =>
        if call == ReadCharacter {
          ReadCharacterInput(s, env);
        } else {
          DispatchInput(s, call, bytes, env);
          hide Dispatch;
        }
      case None => ExitThreadInput(s, env);
    }
  }

  lemma StepBalances(s: State, e: Event, env: Env)
    requires Inv(s)
    ensures BalancedStep(s, Step(s, e, env), StepLog(s, e, env))
  {
    hide Inv, Dispatch, ExitThreadCall, Interrupt, InterruptLog, Yielded, Target;
    if !s.panicked {
      match e
      case Trap(user, number, bytes) => TrapStepBalances(s, user, number, bytes, env);
      case Irq(user, received) => InterruptBalances(Entered(s, user), received, env);
      case Abort(user) =>
        if UserRunning(s) {
          ExitThreadInput(Entered(s, user), env);
        }
      case Store(va, byte) =>
        if UserRunning(s) {
          ExitThreadInput(s, env);
        }
      case Tick(d) =>
    }
  }

  lemma TrapStepBalances(s: State, user: Registers, number: nat, bytes: seq<Byte>, env: Env)
    requires Inv(s) && !s.panicked
    ensures var e := Trap(user, number, bytes); BalancedStep(s, Step(s, e, env), StepLog(s, e, env))
  {
    hide Inv, Dispatch, ExitThreadCall, Yielded;
    if UserRunning(s) {
      TrapBalances(Entered(s, user), number, bytes, env);
    }
  }

  // ----- Runs -----

  function Joined(a: Log, b: Log): Log {
    Log(a.readers + b.readers, a.accepted + b.accepted, a.delivered + b.delivered)
  }

  function RunLog(s: State, es: seq<Event>, env: Env): Log
    requires Inv(s)
    decreases |es|
  {
    if es == [] then NOTHING else Joined(StepLog(s, es[0], env), RunLog(Step(s, es[0], env), es[1..], env))
  }

  lemma ThreadsJoin(a: seq<Delivery>, b: seq<Delivery>)
    ensures Threads(a + b) == Threads(a) + Threads(b) && Chars(a + b) == Chars(a) + Chars(b)
  {
  }

  lemma BalancedJoin(i0: seq<nat>, u0: seq<Byte>, a: Log, i1: seq<nat>, u1: seq<Byte>, b: Log,
                     i2: seq<nat>, u2: seq<Byte>)
    requires Balanced(i0, u0, a, i1, u1) && Balanced(i1, u1, b, i2, u2)
    ensures Balanced(i0, u0, Joined(a, b), i2, u2)
  {
    ThreadsJoin(a.delivered, b.delivered);
    calc {
      i0 + (a.readers + b.readers);
      i0 + a.readers + b.readers;
      Threads(a.delivered) + (i1 + b.readers);
      Threads(a.delivered) + Threads(b.delivered) + i2;
    }
    calc {
      u0 + (a.accepted + b.accepted);
      u0 + a.accepted + b.accepted;
      Chars(a.delivered) + (u1 + b.accepted);
      Chars(a.delivered) + Chars(b.delivered) + u2;
    }
  }

  /** Over any run, threads and characters that were there or came in are served in order or still there. */
  lemma {:induction false} RunBalances(s: State, es: seq<Event>, env: Env)
    requires Inv(s)
    ensures BalancedStep(s, Run(s, es, env), RunLog(s, es, env))
    decreases |es|
  {
    hide Inv, Step, StepLog;
    if es != [] {
      var s1, r := Step(s, es[0], env), Run(s, es, env);
      StepBalances(s, es[0], env);
      RunBalances(s1, es[1..], env);
      BalancedJoin(s.input, s.uart, StepLog(s, es[0], env), s1.input, s1.uart, RunLog(s1, es[1..], env),
                   r.input, r.uart);
    }
  }

  /** Started with nothing waiting, the i-th delivery takes the i-th accepted character to the i-th reader. */
  lemma InOrder(s: State, es: seq<Event>, env: Env, i: nat)
    requires Inv(s) && s.input == [] && s.uart == []
    requires i < |RunLog(s, es, env).delivered|
    ensures var log := RunLog(s, es, env);
            i < |log.readers| && i < |log.accepted| && log.delivered[i] == Delivery(log.readers[i], log.accepted[i])
  {
    RunBalances(s, es, env);
    hide Inv, Run, RunLog;
    var log, r := RunLog(s, es, env), Run(s, es, env);
    assert log.readers == Threads(log.delivered) + r.input;
    assert log.accepted == Chars(log.delivered) + r.uart;
  }

  // ----- Which characters are accepted -----

  /** The characters the interrupts of a run bring, in order. */
  function Arrivals(es: seq<Event>): seq<Byte> {
    if es == [] then []
    else (if es[0].Irq? && es[0].received.Some? then [es[0].received.value] else []) + Arrivals(es[1..])
  }

  /** A character that comes with the event finds room: fewer than 128 wait, and the kernel does not halt. */
  predicate FindsRoom(s: State, e: Event, env: Env)
    requires Inv(s)
  {
    !s.panicked && !Step(s, e, env).panicked && |s.uart| < 128
  }

  /** Whether each arriving character finds room. */
  function Verdicts(s: State, es: seq<Event>, env: Env): seq<bool>
    requires Inv(s)
    decreases |es|
  {
    if es == [] then []
    else (if es[0].Irq? && es[0].received.Some? then [FindsRoom(s, es[0], env)] else [])
         + Verdicts(Step(s, es[0], env), es[1..], env)
  }

  function Chosen<T>(q: seq<T>, yes: seq<bool>): seq<T> {
    if q == [] || yes == [] then [] else (if yes[0] then [q[0]] else []) + Chosen(q[1..], yes[1..])
  }

  lemma InterruptPanics(s: State, received: Option<Byte>, env: Env)
    requires Inv(s)
    ensures Interrupt(s, received, env).panicked == SliceEnded(WokenByTimer(s, env), env).panicked
  {
    InterruptStages(s, received, env);
    var s2 := SliceEnded(WokenByTimer(s, env), env);
    ReceiveFlag(s2, received);
    DeliverRest(Receive(s2, received));
    hide *;
  }

  lemma ReceiveFlag(s: State, received: Option<Byte>)
    requires Inv(s)
    ensures Receive(s, received).panicked == s.panicked
  {
  }

  /** What is added to the buffer behind what is there. */
  lemma ReceiveAppends(s: State, received: Option<Byte>)
    requires Inv(s)
    ensures Receive(s, received).uart ==
            s.uart + if received.Some? && |s.uart| < 128 then [received.value] else []
  {
  }

  lemma InterruptAccepts(s: State, received: Option<Byte>, env: Env)
    requires Inv(s)
    ensures InterruptLog(s, received, env).accepted ==
            if received.Some? && !Interrupt(s, received, env).panicked && |s.uart| < 128 then [received.value] else []
  {
    hide *;
    InterruptPanics(s, received, env);
    WokenInput(s, env);
    SliceEndedInput(WokenByTimer(s, env), env);
    var s1 := SliceEnded(WokenByTimer(s, env), env);
    ReceiveAppends(s1, received);
    InterruptLogIs(s, received, env);
  }

  lemma InterruptLogIs(s: State, received: Option<Byte>, env: Env)
    requires Inv(s)
    ensures var s1 := SliceEnded(WokenByTimer(s, env), env);
            && |s1.uart| <= |Receive(s1, received).uart|
            && InterruptLog(s, received, env).accepted ==
               if s1.panicked then [] else Receive(s1, received).uart[|s1.uart|..]
  {
    hide Inv, WokenByTimer, SliceEnded, Pairing;
  }

  /** A step accepts exactly the character that comes with it and finds room. */
  lemma AcceptsExactlyWhen(s: State, e: Event, env: Env)
    requires Inv(s)
    ensures StepLog(s, e, env).accepted ==
            if e.Irq? && e.received.Some? && FindsRoom(s, e, env) then [e.received.value] else []
  {
    hide *;
    if e.Irq? && !s.panicked {
      OtherSteps(s, e, env);
      EnteredBuffer(s, e.user);
      InterruptAccepts(Entered(s, e.user), e.received, env);
      StepLogOfIrq(s, e, env);
      RoomIs(s, e, env);
    } else {
      QuietLog(s, e, env);
    }
  }

  lemma EnteredBuffer(s: State, user: Registers)
    requires Inv(s)
    ensures Entered(s, user).uart == s.uart
  {
  }

  lemma StepLogOfIrq(s: State, e: Event, env: Env)
    requires Inv(s) && !s.panicked && e.Irq?
    ensures StepLog(s, e, env) == InterruptLog(Entered(s, e.user), e.received, env)
  {
    hide Inv, InterruptLog;
  }

  lemma RoomIs(s: State, e: Event, env: Env)
    requires Inv(s)
    ensures FindsRoom(s, e, env) <==> !s.panicked && !Step(s, e, env).panicked && |s.uart| < 128
  {
    hide Inv, Step;
  }

  lemma QuietLog(s: State, e: Event, env: Env)
    requires Inv(s) && (!e.Irq? || s.panicked)
    ensures StepLog(s, e, env).accepted == []
    ensures s.panicked ==> !FindsRoom(s, e, env)
  {
    hide Inv, InterruptLog, Yielded, Step;
  }

  /** Over any run the accepted characters are those that arrive, without exactly the ones that find no room. */
  lemma {:induction false} RunAccepts(s: State, es: seq<Event>, env: Env)
    requires Inv(s)
    ensures |Verdicts(s, es, env)| == |Arrivals(es)|
    ensures RunLog(s, es, env).accepted == Chosen(Arrivals(es), Verdicts(s, es, env))
    decreases |es|
  {
    hide Inv, Step, StepLog, FindsRoom;
    if es != [] {
      var s1 := Step(s, es[0], env);
      AcceptsExactlyWhen(s, es[0], env);
      RunAccepts(s1, es[1..], env);
      if es[0].Irq? && es[0].received.Some? {
        ChosenFirst(es[0].received.value, Arrivals(es[1..]), FindsRoom(s, es[0], env), Verdicts(s1, es[1..], env));
      } else {
        assert Arrivals(es) == Arrivals(es[1..]) && Verdicts(s, es, env) == Verdicts(s1, es[1..], env);
      }
    }
  }

  lemma ChosenFirst<T>(x: T, q: seq<T>, y: bool, yes: seq<bool>)
    ensures Chosen([x] + q, [y] + yes) == (if y then [x] else []) + Chosen(q, yes)
  {
    assert ([x] + q)[1..] == q && ([y] + yes)[1..] == yes;
  }

  /** An interrupt leaves no thread waiting while a character is buffered, unless the kernel halts. */
  lemma NobodyWaitsInVain(s: State, user: Registers, received: Option<Byte>, env: Env)
    requires Inv(s)
    ensures var r := Step(s, Irq(user, received), env);
            r.panicked || r.input == [] || r.uart == []
  {
  }
}
