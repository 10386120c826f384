/**
  Short runs from power-on that show the kernel's less fortunate behaviour to be within reach of any
  program: a thread that dies at its first push, a store into another process's stack, and the ways to
  halt the machine.
 */
module Scenarios {
  import opened Words
  import opened IntrusiveList
  import opened ListGroup
  import opened Mmu
  import opened SysTimer
  import opened Model
  import opened Invariant
  import opened Preservation
  import opened Machine
  import opened Boot
  import opened Stacks
  import AddressSpaces
  import KTiming
  import Steps
  import WakeUp
  import Creation
  import Halting
  import ContextSwitch

  /** One more event. */
  lemma {:induction false} RunMore(s: State, es: seq<Event>, e: Event, env: Env)
    requires Inv(s)
    ensures Run(s, es + [e], env) == Step(Run(s, es, env), e, env)
    decreases |es|
  {
    hide Inv, Step;
    if es == [] {
      assert es + [e] == [e];
    } else {
      assert (es + [e])[1..] == es[1..] + [e];
      RunMore(Step(s, es[0], env), es[1..], e, env);
    }
  }

  // ----- What single calls do -----

  /** A call reaches its implementation with the caller's registers. */
  lemma CallIs(s: State, user: Registers, number: nat, env: Env)
    requires Inv(s) && UserRunning(s) && !s.panicked && CallNumbered(number).Some?
    ensures Inv(s.(cpu := user)) && UserRunning(s.(cpu := user))
    ensures Step(s, Trap(user, number, []), env) == Dispatch(s.(cpu := user), CallNumbered(number).value, [], env)
  {
    hide *;
    TrapStep(s, user, number, [], env);
    EnteredIs(s, user);
  }

  lemma EnteredIs(s: State, user: Registers)
    requires Inv(s)
    ensures Entered(s, user) == s.(cpu := user) && (UserRunning(s) ==> UserRunning(s.(cpu := user)))
  {
  }

  lemma NoArguments(s: State)
    requires Inv(s) && s.finished != [] && s.cpu.general[2] == 0
    ensures Shape(s) && ArgumentsFetchable(s) && Arguments(s, []) == []
  {
    InvShape(s);
    hide Inv;
  }

  lemma RunningProcessIs(s: State)
    requires Inv(s) && UserRunning(s)
    ensures |s.slots| == s.cfg.spaces && s.running[0] < |s.blocks| && s.blocks[s.running[0]].pid == RunningProcess(s)
    ensures RunningProcess(s) < s.cfg.spaces && |s.slots[RunningProcess(s)]| == s.cfg.slots
  {
  }

  lemma SmallSize(n: nat)
    requires n == 0
    ensures n <= STACK_SIZE
  {
  }

  /** Creating a thread without arguments. */
  lemma CreateThreadIs(s: State, user: Registers, slot: nat, env: Env)
    requires Inv(s) && UserRunning(s) && !s.panicked && user.general[2] == 0
    requires FirstEmptySlot(s.slots[RunningProcess(s)], 0) == Some(slot)
    ensures Shape(s.(cpu := user)) && s.finished != [] && RunningProcess(s) < s.cfg.spaces && slot < s.cfg.slots
    ensures Step(s, Trap(user, 4, []), env) ==
            StartThread(s.(cpu := user), RunningProcess(s), slot, user.general[0], [], env)
  {
    hide *;
    var s0 := s.(cpu := user);
    Numbers();
    CallIs(s, user, 4, env);
    DispatchCases(s0, [], env);
    RunningProcessIs(s);
    SmallSize(s0.cpu.general[2]);
    InvShape(s0);
    ThreadCall(s0, slot, [], env);
    NoArguments(s0);
    StartCallIs(s0, RunningProcess(s), slot, [], env);
  }

  /** Creating a process without arguments. */
  lemma CreateProcessIs(s: State, user: Registers, space: nat, env: Env)
    requires Inv(s) && UserRunning(s) && !s.panicked && user.general[2] == 0
    requires FirstEmptySpace(s.spaces, 0) == Some(space)
    ensures Shape(s.(cpu := user)) && s.finished != [] && space < s.cfg.spaces && Inv(CopyImage(s.(cpu := user), space))
    ensures CopyImage(s.(cpu := user), space).finished == s.finished
    ensures Step(s, Trap(user, 3, []), env) ==
            StartThread(CopyImage(s.(cpu := user), space), space, 0, user.general[0], [], env)
  {
    hide *;
    var s0 := s.(cpu := user);
    Numbers();
    CallIs(s, user, 3, env);
    DispatchCases(s0, [], env);
    SmallSize(s0.cpu.general[2]);
    ProcessCall(s0, space, [], env);
    NoArguments(CopyImage(s0, space));
    StartCallIs(CopyImage(s0, space), space, 0, [], env);
  }

  /** Waiting for a character. */
  lemma ReadIs(s: State, user: Registers, env: Env)
    requires Inv(s) && UserRunning(s) && !s.panicked
    ensures Shape(s.(cpu := user)) && s.running != []
    ensures var r := RoundRobin(s.(cpu := user), true, env);
            var a := r.(timer := Restart(r.timer, env.delays));
            && a.ready != [] && a.ready[|a.ready| - 1] == s.running[0]
            && Step(s, Trap(user, 1, []), env) == if r.panicked then r else AwaitInput(a, s.running[0])
  {
    hide *;
    var s0 := s.(cpu := user);
    Numbers();
    CallIs(s, user, 1, env);
    DispatchCases(s0, [], env);
    ReadCallIs(s0, env);
    ContextSwitch.YieldedIs(s0, env);
    RearmedIs(Yielded(s0, env), env);
    InvShape(s0);
  }

  lemma ReadCallIs(s: State, env: Env)
    requires Inv(s) && UserRunning(s)
    ensures s.running != [] && Yielded(s, env).ready != []
    ensures Rearmed(Yielded(s, env), env).ready == Yielded(s, env).ready
    ensures var s1 := Yielded(s, env);
            && s1.ready[|s1.ready| - 1] == s.running[0]
            && ReadCharacterCall(s, env) == if s1.panicked then s1 else AwaitInput(Rearmed(s1, env), s.running[0])
  {
    hide Inv, Yielded;
  }

  /** Giving up the processor: a stall of no time. */
  lemma YieldIs(s: State, user: Registers, env: Env)
    requires Inv(s) && UserRunning(s) && !s.panicked && user.general[0] == 0
    ensures Shape(s.(cpu := user))
    ensures var r := RoundRobin(s.(cpu := user), true, env);
            Step(s, Trap(user, 5, []), env) == if r.panicked then r else r.(timer := Restart(r.timer, env.delays))
  {
    hide *;
    var s0 := s.(cpu := user);
    Numbers();
    CallIs(s, user, 5, env);
    DispatchCases(s0, [], env);
    ContextSwitch.StallBranches(s0, env);
    ContextSwitch.YieldedIs(s0, env);
    RearmedIs(Yielded(s0, env), env);
    InvShape(s0);
  }

  /** A stall of some time. */
  lemma StallIs(s: State, user: Registers, ticks: Word, env: Env)
    requires Inv(s) && UserRunning(s) && !s.panicked && user.general[0] != 0 && ToHertz(user.general[0]) == Some(ticks)
    requires !RoundRobin(s.(cpu := user), true, env).panicked
    ensures Shape(s.(cpu := user)) && s.running != []
    ensures var r := RoundRobin(s.(cpu := user), true, env);
            var a := r.(timer := Restart(r.timer, env.delays));
            && Shape(a) && a.ready != [] && a.ready[|a.ready| - 1] == s.running[0]
            && Step(s, Trap(user, 5, []), env) == AwaitTimer(a, s.running[0], ticks, env)
  {
    hide *;
    var s0 := s.(cpu := user);
    Numbers();
    CallIs(s, user, 5, env);
    DispatchCases(s0, [], env);
    ContextSwitch.StallBranches(s0, env);
    ContextSwitch.YieldedIs(s0, env);
    RearmedIs(Yielded(s0, env), env);
    InvShape(s0);
  }

  lemma Numbers()
    ensures CallNumbered(1) == Some(ReadCharacter)
    ensures CallNumbered(3) == Some(CreateProcessCall) && CallNumbered(4) == Some(CreateThreadCall)
    ensures CallNumbered(5) == Some(StallThread) && CallNumbered(6) == Some(ExitThread)
  {
  }

  lemma RearmedIs(s: State, env: Env)
    requires Inv(s)
    ensures Rearmed(s, env) == s.(timer := Restart(s.timer, env.delays))
  {
  }

  /** Ending the running thread. */
  lemma ExitIs(s: State, user: Registers, env: Env)
    requires Inv(s) && UserRunning(s) && !s.panicked
    ensures Steps.CanCleanUp(s.(cpu := user)) && Shape(CleanupThread(s.(cpu := user)))
    ensures var r := RoundRobin(CleanupThread(s.(cpu := user)), false, env);
            Step(s, Trap(user, 6, []), env) == if r.panicked then r else r.(timer := Restart(r.timer, env.delays))
  {
    hide *;
    var s0 := s.(cpu := user);
    Numbers();
    CallIs(s, user, 6, env);
    DispatchCases(s0, [], env);
    ExitCallIs(s0, env);
  }

  lemma ExitCallIs(s: State, env: Env)
    requires Inv(s) && UserRunning(s)
    ensures Steps.CanCleanUp(s) && Shape(CleanupThread(s))
    ensures var r := RoundRobin(CleanupThread(s), false, env);
            ExitThreadCall(s, env) == if r.panicked then r else r.(timer := Restart(r.timer, env.delays))
  {
    RunningIsSeated(s);
    hide Inv, RoundRobin, CleanupThread;
  }

  /** An interrupt with nobody waiting for the timer or for input: only the end of a time slice matters. */
  lemma IrqIs(s: State, user: Registers, env: Env)
    requires Inv(s) && !s.panicked && s.stall == [] && s.input == [] && s.timer.m1
    ensures Shape(Ticked(s, user, env))
    ensures var r := RoundRobin(Ticked(s, user, env), false, env);
            Step(s, Irq(user, None), env) == if r.panicked then r else r.(timer := Restart(r.timer, env.delays))
  {
    hide *;
    var s0 := s.(cpu := user);
    EnteredIs(s, user);
    OtherSteps(s, Irq(user, None), env);
    InterruptStages(s0, None, env);
    WokenIs(s0, env);
    TickedIs(s, user, env);
    SliceIs(Ticked(s, user, env), env);
    NothingDelivered(SliceEnded(Ticked(s, user, env), env));
  }

  /** The interrupted state once the handler has seen to the wake-up interrupt. */
  function Ticked(s: State, user: Registers, env: Env): State {
    s.(cpu := user, timer := BetweenChecks(s.timer.(m3 := false), env.delays))
  }

  lemma TickedIs(s: State, user: Registers, env: Env)
    ensures Ticked(s, user, env) == s.(cpu := user, timer := BetweenChecks(s.timer.(m3 := false), env.delays))
    ensures s.timer.m1 ==> Ticked(s, user, env).timer.m1
  {
  }

  lemma WokenIs(s: State, env: Env)
    requires Inv(s) && s.stall == []
    ensures WokenByTimer(s, env) == s.(timer := BetweenChecks(s.timer.(m3 := false), env.delays))
  {
  }

  lemma SliceIs(s: State, env: Env)
    requires Inv(s) && s.timer.m1
    ensures Shape(s) && SliceEnded(s, env).input == s.input
    ensures var r := RoundRobin(s, false, env);
            SliceEnded(s, env) == if r.panicked then r else r.(timer := Restart(r.timer, env.delays))
  {
    InvShape(s);
    KeepsInput(s, env);
    hide Inv, RoundRobin;
  }

  lemma KeepsInput(s: State, env: Env)
    requires Shape(s)
    ensures RoundRobin(s, false, env).input == s.input
  {
  }

  lemma NothingDelivered(s: State)
    requires Inv(s) && s.input == []
    ensures Deliver(Receive(s, None)) == s
  {
  }

  // ----- The first switch -----

  /** What is known of the first process before it creates anything. */
  ghost predicate Fresh(s: State, cfg: Config, b: Platform) {
    && Shape(s) && s.cfg == cfg && s.tables == b.tables && !s.panicked
    && s.input == [] && s.stall == []
    && |s.finished| == Users(cfg) - 1 && (forall i :: 0 <= i < |s.finished| ==> s.finished[i] == i + 1)
    && (forall t: nat :: t < Users(cfg) ==> s.blocks[t].pid == 0)
    && (forall p: nat, q: nat :: p < cfg.spaces && q < cfg.slots ==> (s.slots[p][q] <==> p == q == 0))
    && (forall p: nat :: 0 < p < cfg.spaces ==> s.spaces[p] == [])
    && s.spaces[0] == [0]
    && (forall q: nat :: 0 < q < cfg.slots ==> s.handles[0][q] == Fault)
  }

  lemma InitialIsFresh(cfg: Config, b: Platform, env: Env)
    requires ValidPlatform(b)
    ensures var s := Initial(cfg, b, env);
            Fresh(s, cfg, b) && s.running == [] && s.ready == [0] && s.stale == {} && s.timer == b.timer && s.uart == []
  {
  }

  /** A switch to the first thread, whoever ran before: its process's entries are loaded or already there. */
  lemma SwitchKeepsFresh(s: State, forced: bool, env: Env, cfg: Config, b: Platform)
    requires Inv(s) && Fresh(s, cfg, b) && s.running == [] && s.ready == [0]
    ensures var r := RoundRobin(s, forced, env);
            Fresh(r, cfg, b) && r.running == [0] && r.ready == [] && r.stale == {} && r.timer == s.timer
  {
  }

  /** The end of the first time slice: the first process starts to run, with one thread. */
  function Begun(cfg: Config, b: Platform, user: Registers, env: Env): (s: State)
    requires ValidPlatform(b)
    ensures Inv(s)
  {
    Step(Initial(cfg, b, env), Irq(user, None), env)
  }

  lemma FirstProcessRuns(cfg: Config, b: Platform, user: Registers, env: Env)
    requires ValidPlatform(b) && b.timer.m1
    ensures var s := Begun(cfg, b, user, env);
            && Fresh(s, cfg, b) && s.running == [0] && s.ready == [] && s.stale == {}
            && s.timer == Restart(BetweenChecks(b.timer.(m3 := false), env.delays), env.delays)
  {
    hide *;
    var s := Initial(cfg, b, env);
    InitialIsFresh(cfg, b, env);
    FreshFields(s, cfg, b);
    IrqIs(s, user, env);
    TickedFresh(s, user, env, cfg, b);
    SwitchKeepsFresh(Ticked(s, user, env), false, env, cfg, b);
    var r := RoundRobin(Ticked(s, user, env), false, env);
    FreshFields(r, cfg, b);
    FreshTimer(r, Restart(r.timer, env.delays), cfg, b);
    BegunIs(cfg, b, user, env);
  }

  /**
    The first process starts at `user_main` with an empty argument block, returns into the exit call, and sees
    a copy of the data image.
   */
  lemma FirstProcessStarts(cfg: Config, b: Platform, user: Registers, env: Env, o: nat)
    requires ValidPlatform(b) && b.timer.m1 && o < MiB
    ensures var s := Begun(cfg, b, user, env);
            && s.cpu.pc == b.userMain && s.cpu.lr == env.exitThread && s.cpu.sp == s.cpu.general[0] == 90 * MiB
            && (forall i :: 1 <= i < 13 ==> s.cpu.general[i] == 0)
            && |s.l1| == L1_SIZE && |s.mem| == |b.mem| == MEMORY_SIZE
            && Translate(s.l1, s.tables, 6 * MiB + o) == Some(Location(7 * MiB + o, 3))
            && s.mem[7 * MiB + o] == b.mem[6 * MiB + o]
  {
    hide *;
    var s := Initial(cfg, b, env);
    InitialIsFresh(cfg, b, env);
    FreshFields(s, cfg, b);
    IrqIs(s, user, env);
    TickedFresh(s, user, env, cfg, b);
    var r := RoundRobin(Ticked(s, user, env), false, env);
    SwitchKeepsFresh(Ticked(s, user, env), false, env, cfg, b);
    FreshFields(r, cfg, b);
    BegunIs(cfg, b, user, env);
    InitialContext(cfg, b, env);
    InitialImage(cfg, b, env, o);
    TickedIs(s, user, env);
    FirstResumes(s, Ticked(s, user, env), env);
    FirstProcessRuns(cfg, b, user, env);
    FirstWindow(Begun(cfg, b, user, env), cfg, b, o);
  }

  lemma InitialContext(cfg: Config, b: Platform, env: Env)
    requires ValidPlatform(b)
    ensures var s := Initial(cfg, b, env);
            && s.blocks != []
            && (var regs := s.blocks[0].regs;
                regs.pc == b.userMain && regs.lr == env.exitThread && regs.sp == regs.general[0] == 90 * MiB
                && forall i :: 1 <= i < 13 ==> regs.general[i] == 0)
  {
    hide Inv, CopyImage;
    CopyImageBlocks(Unpopulated(cfg, b));
  }

  lemma CopyImageBlocks(s: State)
    requires Shape(s)
    ensures CopyImage(s, 0).blocks == s.blocks && CopyImage(s, 0).finished == s.finished
  {
  }

  lemma InitialImage(cfg: Config, b: Platform, env: Env, o: nat)
    requires ValidPlatform(b) && o < MiB
    ensures var s := Initial(cfg, b, env);
            |s.mem| == |b.mem| == MEMORY_SIZE && s.mem[7 * MiB + o] == b.mem[6 * MiB + o]
  {
    hide *;
    var s := Unpopulated(cfg, b);
    UnpopulatedInv(cfg, b);
    UnpopulatedMemory(cfg, b, env);
    AddressSpaces.CopyImageMemory(s, 0, 7);
    SameOffset(CopyImage(s, 0).mem, s.mem, 7, 6, o);
  }

  lemma UnpopulatedMemory(cfg: Config, b: Platform, env: Env)
    requires ValidPlatform(b)
    ensures var s := Unpopulated(cfg, b);
            && Shape(s) && s.cfg.spaces > 0 && |s.mem| == MEMORY_SIZE && |CopyImage(s, 0).mem| == MEMORY_SIZE
            && s.mem == b.mem && Initial(cfg, b, env).mem == CopyImage(s, 0).mem && AddressSpaces.DataFrame(0) == 7
            && UDATA == 6 && 7 < MEMORY_TOP
  {
    UnpopulatedInv(cfg, b);
    hide Inv, CopyImage;
  }

  lemma SameOffset(mem: seq<Byte>, was: seq<Byte>, f: nat, g: nat, o: nat)
    requires |mem| == |was| == MEMORY_SIZE && f < MEMORY_TOP && g < MEMORY_TOP && o < MiB
    requires AddressSpaces.Frame(mem, f) == AddressSpaces.Frame(was, g)
    ensures f * MiB + o < MEMORY_SIZE && g * MiB + o < MEMORY_SIZE && mem[f * MiB + o] == was[g * MiB + o]
  {
    assert AddressSpaces.Frame(mem, f)[o] == mem[f * MiB + o];
    assert AddressSpaces.Frame(was, g)[o] == was[g * MiB + o];
  }

  lemma FirstResumes(s: State, ticked: State, env: Env)
    requires Shape(s) && Shape(ticked) && ticked == s.(cpu := ticked.cpu, timer := ticked.timer)
    requires s.running == [] && s.ready == [0]
    ensures var r := RoundRobin(ticked, false, env);
            s.blocks != [] && r.cpu == s.blocks[0].regs && r.mem == s.mem && r.running == [0]
  {
  }

  lemma FirstWindow(s: State, cfg: Config, b: Platform, o: nat)
    requires Inv(s) && Fresh(s, cfg, b) && s.running == [0] && o < MiB
    ensures |s.l1| == L1_SIZE && Translate(s.l1, s.tables, 6 * MiB + o) == Some(Location(7 * MiB + o, 3))
  {
    AddressSpaces.FrameOf(6, o);
    AddressSpaces.WindowFollowsRunning(s, 6 * MiB + o);
  }

  lemma BegunIs(cfg: Config, b: Platform, user: Registers, env: Env)
    requires ValidPlatform(b)
    ensures Begun(cfg, b, user, env) == Step(Initial(cfg, b, env), Irq(user, None), env)
  {
  }

  lemma FreshFields(s: State, cfg: Config, b: Platform)
    requires Fresh(s, cfg, b)
    ensures !s.panicked && s.input == [] && s.stall == []
  {
  }

  lemma TickedFresh(s: State, user: Registers, env: Env, cfg: Config, b: Platform)
    requires Inv(s) && Fresh(s, cfg, b)
    ensures var r := Ticked(s, user, env);
            && Inv(r) && Fresh(r, cfg, b) && r.running == s.running && r.ready == s.ready
            && r.timer == BetweenChecks(s.timer.(m3 := false), env.delays)
  {
    DetailsKeepInv(s, Ticked(s, user, env));
  }

  lemma FreshTimer(s: State, tm: Timer, cfg: Config, b: Platform)
    requires Fresh(s, cfg, b)
    ensures Fresh(s.(timer := tm), cfg, b)
  {
  }

  lemma UsersAtLeast(c: Config)
    ensures Users(c) >= c.slots
  {
    assert (c.spaces - 1) * c.slots >= 0;
    assert c.spaces * c.slots == (c.spaces - 1) * c.slots + c.slots;
  }

  lemma FirstSlotIs(used: seq<bool>, i: nat, q: nat)
    requires i <= q < |used| && !used[q] && forall j :: i <= j < q ==> used[j]
    ensures FirstEmptySlot(used, i) == Some(q)
  {
  }

  // ----- A thread without a stack -----

  /** The first process has created thread 1, in slot 1, and nothing has loaded the slot's entry since. */
  ghost predicate Paired(s: State, cfg: Config, b: Platform) {
    && Shape(s) && cfg.slots > 1 && s.cfg == cfg && s.tables == b.tables && !s.panicked
    && s.input == [] && s.stall == []
    && |s.finished| == Users(cfg) - 2 && (forall i :: 0 <= i < |s.finished| ==> s.finished[i] == i + 2)
    && (forall t: nat :: t < Users(cfg) ==> s.blocks[t].pid == 0)
    && 1 < Users(cfg) && s.blocks[1].slot == 1
    && (forall p: nat, q: nat :: p < cfg.spaces && q < cfg.slots ==> (s.slots[p][q] <==> p == 0 && q <= 1))
    && (forall p: nat :: 0 < p < cfg.spaces ==> s.spaces[p] == [])
    && s.spaces[0] == [1, 0]
    && s.handles[0][1] == StackHandle(b.tables, 1) && s.l1[SlotEntry(1)] == Fault
  }

  lemma FirstCreates(s: State, user: Registers, env: Env, cfg: Config, b: Platform)
    requires Inv(s) && Fresh(s, cfg, b) && s.running == [0] && s.ready == [] && s.stale == {}
    requires cfg.slots > 1 && user.general[2] == 0
    ensures var r := Step(s, Trap(user, 4, []), env);
            Paired(r, cfg, b) && r.running == [0] && r.ready == [1] && r.timer == s.timer
  {
    UsersAtLeast(cfg);
    assert ShowsAt(s.l1, s.handles[0], s.stale, s.tables, Users(cfg), 1);
    FirstSlotIs(s.slots[0], 0, 1);
    assert UserRunning(s) && RunningProcess(s) == 0;
    CreateThreadIs(s, user, 1, env);
    FirstStarts(s.(cpu := user), user.general[0], env, cfg, b);
    hide Inv, StartThread, Step;
  }

  lemma FirstStarts(s: State, func: Word, env: Env, cfg: Config, b: Platform)
    requires Inv(s) && Fresh(s, cfg, b) && s.running == [0] && s.ready == [] && cfg.slots > 1 && Users(cfg) > 1
    requires s.l1[SlotEntry(1)] == Fault
    ensures var r := StartThread(s, 0, 1, func, [], env);
            Paired(r, cfg, b) && r.running == [0] && r.ready == [1] && r.timer == s.timer
  {
  }

  lemma FirstYields(s: State, user: Registers, env: Env, cfg: Config, b: Platform)
    requires Inv(s) && Paired(s, cfg, b) && s.running == [0] && s.ready == [1] && user.general[0] == 0
    ensures var r := Step(s, Trap(user, 5, []), env);
            Paired(r, cfg, b) && r.running == [1] && r.ready == [0]
  {
    hide *;
    PairedFields(s, cfg, b);
    PairedCpu(s, user, cfg, b);
    YieldIs(s, user, env);
    FirstSwitched(s.(cpu := user), env, cfg, b);
    var r := RoundRobin(s.(cpu := user), true, env);
    PairedTimer(r, Restart(r.timer, env.delays), cfg, b);
  }

  lemma PairedFields(s: State, cfg: Config, b: Platform)
    requires Paired(s, cfg, b) && (s.running == [0] || s.running == [1])
    ensures UserRunning(s) && !s.panicked && StallSorted(s.blocks, s.stall) && s.stall == [] && 1 < |s.blocks|
  {
  }

  lemma PairedCpu(s: State, user: Registers, cfg: Config, b: Platform)
    requires Paired(s, cfg, b)
    ensures Paired(s.(cpu := user), cfg, b)
  {
  }

  lemma FirstSwitched(s: State, env: Env, cfg: Config, b: Platform)
    requires Paired(s, cfg, b) && s.running == [0] && s.ready == [1]
    ensures var r := RoundRobin(s, true, env);
            Paired(r, cfg, b) && r.running == [1] && r.ready == [0]
  {
  }

  lemma PairedTimer(s: State, tm: Timer, cfg: Config, b: Platform)
    requires Paired(s, cfg, b)
    ensures Paired(s.(timer := tm), cfg, b) && !s.panicked
  {
  }

  /** Thread 1 runs with no stack mapped: its first store there ends it. */
  lemma StoreEndsSecond(s: State, va: Word, byte: Byte, env: Env, cfg: Config, b: Platform)
    requires Inv(s) && Paired(s, cfg, b) && s.running == [1] && va / MiB == SlotEntry(1)
    ensures UserRunning(s) && !SeesOwnStack(s) && Live(s, 1) && !Live(Step(s, Store(va, byte), env), 1)
  {
    hide *;
    SecondHasNoStack(s, va, cfg, b);
    OtherSteps(s, Store(va, byte), env);
    ForbiddenStore(s, va, byte, env);
    ContextSwitch.ExitThreadEnds(s, env, 1);
  }

  lemma SecondHasNoStack(s: State, va: Word, cfg: Config, b: Platform)
    requires Inv(s) && Paired(s, cfg, b) && s.running == [1] && va / MiB == SlotEntry(1)
    ensures UserRunning(s) && !SeesOwnStack(s) && Live(s, 1) && Target(s, va) == None && !s.panicked
  {
    assert UserRunning(s);
    RunningIsSeated(s);
  }

  lemma ForbiddenStore(s: State, va: Word, byte: Byte, env: Env)
    requires Inv(s) && UserRunning(s) && Target(s, va) == None
    ensures UserStore(s, va, byte, env) == ExitThreadCall(s, env)
  {
    hide Inv, Target, ExitThreadCall;
  }

  /** Power-on, the first process, thread 1, a yield. */
  function TwoThreads(u0: Registers, u1: Registers, u2: Registers): seq<Event> {
    [Irq(u0, None), Trap(u1, 4, []), Trap(u2, 5, [])]
  }

  lemma SecondRuns(cfg: Config, b: Platform, u0: Registers, u1: Registers, u2: Registers, env: Env)
    requires ValidPlatform(b) && b.timer.m1 && cfg.slots > 1 && u1.general[2] == 0 && u2.general[0] == 0
    ensures var s := Run(Initial(cfg, b, env), TwoThreads(u0, u1, u2), env);
            Paired(s, cfg, b) && s.running == [1] && s.ready == [0]
  {
    var s := Initial(cfg, b, env);
    FirstProcessRuns(cfg, b, u0, env);
    hide *;
    BegunIs(cfg, b, u0, env);
    FirstCreates(Begun(cfg, b, u0, env), u1, env, cfg, b);
    FirstYields(Step(Begun(cfg, b, u0, env), Trap(u1, 4, []), env), u2, env, cfg, b);
    ThreeSteps(s, Irq(u0, None), Trap(u1, 4, []), Trap(u2, 5, []), env);
    TwoThreadsIs(u0, u1, u2);
  }

  lemma TwoThreadsIs(u0: Registers, u1: Registers, u2: Registers)
    ensures TwoThreads(u0, u1, u2) == [Irq(u0, None), Trap(u1, 4, []), Trap(u2, 5, [])]
  {
  }

  lemma ThreeSteps(s: State, e0: Event, e1: Event, e2: Event, env: Env)
    requires Inv(s)
    ensures Run(s, [e0, e1, e2], env) == Step(Step(Step(s, e0, env), e1, env), e2, env)
  {
    hide Inv, Step;
    RunMore(s, [], e0, env);
    RunMore(s, [e0], e1, env);
    RunMore(s, [e0, e1], e2, env);
    assert [] + [e0] == [e0] && [e0] + [e1] == [e0, e1] && [e0, e1] + [e2] == [e0, e1, e2];
  }

  /**
    From power-on: the first process creates a thread while it is alone and yields. The thread runs with
    its slot unmapped, and its first push ends it.
   */
  lemma FirstThreadDies(cfg: Config, b: Platform, u0: Registers, u1: Registers, u2: Registers,
                        va: Word, byte: Byte, env: Env)
    requires ValidPlatform(b) && b.timer.m1 && cfg.slots > 1 && u1.general[2] == 0 && u2.general[0] == 0
    requires va / MiB == SlotEntry(1)
    ensures var s := Run(Initial(cfg, b, env), TwoThreads(u0, u1, u2), env);
            && s.running == [1] && UserRunning(s) && Live(s, 1) && !SeesOwnStack(s)
            && !Live(Step(s, Store(va, byte), env), 1)
  {
    hide Inv, Step, Run, Initial, TwoThreads, Paired, Live, UserRunning, SeesOwnStack, ValidPlatform;
    SecondRuns(cfg, b, u0, u1, u2, env);
    StoreEndsSecond(Run(Initial(cfg, b, env), TwoThreads(u0, u1, u2), env), va, byte, env, cfg, b);
  }

  // ----- A stack of another process -----

  /** Thread 1 has ended; its stack handle is still in the row of the first process, which runs again. */
  ghost predicate Widowed(s: State, cfg: Config, b: Platform) {
    && Shape(s) && cfg.slots > 1 && s.cfg == cfg && s.tables == b.tables && !s.panicked
    && s.input == [] && s.stall == [] && s.ready == []
    && |s.finished| == Users(cfg) - 1 && 1 < Users(cfg)
    && (forall i :: 0 <= i < |s.finished| ==> s.finished[i] == i + 1)
    && (forall t: nat :: t < Users(cfg) ==> s.blocks[t].pid == 0)
    && (forall p: nat, q: nat :: p < cfg.spaces && q < cfg.slots ==> (s.slots[p][q] <==> p == q == 0))
    && (forall p: nat :: 0 < p < cfg.spaces ==> s.spaces[p] == [])
    && s.spaces[0] == [0] && s.handles[0][1] == StackHandle(b.tables, 1)
    && s.running == [0] && s.stale == {}
  }

  lemma SecondExits(s: State, user: Registers, env: Env, cfg: Config, b: Platform)
    requires Inv(s) && Paired(s, cfg, b) && s.running == [1] && s.ready == [0]
    ensures Widowed(Step(s, Trap(user, 6, []), env), cfg, b)
  {
    hide *;
    PairedFields(s, cfg, b);
    PairedCpu(s, user, cfg, b);
    ExitIs(s, user, env);
    SecondCleaned(s.(cpu := user), env, cfg, b);
    var r := RoundRobin(CleanupThread(s.(cpu := user)), false, env);
    WidowedTimer(r, Restart(r.timer, env.delays), cfg, b);
  }

  lemma SecondCleaned(s: State, env: Env, cfg: Config, b: Platform)
    requires Paired(s, cfg, b) && s.running == [1] && s.ready == [0]
    requires Steps.CanCleanUp(s)
    ensures Widowed(RoundRobin(CleanupThread(s), false, env), cfg, b)
  {
  }

  lemma WidowedTimer(s: State, tm: Timer, cfg: Config, b: Platform)
    requires Widowed(s, cfg, b)
    ensures Widowed(s.(timer := tm), cfg, b) && !s.panicked
  {
  }

  lemma FirstSpaceIs(spaces: seq<seq<nat>>, i: nat, p: nat)
    requires i <= p < |spaces| && spaces[p] == [] && forall j :: i <= j < p ==> spaces[j] != []
    ensures FirstEmptySpace(spaces, i) == Some(p)
  {
  }

  /** The next process gets control block 1 and with it the stack the first process's row still names. */
  lemma WidowCreates(s: State, user: Registers, env: Env, cfg: Config, b: Platform)
    requires Inv(s) && Widowed(s, cfg, b) && cfg.spaces > 1 && user.general[2] == 0
    ensures var r := Step(s, Trap(user, 3, []), env);
            && r.cfg == cfg && r.running == [0] && UserRunning(r) && RunningProcess(r) == 0
            && r.stale == {} && !r.panicked
            && Live(r, 1) && r.blocks[1].pid == 1 && Leftover(r, 0, 1) && Crossed(r, cfg, b) && r.ready == [1]
  {
    FirstSpaceIs(s.spaces, 0, 1);
    UsersBothWays(cfg);
    assert UserRunning(s);
    CreateProcessIs(s, user, 1, env);
    var s1 := CopyImage(s.(cpu := user), 1);
    StartThreadLives(s1, 1, 0, user.general[0], [], env);
    hide Inv;
  }

  lemma UsersBothWays(c: Config)
    requires c.spaces > 1 && c.slots > 1
    ensures Users(c) > 2
  {
    assert c.spaces * c.slots == (c.spaces - 1) * c.slots + c.slots;
    assert (c.spaces - 1) * c.slots >= c.slots;
  }

  /** Two processes with a thread each; the first one's row still names the stack of the second one's thread. */
  ghost predicate Crossed(s: State, cfg: Config, b: Platform) {
    && Shape(s) && cfg.slots > 1 && s.cfg == cfg && s.tables == b.tables && !s.panicked && Users(cfg) > 2
    && s.stall == [] && s.finished != [] && s.finished[0] == 2 && Live(s, 1)
    && s.blocks[0].pid == 0 && s.blocks[1].pid == 1
    && s.slots[0][0] && !s.slots[0][1] && s.handles[0][1] == StackHandle(b.tables, 1)
  }

  /** Power-on, the first process, thread 1, a yield, the end of thread 1, a second process. */
  function SecondProcess(u0: Registers, u1: Registers, u2: Registers, u3: Registers, u4: Registers): seq<Event> {
    TwoThreads(u0, u1, u2) + [Trap(u3, 6, [])] + [Trap(u4, 3, [])]
  }

  lemma SecondProcessIs(u0: Registers, u1: Registers, u2: Registers, u3: Registers, u4: Registers)
    ensures SecondProcess(u0, u1, u2, u3, u4) == TwoThreads(u0, u1, u2) + [Trap(u3, 6, [])] + [Trap(u4, 3, [])]
  {
  }

  lemma SecondProcessRuns(cfg: Config, b: Platform, u0: Registers, u1: Registers, u2: Registers,
                          u3: Registers, u4: Registers, env: Env)
    requires ValidPlatform(b) && b.timer.m1 && cfg.slots > 1 && cfg.spaces > 1
    requires u1.general[2] == 0 && u2.general[0] == 0 && u4.general[2] == 0
    ensures var s := Run(Initial(cfg, b, env), SecondProcess(u0, u1, u2, u3, u4), env);
            && s.cfg == cfg && s.running == [0] && s.ready == [1] && UserRunning(s) && RunningProcess(s) == 0
            && s.stale == {} && Live(s, 1) && 1 < |s.blocks| && s.blocks[1].pid == 1 && Shape(s)
            && Leftover(s, 0, 1) && Crossed(s, cfg, b)
  {
    var s0 := Initial(cfg, b, env);
    var es := TwoThreads(u0, u1, u2);
    SecondRuns(cfg, b, u0, u1, u2, env);
    hide *;
    var s1 := Run(s0, es, env);
    SecondExits(s1, u3, env, cfg, b);
    var s2 := Step(s1, Trap(u3, 6, []), env);
    WidowCreates(s2, u4, env, cfg, b);
    RunMore(s0, es, Trap(u3, 6, []), env);
    RunMore(s0, es + [Trap(u3, 6, [])], Trap(u4, 3, []), env);
    SecondProcessIs(u0, u1, u2, u3, u4);
  }

  /**
    From power-on: a thread of the first process ends, and the first process creates a second one. The
    second process's only thread is live, and the first process can store into its stack.
   */
  lemma FirstProcessReachesSecond(cfg: Config, b: Platform, u0: Registers, u1: Registers, u2: Registers,
                                  u3: Registers, u4: Registers, va: Word, env: Env)
    requires ValidPlatform(b) && b.timer.m1 && cfg.slots > 1 && cfg.spaces > 1
    requires u1.general[2] == 0 && u2.general[0] == 0 && u4.general[2] == 0
    requires va / MiB == SlotEntry(1) && va % MiB >= PAGE
    ensures var s := Run(Initial(cfg, b, env), SecondProcess(u0, u1, u2, u3, u4), env);
            && s.running == [0] && UserRunning(s) && RunningProcess(s) == 0
            && Live(s, 1) && s.blocks[1].pid == 1 && ReachesOther(s, va)
  {
    SecondProcessRuns(cfg, b, u0, u1, u2, u3, u4, env);
    hide *;
    var s := Run(Initial(cfg, b, env), SecondProcess(u0, u1, u2, u3, u4), env);
    RowNamesOther(s, 1);
    StoreReachesOtherExactlyWhen(s, va);
  }

  // ----- A thread on a stack of another process -----

  lemma CrossedCpu(s: State, user: Registers, cfg: Config, b: Platform)
    requires Crossed(s, cfg, b) && (s.running == [0] || s.running == [1])
    ensures Crossed(s.(cpu := user), cfg, b) && UserRunning(s) && !s.panicked
  {
  }

  lemma CrossedTimer(s: State, tm: Timer, cfg: Config, b: Platform)
    requires Crossed(s, cfg, b)
    ensures Crossed(s.(timer := tm), cfg, b) && !s.panicked
  {
  }

  /** A switch between the two threads loads the entries. */
  lemma CrossedSwitch(s: State, env: Env, cfg: Config, b: Platform, t: nat)
    requires Crossed(s, cfg, b) && t <= 1 && s.running == [t] && s.ready == [1 - t]
    ensures var r := RoundRobin(s, true, env);
            Crossed(r, cfg, b) && r.running == [1 - t] && r.ready == [t] && r.stale == {} && r.input == s.input
  {
  }

  lemma CrossedYields(s: State, user: Registers, env: Env, cfg: Config, b: Platform)
    requires Inv(s) && Crossed(s, cfg, b) && s.running == [0] && s.ready == [1] && user.general[0] == 0
    ensures var r := Step(s, Trap(user, 5, []), env);
            Crossed(r, cfg, b) && r.running == [1] && r.ready == [0]
  {
    hide *;
    CrossedCpu(s, user, cfg, b);
    YieldIs(s, user, env);
    CrossedSwitch(s.(cpu := user), env, cfg, b, 0);
    var r := RoundRobin(s.(cpu := user), true, env);
    CrossedTimer(r, Restart(r.timer, env.delays), cfg, b);
  }

  /** The second process waits for a character, so that the first one runs alone. */
  lemma CrossedReads(s: State, user: Registers, env: Env, cfg: Config, b: Platform)
    requires Inv(s) && Crossed(s, cfg, b) && s.running == [1] && s.ready == [0]
    ensures var r := Step(s, Trap(user, 1, []), env);
            Crossed(r, cfg, b) && r.running == [0] && r.ready == [] && r.stale == {}
  {
    hide *;
    CrossedCpu(s, user, cfg, b);
    ReadIs(s, user, env);
    CrossedSwitch(s.(cpu := user), env, cfg, b, 1);
    var r := RoundRobin(s.(cpu := user), true, env);
    CrossedTimer(r, Restart(r.timer, env.delays), cfg, b);
    CrossedWaits(r.(timer := Restart(r.timer, env.delays)), cfg, b);
  }

  lemma CrossedWaits(s: State, cfg: Config, b: Platform)
    requires Crossed(s, cfg, b) && s.running == [0] && s.ready == [1] && s.stale == {}
    ensures var r := AwaitInput(s, 1); Crossed(r, cfg, b) && r.running == [0] && r.ready == [] && r.stale == {}
  {
  }

  /** Thread 2 gets slot 1. The slot is in use and its row is right, but its entry maps the stack of thread 1. */
  ghost predicate Misplaced(s: State)
    requires Inv(s)
  {
    && Shape(s) && !s.panicked && UserRunning(s) && RunningProcess(s) == 0 && 1 < s.cfg.slots && Used(s, 0, 1)
    && s.blocks[2].pid == 0 && s.blocks[2].slot == 1 && s.stall == []
    && OtherBehind(s, SlotEntry(1)) && AddressSpaces.StackBehind(s, SlotEntry(1)) == Some(1)
  }

  lemma CrossedCreates(s: State, user: Registers, env: Env, cfg: Config, b: Platform)
    requires Inv(s) && Crossed(s, cfg, b) && s.running == [0] && s.ready == [] && s.stale == {} && user.general[2] == 0
    ensures var r := Step(s, Trap(user, 4, []), env);
            Misplaced(r) && r.running == [0] && r.ready == [2] && !Leftover(r, 0, 1)
  {
    hide *;
    CrossedRow(s, user, cfg, b);
    SmallSize(0);
    CreateThreadIs(s, user, 1, env);
    var s0 := s.(cpu := user);
    HandedOut(s0, 1, user.general[0], [], env);
    RowNamesOther(s0, 1);
    SlotShowsRow(s0, 1, 1);
    CrossedStarts(s0, user.general[0], env, cfg, b);
    UsedSlotHasNoLeftover(StartThread(s0, 0, 1, user.general[0], [], env), 0, 1);
    MisplacedIs(StartThread(s0, 0, 1, user.general[0], [], env));
  }

  lemma CrossedRow(s: State, user: Registers, cfg: Config, b: Platform)
    requires Inv(s) && Crossed(s, cfg, b) && s.running == [0] && s.stale == {}
    ensures UserRunning(s) && RunningProcess(s) == 0 && !s.panicked
    ensures Shape(s) && FirstEmptySlot(s.slots[0], 0) == Some(1)
    ensures var r := s.(cpu := user);
            && Inv(r) && UserRunning(r) && RunningProcess(r) == 0 && r.stale == {} && r.finished != []
            && 1 < r.cfg.slots && 1 < USER_STACK_COUNT && !Used(r, 0, 1)
            && Leftover(r, 0, 1) && r.handles[0][1] == StackHandle(r.tables, 1) && Crossed(r, cfg, b)
  {
    FirstSlotIs(s.slots[0], 0, 1);
    DetailsKeepInv(s, s.(cpu := user));
    assert UserRunning(s);
    assert Live(s.(cpu := user), 1);
  }

  lemma CrossedStarts(s: State, func: Word, env: Env, cfg: Config, b: Platform)
    requires Crossed(s, cfg, b) && s.running == [0] && s.ready == []
    ensures 0 < s.cfg.spaces
    ensures var r := StartThread(s, 0, 1, func, [], env);
            && Shape(r) && !r.panicked && r.running == [0] && r.ready == [2] && r.stall == [] && r.cfg == s.cfg
            && r.blocks[2].pid == 0 && r.blocks[2].slot == 1
  {
  }

  lemma MisplacedIs(s: State)
    requires Inv(s) && Shape(s) && !s.panicked && UserRunning(s) && RunningProcess(s) == 0 && 1 < s.cfg.slots
    requires Used(s, 0, 1) && 2 < |s.blocks| && s.blocks[2].pid == 0 && s.blocks[2].slot == 1 && s.stall == []
    requires OtherBehind(s, SlotEntry(1)) && AddressSpaces.StackBehind(s, SlotEntry(1)) == Some(1)
    ensures Misplaced(s)
  {
  }

  /** Thread 2 runs, and its stack is the one of thread 1, which is live in the other process. */
  lemma MisplacedYields(s: State, user: Registers, env: Env)
    requires Inv(s) && Misplaced(s) && s.running == [0] && s.ready == [2] && user.general[0] == 0
    ensures var r := Step(s, Trap(user, 5, []), env); Misplaced(r) && r.running == [2]
  {
    hide *;
    MisplacedRuns(s, user);
    YieldIs(s, user, env);
    MisplacedSwitch(s, user, env);
    var r := Step(s, Trap(user, 5, []), env);
    MisplacedMap(s, r);
  }

  lemma MisplacedRuns(s: State, user: Registers)
    requires Inv(s) && Misplaced(s)
    ensures UserRunning(s) && !s.panicked && Shape(s.(cpu := user))
  {
  }

  lemma MisplacedSwitch(s: State, user: Registers, env: Env)
    requires Inv(s) && Misplaced(s) && s.running == [0] && s.ready == [2] && Shape(s.(cpu := user))
    ensures var r := RoundRobin(s.(cpu := user), true, env);
            var a := r.(timer := Restart(r.timer, env.delays));
            && !r.panicked && a.running == [2] && !a.panicked && a.slots == s.slots && a.stall == s.stall
            && SameMap(s, a) && |a.blocks| == |s.blocks|
            && (forall t: nat :: t < |s.blocks| ==> a.blocks[t].slot == s.blocks[t].slot)
  {
    assert s.blocks[0].pid == 0;
  }

  lemma MisplacedMap(s: State, r: State)
    requires Inv(s) && Inv(r) && Misplaced(s) && SameMap(s, r) && r.running == [2] && r.slots == s.slots && !r.panicked
    requires r.stall == s.stall
    requires forall t: nat :: t < |s.blocks| ==> t < |r.blocks| && r.blocks[t].slot == s.blocks[t].slot
    requires s.running == [0] && s.ready == [2]
    ensures Misplaced(r)
  {
    ListedIsLive(s, 2);
    SameBehind(s, r, SlotEntry(1));
  }

  /** Power-on, two processes as before, a yield, a read, a second thread in slot 1. */
  function UsedAgain(u0: Registers, u1: Registers, u2: Registers, u3: Registers, u4: Registers,
                     u5: Registers, u6: Registers, u7: Registers): seq<Event>
  {
    SecondProcess(u0, u1, u2, u3, u4) + [Trap(u5, 5, [])] + [Trap(u6, 1, [])] + [Trap(u7, 4, [])]
  }

  lemma UsedAgainIs(u0: Registers, u1: Registers, u2: Registers, u3: Registers, u4: Registers,
                    u5: Registers, u6: Registers, u7: Registers)
    ensures UsedAgain(u0, u1, u2, u3, u4, u5, u6, u7) ==
            SecondProcess(u0, u1, u2, u3, u4) + [Trap(u5, 5, [])] + [Trap(u6, 1, [])] + [Trap(u7, 4, [])]
  {
  }

  /**
    From power-on: while the second process waits for a character, the first one creates a thread in the slot
    whose entry still maps the stack of the second one's thread. The slot is in use and its row is right, but
    a store through it reaches that stack. After a yield the new thread runs on it.
   */
  lemma ThreadRunsOnOthersStack(cfg: Config, b: Platform, u0: Registers, u1: Registers, u2: Registers, u3: Registers,
                                u4: Registers, u5: Registers, u6: Registers, u7: Registers, u8: Registers,
                                va: Word, env: Env)
    requires ValidPlatform(b) && b.timer.m1 && cfg.slots > 1 && cfg.spaces > 1
    requires u1.general[2] == 0 && u2.general[0] == 0 && u4.general[2] == 0
    requires u5.general[0] == 0 && u7.general[2] == 0 && u8.general[0] == 0
    requires va / MiB == SlotEntry(1) && va % MiB >= PAGE
    ensures var es := UsedAgain(u0, u1, u2, u3, u4, u5, u6, u7);
            var s := Run(Initial(cfg, b, env), es, env);
            var r := Run(Initial(cfg, b, env), es + [Trap(u8, 5, [])], env);
            && Misplaced(s) && s.running == [0] && !Leftover(s, 0, 1) && ReachesOther(s, va)
            && Misplaced(r) && r.running == [2] && ReachesOther(r, va)
  {
    var s0 := Initial(cfg, b, env);
    var es := SecondProcess(u0, u1, u2, u3, u4);
    SecondProcessRuns(cfg, b, u0, u1, u2, u3, u4, env);
    hide *;
    var s1 := Run(s0, es, env);
    CrossedYields(s1, u5, env, cfg, b);
    var s2 := Step(s1, Trap(u5, 5, []), env);
    CrossedReads(s2, u6, env, cfg, b);
    var s3 := Step(s2, Trap(u6, 1, []), env);
    CrossedCreates(s3, u7, env, cfg, b);
    var s4 := Step(s3, Trap(u7, 4, []), env);
    MisplacedYields(s4, u8, env);
    var s5 := Step(s4, Trap(u8, 5, []), env);
    RunMore(s0, es, Trap(u5, 5, []), env);
    RunMore(s0, es + [Trap(u5, 5, [])], Trap(u6, 1, []), env);
    RunMore(s0, es + [Trap(u5, 5, [])] + [Trap(u6, 1, [])], Trap(u7, 4, []), env);
    UsedAgainIs(u0, u1, u2, u3, u4, u5, u6, u7);
    RunMore(s0, UsedAgain(u0, u1, u2, u3, u4, u5, u6, u7), Trap(u8, 5, []), env);
    MisplacedReaches(s4, va);
    MisplacedReaches(s5, va);
  }

  lemma MisplacedReaches(s: State, va: Word)
    requires Inv(s) && Misplaced(s) && va / MiB == SlotEntry(1) && va % MiB >= PAGE
    ensures UserRunning(s) && ReachesOther(s, va) && Shape(s) && 0 < s.cfg.spaces && 1 < s.cfg.slots
  {
    StoreReachesOtherExactlyWhen(s, va);
    hide OtherBehind, ReachesOther;
  }

  // ----- A stall list out of order -----

  /** Three threads of the first process, the first one running, none waiting, with the counter far from its end. */
  ghost predicate Three(s: State) {
    && Shape(s) && Users(s.cfg) > 2 && !s.panicked && s.running == [0] && s.ready == [1, 2] && s.stall == []
    && s.timer.clo <= 2000000000
  }

  /** Thread 0 waits for 2 seconds, thread 1 runs, thread 2 is ready. */
  ghost predicate OneStalls(s: State) {
    && Shape(s) && Users(s.cfg) > 2 && !s.panicked && s.running == [1] && s.ready == [2] && s.stall == [0]
    && s.timer.clo + 1998000 <= s.blocks[0].stallUntil <= 2100000000
  }

  /** Thread 1 waits for 1 second, behind thread 0; thread 2 runs. */
  ghost predicate TwoStall(s: State) {
    && Shape(s) && Users(s.cfg) > 2 && !s.panicked && s.running == [2] && s.stall == [0, 1]
    && s.blocks[1].stallUntil < s.blocks[0].stallUntil
  }

  /** No single delay is longer than a millisecond. */
  ghost predicate Quick(env: Env) {
    forall i ::
      env.delays.beforeRead(i) <= 1000 && env.delays.beforeWrite(i) <= 1000 && env.delays.betweenChecks(i) <= 1000
  }

  lemma SecondCreated(s: State, user: Registers, env: Env, cfg: Config, b: Platform)
    requires Inv(s) && Paired(s, cfg, b) && s.running == [0] && s.ready == [1] && s.timer.clo <= 2000000000
    requires cfg.slots > 2 && user.general[2] == 0
    ensures Three(Step(s, Trap(user, 4, []), env))
  {
    UsersAtLeast(cfg);
    FirstSlotIs(s.slots[0], 0, 2);
    assert UserRunning(s) && RunningProcess(s) == 0;
    CreateThreadIs(s, user, 2, env);
    hide Inv, Step;
  }

  lemma TwoSeconds()
    ensures ToHertz(2000) == Some(2000000) && ToHertz(1000) == Some(1000000)
  {
    KTiming.ShortStallsAreExact(2000);
    KTiming.ShortStallsAreExact(1000);
    hide KTiming.Ticks;
  }

  lemma ZeroStalls(s: State, user: Registers, env: Env)
    requires Inv(s) && Three(s) && Quick(env) && user.general[0] == 2000
    ensures OneStalls(Step(s, Trap(user, 5, []), env))
  {
    hide *;
    TwoSeconds();
    ThreeSwitched(s, user, env);
    StallIs(s, user, 2000000, env);
    var r := RoundRobin(s.(cpu := user), true, env);
    ZeroWaits(r.(timer := Restart(r.timer, env.delays)), env);
  }

  lemma ThreeSwitched(s: State, user: Registers, env: Env)
    requires Three(s) && Quick(env)
    ensures UserRunning(s) && !s.panicked && s.running[0] == 0 && Shape(s.(cpu := user))
    ensures var r := RoundRobin(s.(cpu := user), true, env);
            var a := r.(timer := Restart(r.timer, env.delays));
            && !r.panicked && Shape(a) && Users(a.cfg) > 2 && !a.panicked && a.running == [1] && a.ready == [2, 0]
            && a.stall == [] && a.timer.clo <= 2000002000
  {
  }

  lemma ZeroWaits(a: State, env: Env)
    requires Shape(a) && Users(a.cfg) > 2 && !a.panicked && a.running == [1] && a.ready == [2, 0]
    requires a.stall == [] && a.timer.clo <= 2000002000 && Quick(env)
    ensures OneStalls(AwaitTimer(a, 0, 2000000, env))
  {
  }

  lemma OneAlsoStalls(s: State, user: Registers, env: Env)
    requires Inv(s) && OneStalls(s) && Quick(env) && user.general[0] == 1000
    ensures TwoStall(Step(s, Trap(user, 5, []), env))
  {
    hide *;
    TwoSeconds();
    OneSwitched(s, user, env);
    StallIs(s, user, 1000000, env);
    var r := RoundRobin(s.(cpu := user), true, env);
    OneWaits(r.(timer := Restart(r.timer, env.delays)), env);
  }

  lemma OneSwitched(s: State, user: Registers, env: Env)
    requires OneStalls(s) && Quick(env)
    ensures UserRunning(s) && !s.panicked && s.running[0] == 1 && Shape(s.(cpu := user))
    ensures var r := RoundRobin(s.(cpu := user), true, env);
            var a := r.(timer := Restart(r.timer, env.delays));
            && !r.panicked && Shape(a) && Users(a.cfg) > 2 && !a.panicked && a.running == [2] && a.ready == [1]
            && a.stall == [0] && a.timer.clo + 1996000 <= a.blocks[0].stallUntil <= 2100000000
  {
  }

  lemma OneWaits(a: State, env: Env)
    requires Shape(a) && Users(a.cfg) > 2 && !a.panicked && a.running == [2] && a.ready == [1]
    requires a.stall == [0] && a.timer.clo + 1996000 <= a.blocks[0].stallUntil <= 2100000000 && Quick(env)
    ensures TwoStall(AwaitTimer(a, 1, 1000000, env))
  {
    var s1 := EnterStall(a, 1, 1000000, env);
    WakeUp.InsertionPlace(s1.blocks, [0], 1);
  }

  /** The next switch finds the list out of order. */
  lemma TwoExits(s: State, user: Registers, env: Env)
    requires Inv(s) && TwoStall(s)
    ensures !StallSorted(s.blocks, s.stall) && Step(s, Trap(user, 6, []), env).panicked
  {
    assert UserRunning(s);
    assert !StallSorted(s.blocks, s.stall) by {
      assert StallKey(s.blocks, s.stall[0]) > StallKey(s.blocks, s.stall[0 + 1]);
    }
    ExitIs(s, user, env);
    CleanedUnsorted(s.(cpu := user), env);
    hide Inv, RoundRobin, CleanupThread, Step;
  }

  lemma CleanedUnsorted(s: State, env: Env)
    requires Steps.CanCleanUp(s) && |s.running| == 1 && !StallSorted(s.blocks, s.stall)
    ensures RoundRobin(CleanupThread(s), false, env).panicked
  {
  }

  /** Power-on, the first process, threads 1 and 2. */
  function ThreeThreads(u0: Registers, u1: Registers, u2: Registers): seq<Event> {
    [Irq(u0, None), Trap(u1, 4, []), Trap(u2, 4, [])]
  }

  lemma ThreeRun(cfg: Config, b: Platform, u0: Registers, u1: Registers, u2: Registers, env: Env)
    requires ValidPlatform(b) && b.timer.m1 && b.timer.clo <= 1000000000 && Quick(env)
    requires cfg.slots > 2 && u1.general[2] == 0 && u2.general[2] == 0
    ensures Three(Run(Initial(cfg, b, env), ThreeThreads(u0, u1, u2), env))
  {
    var s := Initial(cfg, b, env);
    FirstProcessRuns(cfg, b, u0, env);
    QuickRestart(b.timer, env);
    hide *;
    BegunIs(cfg, b, u0, env);
    FirstCreates(Begun(cfg, b, u0, env), u1, env, cfg, b);
    SecondCreated(Step(Begun(cfg, b, u0, env), Trap(u1, 4, []), env), u2, env, cfg, b);
    ThreeSteps(s, Irq(u0, None), Trap(u1, 4, []), Trap(u2, 4, []), env);
    ThreeThreadsIs(u0, u1, u2);
  }

  lemma ThreeThreadsIs(u0: Registers, u1: Registers, u2: Registers)
    ensures ThreeThreads(u0, u1, u2) == [Irq(u0, None), Trap(u1, 4, []), Trap(u2, 4, [])]
  {
  }

  lemma QuickRestart(tm: Timer, env: Env)
    requires Quick(env) && tm.clo <= 1000000000
    ensures Restart(BetweenChecks(tm.(m3 := false), env.delays), env.delays).clo <= 2000000000
  {
  }

  /**
    From power-on, on a machine not too slow: one thread stalls for 2 seconds, the next for 1, the third exits.
    No call is refused, and the machine halts.
   */
  lemma ShorterStallSecondHalts(cfg: Config, b: Platform, u0: Registers, u1: Registers, u2: Registers,
                                u3: Registers, u4: Registers, u5: Registers, env: Env)
    requires ValidPlatform(b) && b.timer.m1 && b.timer.clo <= 1000000000 && Quick(env)
    requires cfg.slots > 2 && u1.general[2] == 0 && u2.general[2] == 0
    requires u3.general[0] == 2000 && u4.general[0] == 1000
    ensures var s := Initial(cfg, b, env);
            var es := ThreeThreads(u0, u1, u2) + [Trap(u3, 5, [])] + [Trap(u4, 5, [])];
            && !Run(s, es, env).panicked && Run(s, es + [Trap(u5, 6, [])], env).panicked
            && !Halting.AllPunctual(s, es + [Trap(u5, 6, [])], env)
  {
    var s := Initial(cfg, b, env);
    var es := ThreeThreads(u0, u1, u2);
    ThreeRun(cfg, b, u0, u1, u2, env);
    InitialIsOrderly(cfg, b, env);
    hide *;
    var s1 := Run(s, es, env);
    ZeroStalls(s1, u3, env);
    var s2 := Step(s1, Trap(u3, 5, []), env);
    OneAlsoStalls(s2, u4, env);
    var s3 := Step(s2, Trap(u4, 5, []), env);
    TwoExits(s3, u5, env);
    TwoGoesOn(s3);
    RunMore(s, es, Trap(u3, 5, []), env);
    RunMore(s, es + [Trap(u3, 5, [])], Trap(u4, 5, []), env);
    var all := es + [Trap(u3, 5, [])] + [Trap(u4, 5, [])] + [Trap(u5, 6, [])];
    RunMore(s, es + [Trap(u3, 5, [])] + [Trap(u4, 5, [])], Trap(u5, 6, []), env);
    if Halting.AllPunctual(s, all, env) {
      Halting.PunctualRunsDoNotHalt(s, all, env);
      OrderlyGoesOn(Run(s, all, env));
    }
  }

  lemma TwoGoesOn(s: State)
    requires TwoStall(s)
    ensures !s.panicked
  {
  }

  lemma OrderlyGoesOn(s: State)
    ensures Halting.Orderly(s) ==> !s.panicked
  {
  }

  lemma InitialIsOrderly(cfg: Config, b: Platform, env: Env)
    requires ValidPlatform(b)
    ensures Halting.Orderly(Initial(cfg, b, env))
  {
    InitialIsFresh(cfg, b, env);
    hide Inv, Initial;
  }

  // ----- Two more -----

  /** From power-on: creating a thread with arguments at the null pointer halts the machine. */
  lemma NullPointerHalts(cfg: Config, b: Platform, u0: Registers, u1: Registers, bytes: seq<Byte>, env: Env)
    requires ValidPlatform(b) && b.timer.m1 && cfg.slots > 1
    requires u1.general[1] == 0 && 0 < u1.general[2] <= STACK_SIZE
    ensures Run(Initial(cfg, b, env), [Irq(u0, None)] + [Trap(u1, 4, bytes)], env).panicked
  {
    var s := Initial(cfg, b, env);
    FirstProcessRuns(cfg, b, u0, env);
    hide *;
    BegunIs(cfg, b, u0, env);
    RunMore(s, [], Irq(u0, None), env);
    RunMore(s, [Irq(u0, None)], Trap(u1, 4, bytes), env);
    assert [] + [Irq(u0, None)] == [Irq(u0, None)];
    EmptyRun(s, env);
    FreshHasRoom(Begun(cfg, b, u0, env), cfg, b);
    Halting.NullArgumentsHalt(Begun(cfg, b, u0, env), u1, bytes, env);
  }

  lemma EmptyRun(s: State, env: Env)
    requires Inv(s)
    ensures Run(s, [], env) == s
  {
    hide Inv;
  }

  lemma FreshHasRoom(s: State, cfg: Config, b: Platform)
    requires Inv(s) && Fresh(s, cfg, b) && s.running == [0] && cfg.slots > 1
    ensures UserRunning(s) && s.blocks[s.running[0]].pid == 0 && Creation.HasFreeSlot(s, 0)
  {
    assert !Used(s, 0, 1);
  }

  /**
    From power-on: a stall of 1100032 ms fails, and thread 1, which has never run, starts with the error
    code in its r0 while the caller only waits for its next turn.
   */
  lemma ErrorGoesToNextThread(cfg: Config, b: Platform, u0: Registers, u1: Registers, u2: Registers, env: Env)
    requires ValidPlatform(b) && b.timer.m1 && cfg.slots > 1 && u1.general[2] == 0 && u2.general[0] == 1100032
    ensures var r := Run(Initial(cfg, b, env), TwoThreads(u0, u1, u2), env);
            && r.running == [1] && r.cpu.general[0] == EINVAL
            && r.ready == [0] && r.blocks != [] && r.blocks[0].regs == u2 && r.stall == []
  {
    var s := Initial(cfg, b, env);
    FirstProcessRuns(cfg, b, u0, env);
    hide *;
    BegunIs(cfg, b, u0, env);
    FirstCreates(Begun(cfg, b, u0, env), u1, env, cfg, b);
    var s1 := Step(Begun(cfg, b, u0, env), Trap(u1, 4, []), env);
    ThreeSteps(s, Irq(u0, None), Trap(u1, 4, []), Trap(u2, 5, []), env);
    TwoThreadsIs(u0, u1, u2);
    PairedFields(s1, cfg, b);
    ContextSwitch.EighteenMinutes(s1, u2, [], env);
    ContextSwitch.FailedStallAnswersAnother(s1, Trap(u2, 5, []), env);
    ErrorCode(s1.blocks[1].regs);
  }

  lemma ErrorCode(regs: Registers)
    ensures SetR0(regs, EINVAL).general[0] == EINVAL
  {
  }
}
