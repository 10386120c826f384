/**
  The kernel as seen by user code: system calls, exceptions and interrupts
  (kernel/syscall_impl.c, kernel/interrupt.c), and runs of them from power-on.
 */
module Machine {
  import opened Words
  import opened IntrusiveList
  import opened Mmu
  import opened SysTimer
  import opened Model
  import opened Invariant
  import opened Preservation

  predicate UserRunning(s: State) {
    s.running != [] && s.running[0] < Users(s.cfg)
  }

  function Panic(s: State): (r: State)
    requires Inv(s)
    ensures Inv(r)
  {
    DetailsKeepInv(s, s.(panicked := true));
    s.(panicked := true)
  }

  /** The kernel takes over from code that has `user` in its registers. */
  function Entered(s: State, user: Registers): (r: State)
    requires Inv(s)
    ensures Inv(r)
  {
    DetailsKeepInv(s, s.(cpu := user));
    s.(cpu := user)
  }

  function Answered(s: State, v: Word): (r: State)
    requires Inv(s)
    ensures Inv(r)
  {
    Entered(s, SetR0(s.cpu, v))
  }

  /** `systimer_reset` */
  function Rearmed(s: State, env: Env): (r: State)
    requires Inv(s)
    ensures Inv(r)
  {
    Clocked(s, Restart(s.timer, env.delays))
  }

  function Clocked(s: State, tm: Timer): (r: State)
    requires Inv(s)
    ensures Inv(r)
  {
    DetailsKeepInv(s, s.(timer := tm));
    s.(timer := tm)
  }

  // ----- kernel/syscall_impl.c:26-124 -----

  /** A forced round robin on behalf of the running user thread. */
  function Yielded(s: State, env: Env): (r: State)
    requires Inv(s) && UserRunning(s)
    ensures Inv(r) && r.ready != [] && r.ready[|r.ready| - 1] == s.running[0]
  {
    RoundRobinKeepsInv(s, true, env);
    RoundRobin(s, true, env)
  }

  function ReadCharacterCall(s: State, env: Env): (r: State)
    requires Inv(s) && UserRunning(s)
    ensures Inv(r)
  {
    var s1 := Yielded(s, env);
    if s1.panicked then s1 else
    AwaitInputKeepsInv(Rearmed(s1, env), s.running[0]);
    AwaitInput(Rearmed(s1, env), s.running[0])
  }

  /** The argument bytes as the copy to the new thread's stack reads them through the caller's r1. */
  function Arguments(s: State, bytes: seq<Byte>): (args: seq<Byte>)
    requires |s.l1| == L1_SIZE && s.finished != [] && s.cpu.general[2] <= STACK_SIZE
    ensures |args| == s.cpu.general[2]
  {
    var size := s.cpu.general[2];
    Fetched(s, s.cpu.general[1], (USER_STACKS + s.finished[0] + 1) * MiB - Align8(size), size, bytes)
  }

  /** The copy's checks: `VERIFY(src != NULL)`, and no data abort in kernel code. */
  predicate ArgumentsFetchable(s: State)
    requires |s.l1| == L1_SIZE && s.cpu.general[2] <= STACK_SIZE
  {
    Fetchable(s, s.cpu.general[1], s.cpu.general[2])
  }

  /**
    Starting a thread for the running one. A copy of its arguments that fails is the end: the null
    pointer fails a VERIFY, an unreadable byte is a data abort that did not come from user mode.
   */
  function StartCall(s: State, pid: nat, slot: nat, bytes: seq<Byte>, env: Env): (r: State)
    requires Inv(s) && s.finished != [] && pid < s.cfg.spaces && slot < s.cfg.slots && !s.slots[pid][slot]
    requires s.cpu.general[2] <= STACK_SIZE
    ensures Inv(r)
  {
    if !ArgumentsFetchable(s) then Panic(s) else
    StartThreadKeepsInv(s, pid, slot, s.cpu.general[0], Arguments(s, bytes), env);
    StartThread(s, pid, slot, s.cpu.general[0], Arguments(s, bytes), env)
  }

  lemma StartCallIs(s: State, pid: nat, slot: nat, bytes: seq<Byte>, env: Env)
    requires Inv(s) && s.finished != [] && pid < s.cfg.spaces && slot < s.cfg.slots && !s.slots[pid][slot]
    requires s.cpu.general[2] <= STACK_SIZE
    ensures StartCall(s, pid, slot, bytes, env) ==
            if !ArgumentsFetchable(s) then Panic(s)
            else StartThread(s, pid, slot, s.cpu.general[0], Arguments(s, bytes), env)
  {
    hide Inv, StartThread, ArgumentsFetchable, Arguments, Panic;
  }

  function CreateProcessSyscall(s: State, bytes: seq<Byte>, env: Env): (r: State)
    requires Inv(s) && UserRunning(s)
    ensures Inv(r)
  {
    var size := s.cpu.general[2];
    if size > STACK_SIZE then Answered(s, EINVAL) else
    match FirstEmptySpace(s.spaces, 0)
    case None => Answered(s, EBUSY)
    case Some(space) =>
      EmptySpaceMeansFreeThread(s, space);
      CopyImageKeepsInv(s, space);
      StartCall(CopyImage(s, space), space, 0, bytes, env)
  }

  function CreateThreadSyscall(s: State, bytes: seq<Byte>, env: Env): (r: State)
    requires Inv(s) && UserRunning(s)
    ensures Inv(r)
  {
    var size := s.cpu.general[2];
    if size > STACK_SIZE then Answered(s, EINVAL) else
    RunningIsSeated(s);
    var pid := s.blocks[s.running[0]].pid;
    match FirstEmptySlot(s.slots[pid], 0)
    case None => Answered(s, EBUSY)
    case Some(slot) =>
      FreeSlotMeansFreeThread(s, pid, slot);
      StartCall(s, pid, slot, bytes, env)
  }

  /** The failing conversion writes to the registers of the thread just switched in. */
  function StallThreadCall(s: State, env: Env): (r: State)
    requires Inv(s) && UserRunning(s)
    ensures Inv(r)
  {
    var ms := s.cpu.general[0];
    var s1 := Yielded(s, env);
    if s1.panicked then s1 else
    var s2 := Rearmed(s1, env);
    if ms == 0 then s2 else
    match ToHertz(ms)
    case None => Answered(s2, EINVAL)
    case Some(ticks) =>
      AwaitTimerKeepsInv(s2, s.running[0], ticks, env);
      AwaitTimer(s2, s.running[0], ticks, env)
  }

  function ExitThreadCall(s: State, env: Env): (r: State)
    requires Inv(s) && UserRunning(s)
    ensures Inv(r)
  {
    RunningIsSeated(s);
    CleanupKeepsInv(s);
    RoundRobinKeepsInv(CleanupThread(s), false, env);
    var s1 := RoundRobin(CleanupThread(s), false, env);
    if s1.panicked then s1 else Rearmed(s1, env)
  }

  function GetTimeCall(s: State, env: Env): (r: State)
    requires Inv(s)
    ensures Inv(r)
  {
    var tm := Read(s.timer, env.delays);
    Answered(Clocked(s, tm), ToMilliseconds(tm.clo))
  }

  function Dispatch(s: State, call: Call, bytes: seq<Byte>, env: Env): (r: State)
    requires Inv(s) && UserRunning(s)
    ensures Inv(r)
  {
    match call
    case ReadCharacter => ReadCharacterCall(s, env)
    case OutputCharacter => s
    case CreateProcessCall => CreateProcessSyscall(s, bytes, env)
    case CreateThreadCall => CreateThreadSyscall(s, bytes, env)
    case StallThread => StallThreadCall(s, env)
    case ExitThread => ExitThreadCall(s, env)
    case GetTime => GetTimeCall(s, env)
    case GetThreadId => Answered(s, s.running[0])
  }

  /** `Dispatch`, call by call. */
  lemma DispatchCases(s: State, bytes: seq<Byte>, env: Env)
    requires Inv(s) && UserRunning(s)
    ensures s.running != [] && s.running[0] < WORD_SIZE
    ensures Dispatch(s, ReadCharacter, bytes, env) == ReadCharacterCall(s, env)
    ensures Dispatch(s, OutputCharacter, bytes, env) == s
    ensures Dispatch(s, CreateProcessCall, bytes, env) == CreateProcessSyscall(s, bytes, env)
    ensures Dispatch(s, CreateThreadCall, bytes, env) == CreateThreadSyscall(s, bytes, env)
    ensures Dispatch(s, StallThread, bytes, env) == StallThreadCall(s, env)
    ensures Dispatch(s, ExitThread, bytes, env) == ExitThreadCall(s, env)
    ensures Dispatch(s, GetTime, bytes, env) == GetTimeCall(s, env)
    ensures Dispatch(s, GetThreadId, bytes, env) == Answered(s, s.running[0])
  {
    hide Inv, ReadCharacterCall, CreateProcessSyscall, CreateThreadSyscall, StallThreadCall, ExitThreadCall,
            GetTimeCall, Answered;
    ThreadIdFits(s);
  }

  lemma ThreadIdFits(s: State)
    requires Inv(s) && UserRunning(s)
    ensures s.running[0] < WORD_SIZE
  {
  }

  /** The end of a create-thread call that has found a slot. */
  lemma ThreadCall(s: State, slot: nat, bytes: seq<Byte>, env: Env)
    requires Inv(s) && UserRunning(s) && s.cpu.general[2] <= STACK_SIZE
    requires |s.slots| == s.cfg.spaces && s.running[0] < |s.blocks| && s.blocks[s.running[0]].pid < s.cfg.spaces
    requires FirstEmptySlot(s.slots[s.blocks[s.running[0]].pid], 0) == Some(slot)
    ensures var pid := s.blocks[s.running[0]].pid;
            && s.finished != [] && slot < s.cfg.slots && !s.slots[pid][slot]
            && CreateThreadSyscall(s, bytes, env) == StartCall(s, pid, slot, bytes, env)
  {
    FreeSlotMeansFreeThread(s, s.blocks[s.running[0]].pid, slot);
    InvShape(s);
    hide Inv, StartCall;
  }

  /** The end of a create-process call that has found an address space. */
  lemma ProcessCall(s: State, space: nat, bytes: seq<Byte>, env: Env)
    requires Inv(s) && UserRunning(s) && s.cpu.general[2] <= STACK_SIZE
    requires FirstEmptySpace(s.spaces, 0) == Some(space)
    ensures Shape(s) && s.finished != [] && space < s.cfg.spaces
    ensures var s1 := CopyImage(s, space);
            && Inv(s1) && s1.finished == s.finished && s1.cpu == s.cpu && s1.cfg == s.cfg && space < |s1.slots|
            && |s1.slots[space]| == s.cfg.slots && !s1.slots[space][0]
            && CreateProcessSyscall(s, bytes, env) == StartCall(s1, space, 0, bytes, env)
  {
    EmptySpaceMeansFreeThread(s, space);
    CopyImageKeepsInv(s, space);
    InvShape(s);
    hide Inv, StartCall;
  }

  /** The calls that only answer with an error code. */
  lemma CreateRefused(s: State, bytes: seq<Byte>, env: Env)
    requires Inv(s) && UserRunning(s)
    ensures s.running != [] && s.running[0] < |s.blocks| && s.blocks[s.running[0]].pid < s.cfg.spaces == |s.slots|
    ensures s.cpu.general[2] > STACK_SIZE ==>
              CreateThreadSyscall(s, bytes, env) == CreateProcessSyscall(s, bytes, env) == Answered(s, EINVAL)
    ensures s.cpu.general[2] <= STACK_SIZE && FirstEmptySlot(s.slots[s.blocks[s.running[0]].pid], 0) == None ==>
              CreateThreadSyscall(s, bytes, env) == Answered(s, EBUSY)
    ensures s.cpu.general[2] <= STACK_SIZE && FirstEmptySpace(s.spaces, 0) == None ==>
              CreateProcessSyscall(s, bytes, env) == Answered(s, EBUSY)
  {
    RunningIsSeated(s);
    hide Inv, StartCall, Answered, FirstEmptySlot, FirstEmptySpace;
  }

  // ----- What creating leaves alone -----

  /** No list but the ready and the finished list changes, and no thread that was live before. */
  ghost predicate Spared(s: State, r: State) {
    && r.cfg == s.cfg && r.running == s.running && r.input == s.input && r.stall == s.stall
    && r.uart == s.uart && r.timer == s.timer && |r.blocks| == |s.blocks|
    && (r.ready == s.ready || (s.finished != [] && r.ready == s.ready + [s.finished[0]]))
    && forall t: nat :: Live(s, t) && t < |s.blocks| ==> Live(r, t) && r.blocks[t] == s.blocks[t]
  }

  lemma AnsweredSpares(s: State, v: Word)
    requires Inv(s)
    ensures Spared(s, Answered(s, v)) && Spared(s, Panic(s))
  {
  }

  lemma StartThreadSpares(s: State, pid: nat, slot: nat, func: Word, args: seq<Byte>, env: Env)
    requires Inv(s) && s.finished != [] && pid < s.cfg.spaces && slot < s.cfg.slots && |args| <= STACK_SIZE
    ensures Spared(s, StartThread(s, pid, slot, func, args, env))
  {
    StartThreadLives(s, pid, slot, func, args, env);
  }

  lemma StartCallSpares(s: State, pid: nat, slot: nat, bytes: seq<Byte>, env: Env)
    requires Inv(s) && s.finished != [] && pid < s.cfg.spaces && slot < s.cfg.slots && !s.slots[pid][slot]
    requires s.cpu.general[2] <= STACK_SIZE
    ensures Spared(s, StartCall(s, pid, slot, bytes, env))
  {
    StartCallIs(s, pid, slot, bytes, env);
    AnsweredSpares(s, 0);
    StartThreadSpares(s, pid, slot, s.cpu.general[0], Arguments(s, bytes), env);
    hide *;
  }

  lemma CopyImageSpares(s: State, space: nat, r: State)
    requires Shape(s) && space < s.cfg.spaces && Spared(CopyImage(s, space), r)
    ensures Spared(s, r)
  {
    assert forall t: nat :: Live(CopyImage(s, space), t) == Live(s, t);
  }

  lemma CreateThreadSpares(s: State, bytes: seq<Byte>, env: Env)
    requires Inv(s) && UserRunning(s)
    ensures Spared(s, CreateThreadSyscall(s, bytes, env))
  {
    hide *;
    CreateRefused(s, bytes, env);
    AnsweredSpares(s, EINVAL);
    AnsweredSpares(s, EBUSY);
    var pid := s.blocks[s.running[0]].pid;
    var slot := FirstEmptySlot(s.slots[pid], 0);
    if s.cpu.general[2] <= STACK_SIZE && slot.Some? {
      ThreadCall(s, slot.value, bytes, env);
      StartCallSpares(s, pid, slot.value, bytes, env);
    }
  }

  lemma CreateProcessSpares(s: State, bytes: seq<Byte>, env: Env)
    requires Inv(s) && UserRunning(s)
    ensures Spared(s, CreateProcessSyscall(s, bytes, env))
  {
    hide *;
    CreateRefused(s, bytes, env);
    AnsweredSpares(s, EINVAL);
    AnsweredSpares(s, EBUSY);
    var space := FirstEmptySpace(s.spaces, 0);
    if s.cpu.general[2] <= STACK_SIZE && space.Some? {
      ProcessCall(s, space.value, bytes, env);
      StartCallSpares(CopyImage(s, space.value), space.value, 0, bytes, env);
      CopyImageSpares(s, space.value, CreateProcessSyscall(s, bytes, env));
    }
  }

  // ----- kernel/interrupt.c:88-105 -----

  /** `scheduler_unblock_first_input_waiting_thread(pl001_read())` */
  function DeliverOne(s: State): (r: State)
    requires Inv(s) && s.input != [] && s.uart != []
    ensures Inv(r)
  {
    UnblockFirstInputKeepsInv(s, s.uart[0]);
    Buffered(UnblockFirstInput(s, s.uart[0]), s.uart[1..])
  }

  function Buffered(s: State, uart: seq<Byte>): (r: State)
    requires Inv(s)
    ensures Inv(r)
  {
    DetailsKeepInv(s, s.(uart := uart));
    s.(uart := uart)
  }

  /** Hands buffered characters to waiting threads until one of the two runs out. */
  function Deliver(s: State): (r: State)
    requires Inv(s)
    ensures Inv(r) && (r.input == [] || r.uart == [])
    decreases |s.input|
  {
    if s.input != [] && s.uart != [] then Deliver(DeliverOne(s)) else s
  }

  /** `pl001_receive`: a character that does not fit is dropped. */
  function Receive(s: State, received: Option<Byte>): (r: State)
    requires Inv(s)
    ensures Inv(r)
  {
    match received
    case None => s
    case Some(ch) => if |s.uart| < UART_INPUT_BUFFER_SIZE then Buffered(s, s.uart + [ch]) else s
  }

  /** The handler's first part, up to its look at M1. */
  function WokenByTimer(s: State, env: Env): (r: State)
    requires Inv(s)
    ensures Inv(r)
  {
    UnblockOverdueKeepsInv(s, env);
    var s1 := if s.timer.m3 then UnblockOverdue(s, env) else s;
    Clocked(s1, BetweenChecks(s1.timer, env.delays))
  }

  function SliceEnded(s: State, env: Env): (r: State)
    requires Inv(s)
    ensures Inv(r)
  {
    RoundRobinKeepsInv(s, false, env);
    if s.timer.m1 then
      var s1 := RoundRobin(s, false, env);
      if s1.panicked then s1 else Rearmed(s1, env)
    else s
  }

  function Interrupt(s: State, received: Option<Byte>, env: Env): (r: State)
    requires Inv(s)
    ensures Inv(r)
  {
    var s1 := SliceEnded(WokenByTimer(s, env), env);
    if s1.panicked then s1 else Deliver(Receive(s1, received))
  }

  lemma InterruptStages(s: State, received: Option<Byte>, env: Env)
    requires Inv(s)
    ensures var s2 := SliceEnded(WokenByTimer(s, env), env);
            Interrupt(s, received, env) == if s2.panicked then s2 else Deliver(Receive(s2, received))
  {
    hide Inv, SliceEnded, WokenByTimer, Receive, Deliver;
  }

  // ----- Steps and runs -----

  /**
    `user` is whatever the interrupted code has in its registers when the kernel takes over.
    `Store` is one store instruction of the running user thread, `Tick` the passing of time.
   */
  datatype Event =
    | Trap(user: Registers, number: nat, bytes: seq<Byte>)
    | Abort(user: Registers)
    | Irq(user: Registers, received: Option<Byte>)
    | Store(va: Word, byte: Byte)
    | Tick(d: Word)

  /** The physical byte a user store reaches, if the tables let it. */
  function Target(s: State, va: Word): Option<nat>
    requires Shape(s)
  {
    match Translate(s.l1, s.tables, va)
    case None => None
    case Some(loc) => if UserMayWrite(loc.ap) && loc.address < |s.mem| then Some(loc.address) else None
  }

  /** A store the tables forbid is a data abort, which ends the thread. */
  function UserStore(s: State, va: Word, byte: Byte, env: Env): (r: State)
    requires Inv(s) && UserRunning(s)
    ensures Inv(r)
  {
    match Target(s, va)
    case Some(a) => DetailsKeepInv(s, s.(mem := s.mem[a := byte])); s.(mem := s.mem[a := byte])
    case None => ExitThreadCall(s, env)
  }

  /** Every step keeps the invariant, so every state of every run has it. */
  function Step(s: State, e: Event, env: Env): (r: State)
    requires Inv(s)
    ensures Inv(r)
  {
    if s.panicked then s else
    match e
    case Trap(user, number, bytes) =>
      if !UserRunning(s) then Panic(s) else
      (match CallNumbered(number)
       case Some(call) => Dispatch(Entered(s, user), call, bytes, env)
       case None => ExitThreadCall(Entered(s, user), env))
    case Abort(user) => if !UserRunning(s) then Panic(s) else ExitThreadCall(Entered(s, user), env)
    case Irq(user, received) => Interrupt(Entered(s, user), received, env)
    case Store(va, byte) => if UserRunning(s) then UserStore(s, va, byte, env) else s
    case Tick(d) => Clocked(s, Elapse(s.timer, d))
  }

  lemma TrapStep(s: State, user: Registers, number: nat, bytes: seq<Byte>, env: Env)
    requires Inv(s) && !s.panicked
    ensures !UserRunning(s) ==> Step(s, Trap(user, number, bytes), env) == Panic(s)
    ensures UserRunning(s) ==> UserRunning(Entered(s, user))
    ensures UserRunning(s) && CallNumbered(number).None? ==>
            Step(s, Trap(user, number, bytes), env) == ExitThreadCall(Entered(s, user), env)
    ensures UserRunning(s) && CallNumbered(number).Some? ==>
              Step(s, Trap(user, number, bytes), env) ==
              Dispatch(Entered(s, user), CallNumbered(number).value, bytes, env)
  {
    hide Inv, Dispatch, ExitThreadCall, CallNumbered;
  }

  /** What the other events do that involve a user thread. */
  lemma OtherSteps(s: State, e: Event, env: Env)
    requires Inv(s) && !s.panicked
    ensures e.Abort? && !UserRunning(s) ==> Step(s, e, env) == Panic(s)
    ensures e.Abort? && UserRunning(s) ==>
            UserRunning(Entered(s, e.user)) && Step(s, e, env) == ExitThreadCall(Entered(s, e.user), env)
    ensures e.Store? && UserRunning(s) ==> Step(s, e, env) == UserStore(s, e.va, e.byte, env)
    ensures e.Store? && !UserRunning(s) ==> Step(s, e, env) == s
    ensures e.Irq? ==> Step(s, e, env) == Interrupt(Entered(s, e.user), e.received, env)
    ensures e.Tick? ==> Step(s, e, env) == Clocked(s, Elapse(s.timer, e.d))
  {
    hide Inv, ExitThreadCall, UserStore, Interrupt, Dispatch;
  }

  function Run(s: State, es: seq<Event>, env: Env): (r: State)
    requires Inv(s)
    ensures Inv(r)
    decreases |es|
  {
    if es == [] then s else Run(Step(s, es[0], env), es[1..], env)
  }
}
