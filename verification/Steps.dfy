/** The functions of `Model` as sequences of the list and table operations that compute them. */
module Steps {
  import opened Words
  import opened IntrusiveList
  import opened Mmu
  import opened SysTimer
  import opened Model
  import opened Invariant
  import opened Preservation
  import opened Machine

  const RUNNING: nat := 0
  const READY: nat := 1
  const FINISHED: nat := 2
  const INPUT: nat := 3
  const STALL: nat := 4

  function ListOf(s: State, l: nat): seq<nat>
    requires l < 5
  {
    if l == RUNNING then s.running else if l == READY then s.ready
    else if l == FINISHED then s.finished else if l == INPUT then s.input else s.stall
  }

  function WithList(s: State, l: nat, q: seq<nat>): State
    requires l < 5
  {
    if l == RUNNING then s.(running := q) else if l == READY then s.(ready := q)
    else if l == FINISHED then s.(finished := q) else if l == INPUT then s.(input := q) else s.(stall := q)
  }

  predicate At(s: State, l: nat, k: nat, t: nat)
    requires l < 5
  {
    k < |ListOf(s, l)| && ListOf(s, l)[k] == t
  }

  predicate Unlisted(s: State, t: nat) {
    t !in s.running && t !in s.ready && t !in s.finished && t !in s.input && t !in s.stall
  }

  /** Bounds of the tables a switch reads and writes. */
  ghost predicate TablesFit(s: State) {
    && |s.l1| == L1_SIZE && s.l1[UDATA].Section? && |s.handles| == s.cfg.spaces
    && forall p :: 0 <= p < s.cfg.spaces ==> |s.handles[p]| == s.cfg.slots
  }

  /** The stale slots once slot `q` of process `p` has been handed out. */
  ghost function Stale(s: State, p: nat, q: nat): set<nat> {
    if s.running != [] && s.running[0] < |s.blocks| && s.blocks[s.running[0]].pid == p then s.stale + {q} else s.stale
  }

  // ----- Round robin -----

  /** The idle thread, if nobody else is ready. */
  function Readied(s: State): State {
    s.(ready := if s.ready == [] then [Idle(s)] else s.ready)
  }

  predicate Preempts(s: State) {
    s.running != [] && s.running[0] != Idle(s)
  }

  /** The running thread off the processor; a user thread saved and at the end of the ready list. */
  function Preempted(s: State): State
    requires InRange(s.running, |s.blocks|)
  {
    s.(running := [],
       ready := s.ready + (if Preempts(s) then [s.running[0]] else []),
       blocks := if Preempts(s) then s.blocks[s.running[0] := s.blocks[s.running[0]].(regs := s.cpu)] else s.blocks)
  }

  lemma PreemptCases(s: State)
    requires |s.running| <= 1 && InRange(s.running, |s.blocks|)
    ensures s.running == [] ==> Preempted(s) == s && Current(s) == None
    ensures s.running != [] ==>
              && Current(s) == Some(s.running[0]) && s.running[0] < |s.blocks|
              && Preempted(s) == if s.running[0] == Idle(s) then s.(running := RemoveAt(s.running, 0))
                                 else s.(running := RemoveAt(s.running, 0), ready := s.ready + [s.running[0]],
                                         blocks := s.blocks[s.running[0] := s.blocks[s.running[0]].(regs := s.cpu)])
  {
  }

  /** The windows loaded, unless the process stays the same. */
  function Retargeted(s: State, running: Option<nat>, pid: nat, row: seq<L1Entry>): State
    requires |s.l1| == L1_SIZE && s.l1[UDATA].Section? && |row| <= 4
    requires running.Some? ==> running.value < |s.blocks|
  {
    var reload := running == None || s.blocks[running.value].pid != pid;
    s.(l1 := if reload then Loaded(s.l1, pid, row) else s.l1, stale := if reload then {} else s.stale)
  }

  /** The first ready thread on the processor. */
  function Resumed(s: State): State
    requires s.ready != [] && s.ready[0] < |s.blocks|
  {
    s.(ready := s.ready[1..], running := [s.ready[0]], cpu := s.blocks[s.ready[0]].regs,
       panicked := !StallSorted(s.blocks, s.stall))
  }

  function Current(s: State): Option<nat> {
    if s.running == [] then None else Some(s.running[0])
  }

  /** The steps from a ready list that is not empty on. */
  ghost predicate CanSwitch(s: State) {
    && |s.running| <= 1 && |s.blocks| == Idle(s) + 1 && InRange(s.running, |s.blocks|)
    && s.ready != [] && InRange(s.ready, |s.blocks|) && TablesFit(s)
  }

  function Switched(s: State, env: Env): State
    requires CanSwitch(s)
  {
    var s2 := Preempted(s);
    var pid := s2.blocks[s2.ready[0]].pid;
    Resumed(Retargeted(s2, Current(s), pid, HandleRow(s2, pid, env)))
  }

  /** `RoundRobin` as the sequence of its steps. */
  lemma RoundRobinInSteps(s: State, forced: bool, env: Env)
    requires Shape(s) && |s.running| <= 1 && Switches(s, forced)
    ensures CanSwitch(Readied(s)) && RoundRobin(s, forced, env) == Switched(Readied(s), env)
  {
    ReadiedFits(s);
    var s1 := Readied(s);
    var s2 := Preempted(s1);
    var back := if Preempts(s1) then [s1.running[0]] else [];
    DropFirst(s1.ready, back);
    var next := s1.ready[0];
    RowInPlace(s, s2, s2.blocks[next].pid, env);
    RoundRobinValues(s, forced, env, next, back, s2.blocks);
    SwitchedValues(s1, env, next, back, s2.blocks);
    hide RoundRobin, Switched, Loaded, StallSorted, HandleRow, Shape, TablesFit, InRange, CanSwitch;
  }

  function Reloads(s: State, blocks: seq<Block>, next: nat): bool
    requires next < |blocks| && (s.running != [] ==> s.running[0] < |blocks|)
  {
    s.running == [] || blocks[s.running[0]].pid != blocks[next].pid
  }

  lemma RoundRobinValues(s: State, forced: bool, env: Env, next: nat, back: seq<nat>, blocks: seq<Block>)
    requires Shape(s) && |s.running| <= 1 && Switches(s, forced)
    requires next == Readied(s).ready[0] && next < |blocks| && back == (if Preempts(s) then [s.running[0]] else [])
    requires blocks == Preempted(Readied(s)).blocks
    ensures s.running != [] ==> s.running[0] < |blocks|
    ensures |s.l1| == L1_SIZE && s.l1[UDATA].Section?
    ensures RoundRobin(s, forced, env) ==
            s.(ready := Readied(s).ready[1..] + back, running := [next], blocks := blocks,
               l1 := if Reloads(s, blocks, next) then Loaded(s.l1, blocks[next].pid, HandleRow(s,
                       blocks[next].pid, env)) else s.l1,
               stale := if Reloads(s, blocks, next) then {} else s.stale,
               cpu := blocks[next].regs, panicked := !StallSorted(blocks, s.stall))
  {
    hide Loaded, StallSorted, HandleRow;
  }

  lemma SwitchedValues(s: State, env: Env, next: nat, back: seq<nat>, blocks: seq<Block>)
    requires CanSwitch(s) && next == s.ready[0] && back == (if Preempts(s) then [s.running[0]] else [])
    requires blocks == Preempted(s).blocks && (s.ready + back)[1..] == s.ready[1..] + back
            && (s.ready + back)[0] == s.ready[0]
    ensures next < |blocks| && (s.running != [] ==> s.running[0] < |blocks|)
    ensures TablesFit(Preempted(s))
    ensures Switched(s, env) ==
            s.(ready := s.ready[1..] + back, running := [next], blocks := blocks,
               l1 := if Reloads(s, blocks, next) then Loaded(s.l1, blocks[next].pid, HandleRow(Preempted(s),
                       blocks[next].pid, env)) else s.l1,
               stale := if Reloads(s, blocks, next) then {} else s.stale,
               cpu := blocks[next].regs, panicked := !StallSorted(blocks, s.stall))
  {
    hide Loaded, StallSorted, HandleRow;
  }

  lemma ReadiedFits(s: State)
    requires Shape(s) && |s.running| <= 1
    ensures CanSwitch(Readied(s)) && Idle(Readied(s)) == |s.blocks| - 1
  {
  }

  /** What holds before a round robin, and what is left to do once somebody is ready. */
  lemma RoundRobinPlan(s: State, forced: bool, env: Env)
    requires Inv(s) && MaySwitch(s, forced)
    ensures |s.blocks| > 0
    ensures !Switches(s, forced) ==> RoundRobin(s, forced, env) == s
    ensures Switches(s, forced) ==>
              && (s.ready == [] ==>
                    Unlisted(s, |s.blocks| - 1) && Readied(s) == WithList(s, READY, [|s.blocks| - 1] + s.ready))
              && (s.ready != [] ==> Readied(s) == s)
              && CanSwitch(Readied(s)) && RoundRobin(s, forced, env) == Switched(Readied(s), env)
  {
    hide Shape, Inv, Model.RoundRobin, Switched, CanSwitch, Unlisted;
    InvShape(s);
    if Switches(s, forced) {
      ReadyIdle(s, forced);
      RoundRobinInSteps(s, forced, env);
      assert s.ready == [] ==> Readied(s) == WithList(s, READY, [|s.blocks| - 1] + s.ready);
    } else {
      NoSwitch(s, forced, env);
    }
  }

  lemma NoSwitch(s: State, forced: bool, env: Env)
    requires Shape(s) && !Switches(s, forced)
    ensures RoundRobin(s, forced, env) == s
  {
  }

  lemma ReadyIdle(s: State, forced: bool)
    requires Inv(s) && MaySwitch(s, forced) && Switches(s, forced)
    ensures s.ready == [] ==> Unlisted(s, Idle(s))
  {
  }

  lemma RowInPlace(s: State, s2: State, pid: nat, env: Env)
    requires Shape(s) && TablesFit(s2) && s2.cfg == s.cfg && s2.handles == s.handles && s2.timer == s.timer
    ensures HandleRow(s, pid, env) == HandleRow(s2, pid, env)
  {
  }

  lemma DropFirst(q: seq<nat>, back: seq<nat>)
    requires q != []
    ensures (q + back)[1..] == q[1..] + back && (q + back)[0] == q[0]
  {
  }

  // ----- Starting a thread -----

  ghost predicate CanStart(s: State, pid: nat, slot: nat, n: nat) {
    && Shape(s) && s.finished != [] && pid < s.cfg.spaces && slot < s.cfg.slots && n <= STACK_SIZE
    && forall m :: 0 <= m < s.cfg.spaces ==> s.finished[0] !in s.spaces[m]
  }

  function InitialStackPointer(slot: nat, n: nat): Word
    requires slot < 4 && n <= STACK_SIZE
  {
    (USER_STACKS - slot) * MiB - Align8(n)
  }

  ghost predicate Enrollable(s: State, t: nat, pid: nat, slot: nat) {
    && t < |s.blocks| && pid < s.cfg.spaces == |s.spaces| && (forall m :: 0 <= m < s.cfg.spaces ==> t !in s.spaces[m])
    && pid < |s.slots| && slot < |s.slots[pid]| && pid < |s.handles| && slot < |s.handles[pid]|
  }

  ghost function Enrolled(s: State, t: nat, pid: nat, slot: nat): (r: State)
    requires Enrollable(s, t, pid, slot)
    ensures r.blocks == s.blocks && r.finished == s.finished && r.ready == s.ready && r.mem == s.mem && r.l1 == s.l1
  {
    s.(spaces := s.spaces[pid := [t] + s.spaces[pid]],
       handles := s.handles[pid := s.handles[pid][slot := s.blocks[t].handle]],
       slots := s.slots[pid := s.slots[pid][slot := true]],
       stale := Stale(s, pid, slot))
  }

  /** The argument block lies within one section that the kernel has mapped onto itself. */
  ghost predicate ArgumentsFit(s: State, t: nat, n: nat) {
    && |s.l1| == L1_SIZE && n <= STACK_SIZE && Align8(n) <= STACK_SIZE
    && var va := (USER_STACKS + t + 1) * MiB - Align8(n);
       n > 0 ==> va / MiB < |s.l1| && s.l1[va / MiB].Section? && KernelAddress(s.l1, va) == va && va + n <= |s.mem|
  }

  function WithArguments(s: State, t: nat, args: seq<Byte>): (r: State)
    requires ArgumentsFit(s, t, |args|)
    ensures r.blocks == s.blocks && r.finished == s.finished && r.ready == s.ready
  {
    s.(mem := if args == [] then s.mem
            else Stored(s.mem, KernelAddress(s.l1, (USER_STACKS + t + 1) * MiB - Align8(|args|)), args))
  }

  /** Reading depends on the tables and on memory alone. */
  lemma {:induction false} FetchedFrame(s: State, r: State, src: Word, to: nat, n: nat, others: seq<Byte>)
    requires |s.l1| == L1_SIZE && n <= STACK_SIZE && r.l1 == s.l1 && r.tables == s.tables && r.mem == s.mem
    ensures Fetched(r, src, to, n, others) == Fetched(s, src, to, n, others)
    ensures Fetchable(r, src, n) == Fetchable(s, src, n)
  {
    if n > 0 {
      FetchedFrame(s, r, src, to, n - 1, others);
    }
  }

  /** The kernel maps the user stacks onto themselves. */
  lemma StackAddress(s: State, t: nat, n: nat)
    requires KernelMap(s.l1) && t < USER_STACK_COUNT && 0 < n <= Align8(n) <= STACK_SIZE
    ensures var va := (USER_STACKS + t + 1) * MiB - Align8(n);
            va / MiB < |s.l1| && s.l1[va / MiB].Section? && KernelAddress(s.l1, va) == va
  {
    var va, o := (USER_STACKS + t + 1) * MiB - Align8(n), MiB - Align8(n);
    DivideByMiB(va, USER_STACKS + t, o);
  }

  /** The bytes a start reads for the first finished thread. */
  function ArgumentBytes(s: State, src: Word, n: nat, others: seq<Byte>): (args: seq<Byte>)
    requires |s.l1| == L1_SIZE && s.finished != [] && n <= STACK_SIZE
    ensures |args| == n
  {
    Fetched(s, src, (USER_STACKS + s.finished[0] + 1) * MiB - Align8(n), n, others)
  }

  lemma ArgumentsFrame(s: State, t: nat, pid: nat, slot: nat, src: Word, n: nat, others: seq<Byte>)
    requires CanStart(s, pid, slot, n) && t == s.finished[0] && Enrollable(s, t, pid, slot)
    ensures var r := Enrolled(s, t, pid, slot);
            && |s.l1| == |r.l1| == L1_SIZE && n <= STACK_SIZE
            && Fetched(r, src, (USER_STACKS + t + 1) * MiB - Align8(n), n, others) == ArgumentBytes(s, src, n, others)
            && Fetchable(r, src, n) == Fetchable(s, src, n)
  {
    FetchedFrame(s, Enrolled(s, t, pid, slot), src, (USER_STACKS + t + 1) * MiB - Align8(n), n, others);
  }

  function CreatedProcess(s: State, space: nat, func: Word, src: Word, n: nat, others: seq<Byte>, env: Env): State
    requires Shape(s) && s.finished != [] && space < s.cfg.spaces && n <= STACK_SIZE
  {
    var s1 := CopyImage(s, space);
    StartThread(s1, space, 0, func, ArgumentBytes(s1, src, n, others), env)
  }

  lemma CreatedInSteps(s: State, space: nat, func: Word, src: Word, n: nat, others: seq<Byte>, env: Env)
    requires CanStart(s, space, 0, n)
    ensures Shape(s) && s.finished != [] && space < s.cfg.spaces && n <= STACK_SIZE
    ensures var s1 := CopyImage(s, space);
            && |s1.l1| == L1_SIZE && Shape(s1) && s1.finished != []
            && CreatedProcess(s, space, func, src, n, others, env) ==
               StartThread(s1, space, 0, func, ArgumentBytes(s1, src, n, others), env)
  {
  }

  /** A halted machine is in whatever state it halted in; any other one is in the state `s`. */
  ghost predicate Tracks(a: State, s: State) {
    a == s || (a.panicked && s.panicked)
  }

  lemma TracksSelf()
    ensures forall s :: Tracks(s, s)
  {
  }

  lemma TracksHalted(a: State, s: State)
    requires Tracks(a, s)
    ensures a.panicked == s.panicked && (!a.panicked ==> a == s)
  {
  }

  lemma StartFacts(s: State, pid: nat, slot: nat, n: nat)
    requires CanStart(s, pid, slot, n)
    ensures s.finished != [] && Enrollable(s, s.finished[0], pid, slot) && slot < 4 && n <= STACK_SIZE
    ensures ArgumentsFit(Enrolled(s, s.finished[0], pid, slot), s.finished[0], n)
    ensures s.finished[0] < |s.blocks|
  {
    if n > 0 {
      StackAddress(Enrolled(s, s.finished[0], pid, slot), s.finished[0], n);
    }
  }

  /** The first finished thread with its initial context, ready. */
  function Launched(s: State, pid: nat, slot: nat, func: Word, sp: Word, exit: Word): State
    requires s.finished != [] && s.finished[0] < |s.blocks|
  {
    var t := s.finished[0];
    var b := s.blocks[t];
    s.(blocks := s.blocks[t := b.(regs := Registers(b.regs.general[0 := sp], sp, exit, func), mode := User,
            pid := pid, slot := slot)],
       finished := RemoveAt(s.finished, 0), ready := s.ready + [t])
  }

  lemma StartThreadInSteps(s: State, pid: nat, slot: nat, func: Word, args: seq<Byte>, env: Env)
    requires CanStart(s, pid, slot, |args|)
    ensures Shape(s) && s.finished != [] && s.finished[0] < |s.blocks| && slot < 4
    ensures Enrollable(s, s.finished[0], pid, slot)
    ensures var s1 := Enrolled(s, s.finished[0], pid, slot);
            && ArgumentsFit(s1, s.finished[0], |args|)
            && StartThread(s, pid, slot, func, args, env) ==
               Launched(WithArguments(s1, s.finished[0], args), pid, slot, func, InitialStackPointer(slot, |args|),
                        env.exitThread)
  {
    StartFacts(s, pid, slot, |args|);
    hide ArgumentsFit, Enrolled, Launched, InitialStackPointer, WithArguments, StartThread, Enrollable, Shape;
    ThreadLaunched(s, pid, slot, func, args, env);
  }

  lemma ThreadLaunched(s: State, pid: nat, slot: nat, func: Word, args: seq<Byte>, env: Env)
    requires CanStart(s, pid, slot, |args|)
    requires s.finished != [] && s.finished[0] < |s.blocks| && slot < 4 && Enrollable(s, s.finished[0], pid, slot)
    requires ArgumentsFit(Enrolled(s, s.finished[0], pid, slot), s.finished[0], |args|)
    ensures StartThread(s, pid, slot, func, args, env) ==
            Launched(WithArguments(Enrolled(s, s.finished[0], pid, slot), s.finished[0], args), pid, slot, func,
                     InitialStackPointer(slot, |args|), env.exitThread)
  {
    hide Enrollable, ArgumentsFit, Stored, KernelAddress, Align8;
    assert RemoveAt(s.finished, 0) == s.finished[1..];
  }

  lemma DivideByMiB(va: nat, m: nat, o: nat)
    requires va == m * MiB + o && o < MiB
    ensures va / MiB == m && va % MiB == o
  {
  }

  // ----- Other bounds -----

  lemma ImageFacts(s: State, space: nat)
    requires Shape(s) && space < s.cfg.spaces
    ensures UDATA_ORIGINAL < |s.l1| && s.l1[UDATA_ORIGINAL].Section? && UDATA + space + 1 < |s.l1|
            && s.l1[UDATA + space + 1].Section?
    ensures KernelAddress(s.l1, UDATA_ORIGINAL * MiB) + MiB <= KernelAddress(s.l1, (UDATA + space + 1) * MiB)
    ensures KernelAddress(s.l1, (UDATA + space + 1) * MiB) + MiB <= |s.mem|
  {
  }

  lemma CopiedCanStart(s: State, space: nat, n: nat)
    requires CanStart(s, space, 0, n)
    ensures Shape(s) && space < s.cfg.spaces && CanStart(CopyImage(s, space), space, 0, n)
    ensures CopyImage(s, space).finished == s.finished
  {
  }

  ghost predicate CanCleanUp(s: State) {
    && Shape(s) && s.running != [] && s.running[0] < Users(s.cfg)
    && var b := s.blocks[s.running[0]];
       b.pid < s.cfg.spaces && b.slot < s.cfg.slots && s.running[0] in s.spaces[b.pid]
  }

  lemma CleanupFacts(s: State)
    requires CanCleanUp(s)
    ensures |s.spaces| == |s.slots| == s.cfg.spaces && s.running[0] < |s.blocks|
    ensures var b := s.blocks[s.running[0]];
            |s.slots[b.pid]| == s.cfg.slots
  {
  }

  lemma InputBound(s: State)
    requires Shape(s) && s.input != []
    ensures s.input[0] < |s.blocks|
  {
  }

  lemma StallBound(s: State)
    requires Shape(s)
    ensures s.stall != [] ==> s.stall[0] < |s.blocks|
  {
  }

  // ----- What the invariant gives the system calls -----

  lemma InvTables(s: State)
    requires Inv(s)
    ensures Shape(s) && |s.spaces| == |s.slots| == s.cfg.spaces && |s.blocks| == Users(s.cfg) + 1
  {
  }

  lemma CallerTables(s: State)
    requires Inv(s) && UserRunning(s)
    ensures s.running[0] < |s.blocks|
    ensures var pid := s.blocks[s.running[0]].pid;
            pid < s.cfg.spaces && pid < |s.slots| && |s.slots[pid]| == s.cfg.slots
  {
    RunningIsSeated(s);
  }

  /** A finished thread is registered nowhere, so it can be started. */
  lemma MayStart(s: State, pid: nat, slot: nat, n: nat)
    requires Inv(s) && s.finished != [] && pid < s.cfg.spaces && slot < s.cfg.slots && n <= STACK_SIZE
    ensures CanStart(s, pid, slot, n)
  {
    assert s.finished[0] in s.finished;
    forall m | 0 <= m < s.cfg.spaces
      ensures s.finished[0] !in s.spaces[m]
    {
      assert !Live(s, s.finished[0]);
    }
  }

  lemma MayCreateProcess(s: State, space: nat, n: nat)
    requires Inv(s) && space < |s.spaces| && s.spaces[space] == [] && n <= STACK_SIZE
    ensures CanStart(s, space, 0, n)
  {
    EmptySpaceMeansFreeThread(s, space);
    MayStart(s, space, 0, n);
  }

  lemma MayCreateThread(s: State, pid: nat, slot: nat, n: nat)
    requires Inv(s) && pid < s.cfg.spaces && slot < |s.slots[pid]| && !s.slots[pid][slot] && n <= STACK_SIZE
    ensures CanStart(s, pid, slot, n)
  {
    FreeSlotMeansFreeThread(s, pid, slot);
    MayStart(s, pid, slot, n);
  }

  lemma ArgumentsAre(s: State, bytes: seq<Byte>)
    requires Shape(s) && s.finished != [] && s.cpu.general[2] <= STACK_SIZE
    ensures ArgumentsFetchable(s) == Fetchable(s, s.cpu.general[1], s.cpu.general[2])
    ensures Arguments(s, bytes) == ArgumentBytes(s, s.cpu.general[1], s.cpu.general[2], bytes)
  {
    hide Fetchable, Fetched, Align8;
  }

  lemma CreatedIs(s: State, space: nat, func: Word, src: Word, n: nat, others: seq<Byte>, env: Env)
    requires Shape(s) && s.finished != [] && space < s.cfg.spaces && n <= STACK_SIZE
    ensures Shape(CopyImage(s, space)) && CopyImage(s, space).finished == s.finished
    ensures CreatedProcess(s, space, func, src, n, others, env) ==
            StartThread(CopyImage(s, space), space, 0, func, ArgumentBytes(CopyImage(s, space), src, n, others), env)
  {
    hide ArgumentBytes, StartThread;
  }

  lemma MayExit(s: State)
    requires Inv(s) && UserRunning(s)
    ensures CanCleanUp(s) && Inv(CleanupThread(s)) && MaySwitch(CleanupThread(s), false)
  {
    RunningIsSeated(s);
    CleanupKeepsInv(s);
  }

  lemma ExitKeepsInv(s: State, env: Env)
    requires Inv(s) && UserRunning(s) && CanCleanUp(s)
    ensures Inv(RoundRobin(CleanupThread(s), false, env))
  {
    MayExit(s);
    RoundRobinKeepsInv(CleanupThread(s), false, env);
  }

  lemma StepCases(s: State, env: Env)
    requires Inv(s)
    ensures forall e :: s.panicked ==> Step(s, e, env) == s
    ensures forall d :: !s.panicked ==> Step(s, Tick(d), env) == s.(timer := Elapse(s.timer, d))
  {
    hide Inv;
  }

  lemma RunningMode(s: State)
    requires Inv(s)
    ensures s.running != [] ==> s.running[0] < |s.blocks| && (s.blocks[s.running[0]].mode == User <==> UserRunning(s))
  {
    if UserRunning(s) {
      RunningIsSeated(s);
    }
  }

  lemma EnteredUser(s: State, user: Registers)
    requires Inv(s) && UserRunning(s)
    ensures UserRunning(Entered(s, user))
  {
  }

  lemma DeliverEnds(s: State)
    requires Inv(s)
    ensures s.input == [] || s.uart == [] ==> Deliver(s) == s
  {
    hide Inv;
  }

  /** One turn of the delivery loop, the read first. */
  lemma DeliverOneInSteps(s: State)
    requires Inv(s) && s.input != [] && s.uart != []
    ensures Deliver(s) == Deliver(DeliverOne(s))
    ensures Shape(s.(uart := s.uart[1..]))
    ensures DeliverOne(s) == UnblockFirstInput(s.(uart := s.uart[1..]), s.uart[0])
    ensures |DeliverOne(s).uart| < |s.uart|
  {
  }
}
