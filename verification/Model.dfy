/**
  The scheduler as a state machine over values: kernel/scheduler.c, kernel/syscall_impl.c and
  kernel/interrupt.c with every list a sequence of thread numbers. `Kernel` implements these
  functions on linked lists and tables; what is proved about runs is proved about them.
 */
module Model {
  import opened Words
  import opened IntrusiveList
  import opened Mmu
  import opened SysTimer
  import KTiming

  /** Address spaces and stack slots per space; the kernel is built with 8 and 4. */
  datatype Sizes = Sizes(spaces: nat, slots: nat)
  type Config = c: Sizes | 1 <= c.spaces <= 8 && 1 <= c.slots <= 4 witness Sizes(8, 4)

  const UART_INPUT_BUFFER_SIZE: nat := 128
  const MEMORY_SIZE: nat := MEMORY_TOP * MiB
  const EINVAL: Word := WORD_SIZE - 1
  const EBUSY: Word := WORD_SIZE - 3

  type General = r: seq<Word> | |r| == 13 witness seq(13, i => 0)

  /** r0-r12, the banked user sp and lr, and the address to resume at. */
  datatype Registers = Registers(general: General, sp: Word, lr: Word, pc: Word)
  datatype Mode = User | System | NotInitialised

  /** A thread control block without its list nodes. */
  datatype Block = Block(regs: Registers, mode: Mode, pid: nat, slot: nat, handle: L1Entry, stallUntil: Word)

  /**
    What the scheduler does not decide: how fast the clock runs, what lies behind the last row of
    `process_stack_handles`, and the address of `sys$exit_thread`.
   */
  datatype Env = Env(delays: Delays, beyond: (nat, nat) -> L1Entry, exitThread: Word)

  /** The unit conversions of kernel/lib/ktiming.c. */
  function ToHertz(ms: Word): Option<Word> {
    KTiming.Ticks(ms)
  }

  function ToMilliseconds(ticks: Word): Word {
    KTiming.Milliseconds(ticks)
  }

  datatype State = State(
    cfg: Config,
    // scheduler lists
    running: seq<nat>, ready: seq<nat>, finished: seq<nat>, input: seq<nat>, stall: seq<nat>,
    // one list of threads per address space
    spaces: seq<seq<nat>>,
    blocks: seq<Block>,
    slots: seq<seq<bool>>,
    handles: seq<seq<L1Entry>>,
    // slots of the running process handed out since its stack entries were last loaded
    stale: set<nat>,
    // the registers the interrupted code resumes with
    cpu: Registers,
    l1: seq<L1Entry>, tables: nat,
    mem: seq<Byte>,
    timer: Timer,
    uart: seq<Byte>,
    // a VERIFY failed or an exception came from kernel code: the machine is halted
    panicked: bool)

  function Users(c: Config): (n: nat)
    ensures 1 <= n <= USER_STACK_COUNT
  {
    ProductBound(c.spaces, c.slots);
    c.spaces * c.slots
  }

  lemma ProductBound(a: nat, b: nat)
    requires 1 <= a <= 8 && 1 <= b <= 4
    ensures 1 <= a * b <= 32
  {
    assert a * b <= 8 * b by { assert (8 - a) * b >= 0; }
    assert a * b >= b by { assert (a - 1) * b >= 0; }
  }

  function Idle(s: State): nat {
    Users(s.cfg)
  }

  ghost predicate InRange(q: seq<nat>, n: nat) {
    forall i :: 0 <= i < |q| ==> q[i] < n
  }

  /** Array bounds: what makes the functions below well defined. */
  ghost predicate Shape(s: State) {
    && |s.blocks| == Users(s.cfg) + 1
    && InRange(s.running, |s.blocks|) && InRange(s.ready, |s.blocks|) && InRange(s.finished, Users(s.cfg))
    && InRange(s.input, |s.blocks|) && InRange(s.stall, |s.blocks|)
    && |s.spaces| == |s.slots| == |s.handles| == s.cfg.spaces
    && (forall p :: 0 <= p < s.cfg.spaces ==> |s.slots[p]| == |s.handles[p]| == s.cfg.slots)
    && KernelMap(s.l1) && s.l1[UDATA].Section?
    && |s.mem| == MEMORY_SIZE
  }

  // ----- Small pieces -----

  function Align8(n: nat): nat {
    if n % 8 != 0 then n + 8 - n % 8 else n
  }

  /** `k_align8` rounds up to a multiple of 8, and to the least one. */
  lemma Align8IsLeast(n: nat, m: nat)
    requires m % 8 == 0 && n <= m
    ensures Align8(n) % 8 == 0 && n <= Align8(n) <= m
  {
  }

  /** `mem` with `bytes` stored from address `at` on. */
  function Stored(mem: seq<Byte>, at: nat, bytes: seq<Byte>): (m: seq<Byte>)
    ensures |m| == |mem|
  {
    seq(|mem|, a requires 0 <= a < |mem| => if at <= a < at + |bytes| then bytes[a - at] else mem[a])
  }

  /** Whether the model keeps the byte at `a`: it leaves out the kernel's own variables and stacks. */
  predicate Kept(mem: seq<Byte>, a: nat) {
    a < |mem| && a / MiB != KERNEL_DATA && a / MiB < KERNEL_STACKS
  }

  /** The kernel can read the byte at `va`. */
  predicate KernelReads(s: State, va: Word)
    requires |s.l1| == L1_SIZE
  {
    match Translate(s.l1, s.tables, va)
    case None => false
    case Some(loc) => KernelMayRead(loc.ap)
  }

  /** The checks of a copy of `n` bytes from `src`: the pointer is not null and every byte can be read. */
  predicate Fetchable(s: State, src: Word, n: nat)
    requires |s.l1| == L1_SIZE && n <= STACK_SIZE
  {
    n > 0 ==> src != 0 && forall k :: 0 <= k < n ==> KernelReads(s, Plus(src, k))
  }

  /**
    The byte read from `va` after the bytes `got` have been stored at `to`. What lies behind an
    address the model does not keep, such as a device register, is the arbitrary byte `x`.
   */
  function ByteRead(s: State, va: Word, to: nat, got: seq<Byte>, x: Byte): Byte
    requires |s.l1| == L1_SIZE
  {
    match Translate(s.l1, s.tables, va)
    case None => x
    case Some(loc) =>
      if !Kept(s.mem, loc.address) then x
      else if to <= loc.address < to + |got| then got[loc.address - to]
      else s.mem[loc.address]
  }

  /** The `n` bytes a copy from `src` to `to` reads, one after the other; the two may overlap. */
  function Fetched(s: State, src: Word, to: nat, n: nat, others: seq<Byte>): (g: seq<Byte>)
    requires |s.l1| == L1_SIZE && n <= STACK_SIZE
    ensures |g| == n
  {
    if n == 0 then [] else
    var g := Fetched(s, src, to, n - 1, others);
    g + [ByteRead(s, Plus(src, n - 1), to, g, if n <= |others| then others[n - 1] else 0)]
  }

  /** The physical address behind a section-mapped kernel address. */
  function KernelAddress(l1: seq<L1Entry>, va: nat): nat
    requires va / MiB < |l1| && l1[va / MiB].Section?
  {
    l1[va / MiB].base * MiB + va % MiB
  }

  /** The window entries as `scheduler_round_robin` loads them for a process. */
  function Loaded(l1: seq<L1Entry>, pid: nat, row: seq<L1Entry>): (t: seq<L1Entry>)
    requires |l1| == L1_SIZE && l1[UDATA].Section? && |row| <= 4
    ensures |t| == |l1|
    ensures t[UDATA] == l1[UDATA].(base := UDATA + pid + 1)
    ensures KernelMap(l1) ==> KernelMap(t)
  {
    seq(|l1|, m requires 0 <= m < |l1| =>
      if m == UDATA then l1[UDATA].(base := UDATA + pid + 1)
      else if USER_STACKS - |row| <= m < USER_STACKS then row[USER_STACKS - 1 - m]
      else l1[m])
  }

  /** The row read for a process; the idle thread's lies past the end of the array. */
  function HandleRow(s: State, pid: nat, env: Env): (row: seq<L1Entry>)
    requires |s.handles| == s.cfg.spaces && forall p :: 0 <= p < s.cfg.spaces ==> |s.handles[p]| == s.cfg.slots
    ensures |row| == s.cfg.slots
  {
    if pid < s.cfg.spaces then s.handles[pid]
    else seq(s.cfg.slots, i requires 0 <= i => env.beyond(s.timer.readings, i))
  }

  function StallKey(blocks: seq<Block>, t: nat): Word {
    if t < |blocks| then blocks[t].stallUntil else 0
  }

  /** `scheduler_stall_cmp` */
  function StallOrder(blocks: seq<Block>): (nat, nat) -> bool {
    (a: nat, b: nat) => StallKey(blocks, a) <= StallKey(blocks, b)
  }

  /** The one check of `scheduler_verify_thread_list_integrity` that is not about list structure. */
  predicate StallSorted(blocks: seq<Block>, stall: seq<nat>) {
    forall i :: 0 <= i < |stall| - 1 ==> StallKey(blocks, stall[i]) <= StallKey(blocks, stall[i + 1])
  }

  function IndexOf(q: seq<nat>, t: nat): (i: nat)
    requires t in q
    ensures i < |q| && q[i] == t
  {
    if q[0] == t then 0 else 1 + IndexOf(q[1..], t)
  }

  function Without(q: seq<nat>, t: nat): seq<nat>
    requires t in q
  {
    RemoveAt(q, IndexOf(q, t))
  }

  /** The first of the rows numbered `i` and up that is empty. */
  function FirstEmptySpace(spaces: seq<seq<nat>>, i: nat): (r: Option<nat>)
    requires i <= |spaces|
    ensures r.Some? ==> i <= r.value < |spaces| && spaces[r.value] == []
    ensures r.Some? ==> forall j :: i <= j < r.value ==> spaces[j] != []
    ensures r.None? ==> forall j :: i <= j < |spaces| ==> spaces[j] != []
    decreases |spaces| - i
  {
    if i == |spaces| then None else if spaces[i] == [] then Some(i) else FirstEmptySpace(spaces, i + 1)
  }

  function FirstEmptySlot(used: seq<bool>, i: nat): (r: Option<nat>)
    requires i <= |used|
    ensures r.Some? ==> i <= r.value < |used| && !used[r.value] && forall j :: i <= j < r.value ==> used[j]
    ensures r.None? ==> forall j :: i <= j < |used| ==> used[j]
    decreases |used| - i
  {
    if i == |used| then None else if !used[i] then Some(i) else FirstEmptySlot(used, i + 1)
  }

  function SetR0(regs: Registers, v: Word): Registers {
    regs.(general := regs.general[0 := v])
  }

  // ----- kernel/scheduler.c -----

  function RoundRobin(s: State, forced: bool, env: Env): (r: State)
    requires Shape(s)
    ensures Shape(r)
  {
    if !forced && s.ready == [] && s.running != [] then s else
    var ready := if s.ready == [] then [Idle(s)] else s.ready;
    var next := ready[0];
    var preempted := s.running != [] && s.running[0] != Idle(s);
    var blocks := if preempted then s.blocks[s.running[0] := s.blocks[s.running[0]].(regs := s.cpu)] else s.blocks;
    var reload := s.running == [] || blocks[s.running[0]].pid != blocks[next].pid;
    s.(ready := ready[1..] + (if preempted then [s.running[0]] else []),
       running := [next],
       blocks := blocks,
       l1 := if reload then Loaded(s.l1, blocks[next].pid, HandleRow(s, blocks[next].pid, env)) else s.l1,
       stale := if reload then {} else s.stale,
       cpu := blocks[next].regs,
       panicked := !StallSorted(blocks, s.stall))
  }

  /** A round robin that does not return early. */
  predicate Switches(s: State, forced: bool) {
    forced || s.ready != [] || s.running == []
  }

  /** The tail `scheduler_create_process` and `scheduler_create_thread` share. */
  function StartThread(s: State, pid: nat, slot: nat, func: Word, args: seq<Byte>, env: Env): (r: State)
    requires Shape(s) && s.finished != [] && pid < s.cfg.spaces && slot < s.cfg.slots && |args| <= STACK_SIZE
    ensures Shape(r)
  {
    var t := s.finished[0];
    var sp: Word := (USER_STACKS - slot) * MiB - Align8(|args|);
    var regs := Registers(s.blocks[t].regs.general[0 := sp], sp, env.exitThread, func);
    var realSp := (USER_STACKS + t + 1) * MiB - Align8(|args|);
    s.(spaces := s.spaces[pid := [t] + s.spaces[pid]],
       handles := s.handles[pid := s.handles[pid][slot := s.blocks[t].handle]],
       slots := s.slots[pid := s.slots[pid][slot := true]],
       blocks := s.blocks[t := s.blocks[t].(regs := regs, mode := User, pid := pid, slot := slot)],
       mem := if args == [] then s.mem else Stored(s.mem, KernelAddress(s.l1, realSp), args),
       finished := s.finished[1..],
       ready := s.ready + [t],
       stale := if s.running != [] && s.blocks[s.running[0]].pid == pid then s.stale + {slot} else s.stale)
  }

  /** The pristine data image copied into the address space's own frame. */
  function CopyImage(s: State, space: nat): (r: State)
    requires Shape(s) && space < s.cfg.spaces
    ensures Shape(r)
  {
    var from := KernelAddress(s.l1, UDATA_ORIGINAL * MiB);
    s.(mem := Stored(s.mem, KernelAddress(s.l1, (UDATA + space + 1) * MiB), s.mem[from..from + MiB]))
  }

  function CreateProcess(s: State, space: nat, func: Word, args: seq<Byte>, env: Env): (r: State)
    requires Shape(s) && s.finished != [] && space < s.cfg.spaces && |args| <= STACK_SIZE
    ensures Shape(r)
  {
    StartThread(CopyImage(s, space), space, 0, func, args, env)
  }

  function CleanupThread(s: State): (r: State)
    requires Shape(s) && s.running != [] && s.running[0] < Users(s.cfg)
    requires var b := s.blocks[s.running[0]];
             b.pid < s.cfg.spaces && b.slot < s.cfg.slots && s.running[0] in s.spaces[b.pid]
    ensures Shape(r)
  {
    var t := s.running[0];
    var b := s.blocks[t];
    s.(slots := s.slots[b.pid := s.slots[b.pid][b.slot := false]],
       spaces := s.spaces[b.pid := Without(s.spaces[b.pid], t)],
       running := s.running[1..],
       finished := [t] + s.finished)
  }

  /** The caller has just been put at the end of the ready list. */
  function AwaitInput(s: State, t: nat): (r: State)
    requires s.ready != [] && s.ready[|s.ready| - 1] == t
    ensures Shape(s) ==> Shape(r)
  {
    s.(ready := s.ready[..|s.ready| - 1], input := s.input + [t])
  }

  function UnblockFirstInput(s: State, ch: Byte): (r: State)
    requires Shape(s) && s.input != []
    ensures Shape(r)
  {
    var t := s.input[0];
    s.(blocks := s.blocks[t := s.blocks[t].(regs := SetR0(s.blocks[t].regs, ch))],
       input := s.input[1..], ready := s.ready + [t])
  }

  datatype Adjustment = Adjustment(state: State, ok: bool)

  function AdjustStallTimer(s: State, env: Env): Adjustment
    requires Shape(s)
  {
    if s.stall == [] then Adjustment(s.(timer := s.timer.(m3 := false)), true)
    else
      var a := InterruptAt(s.timer, s.blocks[s.stall[0]].stallUntil, env.delays);
      Adjustment(s.(timer := a.timer), a.ok)
  }

  /** One turn of the wake-up loop: the head of the stall list goes to the end of the ready list. */
  function WakeFirst(s: State): (r: State)
    requires s.stall != []
    ensures Shape(s) ==> Shape(r)
  {
    s.(stall := s.stall[1..], ready := s.ready + [s.stall[0]])
  }

  function UnblockOverdue(s: State, env: Env): (r: State)
    requires Shape(s)
    ensures Shape(r)
    decreases |s.stall|
  {
    var a := AdjustStallTimer(s, env);
    if a.ok then a.state
    else UnblockOverdue(WakeFirst(a.state), env)
  }

  /** One turn of the loop. */
  lemma UnblockOverdueTurn(s: State, env: Env)
    requires Shape(s)
    ensures var a := AdjustStallTimer(s, env);
            && a.state == s.(timer := a.state.timer) && Shape(a.state)
            && (a.ok ==> UnblockOverdue(s, env) == a.state)
            && (!a.ok ==> s.stall != [] && Shape(WakeFirst(a.state)) && |WakeFirst(a.state).stall| == |s.stall| - 1)
            && (!a.ok ==> UnblockOverdue(s, env) == UnblockOverdue(WakeFirst(a.state), env))
  {
  }

  /**
    The caller, just put at the end of the ready list, enters the stall list with its deadline.
    `systimer_value() + match` wraps around.
   */
  function EnterStall(s: State, t: nat, ticks: Word, env: Env): (r: State)
    requires Shape(s) && s.ready != [] && s.ready[|s.ready| - 1] == t
    ensures Shape(r) && r.stall != []
  {
    var tm := Read(s.timer, env.delays);
    var blocks := s.blocks[t := s.blocks[t].(stallUntil := Plus(tm.clo, ticks))];
    s.(ready := s.ready[..|s.ready| - 1], timer := tm, blocks := blocks,
       stall := SortedInsert(s.stall, t, StallOrder(blocks)))
  }

  /** `scheduler_ignore_thread_until_timer_match` */
  function AwaitTimer(s: State, t: nat, ticks: Word, env: Env): (r: State)
    requires Shape(s) && s.ready != [] && s.ready[|s.ready| - 1] == t
    ensures Shape(r)
  {
    var s1 := EnterStall(s, t, ticks, env);
    if s1.stall[0] == t then
      var a := AdjustStallTimer(s1, env);
      if a.ok then a.state else UnblockOverdue(a.state, env)
    else s1
  }

  // ----- kernel/syscall_impl.c -----

  datatype Call = ReadCharacter | OutputCharacter | CreateProcessCall | CreateThreadCall
                | StallThread | ExitThread | GetTime | GetThreadId

  /** `is_valid_syscall_no` and the numbers of include/kernel/syscall_impl.h. */
  function CallNumbered(n: nat): Option<Call> {
    match n
    case 1 => Some(ReadCharacter)
    case 2 => Some(OutputCharacter)
    case 3 => Some(CreateProcessCall)
    case 4 => Some(CreateThreadCall)
    case 5 => Some(StallThread)
    case 6 => Some(ExitThread)
    case 7 => Some(GetTime)
    case 8 => Some(GetThreadId)
    case _ => None
  }
}
