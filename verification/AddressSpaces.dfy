/**
  Memory over runs: the data window follows the running thread, so processes keep private copies
  of the data image and the image itself never changes; and a thread finds its arguments on its
  own stack.
 */
module AddressSpaces {
  import opened Words
  import opened IntrusiveList
  import opened Mmu
  import opened SysTimer
  import opened Model
  import opened Invariant
  import opened Preservation
  import opened Machine
  import opened InputMatching
  import opened WakeUp

  // ----- Where user stores go -----

  /** The running process sees its own frame through the data window, with full access. */
  lemma WindowFollowsRunning(s: State, va: Word)
    requires Inv(s) && UserRunning(s) && va / MiB == UDATA
    ensures Translate(s.l1, s.tables, va) ==
            Some(Location((UDATA + s.blocks[s.running[0]].pid + 1) * MiB + va % MiB, 3))
  {
    RunningIsSeated(s);
  }

  lemma MapIsProtected(m: nat, tables: nat)
    requires m < L1_SIZE && m != UDATA && !(USER_STACKS - 4 <= m < USER_STACKS)
    ensures MemoryMap(m, tables).Section? ==> !UserMayWrite(MemoryMap(m, tables).ap)
    ensures MemoryMap(m, tables).Table? ==>
            exists n: nat :: USER_STACK_COUNT <= n < STACK_COUNT && MemoryMap(m, tables) == StackHandle(tables, n)
  {
    if KERNEL_STACKS <= m < MEMORY_TOP {
      assert MemoryMap(m, tables) == StackHandle(tables, m - USER_STACKS);
    }
  }

  /** The page table of a stack maps its pages onto the stack's own frame; kernel stacks are not for users. */
  lemma StackTarget(l1: seq<L1Entry>, tables: nat, va: Word, n: nat)
    requires |l1| == L1_SIZE && n < STACK_COUNT && l1[va / MiB] == StackHandle(tables, n)
    ensures var r := Translate(l1, tables, va);
            r.Some? && UserMayWrite(r.value.ap) ==>
              n < USER_STACK_COUNT && r.value.address == (USER_STACKS + n) * MiB + va % MiB
  {
    if n < USER_STACK_COUNT {
      StackWindow(l1, tables, va, n);
    }
  }

  /** The thread whose stack the entry of megabyte `m` maps. */
  function StackBehind(s: State, m: nat): Option<nat>
    requires |s.l1| == L1_SIZE && m < L1_SIZE
  {
    match s.l1[m]
    case Table(base) => if s.tables <= base < s.tables + USER_STACK_COUNT then Some(base - s.tables) else None
    case _ => None
  }

  /** What users may write is the process's own data frame and the stack a stack entry maps, and always memory. */
  lemma UserWritable(s: State, va: Word)
    requires Inv(s) && UserRunning(s)
    requires Translate(s.l1, s.tables, va).Some? && UserMayWrite(Translate(s.l1, s.tables, va).value.ap)
    ensures var m, a := va / MiB, Translate(s.l1, s.tables, va).value.address;
            && Target(s, va) == Some(a)
            && if m == UDATA then a == (UDATA + s.blocks[s.running[0]].pid + 1) * MiB + va % MiB
               else && USER_STACKS - 4 <= m < USER_STACKS
                    && StackBehind(s, m).Some? && StackBehind(s, m).value < USER_STACK_COUNT
                    && a == (USER_STACKS + StackBehind(s, m).value) * MiB + va % MiB
  {
    var m := va / MiB;
    RunningIsSeated(s);
    if m == UDATA {
      WindowFollowsRunning(s, va);
    } else if USER_STACKS - s.cfg.slots <= m < USER_STACKS {
      var pid := s.blocks[s.running[0]].pid;
      assert ShowsAt(s.l1, s.handles[pid], s.stale, s.tables, Users(s.cfg), USER_STACKS - 1 - m);
      var n: nat :| n < Users(s.cfg) && s.l1[m] == StackHandle(s.tables, n);
      StackTarget(s.l1, s.tables, va, n);
    } else {
      assert s.l1[m] == MemoryMap(m, s.tables);
      if USER_STACKS - 4 <= m < USER_STACKS {
        StackTarget(s.l1, s.tables, va, 0);
      } else {
        MapIsProtected(m, s.tables);
        if s.l1[m].Table? {
          var n: nat :| USER_STACK_COUNT <= n < STACK_COUNT && s.l1[m] == StackHandle(s.tables, n);
          StackTarget(s.l1, s.tables, va, n);
        }
      }
    }
  }

  /** A user store reaches the process's own data frame or the stack a stack entry maps, nothing else. */
  lemma StoreStaysInUserMemory(s: State, va: Word)
    requires Inv(s) && UserRunning(s) && Target(s, va).Some?
    ensures var m, a := va / MiB, Target(s, va).value;
            if m == UDATA then a / MiB == UDATA + s.blocks[s.running[0]].pid + 1
            else && USER_STACKS - 4 <= m < USER_STACKS
                 && StackBehind(s, m).Some? && StackBehind(s, m).value < USER_STACK_COUNT
                 && a == (USER_STACKS + StackBehind(s, m).value) * MiB + va % MiB
  {
    InvShape(s);
    TargetIs(s, va);
    hide Inv, Target, Translate;
    UserWritable(s, va);
    if va / MiB == UDATA {
      FrameOf(UDATA + s.blocks[s.running[0]].pid + 1, va % MiB);
    }
  }

  lemma TargetIs(s: State, va: Word)
    requires Shape(s)
    ensures Target(s, va).Some? ==>
              Translate(s.l1, s.tables, va).Some? && UserMayWrite(Translate(s.l1, s.tables, va).value.ap)
  {
  }

  /** A permitted store changes exactly the byte it reaches. */
  lemma StoreWrites(s: State, va: Word, byte: Byte, env: Env)
    requires Inv(s) && UserRunning(s) && !s.panicked
    requires Translate(s.l1, s.tables, va).Some? && UserMayWrite(Translate(s.l1, s.tables, va).value.ap)
    ensures var r, a := Step(s, Store(va, byte), env), Translate(s.l1, s.tables, va).value.address;
            && r == s.(mem := r.mem) && a < |r.mem| == |s.mem| && r.mem[a] == byte
            && forall i :: 0 <= i < |s.mem| && i != a ==> r.mem[i] == s.mem[i]
  {
    InvShape(s);
    hide *;
    UserWritable(s, va);
    OtherSteps(s, Store(va, byte), env);
    UserStoreIs(s, va, byte, env);
  }

  lemma UserStoreIs(s: State, va: Word, byte: Byte, env: Env)
    requires Inv(s) && UserRunning(s) && Shape(s) && Target(s, va).Some?
    ensures var a := Target(s, va).value;
            a < |s.mem| && UserStore(s, va, byte, env) == s.(mem := s.mem[a := byte])
  {
    hide Inv, Translate;
  }

  lemma FrameOf(f: nat, o: nat)
    requires o < MiB
    ensures (f * MiB + o) / MiB == f
  {
  }

  // ----- What the kernel writes -----

  /** Frame `f` of physical memory, one megabyte. */
  function Frame(mem: seq<Byte>, f: nat): seq<Byte>
    requires |mem| == MEMORY_SIZE && f < MEMORY_TOP
  {
    mem[f * MiB..(f + 1) * MiB]
  }

  function DataFrame(pid: nat): nat {
    UDATA + pid + 1
  }

  /** `f` is the stack frame of a thread that was not live and now is. */
  predicate StartsAt(s: State, r: State, f: nat) {
    f >= USER_STACKS && !Live(s, f - USER_STACKS) && Live(r, f - USER_STACKS)
  }

  /** Argument bytes go to the new thread's own stack frame. */
  lemma StartThreadMemory(s: State, pid: nat, slot: nat, func: Word, args: seq<Byte>, env: Env, f: nat)
    requires Inv(s) && s.finished != [] && pid < s.cfg.spaces && slot < s.cfg.slots && |args| <= STACK_SIZE
    requires f < MEMORY_TOP && !StartsAt(s, StartThread(s, pid, slot, func, args, env), f)
    ensures Frame(StartThread(s, pid, slot, func, args, env).mem, f) == Frame(s.mem, f)
  {
    StartedMemory(s, pid, slot, func, args, env);
    StartThreadLives(s, pid, slot, func, args, env);
    if args != [] {
      ArgumentPlace(s, args);
      MemorySizes(s);
      assert f != USER_STACKS + s.finished[0];
      hide Inv, Shape, KernelAddress, StartThread;
      var g := USER_STACKS + s.finished[0];
      StoredElsewhere(s.mem, (g + 1) * MiB - Align8(|args|), args, g, f);
    }
  }

  lemma StartedMemory(s: State, pid: nat, slot: nat, func: Word, args: seq<Byte>, env: Env)
    requires Inv(s) && s.finished != [] && pid < s.cfg.spaces && slot < s.cfg.slots && |args| <= STACK_SIZE
    ensures Shape(s) && Align8(|args|) <= STACK_SIZE
    ensures args == [] ==> StartThread(s, pid, slot, func, args, env).mem == s.mem
    ensures args != [] ==>
              var sp := (USER_STACKS + s.finished[0] + 1) * MiB - Align8(|args|);
              && sp / MiB < |s.l1| && s.l1[sp / MiB].Section?
              && StartThread(s, pid, slot, func, args, env).mem == Stored(s.mem, KernelAddress(s.l1, sp), args)
  {
    if args != [] {
      ArgumentPlace(s, args);
    }
    hide Stored, KernelAddress;
  }

  lemma StoredElsewhere(mem: seq<Byte>, at: nat, bytes: seq<Byte>, g: nat, f: nat)
    requires |mem| == MEMORY_SIZE && f < MEMORY_TOP && g * MiB <= at && at + |bytes| <= (g + 1) * MiB && f != g
    ensures Frame(Stored(mem, at, bytes), f) == Frame(mem, f)
  {
    assert f < g ==> (f + 1) * MiB <= g * MiB;
  }

  /** The arguments lie at the top of the stack frame of the first finished thread. */
  lemma ArgumentPlace(s: State, args: seq<Byte>)
    requires Inv(s) && s.finished != [] && 0 < |args| <= STACK_SIZE
    ensures var t := s.finished[0];
            var sp := (USER_STACKS + t + 1) * MiB - Align8(|args|);
            && sp / MiB == USER_STACKS + t && s.l1[sp / MiB].Section? && KernelAddress(s.l1, sp) == sp
            && (USER_STACKS + t) * MiB <= sp && sp + |args| <= (USER_STACKS + t + 1) * MiB
  {
    var t := s.finished[0];
    var o := MiB - Align8(|args|);
    assert 0 <= o < MiB;
    FrameOf(USER_STACKS + t, o);
  }

  /** Copying the image fills the process's frame with it and touches no other frame. */
  lemma CopyImageMemory(s: State, space: nat, f: nat)
    requires Inv(s) && space < s.cfg.spaces && f < MEMORY_TOP
    ensures Frame(CopyImage(s, space).mem, f) == Frame(s.mem, if f == DataFrame(space) then UDATA else f)
  {
    ImageAddresses(s, space);
    hide Inv, Shape, KernelAddress;
    var image := s.mem[UDATA * MiB..UDATA * MiB + MiB];
    assert CopyImage(s, space).mem == Stored(s.mem, DataFrame(space) * MiB, image);
    StoredFrame(s.mem, DataFrame(space), image, f);
  }

  lemma ImageAddresses(s: State, space: nat)
    requires Inv(s) && space < s.cfg.spaces
    ensures Shape(s) && |s.mem| == MEMORY_SIZE
    ensures KernelAddress(s.l1, UDATA_ORIGINAL * MiB) == UDATA * MiB
    ensures KernelAddress(s.l1, DataFrame(space) * MiB) == DataFrame(space) * MiB
  {
    FrameOf(DataFrame(space), 0);
  }

  /** A megabyte stored at a frame fills that frame and no other. */
  lemma StoredFrame(mem: seq<Byte>, at: nat, bytes: seq<Byte>, f: nat)
    requires |mem| == MEMORY_SIZE && |bytes| == MiB && f < MEMORY_TOP
    ensures Frame(Stored(mem, at * MiB, bytes), f) == if f == at then bytes else Frame(mem, f)
  {
  }

  // ----- One step -----

  lemma {:induction false} UnblockOverdueMemory(s: State, env: Env)
    requires Shape(s)
    ensures UnblockOverdue(s, env).mem == s.mem
    decreases |s.stall|
  {
    var a := AdjustStallTimer(s, env);
    if !a.ok {
      UnblockOverdueMemory(WakeFirst(a.state), env);
    }
  }

  lemma AwaitTimerMemory(s: State, t: nat, ticks: Word, env: Env)
    requires Shape(s) && s.ready != [] && s.ready[|s.ready| - 1] == t
    ensures AwaitTimer(s, t, ticks, env).mem == s.mem
  {
    var s1 := EnterStall(s, t, ticks, env);
    UnblockOverdueMemory(AdjustStallTimer(s1, env).state, env);
  }

  lemma ExitThreadMemory(s: State, env: Env)
    requires Inv(s) && UserRunning(s)
    ensures ExitThreadCall(s, env).mem == s.mem
  {
  }

  lemma ReadCharacterMemory(s: State, env: Env)
    requires Inv(s) && UserRunning(s)
    ensures ReadCharacterCall(s, env).mem == s.mem
  {
  }

  lemma StallThreadMemory(s: State, env: Env)
    requires Inv(s) && UserRunning(s)
    ensures StallThreadCall(s, env).mem == s.mem
  {
    var s1 := Yielded(s, env);
    assert s1.mem == s.mem;
    hide Inv, Yielded, AwaitTimer;
    var h := ToHertz(s.cpu.general[0]);
    if !s1.panicked && h.Some? {
      InvShape(Rearmed(s1, env));
      AwaitTimerMemory(Rearmed(s1, env), s.running[0], h.value, env);
    }
  }

  lemma InterruptMemory(s: State, received: Option<Byte>, env: Env)
    requires Inv(s)
    ensures Interrupt(s, received, env).mem == s.mem
  {
    hide *;
    InterruptStages(s, received, env);
    WokenMemory(s, env);
    var s1 := WokenByTimer(s, env);
    SliceEndedMemory(s1, env);
    DeliveredMemory(SliceEnded(s1, env), received);
  }

  lemma WokenMemory(s: State, env: Env)
    requires Inv(s)
    ensures WokenByTimer(s, env).mem == s.mem
  {
    UnblockOverdueMemory(s, env);
  }

  lemma SliceEndedMemory(s: State, env: Env)
    requires Inv(s)
    ensures SliceEnded(s, env).mem == s.mem
  {
    hide Inv;
  }

  lemma DeliveredMemory(s: State, received: Option<Byte>)
    requires Inv(s)
    ensures Deliver(Receive(s, received)).mem == s.mem
  {
    DeliverRest(Receive(s, received));
    hide Inv, Deliver;
  }

  /** The address space a create-process call fills, if it gets that far. */
  function Creates(s: State, e: Event): (r: Option<nat>)
    ensures r.Some? ==> r.value < |s.spaces|
  {
    if s.panicked || !e.Trap? || !UserRunning(s) || CallNumbered(e.number) != Some(CreateProcessCall)
       || e.user.general[2] > STACK_SIZE then None
    else FirstEmptySpace(s.spaces, 0)
  }

  /** A started thread's arguments, if they can be read, change no frame but its stack's. */
  lemma StartCallMemory(s: State, pid: nat, slot: nat, bytes: seq<Byte>, env: Env, f: nat)
    requires Inv(s) && s.finished != [] && pid < s.cfg.spaces && slot < s.cfg.slots && !s.slots[pid][slot]
    requires s.cpu.general[2] <= STACK_SIZE && f < MEMORY_TOP && !StartsAt(s, StartCall(s, pid, slot, bytes, env), f)
    ensures Frame(StartCall(s, pid, slot, bytes, env).mem, f) == Frame(s.mem, f)
  {
    hide *;
    MemorySizes(s);
    StartCallIs(s, pid, slot, bytes, env);
    PanicMemory(s);
    if ArgumentsFetchable(s) {
      StartThreadMemory(s, pid, slot, s.cpu.general[0], Arguments(s, bytes), env, f);
    }
  }

  lemma CreateProcessMemory(s: State, bytes: seq<Byte>, env: Env, f: nat)
    requires Inv(s) && UserRunning(s) && f < MEMORY_TOP && !StartsAt(s, CreateProcessSyscall(s, bytes, env), f)
    ensures |CreateProcessSyscall(s, bytes, env).mem| == MEMORY_SIZE
    ensures var c := if s.cpu.general[2] > STACK_SIZE then None else FirstEmptySpace(s.spaces, 0);
            Frame(CreateProcessSyscall(s, bytes, env).mem, f) ==
            Frame(s.mem, if c.Some? && f == DataFrame(c.value) then UDATA else f)
  {
    hide *;
    MemorySizes(s);
    MemorySizes(CreateProcessSyscall(s, bytes, env));
    CreateRefused(s, bytes, env);
    AnsweredMemory(s, EINVAL);
    AnsweredMemory(s, EBUSY);
    var space := FirstEmptySpace(s.spaces, 0);
    if s.cpu.general[2] <= STACK_SIZE && space.Some? {
      ProcessCall(s, space.value, bytes, env);
      CopyImageStarts(s, space.value, CreateProcessSyscall(s, bytes, env), f);
      StartCallMemory(CopyImage(s, space.value), space.value, 0, bytes, env, f);
      CopyImageMemory(s, space.value, f);
    }
  }

  lemma CopyImageStarts(s: State, space: nat, r: State, f: nat)
    requires Inv(s) && space < s.cfg.spaces
    ensures Shape(s) && StartsAt(CopyImage(s, space), r, f) == StartsAt(s, r, f)
  {
  }

  lemma CreateThreadMemory(s: State, bytes: seq<Byte>, env: Env, f: nat)
    requires Inv(s) && UserRunning(s) && f < MEMORY_TOP && !StartsAt(s, CreateThreadSyscall(s, bytes, env), f)
    ensures |CreateThreadSyscall(s, bytes, env).mem| == MEMORY_SIZE
    ensures Frame(CreateThreadSyscall(s, bytes, env).mem, f) == Frame(s.mem, f)
  {
    hide *;
    MemorySizes(s);
    MemorySizes(CreateThreadSyscall(s, bytes, env));
    CreateRefused(s, bytes, env);
    AnsweredMemory(s, EINVAL);
    AnsweredMemory(s, EBUSY);
    var pid := s.blocks[s.running[0]].pid;
    var slot := FirstEmptySlot(s.slots[pid], 0);
    if s.cpu.general[2] <= STACK_SIZE && slot.Some? {
      ThreadCall(s, slot.value, bytes, env);
      StartCallMemory(s, pid, slot.value, bytes, env, f);
    }
  }

  /** The address space the call fills, if it gets that far. */
  function CallCreates(s: State, call: Call): Option<nat> {
    if call != CreateProcessCall || s.cpu.general[2] > STACK_SIZE then None else FirstEmptySpace(s.spaces, 0)
  }

  lemma DispatchMemory(s: State, call: Call, bytes: seq<Byte>, env: Env, f: nat)
    requires Inv(s) && UserRunning(s) && f < MEMORY_TOP && !StartsAt(s, Dispatch(s, call, bytes, env), f)
    ensures |Dispatch(s, call, bytes, env).mem| == |s.mem| == MEMORY_SIZE
    ensures var c := CallCreates(s, call);
            Frame(Dispatch(s, call, bytes, env).mem, f) ==
            Frame(s.mem, if c.Some? && f == DataFrame(c.value) then UDATA else f)
  {
    hide *;
    MemorySizes(s);
    DispatchCases(s, bytes, env);
    CallsCreate(s);
    match call {
      case ReadCharacter => ReadCharacterMemory(s, env);
      case CreateProcessCall => CreateProcessMemory(s, bytes, env, f);
      case CreateThreadCall => CreateThreadMemory(s, bytes, env, f);
      case StallThread => StallThreadMemory(s, env);
      case ExitThread => ExitThreadMemory(s, env);
      case GetTime => GetTimeMemory(s, env);
      case OutputCharacter =>
      case GetThreadId => AnsweredMemory(s, s.running[0]);
    }
  }

  lemma CallsCreate(s: State)
    ensures forall call :: call != CreateProcessCall ==> CallCreates(s, call) == None
    ensures CallCreates(s, CreateProcessCall) ==
            if s.cpu.general[2] > STACK_SIZE then None else FirstEmptySpace(s.spaces, 0)
  {
  }

  lemma GetTimeMemory(s: State, env: Env)
    requires Inv(s)
    ensures GetTimeCall(s, env).mem == s.mem
  {
  }

  lemma AnsweredMemory(s: State, v: Word)
    requires Inv(s)
    ensures Answered(s, v).mem == s.mem
  {
  }

  /** The running process writes its own data window. */
  predicate StoresData(s: State, e: Event, pid: nat)
    requires Shape(s)
  {
    && !s.panicked && e.Store? && UserRunning(s) && e.va / MiB == UDATA && s.blocks[s.running[0]].pid == pid
  }

  /** The running thread stores to frame `f`. */
  predicate StoresFrame(s: State, e: Event, f: nat)
    requires Shape(s)
  {
    !s.panicked && e.Store? && UserRunning(s) && Target(s, e.va).Some? && Target(s, e.va).value / MiB == f
  }

  lemma StoreMemory(s: State, va: Word, byte: Byte, env: Env, f: nat)
    requires Inv(s) && UserRunning(s) && f < MEMORY_TOP && |s.mem| == MEMORY_SIZE
    requires Target(s, va).Some? ==> Target(s, va).value / MiB != f
    ensures |UserStore(s, va, byte, env).mem| == MEMORY_SIZE
    ensures Frame(UserStore(s, va, byte, env).mem, f) == Frame(s.mem, f)
  {
    var target := Target(s, va);
    if target.Some? {
      var a := target.value;
      assert UserStore(s, va, byte, env).mem == s.mem[a := byte];
      assert a < f * MiB || a >= (f + 1) * MiB;
    } else {
      ExitThreadMemory(s, env);
    }
  }

  /**
    A step changes a frame of memory in three ways only: a new process's frame becomes a copy of the
    image, a new thread's stack gets its arguments, and the running thread may store to it.
   */
  lemma StepMemory(s: State, e: Event, env: Env, f: nat)
    requires Inv(s) && f < MEMORY_TOP
    ensures Shape(s) && |Step(s, e, env).mem| == MEMORY_SIZE
    ensures Creates(s, e).Some? && f == DataFrame(Creates(s, e).value) ==>
            Frame(Step(s, e, env).mem, f) == Frame(s.mem, UDATA)
    ensures !(Creates(s, e).Some? && f == DataFrame(Creates(s, e).value)) && !StoresFrame(s, e, f)
            && !StartsAt(s, Step(s, e, env), f) ==>
              Frame(Step(s, e, env).mem, f) == Frame(s.mem, f)
  {
    hide *;
    MemorySizes(s);
    MemorySizes(Step(s, e, env));
    StartsAbove(s, Step(s, e, env), f);
    CreatedFrame(s, e);
    if s.panicked {
      QuietStep(s, e, env);
    } else if e.Trap? {
      if !StartsAt(s, Step(s, e, env), f) {
        TrapMemory(s, e, env, f);
      }
    } else {
      NothingCreated(s, e);
      OtherMemory(s, e, env, f);
    }
  }

  lemma StartsAbove(s: State, r: State, f: nat)
    ensures f < USER_STACKS ==> !StartsAt(s, r, f)
  {
  }

  lemma CreatedFrame(s: State, e: Event)
    requires Inv(s)
    ensures Creates(s, e).Some? ==> UDATA < DataFrame(Creates(s, e).value) < USER_STACKS
  {
    InvShape(s);
    hide Inv, Creates;
  }

  lemma MemorySizes(s: State)
    requires Inv(s)
    ensures Shape(s) && |s.mem| == MEMORY_SIZE && |s.l1| == L1_SIZE && USER_STACKS < MEMORY_TOP && UDATA < MEMORY_TOP
  {
  }

  lemma QuietStep(s: State, e: Event, env: Env)
    requires Inv(s) && s.panicked
    ensures Step(s, e, env) == s && Creates(s, e) == None
  {
    hide Inv;
  }

  lemma NothingCreated(s: State, e: Event)
    requires !e.Trap?
    ensures Creates(s, e) == None
  {
  }

  /** What a trap creates is what the call it makes creates. */
  lemma TrapCreates(s: State, e: Event)
    requires Inv(s) && !s.panicked && e.Trap?
    ensures Entered(s, e.user).mem == s.mem
    ensures !UserRunning(s) || CallNumbered(e.number) == None ==> Creates(s, e) == None
    ensures UserRunning(s) && CallNumbered(e.number).Some? ==>
            Creates(s, e) == CallCreates(Entered(s, e.user), CallNumbered(e.number).value)
  {
    hide Inv;
  }

  lemma TrapMemory(s: State, e: Event, env: Env, f: nat)
    requires Inv(s) && !s.panicked && e.Trap? && f < MEMORY_TOP && |s.mem| == |Step(s, e, env).mem| == MEMORY_SIZE
    requires !StartsAt(s, Step(s, e, env), f)
    ensures Frame(Step(s, e, env).mem, f) == Frame(s.mem, if Creates(s, e).Some?
            && f == DataFrame(Creates(s, e).value) then UDATA else f)
  {
    hide *;
    TrapStep(s, e.user, e.number, e.bytes, env);
    TrapCreates(s, e);
    var s1 := Entered(s, e.user);
    if !UserRunning(s) {
      PanicMemory(s);
    } else if CallNumbered(e.number).Some? {
      EnteredStarts(s, e.user, Step(s, e, env), f);
      DispatchMemory(s1, CallNumbered(e.number).value, e.bytes, env, f);
    } else {
      ExitThreadMemory(s1, env);
    }
  }

  lemma EnteredStarts(s: State, user: Registers, r: State, f: nat)
    requires Inv(s)
    ensures StartsAt(Entered(s, user), r, f) == StartsAt(s, r, f)
  {
  }

  lemma PanicMemory(s: State)
    requires Inv(s)
    ensures Panic(s).mem == s.mem
  {
  }

  lemma OtherMemory(s: State, e: Event, env: Env, f: nat)
    requires Inv(s) && !s.panicked && !e.Trap? && f < MEMORY_TOP && |s.mem| == |Step(s, e, env).mem| == MEMORY_SIZE
    ensures Shape(s)
    ensures !StoresFrame(s, e, f) ==> Frame(Step(s, e, env).mem, f) == Frame(s.mem, f)
  {
    hide *;
    MemorySizes(s);
    OtherSteps(s, e, env);
    EnteredMemory(s, e);
    match e
    case Abort(user) =>
      PanicMemory(s);
      if UserRunning(s) {
        ExitThreadMemory(Entered(s, user), env);
      }
    case Irq(user, received) => InterruptMemory(Entered(s, user), received, env);
    case Store(va, byte) =>
      if UserRunning(s) && !StoresFrame(s, e, f) {
        StoreElsewhere(s, e, f);
        StoreMemory(s, va, byte, env, f);
      }
    case Tick(d) => ClockedMemory(s, Elapse(s.timer, d));
  }

  lemma EnteredMemory(s: State, e: Event)
    requires Inv(s)
    ensures e.Abort? ==> Entered(s, e.user).mem == s.mem
    ensures e.Irq? ==> Entered(s, e.user).mem == s.mem
  {
  }

  lemma ClockedMemory(s: State, tm: Timer)
    requires Inv(s)
    ensures Clocked(s, tm).mem == s.mem
  {
  }

  lemma StoreElsewhere(s: State, e: Event, f: nat)
    requires Shape(s) && !s.panicked && e.Store? && UserRunning(s) && !StoresFrame(s, e, f)
    ensures Target(s, e.va).Some? ==> Target(s, e.va).value / MiB != f
  {
  }

  // ----- Over runs -----

  /** A store to a data frame comes from its own process, and none goes to the image. */
  lemma DataStores(s: State, e: Event, f: nat)
    requires Inv(s) && f < USER_STACKS && StoresFrame(s, e, f)
    ensures f > UDATA && StoresData(s, e, f - UDATA - 1)
  {
    StoreStaysInUserMemory(s, e.va);
  }

  /** The image new processes start from never changes. */
  lemma {:induction false} ImageNeverChanges(s: State, es: seq<Event>, env: Env)
    requires Inv(s)
    ensures Shape(s) && Shape(Run(s, es, env))
    ensures Frame(Run(s, es, env).mem, UDATA) == Frame(s.mem, UDATA)
    decreases |es|
  {
    hide Inv, Shape, Step, Creates, StoresFrame, Frame;
    MemorySizes(s);
    MemorySizes(Run(s, es, env));
    if es != [] {
      StepMemory(s, es[0], env, UDATA);
      CreatedFrame(s, es[0]);
      StartsAbove(s, Step(s, es[0], env), UDATA);
      if StoresFrame(s, es[0], UDATA) {
        DataStores(s, es[0], UDATA);
      }
      ImageNeverChanges(Step(s, es[0], env), es[1..], env);
    }
  }

  /** Process `pid` neither stores to its data nor is created during the run. */
  ghost predicate Idles(s: State, es: seq<Event>, env: Env, pid: nat)
    requires Inv(s)
    decreases |es|
  {
    es == [] || (Creates(s, es[0]) != Some(pid) && !StoresData(s, es[0], pid)
            && Idles(Step(s, es[0], env), es[1..], env, pid))
  }

  /** Nobody else can change a process's data. */
  lemma {:induction false} DataIsPrivate(s: State, es: seq<Event>, env: Env, pid: nat)
    requires Inv(s) && DataFrame(pid) < UDATA_ORIGINAL && Idles(s, es, env, pid)
    ensures Shape(s) && Shape(Run(s, es, env))
    ensures Frame(Run(s, es, env).mem, DataFrame(pid)) == Frame(s.mem, DataFrame(pid))
    decreases |es|
  {
    hide Inv, Shape, Step, Creates, StoresData, Frame;
    MemorySizes(s);
    MemorySizes(Run(s, es, env));
    if es != [] {
      StepMemory(s, es[0], env, DataFrame(pid));
      StartsAbove(s, Step(s, es[0], env), DataFrame(pid));
      if StoresFrame(s, es[0], DataFrame(pid)) {
        DataStores(s, es[0], DataFrame(pid));
      }
      DataIsPrivate(Step(s, es[0], env), es[1..], env, pid);
    }
  }
}
