/** The state `scheduler_initialise` sets up (kernel/scheduler.c:82-116) and every state reached from it. */
module Boot {
  import opened Words
  import opened IntrusiveList
  import opened ListGroup
  import opened Mmu
  import opened SysTimer
  import opened Model
  import opened Invariant
  import opened Preservation
  import opened Machine

  const IDLE_THREAD_SP: Word := (MEMORY_TOP - 5) * MiB

  /** Static storage is zero. */
  const ZERO_REGISTERS: Registers := Registers(Repeat(13, 0), 0, 0, 0)

  /** What the machine and the linker contribute. */
  datatype Platform = Platform(l1: seq<L1Entry>, tables: nat, mem: seq<Byte>, timer: Timer,
                               userMain: Word, haltCpu: Word)

  ghost predicate ValidPlatform(b: Platform) {
    && |b.l1| == L1_SIZE && (forall m :: 0 <= m < L1_SIZE ==> b.l1[m] == MemoryMap(m, b.tables))
    && |b.mem| == MEMORY_SIZE
  }

  function InitialBlock(cfg: Config, tables: nat, haltCpu: Word, i: nat): Block {
    if i < Users(cfg) then Block(ZERO_REGISTERS, NotInitialised, 0, 0, StackHandle(tables, i), 0)
    else Block(ZERO_REGISTERS.(sp := IDLE_THREAD_SP, lr := haltCpu, pc := haltCpu), System, cfg.spaces, 0, Fault, 0)
  }

  function Repeat<T>(n: nat, x: T): seq<T> {
    seq(n, i => x)
  }

  /** All control blocks on the finished list, before the first process. */
  function Unpopulated(cfg: Config, b: Platform): State {
    State(cfg, [], [], UpTo(Users(cfg)), [], [],
          Repeat(cfg.spaces, []),
          seq(Users(cfg) + 1, i requires 0 <= i => InitialBlock(cfg, b.tables, b.haltCpu, i)),
          Repeat(cfg.spaces, Repeat(cfg.slots, false)),
          Repeat(cfg.spaces, Repeat(cfg.slots, Fault)),
          {}, ZERO_REGISTERS, b.l1, b.tables, b.mem, b.timer, [], false)
  }

  lemma {:induction false} CountUpTo(n: nat, t: nat)
    ensures Count(UpTo(n), t) == if t < n then 1 else 0
  {
    if n > 0 {
      CountUpTo(n - 1, t);
      assert UpTo(n) == UpTo(n - 1) + [n - 1];
    }
  }

  lemma UnpopulatedInv(cfg: Config, b: Platform)
    requires ValidPlatform(b)
    ensures Inv(Unpopulated(cfg, b))
  {
    var s := Unpopulated(cfg, b);
    forall t: nat | t < Users(cfg)
      ensures Places(s, t) == 1 && t in s.finished
    {
      CountUpTo(Users(cfg), t);
      CountIn(s.finished, t);
    }
  }

  /** `scheduler_initialise`: the first process runs `user_main` in address space 0. */
  function Initial(cfg: Config, b: Platform, env: Env): (s: State)
    requires ValidPlatform(b)
    ensures Inv(s)
  {
    UnpopulatedInv(cfg, b);
    var s := Unpopulated(cfg, b);
    CopyImageKeepsInv(s, 0);
    StartThreadKeepsInv(CopyImage(s, 0), 0, 0, b.userMain, [], env);
    CreateProcess(s, 0, b.userMain, [], env)
  }

  /**
    Every user thread is on exactly one list, at most one thread runs, idle waits on no list, a thread
    has its place in an address space exactly while it is not finished, and a slot is used exactly
    while one live thread has it, never two.
   */
  ghost predicate WellKept(s: State)
    requires Shape(s)
  {
    && |s.running| <= 1
    && (forall t: nat :: t < Users(s.cfg) ==> Places(s, t) == 1)
    && Idle(s) !in s.ready && Idle(s) !in s.finished && Idle(s) !in s.input && Idle(s) !in s.stall
    && (forall p, t: nat :: 0 <= p < s.cfg.spaces ==> (t in s.spaces[p] <==> Live(s, t) && s.blocks[t].pid == p))
    && (forall p: nat, q: nat :: p < s.cfg.spaces && q < s.cfg.slots ==> (Used(s, p, q) <==> Occupied(s, p, q)))
    && (forall p: nat, q: nat, t: nat, u: nat :: Holds(s, t, p, q) && Holds(s, u, p, q) ==> t == u)
  }

  lemma InvWellKept(s: State)
    requires Inv(s)
    ensures WellKept(s)
  {
    forall p: nat, q: nat | p < s.cfg.spaces && q < s.cfg.slots
      ensures Used(s, p, q) <==> Occupied(s, p, q)
    {
      if Occupied(s, p, q) {
        var t: nat :| Holds(s, t, p, q);
        assert Seated(s, t);
      }
    }
  }

  lemma EveryReachableState(cfg: Config, b: Platform, env: Env, es: seq<Event>)
    requires ValidPlatform(b)
    ensures WellKept(Run(Initial(cfg, b, env), es, env))
  {
    InvWellKept(Run(Initial(cfg, b, env), es, env));
  }
}
