/** `scheduler_initialise` and the static storage it works on: the state `Boot.Initial` is really built. */
module Startup {
  import opened Words
  import opened IntrusiveList
  import opened ListGroup
  import opened Mmu
  import opened SysTimer
  import opened RB = RingBuffer
  import opened Model
  import opened Invariant
  import opened Machine
  import opened Boot
  import opened Steps
  import opened Store
  import Scheduler

  method NewHeads(n: nat) returns (heads: seq<Node>)
    ensures |heads| == n && Distinct(heads) && forall i :: 0 <= i < n ==> fresh(heads[i]) && IsList(heads[i], [])
  {
    heads := [];
    for i := 0 to n
      invariant |heads| == i && Distinct(heads) && forall j :: 0 <= j < i ==> fresh(heads[j]) && IsList(heads[j], [])
    {
      var h := new Node.Head();
      heads := heads + [h];
    }
  }

  method NewNodes(n: nat) returns (nodes: seq<Node>)
    ensures |nodes| == n && forall t :: 0 <= t < n ==> fresh(nodes[t]) && nodes[t].block == t && SelfLinked(nodes[t])
  {
    nodes := [];
    for i := 0 to n
      invariant |nodes| == i
      invariant forall t :: 0 <= t < i ==> fresh(nodes[t]) && nodes[t].block == t && SelfLinked(nodes[t])
    {
      var x := new Node.Detached(i);
      nodes := nodes + [x];
    }
  }

  method NewGroup(lists: nat, blocks: nat) returns (g: Group)
    ensures fresh(g) && g.Valid() && |g.heads| == lists && |g.nodes| == blocks
    ensures |g.q| == lists && forall l :: 0 <= l < lists ==> g.q[l] == []
    ensures forall i :: 0 <= i < lists ==> fresh(g.heads[i])
    ensures forall i :: 0 <= i < blocks ==> fresh(g.nodes[i])
  {
    var heads := NewHeads(lists);
    var nodes := NewNodes(blocks);
    g := new Group(heads, nodes);
  }

  /** The input buffer's size is a power of two. */
  method NewCache() returns (cache: Buffer)
    ensures fresh(cache) && fresh(cache.data) && cache.Valid() && cache.Contents() == []
    ensures cache.data.Length == UART_INPUT_BUFFER_SIZE
  {
    var data := new Byte[UART_INPUT_BUFFER_SIZE];
    assert Pow2(7) == UART_INPUT_BUFFER_SIZE by { assert Pow2(4) == 16; }
    PowerOfTwoTest(UART_INPUT_BUFFER_SIZE);
    cache := new Buffer(data);
  }

  /** The list heads and nodes of the control blocks: all user threads finished, no process yet. */
  method NewLists(cfg: Config) returns (lists: Group, spaces: Group)
    ensures fresh(lists) && fresh(spaces) && lists.Valid() && spaces.Valid() && ApartFrom(lists, spaces)
    ensures |lists.heads| == 5 && |spaces.heads| == cfg.spaces && |lists.nodes| == |spaces.nodes| == Users(cfg) + 1
    ensures lists.q == [[], [], UpTo(Users(cfg)), [], []] && spaces.q == Repeat(cfg.spaces, [])
    ensures fresh(Members(lists.heads)) && fresh(Members(lists.nodes))
    ensures fresh(Members(spaces.heads)) && fresh(Members(spaces.nodes))
  {
    hide IsList, Placed, SelfLinked, Group.Layout, Group.NodesOf;
    var n := Users(cfg);
    lists := NewGroup(5, n + 1);
    lists.LinkAll(FINISHED, n);
    assert lists.q == [[], [], UpTo(n), [], []];
    spaces := NewGroup(cfg.spaces, n + 1);
    assert spaces.q == Repeat(cfg.spaces, []);
  }

  method NewTables(tables: nat) returns (l1: array<L1Entry>)
    ensures fresh(l1) && l1.Length == L1_SIZE && forall m :: 0 <= m < L1_SIZE ==> l1[m] == MemoryMap(m, tables)
  {
    l1 := new L1Entry[L1_SIZE](i => Fault);
    InitialiseL1Table(l1, tables);
  }

  method NewBlocks(cfg: Config, tables: nat, haltCpu: Word) returns (blocks: array<Block>)
    ensures fresh(blocks)
    ensures blocks[..] == seq(Users(cfg) + 1, i requires 0 <= i => InitialBlock(cfg, tables, haltCpu, i))
  {
    blocks := new Block[Users(cfg) + 1](i requires 0 <= i => InitialBlock(cfg, tables, haltCpu, i));
  }

  /** The kernel's state before the first process exists. */
  method NewKernel(cfg: Config, env: Env, tables: nat, mem: array<Byte>, timer: Device, userMain: Word, haltCpu: Word)
    returns (k: Kernel, ghost b: Platform)
    requires mem.Length == MEMORY_SIZE && timer.env == env.delays
    ensures b == Platform(b.l1, tables, mem[..], timer.View(), userMain, haltCpu) && ValidPlatform(b)
    ensures k.Valid() && k.cfg == cfg && k.env == env && k.Abs() == Unpopulated(cfg, b)
    ensures fresh(k.Nodes()) && k.mem == mem && k.timer == timer
    ensures fresh(k) && fresh(k.lists) && fresh(k.spaces) && fresh(k.blocks) && fresh(k.l1) && fresh(k.cache)
            && fresh(k.cache.data)
  {
    hide IsList, Placed, SelfLinked, Group.Layout, Group.NodesOf, RB.Segment, Kernel.Valid, Kernel.Abs, Members;
    var l1 := NewTables(tables);
    b := Platform(l1[..], tables, mem[..], timer.View(), userMain, haltCpu);
    var blocks := NewBlocks(cfg, tables, haltCpu);
    var cache := NewCache();
    var lists, spaces := NewLists(cfg);
    k := new Kernel(cfg, env, tables, lists, spaces, blocks, l1, mem, timer, cache,
      Repeat(cfg.spaces, Repeat(cfg.slots, false)), Repeat(cfg.spaces, Repeat(cfg.slots, Fault)), ZERO_REGISTERS);
  }

  /** `scheduler_initialise`: sets up the lists and starts the first process. */
  method Initialise(cfg: Config, env: Env, tables: nat, mem: array<Byte>, timer: Device, userMain: Word, haltCpu: Word)
    returns (k: Kernel, ghost b: Platform)
    requires mem.Length == MEMORY_SIZE && timer.env == env.delays
    modifies mem, timer
    ensures b == Platform(b.l1, tables, old(mem[..]), old(timer.View()), userMain, haltCpu) && ValidPlatform(b)
    ensures k.Valid() && k.cfg == cfg && k.env == env && k.Abs() == Initial(cfg, b, env)
  {
    k, b := NewKernel(cfg, env, tables, mem, timer, userMain, haltCpu);
    assert fresh(k.Repr() - {mem, timer});
    UnpopulatedInv(cfg, b);
    hide *;
    InitialSteps(cfg, b, env);
    var _ := Scheduler.CreateProcess(k, 0, userMain, 0, 0, []);
  }

  lemma InitialSteps(cfg: Config, b: Platform, env: Env)
    requires ValidPlatform(b)
    ensures CanStart(Unpopulated(cfg, b), 0, 0, 0)
    ensures var s := Unpopulated(cfg, b);
            && Shape(s) && s.finished != [] && |CopyImage(s, 0).l1| == L1_SIZE && Fetchable(CopyImage(s, 0), 0, 0)
            && Initial(cfg, b, env) == CreatedProcess(s, 0, b.userMain, 0, 0, [], env)
  {
    UnpopulatedInv(cfg, b);
    var s := Unpopulated(cfg, b);
    assert s.finished != [];
    MayStart(s, 0, 0, 0);
  }
}
