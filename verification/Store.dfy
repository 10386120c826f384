/**
  The kernel's global state where it lies: control blocks and list nodes, the tables, memory and
  the devices. `Abs` is its value; each method below is one access the kernel makes, and says what
  it does to the value. Aliasing ends here: whoever calls these methods reasons about values.
 */
module Store {
  import opened Words
  import opened IntrusiveList
  import opened ListGroup
  import opened Mmu
  import opened SysTimer
  import opened RB = RingBuffer
  import opened Model
  import opened Machine
  import opened Steps

  /** The two groups have no node in common. */
  ghost predicate ApartFrom(lists: Group, spaces: Group) {
    && lists != spaces
    && (forall i :: 0 <= i < |spaces.heads| ==> spaces.heads[i] !in lists.heads && spaces.heads[i] !in lists.nodes)
    && (forall i :: 0 <= i < |spaces.nodes| ==> spaces.nodes[i] !in lists.heads && spaces.nodes[i] !in lists.nodes)
  }

  class Kernel {
    const cfg: Config
    const env: Env
    const tables: nat
    // the scheduler nodes and the address-space nodes of the control blocks, with their list heads
    const lists: Group
    const spaces: Group
    const blocks: array<Block>
    const l1: array<L1Entry>
    const mem: array<Byte>
    const timer: Device
    const cache: Buffer
    var slotsUsed: seq<seq<bool>>
    var stackHandles: seq<seq<L1Entry>>
    var regs: Registers
    var panicked: bool
    ghost var stale: set<nat>

    ghost function Nodes(): set<object> {
      Members(lists.heads) + Members(lists.nodes) + Members(spaces.heads) + Members(spaces.nodes)
    }

    ghost function Repr(): set<object> {
      {this, lists, spaces, blocks, l1, mem, timer, cache, cache.data} + Nodes()
    }

    ghost predicate Valid()
      reads this, lists, lists.heads, lists.nodes, spaces, spaces.heads, spaces.nodes, cache, timer
    {
      && lists.Valid() && spaces.Valid() && cache.Valid()
      && |lists.heads| == |lists.q| == 5 && |spaces.heads| == |spaces.q| == cfg.spaces
      && |lists.nodes| == |spaces.nodes| == blocks.Length
      && ApartFrom(lists, spaces)
      && cache.data != mem && cache.data.Length == UART_INPUT_BUFFER_SIZE
      && timer.env == env.delays
    }

    /** The value of the whole state. */
    ghost function Abs(): (s: State)
      requires Valid()
      reads this, lists, lists.heads, lists.nodes, spaces, spaces.heads, spaces.nodes, cache, timer
      reads blocks, l1, mem, cache.data
      ensures s.cfg == cfg && s.tables == tables && |s.blocks| == blocks.Length
    {
      State(cfg, lists.q[RUNNING], lists.q[READY], lists.q[FINISHED], lists.q[INPUT], lists.q[STALL],
            spaces.q, blocks[..], slotsUsed, stackHandles, stale, regs, l1[..], tables, mem[..],
            timer.View(), cache.Contents(), panicked)
    }

    constructor (cfg: Config, env: Env, tables: nat, lists: Group, spaces: Group, blocks: array<Block>,
                 l1: array<L1Entry>, mem: array<Byte>, timer: Device, cache: Buffer,
                 slotsUsed: seq<seq<bool>>, stackHandles: seq<seq<L1Entry>>, regs: Registers)
      requires lists.Valid() && spaces.Valid() && cache.Valid() && ApartFrom(lists, spaces)
      requires |lists.heads| == 5 && |spaces.heads| == cfg.spaces && |lists.nodes| == |spaces.nodes| == blocks.Length
      requires cache.data != mem && cache.data.Length == UART_INPUT_BUFFER_SIZE && timer.env == env.delays
      ensures Valid() && this.lists == lists && this.spaces == spaces && this.blocks == blocks && this.l1 == l1
      ensures this.mem == mem && this.timer == timer && this.cache == cache && this.cfg == cfg && this.env == env
      ensures Abs() == State(cfg, lists.q[RUNNING], lists.q[READY], lists.q[FINISHED], lists.q[INPUT], lists.q[STALL],
                             spaces.q, blocks[..], slotsUsed, stackHandles, {}, regs, l1[..], tables, mem[..],
                             timer.View(), cache.Contents(), false)
    {
      this.cfg, this.env, this.tables, this.lists, this.spaces := cfg, env, tables, lists, spaces;
      this.blocks, this.l1, this.mem, this.timer, this.cache := blocks, l1, mem, timer, cache;
      this.slotsUsed, this.stackHandles, this.regs, panicked, stale := slotsUsed, stackHandles, regs, false, {};
      new;
      hide IsList, Placed, SelfLinked, Group.Layout, Group.NodesOf;
    }

    // ----- Control blocks, registers and tables -----

    method Block(t: nat) returns (b: Block)
      requires Valid() && t < blocks.Length
      ensures Valid() && b == Abs().blocks[t]
    {
      hide Group.Layout, Group.NodesOf, IsList, Placed, SelfLinked, RB.Segment;
      b := blocks[t];
    }

    method Registers() returns (r: Registers)
      requires Valid()
      ensures Valid() && r == Abs().cpu
    {
      hide Group.Layout, Group.NodesOf, IsList, Placed, SelfLinked, RB.Segment;
      r := regs;
    }

    /** `scheduler_stall_cmp` on the blocks as they are now. */
    method StallOrder() returns (order: (nat, nat) -> bool)
      requires Valid()
      ensures order == Model.StallOrder(Abs().blocks)
    {
      order := Model.StallOrder(blocks[..]);
    }

    method SetBlock(t: nat, b: Block)
      requires Valid() && t < blocks.Length
      modifies blocks
      ensures Valid() && Abs() == old(Abs()).(blocks := old(Abs()).blocks[t := b])
    {
      hide Group.Layout, Group.NodesOf, IsList, Placed, SelfLinked, RB.Segment;
      blocks[t] := b;
    }

    method SetRegisters(r: Registers)
      requires Valid()
      modifies this`regs
      ensures Valid() && Abs() == old(Abs()).(cpu := r)
    {
      hide Group.Layout, Group.NodesOf, IsList, Placed, SelfLinked, RB.Segment;
      regs := r;
    }

    /** A failed VERIFY halts the machine. */
    method Halt(failed: bool)
      requires Valid()
      modifies this`panicked
      ensures Valid() && Abs() == old(Abs()).(panicked := failed)
    {
      hide Group.Layout, Group.NodesOf, IsList, Placed, SelfLinked, RB.Segment;
      panicked := failed;
    }

    method Halted() returns (halted: bool)
      requires Valid()
      ensures halted == Abs().panicked
    {
      halted := panicked;
    }

    method SetSlot(p: nat, q: nat, used: bool)
      requires Valid() && p < |Abs().slots| && q < |Abs().slots[p]|
      modifies this`slotsUsed
      ensures Valid() && Abs() == old(Abs()).(slots := old(Abs()).slots[p := old(Abs()).slots[p][q := used]])
    {
      hide Group.Layout, Group.NodesOf, IsList, Placed, SelfLinked, RB.Segment;
      slotsUsed := slotsUsed[p := slotsUsed[p][q := used]];
    }

    method SetHandle(p: nat, q: nat, e: L1Entry)
      requires Valid() && p < |Abs().handles| && q < |Abs().handles[p]|
      modifies this`stackHandles
      ensures Valid() && Abs() == old(Abs()).(handles := old(Abs()).handles[p := old(Abs()).handles[p][q := e]])
    {
      hide Group.Layout, Group.NodesOf, IsList, Placed, SelfLinked, RB.Segment;
      stackHandles := stackHandles[p := stackHandles[p][q := e]];
    }

    /** Slots handed out to the running process after its stack entries were loaded are stale. */
    ghost method MarkStale(p: nat, q: nat)
      requires Valid()
      modifies this`stale
      ensures Valid() && Abs() == old(Abs()).(stale := Stale(old(Abs()), p, q))
    {
      hide Group.Layout, Group.NodesOf, IsList, Placed, SelfLinked, RB.Segment;
      stale := Stale(Abs(), p, q);
    }

    method SlotUsed(p: nat, q: nat) returns (used: bool)
      requires Valid() && p < |Abs().slots| && q < |Abs().slots[p]|
      ensures used == Abs().slots[p][q]
    {
      used := slotsUsed[p][q];
    }

    // ----- Memory, through the kernel's own mappings -----

    /** The physical address behind a kernel address. */
    method Physical(va: nat) returns (pa: nat)
      requires Valid() && va / MiB < |Abs().l1| && Abs().l1[va / MiB].Section?
      ensures pa == KernelAddress(Abs().l1, va)
    {
      pa := l1[va / MiB].base * MiB + va % MiB;
    }

    /** The physical byte a user store reaches, if the tables let it. */
    method StoreTarget(va: Word) returns (a: Option<nat>)
      requires Valid() && Shape(Abs())
      ensures a == Target(Abs(), va)
    {
      var location := Translate(l1[..], tables, va);
      match location {
        case None => return None;
        case Some(loc) => return if UserMayWrite(loc.ap) && loc.address < mem.Length then Some(loc.address) else None;
      }
    }

    /** `k_memcpy` from a caller's pointer; false means that it panics. */
    method CopyArguments(src: Word, to: nat, n: nat, others: seq<Byte>) returns (ok: bool)
      requires Valid() && |Abs().l1| == L1_SIZE && n <= STACK_SIZE && to + n <= |Abs().mem|
      modifies mem
      ensures Valid() && ok == Fetchable(old(Abs()), src, n)
      ensures ok ==> Abs() == old(Abs()).(mem := Stored(old(Abs()).mem, to, Fetched(old(Abs()), src, to, n, others)))
    {
      hide Group.Layout, Group.NodesOf, IsList, Placed, SelfLinked, RB.Segment, Fetched, Fetchable, Stored;
      ok := CopyThroughTables(l1, tables, mem, src, to, n, others, Abs());
    }

    /** A store instruction. */
    method StoreByte(a: nat, byte: Byte)
      requires Valid() && a < |Abs().mem|
      modifies mem
      ensures Valid() && Abs() == old(Abs()).(mem := old(Abs()).mem[a := byte])
    {
      hide Group.Layout, Group.NodesOf, IsList, Placed, SelfLinked, RB.Segment;
      mem[a] := byte;
    }

    /** `k_memcpy` within memory; the two stretches must not overlap. */
    method CopyMemory(from: nat, to: nat, n: nat)
      requires Valid() && from + n <= to && to + n <= |Abs().mem|
      modifies mem
      ensures Valid() && Abs() == old(Abs()).(mem := Stored(old(Abs()).mem, to, old(Abs()).mem[from..from + n]))
    {
      hide Group.Layout, Group.NodesOf, IsList, Placed, SelfLinked, RB.Segment;
      for i := 0 to n
        invariant forall a :: 0 <= a < mem.Length ==>
                mem[a] == if to <= a < to + i then old(mem[from + (a - to)]) else old(mem[a])
      {
        mem[to + i] := mem[from + i];
      }
      assert mem[..] == Stored(old(mem[..]), to, old(mem[from..from + n]));
    }

    // ----- The timer and the serial line -----

    method TimerPending() returns (slice: bool, stall: bool)
      requires Valid()
      ensures slice == Abs().timer.m1 && stall == Abs().timer.m3
    {
      slice, stall := timer.m1, timer.m3;
    }

    method ResetTimer()
      requires Valid()
      modifies timer
      ensures Valid() && Abs() == old(Abs()).(timer := Restart(old(Abs()).timer, env.delays))
    {
      hide Group.Layout, Group.NodesOf, IsList, Placed, SelfLinked, RB.Segment;
      timer.Reset();
    }

    method ReadTimer() returns (v: Word)
      requires Valid()
      modifies timer
      ensures Valid() && Abs() == old(Abs()).(timer := SysTimer.Read(old(Abs()).timer, env.delays))
      ensures v == Abs().timer.clo
    {
      hide Group.Layout, Group.NodesOf, IsList, Placed, SelfLinked, RB.Segment;
      v := timer.Value();
    }

    method DisarmStall()
      requires Valid()
      modifies timer
      ensures Valid() && Abs() == old(Abs()).(timer := old(Abs()).timer.(m3 := false))
    {
      hide Group.Layout, Group.NodesOf, IsList, Placed, SelfLinked, RB.Segment;
      timer.ResetPendingStall();
    }

    method ArmStall(hz: Word) returns (ok: bool)
      requires Valid()
      modifies timer
      ensures Valid() && Abs() == old(Abs()).(timer := InterruptAt(old(Abs()).timer, hz, env.delays).timer)
      ensures ok == InterruptAt(old(Abs()).timer, hz, env.delays).ok
    {
      hide Group.Layout, Group.NodesOf, IsList, Placed, SelfLinked, RB.Segment;
      ok := timer.StallInterruptAt(hz);
    }

    method PassBetweenChecks()
      requires Valid()
      modifies timer
      ensures Valid() && Abs() == old(Abs()).(timer := BetweenChecks(old(Abs()).timer, env.delays))
    {
      hide Group.Layout, Group.NodesOf, IsList, Placed, SelfLinked, RB.Segment;
      timer.PassBetweenChecks();
    }

    method PassTime(d: Word)
      requires Valid()
      modifies timer
      ensures Valid() && Abs() == old(Abs()).(timer := Elapse(old(Abs()).timer, d))
    {
      hide Group.Layout, Group.NodesOf, IsList, Placed, SelfLinked, RB.Segment;
      timer.Pass(d);
    }

    /** `pl001_receive`: a character that does not fit is dropped. */
    method ReceiveCharacter(ch: Byte)
      requires Valid()
      modifies cache, cache.data
      ensures Valid()
      ensures var s := old(Abs());
              Abs() == if |s.uart| < UART_INPUT_BUFFER_SIZE then s.(uart := s.uart + [ch]) else s
    {
      hide Group.Layout, Group.NodesOf, IsList, Placed, SelfLinked, RB.Segment;
      var src := new Byte[1];
      src[0] := ch;
      var n := cache.Write(src, 1);
      assert n == 1 ==> src[..n] == [ch];
    }

    /** `pl001_has_unread_character` */
    method HasUnreadCharacter() returns (unread: bool)
      requires Valid()
      ensures unread <==> Abs().uart != []
    {
      var empty := cache.Empty();
      unread := !empty;
    }

    /** `pl001_read`; its VERIFY holds whenever there is an unread character. */
    method ReadCharacter() returns (ch: Byte)
      requires Valid() && Abs().uart != []
      modifies cache
      ensures Valid() && Abs() == old(Abs()).(uart := old(Abs()).uart[1..]) && ch == old(Abs()).uart[0]
    {
      hide Group.Layout, Group.NodesOf, IsList, Placed, SelfLinked, RB.Segment;
      var dst := new Byte[1];
      var n := cache.Read(dst, 1);
      assert n == 1;
      ch := dst[0];
      assert dst[..1][0] == ch;
    }

    // ----- Lists: what the operations change, and that they change nothing else -----

    method TransferLast(from: nat, to: nat, t: nat, ghost k: nat)
      requires Valid() && from < 5 && to < 5 && from != to && At(Abs(), from, k, t)
      modifies lists, lists.heads, lists.nodes
      ensures Valid() && Abs() == WithList(WithList(old(Abs()), from, RemoveAt(ListOf(old(Abs()), from), k)), to,
              ListOf(old(Abs()), to) + [t])
    {
      hide IsList, Placed, SelfLinked, Group.Layout, Group.NodesOf;
      lists.TransferLast(from, to, t, k);
      assert forall i :: 0 <= i < |spaces.heads| ==> unchanged(spaces.heads[i]);
      assert forall i :: 0 <= i < |spaces.nodes| ==> unchanged(spaces.nodes[i]);
    }

    method TransferFirst(from: nat, to: nat, t: nat, ghost k: nat)
      requires Valid() && from < 5 && to < 5 && from != to && At(Abs(), from, k, t)
      modifies lists, lists.heads, lists.nodes
      ensures Valid() && Abs() == WithList(WithList(old(Abs()), from, RemoveAt(ListOf(old(Abs()), from), k)), to,
              [t] + ListOf(old(Abs()), to))
    {
      hide IsList, Placed, SelfLinked, Group.Layout, Group.NodesOf;
      lists.TransferFirst(from, to, t, k);
      assert forall i :: 0 <= i < |spaces.heads| ==> unchanged(spaces.heads[i]);
      assert forall i :: 0 <= i < |spaces.nodes| ==> unchanged(spaces.nodes[i]);
    }

    method Remove(l: nat, t: nat, ghost k: nat)
      requires Valid() && l < 5 && At(Abs(), l, k, t)
      modifies lists, lists.heads, lists.nodes
      ensures Valid() && Abs() == WithList(old(Abs()), l, RemoveAt(ListOf(old(Abs()), l), k))
    {
      hide IsList, Placed, SelfLinked, Group.Layout, Group.NodesOf;
      lists.Remove(l, t, k);
      assert forall i :: 0 <= i < |spaces.heads| ==> unchanged(spaces.heads[i]);
      assert forall i :: 0 <= i < |spaces.nodes| ==> unchanged(spaces.nodes[i]);
    }

    method AppendFirst(l: nat, t: nat)
      requires Valid() && l < 5 && t < blocks.Length && Unlisted(Abs(), t)
      modifies lists, lists.heads, lists.nodes
      ensures Valid() && Abs() == WithList(old(Abs()), l, [t] + ListOf(old(Abs()), l))
    {
      hide IsList, Placed, SelfLinked, Group.Layout, Group.NodesOf;
      lists.AppendFirst(l, t);
      assert forall i :: 0 <= i < |spaces.heads| ==> unchanged(spaces.heads[i]);
      assert forall i :: 0 <= i < |spaces.nodes| ==> unchanged(spaces.nodes[i]);
    }

    method AppendLast(l: nat, t: nat)
      requires Valid() && l < 5 && t < blocks.Length && Unlisted(Abs(), t)
      modifies lists, lists.heads, lists.nodes
      ensures Valid() && Abs() == WithList(old(Abs()), l, ListOf(old(Abs()), l) + [t])
    {
      hide IsList, Placed, SelfLinked, Group.Layout, Group.NodesOf;
      lists.AppendLast(l, t);
      assert forall i :: 0 <= i < |spaces.heads| ==> unchanged(spaces.heads[i]);
      assert forall i :: 0 <= i < |spaces.nodes| ==> unchanged(spaces.nodes[i]);
    }

    method InsertInOrder(l: nat, t: nat, le: (nat, nat) -> bool)
      requires Valid() && l < 5 && t < blocks.Length && Unlisted(Abs(), t)
      modifies lists, lists.heads, lists.nodes
      ensures Valid() && Abs() == WithList(old(Abs()), l, SortedInsert(ListOf(old(Abs()), l), t, le))
    {
      hide IsList, Placed, SelfLinked, Group.Layout, Group.NodesOf;
      lists.InsertInOrder(l, t, le);
      assert forall i :: 0 <= i < |spaces.heads| ==> unchanged(spaces.heads[i]);
      assert forall i :: 0 <= i < |spaces.nodes| ==> unchanged(spaces.nodes[i]);
    }

    method JoinSpace(p: nat, t: nat)
      requires Valid() && p < cfg.spaces && t < blocks.Length
      requires forall m :: 0 <= m < cfg.spaces ==> t !in Abs().spaces[m]
      modifies spaces, spaces.heads, spaces.nodes
      ensures Valid() && Abs() == old(Abs()).(spaces := old(Abs()).spaces[p := [t] + old(Abs()).spaces[p]])
    {
      hide IsList, Placed, SelfLinked, Group.Layout, Group.NodesOf;
      assert forall m :: 0 <= m < cfg.spaces ==> spaces.q[m] == Abs().spaces[m];
      spaces.AppendFirst(p, t);
      assert forall i :: 0 <= i < |lists.heads| ==> unchanged(lists.heads[i]);
      assert forall i :: 0 <= i < |lists.nodes| ==> unchanged(lists.nodes[i]);
    }

    method LeaveSpace(p: nat, t: nat, ghost k: nat)
      requires Valid() && p < cfg.spaces && k < |Abs().spaces[p]| && Abs().spaces[p][k] == t
      modifies spaces, spaces.heads, spaces.nodes
      ensures Valid() && Abs() == old(Abs()).(spaces := old(Abs()).spaces[p := RemoveAt(old(Abs()).spaces[p], k)])
    {
      hide IsList, Placed, SelfLinked, Group.Layout, Group.NodesOf;
      spaces.Remove(p, t, k);
      assert forall i :: 0 <= i < |lists.heads| ==> unchanged(lists.heads[i]);
      assert forall i :: 0 <= i < |lists.nodes| ==> unchanged(lists.nodes[i]);
    }

    method First(l: nat) returns (t: nat)
      requires Valid() && l < 5 && ListOf(Abs(), l) != []
      ensures At(Abs(), l, 0, t)
    {
      t := lists.First(l);
    }

    method IsEmpty(l: nat) returns (empty: bool)
      requires Valid() && l < 5
      ensures empty <==> ListOf(Abs(), l) == []
    {
      empty := lists.IsEmptyList(l);
    }

    method IsSpaceEmpty(p: nat) returns (empty: bool)
      requires Valid() && p < cfg.spaces
      ensures empty <==> Abs().spaces[p] == []
    {
      empty := spaces.IsEmptyList(p);
    }

    /** The block at position `k` of list `l` is nowhere else. */
    lemma NowhereElse(l: nat, k: nat, t: nat)
      requires Valid() && l < 5 && At(Abs(), l, k, t)
      ensures t < blocks.Length && Unlisted(WithList(Abs(), l, RemoveAt(ListOf(Abs(), l), k)), t)
    {
      hide IsList, SelfLinked, Group.Layout, Group.NodesOf;
      lists.UniqueBlock(l, k);
      assert forall m :: 0 <= m < 5 ==> lists.q[m] == ListOf(Abs(), m);
    }

    /** The reload in `scheduler_round_robin`: the data window and the stack entries of a process. */
    method LoadWindows(pid: nat)
      requires Valid() && TablesFit(Abs())
      modifies l1, this`stale
      ensures Valid()
      ensures var s := old(Abs()); Abs() == s.(l1 := Loaded(s.l1, pid, HandleRow(s, pid, env)), stale := {})
    {
      hide IsList, Placed, SelfLinked, Group.Layout, Group.NodesOf, RB.Segment;
      ghost var row := HandleRow(Abs(), pid, env);
      var n := timer.readings;
      var entries := if pid < cfg.spaces then stackHandles[pid]
                     else seq(cfg.slots, i requires 0 <= i => env.beyond(n, i));
      LoadEntries(l1, pid, entries);
      stale := {};
    }

    /**
      `scheduler_verify_thread_list_integrity`. No structural check can fail; the order of the
      stall list is the only thing it finds out.
     */
    method VerifyThreadListIntegrity() returns (ok: bool)
      requires Valid()
      ensures Valid() && ok == StallSorted(Abs().blocks, Abs().stall)
    {
      hide IsList, Placed, SelfLinked, Group.Layout, Group.NodesOf;
      ok := CheckLists(lists, blocks[..]);
    }
  }

  /** The loop of `scheduler_verify_thread_list_integrity` over the five lists. */
  method CheckLists(lists: Group, blocks: seq<Block>) returns (ok: bool)
    requires lists.Valid() && |lists.heads| == 5 && |blocks| == |lists.nodes|
    ensures ok == StallSorted(blocks, lists.q[STALL])
  {
    hide IsList, SelfLinked, Group.Layout, Group.NodesOf;
    var checked := new bool[|blocks|](i => false);
    var order := [RUNNING, READY, INPUT, STALL, FINISHED];
    ok := true;
    for i := 0 to |order|
      invariant fresh(checked) && lists.Valid()
      invariant forall l, j :: i <= l < |order| && 0 <= j < |lists.q[order[l]]| ==> !checked[lists.q[order[l]][j]]
      invariant ok == (i <= 3 || StallSorted(blocks, lists.q[STALL]))
    {
      var linked := lists.CheckRing(order[i], checked);
      ok := ok && linked;
      if order[i] == STALL {
        var sorted := lists.CheckOrder(STALL, Model.StallOrder(blocks));
        ok := ok && sorted;
      }
    }
  }

  /** The loop of `scheduler_round_robin` that loads the stack entries, after the data window. */
  method LoadEntries(l1: array<L1Entry>, pid: nat, row: seq<L1Entry>)
    requires l1.Length == L1_SIZE && l1[UDATA].Section? && |row| <= 4
    modifies l1
    ensures l1[..] == Loaded(old(l1[..]), pid, row)
  {
    l1[UDATA] := l1[UDATA].(base := UDATA + pid + 1);
    for i := 0 to |row|
      invariant l1[UDATA] == old(l1[UDATA]).(base := UDATA + pid + 1)
      invariant forall m :: 0 <= m < L1_SIZE && m != UDATA ==>
                  l1[m] == if USER_STACKS - i <= m < USER_STACKS then row[USER_STACKS - 1 - m] else old(l1[m])
    {
      l1[USER_STACKS - (i + 1)] := row[i];
    }
    assert l1[..] == Loaded(old(l1[..]), pid, row);
  }

  /** One more byte behind those already stored. */
  lemma StoredMore(mem: seq<Byte>, to: nat, got: seq<Byte>, byte: Byte)
    requires to + |got| < |mem|
    ensures Stored(mem, to, got + [byte]) == Stored(mem, to, got)[to + |got| := byte]
  {
  }

  /** One byte through the page tables, after the bytes `got` have been stored at `to`. */
  method FetchByte(l1: array<L1Entry>, tables: nat, mem: array<Byte>, va: Word, other: Byte,
                   ghost s: State, ghost to: nat, ghost got: seq<Byte>) returns (byte: Option<Byte>)
    requires s.l1 == l1[..] && s.tables == tables && l1.Length == L1_SIZE && mem[..] == Stored(s.mem, to, got)
    ensures byte.Some? <==> KernelReads(s, va)
    ensures byte.Some? ==> byte.value == ByteRead(s, va, to, got, other)
  {
    var location := Translate(l1[..], tables, va);
    if location.None? || !KernelMayRead(location.value.ap) {
      return None;
    }
    var a := location.value.address;
    return Some(if Kept(mem[..], a) then mem[a] else other);
  }

  lemma FetchedMore(s: State, src: Word, to: nat, i: nat, others: seq<Byte>)
    requires |s.l1| == L1_SIZE && i < STACK_SIZE
    ensures var other := if i < |others| then others[i] else 0;
            var got := Fetched(s, src, to, i, others);
            Fetched(s, src, to, i + 1, others) == got + [ByteRead(s, Plus(src, i), to, got, other)]
  {
  }

  /** The copy loop, every byte read through the page tables at the moment it is copied. */
  method CopyThroughTables(l1: array<L1Entry>, tables: nat, mem: array<Byte>, src: Word, to: nat, n: nat,
                           others: seq<Byte>, ghost s: State) returns (ok: bool)
    requires s.l1 == l1[..] && s.tables == tables && s.mem == mem[..] && l1.Length == L1_SIZE
    requires n <= STACK_SIZE && to + n <= mem.Length
    modifies mem
    ensures ok == Fetchable(s, src, n)
    ensures ok ==> mem[..] == Stored(s.mem, to, Fetched(s, src, to, n, others))
  {
    hide Translate, KernelReads, ByteRead, Fetched, Kept;
    if n != 0 && src == 0 {
      return false;
    }
    FetchedNothing(s, src, to, others);
    hide Stored;
    for i := 0 to n
      invariant forall k :: 0 <= k < i ==> KernelReads(s, Plus(src, k))
      invariant mem[..] == Stored(s.mem, to, Fetched(s, src, to, i, others))
    {
      var other := if i < |others| then others[i] else 0;
      ghost var got := Fetched(s, src, to, i, others);
      var byte := FetchByte(l1, tables, mem, Plus(src, i), other, s, to, got);
      if byte.None? {
        return false;
      }
      FetchedMore(s, src, to, i, others);
      StoredMore(s.mem, to, got, byte.value);
      mem[to + i] := byte.value;
    }
    return true;
  }

  lemma FetchedNothing(s: State, src: Word, to: nat, others: seq<Byte>)
    requires |s.l1| == L1_SIZE
    ensures Stored(s.mem, to, Fetched(s, src, to, 0, others)) == s.mem
  {
  }
}
