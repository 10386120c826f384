/**
  What every scheduler operation keeps: each user thread is on exactly one list, slot and
  address-space bookkeeping describe exactly the live threads, and the two page-table windows
  belong to the running process.
 */
module Invariant {
  import opened Words
  import opened IntrusiveList
  import opened Mmu
  import opened SysTimer
  import opened Model

  function Count(q: seq<nat>, t: nat): nat {
    multiset(q)[t]
  }

  /** How often `t` occurs on the scheduler's lists. */
  function Places(s: State, t: nat): nat {
    Count(s.running, t) + Count(s.ready, t) + Count(s.finished, t) + Count(s.input, t) + Count(s.stall, t)
  }

  /** Every user thread is on exactly one list, once; idle is running or on no list. */
  ghost predicate Located(s: State) {
    && |s.running| <= 1
    && InRange(s.ready, Users(s.cfg)) && InRange(s.finished, Users(s.cfg))
    && InRange(s.input, Users(s.cfg)) && InRange(s.stall, Users(s.cfg))
    && InRange(s.running, Users(s.cfg) + 1)
    && forall t: nat :: t < Users(s.cfg) ==> Places(s, t) == 1
  }

  predicate Live(s: State, t: nat) {
    t < Users(s.cfg) && t !in s.finished
  }

  predicate Holds(s: State, t: nat, p: nat, q: nat)
    requires |s.blocks| == Users(s.cfg) + 1
  {
    Live(s, t) && s.blocks[t].pid == p && s.blocks[t].slot == q
  }

  /** A live thread runs in user mode in a slot marked used, whose stack handle is its own. */
  ghost predicate Seated(s: State, t: nat)
    requires Shape(s) && t < Users(s.cfg)
  {
    var b := s.blocks[t];
    && b.mode == User && b.pid < s.cfg.spaces && b.slot < s.cfg.slots
    && s.slots[b.pid][b.slot] && s.handles[b.pid][b.slot] == b.handle
  }

  predicate SameSeat(b: Block, c: Block) {
    b.pid == c.pid && b.slot == c.slot
  }

  predicate Used(s: State, p: nat, q: nat)
    requires Shape(s) && p < s.cfg.spaces && q < s.cfg.slots
  {
    s.slots[p][q]
  }

  ghost predicate Occupied(s: State, p: nat, q: nat)
    requires |s.blocks| == Users(s.cfg) + 1
  {
    exists t: nat :: Holds(s, t, p, q)
  }

  /** Slots and space lists describe exactly the live threads. */
  ghost predicate Registered(s: State)
    requires Shape(s)
  {
    && (forall t: nat :: Live(s, t) ==> Seated(s, t))
    && (forall t: nat, u: nat :: Live(s, t) && Live(s, u) && SameSeat(s.blocks[t], s.blocks[u]) ==> t == u)
    && (forall p: nat, q: nat :: p < s.cfg.spaces && q < s.cfg.slots && Used(s, p, q) ==> Occupied(s, p, q))
    && (forall p :: 0 <= p < s.cfg.spaces ==> Distinct(s.spaces[p]))
    && (forall p, t: nat :: 0 <= p < s.cfg.spaces ==> (t in s.spaces[p] <==> Live(s, t) && s.blocks[t].pid == p))
  }

  /** An entry that maps nothing or one user stack. */
  ghost predicate StackEntry(e: L1Entry, tables: nat, n: nat) {
    e == Fault || exists k: nat :: k < n && e == StackHandle(tables, k)
  }

  ghost predicate Tabled(s: State)
    requires Shape(s)
  {
    && (forall t: nat :: t < Users(s.cfg) ==> s.blocks[t].handle == StackHandle(s.tables, t))
    && s.blocks[Idle(s)].mode == System && s.blocks[Idle(s)].pid == s.cfg.spaces
    && (forall p: nat, q: nat :: p < s.cfg.spaces && q < s.cfg.slots ==>
            StackEntry(s.handles[p][q], s.tables, Users(s.cfg)))
    && s.l1[UDATA] == SectionOf(s.l1[UDATA].base, READ_WRITE, READ_WRITE)
    && FixedMap(s.l1, s.tables, s.cfg.slots)
  }

  /** The stack entry for slot `q` maps nothing or a stack, and is the row's unless `q` is stale. */
  ghost predicate ShowsAt(l1: seq<L1Entry>, row: seq<L1Entry>, stale: set<nat>, tables: nat, n: nat, q: nat)
    requires |l1| == L1_SIZE && q < |row| <= 4
  {
    && StackEntry(l1[USER_STACKS - 1 - q], tables, n)
    && (q !in stale ==> l1[USER_STACKS - 1 - q] == row[q])
  }

  ghost predicate Shows(l1: seq<L1Entry>, row: seq<L1Entry>, stale: set<nat>, tables: nat, n: nat)
    requires |l1| == L1_SIZE && |row| <= 4
  {
    forall q: nat :: q < |row| ==> ShowsAt(l1, row, stale, tables, n, q)
  }

  /** Both windows belong to the running process. */
  ghost predicate Windowed(s: State)
    requires Shape(s)
  {
    s.running != [] ==>
      var pid := s.blocks[s.running[0]].pid;
      && s.l1[UDATA].base == UDATA + pid + 1
      && (pid < s.cfg.spaces ==> Shows(s.l1, s.handles[pid], s.stale, s.tables, Users(s.cfg)))
  }

  ghost predicate Inv(s: State) {
    Shape(s) && Located(s) && Registered(s) && Tabled(s) && Windowed(s)
  }

  // ----- Consequences -----

  lemma InvShape(s: State)
    requires Inv(s)
    ensures Shape(s) && |s.running| <= 1 && |s.blocks| == Idle(s) + 1
  {
  }

  lemma CountFirst(q: seq<nat>, t: nat)
    requires q != []
    ensures Count(q, t) == (if q[0] == t then 1 else 0) + Count(q[1..], t)
  {
    assert q == [q[0]] + q[1..];
  }

  lemma CountConcat(p: seq<nat>, q: seq<nat>, t: nat)
    ensures Count(p + q, t) == Count(p, t) + Count(q, t)
  {
  }

  lemma CountIn(q: seq<nat>, t: nat)
    ensures t in q <==> Count(q, t) > 0
  {
  }

  /** A running user thread is live, and so is every thread on the ready, input and stall lists. */
  lemma ListedIsLive(s: State, t: nat)
    requires Located(s) && t < Users(s.cfg)
    ensures t in s.running || t in s.ready || t in s.input || t in s.stall <==> Live(s, t)
    ensures t in s.ready ==> t !in s.running && t !in s.input && t !in s.stall
    ensures t in s.input ==> t !in s.running && t !in s.ready && t !in s.stall
    ensures t in s.stall ==> t !in s.running && t !in s.ready && t !in s.input
  {
    assert Places(s, t) == 1;
    CountIn(s.running, t);
    CountIn(s.ready, t);
    CountIn(s.finished, t);
    CountIn(s.input, t);
    CountIn(s.stall, t);
  }

  // ----- Pigeonhole -----

  ghost function Pairs(a: nat, b: nat): (r: set<(nat, nat)>)
    ensures forall p: nat, q: nat :: (p, q) in r <==> p < a && q < b
  {
    set p: nat, q: nat | p < a && q < b :: (p, q)
  }

  lemma {:induction false} PairCount(a: nat, b: nat)
    ensures |Pairs(a, b)| == a * b
  {
    if a == 0 {
      assert Pairs(a, b) == {};
    } else {
      PairCount(a - 1, b);
      RowCount(a - 1, b);
      assert Pairs(a, b) == Pairs(a - 1, b) + Row(a - 1, b);
      OneMoreRow(a, b);
    }
  }

  lemma OneMoreRow(a: nat, b: nat)
    requires a > 0
    ensures (a - 1) * b + b == a * b
  {
  }

  ghost function Row(p: nat, b: nat): set<(nat, nat)> {
    set q: nat | q < b :: (p, q)
  }

  lemma {:induction false} RowCount(p: nat, b: nat)
    ensures |Row(p, b)| == b
  {
    if b == 0 {
      assert Row(p, b) == {};
    } else {
      RowCount(p, b - 1);
      assert Row(p, b) == Row(p, b - 1) + {(p, b - 1)};
    }
  }

  /** The seats of the first `n` threads. */
  ghost function Seats(s: State, n: nat): set<(nat, nat)>
    requires Shape(s) && n <= Users(s.cfg)
  {
    if n == 0 then {} else Seats(s, n - 1) + {(s.blocks[n - 1].pid, s.blocks[n - 1].slot)}
  }

  lemma {:induction false} NoSuchSeat(s: State, n: nat, x: (nat, nat))
    requires Shape(s) && n <= Users(s.cfg)
    requires forall t: nat :: t < n ==> (s.blocks[t].pid, s.blocks[t].slot) != x
    ensures x !in Seats(s, n)
  {
    if n > 0 {
      NoSuchSeat(s, n - 1, x);
    }
  }

  /** Live threads sit apart. */
  lemma {:induction false} SeatCount(s: State, n: nat)
    requires Shape(s) && Registered(s) && n <= Users(s.cfg) && s.finished == []
    ensures |Seats(s, n)| == n
    ensures Seats(s, n) <= Pairs(s.cfg.spaces, s.cfg.slots)
  {
    if n > 0 {
      SeatCount(s, n - 1);
      var b := s.blocks[n - 1];
      assert Live(s, n - 1) && Seated(s, n - 1);
      forall t: nat | t < n - 1
        ensures (s.blocks[t].pid, s.blocks[t].slot) != (b.pid, b.slot)
      {
        assert Live(s, t);
        assert SameSeat(s.blocks[t], b) ==> t == n - 1;
      }
      NoSuchSeat(s, n - 1, (b.pid, b.slot));
    }
  }

  /** With no thread free every slot of every space is taken. */
  lemma FullHouse(s: State, p: nat, q: nat)
    requires Shape(s) && Registered(s) && s.finished == [] && p < s.cfg.spaces && q < s.cfg.slots
    ensures Used(s, p, q)
  {
    var n := Users(s.cfg);
    SeatCount(s, n);
    PairCount(s.cfg.spaces, s.cfg.slots);
    var all, seats := Pairs(s.cfg.spaces, s.cfg.slots), Seats(s, n);
    assert |all - seats| == |all| - |seats| by {
      assert all == (all - seats) + seats;
    }
    assert (p, q) in all && (p, q) !in all - seats;
    if !(exists t: nat :: t < n && (s.blocks[t].pid, s.blocks[t].slot) == (p, q)) {
      NoSuchSeat(s, n, (p, q));
    }
    var t: nat :| t < n && (s.blocks[t].pid, s.blocks[t].slot) == (p, q);
    assert Live(s, t) && Seated(s, t);
  }

  /**
    A free slot means a free thread: the `VERIFY(!k_is_list_empty(&finished_list))` of both
    create functions cannot fire once a slot has been found.
   */
  lemma FreeSlotMeansFreeThread(s: State, p: nat, q: nat)
    requires Shape(s) && Registered(s) && p < s.cfg.spaces && q < s.cfg.slots && !s.slots[p][q]
    ensures s.finished != []
  {
    if s.finished == [] {
      FullHouse(s, p, q);
    }
  }

  lemma TakenSlotHasThread(s: State, p: nat, q: nat)
    requires Shape(s) && Registered(s) && p < s.cfg.spaces && q < s.cfg.slots && Used(s, p, q)
    ensures s.spaces[p] != []
  {
    assert Occupied(s, p, q);
    var t: nat :| Holds(s, t, p, q);
    assert t in s.spaces[p];
  }

  /** An empty address space has all its slots free, so it too means a free thread. */
  lemma EmptySpaceMeansFreeThread(s: State, p: nat)
    requires Shape(s) && Registered(s) && p < s.cfg.spaces && s.spaces[p] == []
    ensures s.finished != [] && forall q :: 0 <= q < s.cfg.slots ==> !s.slots[p][q]
  {
    forall q: nat | q < s.cfg.slots
      ensures !s.slots[p][q]
    {
      if Used(s, p, q) {
        TakenSlotHasThread(s, p, q);
      }
    }
    FreeSlotMeansFreeThread(s, p, 0);
  }
}
