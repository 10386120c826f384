/** Each scheduler operation keeps the invariant. */
module Preservation {
  import opened Words
  import opened IntrusiveList
  import opened Mmu
  import opened SysTimer
  import opened Model
  import opened Invariant

  /** Bookkeeping depends on nothing but the finished list, the tables and who sits where. */
  ghost predicate SameSeats(s: State, r: State) {
    && r.cfg == s.cfg && r.finished == s.finished && r.spaces == s.spaces
    && r.slots == s.slots && r.handles == s.handles && r.tables == s.tables
    && |r.blocks| == |s.blocks|
    && forall t: nat :: t < |s.blocks| ==>
         && SameSeat(s.blocks[t], r.blocks[t])
         && r.blocks[t].mode == s.blocks[t].mode && r.blocks[t].handle == s.blocks[t].handle
  }

  lemma RegisteredFrame(s: State, r: State)
    requires Shape(s) && Shape(r) && Registered(s) && SameSeats(s, r)
    ensures Registered(r)
  {
    assert forall t: nat :: Live(r, t) <==> Live(s, t);
    forall p: nat, q: nat | p < r.cfg.spaces && q < r.cfg.slots && Used(r, p, q)
      ensures Occupied(r, p, q)
    {
      assert Used(s, p, q) && Occupied(s, p, q);
      var t: nat :| Holds(s, t, p, q);
      assert Holds(r, t, p, q);
    }
  }

  lemma TabledFrame(s: State, r: State)
    requires Shape(s) && Shape(r) && Tabled(s) && SameSeats(s, r)
    requires r.l1[UDATA] == s.l1[UDATA].(base := r.l1[UDATA].base)
    requires forall m: nat :: m < L1_SIZE && m != UDATA && !(USER_STACKS - s.cfg.slots <= m < USER_STACKS) ==>
            r.l1[m] == s.l1[m]
    ensures Tabled(r)
  {
  }

  // ----- Round robin -----

  /** A forced switch comes from a syscall, and only user threads make those. */
  ghost predicate MaySwitch(s: State, forced: bool) {
    forced ==> s.running != [] && s.running[0] < Users(s.cfg)
  }

  /** The switch only moves user threads about. */
  lemma RoundRobinMoves(s: State, forced: bool, env: Env, t: nat)
    requires Shape(s) && |s.running| <= 1 && t < Users(s.cfg) && Switches(s, forced)
    ensures Places(RoundRobin(s, forced, env), t) == Places(s, t)
  {
    var r := RoundRobin(s, forced, env);
    var ready := if s.ready == [] then [Idle(s)] else s.ready;
    var back := if s.running != [] && s.running[0] != Idle(s) then [s.running[0]] else [];
    hide *;
    RoundRobinLists(s, forced, env);
    CountFirst(ready, t);
    CountConcat(ready[1..], back, t);
    CountShort(s.ready, t);
    CountShort(ready, t);
    CountShort(back, t);
    CountShort(s.running, t);
    CountShort(r.running, t);
    PlacesAre(s, t);
    PlacesAre(r, t);
  }

  lemma CountShort(q: seq<nat>, t: nat)
    ensures |q| <= 1 ==> Count(q, t) == if q != [] && q[0] == t then 1 else 0
  {
    if |q| == 1 {
      assert q == [q[0]];
    }
  }

  lemma PlacesAre(s: State, t: nat)
    ensures Places(s, t) ==
            Count(s.running, t) + Count(s.ready, t) + Count(s.finished, t) + Count(s.input, t) + Count(s.stall, t)
  {
    hide Count;
  }

  lemma RoundRobinLists(s: State, forced: bool, env: Env)
    requires Shape(s) && Switches(s, forced)
    ensures var r := RoundRobin(s, forced, env);
            var ready := if s.ready == [] then [Idle(s)] else s.ready;
            var back := if s.running != [] && s.running[0] != Idle(s) then [s.running[0]] else [];
            && r.ready == ready[1..] + back && r.running == [ready[0]]
            && r.finished == s.finished && r.input == s.input && r.stall == s.stall && Idle(s) == Users(s.cfg)
  {
  }

  lemma RoundRobinLocated(s: State, forced: bool, env: Env)
    requires Inv(s) && MaySwitch(s, forced)
    ensures Located(RoundRobin(s, forced, env))
  {
    if Switches(s, forced) {
      forall t: nat | t < Users(s.cfg)
        ensures Places(RoundRobin(s, forced, env), t) == 1
      {
        RoundRobinMoves(s, forced, env, t);
        assert Places(s, t) == 1;
      }
    }
  }

  lemma RoundRobinWindowed(s: State, forced: bool, env: Env)
    requires Inv(s) && MaySwitch(s, forced)
    ensures Windowed(RoundRobin(s, forced, env))
  {
    var r := RoundRobin(s, forced, env);
    if Switches(s, forced) {
      var next := r.running[0];
      var pid := s.blocks[next].pid;
      assert r.blocks[next].pid == pid;
      if pid < s.cfg.spaces {
        if s.running == [] || s.blocks[s.running[0]].pid != pid {
          LoadedShows(s.l1, pid, s.handles[pid], s.tables, Users(s.cfg));
        } else {
          assert Shows(s.l1, s.handles[pid], s.stale, s.tables, Users(s.cfg));
        }
      }
    }
  }

  lemma LoadedShows(l1: seq<L1Entry>, pid: nat, row: seq<L1Entry>, tables: nat, n: nat)
    requires |l1| == L1_SIZE && l1[UDATA].Section? && |row| <= 4
    requires forall q: nat :: q < |row| ==> StackEntry(row[q], tables, n)
    ensures Shows(Loaded(l1, pid, row), row, {}, tables, n)
  {
    forall q: nat | q < |row|
      ensures Loaded(l1, pid, row)[USER_STACKS - 1 - q] == row[q]
    {
    }
  }

  lemma RoundRobinKeepsInv(s: State, forced: bool, env: Env)
    requires Inv(s) && MaySwitch(s, forced)
    ensures Inv(RoundRobin(s, forced, env))
  {
    var r := RoundRobin(s, forced, env);
    RoundRobinLocated(s, forced, env);
    RoundRobinWindowed(s, forced, env);
    RegisteredFrame(s, r);
    TabledFrame(s, r);
  }

  // ----- Moves between the ready, input and stall lists -----

  lemma MoveKeepsInv(s: State, r: State)
    requires Inv(s) && Shape(r) && SameSeats(s, r)
    requires r.running == s.running && r.l1 == s.l1 && r.stale == s.stale
    requires InRange(r.ready, Users(s.cfg)) && InRange(r.input, Users(s.cfg)) && InRange(r.stall, Users(s.cfg))
    requires forall t: nat :: t < Users(s.cfg) ==> Places(r, t) == Places(s, t)
    ensures Inv(r)
  {
    RegisteredFrame(s, r);
    TabledFrame(s, r);
  }

  /** Registers, memory, timer, input buffer and the halt flag are none of the invariant's concern. */
  lemma DetailsKeepInv(s: State, r: State)
    requires Inv(s) && |r.mem| == |s.mem|
    requires r == s.(cpu := r.cpu, mem := r.mem, timer := r.timer, uart := r.uart, panicked := r.panicked)
    ensures Inv(r)
  {
    forall t: nat | t < Users(s.cfg)
      ensures Places(r, t) == Places(s, t)
    {
    }
    MoveKeepsInv(s, r);
  }

  lemma CopyImageKeepsInv(s: State, space: nat)
    requires Inv(s) && space < s.cfg.spaces
    ensures Inv(CopyImage(s, space))
  {
    MoveKeepsInv(s, CopyImage(s, space));
  }

  lemma AwaitInputKeepsInv(s: State, t: nat)
    requires Inv(s) && s.ready != [] && s.ready[|s.ready| - 1] == t
    ensures Inv(AwaitInput(s, t))
  {
    var r := AwaitInput(s, t);
    assert s.ready == r.ready + [t];
    forall u: nat | u < Users(s.cfg)
      ensures Places(r, u) == Places(s, u)
    {
      CountConcat(r.ready, [t], u);
      CountConcat(s.input, [t], u);
    }
    MoveKeepsInv(s, r);
  }

  lemma UnblockFirstInputKeepsInv(s: State, ch: Byte)
    requires Inv(s) && s.input != []
    ensures Inv(UnblockFirstInput(s, ch))
  {
    var r := UnblockFirstInput(s, ch);
    forall u: nat | u < Users(s.cfg)
      ensures Places(r, u) == Places(s, u)
    {
      CountFirst(s.input, u);
      CountConcat(s.ready, [s.input[0]], u);
    }
    MoveKeepsInv(s, r);
  }

  lemma AdjustStallTimerKeepsInv(s: State, env: Env)
    requires Inv(s)
    ensures Inv(AdjustStallTimer(s, env).state)
  {
    MoveKeepsInv(s, AdjustStallTimer(s, env).state);
  }

  lemma WakeFirstKeepsInv(s: State)
    requires Inv(s) && s.stall != []
    ensures Inv(WakeFirst(s))
  {
    var r := WakeFirst(s);
    forall u: nat | u < Users(s.cfg)
      ensures Places(r, u) == Places(s, u)
    {
      CountFirst(s.stall, u);
      CountConcat(s.ready, [s.stall[0]], u);
    }
    MoveKeepsInv(s, r);
  }

  lemma {:induction false} UnblockOverdueKeepsInv(s: State, env: Env)
    requires Inv(s)
    ensures Inv(UnblockOverdue(s, env))
    decreases |s.stall|
  {
    var a := AdjustStallTimer(s, env);
    AdjustStallTimerKeepsInv(s, env);
    if !a.ok {
      WakeFirstKeepsInv(a.state);
      UnblockOverdueKeepsInv(WakeFirst(a.state), env);
    }
  }

  lemma CountInsert(q: seq<nat>, k: nat, t: nat, u: nat)
    requires k <= |q|
    ensures Count(InsertAt(q, k, t), u) == Count(q, u) + (if t == u then 1 else 0)
  {
    assert q == q[..k] + q[k..];
  }

  lemma EnterStallMoves(s: State, t: nat, ticks: Word, env: Env, u: nat)
    requires Shape(s) && s.ready != [] && s.ready[|s.ready| - 1] == t
    ensures Places(EnterStall(s, t, ticks, env), u) == Places(s, u)
  {
    var r := EnterStall(s, t, ticks, env);
    assert s.ready == r.ready + [t];
    CountConcat(r.ready, [t], u);
    CountInsert(s.stall, SortedPosition(s.stall, t, StallOrder(r.blocks)), t, u);
  }

  lemma EnterStallKeepsInv(s: State, t: nat, ticks: Word, env: Env)
    requires Inv(s) && s.ready != [] && s.ready[|s.ready| - 1] == t
    ensures Inv(EnterStall(s, t, ticks, env))
  {
    forall u: nat | u < Users(s.cfg)
      ensures Places(EnterStall(s, t, ticks, env), u) == Places(s, u)
    {
      EnterStallMoves(s, t, ticks, env, u);
    }
    MoveKeepsInv(s, EnterStall(s, t, ticks, env));
  }

  lemma AwaitTimerKeepsInv(s: State, t: nat, ticks: Word, env: Env)
    requires Inv(s) && s.ready != [] && s.ready[|s.ready| - 1] == t
    ensures Inv(AwaitTimer(s, t, ticks, env))
  {
    var s1 := EnterStall(s, t, ticks, env);
    EnterStallKeepsInv(s, t, ticks, env);
    if s1.stall[0] == t {
      AdjustStallTimerKeepsInv(s1, env);
      UnblockOverdueKeepsInv(AdjustStallTimer(s1, env).state, env);
    }
  }

  // ----- Threads starting and ending -----

  lemma StartThreadRegistered(s: State, pid: nat, slot: nat, func: Word, args: seq<Byte>, env: Env)
    requires Inv(s) && s.finished != [] && pid < s.cfg.spaces && slot < s.cfg.slots && |args| <= STACK_SIZE
    requires !s.slots[pid][slot]
    ensures Registered(StartThread(s, pid, slot, func, args, env))
  {
    StartThreadSeats(s, pid, slot, func, args, env);
    StartThreadApart(s, pid, slot, func, args, env);
    StartThreadSlots(s, pid, slot, func, args, env);
    StartThreadSpaces(s, pid, slot, func, args, env);
    hide Inv, Seated, Occupied, Used, Live, SameSeat, StartThread, Distinct;
  }

  lemma StartThreadApart(s: State, pid: nat, slot: nat, func: Word, args: seq<Byte>, env: Env)
    requires Inv(s) && s.finished != [] && pid < s.cfg.spaces && slot < s.cfg.slots && |args| <= STACK_SIZE
    requires !s.slots[pid][slot]
    ensures var r := StartThread(s, pid, slot, func, args, env);
            forall u: nat, v: nat :: Live(r, u) && Live(r, v) && SameSeat(r.blocks[u], r.blocks[v]) ==> u == v
  {
    StartThreadLives(s, pid, slot, func, args, env);
    StartThreadSeats(s, pid, slot, func, args, env);
    var r := StartThread(s, pid, slot, func, args, env);
    forall u: nat, v: nat | Live(r, u) && Live(r, v) && SameSeat(r.blocks[u], r.blocks[v])
      ensures u == v
    {
      if u != s.finished[0] && v != s.finished[0] {
        assert Live(s, u) && Live(s, v) && SameSeat(s.blocks[u], s.blocks[v]);
      }
    }
  }

  lemma StartThreadSpaces(s: State, pid: nat, slot: nat, func: Word, args: seq<Byte>, env: Env)
    requires Inv(s) && s.finished != [] && pid < s.cfg.spaces && slot < s.cfg.slots && |args| <= STACK_SIZE
    ensures var r := StartThread(s, pid, slot, func, args, env);
            && (forall p :: 0 <= p < r.cfg.spaces ==> Distinct(r.spaces[p]))
            && (forall p, u: nat :: 0 <= p < r.cfg.spaces ==>
                    (u in r.spaces[p] <==> Live(r, u) && r.blocks[u].pid == p))
  {
    StartThreadLives(s, pid, slot, func, args, env);
    var r, t := StartThread(s, pid, slot, func, args, env), s.finished[0];
    assert t !in s.spaces[pid];
    forall p, u: nat | 0 <= p < r.cfg.spaces
      ensures u in r.spaces[p] <==> Live(r, u) && r.blocks[u].pid == p
    {
      assert u in s.spaces[p] <==> Live(s, u) && s.blocks[u].pid == p;
    }
  }

  lemma StartThreadSeats(s: State, pid: nat, slot: nat, func: Word, args: seq<Byte>, env: Env)
    requires Inv(s) && s.finished != [] && pid < s.cfg.spaces && slot < s.cfg.slots && |args| <= STACK_SIZE
    requires !s.slots[pid][slot]
    ensures var r := StartThread(s, pid, slot, func, args, env);
            forall u: nat :: Live(r, u) ==> Seated(r, u) && (u != s.finished[0] ==>
                    !SameSeat(r.blocks[u], r.blocks[s.finished[0]]))
  {
    StartThreadLives(s, pid, slot, func, args, env);
    var r, t := StartThread(s, pid, slot, func, args, env), s.finished[0];
    forall u: nat | Live(r, u)
      ensures Seated(r, u) && (u != t ==> !SameSeat(r.blocks[u], r.blocks[t]))
    {
      assert u != t ==> Seated(s, u);
    }
  }

  lemma StartThreadSlots(s: State, pid: nat, slot: nat, func: Word, args: seq<Byte>, env: Env)
    requires Inv(s) && s.finished != [] && pid < s.cfg.spaces && slot < s.cfg.slots && |args| <= STACK_SIZE
    ensures var r := StartThread(s, pid, slot, func, args, env);
            forall p: nat, q: nat :: p < r.cfg.spaces && q < r.cfg.slots && Used(r, p, q) ==> Occupied(r, p, q)
  {
    StartThreadLives(s, pid, slot, func, args, env);
    var r, t := StartThread(s, pid, slot, func, args, env), s.finished[0];
    forall p: nat, q: nat | p < r.cfg.spaces && q < r.cfg.slots && Used(r, p, q)
      ensures Occupied(r, p, q)
    {
      if p == pid && q == slot {
        assert Holds(r, t, p, q);
      } else {
        assert Used(s, p, q) && Occupied(s, p, q);
        var u: nat :| Holds(s, u, p, q);
        assert Holds(r, u, p, q);
      }
    }
  }

  lemma StartThreadLives(s: State, pid: nat, slot: nat, func: Word, args: seq<Byte>, env: Env)
    requires Inv(s) && s.finished != [] && pid < s.cfg.spaces && slot < s.cfg.slots && |args| <= STACK_SIZE
    ensures !Live(s, s.finished[0])
    ensures forall u: nat :: Live(StartThread(s, pid, slot, func, args, env), u) <==> Live(s, u) || u == s.finished[0]
  {
    var t := s.finished[0];
    assert Places(s, t) == 1;
    CountFirst(s.finished, t);
    CountIn(s.finished[1..], t);
    forall u: nat
      ensures u in s.finished <==> u == t || u in s.finished[1..]
    {
      CountFirst(s.finished, u);
      CountIn(s.finished[1..], u);
      CountIn(s.finished, u);
    }
  }

  lemma StartThreadLocated(s: State, pid: nat, slot: nat, func: Word, args: seq<Byte>, env: Env)
    requires Inv(s) && s.finished != [] && pid < s.cfg.spaces && slot < s.cfg.slots && |args| <= STACK_SIZE
    ensures Located(StartThread(s, pid, slot, func, args, env))
  {
    var r := StartThread(s, pid, slot, func, args, env);
    forall u: nat | u < Users(s.cfg)
      ensures Places(r, u) == 1
    {
      assert Places(s, u) == 1;
      CountFirst(s.finished, u);
      CountConcat(s.ready, [s.finished[0]], u);
    }
  }

  lemma StartThreadWindowed(s: State, pid: nat, slot: nat, func: Word, args: seq<Byte>, env: Env)
    requires Inv(s) && s.finished != [] && pid < s.cfg.spaces && slot < s.cfg.slots && |args| <= STACK_SIZE
    ensures Windowed(StartThread(s, pid, slot, func, args, env))
  {
    if s.running != [] {
      var t, u := s.finished[0], s.running[0];
      assert t != u by {
        assert Places(s, t) == 1;
        CountIn(s.running, t);
        CountIn(s.finished, t);
      }
      var p := s.blocks[u].pid;
      if p < s.cfg.spaces {
        ShowsUpdate(s.l1, s.handles[p], s.stale, slot, s.blocks[t].handle, s.tables, Users(s.cfg));
      }
    }
  }

  lemma ShowsUpdate(l1: seq<L1Entry>, row: seq<L1Entry>, stale: set<nat>, q: nat, e: L1Entry, tables: nat, n: nat)
    requires |l1| == L1_SIZE && q < |row| <= 4 && Shows(l1, row, stale, tables, n)
    ensures Shows(l1, row[q := e], stale + {q}, tables, n)
  {
    var newRow, newStale := row[q := e], stale + {q};
    forall i: nat | i < |row|
      ensures ShowsAt(l1, newRow, newStale, tables, n, i)
    {
      assert ShowsAt(l1, row, stale, tables, n, i);
    }
  }

  lemma StartThreadKeepsInv(s: State, pid: nat, slot: nat, func: Word, args: seq<Byte>, env: Env)
    requires Inv(s) && s.finished != [] && pid < s.cfg.spaces && slot < s.cfg.slots && |args| <= STACK_SIZE
    requires !s.slots[pid][slot]
    ensures Inv(StartThread(s, pid, slot, func, args, env))
  {
    StartThreadRegistered(s, pid, slot, func, args, env);
    StartThreadLocated(s, pid, slot, func, args, env);
    StartThreadWindowed(s, pid, slot, func, args, env);
  }

  /** What the syscall has checked: the caller exists, is a user thread and is registered. */
  lemma RunningIsSeated(s: State)
    requires Inv(s) && s.running != [] && s.running[0] < Users(s.cfg)
    ensures var t := s.running[0]; Live(s, t) && Seated(s, t) && t in s.spaces[s.blocks[t].pid]
  {
    ListedIsLive(s, s.running[0]);
  }

  lemma CleanupRegistered(s: State)
    requires Inv(s) && s.running != [] && s.running[0] < Users(s.cfg)
    requires var b := s.blocks[s.running[0]];
             b.pid < s.cfg.spaces && b.slot < s.cfg.slots && s.running[0] in s.spaces[b.pid]
    ensures Registered(CleanupThread(s))
  {
    var r := CleanupThread(s);
    var t := s.running[0];
    var b := s.blocks[t];
    RunningIsSeated(s);
    assert forall u: nat :: Live(r, u) <==> Live(s, u) && u != t;
    forall u: nat | Live(r, u)
      ensures Seated(r, u)
    {
      assert Seated(s, u) && !SameSeat(s.blocks[u], b);
    }
    forall p: nat, q: nat | p < r.cfg.spaces && q < r.cfg.slots && Used(r, p, q)
      ensures Occupied(r, p, q)
    {
      assert Used(s, p, q) && Occupied(s, p, q);
      var u: nat :| Holds(s, u, p, q);
      assert Holds(r, u, p, q);
    }
    WithoutOthers(s.spaces[b.pid], t);
  }

  lemma WithoutOthers(q: seq<nat>, t: nat)
    requires t in q && Distinct(q)
    ensures Distinct(Without(q, t))
    ensures forall u: nat :: u in Without(q, t) <==> u in q && u != t
  {
    var k := IndexOf(q, t);
    var r := Without(q, t);
    forall u: nat | u in q && u != t
      ensures u in r
    {
      var i :| 0 <= i < |q| && q[i] == u;
      assert r[if i < k then i else i - 1] == u;
    }
  }

  lemma CleanupKeepsInv(s: State)
    requires Inv(s) && s.running != [] && s.running[0] < Users(s.cfg)
    requires var b := s.blocks[s.running[0]];
             b.pid < s.cfg.spaces && b.slot < s.cfg.slots && s.running[0] in s.spaces[b.pid]
    ensures Inv(CleanupThread(s)) && CleanupThread(s).running == []
  {
    var r := CleanupThread(s);
    CleanupRegistered(s);
    forall u: nat | u < Users(s.cfg)
      ensures Places(r, u) == 1
    {
      assert Places(s, u) == 1;
      CountFirst(s.running, u);
      CountConcat([s.running[0]], s.finished, u);
    }
  }
}
