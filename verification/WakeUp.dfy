/**
  Stalled threads: the order of the stall list, the wake-up loop, and why no wake-up is lost.
  Statements about deadlines hold until the 32-bit counter first comes near its end.
 */
module WakeUp {
  import opened Words
  import opened IntrusiveList
  import opened Mmu
  import opened SysTimer
  import opened Model
  import opened Invariant
  import opened Preservation
  import opened Machine
  import opened InputMatching

  /** The last tick at which `deadline - pad` comparisons do not wrap around. */
  const HORIZON: nat := WORD_SIZE - TOCTOU_PAD

  // ----- The order of the stall list -----

  lemma {:induction false} FirstIsLeast(blocks: seq<Block>, stall: seq<nat>, i: nat)
    requires StallSorted(blocks, stall) && i < |stall|
    ensures StallKey(blocks, stall[0]) <= StallKey(blocks, stall[i])
  {
    if i > 0 {
      FirstIsLeast(blocks, stall, i - 1);
      assert StallKey(blocks, stall[i - 1]) <= StallKey(blocks, stall[i - 1 + 1]);
    }
  }

  /** The insertion keeps the list sorted exactly when the newcomer is not the new least element. */
  lemma InsertionKeepsOrder(blocks: seq<Block>, stall: seq<nat>, t: nat)
    requires StallSorted(blocks, stall)
    ensures StallSorted(blocks, SortedInsert(stall, t, StallOrder(blocks)))
            <==> stall == [] || StallKey(blocks, stall[0]) <= StallKey(blocks, t)
  {
    var le := StallOrder(blocks);
    var r := SortedInsert(stall, t, le);
    var c := LeadingCount(stall, t, le);
    if stall != [] {
      if c == 0 {
        FirstIsLeast(blocks, stall, |stall| - 1);
        assert r[|stall| - 1] == stall[|stall| - 1] && r[|stall| - 1 + 1] == t;
      } else {
        assert le(stall[0], t);
        forall i | 0 <= i < |r| - 1
          ensures StallKey(blocks, r[i]) <= StallKey(blocks, r[i + 1])
        {
          assert i + 1 < c ==> StallKey(blocks, stall[i]) <= StallKey(blocks, stall[i + 1]);
          assert c < i ==> StallKey(blocks, stall[i - 1]) <= StallKey(blocks, stall[i - 1 + 1]);
        }
      }
    }
  }

  /** A new least element lands at the end, and the list's first element never changes. */
  lemma InsertionPlace(blocks: seq<Block>, stall: seq<nat>, t: nat)
    ensures var r := SortedInsert(stall, t, StallOrder(blocks));
            && (stall != [] ==> r[0] == stall[0])
            && (stall != [] && StallKey(blocks, t) < StallKey(blocks, stall[0]) ==> r == stall + [t])
  {
  }

  /** On a sorted list the newcomer goes behind everything due no later and before everything due later. */
  lemma InsertionIsStable(blocks: seq<Block>, stall: seq<nat>, t: nat)
    requires StallSorted(blocks, stall) && (stall == [] || StallKey(blocks, stall[0]) <= StallKey(blocks, t))
    ensures var k := SortedPosition(stall, t, StallOrder(blocks));
            && k <= |stall| && SortedInsert(stall, t, StallOrder(blocks)) == stall[..k] + [t] + stall[k..]
            && (forall i :: 0 <= i < k ==> StallKey(blocks, stall[i]) <= StallKey(blocks, t))
            && (forall i :: k <= i < |stall| ==> StallKey(blocks, t) < StallKey(blocks, stall[i]))
  {
    var le := StallOrder(blocks);
    var k := SortedPosition(stall, t, le);
    if stall != [] {
      assert le(stall[0], t);
      forall i | k <= i < |stall|
        ensures StallKey(blocks, t) < StallKey(blocks, stall[i])
      {
        SortedTail(blocks, stall, k);
        FirstIsLeast(blocks, stall[k..], i - k);
      }
    }
  }

  lemma SortedTail(blocks: seq<Block>, stall: seq<nat>, k: nat)
    requires StallSorted(blocks, stall) && k <= |stall|
    ensures StallSorted(blocks, stall[k..])
  {
    forall i | 0 <= i < |stall[k..]| - 1
      ensures StallKey(blocks, stall[k..][i]) <= StallKey(blocks, stall[k..][i + 1])
    {
      assert StallKey(blocks, stall[k + i]) <= StallKey(blocks, stall[k + i + 1]);
    }
  }

  // ----- The wake-up loop -----

  lemma {:induction false} UnblockOverdueTicks(s: State, env: Env)
    requires Shape(s)
    ensures s.timer.ticks <= UnblockOverdue(s, env).timer.ticks
    decreases |s.stall|
  {
    var a := AdjustStallTimer(s, env);
    if !a.ok {
      UnblockOverdueTicks(WakeFirst(a.state), env);
    }
  }

  /** The C3 alarm stands for the head of the stall list and has not been missed. */
  ghost predicate Guarded(s: State) {
    && InStep(s.timer)
    && (s.stall != [] ==> s.timer.c3 == StallKey(s.blocks, s.stall[0]) && Due(s.timer))
  }

  /**
    However the loop is entered, it leaves the alarm standing for whoever is first then, whose
    deadline was more than the pad away when the clock was last read.
   */
  lemma {:induction false} UnblockOverdueGuards(s: State, env: Env) returns (reading: nat)
    requires Shape(s) && InStep(s.timer) && PromptWrites(env.delays)
    requires UnblockOverdue(s, env).timer.ticks < HORIZON
    ensures var r := UnblockOverdue(s, env);
            && Guarded(r)
            && (r.stall != [] ==> reading <= r.timer.ticks <= reading + TOCTOU_PAD < StallKey(r.blocks, r.stall[0]))
    decreases |s.stall|
  {
    var a := AdjustStallTimer(s, env);
    reading := Read(s.timer, env.delays).ticks;
    if s.stall != [] {
      if !a.ok {
        UnblockOverdueTicks(WakeFirst(a.state), env);
      }
      ArmedIsDue(s.timer, s.blocks[s.stall[0]].stallUntil, env.delays);
    }
    if !a.ok {
      reading := UnblockOverdueGuards(WakeFirst(a.state), env);
    }
  }

  /** What the loop did: it woke the first `k` threads, in order, and moved nothing but the timer besides. */
  ghost predicate Woke(s: State, r: State, k: nat) {
    && k <= |s.stall|
    && r == s.(stall := s.stall[k..], ready := s.ready + s.stall[..k], timer := r.timer)
  }

  /** Once nobody is stalled, M3 is acknowledged. */
  lemma {:induction false} UnblockOverdueAcknowledges(s: State, env: Env)
    requires Shape(s)
    ensures var r := UnblockOverdue(s, env); r.stall == [] ==> !r.timer.m3
    decreases |s.stall|
  {
    UnblockOverdueTurn(s, env);
    var a := AdjustStallTimer(s, env);
    if !a.ok {
      UnblockOverdueAcknowledges(WakeFirst(a.state), env);
    }
    hide UnblockOverdue;
  }

  lemma WokeOneMore(s: State, tm: Timer, r: State, i: nat)
    requires s.stall != [] && Woke(WakeFirst(s.(timer := tm)), r, i)
    ensures Woke(s, r, i + 1)
  {
    var s1 := WakeFirst(s.(timer := tm));
    SliceTail(s.stall, i + 1);
    assert s.ready + [s.stall[0]] + s1.stall[..i] == s.ready + s.stall[..i + 1];
  }

  lemma WokeNobody(s: State, r: State)
    requires r == s.(timer := r.timer)
    ensures Woke(s, r, 0)
  {
    assert s.ready + s.stall[..0] == s.ready;
  }

  lemma {:induction false} UnblockOverdueWakesPrefix(s: State, env: Env) returns (k: nat)
    requires Shape(s)
    ensures Woke(s, UnblockOverdue(s, env), k)
    decreases |s.stall|
  {
    hide *;
    var a := AdjustStallTimer(s, env);
    UnblockOverdueTurn(s, env);
    k := 0;
    if a.ok {
      WokeNobody(s, a.state);
    } else {
      var i := UnblockOverdueWakesPrefix(WakeFirst(a.state), env);
      WokeOneMore(s, a.state.timer, UnblockOverdue(s, env), i);
      k := i + 1;
    }
  }

  /** The counter as the next attempt to arm the alarm reads it. */
  function NextReading(tm: Timer, env: Env): Word {
    Read(tm.(m3 := false), env.delays).clo
  }

  /** The counter as turn `j` of the wake-up loop reads it. */
  function TurnReading(s: State, env: Env, j: nat): Word
    requires Shape(s) && j < |s.stall|
    decreases j
  {
    if j == 0 then NextReading(s.timer, env)
    else TurnReading(WakeFirst(AdjustStallTimer(s, env).state), env, j - 1)
  }

  /** The deadline of turn `j` is at most the pad after the turn's reading, modulo the word size. */
  predicate Reached(s: State, env: Env, j: nat)
    requires Shape(s) && j < |s.stall|
  {
    StallKey(s.blocks, s.stall[j]) <= Plus(TurnReading(s, env, j), TOCTOU_PAD)
  }

  lemma ReachedTurn(s: State, env: Env, j: nat)
    requires Shape(s) && j < |s.stall|
    ensures var a := AdjustStallTimer(s, env);
            && (j == 0 ==> (Reached(s, env, 0) <==> !a.ok))
            && (j > 0 ==> Shape(WakeFirst(a.state)) && j - 1 < |WakeFirst(a.state).stall|
                          && (Reached(s, env, j) <==> Reached(WakeFirst(a.state), env, j - 1)))
  {
  }

  /**
    Whatever the clock does, the loop wakes the thread at position `j` exactly when at every turn up to its
    own the deadline had been reached, each by the reading of its own turn.
   */
  lemma {:induction false} WokenExactlyWhen(s: State, env: Env, j: nat)
    requires Shape(s) && j < |s.stall|
    ensures j < |s.stall| - |UnblockOverdue(s, env).stall| <==> forall i: nat :: i <= j ==> Reached(s, env, i)
    decreases |s.stall|
  {
    hide *;
    var a := AdjustStallTimer(s, env);
    UnblockOverdueTurn(s, env);
    ReachedTurn(s, env, 0);
    if !a.ok {
      var s1 := WakeFirst(a.state);
      var k := UnblockOverdueWakesPrefix(s1, env);
      WokenCount(s1, UnblockOverdue(s1, env), k);
      if j > 0 {
        WokenExactlyWhen(s1, env, j - 1);
        forall i: nat | 0 < i <= j
          ensures Reached(s, env, i) <==> Reached(s1, env, i - 1)
        {
          ReachedTurn(s, env, i);
        }
        ShiftReached(s, s1, env, j);
      }
    }
  }

  lemma WokenCount(s: State, r: State, k: nat)
    requires Woke(s, r, k)
    ensures |r.stall| == |s.stall| - k
  {
  }

  lemma ShiftReached(s: State, s1: State, env: Env, j: nat)
    requires Shape(s) && Shape(s1) && 0 < j < |s.stall| && |s1.stall| == |s.stall| - 1 && Reached(s, env, 0)
    requires forall i: nat :: 0 < i <= j ==> (Reached(s, env, i) <==> Reached(s1, env, i - 1))
    ensures (forall i: nat :: i <= j ==> Reached(s, env, i)) <==> (forall i: nat :: i <= j - 1 ==> Reached(s1, env, i))
  {
    hide *;
    if forall i: nat :: i <= j ==> Reached(s, env, i) {
      forall i: nat | i <= j - 1
        ensures Reached(s1, env, i)
      {
        assert Reached(s, env, i + 1);
      }
    }
  }

  /** In particular nobody is woken more than the pad before the deadline, by the reading of the own turn. */
  lemma NobodyWokenEarly(s: State, env: Env, j: nat)
    requires Shape(s) && j < |s.stall| - |UnblockOverdue(s, env).stall|
    ensures StallKey(s.blocks, s.stall[j]) <= TurnReading(s, env, j) + TOCTOU_PAD
  {
    WokenExactlyWhen(s, env, j);
    hide TurnReading, UnblockOverdue, StallKey, Shape;
    assert Reached(s, env, j);
  }

  /** On a sorted list nobody is left who was due within the pad of the last look at the clock. */
  lemma NobodyOverdueRemains(s: State, env: Env) returns (reading: nat)
    requires Shape(s) && InStep(s.timer) && PromptWrites(env.delays)
    requires UnblockOverdue(s, env).timer.ticks < HORIZON && StallSorted(s.blocks, s.stall)
    ensures var r := UnblockOverdue(s, env);
            r.stall != [] ==>
              && reading <= r.timer.ticks <= reading + TOCTOU_PAD
              && forall i :: 0 <= i < |r.stall| ==> reading + TOCTOU_PAD < StallKey(r.blocks, r.stall[i])
  {
    var r := UnblockOverdue(s, env);
    reading := UnblockOverdueGuards(s, env);
    var k := UnblockOverdueWakesPrefix(s, env);
    SortedTail(s.blocks, s.stall, k);
    forall i | 0 <= i < |r.stall|
      ensures StallKey(r.blocks, r.stall[0]) <= StallKey(r.blocks, r.stall[i])
    {
      FirstIsLeast(r.blocks, r.stall, i);
    }
  }

  // ----- The end of the counter -----

  /**
    A thread that is due is left asleep exactly in the last ticks before the counter wraps: the sum of
    reading and pad wraps to less than the deadline, and the alarm is armed for the past.
   */
  lemma OverdueIsLeftExactlyWhen(s: State, env: Env)
    requires Shape(s) && s.stall != [] && StallKey(s.blocks, s.stall[0]) <= NextReading(s.timer, env)
    ensures UnblockOverdue(s, env).stall == s.stall
            <==> WORD_SIZE <= NextReading(s.timer, env) + TOCTOU_PAD < WORD_SIZE + StallKey(s.blocks, s.stall[0])
  {
    UnblockOverdueTurn(s, env);
    if !AdjustStallTimer(s, env).ok {
      var k := UnblockOverdueWakesPrefix(WakeFirst(AdjustStallTimer(s, env).state), env);
      hide UnblockOverdue;
    }
  }

  /** The alarm can be armed for `deadline` at the next reading. */
  predicate CanArm(tm: Timer, deadline: Word, env: Env) {
    Plus(NextReading(tm, env), TOCTOU_PAD) < deadline
  }

  /**
    On an empty stall list a stall waits exactly when, at one of two readings of the clock, its deadline
    modulo the word size is past the pad.
   */
  lemma StallWaitsExactlyWhen(s: State, t: nat, ticks: Word, env: Env)
    requires Shape(s) && s.stall == [] && s.ready != [] && s.ready[|s.ready| - 1] == t
    ensures var tm := Read(s.timer, env.delays);
            var d := Plus(tm.clo, ticks);
            var r := AwaitTimer(s, t, ticks, env);
            if CanArm(tm, d, env) || CanArm(Read(tm.(m3 := false), env.delays), d, env)
            then r.stall == [t] && r.ready == s.ready[..|s.ready| - 1]
            else r.stall == [] && r.ready == s.ready
  {
    hide UnblockOverdue;
    var s1 := EnterStall(s, t, ticks, env);
    var a := AdjustStallTimer(s1, env);
    UnblockOverdueTurn(a.state, env);
    var b := AdjustStallTimer(a.state, env);
    if !a.ok && !b.ok {
      UnblockOverdueTurn(WakeFirst(b.state), env);
      assert s.ready[..|s.ready| - 1] + [t] == s.ready;
    }
  }

  /** So a stall whose deadline lies beyond the end of the counter does not wait at all. */
  lemma WrappingStallDoesNotWait(s: State, t: nat, ticks: Word, env: Env)
    requires Shape(s) && s.stall == [] && s.ready != [] && s.ready[|s.ready| - 1] == t
    requires var tm := Read(s.timer, env.delays);
             && tm.clo + ticks >= WORD_SIZE && tm.clo <= NextReading(tm, env) < HORIZON
             && tm.clo <= NextReading(Read(tm.(m3 := false), env.delays), env) < HORIZON
    ensures AwaitTimer(s, t, ticks, env).stall == [] && AwaitTimer(s, t, ticks, env).ready == s.ready
  {
    StallWaitsExactlyWhen(s, t, ticks, env);
    hide AwaitTimer;
  }

  // ----- No wake-up is lost -----

  /** The stall list and the deadlines on it are as they were. */
  ghost predicate SameStall(s: State, r: State) {
    && r.stall == s.stall
    && forall i :: 0 <= i < |s.stall| ==> StallKey(r.blocks, s.stall[i]) == StallKey(s.blocks, s.stall[i])
  }

  /** Steps of this kind only let time pass, and never touch C3. */
  ghost predicate Elapsing(tm: Timer, after: Timer) {
    && tm.ticks <= after.ticks && after.c3 == tm.c3
    && (InStep(tm) && after.ticks < WORD_SIZE ==> InStep(after) && (Due(tm) ==> Due(after)))
  }

  lemma RestartElapses(tm: Timer, env: Delays)
    ensures Elapsing(tm, Restart(tm, env)) && Elapsing(tm, Read(tm, env))
  {
  }

  lemma GuardedFrame(s: State, r: State)
    requires Guarded(s) && SameStall(s, r) && Elapsing(s.timer, r.timer) && r.timer.ticks < HORIZON
    ensures Guarded(r)
  {
  }

  lemma RoundRobinStall(s: State, forced: bool, env: Env)
    requires Inv(s) && MaySwitch(s, forced)
    ensures SameStall(s, RoundRobin(s, forced, env)) && RoundRobin(s, forced, env).timer == s.timer
  {
  }

  lemma ExitThreadStall(s: State, env: Env)
    requires Inv(s) && UserRunning(s)
    ensures SameStall(s, ExitThreadCall(s, env)) && Elapsing(s.timer, ExitThreadCall(s, env).timer)
  {
    RunningIsSeated(s);
    CleanupKeepsInv(s);
    RoundRobinStall(CleanupThread(s), false, env);
    RestartElapses(s.timer, env.delays);
    hide Inv, RoundRobin;
  }

  lemma SparedStall(s: State, r: State)
    requires Inv(s) && Spared(s, r)
    ensures SameStall(s, r) && r.timer == s.timer
  {
    forall i | 0 <= i < |s.stall|
      ensures StallKey(r.blocks, s.stall[i]) == StallKey(s.blocks, s.stall[i])
    {
      ListedIsLive(s, s.stall[i]);
    }
  }

  lemma CreateProcessStall(s: State, bytes: seq<Byte>, env: Env)
    requires Inv(s) && UserRunning(s)
    ensures SameStall(s, CreateProcessSyscall(s, bytes, env)) && CreateProcessSyscall(s, bytes, env).timer == s.timer
  {
    CreateProcessSpares(s, bytes, env);
    SparedStall(s, CreateProcessSyscall(s, bytes, env));
    hide *;
  }

  lemma CreateThreadStall(s: State, bytes: seq<Byte>, env: Env)
    requires Inv(s) && UserRunning(s)
    ensures SameStall(s, CreateThreadSyscall(s, bytes, env)) && CreateThreadSyscall(s, bytes, env).timer == s.timer
  {
    CreateThreadSpares(s, bytes, env);
    SparedStall(s, CreateThreadSyscall(s, bytes, env));
    hide *;
  }

  lemma ReadCharacterStall(s: State, env: Env)
    requires Inv(s) && UserRunning(s)
    ensures SameStall(s, ReadCharacterCall(s, env)) && Elapsing(s.timer, ReadCharacterCall(s, env).timer)
  {
    RoundRobinStall(s, true, env);
    RestartElapses(s.timer, env.delays);
    hide Inv, RoundRobin;
  }

  /** Entering the stall list: either somebody was first already, or the alarm is set for the newcomer. */
  lemma AwaitTimerGuards(s: State, t: nat, ticks: Word, env: Env)
    requires Inv(s) && Guarded(s) && s.ready != [] && s.ready[|s.ready| - 1] == t && PromptWrites(env.delays)
    requires AwaitTimer(s, t, ticks, env).timer.ticks < HORIZON
    ensures Guarded(AwaitTimer(s, t, ticks, env))
  {
    var s1 := EnterStall(s, t, ticks, env);
    RestartElapses(s.timer, env.delays);
    InsertionPlace(s1.blocks, s.stall, t);
    ListedIsLive(s, t);
    if s1.stall[0] == t {
      var a := AdjustStallTimer(s1, env);
      if a.ok {
        ArmedIsDue(s1.timer, s1.blocks[t].stallUntil, env.delays);
      } else {
        AdjustStallTimerTicks(s1, env);
        UnblockOverdueTicks(a.state, env);
        var _ := UnblockOverdueGuards(a.state, env);
      }
    }
  }

  lemma AdjustStallTimerTicks(s: State, env: Env)
    requires Shape(s)
    ensures var r := AdjustStallTimer(s, env).state.timer;
            s.timer.ticks <= r.ticks && (InStep(s.timer) && r.ticks < WORD_SIZE ==> InStep(r))
  {
  }

  lemma AwaitTimerTicks(s: State, t: nat, ticks: Word, env: Env)
    requires Shape(s) && s.ready != [] && s.ready[|s.ready| - 1] == t
    ensures s.timer.ticks <= AwaitTimer(s, t, ticks, env).timer.ticks
  {
    var s1 := EnterStall(s, t, ticks, env);
    AdjustStallTimerTicks(s1, env);
    UnblockOverdueTicks(AdjustStallTimer(s1, env).state, env);
  }

  lemma StallThreadGuards(s: State, env: Env)
    requires Inv(s) && UserRunning(s) && Guarded(s) && PromptWrites(env.delays)
    requires StallThreadCall(s, env).timer.ticks < HORIZON
    ensures Guarded(StallThreadCall(s, env))
  {
    RoundRobinStall(s, true, env);
    RestartElapses(s.timer, env.delays);
    hide Inv, RoundRobin, AwaitTimer;
    var s1 := Yielded(s, env);
    var h := ToHertz(s.cpu.general[0]);
    if !s1.panicked {
      var s2 := Rearmed(s1, env);
      if s.cpu.general[0] != 0 && h.Some? {
        InvShape(s2);
        AwaitTimerTicks(s2, s.running[0], h.value, env);
        GuardedFrame(s, s2);
        AwaitTimerGuards(s2, s.running[0], h.value, env);
      }
    }
  }

  lemma StallThreadTicks(s: State, env: Env)
    requires Inv(s) && UserRunning(s)
    ensures s.timer.ticks <= StallThreadCall(s, env).timer.ticks
  {
    RoundRobinStall(s, true, env);
    RestartElapses(s.timer, env.delays);
    hide Inv, RoundRobin, AwaitTimer;
    var s1 := Yielded(s, env);
    var h := ToHertz(s.cpu.general[0]);
    if !s1.panicked && h.Some? {
      InvShape(Rearmed(s1, env));
      AwaitTimerTicks(Rearmed(s1, env), s.running[0], h.value, env);
    }
  }

  lemma DispatchTicks(s: State, call: Call, bytes: seq<Byte>, env: Env)
    requires Inv(s) && UserRunning(s)
    ensures s.timer.ticks <= Dispatch(s, call, bytes, env).timer.ticks
  {
    hide Inv, ReadCharacterCall, CreateProcessSyscall, CreateThreadSyscall, StallThreadCall, ExitThreadCall;
    match call {
      case ReadCharacter => ReadCharacterStall(s, env);
      case CreateProcessCall => CreateProcessStall(s, bytes, env);
      case CreateThreadCall => CreateThreadStall(s, bytes, env);
      case StallThread => StallThreadTicks(s, env);
      case ExitThread => ExitThreadStall(s, env);
      case GetTime => RestartElapses(s.timer, env.delays);
      case OutputCharacter =>
      case GetThreadId =>
    }
  }

  lemma DispatchGuards(s: State, call: Call, bytes: seq<Byte>, env: Env)
    requires Inv(s) && UserRunning(s) && Guarded(s) && PromptWrites(env.delays)
    requires Dispatch(s, call, bytes, env).timer.ticks < HORIZON
    ensures Guarded(Dispatch(s, call, bytes, env))
  {
    hide Inv, ReadCharacterCall, CreateProcessSyscall, CreateThreadSyscall, StallThreadCall, ExitThreadCall;
    var r := Dispatch(s, call, bytes, env);
    match call {
      case ReadCharacter => ReadCharacterStall(s, env);
      case CreateProcessCall => CreateProcessStall(s, bytes, env);
      case CreateThreadCall => CreateThreadStall(s, bytes, env);
      case StallThread => StallThreadGuards(s, env);
      case ExitThread => ExitThreadStall(s, env);
      case GetTime => RestartElapses(s.timer, env.delays);
      case OutputCharacter =>
      case GetThreadId =>
    }
    if call != StallThread {
      hide Dispatch;
      GuardedFrame(s, r);
    }
  }

  lemma WokenGuards(s: State, env: Env)
    requires Inv(s) && Guarded(s) && PromptWrites(env.delays)
    requires WokenByTimer(s, env).timer.ticks < HORIZON
    ensures Guarded(WokenByTimer(s, env))
  {
    if s.timer.m3 {
      var _ := UnblockOverdueGuards(s, env);
    }
  }

  lemma WokenTicks(s: State, env: Env)
    requires Inv(s)
    ensures s.timer.ticks <= WokenByTimer(s, env).timer.ticks
  {
    UnblockOverdueTicks(s, env);
  }

  lemma SliceEndedStall(s: State, env: Env)
    requires Inv(s)
    ensures SameStall(s, SliceEnded(s, env)) && Elapsing(s.timer, SliceEnded(s, env).timer)
  {
    RoundRobinStall(s, false, env);
    RestartElapses(s.timer, env.delays);
    hide Inv, RoundRobin;
  }

  lemma DeliverStall(s: State)
    requires Inv(s)
    ensures SameStall(s, Deliver(s)) && Deliver(s).timer == s.timer
  {
    InvShape(s);
    DeliverRest(s);
    forall i | 0 <= i < |s.stall|
      ensures StallKey(Deliver(s).blocks, s.stall[i]) == StallKey(s.blocks, s.stall[i])
    {
      DeliverBlocks(s, s.stall[i]);
    }
  }

  lemma InterruptTicks(s: State, received: Option<Byte>, env: Env)
    requires Inv(s)
    ensures s.timer.ticks <= Interrupt(s, received, env).timer.ticks
  {
    hide Inv, WokenByTimer, SliceEnded, Deliver;
    var s1 := WokenByTimer(s, env);
    var s2 := SliceEnded(s1, env);
    WokenTicks(s, env);
    SliceEndedStall(s1, env);
    if !s2.panicked {
      DeliverStall(Receive(s2, received));
    }
  }

  lemma InterruptGuards(s: State, received: Option<Byte>, env: Env)
    requires Inv(s) && Guarded(s) && PromptWrites(env.delays)
    requires Interrupt(s, received, env).timer.ticks < HORIZON
    ensures Guarded(Interrupt(s, received, env))
  {
    hide Inv, WokenByTimer, SliceEnded, Deliver;
    var s1 := WokenByTimer(s, env);
    var s2 := SliceEnded(s1, env);
    WokenTicks(s, env);
    SliceEndedStall(s1, env);
    if !s2.panicked {
      DeliverStall(Receive(s2, received));
    }
    WokenGuards(s, env);
    GuardedFrame(s1, Interrupt(s, received, env));
  }

  /** Every step keeps the alarm standing. */
  lemma StepGuards(s: State, e: Event, env: Env)
    requires Inv(s) && Guarded(s) && PromptWrites(env.delays)
    requires Step(s, e, env).timer.ticks < HORIZON
    ensures Guarded(Step(s, e, env))
  {
    hide Inv, Dispatch, ExitThreadCall, Interrupt, Target;
    if !s.panicked {
      match e
      case Trap(user, number, bytes) =>
        if UserRunning(s) {
          match CallNumbered(number) {
            case Some(call) => DispatchGuards(Entered(s, user), call, bytes, env);
            case None => ExitThreadStall(Entered(s, user), env);
          }
        }
      case Abort(user) =>
        if UserRunning(s) {
          ExitThreadStall(Entered(s, user), env);
        }
      case Irq(user, received) => InterruptGuards(Entered(s, user), received, env);
      case Store(va, byte) =>
        if UserRunning(s) {
          ExitThreadStall(s, env);
        }
      case Tick(d) =>
    }
  }

  lemma {:induction false} RunTicks(s: State, es: seq<Event>, env: Env)
    requires Inv(s)
    ensures s.timer.ticks <= Run(s, es, env).timer.ticks
    decreases |es|
  {
    hide Inv, Step;
    if es != [] {
      StepTicks(s, es[0], env);
      RunTicks(Step(s, es[0], env), es[1..], env);
    }
  }

  lemma StepTicks(s: State, e: Event, env: Env)
    requires Inv(s)
    ensures s.timer.ticks <= Step(s, e, env).timer.ticks
  {
    hide Inv, Dispatch, ExitThreadCall, Interrupt, Target;
    if !s.panicked {
      match e
      case Trap(user, number, bytes) =>
        if UserRunning(s) {
          match CallNumbered(number) {
            case Some(call) => DispatchTicks(Entered(s, user), call, bytes, env);
            case None => ExitThreadStall(Entered(s, user), env);
          }
        }
      case Abort(user) =>
        if UserRunning(s) {
          ExitThreadStall(Entered(s, user), env);
        }
      case Irq(user, received) => InterruptTicks(Entered(s, user), received, env);
      case Store(va, byte) =>
        if UserRunning(s) {
          ExitThreadStall(s, env);
        }
      case Tick(d) =>
    }
  }

  /**
    No lost wake-up: whatever runs, the alarm for the first stalled thread is pending or still
    ahead, as long as the counter has not come near its end and the kernel's check-to-write
    delay stays within the pad.
   */
  lemma {:induction false} NoLostWakeUp(s: State, es: seq<Event>, env: Env)
    requires Inv(s) && Guarded(s) && PromptWrites(env.delays)
    requires Run(s, es, env).timer.ticks < HORIZON
    ensures Guarded(Run(s, es, env))
    decreases |es|
  {
    hide Inv, Step, Guarded;
    if es != [] {
      RunTicks(Step(s, es[0], env), es[1..], env);
      StepGuards(s, es[0], env);
      NoLostWakeUp(Step(s, es[0], env), es[1..], env);
    }
  }
}
