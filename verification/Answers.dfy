/** The calls that only answer, from trap number to registers. */
module Answers {
  import opened Words
  import opened IntrusiveList
  import opened Mmu
  import opened SysTimer
  import opened Model
  import opened Invariant
  import opened Preservation
  import opened Machine
  import KTiming

  /** The caller goes on with `v` in r0 and all other registers as they were; nothing else but the timer may change. */
  ghost predicate GoesOn(s: State, r: State, user: Registers, v: Word) {
    && r == s.(cpu := r.cpu, timer := r.timer)
    && r.cpu.sp == user.sp && r.cpu.lr == user.lr && r.cpu.pc == user.pc
    && r.cpu.general[0] == v && forall i :: 1 <= i < 13 ==> r.cpu.general[i] == user.general[i]
  }

  lemma SetsR0(regs: Registers, v: Word)
    ensures var r := SetR0(regs, v);
            && r.sp == regs.sp && r.lr == regs.lr && r.pc == regs.pc
            && r.general[0] == v && forall i :: 1 <= i < 13 ==> r.general[i] == regs.general[i]
  {
  }

  lemma Numbers()
    ensures CallNumbered(2) == Some(OutputCharacter) && CallNumbered(7) == Some(GetTime)
    ensures CallNumbered(8) == Some(GetThreadId)
    ensures forall n: nat :: CallNumbered(n) == None <==> n == 0 || n > 8
  {
  }

  lemma AnsweredIs(s: State, user: Registers, v: Word)
    requires Inv(s)
    ensures var s0 := Entered(s, user);
            && Inv(s0) && s0.timer == s.timer && s0.running == s.running
            && GoesOn(s, s0, user, user.general[0]) && GoesOn(s, Answered(s0, v), user, v)
            && Answered(s0, v).timer == s.timer
  {
    SetsR0(user, v);
  }

  lemma TimeIs(s: State, user: Registers, env: Env)
    requires Inv(s)
    ensures var r, tm := GetTimeCall(Entered(s, user), env), Read(s.timer, env.delays);
            GoesOn(s, r, user, KTiming.Milliseconds(tm.clo)) && r.timer == tm
  {
    SetsR0(user, KTiming.Milliseconds(Read(s.timer, env.delays).clo));
    hide KTiming.Milliseconds, Read;
  }

  /** Outputting a character changes nothing that is kept. */
  lemma OutputAnswers(s: State, user: Registers, bytes: seq<Byte>, env: Env)
    requires Inv(s) && UserRunning(s) && !s.panicked
    ensures var r := Step(s, Trap(user, 2, bytes), env); GoesOn(s, r, user, user.general[0]) && r.timer == s.timer
  {
    hide *;
    Numbers();
    TrapStep(s, user, 2, bytes, env);
    DispatchCases(Entered(s, user), bytes, env);
    AnsweredIs(s, user, 0);
  }

  /** Asking for the thread's number gives it. */
  lemma ThreadIdAnswers(s: State, user: Registers, bytes: seq<Byte>, env: Env)
    requires Inv(s) && UserRunning(s) && !s.panicked
    ensures s.running != [] && s.running[0] < WORD_SIZE
    ensures var r := Step(s, Trap(user, 8, bytes), env); GoesOn(s, r, user, s.running[0]) && r.timer == s.timer
  {
    hide *;
    Numbers();
    ThreadIdFits(s);
    TrapStep(s, user, 8, bytes, env);
    var s0 := Entered(s, user);
    DispatchCases(s0, bytes, env);
    AnsweredIs(s, user, s0.running[0]);
  }

  /**
    Asking for the time gives the reading the call takes in milliseconds: exactly, for readings up to 2147483
    and of whole seconds; with the seconds right and at most twice the time for others below 2^31; and for
    readings from 2^31 on, which count as negative, the negative time modulo the word size.
   */
  lemma TimeAnswers(s: State, user: Registers, bytes: seq<Byte>, env: Env)
    requires Inv(s) && UserRunning(s) && !s.panicked
    ensures var r, tm := Step(s, Trap(user, 7, bytes), env), Read(s.timer, env.delays);
            var ms := r.cpu.general[0];
            && GoesOn(s, r, user, ms) && r.timer == tm
            && (tm.clo <= 2147483 || (tm.clo < 0x8000_0000 && tm.clo % 1000000 == 0) ==> ms == tm.clo / 1000)
            && (tm.clo < 0x8000_0000 ==> tm.clo / 1000000 * 1000 <= ms && 1000 * ms <= 2 * tm.clo)
            && (tm.clo >= 0x8000_0000 && (WORD_SIZE - tm.clo <= 2147483 || (WORD_SIZE - tm.clo) % 1000000 == 0) ==>
                  ms == (WORD_SIZE - (WORD_SIZE - tm.clo) / 1000) % WORD_SIZE)
  {
    hide *;
    Numbers();
    TrapStep(s, user, 7, bytes, env);
    DispatchCases(Entered(s, user), bytes, env);
    TimeIs(s, user, env);
    var c := Read(s.timer, env.delays).clo;
    MillisecondsLaw(c);
    FirstRegister(s, Step(s, Trap(user, 7, bytes), env), user, KTiming.Milliseconds(c));
  }

  lemma FirstRegister(s: State, r: State, user: Registers, v: Word)
    requires GoesOn(s, r, user, v)
    ensures r.cpu.general[0] == v
  {
  }

  lemma MillisecondsLaw(c: Word)
    ensures var ms := KTiming.Milliseconds(c);
            && (c <= 2147483 || (c < 0x8000_0000 && c % 1000000 == 0) ==> ms == c / 1000)
            && (c < 0x8000_0000 ==> c / 1000000 * 1000 <= ms && 1000 * ms <= 2 * c)
            && (c >= 0x8000_0000 && (WORD_SIZE - c <= 2147483 || (WORD_SIZE - c) % 1000000 == 0) ==>
                  ms == (WORD_SIZE - (WORD_SIZE - c) / 1000) % WORD_SIZE)
  {
    hide KTiming.Milliseconds, KTiming.Converted;
    if c < 0x8000_0000 {
      KTiming.MillisecondsBounds(c);
      if c <= 2147483 || c % 1000000 == 0 {
        KTiming.MillisecondsAreExact(c);
      }
    } else if WORD_SIZE - c <= 2147483 || (WORD_SIZE - c) % 1000000 == 0 {
      NegativeSeconds(c);
      KTiming.MillisecondsAreExact(c);
    }
  }

  lemma NegativeSeconds(c: Word)
    requires c >= 0x8000_0000
    ensures KTiming.Signed(c) == c - WORD_SIZE
    ensures (WORD_SIZE - c) % 1000000 == 0 ==> KTiming.Signed(c) % 1000000 == 0
    ensures KTiming.Unsigned(KTiming.Truncated(c - WORD_SIZE, 1000)) == (WORD_SIZE - (WORD_SIZE - c) / 1000) % WORD_SIZE
  {
  }
}
