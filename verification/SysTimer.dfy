/**
  The system timer (arch/bsp/systimer.c): a free-running 32-bit counter CLO, the compare
  registers C1 (time slices) and C3 (stalled threads), and their pending bits M1 and M3.

  Time passes on its own. `Delays` is the environment: how many ticks go by before the i-th
  reading of the counter, between a reading and the register write that acts on it, and between
  the interrupt handler's looks at M3 and at M1.
 */
module SysTimer {
  import opened Words

  const TIMER_INTERVAL: Word := 1000000
  const TOCTOU_PAD: Word := 20

  datatype Delays = Delays(beforeRead: nat -> Word, beforeWrite: nat -> Word, betweenChecks: nat -> Word)

  /** `ticks` counts every tick since power-on; the counter register keeps its low 32 bits. */
  datatype Timer = Timer(ticks: nat, clo: Word, c1: Word, c3: Word, m1: bool, m3: bool, readings: nat)

  /** The counter, running `d` ticks on from `clo`, takes the value `c`. */
  predicate Passes(clo: Word, d: Word, c: Word) {
    1 <= Minus(c, clo) <= d
  }

  lemma PassesMeansMeets(clo: Word, d: Word, c: Word)
    ensures Passes(clo, d, c) <==> exists k: Word :: 1 <= k <= d && Plus(clo, k) == c
  {
    if Passes(clo, d, c) {
      assert Plus(clo, Minus(c, clo)) == c;
    }
  }

  function Elapse(tm: Timer, d: Word): Timer {
    tm.(ticks := tm.ticks + d, clo := Plus(tm.clo, d),
        m1 := tm.m1 || Passes(tm.clo, d, tm.c1), m3 := tm.m3 || Passes(tm.clo, d, tm.c3))
  }

  /** The timer as it stands when the next reading of CLO happens. */
  function Read(tm: Timer, env: Delays): Timer {
    Elapse(tm, env.beforeRead(tm.readings)).(readings := tm.readings + 1)
  }

  /** The timer as it stands when the interrupt handler, done with M3, looks at M1. */
  function BetweenChecks(tm: Timer, env: Delays): Timer {
    Elapse(tm, env.betweenChecks(tm.readings))
  }

  /** `systimer_reset`: acknowledge M1 and arm C1 one interval ahead. */
  function Restart(tm: Timer, env: Delays): Timer {
    var t := Read(tm.(m1 := false), env);
    Elapse(t, env.beforeWrite(tm.readings)).(c1 := Plus(t.clo, TIMER_INTERVAL))
  }

  datatype Armed = Armed(timer: Timer, ok: bool)

  /** `stalltimer_interrupt_at`: acknowledge M3 and arm C3, unless `hz` is too close or past. */
  function InterruptAt(tm: Timer, hz: Word, env: Delays): Armed {
    var t := Read(tm.(m3 := false), env);
    if Plus(t.clo, TOCTOU_PAD) < hz then
      Armed(Elapse(t, env.beforeWrite(tm.readings)).(c3 := hz), true)
    else
      Armed(t, false)
  }

  /** Before the counter wraps it equals the tick count. */
  ghost predicate InStep(tm: Timer) {
    tm.ticks < WORD_SIZE ==> tm.clo == tm.ticks
  }

  /** The interrupt for C3 is pending or still to come. */
  ghost predicate Due(tm: Timer) {
    tm.m3 || tm.ticks < tm.c3
  }

  ghost predicate PromptWrites(env: Delays) {
    forall i :: env.beforeWrite(i) <= TOCTOU_PAD
  }

  /** Time alone never loses the interrupt: it is pending as soon as the counter reaches C3. */
  lemma ElapseKeepsDue(tm: Timer, d: Word)
    requires InStep(tm) && Due(tm) && tm.ticks + d < WORD_SIZE
    ensures InStep(Elapse(tm, d)) && Due(Elapse(tm, d))
  {
  }

  /**
    Arming succeeds exactly when more than the pad is left, and the interrupt is then still to
    come: the write lands before the counter gets there.
   */
  lemma ArmedIsDue(tm: Timer, hz: Word, env: Delays)
    requires InStep(tm) && PromptWrites(env)
    requires InterruptAt(tm, hz, env).timer.ticks < WORD_SIZE - TOCTOU_PAD
    ensures var a := InterruptAt(tm, hz, env);
            && InStep(a.timer) && tm.ticks <= a.timer.ticks
            && (a.ok ==> a.timer.c3 == hz && a.timer.ticks < hz && Read(tm, env).ticks + TOCTOU_PAD < hz)
            && (!a.ok ==> hz <= a.timer.ticks + TOCTOU_PAD)
  {
  }

  /** The ticks until the counter next takes the value `c`: a whole lap if it has just taken it. */
  function TicksTo(tm: Timer, c: Word): nat {
    if c == tm.clo then WORD_SIZE else Minus(c, tm.clo)
  }

  /** Arming acknowledges M3: afterwards it is pending only if the old compare value was met meanwhile. */
  lemma ArmingAcknowledges(tm: Timer, hz: Word, env: Delays)
    ensures var r := InterruptAt(tm, hz, env).timer;
            r.m3 <==> tm.ticks + TicksTo(tm, tm.c3) <= r.ticks
  {
  }

  /** The memory-mapped registers. `Pass` is the hardware; the other methods are the driver. */
  class Device {
    const env: Delays
    var clo: Word
    var c1: Word
    var c3: Word
    var m1: bool
    var m3: bool
    var readings: nat
    ghost var ticks: nat

    ghost function View(): Timer
      reads this
    {
      Timer(ticks, clo, c1, c3, m1, m3, readings)
    }

    constructor (env: Delays, clo: Word, c1: Word, c3: Word)
      ensures this.env == env && View() == Timer(clo, clo, c1, c3, false, false, 0)
    {
      this.env := env;
      this.clo, this.c1, this.c3, m1, m3 := clo, c1, c3, false, false;
      ticks, readings := clo, 0;
    }

    method Pass(d: Word)
      modifies this
      ensures View() == Elapse(old(View()), d)
    {
      m1 := m1 || Passes(clo, d, c1);
      m3 := m3 || Passes(clo, d, c3);
      clo := Plus(clo, d);
      ticks := ticks + d;
    }

    method PassBetweenChecks()
      modifies this
      ensures View() == BetweenChecks(old(View()), env)
    {
      Pass(env.betweenChecks(readings));
    }

    /** `systimer_value` */
    method Value() returns (v: Word)
      modifies this
      ensures View() == Read(old(View()), env) && v == View().clo
    {
      Pass(env.beforeRead(readings));
      readings := readings + 1;
      v := clo;
    }

    method Reset()
      modifies this
      ensures View() == Restart(old(View()), env)
    {
      ghost var tm := View();
      m1 := false;
      var v := Value();
      Pass(env.beforeWrite(readings - 1));
      c1 := Plus(v, TIMER_INTERVAL);
    }

    method ResetPendingStall()
      modifies this
      ensures View() == old(View()).(m3 := false)
    {
      m3 := false;
    }

    /** Returns whether the alarm was set; the original returns 0 or -EINVAL. */
    method StallInterruptAt(hz: Word) returns (ok: bool)
      modifies this
      ensures Armed(View(), ok) == InterruptAt(old(View()), hz, env)
    {
      m3 := false;
      var v := Value();
      if Plus(v, TOCTOU_PAD) < hz {
        Pass(env.beforeWrite(readings - 1));
        c3 := hz;
        return true;
      }
      return false;
    }
  }
}
