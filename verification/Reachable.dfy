/** The statements about runs, for runs from power-on. */
module Reachable {
  import opened Words
  import opened IntrusiveList
  import opened Mmu
  import opened SysTimer
  import opened Model
  import opened Invariant
  import opened Machine
  import opened Boot
  import opened InputMatching
  import opened WakeUp
  import opened Halting
  import FairQueue

  /** Nobody waits, nothing is buffered and nothing has gone wrong. */
  lemma InitialIsCalm(cfg: Config, b: Platform, env: Env)
    requires ValidPlatform(b)
    ensures var s := Initial(cfg, b, env);
            s.stall == [] && s.input == [] && s.uart == [] && s.running == [] && !s.panicked && s.timer == b.timer
  {
  }

  /** From power-on, every state has its alarm pending or ahead for the first stalled thread. */
  lemma AlarmAlwaysStands(cfg: Config, b: Platform, env: Env, es: seq<Event>)
    requires ValidPlatform(b) && InStep(b.timer) && PromptWrites(env.delays)
    requires Run(Initial(cfg, b, env), es, env).timer.ticks < HORIZON
    ensures Guarded(Run(Initial(cfg, b, env), es, env))
  {
    InitialIsCalm(cfg, b, env);
    hide Inv, Run, Initial;
    assert Guarded(Initial(cfg, b, env));
    NoLostWakeUp(Initial(cfg, b, env), es, env);
  }

  /** From power-on, the kernel does not halt while the stall calls are punctual. */
  lemma PunctualKernelsDoNotHalt(cfg: Config, b: Platform, env: Env, es: seq<Event>)
    requires ValidPlatform(b) && AllPunctual(Initial(cfg, b, env), es, env)
    ensures Orderly(Run(Initial(cfg, b, env), es, env))
  {
    InitialIsCalm(cfg, b, env);
    hide Inv, Run, Initial;
    PunctualRunsDoNotHalt(Initial(cfg, b, env), es, env);
  }

  /**
    From power-on, the i-th character handed out goes to the i-th reader, and is the i-th of the arriving
    characters that found room.
   */
  lemma CharactersInOrder(cfg: Config, b: Platform, env: Env, es: seq<Event>, i: nat)
    requires ValidPlatform(b) && i < |RunLog(Initial(cfg, b, env), es, env).delivered|
    ensures var log := RunLog(Initial(cfg, b, env), es, env);
            && i < |log.readers| && i < |log.accepted| && log.delivered[i] == Delivery(log.readers[i], log.accepted[i])
            && log.accepted == Chosen(Arrivals(es), Verdicts(Initial(cfg, b, env), es, env))
  {
    InitialIsCalm(cfg, b, env);
    hide Inv, Run, RunLog, Initial, Chosen, Verdicts;
    InOrder(Initial(cfg, b, env), es, env, i);
    RunAccepts(Initial(cfg, b, env), es, env);
  }

  /** From power-on, exactly one thread runs from the first switch on, and none before. */
  lemma ExactlyOneRuns(cfg: Config, b: Platform, env: Env, es: seq<Event>)
    requires ValidPlatform(b)
    ensures |Run(Initial(cfg, b, env), es, env).running|
            == if FairQueue.Switchings(Initial(cfg, b, env), es, env) > 0 then 1 else 0
  {
    InitialIsCalm(cfg, b, env);
    hide Inv, Run, Initial;
    FairQueue.OneRunsOnceSwitched(Initial(cfg, b, env), es, env);
  }
}
