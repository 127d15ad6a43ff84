/** Whole runs of the master: every interleaving of packets, timers and dispatches. */
module MasterRuns {
  import opened Prelude
  import opened Bytes
  import opened Protocol
  import opened Scheduler
  import opened MasterModel
  import opened MasterInvariant
  import opened MasterSteps

  // ---------------------------------------------------------------- stimuli

  lemma DiscoveryKeepsBooks(cfg: Config, s: Master)
    requires Books(cfg, s) && s.dyn.discovery.Some?
    ensures Books(cfg, s.(dyn := s.dyn.(discovery := None), sched := s.sched.(ready := s.sched.ready + [QueryAddress])))
  {
    var s' := s.(dyn := s.dyn.(discovery := None), sched := s.sched.(ready := s.sched.ready + [QueryAddress]));
    AllActionsPush(s.sched, QueryAddress, 0.0);
    assert Outstanding(s') == Outstanding(s) + multiset{QueryAddress};
    forall a: Address ensures Outstanding(s')[SendToken(a)] == if HasLine(s'.dyn.table, a) then 1 else 0 {
      assert Outstanding(s)[SendToken(a)] == if HasLine(s.dyn.table, a) then 1 else 0;
    }
  }

  lemma DelayKeeps(cfg: Config, s: Master, env: Env)
    requires Inv(cfg, s) && s.fault == NoFault && s.fsm.events == [] && s.delay.Some?
    ensures var s' := Stimulate(s, DelayTimer, env);
            && Books(cfg, s') && s'.fault == NoFault && (Pending(s') || (Resting(s') && s'.fsm.events == []))
            && Looked(s.(delay := None), s', env.now)
  {
    LookKeepsBooks(cfg, s.(delay := None), env);
    LookedPhase(s.(delay := None), Stimulate(s, DelayTimer, env), env.now);
  }

  lemma LookedPhase(s: Master, s': Master, now: Time)
    requires Looked(s, s', now) && Resting(s) && s.fsm.events == [] && s.delay == None
    ensures Pending(s') || (Resting(s') && s'.fsm.events == [])
  {
    assert s.fsm.events + [CheckNewCommand] == [CheckNewCommand];
  }

  /** A timer or a packet reaches a quiescent master. */
  lemma StimulusKeeps(cfg: Config, s: Master, k: Stimulus, env: Env)
    requires Inv(cfg, s) && s.fault == NoFault && s.fsm.events == [] && Enabled(s, k)
    ensures var s' := Stimulate(s, k, env);
            Inv(cfg, s') && s'.fault == NoFault && s'.sent == s.sent && Log(s) <= Log(s')
  {
    match k
    case Packet(e) => assert s.fsm.events + [e] == [e];
    case FsmTimer => assert s.fsm.events + [TimerTimeout] == [TimerTimeout];
    case DelayTimer => DelayKeeps(cfg, s, env);
    case DiscoveryTimer => DiscoveryKeepsBooks(cfg, s);
  }

  // ---------------------------------------------------------------- the constructed master

  lemma {:induction false} TokensCount(t: seq<Line>, x: Action)
    requires forall i, j :: 0 <= i < j < |t| ==> t[i].addr != t[j].addr
    ensures multiset(Tokens(t))[x] == if x.SendToken? && HasLine(t, x.addr) then 1 else 0
  {
    if t != [] {
      var n := |t| - 1;
      TokensCount(t[..n], x);
      assert Tokens(t) == Tokens(t[..n]) + [SendToken(t[n].addr)];
      assert t == t[..n] + [t[n]];
      HasLineAfterAppend(t[..n], t[n]);
    }
  }

  lemma BootKeepsPool(cfg: Config, uids: int -> UniqueId)
    requires cfg.Valid()
    ensures PoolOk(cfg, Dyn(StaticLines(cfg.staticLow, cfg.staticHigh, uids), Pool(cfg.dynLow, cfg.dynHigh), None))
  {
    var t, free := StaticLines(cfg.staticLow, cfg.staticHigh, uids), Pool(cfg.dynLow, cfg.dynHigh);
    forall a: Address | cfg.IsStatic(a) ensures HasLine(t, a) {
      assert t[a - cfg.staticLow].addr == a;
    }
    forall a: Address ensures a in free <==> cfg.IsDynamic(a) && !HasLine(t, a) {
      if cfg.IsDynamic(a) {
        assert free[cfg.dynHigh - a] == a;
      }
    }
  }

  /** The start-up actions give every static address its token and post one discovery. */
  lemma PostedInv(cfg: Config, uids: int -> UniqueId)
    requires cfg.Valid()
    ensures Inv(cfg, Posted(cfg, uids)) && Resting(Posted(cfg, uids))
  {
    var s := Posted(cfg, uids);
    var t := s.dyn.table;
    BootKeepsPool(cfg, uids);
    assert Actions([]) == [];
    assert AllActions(s.sched) == multiset{SendMasterStart} + multiset(Tokens(t)) + multiset{QueryAddress};
    forall x: Action ensures multiset(Tokens(t))[x] == if x.SendToken? && HasLine(t, x.addr) then 1 else 0 {
      TokensCount(t, x);
    }
  }

  lemma BootInv(cfg: Config, uids: int -> UniqueId, env: Env)
    requires cfg.Valid()
    ensures var s := Boot(cfg, uids, env);
            && Inv(cfg, s) && Pending(s) && s.fault == NoFault && s.sent == []
            && s.current == SendMasterStart && s.started == [SendMasterStart]
            && s.dyn == Posted(cfg, uids).dyn
  {
    var s := Posted(cfg, uids);
    PostedInv(cfg, uids);
    LookKeepsBooks(cfg, s, env);
    assert Promoted(s.sched, env.now, env.hint).ready == s.sched.ready;
  }

  // ---------------------------------------------------------------- runs

  datatype Step = DispatchStep(env: Env) | StimulusStep(k: Stimulus, env: Env)

  /** The event loop is single-threaded: the outside is only heard when the queue is drained. */
  predicate CanStep(s: Master, st: Step) {
    && s.fault == NoFault
    && match st
       case DispatchStep(_) => s.fsm.events != []
       case StimulusStep(k, _) => s.fsm.events == [] && Enabled(s, k)
  }

  function Next(cfg: Config, s: Master, st: Step): Master
    requires CanStep(s, st)
  {
    match st
    case DispatchStep(env) => Dispatch(cfg, s, env)
    case StimulusStep(k, env) => Stimulate(s, k, env)
  }

  /** A run is any sequence of possible steps; `trace` lists the states it goes through. */
  ghost predicate IsRun(cfg: Config, trace: seq<Master>, steps: seq<Step>) {
    && |trace| == |steps| + 1
    && forall i :: 0 <= i < |steps| ==> CanStep(trace[i], steps[i]) && trace[i + 1] == Next(cfg, trace[i], steps[i])
  }

  ghost predicate BootedRun(cfg: Config, uids: int -> UniqueId, env: Env, trace: seq<Master>, steps: seq<Step>) {
    cfg.Valid() && IsRun(cfg, trace, steps) && trace[0] == Boot(cfg, uids, env)
  }

  lemma StepKeeps(cfg: Config, s: Master, st: Step)
    requires Inv(cfg, s) && CanStep(s, st)
    ensures Inv(cfg, Next(cfg, s, st)) && Log(s) <= Log(Next(cfg, s, st))
  {
    match st
    case DispatchStep(env) => DispatchKeeps(cfg, s, env);
    case StimulusStep(k, env) => StimulusKeeps(cfg, s, k, env);
  }

  /** The step that led to state `j` of a run. */
  lemma StepBefore(cfg: Config, trace: seq<Master>, steps: seq<Step>, j: nat)
    requires IsRun(cfg, trace, steps) && 0 < j < |trace|
    ensures CanStep(trace[j - 1], steps[j - 1]) && trace[j] == Next(cfg, trace[j - 1], steps[j - 1])
  {
  }

  lemma StepKeepsLog(cfg: Config, s: Master, st: Step, s': Master, log: seq<Action>)
    requires Inv(cfg, s) && CanStep(s, st) && s' == Next(cfg, s, st) && log <= Log(s)
    ensures log <= Log(s')
  {
    StepKeeps(cfg, s, st);
  }

  lemma {:induction false} RunKeeps(cfg: Config, trace: seq<Master>, steps: seq<Step>, i: nat)
    requires IsRun(cfg, trace, steps) && Inv(cfg, trace[0]) && i < |trace|
    ensures Inv(cfg, trace[i])
  {
    if i > 0 {
      RunKeeps(cfg, trace, steps, i - 1);
      StepKeeps(cfg, trace[i - 1], steps[i - 1]);
    }
  }

  lemma {:induction false} RunKeepsPrefix(cfg: Config, trace: seq<Master>, steps: seq<Step>, i: nat, j: nat,
                                          log: seq<Action>)
    requires IsRun(cfg, trace, steps) && Inv(cfg, trace[0]) && i <= j < |trace| && log <= Log(trace[i])
    ensures log <= Log(trace[j])
    decreases j - i
  {
    if i < j {
      RunKeeps(cfg, trace, steps, i);
      StepBefore(cfg, trace, steps, i + 1);
      StepKeepsLog(cfg, trace[i], steps[i], trace[i + 1], log);
      RunKeepsPrefix(cfg, trace, steps, i + 1, j, log);
    }
  }

  lemma RunKeepsLog(cfg: Config, trace: seq<Master>, steps: seq<Step>, i: nat, j: nat)
    requires IsRun(cfg, trace, steps) && Inv(cfg, trace[0]) && i <= j < |trace|
    ensures Log(trace[i]) <= Log(trace[j])
  {
    RunKeepsPrefix(cfg, trace, steps, i, j, Log(trace[i]));
  }

  lemma ReachableInv(cfg: Config, uids: int -> UniqueId, env: Env, trace: seq<Master>, steps: seq<Step>, i: nat)
    requires BootedRun(cfg, uids, env, trace, steps) && i < |trace|
    ensures Inv(cfg, trace[i])
  {
    BootInv(cfg, uids, env);
    RunKeeps(cfg, trace, steps, i);
  }
}
