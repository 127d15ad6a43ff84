/** How long the master waits, in every state and over every run. */
module MasterTimers {
  import opened Prelude
  import opened Protocol
  import opened Scheduler
  import opened MasterModel
  import opened MasterInvariant
  import opened MasterSteps
  import opened MasterRuns
  import opened MasterLines

  // ---------------------------------------------------------------- the state timer

  /** How long a state waits before it gives up or looks again. */
  function Patience(cfg: Config, st: FsmState): Time {
    match st
    case IdleState => 0.0
    case StartMaster => cfg.startEcho
    case SendingToken => cfg.grantEcho
    case WaitClientPacketDone => cfg.clientTimeout
    case QueryAddressState => cfg.clientTimeout
    case WaitAddressReply => cfg.clientTimeout
  }

  function Deadline(cfg: Config, st: FsmState, now: Time): Time { now + Patience(cfg, st) }

  /** The step enters a state that waits, or stays in one whose timer has just run out. */
  predicate BeginsToWait(s: Master, st: Step, s': Master) {
    && st.DispatchStep? && s'.fsm.state != IdleState
    && (s'.fsm.state != s.fsm.state || s.fsm.events == [TimerTimeout])
  }

  /** What a step does to the timer of a state that waits. */
  ghost predicate TimerFollows(cfg: Config, s: Master, st: Step, s': Master) {
    s'.fault == NoFault && s'.fsm.state != IdleState && s'.fsm.timer.Some? ==>
      if BeginsToWait(s, st, s') then s'.fsm.timer.value == Deadline(cfg, s'.fsm.state, st.env.now)
      else s.fault == NoFault && s'.fsm.timer == s.fsm.timer && s'.fsm.state == s.fsm.state
  }

  lemma QuietTimer(cfg: Config, s: Master, env: Env)
    requires Phase(s) && s.fault == NoFault && s.fsm.events != []
    requires var r := Decision(cfg, s, env); !r.Finish? && !r.Answer?
    ensures TimerFollows(cfg, s, DispatchStep(env), Dispatch(cfg, s, env))
  {
    DecisionFits(cfg, s, env);
  }

  lemma DispatchTimer(cfg: Config, s: Master, env: Env)
    requires Inv(cfg, s) && s.fault == NoFault && s.fsm.events != []
    ensures TimerFollows(cfg, s, DispatchStep(env), Dispatch(cfg, s, env))
  {
    DecisionFits(cfg, s, env);
    match Decision(cfg, s, env)
    case Finish(rv) =>
      if rv.Timeout? { UnheardStartDies(cfg, s, env); } else { FinishCloses(cfg, s, rv, env); }
    case Answer(id) =>
      AnswerShape(cfg, s, id, env);
      RequestReplies(s, id);
    case _ => QuietTimer(cfg, s, env);
  }

  lemma StepTimer(cfg: Config, s: Master, st: Step, s': Master)
    requires Inv(cfg, s) && CanStep(s, st) && s' == Next(cfg, s, st)
    ensures TimerFollows(cfg, s, st, s')
  {
    match st
    case DispatchStep(env) => DispatchTimer(cfg, s, env);
    case StimulusStep(k, env) =>
      if k.DelayTimer? { DelayKeeps(cfg, s, env); }
  }

  /** The last step before state `i` of a run that began to wait. */
  ghost function LastWait(trace: seq<Master>, steps: seq<Step>, i: nat): (k: Option<nat>)
    requires i < |trace| == |steps| + 1
    ensures k.Some? ==> k.value < i
  {
    if i == 0 then None
    else if BeginsToWait(trace[i - 1], steps[i - 1], trace[i]) then Some(i - 1)
    else LastWait(trace, steps, i - 1)
  }

  predicate Waits(s: Master) { s.fault == NoFault && s.fsm.state != IdleState && s.fsm.timer.Some? }

  /** In every run, the timer of a state that waits is set for the time of the step that entered the state or
      armed its timer again, plus exactly the delay of that state. */
  lemma {:induction false} TimersOnSchedule(cfg: Config, uids: int -> UniqueId, env: Env,
                                            trace: seq<Master>, steps: seq<Step>, i: nat)
    requires BootedRun(cfg, uids, env, trace, steps) && i < |trace|
    ensures var k := LastWait(trace, steps, i);
            Waits(trace[i]) ==>
              k.Some? && trace[i].fsm.timer.value == Deadline(cfg, trace[i].fsm.state, steps[k.value].env.now)
  {
    if i == 0 {
      BootInv(cfg, uids, env);
    } else {
      StepBefore(cfg, trace, steps, i);
      ReachableInv(cfg, uids, env, trace, steps, i - 1);
      StepTimer(cfg, trace[i - 1], steps[i - 1], trace[i]);
      TimersOnSchedule(cfg, uids, env, trace, steps, i - 1);
    }
  }

  // ---------------------------------------------------------------- the discovery timer

  function NextQuery(cfg: Config, now: Time): Time { now + cfg.queryPeriod }

  /** The step ends a query, answered or not. */
  predicate EndsQuery(s: Master, st: Step, s': Master) {
    st.DispatchStep? && s.current == QueryAddress && s'.current != QueryAddress
  }

  lemma OwedByTimer(cfg: Config, s: Master)
    requires Inv(cfg, s) && s.dyn.discovery.Some?
    ensures s.current != QueryAddress
  {
    assert Outstanding(s)[QueryAddress] == 0;
  }

  lemma DiscoveryStays(cfg: Config, s: Master, rv: ReturnValue, now: Time)
    ensures Recorded(cfg, s, rv, now).dyn.discovery
            == if rv == AddressQueryDone then Some(NextQuery(cfg, now)) else s.dyn.discovery
  {
  }

  lemma DynDiscovery(cfg: Config, s: Master, env: Env)
    requires s.fault == NoFault && s.fsm.events != []
    ensures DynAfter(cfg, s, DispatchStep(env)).discovery
            == if Decision(cfg, s, env) == Finish(AddressQueryDone) then Some(NextQuery(cfg, env.now))
               else s.dyn.discovery
  {
    if Decision(cfg, s, env).Finish? { DiscoveryStays(cfg, s, Decision(cfg, s, env).rv, env.now); }
  }

  /** Only the end of a query takes it from the handler. */
  lemma QueryIsKept(cfg: Config, s: Master, env: Env)
    requires Inv(cfg, s) && s.fault == NoFault && s.fsm.events != []
    requires s.current == QueryAddress && Decision(cfg, s, env) != Finish(AddressQueryDone)
    ensures Dispatch(cfg, s, env).current == QueryAddress
  {
    DecisionFits(cfg, s, env);
    if Decision(cfg, s, env).Answer? {
      AnswerShape(cfg, s, Decision(cfg, s, env).id, env);
      RequestReplies(s, Decision(cfg, s, env).id);
    } else {
      QuietDispatch(cfg, s, env);
    }
  }

  lemma EndsExactly(cfg: Config, s: Master, env: Env, s': Master)
    requires Inv(cfg, s) && s.fault == NoFault && s.fsm.events != [] && s' == Dispatch(cfg, s, env) && Inv(cfg, s')
    requires s'.dyn == DynAfter(cfg, s, DispatchStep(env))
    ensures EndsQuery(s, DispatchStep(env), s') <==> Decision(cfg, s, env) == Finish(AddressQueryDone)
  {
    DecisionFits(cfg, s, env);
    if Decision(cfg, s, env) == Finish(AddressQueryDone) {
      DynDiscovery(cfg, s, env);
      OwedByTimer(cfg, s');
    } else if s.current == QueryAddress {
      QueryIsKept(cfg, s, env);
    }
  }

  /** What a step does to the discovery timer. */
  ghost predicate DiscoveryFollows(cfg: Config, s: Master, st: Step, s': Master) {
    s'.dyn.discovery
    == if EndsQuery(s, st, s') then Some(NextQuery(cfg, st.env.now))
       else if st.StimulusStep? && st.k == DiscoveryTimer then None
       else s.dyn.discovery
  }

  lemma DispatchDiscovery(cfg: Config, s: Master, env: Env, s': Master)
    requires Inv(cfg, s) && s.fault == NoFault && s.fsm.events != [] && s' == Dispatch(cfg, s, env)
    ensures DiscoveryFollows(cfg, s, DispatchStep(env), s')
  {
    NextDyn(cfg, s, DispatchStep(env));
    DispatchKeeps(cfg, s, env);
    EndsExactly(cfg, s, env, s');
    DynDiscovery(cfg, s, env);
  }

  lemma StepDiscovery(cfg: Config, s: Master, st: Step, s': Master)
    requires Inv(cfg, s) && CanStep(s, st) && s' == Next(cfg, s, st)
    ensures DiscoveryFollows(cfg, s, st, s')
  {
    match st
    case DispatchStep(env) => DispatchDiscovery(cfg, s, env, s');
    case StimulusStep(k, env) =>
      if k.DelayTimer? { DelayKeeps(cfg, s, env); }
  }

  /** The step that ended the last query before state `i` of a run, unless the discovery timer has fired since. */
  ghost function LastQuery(trace: seq<Master>, steps: seq<Step>, i: nat): (k: Option<nat>)
    requires i < |trace| == |steps| + 1
    ensures k.Some? ==> k.value < i
  {
    if i == 0 then None
    else if EndsQuery(trace[i - 1], steps[i - 1], trace[i]) then Some(i - 1)
    else if steps[i - 1].StimulusStep? && steps[i - 1].k == DiscoveryTimer then None
    else LastQuery(trace, steps, i - 1)
  }

  /** In every run, the discovery timer is armed if and only if a query has ended and the timer has not fired
      since, and then for exactly one query period after that end. */
  lemma {:induction false} DiscoveryOnSchedule(cfg: Config, uids: int -> UniqueId, env: Env,
                                               trace: seq<Master>, steps: seq<Step>, i: nat)
    requires BootedRun(cfg, uids, env, trace, steps) && i < |trace|
    ensures var k := LastQuery(trace, steps, i);
            trace[i].dyn.discovery == if k.None? then None else Some(NextQuery(cfg, steps[k.value].env.now))
  {
    if i == 0 {
      BootInv(cfg, uids, env);
    } else {
      StepBefore(cfg, trace, steps, i);
      ReachableInv(cfg, uids, env, trace, steps, i - 1);
      StepDiscovery(cfg, trace[i - 1], steps[i - 1], trace[i]);
      DiscoveryOnSchedule(cfg, uids, env, trace, steps, i - 1);
    }
  }
}
