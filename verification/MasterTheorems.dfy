/** What holds in every reachable state of the master, and over every run. */
module MasterTheorems {
  import opened Prelude
  import opened Bytes
  import opened Protocol
  import opened Scheduler
  import opened MasterModel
  import opened MasterInvariant
  import opened MasterSteps
  import opened MasterRuns

  function One(b: bool): nat { if b then 1 else 0 }

  /** Each address with a line has exactly one token, in exactly one place; no other address has
      any. So the line looked up for a result always exists, and no assertion of the program ever
      fails except the one an unheard start-up message runs into. */
  lemma OneTokenPerAddress(cfg: Config, uids: int -> UniqueId, env: Env, trace: seq<Master>, steps: seq<Step>,
                           i: nat, a: Address)
    requires BootedRun(cfg, uids, env, trace, steps) && i < |trace|
    ensures var s := trace[i];
            && multiset(s.sched.ready)[SendToken(a)] + multiset(Actions(s.sched.waiting))[SendToken(a)]
               + One(s.current == SendToken(a)) == One(HasLine(s.dyn.table, a))
            && (s.fault == NoFault || (s.fault == BadReport && s.fsm.state == StartMaster))
  {
    ReachableInv(cfg, uids, env, trace, steps, i);
    assert Outstanding(trace[i])[SendToken(a)] == One(HasLine(trace[i].dyn.table, a));
  }

  /** Between dispatches the machine and the handler agree. `check_new_command` is only ever
      dispatched in idle with an action to decode, and a timeout never reaches idle. */
  lemma MachineAndHandlerAgree(cfg: Config, uids: int -> UniqueId, env: Env, trace: seq<Master>, steps: seq<Step>,
                               i: nat)
    requires BootedRun(cfg, uids, env, trace, steps) && i < |trace| && trace[i].fault == NoFault
    ensures var s := trace[i];
            && s.fsm.action == s.current
            && (s.fsm.state != IdleState ==> Matches(s.fsm.state, s.current))
            && (s.fsm.state == IdleState && s.current != DoNothing ==> s.fsm.events == [CheckNewCommand] || Stalled(s))
            && (CheckNewCommand in s.fsm.events ==>
                  s.fsm.events == [CheckNewCommand] && s.fsm.state == IdleState && s.current != DoNothing)
            && (TimerTimeout in s.fsm.events ==> s.fsm.events == [TimerTimeout] && s.fsm.state != IdleState)
  {
    ReachableInv(cfg, uids, env, trace, steps, i);
  }

  /** Exactly one discovery is owed at any time: queued, under way, or on the timer. */
  lemma OneDiscoveryObligation(cfg: Config, uids: int -> UniqueId, env: Env, trace: seq<Master>, steps: seq<Step>,
                               i: nat)
    requires BootedRun(cfg, uids, env, trace, steps) && i < |trace|
    ensures var s := trace[i];
            && multiset(s.sched.ready)[QueryAddress] + One(s.current == QueryAddress)
               + One(s.dyn.discovery.Some?) == 1
            && QueryAddress !in Actions(s.sched.waiting)
  {
    ReachableInv(cfg, uids, env, trace, steps, i);
    var s := trace[i];
    forall k | 0 <= k < |s.sched.waiting| ensures Actions(s.sched.waiting)[k] != QueryAddress {
      assert s.sched.waiting[k] in s.sched.waiting;
    }
    assert multiset(Actions(s.sched.waiting))[QueryAddress] == 0;
    assert Outstanding(s)[QueryAddress] + One(s.dyn.discovery.Some?) == 1;
  }

  // ---------------------------------------------------------------- no starvation

  /** In a log that only grows at its end, an element that is absent from the queued part can only
      be started after all of that part. */
  lemma QueuedGoFirst<T>(started: seq<T>, ready: seq<T>, started': seq<T>, ready': seq<T>, x: T)
    requires started + ready <= started' + ready' && x !in ready
    requires |started'| > |started| && started'[|started'| - 1] == x
    ensures started + ready <= started'
  {
    var k := |started'| - 1;
    assert (started' + ready')[k] == x;
    assert forall i :: |started| <= i < |started + ready| ==> (started + ready)[i] == ready[i - |started|];
  }

  /** Ready actions are started in order, and none is dropped. */
  lemma LogGrows(cfg: Config, uids: int -> UniqueId, env: Env, trace: seq<Master>, steps: seq<Step>, i: nat, j: nat)
    requires BootedRun(cfg, uids, env, trace, steps) && i <= j < |trace|
    ensures trace[i].started + trace[i].sched.ready <= trace[j].started + trace[j].sched.ready
  {
    BootInv(cfg, uids, env);
    RunKeepsLog(cfg, trace, steps, i, j);
  }

  /** A busy client cannot starve the others: when address `a`'s token is started again, everything
      that stood ready while it was current before has been started in between, in order. */
  lemma NoStarvation(cfg: Config, uids: int -> UniqueId, env: Env, trace: seq<Master>, steps: seq<Step>,
                     i: nat, j: nat, a: Address)
    requires BootedRun(cfg, uids, env, trace, steps) && i < j < |trace|
    requires trace[i].current == SendToken(a)
    requires |trace[j].started| > |trace[i].started|
             && trace[j].started[|trace[j].started| - 1] == SendToken(a)
    ensures trace[i].started + trace[i].sched.ready <= trace[j].started
  {
    LogGrows(cfg, uids, env, trace, steps, i, j);
    OneTokenPerAddress(cfg, uids, env, trace, steps, i, a);
    QueuedGoFirst(trace[i].started, trace[i].sched.ready, trace[j].started, trace[j].sched.ready, SendToken(a));
  }

  // ---------------------------------------------------------------- stalling

  /** Stalled, and nothing was sent or started since `s`. */
  predicate StillStalled(s: Master, s': Master) {
    Stalled(s') && s'.fault == NoFault && s'.sent == s.sent && s'.started == s.started
  }

  lemma StalledStays(cfg: Config, s: Master, st: Step)
    requires s.fault == NoFault && Stalled(s) && CanStep(s, st)
    ensures StillStalled(s, Next(cfg, s, st))
  {
    match st
    case DispatchStep(e) => assert Decision(cfg, s, e) == Ignore;
    case StimulusStep(k, e) =>
      if k.Packet? { assert s.fsm.events + [k.event] == [k.event]; }
  }

  lemma StalledStep(cfg: Config, s: Master, s1: Master, st: Step, s2: Master)
    requires StillStalled(s, s1) && CanStep(s1, st) && s2 == Next(cfg, s1, st)
    ensures StillStalled(s, s2)
  {
    StalledStays(cfg, s1, st);
  }

  /** Once the echo of a grant is not heard, the master never sends or starts anything again. */
  lemma {:induction false} StalledForever(cfg: Config, trace: seq<Master>, steps: seq<Step>, i: nat, j: nat)
    requires IsRun(cfg, trace, steps) && i <= j < |trace| && trace[i].fault == NoFault && Stalled(trace[i])
    ensures StillStalled(trace[i], trace[j])
    decreases j
  {
    if i < j {
      StalledForever(cfg, trace, steps, i, j - 1);
      StalledStep(cfg, trace[i], trace[j - 1], steps[j - 1], trace[j]);
    }
  }

  /** A step that gives up on the echo of a grant. */
  predicate UnheardGrant(s: Master, st: Step) {
    st.DispatchStep? && s.fsm.state == SendingToken && s.fsm.events == [TimerTimeout]
  }

  /** A step that gives up on the echo of the start-up message. */
  predicate UnheardStart(s: Master, st: Step) {
    st.DispatchStep? && s.fsm.state == StartMaster && s.fsm.events == [TimerTimeout]
  }

  /** What a dispatch must do to the ways of stopping. */
  ghost predicate StopsRightly(s: Master, env: Env, s': Master) {
    && (s'.fault != NoFault <==> UnheardStart(s, DispatchStep(env)))
    && (s'.fault == NoFault ==> (Stalled(s') <==> Stalled(s) || UnheardGrant(s, DispatchStep(env))))
  }

  lemma QuietStalls(cfg: Config, s: Master, env: Env)
    requires Phase(s) && s.fault == NoFault && s.fsm.events != []
    requires var r := Decision(cfg, s, env); !r.Finish? && !r.Answer?
    ensures StopsRightly(s, env, Dispatch(cfg, s, env))
  {
    QuietDispatch(cfg, s, env);
  }

  lemma FinishStalls(cfg: Config, s: Master, env: Env, s': Master, rv: ReturnValue)
    requires Phase(s) && s.fault == NoFault && s.fsm.events != [] && Decision(cfg, s, env) == Finish(rv)
    requires if rv.Timeout? then s'.fault != NoFault else s'.fault == NoFault && (Pending(s') || Resting(s'))
    ensures StopsRightly(s, env, s')
  {
    DecisionFits(cfg, s, env);
  }

  lemma AnswerStalls(cfg: Config, s: Master, env: Env, id: UniqueId)
    requires Phase(s) && s.fault == NoFault && s.fsm.events != [] && Decision(cfg, s, env) == Answer(id)
    ensures StopsRightly(s, env, Dispatch(cfg, s, env))
  {
    DecisionFits(cfg, s, env);
    AnswerShape(cfg, s, id, env);
    AnswerEmits(cfg, s, id, env.now);
  }

  lemma DispatchStalls(cfg: Config, s: Master, env: Env)
    requires Inv(cfg, s) && s.fault == NoFault && s.fsm.events != []
    ensures StopsRightly(s, env, Dispatch(cfg, s, env))
  {
    DecisionFits(cfg, s, env);
    match Decision(cfg, s, env)
    case Finish(rv) =>
      if rv.Timeout? { UnheardStartDies(cfg, s, env); } else { FinishCloses(cfg, s, rv, env); }
      FinishStalls(cfg, s, env, Dispatch(cfg, s, env), rv);
    case Answer(id) => AnswerStalls(cfg, s, env, id);
    case _ => QuietStalls(cfg, s, env);
  }

  lemma DelayStalls(cfg: Config, s: Master, env: Env)
    requires Inv(cfg, s) && s.fault == NoFault && s.fsm.events == [] && s.delay.Some?
    ensures var s' := Stimulate(s, DelayTimer, env); s'.fault == NoFault && !Stalled(s') && !Stalled(s)
  {
    DelayKeeps(cfg, s, env);
  }

  lemma StimulusStalls(cfg: Config, s: Master, k: Stimulus, env: Env)
    requires Inv(cfg, s) && s.fault == NoFault && s.fsm.events == [] && Enabled(s, k)
    ensures var s' := Stimulate(s, k, env); s'.fault == NoFault && (Stalled(s') <==> Stalled(s))
  {
    match k
    case Packet(e) => assert s.fsm.events + [e] == [e];
    case FsmTimer => assert s.fsm.events + [TimerTimeout] == [TimerTimeout];
    case DelayTimer => DelayStalls(cfg, s, env);
    case DiscoveryTimer =>
  }

  lemma StepStalls(cfg: Config, s: Master, st: Step)
    requires Inv(cfg, s) && CanStep(s, st)
    ensures var s' := Next(cfg, s, st);
            && (s'.fault != NoFault <==> UnheardStart(s, st))
            && (s'.fault == NoFault ==> (Stalled(s') <==> Stalled(s) || UnheardGrant(s, st)))
  {
    match st
    case DispatchStep(e) => DispatchStalls(cfg, s, e);
    case StimulusStep(k, e) => StimulusStalls(cfg, s, k, e);
  }

  /** The two ways a run can go wrong, and their only causes: the master is stalled exactly when the
      echo of some grant was given up on, and dead exactly when that of the start-up message was. */
  lemma {:induction false} StopsExactlyWhenUnheard(cfg: Config, uids: int -> UniqueId, env: Env,
                                                   trace: seq<Master>, steps: seq<Step>, i: nat)
    requires BootedRun(cfg, uids, env, trace, steps) && i < |trace|
    ensures trace[i].fault != NoFault <==> exists k :: 0 <= k < i && UnheardStart(trace[k], steps[k])
    ensures trace[i].fault == NoFault ==>
              (Stalled(trace[i]) <==> exists k :: 0 <= k < i && UnheardGrant(trace[k], steps[k]))
  {
    if i == 0 {
      BootInv(cfg, uids, env);
    } else {
      StopsExactlyWhenUnheard(cfg, uids, env, trace, steps, i - 1);
      ReachableInv(cfg, uids, env, trace, steps, i - 1);
      StepStalls(cfg, trace[i - 1], steps[i - 1]);
    }
  }

  // ---------------------------------------------------------------- no lost wake-up

  /** A resting handler has something to wait for, and its timer is armed for exactly that. */
  ghost predicate Wakeful(s: Master) {
    s.fault == NoFault && Resting(s) ==> s.sched.waiting != [] && s.delay == Some(ReadyTime(s.sched.waiting))
  }

  /** With a static address configured, a handler that found nothing ready has a token waiting. */
  lemma RestingHasTokenWaiting(cfg: Config, s: Master, now: Time)
    requires cfg.Valid() && Books(cfg, s) && cfg.staticLow <= cfg.staticHigh && now >= 1.0
    requires s.current == DoNothing && s.sched.ready == []
    requires forall x :: x in s.sched.waiting ==> x.time > now
    ensures s.sched.waiting != [] && ReadyTime(s.sched.waiting) >= 1.0
  {
    var a: Address := cfg.staticLow;
    assert HasLine(s.dyn.table, a);
    assert Outstanding(s)[SendToken(a)] == 1;
    assert s.sched.waiting == [] ==> multiset(Actions(s.sched.waiting)) == multiset{};
    ReadyTimeIsEarliest(s.sched.waiting);
  }

  lemma ClosedIsWakeful(cfg: Config, s: Master, s': Master, now: Time)
    requires cfg.Valid() && Closed(cfg, s, s', now) && cfg.staticLow <= cfg.staticHigh && now >= 1.0
    ensures Wakeful(s')
  {
    if Resting(s') { RestingHasTokenWaiting(cfg, s', now); }
  }

  lemma DispatchKeepsWakeful(cfg: Config, s: Master, env: Env)
    requires Inv(cfg, s) && s.fault == NoFault && s.fsm.events != [] && Wakeful(s)
    requires cfg.staticLow <= cfg.staticHigh && env.now >= 1.0
    ensures Wakeful(Dispatch(cfg, s, env))
  {
    DecisionFits(cfg, s, env);
    match Decision(cfg, s, env)
    case Finish(rv) =>
      if rv.Timeout? {
        UnheardStartDies(cfg, s, env);
      } else {
        FinishCloses(cfg, s, rv, env);
        ClosedIsWakeful(cfg, s, Dispatch(cfg, s, env), env.now);
      }
    case Answer(id) =>
      AnswerShape(cfg, s, id, env);
      AnswerEmits(cfg, s, id, env.now);
    case _ => QuietDispatch(cfg, s, env);
  }

  lemma StimulusKeepsWakeful(cfg: Config, s: Master, k: Stimulus, env: Env)
    requires Inv(cfg, s) && s.fault == NoFault && s.fsm.events == [] && Enabled(s, k) && Wakeful(s)
    requires cfg.staticLow <= cfg.staticHigh && env.now >= 1.0
    ensures Wakeful(Stimulate(s, k, env))
  {
    if k.DelayTimer? {
      DelayKeeps(cfg, s, env);
      var s' := Stimulate(s, k, env);
      if Resting(s') { RestingHasTokenWaiting(cfg, s', env.now); }
    }
  }

  /** A timer armed for a time before one second is taken for "nothing waits". */
  predicate ClockRuns(steps: seq<Step>) {
    forall k :: 0 <= k < |steps| ==> steps[k].env.now >= 1.0
  }

  lemma {:induction false} RunIsWakeful(cfg: Config, uids: int -> UniqueId, env: Env, trace: seq<Master>,
                                        steps: seq<Step>, i: nat)
    requires BootedRun(cfg, uids, env, trace, steps) && i < |trace| && cfg.staticLow <= cfg.staticHigh
    requires ClockRuns(steps)
    ensures Wakeful(trace[i])
  {
    if i == 0 {
      BootInv(cfg, uids, env);
    } else {
      RunIsWakeful(cfg, uids, env, trace, steps, i - 1);
      ReachableInv(cfg, uids, env, trace, steps, i - 1);
      match steps[i - 1]
      case DispatchStep(e) => DispatchKeepsWakeful(cfg, trace[i - 1], e);
      case StimulusStep(k, e) => StimulusKeepsWakeful(cfg, trace[i - 1], k, e);
    }
  }

  /** No lost wake-up: a quiescent master either waits in a state whose timer is armed, or rests with
      its delay timer armed for exactly the earliest waiting time, or is stalled. */
  lemma NoLostWakeUp(cfg: Config, uids: int -> UniqueId, env: Env, trace: seq<Master>, steps: seq<Step>, i: nat)
    requires BootedRun(cfg, uids, env, trace, steps) && i < |trace| && cfg.staticLow <= cfg.staticHigh
    requires ClockRuns(steps)
    requires trace[i].fault == NoFault && trace[i].fsm.events == []
    ensures var s := trace[i];
            || (s.fsm.state != IdleState && s.fsm.timer.Some?)
            || (&& s.fsm.state == IdleState && s.current == DoNothing && s.delay.Some?
                && (exists x :: x in s.sched.waiting && x.time == s.delay.value)
                && (forall x :: x in s.sched.waiting ==> s.delay.value <= x.time))
            || Stalled(s)
  {
    ReachableInv(cfg, uids, env, trace, steps, i);
    RunIsWakeful(cfg, uids, env, trace, steps, i);
    if Resting(trace[i]) { ReadyTimeIsEarliest(trace[i].sched.waiting); }
  }

  // ---------------------------------------------------------------- the delay timer exactly

  /** The timer that a handler at rest should have. */
  function RestTimer(w: seq<Waiting>): Option<Time> {
    if ReadyTime(w) < 1.0 then None else Some(ReadyTime(w))
  }

  ghost predicate Armed(s: Master) {
    s.fault == NoFault && Resting(s) ==> s.delay == RestTimer(s.sched.waiting)
  }

  lemma DispatchKeepsArmed(cfg: Config, s: Master, env: Env)
    requires Inv(cfg, s) && s.fault == NoFault && s.fsm.events != [] && Armed(s)
    ensures Armed(Dispatch(cfg, s, env))
  {
    DecisionFits(cfg, s, env);
    match Decision(cfg, s, env)
    case Finish(rv) =>
      if rv.Timeout? { UnheardStartDies(cfg, s, env); } else { FinishCloses(cfg, s, rv, env); }
    case Answer(id) =>
      AnswerShape(cfg, s, id, env);
      AnswerEmits(cfg, s, id, env.now);
    case _ => QuietDispatch(cfg, s, env);
  }

  lemma StimulusKeepsArmed(cfg: Config, s: Master, k: Stimulus, env: Env)
    requires Inv(cfg, s) && s.fault == NoFault && s.fsm.events == [] && Enabled(s, k) && Armed(s)
    ensures Armed(Stimulate(s, k, env))
  {
    if k.DelayTimer? { DelayKeeps(cfg, s, env); }
  }

  lemma {:induction false} RunIsArmed(cfg: Config, uids: int -> UniqueId, env: Env, trace: seq<Master>,
                                      steps: seq<Step>, i: nat)
    requires BootedRun(cfg, uids, env, trace, steps) && i < |trace|
    ensures Armed(trace[i])
  {
    if i == 0 {
      BootInv(cfg, uids, env);
    } else {
      RunIsArmed(cfg, uids, env, trace, steps, i - 1);
      ReachableInv(cfg, uids, env, trace, steps, i - 1);
      match steps[i - 1]
      case DispatchStep(e) => DispatchKeepsArmed(cfg, trace[i - 1], e);
      case StimulusStep(k, e) => StimulusKeepsArmed(cfg, trace[i - 1], k, e);
    }
  }

  /** In every run, whatever the clock shows: the delay timer of a handler at rest is armed if and only
      if something waits and the earliest waiting time is at least one second, and then for exactly
      that time. An earlier time is taken for an empty queue, and its wake-up is lost. */
  lemma ArmedExactlyWhenLate(cfg: Config, uids: int -> UniqueId, env: Env, trace: seq<Master>, steps: seq<Step>, i: nat)
    requires BootedRun(cfg, uids, env, trace, steps) && i < |trace|
    requires trace[i].fault == NoFault && trace[i].fsm.state == IdleState && trace[i].current == DoNothing
    ensures var s := trace[i];
            && (s.delay.Some? <==> s.sched.waiting != [] && forall x :: x in s.sched.waiting ==> x.time >= 1.0)
            && (s.delay.Some? ==>
                  && (exists x :: x in s.sched.waiting && x.time == s.delay.value)
                  && (forall x :: x in s.sched.waiting ==> s.delay.value <= x.time))
  {
    RunIsArmed(cfg, uids, env, trace, steps, i);
    ReachableInv(cfg, uids, env, trace, steps, i);
    if trace[i].sched.waiting != [] { ReadyTimeIsEarliest(trace[i].sched.waiting); }
  }

  // ---------------------------------------------------------------- bounded reaction

  /** How many dispatches a queue can still cause while the clock and the own queue stand still. */
  function DispatchesLeft(cfg: Config, s: Master, env: Env): nat {
    if s.fault != NoFault || s.fsm.events == [] then 0
    else if s.fsm.events != [CheckNewCommand] then 3
    else if s.current == SendToken(cfg.own) && env.txEmpty then 2
    else 1
  }

  /** The own token is declined at most once per stimulus, because it then waits for later. */
  lemma DispatchMakesProgress(cfg: Config, s: Master, env: Env)
    requires Inv(cfg, s) && s.fault == NoFault && s.fsm.events != []
    ensures DispatchesLeft(cfg, Dispatch(cfg, s, env), env) < DispatchesLeft(cfg, s, env)
  {
    if s.fsm.events != [CheckNewCommand] {
      DispatchKeeps(cfg, s, env);
    } else if s.current == SendToken(cfg.own) && env.txEmpty {
      FinishCloses(cfg, s, RxTokenNoPacket, env);
      assert Decision(cfg, s, env) == Finish(RxTokenNoPacket);
    } else {
      QuietDispatch(cfg, s, env);
    }
  }

  /** As many turns of the drain loop as there are environments; a drained queue stays drained. */
  function Drain(cfg: Config, s: Master, envs: seq<Env>): Master
    decreases |envs|
  {
    if envs == [] || s.fault != NoFault || s.fsm.events == [] then s
    else Drain(cfg, Dispatch(cfg, s, envs[0]), envs[1..])
  }

  /** The clock, the own queue and the receiver stand still; only heap layouts may differ. */
  predicate Steady(envs: seq<Env>, env: Env) {
    forall i :: 0 <= i < |envs| ==>
      envs[i].now == env.now && envs[i].txEmpty == env.txEmpty && envs[i].rxBusy == env.rxBusy
  }

  /** A reaction so far: at most one transmission, and the log of actions has only grown. */
  ghost predicate Reacted(cfg: Config, s: Master, s': Master) {
    Emits(cfg, s, s') && Log(s) <= Log(s')
  }

  lemma ReactedChain(cfg: Config, s: Master, s1: Master, s2: Master)
    requires Reacted(cfg, s, s1) && Reacted(cfg, s1, s2)
    requires s1.fsm.events == [] ==> s2 == s1
    ensures Reacted(cfg, s, s2)
  {
  }

  lemma TurnKeeps(cfg: Config, s: Master, env: Env, e: Env)
    requires Inv(cfg, s) && s.fault == NoFault && s.fsm.events != [] && Steady([e], env)
    ensures var s' := Dispatch(cfg, s, e);
            Inv(cfg, s') && Reacted(cfg, s, s') && DispatchesLeft(cfg, s', env) < DispatchesLeft(cfg, s, env)
  {
    assert [e][0] == e;
    DispatchKeeps(cfg, s, e);
    DispatchMakesProgress(cfg, s, e);
  }

  lemma {:induction false} DrainKeeps(cfg: Config, s: Master, env: Env, envs: seq<Env>)
    requires Inv(cfg, s) && Steady(envs, env) && DispatchesLeft(cfg, s, env) <= |envs|
    ensures var s' := Drain(cfg, s, envs);
            Inv(cfg, s') && (s'.fault != NoFault || s'.fsm.events == []) && Reacted(cfg, s, s')
    decreases |envs|
  {
    if s.fault == NoFault && s.fsm.events != [] {
      var s1 := Dispatch(cfg, s, envs[0]);
      TurnKeeps(cfg, s, env, envs[0]);
      DrainKeeps(cfg, s1, env, envs[1..]);
      ReactedChain(cfg, s, s1, Drain(cfg, s1, envs[1..]));
    }
  }

  lemma {:induction false} DrainOneMore(cfg: Config, s: Master, envs: seq<Env>, env: Env)
    ensures var s' := Drain(cfg, s, envs);
            Drain(cfg, s, envs + [env])
            == if s'.fault != NoFault || s'.fsm.events == [] then s' else Dispatch(cfg, s', env)
    decreases |envs|
  {
    if envs == [] {
      assert ([] + [env])[1..] == [];
    } else if s.fault == NoFault && s.fsm.events != [] {
      DrainOneMore(cfg, Dispatch(cfg, s, envs[0]), envs[1..], env);
      assert (envs + [env])[1..] == envs[1..] + [env];
    }
  }

  /** The whole reaction to a stimulus, to the end of the drain loop. */
  function React(cfg: Config, s: Master, k: Stimulus, env: Env, envs: seq<Env>): Master {
    Drain(cfg, Stimulate(s, k, env), envs)
  }

  predicate Quiet(s: Master) { s.fault == NoFault && s.fsm.events == [] }

  /** Bounded reaction: with the clock and the own queue standing still, three dispatches drain the
      queue whatever stimulus arrived, and at most one packet is transmitted. */
  lemma BoundedReaction(cfg: Config, s: Master, k: Stimulus, env: Env, envs: seq<Env>)
    requires Inv(cfg, s) && Quiet(s) && Enabled(s, k) && |envs| == 3 && Steady(envs, env)
    ensures var s' := React(cfg, s, k, env, envs);
            Inv(cfg, s') && (s'.fault != NoFault || Quiet(s')) && Reacted(cfg, s, s')
  {
    StimulusKeeps(cfg, s, k, env);
    DrainKeeps(cfg, Stimulate(s, k, env), env, envs);
  }
}
