/** Where the master's promises stop holding: reachable states in which it sleeps, stalls, dies or gives
    a client an address that is not its own. */
module MasterLimits {
  import opened Prelude
  import opened Bytes
  import opened Protocol
  import opened Scheduler
  import opened MasterModel
  import opened MasterInvariant
  import opened MasterSteps
  import opened MasterRuns
  import opened MasterTheorems
  import opened MasterLines
  import opened MasterProgress

  /** No timer is armed and nothing is being done: no stimulus but a packet can come, and idle
      ignores packets. */
  predicate Asleep(s: Master) {
    && s.fault == NoFault && Resting(s) && s.delay == None && s.dyn.discovery == None
  }

  /** A master with nothing but the two start-up actions. */
  function Bare(cfg: Config, fsm: Fsm, current: Action, ready: seq<Action>, discovery: Option<Time>,
                sent: seq<Tx>, started: seq<Action>): Master
    requires cfg.Valid()
  {
    Master(fsm, current, None, Sched(ready, []), Dyn([], Pool(cfg.dynLow, cfg.dynHigh), discovery),
           sent, started, NoFault)
  }

  lemma NothingDue(now: Time, hint: seq<nat>, ready: seq<Action>)
    ensures Promoted(Sched(ready, []), now, hint) == Sched(ready, [])
  {
    assert Actions([]) == [];
    assert ready + [] == ready;
  }

  /** The bare master's states from start-up to sleep, with the clock at `t`. */
  function BareState(cfg: Config, t: Time, i: nat): Master
    requires cfg.Valid() && i <= 7
  {
    var S, Q := SendMasterStart, QueryAddress;
    if i == 0 then Bare(cfg, Fsm(IdleState, None, S, [CheckNewCommand]), S, [Q], None, [], [S])
    else if i == 1 then Bare(cfg, Fsm(StartMaster, Some(t + cfg.startEcho), S, []), S, [Q], None, [TxStart], [S])
    else if i == 2 then
      Bare(cfg, Fsm(StartMaster, Some(t + cfg.startEcho), S, [RxMasterStartStop]), S, [Q], None, [TxStart], [S])
    else if i == 3 then Bare(cfg, Fsm(IdleState, None, Q, [CheckNewCommand]), Q, [], None, [TxStart], [S, Q])
    else if i == 4 then
      Bare(cfg, Fsm(QueryAddressState, Some(t + cfg.clientTimeout), Q, []), Q, [], None, [TxStart, TxDiscovery], [S, Q])
    else if i == 5 then
      Bare(cfg, Fsm(QueryAddressState, None, Q, [TimerTimeout]), Q, [], None, [TxStart, TxDiscovery], [S, Q])
    else if i == 6 then
      Bare(cfg, Fsm(IdleState, None, DoNothing, []), DoNothing, [], Some(t + cfg.queryPeriod),
           [TxStart, TxDiscovery], [S, Q])
    else
      Bare(cfg, Fsm(IdleState, None, DoNothing, []), DoNothing, [Q], None, [TxStart, TxDiscovery], [S, Q])
  }

  function BareStep(env: Env, i: nat): Step {
    if i == 1 then StimulusStep(Packet(RxMasterStartStop), env)
    else if i == 4 then StimulusStep(FsmTimer, env)
    else if i == 6 then StimulusStep(DiscoveryTimer, env)
    else DispatchStep(env)
  }

  lemma BareBoot(cfg: Config, uids: int -> UniqueId, env: Env)
    requires cfg.Valid() && cfg.staticLow > cfg.staticHigh
    ensures Boot(cfg, uids, env) == BareState(cfg, env.now, 0)
  {
    var ready := [SendMasterStart, QueryAddress];
    NothingDue(env.now, env.hint, ready);
    assert [SendMasterStart] + Tokens([]) + [QueryAddress] == ready;
    assert ready[1..] == [QueryAddress];
  }

  lemma BareStarted(cfg: Config, env: Env)
    requires cfg.Valid()
    ensures Next(cfg, BareState(cfg, env.now, 2), DispatchStep(env)) == BareState(cfg, env.now, 3)
  {
    NothingDue(env.now, env.hint, [QueryAddress]);
    assert [QueryAddress][1..] == [] && [RxMasterStartStop, CheckNewCommand][1..] == [CheckNewCommand];
  }

  lemma BareQueried(cfg: Config, env: Env)
    requires cfg.Valid() && !env.rxBusy
    ensures Next(cfg, BareState(cfg, env.now, 5), DispatchStep(env)) == BareState(cfg, env.now, 6)
  {
    NothingDue(env.now, env.hint, []);
    var s, t := BareState(cfg, env.now, 5), [TxStart, TxDiscovery];
    var s1 := Bare(cfg, Fsm(QueryAddressState, None, DoNothing, [TimerTimeout]), DoNothing, [],
                   Some(env.now + cfg.queryPeriod), t, [SendMasterStart, QueryAddress]);
    assert CheckNewAction(s1, env) == s1;
    assert Report(cfg, s, AddressQueryDone, env) == s1;
    assert Decision(cfg, s, env) == Finish(AddressQueryDone);
    assert [TimerTimeout][1..] == [];
  }

  lemma BareNext(cfg: Config, env: Env, i: nat)
    requires cfg.Valid() && i < 7 && !env.rxBusy
    ensures CanStep(BareState(cfg, env.now, i), BareStep(env, i))
    ensures Next(cfg, BareState(cfg, env.now, i), BareStep(env, i)) == BareState(cfg, env.now, i + 1)
  {
    if i == 2 { BareStarted(cfg, env); }
    else if i == 5 { BareQueried(cfg, env); }
    else if i == 0 || i == 3 { assert [CheckNewCommand][1..] == []; }
  }

  /** Without static addresses the master falls asleep after its first discovery round. */
  lemma BareMasterFallsAsleep(cfg: Config, uids: int -> UniqueId, env: Env)
    returns (trace: seq<Master>, steps: seq<Step>)
    requires cfg.Valid() && cfg.staticLow > cfg.staticHigh && env.now >= 1.0 && !env.rxBusy
    ensures BootedRun(cfg, uids, env, trace, steps) && ClockRuns(steps)
    ensures Asleep(trace[|steps|])
  {
    trace := seq(8, i requires 0 <= i < 8 => BareState(cfg, env.now, i));
    steps := seq(7, i requires 0 <= i < 7 => BareStep(env, i));
    BareBoot(cfg, uids, env);
    forall i | 0 <= i < 7 ensures CanStep(trace[i], steps[i]) && trace[i + 1] == Next(cfg, trace[i], steps[i]) {
      BareNext(cfg, env, i);
    }
  }

  /** Nothing wakes a sleeping master: it never sends or starts anything again. */
  lemma {:induction false} AsleepForever(cfg: Config, trace: seq<Master>, steps: seq<Step>, j: nat)
    requires IsRun(cfg, trace, steps) && j < |trace| && Asleep(trace[0])
    ensures Asleep(trace[j]) && trace[j].sent == trace[0].sent && trace[j].started == trace[0].started
  {
    if j > 0 {
      AsleepForever(cfg, trace, steps, j - 1);
      var s := trace[j - 1];
      assert CanStep(s, steps[j - 1]);
      match steps[j - 1]
      case DispatchStep(e) => assert ReactionTo(cfg, s.fsm, s.fsm.events[0], e) == Ignore;
      case StimulusStep(k, e) => assert s.fsm.events + [k.event] == [k.event];
    }
  }

  /** Over all runs with the clock at one second or more, no wake-up is ever lost if and only if at
      least one static address is configured. */
  lemma WakeUpsNeedAStaticAddress(cfg: Config)
    requires cfg.Valid()
    ensures cfg.staticLow <= cfg.staticHigh <==>
              forall uids: int -> UniqueId, env: Env, trace: seq<Master>, steps: seq<Step> ::
                BootedRun(cfg, uids, env, trace, steps) && ClockRuns(steps) ==> !Asleep(trace[|steps|])
  {
    if cfg.staticLow <= cfg.staticHigh {
      forall uids: int -> UniqueId, env: Env, trace: seq<Master>, steps: seq<Step>
        | BootedRun(cfg, uids, env, trace, steps) && ClockRuns(steps)
        ensures !Asleep(trace[|steps|])
      {
        RunIsWakeful(cfg, uids, env, trace, steps, |steps|);
      }
    } else {
      var uids: int -> UniqueId := _ => [0, 0, 0, 0, 0, 0, 0, 0];
      var env := Env(1.0, true, false, []);
      var trace, steps := BareMasterFallsAsleep(cfg, uids, env);
      assert BootedRun(cfg, uids, env, trace, steps) && ClockRuns(steps) && Asleep(trace[|steps|]);
    }
  }

  // ---------------------------------------------------------------- reachable states

  ghost predicate Reachable(cfg: Config, uids: int -> UniqueId, env: Env, s: Master) {
    exists trace, steps :: BootedRun(cfg, uids, env, trace, steps) && trace[|steps|] == s
  }

  lemma BootIsReachable(cfg: Config, uids: int -> UniqueId, env: Env)
    requires cfg.Valid()
    ensures Reachable(cfg, uids, env, Boot(cfg, uids, env))
  {
    assert BootedRun(cfg, uids, env, [Boot(cfg, uids, env)], []);
  }

  lemma ReachNext(cfg: Config, uids: int -> UniqueId, env: Env, s: Master, st: Step)
    requires Reachable(cfg, uids, env, s) && CanStep(s, st)
    ensures Reachable(cfg, uids, env, Next(cfg, s, st))
  {
    var trace, steps :| BootedRun(cfg, uids, env, trace, steps) && trace[|steps|] == s;
    var trace', steps' := trace + [Next(cfg, s, st)], steps + [st];
    forall i | 0 <= i < |steps'|
      ensures CanStep(trace'[i], steps'[i]) && trace'[i + 1] == Next(cfg, trace'[i], steps'[i])
    {
      assert i < |steps| ==> steps'[i] == steps[i] && CanStep(trace[i], steps[i]);
    }
    assert BootedRun(cfg, uids, env, trace', steps');
  }

  lemma ReachableIsInv(cfg: Config, uids: int -> UniqueId, env: Env, s: Master)
    requires Reachable(cfg, uids, env, s)
    ensures Inv(cfg, s)
  {
    var trace, steps :| BootedRun(cfg, uids, env, trace, steps) && trace[|steps|] == s;
    ReachableInv(cfg, uids, env, trace, steps, |steps|);
  }

  // ---------------------------------------------------------------- dying and stalling

  /** Dispatches and then times out whatever a pending action is waiting for. */
  lemma ReachTimeout(cfg: Config, uids: int -> UniqueId, env: Env, s: Master) returns (s': Master)
    requires Reachable(cfg, uids, env, s) && s.fault == NoFault && Pending(s)
    requires s.current == SendMasterStart || (s.current.SendToken? && s.current.addr != cfg.own)
    ensures Reachable(cfg, uids, env, s')
    ensures s.current == SendMasterStart ==> s'.fault != NoFault
    ensures s.current != SendMasterStart ==> s'.fault == NoFault && Stalled(s')
  {
    var st := DispatchStep(env);
    ReachableIsInv(cfg, uids, env, s);
    QuietDispatch(cfg, s, env);
    var s1 := Next(cfg, s, st);
    ReachNext(cfg, uids, env, s, st);
    var s2 := Next(cfg, s1, StimulusStep(FsmTimer, env));
    assert s1.fsm.events + [TimerTimeout] == [TimerTimeout];
    ReachNext(cfg, uids, env, s1, StimulusStep(FsmTimer, env));
    ReachableIsInv(cfg, uids, env, s2);
    StepStalls(cfg, s2, st);
    ReachNext(cfg, uids, env, s2, st);
    s' := Next(cfg, s2, st);
  }

  /** Every configuration has a run on which the master dies at its `assert(0)`. */
  lemma DeathIsReachable(cfg: Config, uids: int -> UniqueId, env: Env) returns (s: Master)
    requires cfg.Valid()
    ensures Reachable(cfg, uids, env, s) && Dead(s)
  {
    BootIsReachable(cfg, uids, env);
    BootInv(cfg, uids, env);
    s := ReachTimeout(cfg, uids, env, Boot(cfg, uids, env));
    ReachableIsInv(cfg, uids, env, s);
  }

  /** The end of an action starts the oldest ready one. */
  lemma FinishStartsNext(cfg: Config, s: Master, rv: ReturnValue, env: Env)
    requires Inv(cfg, s) && s.fault == NoFault && |s.fsm.events| == 1 && s.sched.ready != []
    requires s.fsm.action == s.current && s.delay == None && Fits(s.current, rv)
    ensures var s' := PopEvent(ReportThenIdle(cfg, s, rv, env));
            Pending(s') && s'.fault == NoFault && s'.current == s.sched.ready[0] && s.sched.ready[1..] <= s'.sched.ready
  {
    FinishCloses(cfg, s, rv, env);
    ReportKeeps(cfg, s, rv, env);
    LogHasNext(s, Report(cfg, s, rv, env));
  }

  lemma LogHasNext(s: Master, r: Master)
    requires s.sched.ready != [] && Log(s) <= Log(r)
    requires if r.current == DoNothing then r.started == s.started && r.sched.ready == []
             else r.started == s.started + [r.current]
    ensures r.current != DoNothing && r.current == s.sched.ready[0] && s.sched.ready[1..] <= r.sched.ready
  {
    var n := |s.started|;
    assert Log(r)[n] == Log(s)[n] == s.sched.ready[0];
    assert Log(s)[n + 1..] == s.sched.ready[1..] && Log(r)[n + 1..] == r.sched.ready;
  }

  /** The echo of the start-up message has just arrived. */
  lemma ReachStartHeard(cfg: Config, uids: int -> UniqueId, env: Env) returns (s: Master)
    requires cfg.Valid()
    ensures Reachable(cfg, uids, env, s) && s.fault == NoFault && Busy(s) && s.fsm.state == StartMaster
    ensures s.fsm.events == [RxMasterStartStop] && s.sched == Boot(cfg, uids, env).sched
  {
    var s0, st, heard := Boot(cfg, uids, env), DispatchStep(env), StimulusStep(Packet(RxMasterStartStop), env);
    BootIsReachable(cfg, uids, env);
    BootInv(cfg, uids, env);
    QuietDispatch(cfg, s0, env);
    var s1 := Next(cfg, s0, st);
    ReachNext(cfg, uids, env, s0, st);
    assert s1.fsm.events + [RxMasterStartStop] == [RxMasterStartStop];
    ReachNext(cfg, uids, env, s1, heard);
    s := Next(cfg, s1, heard);
  }

  /** The first token is started. */
  lemma ReachFirstToken(cfg: Config, uids: int -> UniqueId, env: Env) returns (s: Master)
    requires cfg.Valid() && cfg.staticLow <= cfg.staticHigh
    ensures Reachable(cfg, uids, env, s) && s.fault == NoFault && Pending(s) && s.current == SendToken(cfg.staticLow)
    ensures cfg.staticLow < cfg.staticHigh ==> s.sched.ready != [] && s.sched.ready[0] == SendToken(cfg.staticLow + 1)
  {
    var s2 := ReachStartHeard(cfg, uids, env);
    BootQueues(cfg, uids, env);
    ReachableIsInv(cfg, uids, env, s2);
    FinishStartsNext(cfg, s2, Ok, env);
    ReachNext(cfg, uids, env, s2, DispatchStep(env));
    s := Next(cfg, s2, DispatchStep(env));
  }

  lemma BootQueues(cfg: Config, uids: int -> UniqueId, env: Env)
    requires cfg.Valid() && cfg.staticLow <= cfg.staticHigh
    ensures var r := Boot(cfg, uids, env).sched.ready;
            && r != [] && r[0] == SendToken(cfg.staticLow)
            && (cfg.staticLow < cfg.staticHigh ==> |r| > 1 && r[1] == SendToken(cfg.staticLow + 1))
  {
    var s := Posted(cfg, uids);
    assert Actions([]) == [];
    assert s.sched.ready == [SendMasterStart] + (Tokens(s.dyn.table) + [QueryAddress]);
    assert s.sched.ready[1..] == Tokens(s.dyn.table) + [QueryAddress];
    assert Promoted(s.sched, env.now, env.hint).ready == s.sched.ready;
  }

  /** The own token is declined, and the next one is started. */
  lemma ReachNextToken(cfg: Config, uids: int -> UniqueId, env: Env, m: Master, a: Address) returns (s: Master)
    requires Reachable(cfg, uids, env, m) && m.fault == NoFault && Pending(m) && m.current == SendToken(cfg.own)
    requires env.txEmpty && m.sched.ready != [] && m.sched.ready[0] == SendToken(a)
    ensures Reachable(cfg, uids, env, s) && s.fault == NoFault && Pending(s) && s.current == SendToken(a)
  {
    ReachableIsInv(cfg, uids, env, m);
    s := OwnTokenPasses(cfg, m, env);
    ReachNext(cfg, uids, env, m, DispatchStep(env));
  }

  lemma OwnTokenPasses(cfg: Config, m: Master, env: Env) returns (s: Master)
    requires Inv(cfg, m) && m.fault == NoFault && Pending(m) && m.current == SendToken(cfg.own)
    requires env.txEmpty && m.sched.ready != []
    ensures s == Dispatch(cfg, m, env) && s.fault == NoFault && Pending(s) && s.current == m.sched.ready[0]
  {
    FinishStartsNext(cfg, m, RxTokenNoPacket, env);
    s := PopEvent(ReportThenIdle(cfg, m, RxTokenNoPacket, env));
  }

  /** Every configuration with a static address that is not the master's own has a run on which the
      master stalls; the compiled-in one is among them. */
  lemma StallIsReachable(cfg: Config, uids: int -> UniqueId, env: Env) returns (s: Master)
    requires cfg.Valid() && env.txEmpty && exists a :: cfg.IsStatic(a) && a != cfg.own
    ensures Reachable(cfg, uids, env, s) && s.fault == NoFault && Stalled(s)
  {
    s := ReachFirstToken(cfg, uids, env);
    if cfg.staticLow == cfg.own { s := ReachNextToken(cfg, uids, env, s, cfg.staticLow + 1); }
    s := ReachTimeout(cfg, uids, env, s);
  }

  // ---------------------------------------------------------------- driving the master in silence

  lemma {:induction false} ReachDrain(cfg: Config, uids: int -> UniqueId, env: Env, s: Master, envs: seq<Env>)
    requires Reachable(cfg, uids, env, s)
    ensures Reachable(cfg, uids, env, Drain(cfg, s, envs))
    decreases |envs|
  {
    if envs != [] && s.fault == NoFault && s.fsm.events != [] {
      ReachNext(cfg, uids, env, s, DispatchStep(envs[0]));
      ReachDrain(cfg, uids, env, Dispatch(cfg, s, envs[0]), envs[1..]);
    }
  }

  lemma ReachReact(cfg: Config, uids: int -> UniqueId, env: Env, m: Master, k: Stimulus, e: Env, envs: seq<Env>)
    requires Reachable(cfg, uids, env, m) && Quiet(m) && Enabled(m, k)
    ensures Reachable(cfg, uids, env, React(cfg, m, k, e, envs))
  {
    ReachNext(cfg, uids, env, m, StimulusStep(k, e));
    ReachDrain(cfg, uids, env, Stimulate(m, k, e), envs);
  }

  lemma ReachServed(cfg: Config, uids: int -> UniqueId, env: Env, m: Master, t: Time) returns (r: Master)
    requires Reachable(cfg, uids, env, m) && Driven(cfg, m)
    ensures Reachable(cfg, uids, env, r) && Ended(cfg, m, r, t)
  {
    ReachableIsInv(cfg, uids, env, m);
    r := Served(cfg, m, t);
    ServedEnds(cfg, m, t);
    if m.current.SendMasterStart? {
      ReachReact(cfg, uids, env, m, Packet(RxMasterStartStop), Silence(t), Turns(t));
    } else {
      EchoIsSilent(cfg, m, t);
      if m.current.SendToken? { ReachReact(cfg, uids, env, m, Packet(RxGrantToken), Silence(t), Turns(t)); }
      ReachReact(cfg, uids, env, Echoed(cfg, m, t), FsmTimer, Silence(t), Turns(t));
    }
  }

  /** Every ready action but the own token is carried out in its turn. */
  lemma {:induction false} ReachAction(cfg: Config, uids: int -> UniqueId, env: Env, m: Master, t: Time, g: Action,
                                       j: nat)
    returns (r: Master)
    requires Reachable(cfg, uids, env, m) && Driven(cfg, m) && g != SendToken(cfg.own)
    requires j < |m.sched.ready| && m.sched.ready[j] == g
    ensures Reachable(cfg, uids, env, r) && Driven(cfg, r) && r.current == g
    decreases j
  {
    r := ReachServed(cfg, uids, env, m, t);
    var j' := Nearer(cfg, m, r, t, g, j);
    if r.current != g { r := ReachAction(cfg, uids, env, r, t, g, j'); }
  }

  /** The start-up message has been sent. */
  lemma BootDriven(cfg: Config, uids: int -> UniqueId, t: Time) returns (m: Master)
    requires cfg.Valid()
    ensures m == Drain(cfg, Boot(cfg, uids, Silence(t)), Turns(t)) && Driven(cfg, m) && Inv(cfg, m)
    ensures m.current == SendMasterStart && m.sent == [TxStart] && m.dyn == Posted(cfg, uids).dyn
    ensures m.sched == Sched(Tokens(m.dyn.table) + [QueryAddress], [])
  {
    var s := Boot(cfg, uids, Silence(t));
    BootInv(cfg, uids, Silence(t));
    BootSched(cfg, uids, Silence(t));
    PendingIsCarried(cfg, s, t);
    m := Dispatch(cfg, s, Silence(t));
    assert Drain(cfg, s, Turns(t)) == Drain(cfg, m, Turns(t)[1..]) == m;
    assert [] + [TxStart] == [TxStart];
  }

  lemma BootSched(cfg: Config, uids: int -> UniqueId, env: Env)
    requires cfg.Valid()
    ensures Boot(cfg, uids, env).sched == Sched(Tokens(Posted(cfg, uids).dyn.table) + [QueryAddress], [])
  {
    var s := Posted(cfg, uids);
    NotYetDue(s.sched, env.now, env.hint);
    assert s.sched.ready == [SendMasterStart] + (Tokens(s.dyn.table) + [QueryAddress]);
    assert s.sched.ready[1..] == Tokens(s.dyn.table) + [QueryAddress];
  }

  /** Every configuration reaches its first discovery. */
  lemma ReachQuery(cfg: Config, uids: int -> UniqueId, t: Time) returns (m: Master)
    requires cfg.Valid()
    ensures Reachable(cfg, uids, Silence(t), m) && Driven(cfg, m) && m.current == QueryAddress
  {
    m := ReachBooted(cfg, uids, t);
    m := ReachAction(cfg, uids, Silence(t), m, t, QueryAddress, |m.sched.ready| - 1);
  }

  // ---------------------------------------------------------------- an address given away

  lemma StaticIdAnswered(cfg: Config, uids: int -> UniqueId, env: Env, m: Master, b: Address)
    requires Reachable(cfg, uids, env, m) && cfg.IsStatic(b)
    ensures exists a: Address :: cfg.IsStatic(a) && uids(a) == uids(b)
              && ReceivedAddressRequest(m, uids(b)) == Send(m, TxReply(a, uids(b)))
  {
    var trace, steps :| BootedRun(cfg, uids, env, trace, steps) && trace[|steps|] == m;
    assert StaticId(cfg, uids, uids(b));
    RequestGetsLineExactly(cfg, uids, env, trace, steps, |steps|, uids(b));
  }

  lemma RequestAnswers(cfg: Config, m: Master, id: UniqueId, t: Time)
    requires Quiet(m) && m.fsm.state == QueryAddressState
    ensures React(cfg, m, Packet(RxAddressRequest(id)), Silence(t), Turns(t)).sent == ReceivedAddressRequest(m, id).sent
  {
    var s := m.(fsm := m.fsm.(events := [RxAddressRequest(id)]));
    assert m.fsm.events + [RxAddressRequest(id)] == [RxAddressRequest(id)];
    AnswerShape(cfg, s, id, Silence(t));
    RequestReplies(s, id);
    var d := Dispatch(cfg, s, Silence(t));
    assert Drain(cfg, s, Turns(t)) == Drain(cfg, d, Turns(t)[1..]) == d;
  }

  /** In every configuration with a static address: a client whose id happens to be the uninitialised one of
      a static line is given a static address. */
  lemma StaticAddressIsGivenAway(cfg: Config, uids: int -> UniqueId, t: Time, b: Address)
    returns (s: Master, a: Address)
    requires cfg.Valid() && cfg.IsStatic(b)
    ensures Reachable(cfg, uids, Silence(t), s) && cfg.IsStatic(a) && uids(a) == uids(b)
    ensures s.sent != [] && s.sent[|s.sent| - 1] == TxReply(a, uids(b))
  {
    var k := Packet(RxAddressRequest(uids(b)));
    var m := ReachQuery(cfg, uids, t);
    StaticIdAnswered(cfg, uids, Silence(t), m, b);
    a :| cfg.IsStatic(a) && uids(a) == uids(b) && ReceivedAddressRequest(m, uids(b)) == Send(m, TxReply(a, uids(b)));
    ReachReact(cfg, uids, Silence(t), m, k, Silence(t), Turns(t));
    RequestAnswers(cfg, m, uids(b), t);
    s := React(cfg, m, k, Silence(t), Turns(t));
  }

  // ---------------------------------------------------------------- an early clock

  /** Nothing is due yet, and the own token waits for its short delay. */
  ghost predicate NothingDueAt(cfg: Config, m: Master, t: Time) {
    forall x :: x in m.sched.waiting ==>
      x.time > t && (x.action == SendToken(cfg.own) ==> x.time == t + cfg.afterReturn)
  }

  lemma {:induction false} ReachRest(cfg: Config, uids: int -> UniqueId, m: Master, t: Time) returns (r: Master)
    requires Reachable(cfg, uids, Silence(t), m) && Driven(cfg, m) && NothingDueAt(cfg, m, t)
    ensures Reachable(cfg, uids, Silence(t), r) && Quiet(r) && Resting(r) && r.sched.ready == []
    ensures NothingDueAt(cfg, r, t) && r.delay == RestTimer(r.sched.waiting)
    decreases |m.sched.ready|
  {
    r := ReachServed(cfg, uids, Silence(t), m, t);
    forall x | x in r.sched.waiting
      ensures x.time > t && (x.action == SendToken(cfg.own) ==> x.time == t + cfg.afterReturn)
    {
      assert LaterOrKnown(cfg, m, x, t);
    }
    if r.current != DoNothing {
      assert |Log(r)| == |Log(m)|;
      r := ReachRest(cfg, uids, r, t);
    }
  }

  lemma OwnTokenWaits(cfg: Config, m: Master)
    requires Inv(cfg, m) && cfg.IsStatic(cfg.own) && m.current == DoNothing && m.sched.ready == []
    ensures exists x :: x in m.sched.waiting && x.action == SendToken(cfg.own)
    ensures m.dyn.discovery.Some?
  {
    assert HasLine(m.dyn.table, cfg.own);
    assert Outstanding(m)[SendToken(cfg.own)] == 1;
    assert SendToken(cfg.own) in multiset(Actions(m.sched.waiting));
    var i :| 0 <= i < |m.sched.waiting| && Actions(m.sched.waiting)[i] == SendToken(cfg.own);
    assert m.sched.waiting[i] in m.sched.waiting;
    QueryIsOwed(cfg, m);
  }

  lemma QueryIsOwed(cfg: Config, m: Master)
    requires Inv(cfg, m) && m.current == DoNothing && m.sched.ready == []
    ensures m.dyn.discovery.Some?
  {
    var w := Actions(m.sched.waiting);
    forall i | 0 <= i < |w| ensures w[i] != QueryAddress { assert m.sched.waiting[i] in m.sched.waiting; }
    assert multiset(w)[QueryAddress] == 0;
    assert Outstanding(m)[QueryAddress] == 0;
  }

  lemma RestsUnarmed(cfg: Config, r: Master, t: Time)
    requires Inv(cfg, r) && cfg.IsStatic(cfg.own) && Resting(r) && r.sched.ready == [] && NothingDueAt(cfg, r, t)
    requires r.delay == RestTimer(r.sched.waiting) && t + cfg.afterReturn < 1.0
    ensures r.delay == None && r.sched.waiting != [] && r.dyn.discovery.Some?
  {
    OwnTokenWaits(cfg, r);
    ReadyTimeIsEarliest(r.sched.waiting);
  }

  lemma ReachBooted(cfg: Config, uids: int -> UniqueId, t: Time) returns (m: Master)
    requires cfg.Valid()
    ensures Reachable(cfg, uids, Silence(t), m) && Driven(cfg, m)
    ensures m.sched.waiting == [] && m.sched.ready != [] && m.sched.ready[|m.sched.ready| - 1] == QueryAddress
  {
    m := BootDriven(cfg, uids, t);
    BootIsReachable(cfg, uids, Silence(t));
    ReachDrain(cfg, uids, Silence(t), Boot(cfg, uids, Silence(t)), Turns(t));
  }

  /** In every configuration whose master has a static address of its own: with a clock below one second the
      master falls asleep. Its token waits, and no timer is armed for it. */
  lemma EarlyClockFallsAsleep(cfg: Config, uids: int -> UniqueId, t: Time) returns (s: Master)
    requires cfg.Valid() && cfg.IsStatic(cfg.own) && t + cfg.afterReturn < 1.0
    ensures Reachable(cfg, uids, Silence(t), s) && Asleep(s) && s.sched.waiting != []
  {
    var m := ReachBooted(cfg, uids, t);
    var r := ReachRest(cfg, uids, m, t);
    ReachableIsInv(cfg, uids, Silence(t), r);
    RestsUnarmed(cfg, r, t);
    s := Stimulate(r, DiscoveryTimer, Silence(t));
    ReachNext(cfg, uids, Silence(t), r, StimulusStep(DiscoveryTimer, Silence(t)));
  }
}
