/** Who holds which address at the master, and the one event that takes it away. */
module MasterHolders {
  import opened Prelude
  import opened Bytes
  import opened Protocol
  import opened Scheduler
  import opened MasterModel
  import opened MasterInvariant
  import opened MasterSteps
  import opened MasterRuns
  import opened MasterTheorems
  import opened MasterLines

  /** A dynamic line gives the address `a` to the id. */
  ghost predicate Holds(t: seq<Line>, id: UniqueId, a: Address) {
    exists i :: 0 <= i < |t| && t[i].dynamic && t[i].uid == id && t[i].addr == a
  }

  lemma InvTable(cfg: Config, m: Master)
    requires Inv(cfg, m)
    ensures TableOk(cfg, m.dyn.table)
  {
  }

  lemma HoldsIsLine(cfg: Config, t: seq<Line>, id: UniqueId, a: Address)
    requires TableOk(cfg, t)
    ensures Holds(t, id, a) <==> HasLine(t, a) && LineOf(t, a).dynamic && LineOf(t, a).uid == id
  {
  }

  lemma LineHolds(t: seq<Line>, id: UniqueId, a: Address)
    requires HasLine(t, a) && LineOf(t, a).dynamic && LineOf(t, a).uid == id
    ensures Holds(t, id, a)
  {
  }

  // ---------------------------------------------------------------- the rest of a reaction

  /** After the first dispatch of a reaction, nothing is recorded for any address but the own one. */
  lemma PendingLeavesLine(cfg: Config, s: Master, env: Env, a: Address)
    requires Inv(cfg, s) && s.fault == NoFault && Pending(s) && HasLine(s.dyn.table, a) && a != cfg.own
    ensures var t, t' := s.dyn.table, Dispatch(cfg, s, env).dyn.table;
            HasLine(t', a) && LineOf(t', a) == LineOf(t, a)
  {
    NextDyn(cfg, s, DispatchStep(env));
    LineAfterStep(cfg, s, DispatchStep(env), a);
    assert Outcome(cfg, s, DispatchStep(env), a) == None;
  }

  lemma {:induction false} DrainLeavesLine(cfg: Config, s: Master, envs: seq<Env>, a: Address)
    requires Inv(cfg, s) && (s.fault == NoFault && s.fsm.events != [] ==> Pending(s))
    requires HasLine(s.dyn.table, a) && a != cfg.own
    ensures var t, t' := s.dyn.table, Drain(cfg, s, envs).dyn.table;
            HasLine(t', a) && LineOf(t', a) == LineOf(t, a)
    decreases |envs|
  {
    if envs != [] && s.fault == NoFault && s.fsm.events != [] {
      PendingLeavesLine(cfg, s, envs[0], a);
      DispatchKeeps(cfg, s, envs[0]);
      DrainLeavesLine(cfg, Dispatch(cfg, s, envs[0]), envs[1..], a);
    }
  }

  lemma GoodOutcomeKeepsLine(l: Line, st: LineState)
    requires st == Active || st == LineState.Idle
    ensures SetState(l, st) == l.(bad := 0, state := st) && !RemoveDynamic(SetState(l, st))
  {
  }

  // ---------------------------------------------------------------- retirement

  /** The master gives up waiting for the answer of `a`. */
  predicate TimesOut(m: Master, env: Env, a: Address) {
    m.fsm.state == WaitClientPacketDone && m.current == SendToken(a) && !env.rxBusy
  }

  /** The fourth failure in a row of `a`. */
  predicate FourthFailure(m: Master, env: Env, a: Address) {
    TimesOut(m, env, a) && HasLine(m.dyn.table, a) && LineOf(m.dyn.table, a).bad >= 3
  }

  lemma OutcomeExactly(cfg: Config, s: Master, env: Env, a: Address)
    requires s.fault == NoFault && s.fsm.events != []
    ensures var o := Outcome(cfg, s, DispatchStep(env), a);
            && (o == Some(BadClient) <==> s.fsm.events[0].TimerTimeout? && TimesOut(s, env, a)) && o != Some(Free)
  {
  }

  lemma MovedExactly(cfg: Config, t: seq<Line>, d: Dyn, a: Address, o: Option<LineState>, id: UniqueId)
    requires HasLine(t, a) && LineMoves(t, d, a, o) && o != Some(Free)
    requires LineOf(t, a).dynamic && LineOf(t, a).uid == id
    ensures Holds(d.table, id, a) <==> !(o == Some(BadClient) && LineOf(t, a).bad >= 3)
  {
    if HasLine(d.table, a) { LineHolds(d.table, id, a); }
  }

  /** A dispatch takes an address from its holder exactly when it records the fourth failure in a row. */
  lemma DispatchHoldsExactly(cfg: Config, s: Master, env: Env, id: UniqueId, a: Address)
    requires Inv(cfg, s) && s.fault == NoFault && s.fsm.events != [] && Holds(s.dyn.table, id, a)
    ensures Holds(Dispatch(cfg, s, env).dyn.table, id, a)
            <==> !(s.fsm.events[0].TimerTimeout? && FourthFailure(s, env, a))
  {
    var st := DispatchStep(env);
    InvTable(cfg, s);
    HoldsIsLine(cfg, s.dyn.table, id, a);
    NextDyn(cfg, s, st);
    LineAfterStep(cfg, s, st, a);
    OutcomeExactly(cfg, s, env, a);
    MovedExactly(cfg, s.dyn.table, DynAfter(cfg, s, st), a, Outcome(cfg, s, st, a), id);
  }

  lemma PendingAddsNoLine(cfg: Config, s: Master, env: Env, a: Address)
    requires Inv(cfg, s) && s.fault == NoFault && Pending(s) && !HasLine(s.dyn.table, a)
    ensures !HasLine(Dispatch(cfg, s, env).dyn.table, a)
  {
    var st := DispatchStep(env);
    NextDyn(cfg, s, st);
    DecisionFits(cfg, s, env);
    if Decision(cfg, s, env).Finish? { FinishAddsNoLine(cfg, s, RxTokenNoPacket, env.now, a); }
  }

  lemma {:induction false} DrainKeepsHolds(cfg: Config, s: Master, envs: seq<Env>, id: UniqueId, a: Address)
    requires Inv(cfg, s) && (s.fault == NoFault && s.fsm.events != [] ==> Pending(s))
    requires Holds(s.dyn.table, id, a)
    ensures Holds(Drain(cfg, s, envs).dyn.table, id, a)
    decreases |envs|
  {
    if envs != [] && s.fault == NoFault && s.fsm.events != [] {
      DispatchHoldsExactly(cfg, s, envs[0], id, a);
      DispatchKeeps(cfg, s, envs[0]);
      DrainKeepsHolds(cfg, Dispatch(cfg, s, envs[0]), envs[1..], id, a);
    }
  }

  lemma {:induction false} DrainAddsNoLine(cfg: Config, s: Master, envs: seq<Env>, a: Address)
    requires Inv(cfg, s) && (s.fault == NoFault && s.fsm.events != [] ==> Pending(s))
    requires !HasLine(s.dyn.table, a)
    ensures !HasLine(Drain(cfg, s, envs).dyn.table, a)
    decreases |envs|
  {
    if envs != [] && s.fault == NoFault && s.fsm.events != [] {
      PendingAddsNoLine(cfg, s, envs[0], a);
      DispatchKeeps(cfg, s, envs[0]);
      DrainAddsNoLine(cfg, Dispatch(cfg, s, envs[0]), envs[1..], a);
    }
  }

  /** What a stimulus leaves for the drain loop. */
  lemma StimulusQueues(cfg: Config, m: Master, k: Stimulus, env: Env)
    requires Inv(cfg, m) && Quiet(m) && Enabled(m, k)
    ensures var s := Stimulate(m, k, env);
            && s.dyn.table == m.dyn.table
            && match k
               case Packet(e) => s == m.(fsm := m.fsm.(events := [e]))
               case FsmTimer => s == m.(fsm := m.fsm.(timer := None, events := [TimerTimeout]))
               case DelayTimer => s.fault == NoFault && (Pending(s) || (Resting(s) && s.fsm.events == []))
               case DiscoveryTimer => s.fsm == m.fsm && s.current == m.current
  {
    match k
    case Packet(e) => assert m.fsm.events + [e] == [e];
    case FsmTimer => assert m.fsm.events + [TimerTimeout] == [TimerTimeout];
    case DelayTimer => DelayKeeps(cfg, m, env);
    case DiscoveryTimer =>
  }

  /** The line of `a` is gone after a dispatch that takes it from its holder. */
  lemma RetiredIsGone(cfg: Config, s: Master, env: Env, id: UniqueId, a: Address)
    requires Inv(cfg, s) && s.fault == NoFault && s.fsm.events == [TimerTimeout] && FourthFailure(s, env, a)
    requires Holds(s.dyn.table, id, a)
    ensures !HasLine(Dispatch(cfg, s, env).dyn.table, a)
  {
    var st := DispatchStep(env);
    InvTable(cfg, s);
    HoldsIsLine(cfg, s.dyn.table, id, a);
    NextDyn(cfg, s, st);
    LineAfterStep(cfg, s, st, a);
    OutcomeExactly(cfg, s, env, a);
  }

  lemma FirstRetires(cfg: Config, s: Master, envs: seq<Env>, id: UniqueId, a: Address)
    requires Inv(cfg, s) && s.fault == NoFault && |s.fsm.events| == 1 && envs != [] && Holds(s.dyn.table, id, a)
    ensures Holds(Drain(cfg, s, envs).dyn.table, id, a)
            <==> !(s.fsm.events[0].TimerTimeout? && FourthFailure(s, envs[0], a))
  {
    var s1 := Dispatch(cfg, s, envs[0]);
    DispatchKeeps(cfg, s, envs[0]);
    if s.fsm.events[0].TimerTimeout? && FourthFailure(s, envs[0], a) {
      RetiredIsGone(cfg, s, envs[0], id, a);
      DrainAddsNoLine(cfg, s1, envs[1..], a);
    } else {
      DispatchHoldsExactly(cfg, s, envs[0], id, a);
      DrainKeepsHolds(cfg, s1, envs[1..], id, a);
    }
  }

  /** A reaction takes an address from its holder if and only if the master gives up waiting for that
      address after three failures in a row: the test is on the state before. */
  lemma RetiresExactly(cfg: Config, m: Master, k: Stimulus, env: Env, envs: seq<Env>, id: UniqueId, a: Address)
    requires Inv(cfg, m) && Quiet(m) && Enabled(m, k) && |envs| == 3 && Steady(envs, env)
    requires Holds(m.dyn.table, id, a)
    ensures Holds(React(cfg, m, k, env, envs).dyn.table, id, a) <==> !(k.FsmTimer? && FourthFailure(m, env, a))
  {
    var s := Stimulate(m, k, env);
    StimulusKeeps(cfg, m, k, env);
    StimulusQueues(cfg, m, k, env);
    if k.Packet? || k.FsmTimer? { FirstRetires(cfg, s, envs, id, a); } else { DrainKeepsHolds(cfg, s, envs, id, a); }
  }
}
