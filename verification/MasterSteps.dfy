/** Every step of the master, from the report of a result to the whole reaction to a stimulus. */
module MasterSteps {
  import opened Prelude
  import opened Bytes
  import opened Protocol
  import opened Scheduler
  import opened MasterModel
  import opened MasterInvariant

  // ---------------------------------------------------------------- reporting a result

  /** The results that can be reported for an action that is being carried out. */
  predicate Fits(a: Action, rv: ReturnValue) {
    match a
    case SendToken(_) => rv.ClientPacketStarted? || rv.RxTokenNoPacket? || rv.TokenTimeout?
    case QueryAddress => rv.AddressQueryDone?
    case SendMasterStart => rv.Ok?
    case DoNothing => false
  }

  /** A report ends the current action and either starts the next one, by queueing a single
      `check_new_command` behind the event being handled, or arms the delay timer. */
  ghost predicate Reported(s: Master, s': Master, now: Time) {
    && s'.fault == NoFault && s'.sent == s.sent
    && s'.fsm.state == s.fsm.state && s'.fsm.timer == s.fsm.timer && s'.fsm.action == s'.current
    && Log(s) <= Log(s')
    && (forall x :: x in s'.sched.waiting ==> x.time > now)
    && if s'.current == DoNothing then
         && s'.fsm.events == s.fsm.events && s'.started == s.started && s'.sched.ready == []
         && s'.delay == if ReadyTime(s'.sched.waiting) < 1.0 then None else Some(ReadyTime(s'.sched.waiting))
       else
         && s'.fsm.events == s.fsm.events + [CheckNewCommand]
         && s'.started == s.started + [s'.current] && s'.delay == None
  }

  /** The master between the end of one action and the look for the next. */
  function Recorded(cfg: Config, s: Master, rv: ReturnValue, now: Time): Master {
    RecordResult(cfg, s.(fsm := s.fsm.(action := DoNothing), current := DoNothing), ActionAddr(s.current), rv, now)
  }

  function OutcomeOf(rv: ReturnValue): LineState {
    match rv
    case ClientPacketStarted => Active
    case TokenTimeout => BadClient
    case _ => LineState.Idle
  }

  /** What the record of a result leaves alone, and that a returned token waits for later. */
  ghost predicate Settled(cfg: Config, s: Master, s1: Master, rv: ReturnValue, now: Time) {
    && Books(cfg, s1)
    && s1 == s.(fsm := s.fsm.(action := DoNothing), current := DoNothing, dyn := s1.dyn, sched := s1.sched)
    && s1.sched.ready == s.sched.ready
    && (rv == RxTokenNoPacket ==> TokenWaits(s1, ActionAddr(s.current), now))
  }

  lemma TokenSettles(cfg: Config, s: Master, rv: ReturnValue, now: Time)
    requires cfg.Valid() && Books(cfg, s) && s.fault == NoFault && Fits(s.current, rv) && s.current.SendToken?
    ensures Settled(cfg, s, Recorded(cfg, s, rv, now), rv, now)
  {
    var s0 := s.(fsm := s.fsm.(action := DoNothing), current := DoNothing);
    UpdateKeepsBooks(cfg, s0, s.current.addr, OutcomeOf(rv), now);
  }

  lemma OtherSettles(cfg: Config, s: Master, rv: ReturnValue, now: Time)
    requires Books(cfg, s) && s.fault == NoFault && Fits(s.current, rv) && !s.current.SendToken?
    ensures Settled(cfg, s, Recorded(cfg, s, rv, now), rv, now)
  {
    var s1 := Recorded(cfg, s, rv, now);
    BagWithout(AllActions(s.sched), s.current, s.dyn, s1.dyn);
    assert AllActions(s1.sched) + Doing(DoNothing) == AllActions(s.sched);
  }

  lemma RecordedKeepsBooks(cfg: Config, s: Master, rv: ReturnValue, now: Time)
    requires cfg.Valid() && Books(cfg, s) && s.fault == NoFault && Fits(s.current, rv)
    ensures Settled(cfg, s, Recorded(cfg, s, rv, now), rv, now)
  {
    if s.current.SendToken? { TokenSettles(cfg, s, rv, now); } else { OtherSettles(cfg, s, rv, now); }
  }

  /** The end of a start-up or a discovery; the next discovery is then owed by the timer. */
  lemma BagWithout(bag: multiset<Action>, a: Action, d: Dyn, d': Dyn)
    requires BagOk(bag + multiset{a}, d) && d'.table == d.table && (a.SendMasterStart? || a.QueryAddress?)
    requires if a.QueryAddress? then d'.discovery.Some? else d'.discovery == d.discovery
    ensures BagOk(bag, d')
  {
    forall x: Address ensures bag[SendToken(x)] == (bag + multiset{a})[SendToken(x)] {}
  }

  /** A token that waits for later is not the one being started. */
  lemma WaitingTokenIsNotCurrent(cfg: Config, s: Master, a: Address, now: Time)
    requires Books(cfg, s) && TokenWaits(s, a, now)
    ensures s.current != SendToken(a)
  {
    var x :| x in s.sched.waiting && x.action == SendToken(a) && x.time > now;
    var i :| 0 <= i < |s.sched.waiting| && s.sched.waiting[i] == x;
    assert Actions(s.sched.waiting)[i] == SendToken(a);
    assert SendToken(a) in multiset(Actions(s.sched.waiting));
    assert Outstanding(s)[SendToken(a)] <= 1;
  }

  lemma ReportKeeps(cfg: Config, s: Master, rv: ReturnValue, env: Env)
    requires cfg.Valid() && Books(cfg, s) && s.fault == NoFault
    requires s.fsm.action == s.current && s.delay == None && Fits(s.current, rv)
    ensures Books(cfg, Report(cfg, s, rv, env))
    ensures Reported(s, Report(cfg, s, rv, env), env.now)
    ensures rv == RxTokenNoPacket ==> Report(cfg, s, rv, env).current != s.current
  {
    var s1 := Recorded(cfg, s, rv, env.now);
    RecordedKeepsBooks(cfg, s, rv, env.now);
    LookKeepsBooks(cfg, s1, env);
    assert Report(cfg, s, rv, env) == CheckNewAction(s1, env);
    if rv == RxTokenNoPacket {
      var s' := CheckNewAction(s1, env);
      assert TokenWaits(s', s.current.addr, env.now) by {
        var x :| x in s1.sched.waiting && x.action == SendToken(s.current.addr) && x.time > env.now;
        assert x in s'.sched.waiting;
      }
      WaitingTokenIsNotCurrent(cfg, s', s.current.addr, env.now);
    }
  }

  // ---------------------------------------------------------------- transmissions

  ghost predicate HasPair(t: seq<Line>, a: Address, id: UniqueId) {
    exists i :: 0 <= i < |t| && t[i].addr == a && t[i].uid == id
  }

  /** The state that the master is in right after a transmission. */
  ghost predicate TxMatches(cfg: Config, tx: Tx, s: Master) {
    match tx
    case TxStart => s.fsm.state == StartMaster
    case TxGrant(a) => s.fsm.state == SendingToken && s.current == SendToken(a) && a != cfg.own
    case TxOwnPacket => s.fsm.state == WaitClientPacketDone && s.current == SendToken(cfg.own)
    case TxDiscovery => s.fsm.state == QueryAddressState
    case TxReply(a, id) => s.fsm.state == WaitAddressReply && HasPair(s.dyn.table, a, id)
  }

  /** At most one transmission, and if there is one, the master then waits with nothing queued. */
  ghost predicate Emits(cfg: Config, s: Master, s': Master) {
    || s'.sent == s.sent
    || (s'.fsm.events == [] && Busy(s') && |s'.sent| == |s.sent| + 1 && s'.sent == s.sent + [s'.sent[|s.sent|]]
        && TxMatches(cfg, s'.sent[|s.sent|], s'))
  }

  // ---------------------------------------------------------------- one dispatch

  /** What the front event of the queue makes the machine do. */
  function Decision(cfg: Config, s: Master, env: Env): Reaction
    requires s.fsm.events != []
  {
    ReactionTo(cfg, s.fsm, s.fsm.events[0], env)
  }

  /** The end of an action: the next one is pending, or the handler rests with its timer armed
      for the earliest waiting time. */
  ghost predicate Closed(cfg: Config, s: Master, s': Master, now: Time) {
    && Books(cfg, s') && s'.fault == NoFault && s'.sent == s.sent && Log(s) <= Log(s')
    && (Pending(s') || (Resting(s') && s'.fsm.events == []))
    && (forall x :: x in s'.sched.waiting ==> x.time > now)
    && (Resting(s') ==>
          && s'.sched.ready == []
          && s'.delay == if ReadyTime(s'.sched.waiting) < 1.0 then None else Some(ReadyTime(s'.sched.waiting)))
  }

  lemma PopCloses(cfg: Config, s: Master, r: Master, now: Time)
    requires |s.fsm.events| == 1 && Books(cfg, r) && Reported(s, r, now)
    ensures Closed(cfg, s, PopEvent(r.(fsm := r.fsm.(state := IdleState, timer := None))), now)
  {
    var s' := PopEvent(r.(fsm := r.fsm.(state := IdleState, timer := None)));
    assert Log(s') == Log(r);
    if r.current != DoNothing {
      assert r.fsm.events[1..] == [CheckNewCommand];
    }
  }

  lemma DecisionFits(cfg: Config, s: Master, env: Env)
    requires Phase(s) && s.fault == NoFault && s.fsm.events != []
    ensures |s.fsm.events| == 1
    ensures var r := Decision(cfg, s, env);
            r.Finish? ==> && (Fits(s.current, r.rv) || (r.rv.Timeout? && s.fsm.state == StartMaster))
                          && s.fsm.action == s.current && s.delay == None
  {
  }

  /** Every event that ends an action, wherever the report is made from. */
  lemma FinishCloses(cfg: Config, s: Master, rv: ReturnValue, env: Env)
    requires Inv(cfg, s) && s.fault == NoFault && |s.fsm.events| == 1
    requires s.fsm.action == s.current && s.delay == None && Fits(s.current, rv)
    ensures Closed(cfg, s, PopEvent(ReportThenIdle(cfg, s, rv, env)), env.now)
    ensures rv == RxTokenNoPacket ==> PopEvent(ReportThenIdle(cfg, s, rv, env)).current != s.current
  {
    ReportKeeps(cfg, s, rv, env);
    PopCloses(cfg, s, Report(cfg, s, rv, env), env.now);
  }

  /** An unheard start-up message runs into `assert(0)`. */
  lemma UnheardStartDies(cfg: Config, s: Master, env: Env)
    requires Inv(cfg, s) && s.fault == NoFault && s.fsm.state == StartMaster && s.fsm.action == s.current
    requires s.current.SendMasterStart?
    ensures var s' := ReportThenIdle(cfg, s, Timeout, env);
            && Dead(s') && Books(cfg, s') && s'.sent == s.sent && Log(s') == Log(s)
            && PopEvent(s') == s'
  {
    var s' := ReportThenIdle(cfg, s, Timeout, env);
    assert Outstanding(s) == AllActions(s.sched) + multiset{s.current};
    forall a: Address ensures Outstanding(s')[SendToken(a)] == Outstanding(s)[SendToken(a)] {}
  }

  /** Whatever does not end an action only moves the machine and sends at most one packet. */
  lemma QuietDispatch(cfg: Config, s: Master, env: Env)
    requires Phase(s) && s.fault == NoFault && s.fsm.events != []
    requires var r := Decision(cfg, s, env); !r.Finish? && !r.Answer?
    ensures var s' := Dispatch(cfg, s, env);
            && s' == s.(fsm := s'.fsm, sent := s'.sent) && s'.fsm.events == [] && Emits(cfg, s, s')
            && if Decision(cfg, s, env).CarryOut? then Busy(s')
               else if Decision(cfg, s, env).GiveUp? then Stalled(s')
               else Phase(s') && !Pending(s') && (Resting(s) <==> Resting(s'))
  {
  }

  /** A request is answered with the address on the line that carries the requester's id. */
  lemma RequestReplies(s: Master, id: UniqueId)
    ensures var a := ReceivedAddressRequest(s, id);
            && a == s.(dyn := a.dyn, sched := a.sched, sent := a.sent)
            && s.sched.ready <= a.sched.ready && a.sched.waiting == s.sched.waiting
            && (a.sent == s.sent ||
                exists x :: a.sent == s.sent + [TxReply(x, id)] && HasPair(a.dyn.table, x, id))
  {
    var a, t := ReceivedAddressRequest(s, id), s.dyn.table;
    if HasId(t, id) {
      assert HasPair(a.dyn.table, t[FindId(t, id)].addr, id);
    } else if s.dyn.free != [] {
      assert a.dyn.table[|t|] == Line(Idle, 0, s.dyn.free[|s.dyn.free| - 1], true, id);
      assert HasPair(a.dyn.table, s.dyn.free[|s.dyn.free| - 1], id);
    }
  }

  function Answered(cfg: Config, s: Master, id: UniqueId, now: Time): Master {
    ReceivedAddressRequest(s, id).(fsm := Fsm(WaitAddressReply, Some(now + cfg.clientTimeout), s.fsm.action, []))
  }

  lemma AnswerShape(cfg: Config, s: Master, id: UniqueId, env: Env)
    requires s.fault == NoFault && s.fsm.state == QueryAddressState && s.fsm.events == [RxAddressRequest(id)]
    ensures Dispatch(cfg, s, env) == Answered(cfg, s, id, env.now)
  {
    RequestReplies(s, id);
  }

  lemma AnswerEmits(cfg: Config, s: Master, id: UniqueId, now: Time)
    requires Busy(s) && s.fsm.state == QueryAddressState && s.fault == NoFault
    ensures var s' := Answered(cfg, s, id, now);
            Busy(s') && s'.fault == NoFault && Emits(cfg, s, s') && Log(s) <= Log(s')
  {
    RequestReplies(s, id);
  }

  lemma AnswerKeepsBooks(cfg: Config, s: Master, id: UniqueId, now: Time)
    requires cfg.Valid() && Books(cfg, s)
    ensures Books(cfg, Answered(cfg, s, id, now))
  {
    RequestKeepsBooks(cfg, s, id);
  }

  /** The heart of the control loop: one dispatch, in any reachable state, for any event. */
  lemma DispatchKeeps(cfg: Config, s: Master, env: Env)
    requires Inv(cfg, s) && s.fault == NoFault && s.fsm.events != []
    ensures var s' := Dispatch(cfg, s, env);
            && Inv(cfg, s') && Log(s) <= Log(s') && Emits(cfg, s, s')
            && (s'.fault == NoFault ==> s'.fsm.events == [] || Pending(s'))
  {
    DecisionFits(cfg, s, env);
    match Decision(cfg, s, env)
    case Finish(rv) =>
      if rv.Timeout? { UnheardStartDies(cfg, s, env); } else { FinishCloses(cfg, s, rv, env); }
    case Answer(id) =>
      AnswerShape(cfg, s, id, env);
      AnswerEmits(cfg, s, id, env.now);
      AnswerKeepsBooks(cfg, s, id, env.now);
    case _ => QuietDispatch(cfg, s, env);
  }
}
