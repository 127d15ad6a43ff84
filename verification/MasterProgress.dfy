/** A master whose packets are echoed and never answered works through everything that is ready, in every
    configuration. */
module MasterProgress {
  import opened Prelude
  import opened Bytes
  import opened Scheduler
  import opened MasterModel
  import opened MasterInvariant
  import opened MasterSteps
  import opened MasterRuns
  import opened MasterTheorems
  import opened MasterLines
  import opened MasterHolders

  /** The own client has nothing to send, and no packet is coming in. */
  function Silence(t: Time): Env { Env(t, true, false, []) }

  function Turns(t: Time): seq<Env> { [Silence(t), Silence(t), Silence(t)] }

  function StateFor(a: Action): FsmState {
    match a
    case SendMasterStart => StartMaster
    case SendToken(_) => SendingToken
    case QueryAddress => QueryAddressState
    case DoNothing => IdleState
  }

  function TxFor(a: Action): Tx {
    match a
    case SendToken(b) => TxGrant(b)
    case QueryAddress => TxDiscovery
    case _ => TxStart
  }

  /** The action started last has just been sent, and is not the own client's token. */
  predicate Driven(cfg: Config, m: Master) {
    && Quiet(m) && Busy(m) && m.current != SendToken(cfg.own) && m.fsm.state == StateFor(m.current)
    && m.started != [] && m.started[|m.started| - 1] == m.current
  }

  ghost predicate AllLater(w: seq<Waiting>, now: Time) { forall x :: x in w ==> x.time > now }

  // ---------------------------------------------------------------- the end of one action

  /** What stands in the waiting queue after an end: it stood there before, or is the token that ended. */
  ghost predicate NewWaiting(cfg: Config, m: Master, x: Waiting, a: Action, rv: ReturnValue, now: Time) {
    x in m.sched.waiting || (x.action == a && a.SendToken? && (rv.RxTokenNoPacket? ==> x.time == now + cfg.afterReturn))
  }

  /** An action ended, or the delay timer woke the handler: the next action is pending, or none is ready. */
  ghost predicate Stepped(cfg: Config, m: Master, s: Master, rv: ReturnValue, now: Time) {
    && Inv(cfg, s) && s.fault == NoFault && s.sent == m.sent
    && Log(m) <= Log(s) && (AllLater(m.sched.waiting, now) ==> Log(s) == Log(m))
    && AllLater(s.sched.waiting, now)
    && (forall x :: x in s.sched.waiting ==> NewWaiting(cfg, m, x, m.current, rv, now))
    && if s.current == DoNothing then
         && Resting(s) && s.fsm.events == [] && s.started == m.started && s.sched.ready == []
         && s.delay == RestTimer(s.sched.waiting)
       else Pending(s) && s.started == m.started + [s.current]
  }

  lemma NotYetDue(q: Sched, now: Time, hint: seq<nat>)
    requires AllLater(q.waiting, now)
    ensures Promoted(q, now, hint) == q
  {
    assert Actions([]) == [];
    assert q.ready + [] == q.ready;
    if q.waiting != [] { assert q.waiting[Top(q.waiting, hint)] in q.waiting; }
  }

  lemma LookLog(s: Master, env: Env)
    requires s.current == DoNothing && AllLater(s.sched.waiting, env.now)
    ensures Log(CheckNewAction(s, env)) == Log(s)
  {
    NotYetDue(s.sched, env.now, env.hint);
    var r := s.sched.ready;
    if r != [] { assert s.started + [r[0]] + r[1..] == s.started + r; }
  }

  lemma LookWaits(s: Master, env: Env, x: Waiting)
    requires x in CheckNewAction(s, env).sched.waiting
    ensures x in s.sched.waiting
  {
    PromotedConserves(s.sched, env.now, env.hint);
  }

  lemma RecordedIsNew(cfg: Config, s: Master, rv: ReturnValue, now: Time, x: Waiting)
    requires x in Recorded(cfg, s, rv, now).sched.waiting && Fits(s.current, rv)
    ensures NewWaiting(cfg, s, x, s.current, rv, now)
  {
  }

  lemma RecordedIsLater(cfg: Config, s: Master, rv: ReturnValue, now: Time)
    requires cfg.Valid() && AllLater(s.sched.waiting, now)
    ensures AllLater(Recorded(cfg, s, rv, now).sched.waiting, now)
  {
  }

  lemma ReportSteps(cfg: Config, s: Master, rv: ReturnValue, env: Env)
    requires Inv(cfg, s) && s.fault == NoFault && s.fsm.action == s.current && s.delay == None && Fits(s.current, rv)
    ensures var r := Report(cfg, s, rv, env);
            && (AllLater(s.sched.waiting, env.now) ==> Log(r) == Log(s))
            && (forall x :: x in r.sched.waiting ==> NewWaiting(cfg, s, x, s.current, rv, env.now))
  {
    var s1 := Recorded(cfg, s, rv, env.now);
    RecordedKeepsBooks(cfg, s, rv, env.now);
    assert Report(cfg, s, rv, env) == CheckNewAction(s1, env);
    forall x | x in CheckNewAction(s1, env).sched.waiting ensures NewWaiting(cfg, s, x, s.current, rv, env.now) {
      LookWaits(s1, env, x);
      RecordedIsNew(cfg, s, rv, env.now, x);
    }
    if AllLater(s.sched.waiting, env.now) {
      RecordedIsLater(cfg, s, rv, env.now);
      LookLog(s1, env);
    }
  }

  lemma FinishSteps(cfg: Config, s: Master, rv: ReturnValue, env: Env)
    requires Inv(cfg, s) && s.fault == NoFault && |s.fsm.events| == 1
    requires s.fsm.action == s.current && s.delay == None && Fits(s.current, rv)
    ensures Stepped(cfg, s, PopEvent(ReportThenIdle(cfg, s, rv, env)), rv, env.now)
    ensures rv == RxTokenNoPacket ==> PopEvent(ReportThenIdle(cfg, s, rv, env)).current != s.current
  {
    var r := Report(cfg, s, rv, env);
    FinishCloses(cfg, s, rv, env);
    ReportKeeps(cfg, s, rv, env);
    ReportSteps(cfg, s, rv, env);
    var s' := PopEvent(ReportThenIdle(cfg, s, rv, env));
    assert s' == r.(fsm := s'.fsm);
  }

  lemma LookedSteps(cfg: Config, m: Master, s: Master, now: Time)
    requires Inv(cfg, s) && s.fault == NoFault && (Pending(s) || (Resting(s) && s.fsm.events == []))
    requires Looked(m.(delay := None), s, now)
    requires forall x :: x in s.sched.waiting ==> x in m.sched.waiting
    requires AllLater(m.sched.waiting, now) ==> Log(s) == Log(m)
    ensures Stepped(cfg, m, s, Ok, now)
  {
  }

  lemma LookSteps(cfg: Config, m: Master, env: Env)
    requires Inv(cfg, m) && Quiet(m) && m.delay.Some?
    ensures Stepped(cfg, m, Stimulate(m, DelayTimer, env), Ok, env.now)
  {
    var s, s' := m.(delay := None), Stimulate(m, DelayTimer, env);
    DelayKeeps(cfg, m, env);
    forall x | x in s'.sched.waiting ensures x in m.sched.waiting { LookWaits(s, env, x); }
    if AllLater(m.sched.waiting, env.now) { LookLog(s, env); }
    LookedSteps(cfg, m, s', env.now);
  }

  // ---------------------------------------------------------------- the whole reaction

  /** What was started since `a`, all but the last, or all, was the own token, which was declined. */
  ghost predicate OwnBetween(cfg: Config, a: seq<Action>, b: seq<Action>, last: bool) {
    && a <= b
    && forall i :: |a| <= i < |b| - (if last then 1 else 0) ==> b[i] == SendToken(cfg.own)
  }

  ghost predicate LaterOrKnown(cfg: Config, m: Master, x: Waiting, now: Time) {
    || x in m.sched.waiting
    || (if x.action == SendToken(cfg.own) then x.time == now + cfg.afterReturn else x.action == m.current)
  }

  /** A reaction that began with an end, or with the delay timer, is over: another action has been sent,
      or nothing is ready any more and the timer is set. */
  ghost predicate Ended(cfg: Config, m: Master, r: Master, now: Time) {
    && Inv(cfg, r) && Quiet(r)
    && Log(m) <= Log(r) && (AllLater(m.sched.waiting, now) ==> Log(r) == Log(m))
    && AllLater(r.sched.waiting, now)
    && (forall x :: x in r.sched.waiting ==> LaterOrKnown(cfg, m, x, now))
    && if r.current == DoNothing then
         && Resting(r) && r.sched.ready == [] && r.sent == m.sent && r.delay == RestTimer(r.sched.waiting)
         && OwnBetween(cfg, m.started, r.started, false)
       else
         && Driven(cfg, r) && r.sent == m.sent + [TxFor(r.current)] && |r.started| > |m.started|
         && OwnBetween(cfg, m.started, r.started, true)
  }

  lemma PendingIsCarried(cfg: Config, s: Master, t: Time)
    requires Inv(cfg, s) && s.fault == NoFault && Pending(s) && s.current != SendToken(cfg.own)
    requires s.started != [] && s.started[|s.started| - 1] == s.current
    ensures var r := Dispatch(cfg, s, Silence(t));
            Driven(cfg, r) && r == s.(fsm := r.fsm, sent := s.sent + [TxFor(s.current)]) && Inv(cfg, r)
  {
    QuietDispatch(cfg, s, Silence(t));
    DispatchKeeps(cfg, s, Silence(t));
  }

  /** With a foreign action pending, or none, the reaction ends at the next turn. */
  lemma ForeignEnds(cfg: Config, m: Master, s: Master, rv: ReturnValue, t: Time, envs: seq<Env>)
    requires Stepped(cfg, m, s, rv, t) && s.current != SendToken(cfg.own) && envs != [] && envs[0] == Silence(t)
    requires rv.RxTokenNoPacket? || m.current != SendToken(cfg.own)
    ensures Ended(cfg, m, Drain(cfg, s, envs), t)
  {
    if s.current != DoNothing {
      PendingIsCarried(cfg, s, t);
      var r := Dispatch(cfg, s, Silence(t));
      assert Drain(cfg, r, envs[1..]) == r;
    }
  }

  lemma EndedAgain(cfg: Config, m: Master, s: Master, rv: ReturnValue, r: Master, t: Time)
    requires Stepped(cfg, m, s, rv, t) && s.current == SendToken(cfg.own) && Ended(cfg, s, r, t)
    requires rv.RxTokenNoPacket? || m.current != SendToken(cfg.own)
    ensures Ended(cfg, m, r, t)
  {
    forall x | x in r.sched.waiting ensures LaterOrKnown(cfg, m, x, t) {
      assert LaterOrKnown(cfg, s, x, t);
    }
    assert s.started == m.started + [SendToken(cfg.own)];
  }

  predicate AllSilent(envs: seq<Env>, t: Time) { forall i :: 0 <= i < |envs| ==> envs[i] == Silence(t) }

  lemma DeclineDrains(cfg: Config, s: Master, t: Time, envs: seq<Env>, s2: Master)
    requires s.fault == NoFault && Pending(s) && s.current == SendToken(cfg.own) && envs != [] && envs[0] == Silence(t)
    requires s2 == PopEvent(ReportThenIdle(cfg, s, RxTokenNoPacket, Silence(t)))
    ensures Drain(cfg, s, envs) == Drain(cfg, s2, envs[1..])
  {
  }

  /** The own token is declined at once. */
  lemma OwnDeclines(cfg: Config, s: Master, t: Time, envs: seq<Env>) returns (s2: Master)
    requires Inv(cfg, s) && s.fault == NoFault && Pending(s) && s.current == SendToken(cfg.own)
    requires envs != [] && envs[0] == Silence(t)
    ensures Stepped(cfg, s, s2, RxTokenNoPacket, t) && s2.current != SendToken(cfg.own)
    ensures Drain(cfg, s, envs) == Drain(cfg, s2, envs[1..])
  {
    FinishSteps(cfg, s, RxTokenNoPacket, Silence(t));
    s2 := PopEvent(ReportThenIdle(cfg, s, RxTokenNoPacket, Silence(t)));
    DeclineDrains(cfg, s, t, envs, s2);
  }

  /** Whatever comes next, two more turns end the reaction. */
  lemma StepsEnd(cfg: Config, m: Master, s: Master, rv: ReturnValue, t: Time, envs: seq<Env>)
    requires Stepped(cfg, m, s, rv, t) && |envs| >= 2 && AllSilent(envs, t)
    requires rv.RxTokenNoPacket? || m.current != SendToken(cfg.own)
    ensures Ended(cfg, m, Drain(cfg, s, envs), t)
  {
    if s.current == SendToken(cfg.own) {
      var s2 := OwnDeclines(cfg, s, t, envs);
      ForeignEnds(cfg, s, s2, RxTokenNoPacket, t, envs[1..]);
      EndedAgain(cfg, m, s, rv, Drain(cfg, s2, envs[1..]), t);
    } else {
      ForeignEnds(cfg, m, s, rv, t, envs);
    }
  }

  lemma EndedFor(cfg: Config, m: Master, s: Master, r: Master, t: Time)
    requires Ended(cfg, s, r, t) && s == m.(fsm := s.fsm)
    ensures Ended(cfg, m, r, t)
  {
    forall x | x in r.sched.waiting ensures LaterOrKnown(cfg, m, x, t) { assert LaterOrKnown(cfg, s, x, t); }
  }

  lemma FirstDispatch(cfg: Config, s: Master, rv: ReturnValue, t: Time)
    requires s.fault == NoFault && s.fsm.events != [] && Decision(cfg, s, Silence(t)) == Finish(rv)
    ensures var s1 := PopEvent(ReportThenIdle(cfg, s, rv, Silence(t)));
            Drain(cfg, s, Turns(t)) == Drain(cfg, s1, [Silence(t), Silence(t)])
  {
    assert Turns(t)[1..] == [Silence(t), Silence(t)];
  }

  lemma StepsEndFor(cfg: Config, m: Master, s: Master, s1: Master, rv: ReturnValue, t: Time)
    requires Stepped(cfg, s, s1, rv, t) && s == m.(fsm := s.fsm) && m.current != SendToken(cfg.own)
    ensures Ended(cfg, m, Drain(cfg, s1, [Silence(t), Silence(t)]), t)
  {
    StepsEnd(cfg, s, s1, rv, t, [Silence(t), Silence(t)]);
    EndedFor(cfg, m, s, Drain(cfg, s1, [Silence(t), Silence(t)]), t);
  }

  /** A reaction whose first dispatch ends the action. `m` is the master before the event was queued. */
  lemma FinishEnds(cfg: Config, m: Master, s: Master, rv: ReturnValue, t: Time)
    requires Inv(cfg, s) && s.fault == NoFault && |s.fsm.events| == 1 && s == m.(fsm := s.fsm)
    requires s.fsm.action == s.current && s.delay == None && Fits(s.current, rv) && m.current != SendToken(cfg.own)
    requires Decision(cfg, s, Silence(t)) == Finish(rv)
    ensures Ended(cfg, m, Drain(cfg, s, Turns(t)), t)
  {
    var s1 := PopEvent(ReportThenIdle(cfg, s, rv, Silence(t)));
    FirstDispatch(cfg, s, rv, t);
    FinishSteps(cfg, s, rv, Silence(t));
    StepsEndFor(cfg, m, s, s1, rv, t);
  }

  /** The states whose timer ends the action when no packet is coming in. */
  predicate TimerEndsAction(m: Master) {
    m.fsm.state == WaitClientPacketDone || m.fsm.state == QueryAddressState || m.fsm.state == WaitAddressReply
  }

  lemma TimerEnds(cfg: Config, m: Master, t: Time)
    requires Inv(cfg, m) && Quiet(m) && Busy(m) && TimerEndsAction(m) && m.current != SendToken(cfg.own)
    ensures Ended(cfg, m, React(cfg, m, FsmTimer, Silence(t), Turns(t)), t)
  {
    var s := Stimulate(m, FsmTimer, Silence(t));
    StimulusKeeps(cfg, m, FsmTimer, Silence(t));
    StimulusQueues(cfg, m, FsmTimer, Silence(t));
    var rv := if m.fsm.state == WaitClientPacketDone then TokenTimeout else AddressQueryDone;
    assert Decision(cfg, s, Silence(t)) == Finish(rv);
    FinishEnds(cfg, m, s, rv, t);
  }

  lemma StartEnds(cfg: Config, m: Master, t: Time)
    requires Inv(cfg, m) && Quiet(m) && Busy(m) && m.fsm.state == StartMaster
    ensures Ended(cfg, m, React(cfg, m, Packet(RxMasterStartStop), Silence(t), Turns(t)), t)
  {
    var k := Packet(RxMasterStartStop);
    var s := Stimulate(m, k, Silence(t));
    StimulusKeeps(cfg, m, k, Silence(t));
    StimulusQueues(cfg, m, k, Silence(t));
    FinishEnds(cfg, m, s, Ok, t);
  }

  lemma WokenEnds(cfg: Config, m: Master, s: Master, t: Time)
    requires Stepped(cfg, m, s, Ok, t) && m.current == DoNothing
    ensures Ended(cfg, m, Drain(cfg, s, Turns(t)), t)
  {
    StepsEnd(cfg, m, s, Ok, t, Turns(t));
  }

  lemma WakeEnds(cfg: Config, m: Master, t: Time) returns (r: Master)
    requires Inv(cfg, m) && Quiet(m) && Resting(m) && m.delay.Some?
    ensures r == React(cfg, m, DelayTimer, Silence(t), Turns(t)) && Ended(cfg, m, r, t)
  {
    var s := Stimulate(m, DelayTimer, Silence(t));
    LookSteps(cfg, m, Silence(t));
    r := Drain(cfg, s, Turns(t));
    WokenEnds(cfg, m, s, t);
  }

  // ---------------------------------------------------------------- serving an action in silence

  /** The grant's echo is heard. */
  function Echoed(cfg: Config, m: Master, t: Time): Master {
    if m.current.SendToken? then React(cfg, m, Packet(RxGrantToken), Silence(t), Turns(t)) else m
  }

  /** The start-up message is heard; a grant is echoed and not answered; a discovery is not answered. */
  function Served(cfg: Config, m: Master, t: Time): Master {
    if m.current.SendMasterStart? then React(cfg, m, Packet(RxMasterStartStop), Silence(t), Turns(t))
    else React(cfg, Echoed(cfg, m, t), FsmTimer, Silence(t), Turns(t))
  }

  lemma EchoIsSilent(cfg: Config, m: Master, t: Time)
    requires Inv(cfg, m) && Driven(cfg, m) && !m.current.SendMasterStart?
    ensures var m' := Echoed(cfg, m, t);
            m' == m.(fsm := m'.fsm) && Quiet(m') && Busy(m') && TimerEndsAction(m') && Inv(cfg, m')
  {
    if m.current.SendToken? {
      var s := Stimulate(m, Packet(RxGrantToken), Silence(t));
      StimulusQueues(cfg, m, Packet(RxGrantToken), Silence(t));
      StimulusKeeps(cfg, m, Packet(RxGrantToken), Silence(t));
      QuietDispatch(cfg, s, Silence(t));
      DispatchKeeps(cfg, s, Silence(t));
      var d := Dispatch(cfg, s, Silence(t));
      assert Drain(cfg, s, Turns(t)) == Drain(cfg, d, Turns(t)[1..]) == d;
    }
  }

  lemma ServedEnds(cfg: Config, m: Master, t: Time)
    requires Inv(cfg, m) && Driven(cfg, m)
    ensures Ended(cfg, m, Served(cfg, m, t), t)
  {
    if m.current.SendMasterStart? {
      StartEnds(cfg, m, t);
    } else {
      EchoIsSilent(cfg, m, t);
      TimerEnds(cfg, Echoed(cfg, m, t), t);
      EndedFor(cfg, m, Echoed(cfg, m, t), Served(cfg, m, t), t);
    }
  }

  /** A ready action other than the own token comes nearer with every reaction, until it is carried out. */
  lemma Nearer(cfg: Config, m: Master, r: Master, t: Time, g: Action, j: nat) returns (j': nat)
    requires Ended(cfg, m, r, t) && j < |m.sched.ready| && m.sched.ready[j] == g && g != SendToken(cfg.own)
    ensures Driven(cfg, r)
    ensures r.current != g ==> j' < j && j' < |r.sched.ready| && r.sched.ready[j'] == g
  {
    var p := |m.started| + j;
    assert Log(m)[p] == g && Log(r)[p] == g;
    j' := if r.current == g then 0 else p - |r.started|;
  }

  /** The token of an address that is neither current nor waiting is ready. */
  lemma TokenIsReady(cfg: Config, m: Master, a: Address) returns (j: nat)
    requires Inv(cfg, m) && HasLine(m.dyn.table, a) && m.current != SendToken(a)
    requires forall x :: x in m.sched.waiting ==> x.action != SendToken(a)
    ensures j < |m.sched.ready| && m.sched.ready[j] == SendToken(a)
  {
    var w := Actions(m.sched.waiting);
    assert Outstanding(m)[SendToken(a)] == 1;
    forall i | 0 <= i < |w| ensures w[i] != SendToken(a) { assert m.sched.waiting[i] in m.sched.waiting; }
    assert SendToken(a) !in w;
    assert SendToken(a) in multiset(m.sched.ready);
    j :| 0 <= j < |m.sched.ready| && m.sched.ready[j] == SendToken(a);
  }

  /** A point in time when everything is due. */
  function Latest(w: seq<Waiting>): (t: Time)
    ensures t >= 1.0 && forall x :: x in w ==> x.time <= t
  {
    if w == [] then 1.0 else
    var t := Latest(w[1..]);
    if w[0].time > t then w[0].time else t
  }

  /** At such a time every foreign token that waited is ready or carried out. */
  lemma Recalled(cfg: Config, m: Master, r: Master, t: Time, a: Address) returns (j: nat)
    requires Ended(cfg, m, r, t) && t >= Latest(m.sched.waiting) && a != cfg.own
    requires HasLine(r.dyn.table, a) && m.current != SendToken(a)
    ensures Driven(cfg, r)
    ensures r.current != SendToken(a) ==> j < |r.sched.ready| && r.sched.ready[j] == SendToken(a)
  {
    forall x | x in r.sched.waiting ensures x.action != SendToken(a) {
      assert LaterOrKnown(cfg, m, x, t);
    }
    j := 0;
    if r.current != SendToken(a) { j := TokenIsReady(cfg, r, a); }
  }

  // ---------------------------------------------------------------- what happens to the lines

  predicate SameHolder(l: Line, k: Line) { l.addr == k.addr && l.dynamic == k.dynamic && l.uid == k.uid }

  /** Some line of the table has the same address, kind and id. */
  ghost predicate Listed(t: seq<Line>, l: Line) { exists j :: 0 <= j < |t| && SameHolder(l, t[j]) }

  /** Every line was there before. */
  ghost predicate LinesFrom(t: seq<Line>, t': seq<Line>) { forall i :: 0 <= i < |t'| ==> Listed(t, t'[i]) }

  ghost predicate NoDynamic(t: seq<Line>) { forall i :: 0 <= i < |t| ==> !t[i].dynamic }

  /** No request was answered: lines at most disappear, and static ones do not even do that. */
  ghost predicate DynFollows(d: Dyn, d': Dyn) {
    LinesFrom(d.table, d'.table) && (NoDynamic(d.table) ==> d'.free == d.free)
  }

  lemma SameLines(t: seq<Line>)
    ensures LinesFrom(t, t)
  {
    forall i | 0 <= i < |t| ensures Listed(t, t[i]) { assert SameHolder(t[i], t[i]); }
  }

  lemma LinesFromOn(t: seq<Line>, t1: seq<Line>, t2: seq<Line>)
    requires LinesFrom(t, t1) && LinesFrom(t1, t2)
    ensures LinesFrom(t, t2)
  {
    forall i | 0 <= i < |t2| ensures Listed(t, t2[i]) {
      assert Listed(t1, t2[i]);
      var k :| 0 <= k < |t1| && SameHolder(t2[i], t1[k]);
      assert Listed(t, t1[k]);
      var j :| 0 <= j < |t| && SameHolder(t1[k], t[j]);
      assert SameHolder(t2[i], t[j]);
    }
  }

  lemma StaticLinesFrom(t: seq<Line>, t': seq<Line>)
    requires LinesFrom(t, t') && NoDynamic(t)
    ensures NoDynamic(t')
  {
    forall i | 0 <= i < |t'| ensures !t'[i].dynamic {
      assert Listed(t, t'[i]);
    }
  }

  lemma FollowsItself(d: Dyn, d': Dyn)
    requires d'.table == d.table && d'.free == d.free
    ensures DynFollows(d, d')
  {
    SameLines(d.table);
  }

  lemma FollowsOn(d: Dyn, d1: Dyn, d2: Dyn)
    requires DynFollows(d, d1) && DynFollows(d1, d2)
    ensures DynFollows(d, d2)
  {
    LinesFromOn(d.table, d1.table, d2.table);
    if NoDynamic(d.table) { StaticLinesFrom(d.table, d1.table); }
  }

  lemma UpdateFollows(cfg: Config, s: Master, a: Address, st: LineState, now: Time)
    ensures DynFollows(s.dyn, UpdateAddressLine(cfg, s, a, st, now).dyn)
  {
    var t, i, d' := s.dyn.table, FindAddr(s.dyn.table, a), UpdateAddressLine(cfg, s, a, st, now).dyn;
    if i == |t| {
      FollowsItself(s.dyn, d');
    } else {
      forall k | 0 <= k < |d'.table| ensures Listed(t, d'.table[k]) {
        var j := if |d'.table| == |t| || k < i then k else k + 1;
        assert SameHolder(d'.table[k], t[j]);
      }
    }
  }

  lemma RecordFollows(cfg: Config, s: Master, rv: ReturnValue, now: Time)
    ensures DynFollows(s.dyn, Recorded(cfg, s, rv, now).dyn)
  {
    if rv.ClientPacketStarted? || rv.RxTokenNoPacket? || rv.TokenTimeout? {
      var s0 := s.(fsm := s.fsm.(action := DoNothing), current := DoNothing);
      UpdateFollows(cfg, s0, ActionAddr(s.current), OutcomeOf(rv), now);
    } else {
      FollowsItself(s.dyn, Recorded(cfg, s, rv, now).dyn);
    }
  }

  lemma DispatchFollows(cfg: Config, s: Master, env: Env)
    requires Inv(cfg, s) && s.fault == NoFault && s.fsm.events != [] && !Decision(cfg, s, env).Answer?
    ensures DynFollows(s.dyn, Dispatch(cfg, s, env).dyn)
  {
    NextDyn(cfg, s, DispatchStep(env));
    if Decision(cfg, s, env).Finish? {
      RecordFollows(cfg, s, Decision(cfg, s, env).rv, env.now);
    } else {
      FollowsItself(s.dyn, s.dyn);
    }
  }

  lemma {:induction false} DrainFollows(cfg: Config, s: Master, envs: seq<Env>)
    requires Inv(cfg, s) && (s.fault == NoFault && s.fsm.events != [] ==> Pending(s))
    ensures DynFollows(s.dyn, Drain(cfg, s, envs).dyn)
    decreases |envs|
  {
    if envs != [] && s.fault == NoFault && s.fsm.events != [] {
      var s1 := Dispatch(cfg, s, envs[0]);
      DispatchFollows(cfg, s, envs[0]);
      DispatchKeeps(cfg, s, envs[0]);
      DrainFollows(cfg, s1, envs[1..]);
      FollowsOn(s.dyn, s1.dyn, Drain(cfg, s1, envs[1..]).dyn);
    } else {
      FollowsItself(s.dyn, s.dyn);
    }
  }

  /** A reaction whose first event is no address request. */
  lemma FirstFollows(cfg: Config, s: Master, t: Time)
    requires Inv(cfg, s) && s.fault == NoFault && s.fsm.events != [] && !Decision(cfg, s, Silence(t)).Answer?
    ensures DynFollows(s.dyn, Drain(cfg, s, Turns(t)).dyn)
  {
    var s1, envs := Dispatch(cfg, s, Silence(t)), [Silence(t), Silence(t)];
    assert Turns(t)[1..] == envs;
    DispatchFollows(cfg, s, Silence(t));
    DispatchKeeps(cfg, s, Silence(t));
    DrainFollows(cfg, s1, envs);
    FollowsOn(s.dyn, s1.dyn, Drain(cfg, s1, envs).dyn);
  }

  lemma FollowsFor(d: Dyn, d1: Dyn, d2: Dyn)
    requires d1.table == d.table && d1.free == d.free && DynFollows(d1, d2)
    ensures DynFollows(d, d2)
  {
  }

  /** Whatever a stimulus other than an address request leaves in the queue. */
  lemma QueuedFollows(cfg: Config, s: Master, t: Time)
    requires Inv(cfg, s) && s.fault == NoFault
    requires s.fsm.events != [] ==> !s.fsm.events[0].RxAddressRequest?
    ensures DynFollows(s.dyn, Drain(cfg, s, Turns(t)).dyn)
  {
    if s.fsm.events == [] || Pending(s) { DrainFollows(cfg, s, Turns(t)); } else { FirstFollows(cfg, s, t); }
  }

  lemma ReactionFollows(cfg: Config, m: Master, k: Stimulus, t: Time)
    requires Inv(cfg, m) && Quiet(m) && Enabled(m, k) && (k.Packet? ==> !k.event.RxAddressRequest?)
    ensures DynFollows(m.dyn, React(cfg, m, k, Silence(t), Turns(t)).dyn)
  {
    var s := Stimulate(m, k, Silence(t));
    StimulusKeeps(cfg, m, k, Silence(t));
    StimulusQueues(cfg, m, k, Silence(t));
    StimulusLeavesDyn(cfg, m, k, Silence(t));
    QueuedFollows(cfg, s, t);
    FollowsFor(m.dyn, s.dyn, Drain(cfg, s, Turns(t)).dyn);
  }

  lemma StimulusLeavesDyn(cfg: Config, m: Master, k: Stimulus, env: Env)
    requires Inv(cfg, m) && Quiet(m) && Enabled(m, k)
    ensures Stimulate(m, k, env).dyn.table == m.dyn.table && Stimulate(m, k, env).dyn.free == m.dyn.free
  {
    if k.DelayTimer? { DelayKeeps(cfg, m, env); }
  }

  lemma ServedFollows(cfg: Config, m: Master, t: Time)
    requires Inv(cfg, m) && Driven(cfg, m)
    ensures DynFollows(m.dyn, Served(cfg, m, t).dyn)
  {
    if m.current.SendMasterStart? {
      ReactionFollows(cfg, m, Packet(RxMasterStartStop), t);
    } else {
      EchoIsSilent(cfg, m, t);
      ReactionFollows(cfg, Echoed(cfg, m, t), FsmTimer, t);
    }
  }

  // ---------------------------------------------------------------- what happens to one line

  /** The line of a foreign address after a reaction that records `o` for it first, or nothing. */
  lemma ReactionMovesLine(cfg: Config, s: Master, t: Time, a: Address)
    requires Inv(cfg, s) && s.fault == NoFault && s.fsm.events != [] && !Decision(cfg, s, Silence(t)).Answer?
    requires HasLine(s.dyn.table, a) && a != cfg.own
    ensures LineMoves(s.dyn.table, Drain(cfg, s, Turns(t)).dyn, a, Outcome(cfg, s, DispatchStep(Silence(t)), a))
  {
    var s1, envs, st := Dispatch(cfg, s, Silence(t)), [Silence(t), Silence(t)], DispatchStep(Silence(t));
    assert Turns(t)[1..] == envs;
    NextDyn(cfg, s, st);
    LineAfterStep(cfg, s, st, a);
    DispatchKeeps(cfg, s, Silence(t));
    if HasLine(s1.dyn.table, a) {
      DrainLeavesLine(cfg, s1, envs, a);
    } else {
      DrainAddsNoLine(cfg, s1, envs, a);
      DrainLeavesPool(cfg, s1, envs);
    }
  }

  lemma PendingLeavesPool(cfg: Config, s: Master, env: Env)
    requires Inv(cfg, s) && s.fault == NoFault && Pending(s)
    ensures Dispatch(cfg, s, env).dyn.free == s.dyn.free
  {
    NextDyn(cfg, s, DispatchStep(env));
  }

  lemma {:induction false} DrainLeavesPool(cfg: Config, s: Master, envs: seq<Env>)
    requires Inv(cfg, s) && (s.fault == NoFault && s.fsm.events != [] ==> Pending(s))
    ensures Drain(cfg, s, envs).dyn.free == s.dyn.free
    decreases |envs|
  {
    if envs != [] && s.fault == NoFault && s.fsm.events != [] {
      PendingLeavesPool(cfg, s, envs[0]);
      DispatchKeeps(cfg, s, envs[0]);
      DrainLeavesPool(cfg, Dispatch(cfg, s, envs[0]), envs[1..]);
    }
  }

  lemma RetiredTop(cfg: Config, s: Master, t: Time, a: Address)
    requires s.fault == NoFault && s.fsm.events != [] && TableOk(cfg, s.dyn.table)
    requires HasLine(s.dyn.table, a) && Outcome(cfg, s, DispatchStep(Silence(t)), a) == Some(BadClient)
    requires RemoveDynamic(SetState(LineOf(s.dyn.table, a), BadClient))
    ensures DynAfter(cfg, s, DispatchStep(Silence(t))).free == s.dyn.free + [a]
  {
  }

  /** A retired address is the next one to be given away. */
  lemma RetirePushes(cfg: Config, s: Master, t: Time, a: Address)
    requires Inv(cfg, s) && s.fault == NoFault && s.fsm.events != []
    requires HasLine(s.dyn.table, a) && Outcome(cfg, s, DispatchStep(Silence(t)), a) == Some(BadClient)
    requires RemoveDynamic(SetState(LineOf(s.dyn.table, a), BadClient))
    ensures Drain(cfg, s, Turns(t)).dyn.free == s.dyn.free + [a]
  {
    var s1, envs := Dispatch(cfg, s, Silence(t)), [Silence(t), Silence(t)];
    assert Turns(t)[1..] == envs;
    InvTable(cfg, s);
    RetiredTop(cfg, s, t, a);
    NextDyn(cfg, s, DispatchStep(Silence(t)));
    DispatchKeeps(cfg, s, Silence(t));
    DrainLeavesPool(cfg, s1, envs);
  }
}
