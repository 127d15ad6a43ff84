/** What every dispatch, timer and packet keeps true of the master. */
module MasterInvariant {
  import opened Prelude
  import opened Bytes
  import opened Protocol
  import opened Scheduler
  import opened MasterModel

  // ---------------------------------------------------------------- the address pool

  ghost predicate TableOk(cfg: Config, t: seq<Line>) {
    && (forall i, j :: 0 <= i < j < |t| ==> t[i].addr != t[j].addr)
    && (forall i, j :: 0 <= i < j < |t| && t[i].dynamic && t[j].dynamic ==> t[i].uid != t[j].uid)
    && (forall i :: 0 <= i < |t| ==> if t[i].dynamic then cfg.IsDynamic(t[i].addr) else cfg.IsStatic(t[i].addr))
  }

  /** Conservation: static addresses always have a line, and a dynamic address is either free or
      has a line, never both and never twice. */
  ghost predicate PoolOk(cfg: Config, d: Dyn) {
    && TableOk(cfg, d.table)
    && (forall a: Address :: cfg.IsStatic(a) ==> HasLine(d.table, a))
    && (forall i, j :: 0 <= i < j < |d.free| ==> d.free[i] != d.free[j])
    && (forall a: Address :: a in d.free <==> cfg.IsDynamic(a) && !HasLine(d.table, a))
  }

  // ---------------------------------------------------------------- outstanding work

  /** Everything the master still has to do: waiting, ready, or being done. */
  ghost function Outstanding(s: Master): multiset<Action> {
    AllActions(s.sched) + Doing(s.current)
  }

  ghost function Doing(a: Action): multiset<Action> {
    if a == DoNothing then multiset{} else multiset{a}
  }

  /** One token per address with a line and none for any other, and one discovery obligation. */
  ghost predicate BagOk(bag: multiset<Action>, d: Dyn) {
    && (forall a: Address :: bag[SendToken(a)] == if HasLine(d.table, a) then 1 else 0)
    && bag[QueryAddress] + (if d.discovery.Some? then 1 else 0) == 1
    && bag[DoNothing] == 0
  }

  ghost predicate OnlyTokensWait(w: seq<Waiting>) {
    forall x :: x in w ==> x.action.SendToken?
  }

  ghost predicate Balanced(cfg: Config, d: Dyn, q: Sched, current: Action) {
    && PoolOk(cfg, d)
    && BagOk(AllActions(q) + Doing(current), d)
    && OnlyTokensWait(q.waiting)
  }

  ghost predicate Books(cfg: Config, s: Master) {
    Balanced(cfg, s.dyn, s.sched, s.current)
  }

  // ---------------------------------------------------------------- phases

  predicate Matches(st: FsmState, a: Action) {
    match st
    case IdleState => false
    case StartMaster => a.SendMasterStart?
    case SendingToken => a.SendToken?
    case WaitClientPacketDone => a.SendToken?
    case QueryAddressState => a.QueryAddress?
    case WaitAddressReply => a.QueryAddress?
  }

  predicate NoEventOrPacket(e: seq<Event>) { e == [] || (|e| == 1 && IsPacketEvent(e[0])) }

  /** An action was started and waits in idle for its one `check_new_command`. */
  predicate Pending(s: Master) {
    && s.fsm == Fsm(IdleState, None, s.current, [CheckNewCommand])
    && s.current != DoNothing && s.delay == None
  }

  /** An action is being carried out: the timer is armed, or has just fired. */
  predicate Busy(s: Master) {
    && Matches(s.fsm.state, s.current) && s.fsm.action == s.current && s.delay == None
    && if s.fsm.events == [TimerTimeout] then s.fsm.timer == None
       else NoEventOrPacket(s.fsm.events) && s.fsm.timer.Some?
  }

  /** Nothing is being done. */
  predicate Resting(s: Master) {
    && s.fsm.state == IdleState && s.fsm.timer == None && s.fsm.action == DoNothing && s.current == DoNothing
    && NoEventOrPacket(s.fsm.events)
  }

  /** The echo of a grant was not heard: the token stays current but nothing drives it any more. */
  predicate Stalled(s: Master) {
    && s.fsm.state == IdleState && s.fsm.timer == None && s.current.SendToken? && s.fsm.action == s.current
    && s.delay == None && NoEventOrPacket(s.fsm.events)
  }

  /** The program died at the `assert(0)` that an unheard start-up message runs into. */
  predicate Dead(s: Master) {
    s.fault == BadReport && s.fsm.state == StartMaster && s.current == DoNothing
  }

  predicate Phase(s: Master) {
    if s.fault == NoFault then Pending(s) || Busy(s) || Resting(s) || Stalled(s) else Dead(s)
  }

  ghost predicate Inv(cfg: Config, s: Master) {
    cfg.Valid() && Books(cfg, s) && Phase(s)
  }

  // ---------------------------------------------------------------- table changes

  lemma HasLineAfterRemove(cfg: Config, t: seq<Line>, i: nat)
    requires TableOk(cfg, t) && i < |t|
    ensures TableOk(cfg, Remove(t, i))
    ensures forall a: Address :: HasLine(Remove(t, i), a) <==> HasLine(t, a) && a != t[i].addr
  {
    var r := Remove(t, i);
    assert forall j :: 0 <= j < |r| ==> r[j] == t[if j < i then j else j + 1];
    forall a: Address ensures HasLine(r, a) <==> HasLine(t, a) && a != t[i].addr {
      if HasLine(t, a) && a != t[i].addr {
        var j :| 0 <= j < |t| && t[j].addr == a;
        assert r[if j < i then j else j - 1].addr == a;
      }
    }
  }

  lemma HasLineAfterUpdate(cfg: Config, t: seq<Line>, i: nat, l: Line)
    requires TableOk(cfg, t) && i < |t|
    requires l.addr == t[i].addr && l.uid == t[i].uid && l.dynamic == t[i].dynamic
    ensures TableOk(cfg, t[i := l])
    ensures forall a: Address :: HasLine(t[i := l], a) <==> HasLine(t, a)
  {
    var r := t[i := l];
    assert forall j :: 0 <= j < |r| ==> r[j].addr == t[j].addr && r[j].uid == t[j].uid && r[j].dynamic == t[j].dynamic;
    forall a: Address | HasLine(t, a) ensures HasLine(r, a) {
      var j :| 0 <= j < |t| && t[j].addr == a;
      assert r[j].addr == a;
    }
  }

  lemma HasLineAfterAppend(t: seq<Line>, l: Line)
    ensures forall a: Address :: HasLine(t + [l], a) <==> HasLine(t, a) || a == l.addr
  {
    var r := t + [l];
    assert r[|t|] == l;
    forall a: Address | HasLine(t, a) ensures HasLine(r, a) {
      var j :| 0 <= j < |t| && t[j].addr == a;
      assert r[j].addr == a;
    }
  }

  lemma AllActionsPush(q: Sched, a: Action, t: Time)
    ensures AllActions(Sched(q.ready + [a], q.waiting)) == AllActions(q) + multiset{a}
    ensures AllActions(Sched(q.ready, q.waiting + [Waiting(t, a)])) == AllActions(q) + multiset{a}
  {
    assert multiset(q.ready + [a]) == multiset(q.ready) + multiset{a};
    assert Actions(q.waiting + [Waiting(t, a)]) == Actions(q.waiting) + [a];
    assert multiset(Actions(q.waiting) + [a]) == multiset(Actions(q.waiting)) + multiset{a};
  }

  /** Nothing but the address handler's tables and the waiting queue moves. */
  predicate SameButBooks(s: Master, s': Master) {
    s' == s.(dyn := s'.dyn, sched := s'.sched)
  }

  /** Retirement returns exactly the removed line's address to the pool. */
  lemma RetireKeepsPool(cfg: Config, d: Dyn, i: nat)
    requires cfg.Valid() && PoolOk(cfg, d) && i < |d.table| && d.table[i].dynamic
    ensures PoolOk(cfg, d.(table := Remove(d.table, i), free := d.free + [d.table[i].addr]))
  {
    HasLineAfterRemove(cfg, d.table, i);
    var a := d.table[i].addr;
    assert HasLine(d.table, a) && a !in d.free;
    assert forall k :: 0 <= k < |d.free| ==> d.free[k] in d.free;
    forall x: Address ensures x in d.free + [a] <==> cfg.IsDynamic(x) && !HasLine(Remove(d.table, i), x) {
      assert x in d.free + [a] <==> x in d.free || x == a;
    }
  }

  lemma RecordKeepsPool(cfg: Config, d: Dyn, i: nat, l: Line)
    requires PoolOk(cfg, d) && i < |d.table|
    requires l.addr == d.table[i].addr && l.uid == d.table[i].uid && l.dynamic == d.table[i].dynamic
    ensures PoolOk(cfg, d.(table := d.table[i := l]))
  {
    HasLineAfterUpdate(cfg, d.table, i, l);
  }

  /** Without its line, an address is owed no token any more. */
  lemma BagAfterRetire(bag: multiset<Action>, d: Dyn, a: Address, d': Dyn)
    requires BagOk(bag + multiset{SendToken(a)}, d) && d'.discovery == d.discovery
    requires forall x: Address :: HasLine(d'.table, x) <==> HasLine(d.table, x) && x != a
    ensures BagOk(bag, d')
  {
    forall x: Address ensures bag[SendToken(x)] == if HasLine(d'.table, x) then 1 else 0 {
      assert (bag + multiset{SendToken(a)})[SendToken(x)] == if HasLine(d.table, x) then 1 else 0;
    }
  }

  lemma BagAfterRecord(bag: multiset<Action>, d: Dyn, d': Dyn)
    requires BagOk(bag, d) && d'.discovery == d.discovery
    requires forall x: Address :: HasLine(d'.table, x) <==> HasLine(d.table, x)
    ensures BagOk(bag, d')
  {
  }

  lemma RetireKeepsBooks(cfg: Config, s: Master, a: Address, i: nat)
    requires cfg.Valid() && PoolOk(cfg, s.dyn) && OnlyTokensWait(s.sched.waiting) && s.current == DoNothing
    requires BagOk(AllActions(s.sched) + multiset{SendToken(a)}, s.dyn)
    requires i < |s.dyn.table| && s.dyn.table[i].addr == a && s.dyn.table[i].dynamic
    ensures Books(cfg, s.(dyn := s.dyn.(table := Remove(s.dyn.table, i), free := s.dyn.free + [a])))
  {
    var s' := s.(dyn := s.dyn.(table := Remove(s.dyn.table, i), free := s.dyn.free + [a]));
    RetireKeepsPool(cfg, s.dyn, i);
    HasLineAfterRemove(cfg, s.dyn.table, i);
    BagAfterRetire(AllActions(s.sched), s.dyn, a, s'.dyn);
    assert Outstanding(s') == AllActions(s.sched);
  }

  lemma RecordKeepsBooks(cfg: Config, s: Master, i: nat, l: Line, x: Waiting)
    requires cfg.Valid() && PoolOk(cfg, s.dyn) && OnlyTokensWait(s.sched.waiting) && s.current == DoNothing
    requires BagOk(AllActions(s.sched) + multiset{x.action}, s.dyn) && x.action.SendToken?
    requires i < |s.dyn.table|
    requires l.addr == s.dyn.table[i].addr && l.uid == s.dyn.table[i].uid && l.dynamic == s.dyn.table[i].dynamic
    ensures Books(cfg, s.(dyn := s.dyn.(table := s.dyn.table[i := l]),
                          sched := s.sched.(waiting := s.sched.waiting + [x])))
  {
    var s' := s.(dyn := s.dyn.(table := s.dyn.table[i := l]), sched := s.sched.(waiting := s.sched.waiting + [x]));
    RecordKeepsPool(cfg, s.dyn, i, l);
    HasLineAfterUpdate(cfg, s.dyn.table, i, l);
    AllActionsPush(s.sched, x.action, x.time);
    BagAfterRecord(AllActions(s.sched) + multiset{x.action}, s.dyn, s'.dyn);
    assert Outstanding(s') == AllActions(s.sched) + multiset{x.action};
  }

  /** Recording a token's outcome finds the line, and settles the one token that was missing. */
  lemma UpdateKeepsBooks(cfg: Config, s: Master, a: Address, st: LineState, now: Time)
    requires cfg.Valid() && PoolOk(cfg, s.dyn) && OnlyTokensWait(s.sched.waiting)
    requires s.fault == NoFault && s.current == DoNothing && st != Free
    requires BagOk(AllActions(s.sched) + multiset{SendToken(a)}, s.dyn)
    ensures var s' := UpdateAddressLine(cfg, s, a, st, now);
            && Books(cfg, s') && SameButBooks(s, s')
            && s'.sched.ready == s.sched.ready
            && (st != BadClient ==> TokenWaits(s', a, now))
  {
    assert HasLine(s.dyn.table, a);
    var i := FindAddr(s.dyn.table, a);
    var l := SetState(s.dyn.table[i], st);
    if RemoveDynamic(l) {
      RetireKeepsBooks(cfg, s, a, i);
    } else {
      var x := Waiting(NextTime(cfg, l.state, now), SendToken(a));
      RecordKeepsBooks(cfg, s, i, l, x);
      assert x in s.sched.waiting + [x];
    }
  }

  /** The token of address `a` waits for a time after `now`. */
  ghost predicate TokenWaits(s: Master, a: Address, now: Time) {
    exists x :: x in s.sched.waiting && x.action == SendToken(a) && x.time > now
  }

  // ---------------------------------------------------------------- address requests

  lemma AllocateKeepsPool(cfg: Config, d: Dyn, id: UniqueId)
    requires cfg.Valid() && PoolOk(cfg, d) && d.free != [] && !HasId(d.table, id)
    ensures var n := |d.free| - 1;
            PoolOk(cfg, d.(free := d.free[..n], table := d.table + [Line(Idle, 0, d.free[n], true, id)]))
  {
    var n := |d.free| - 1;
    var l := Line(Idle, 0, d.free[n], true, id);
    var t := d.table + [l];
    assert d.free[n] in d.free && !HasLine(d.table, d.free[n]);
    HasLineAfterAppend(d.table, l);
    assert forall i :: 0 <= i < |d.table| ==> t[i] == d.table[i] && t[i].uid != id && t[i].addr != l.addr;
    forall a: Address ensures a in d.free[..n] <==> cfg.IsDynamic(a) && !HasLine(t, a) {
      assert d.free == d.free[..n] + [d.free[n]];
      assert a in d.free <==> a in d.free[..n] || a == d.free[n];
      assert d.free[n] !in d.free[..n];
    }
  }

  lemma BagAfterAllocate(bag: multiset<Action>, d: Dyn, a: Address, d': Dyn)
    requires BagOk(bag, d) && d'.discovery == d.discovery && !HasLine(d.table, a)
    requires forall x: Address :: HasLine(d'.table, x) <==> HasLine(d.table, x) || x == a
    ensures BagOk(bag + multiset{SendToken(a)}, d')
  {
    forall x: Address ensures (bag + multiset{SendToken(a)})[SendToken(x)] == if HasLine(d'.table, x) then 1 else 0 {
      assert bag[SendToken(x)] == if HasLine(d.table, x) then 1 else 0;
    }
  }

  lemma AllocateKeepsBalance(cfg: Config, d: Dyn, q: Sched, current: Action, id: UniqueId, a: Address, d': Dyn)
    requires cfg.Valid() && Balanced(cfg, d, q, current)
    requires !HasId(d.table, id) && d.free != [] && a == d.free[|d.free| - 1]
    requires d' == d.(free := d.free[..|d.free| - 1], table := d.table + [Line(Idle, 0, a, true, id)])
    ensures Balanced(cfg, d', Sched(q.ready + [SendToken(a)], q.waiting), current)
  {
    assert a in d.free;
    AllocateKeepsPool(cfg, d, id);
    HasLineAfterAppend(d.table, Line(Idle, 0, a, true, id));
    AllActionsPush(q, SendToken(a), 0.0);
    var bag := AllActions(q) + Doing(current);
    BagAfterAllocate(bag, d, a, d');
    assert AllActions(Sched(q.ready + [SendToken(a)], q.waiting)) + Doing(current) == bag + multiset{SendToken(a)};
  }

  lemma RequestKeepsBooks(cfg: Config, s: Master, id: UniqueId)
    requires cfg.Valid() && Books(cfg, s)
    ensures Books(cfg, ReceivedAddressRequest(s, id))
  {
    if !HasId(s.dyn.table, id) && s.dyn.free != [] {
      AllocateKeepsBalance(cfg, s.dyn, s.sched, s.current, id, s.dyn.free[|s.dyn.free| - 1],
                           ReceivedAddressRequest(s, id).dyn);
    }
  }

  // ---------------------------------------------------------------- looking for the next action

  /** Started actions followed by ready ones: this log only ever grows at its end. */
  function Log(s: Master): seq<Action> { s.started + s.sched.ready }

  /** What a look for a new action does to a handler that has none. */
  ghost predicate Looked(s: Master, s': Master, now: Time) {
    && s'.dyn == s.dyn && s'.sent == s.sent && s'.fault == s.fault
    && Log(s) <= Log(s')
    && (forall x :: x in s'.sched.waiting ==> x.time > now)
    && (forall x :: x in s.sched.waiting && x.time > now ==> x in s'.sched.waiting)
    && if s'.current == DoNothing then
         && s'.fsm == s.fsm && s'.started == s.started && s'.sched.ready == []
         && s'.delay == if ReadyTime(s'.sched.waiting) < 1.0 then s.delay else Some(ReadyTime(s'.sched.waiting))
       else
         && s'.fsm == s.fsm.(action := s'.current, events := s.fsm.events + [CheckNewCommand])
         && s'.started == s.started + [s'.current] && s'.delay == s.delay
  }

  lemma BagAfterStart(q: Sched)
    requires q.ready != []
    ensures AllActions(q) == AllActions(q.(ready := q.ready[1..])) + multiset{q.ready[0]}
    ensures AllActions(q)[q.ready[0]] > 0
  {
    assert q.ready == [q.ready[0]] + q.ready[1..];
    assert multiset(q.ready) == multiset{q.ready[0]} + multiset(q.ready[1..]);
  }

  lemma StartNextKeepsBooks(cfg: Config, s: Master, q: Sched)
    requires Books(cfg, s) && s.current == DoNothing && s.fsm.action == DoNothing
    requires AllActions(q) == AllActions(s.sched) && OnlyTokensWait(q.waiting)
    ensures Books(cfg, StartNext(s, q)) && StartNext(s, q).sched.waiting == q.waiting
    ensures q.ready != [] ==> StartNext(s, q).current != DoNothing
  {
    if q.ready != [] {
      BagAfterStart(q);
      assert BagOk(AllActions(q), s.dyn);
      assert q.ready[0] != DoNothing;
    }
  }

  lemma StartNextLooks(s: Master, q: Sched, now: Time)
    requires s.current == DoNothing && s.fsm.action == DoNothing
    requires s.sched.ready <= q.ready
    requires forall x :: x in q.waiting ==> x.time > now
    requires forall x :: x in s.sched.waiting && x.time > now ==> x in q.waiting
    requires q.ready != [] ==> q.ready[0] != DoNothing
    ensures Looked(s, StartNext(s, q), now)
  {
    if q.ready != [] {
      assert Log(StartNext(s, q)) == s.started + q.ready;
    }
  }

  lemma LookKeepsBooks(cfg: Config, s: Master, env: Env)
    requires Books(cfg, s) && s.current == DoNothing && s.fsm.action == DoNothing
    ensures Books(cfg, CheckNewAction(s, env))
    ensures Looked(s, CheckNewAction(s, env), env.now)
  {
    var q := Promoted(s.sched, env.now, env.hint);
    PromotedConserves(s.sched, env.now, env.hint);
    StartNextKeepsBooks(cfg, s, q);
    StartNextLooks(s, q, env.now);
  }
}
