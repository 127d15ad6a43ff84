/** The right to send is always in exactly one place. */
module BusArbitration {
  import opened Prelude
  import opened Bytes
  import opened Protocol
  import opened Scheduler
  import opened MasterModel
  import opened MasterInvariant
  import opened MasterSteps
  import opened MasterRuns
  import opened MasterTheorems
  import opened Bus

  // ---------------------------------------------------------------- assumptions

  /** The messages that a client answers: a grant to its address, and a discovery while it has none. */
  predicate Answers(c: Client, m: Msg) {
    (m.GrantToken? && c.addr == m.receiver) || (m.AddressDiscovery? && c.addr == NULL_ADDR)
  }

  /** Two hearers share the granted address, or have no address when a discovery reaches them. */
  ghost predicate Contention(cs: Clients, hearers: set<UniqueId>, m: Msg) {
    exists x, y ::
      x in cs && y in cs && x != y && x in hearers && y in hearers && Answers(cs[x], m) && Answers(cs[y], m)
  }

  /** The states that wait a bit more instead of giving up while a packet is coming in. */
  predicate Rearms(m: Master, env: Env) {
    && env.rxBusy
    && (|| m.fsm.state == WaitClientPacketDone
        || m.fsm.state == QueryAddressState
        || m.fsm.state == WaitAddressReply)
  }

  /** No two hearers answer; the master gives up on nothing that is still under way; and it is only
      restarted on a silent bus. */
  ghost predicate Orderly(n: Net, st: Bus.Step) {
    match st
    case Deliver(hearers, _, _, _) =>
      NextOnWire(n.pending) < |n.pending| ==> !Contention(n.clients, hearers, n.pending[NextOnWire(n.pending)].msg)
    case Timer(k, envs) => k.FsmTimer? ==> n.pending == [] || Rearms(n.master, envs.first)
    case Restart(_, _) => n.pending == []
    case _ => true
  }

  // ---------------------------------------------------------------- the invariant

  /** A pending packet is one that the master's state is waiting for. */
  ghost predicate MasterEntryFits(cfg: Config, m: Master, msg: Msg) {
    match msg
    case MasterStarted => m.fsm.state == StartMaster
    case GrantToken(a) => m.fsm.state == SendingToken && m.current == SendToken(a) && a != cfg.own
    case AddressDiscovery(_, _) => m.fsm.state == QueryAddressState
    case AddressReply(_, _) => m.fsm.state == WaitAddressReply
    case _ => IsData(msg) && m.fsm.state == WaitClientPacketDone && m.current == SendToken(cfg.own)
  }

  ghost predicate ClientEntryFits(m: Master, cs: Clients, id: UniqueId, msg: Msg) {
    if msg.AddressRequest? then m.fsm.state == QueryAddressState && msg.id == id
    else
      && (IsData(msg) || msg.ReturnToken?)
      && (m.fsm.state == SendingToken || m.fsm.state == WaitClientPacketDone)
      && (id in cs ==> m.current == SendToken(cs[id].addr))
  }

  ghost predicate EntryFits(cfg: Config, n: Net, e: Entry) {
    match e.sender
    case FromMaster => MasterEntryFits(cfg, n.master, e.msg)
    case FromClient(id) => ClientEntryFits(n.master, n.clients, id, e.msg)
  }

  ghost predicate QueuesHoldData(cs: Clients) {
    forall id :: id in cs ==> forall i :: 0 <= i < |cs[id].queue| ==> IsData(cs[id].queue[i])
  }

  /** The right to send: with the master when nothing is pending, and otherwise in the one packet
      that is pending, which the master is waiting for. */
  ghost predicate OneRight(cfg: Config, n: Net) {
    && |n.pending| <= 1
    && (n.pending != [] ==> n.master.fault == NoFault && Busy(n.master) && EntryFits(cfg, n, n.pending[0]))
  }

  ghost predicate NetInv(cfg: Config, n: Net) {
    && Inv(cfg, n.master) && (n.master.fault != NoFault || Quiet(n.master))
    && QueuesHoldData(n.clients)
    && OneRight(cfg, n)
  }

  // ---------------------------------------------------------------- the master's transmissions

  lemma NewTxIsAtMostOne(cfg: Config, m: Master, m': Master)
    requires Emits(cfg, m, m')
    ensures NewTx(m, m') == [] || (|NewTx(m, m')| == 1 && Busy(m') && TxMatches(cfg, NewTx(m, m')[0], m'))
    ensures m'.sent == m.sent ==> NewTx(m, m') == []
  {
  }

  lemma EmitSingle(own: UniqueId, cs: Clients, txs: seq<Tx>)
    requires |txs| <= 1
    ensures Emit(own, cs, txs) == if txs == [] then Emission(cs, []) else EmitOne(own, cs, txs[0])
  {
    if txs != [] {
      assert txs[1..] == [];
      assert EmitOne(own, cs, txs[0]).entries + [] == EmitOne(own, cs, txs[0]).entries;
    }
  }

  lemma EmittedFits(cfg: Config, own: UniqueId, cs: Clients, tx: Tx, m: Master)
    requires QueuesHoldData(cs) && Busy(m) && TxMatches(cfg, tx, m)
    ensures var e := EmitOne(own, cs, tx);
            && QueuesHoldData(e.clients) && |e.entries| <= 1
            && (e.entries != [] ==> EntryFits(cfg, Net(m, e.clients, e.entries), e.entries[0]))
  {
  }

  /** With nothing pending, a reaction of the master leaves at most one packet, and that one fits. */
  lemma MasterActsAlone(cfg: Config, own: UniqueId, n: Net, m': Master)
    requires QueuesHoldData(n.clients) && n.pending == []
    requires Inv(cfg, m') && (m'.fault != NoFault || Quiet(m')) && Emits(cfg, n.master, m')
    ensures NetInv(cfg, MasterActs(own, n, m'))
  {
    var txs := NewTx(n.master, m');
    NewTxIsAtMostOne(cfg, n.master, m');
    EmitSingle(own, n.clients, txs);
    if txs != [] {
      var e := EmitOne(own, n.clients, txs[0]);
      EmittedFits(cfg, own, n.clients, txs[0], m');
      assert MasterActs(own, n, m') == Net(m', e.clients, e.entries) by { assert [] + e.entries == e.entries; }
    }
  }

  // ---------------------------------------------------------------- hearing

  /** A node answers exactly a grant to its address that it hears, and a discovery that it hears without one. */
  lemma WhoReplies(cs: Clients, hearers: set<UniqueId>, m: Msg, id: UniqueId)
    ensures Replies(cs, hearers, m, id) <==> id in cs && id in hearers && Answers(cs[id], m)
  {
  }

  lemma HearingKeepsData(cs: Clients, hearers: set<UniqueId>, m: Msg)
    requires QueuesHoldData(cs)
    ensures QueuesHoldData(HearAll(cs, hearers, m))
  {
  }

  lemma AtMostOneReply(n: Net, hearers: set<UniqueId>, m: Msg, order: seq<UniqueId>)
    requires RepliersInOrder(n.clients, hearers, m, order)
    ensures |order| <= 1 <==> !Contention(n.clients, hearers, m)
    ensures order != [] ==> m.GrantToken? || m.AddressDiscovery?
  {
    forall x ensures Replies(n.clients, hearers, m, x) <==> x in n.clients && x in hearers && Answers(n.clients[x], m) {
      WhoReplies(n.clients, hearers, m, x);
    }
    if |order| > 1 {
      assert Replies(n.clients, hearers, m, order[0]) && Replies(n.clients, hearers, m, order[1]);
    }
  }

  /** The echo of a grant makes the master wait for the client, and send nothing. */
  lemma GrantEchoIsSilent(cfg: Config, m: Master, env: Env, envs: seq<Env>)
    requires Inv(cfg, m) && Quiet(m) && Busy(m) && m.fsm.state == SendingToken && |envs| == 3
    ensures var m' := React(cfg, m, Packet(RxGrantToken), env, envs);
            && m' == m.(fsm := m'.fsm) && m'.fsm.state == WaitClientPacketDone && Quiet(m') && Busy(m') && Inv(cfg, m')
            && m'.fsm.timer == Some(envs[0].now + cfg.clientTimeout)
  {
    var s := Stimulate(m, Packet(RxGrantToken), env);
    assert s.fsm.events == [RxGrantToken];
    var d := Dispatch(cfg, s, envs[0]);
    assert d == m.(fsm := Fsm(WaitClientPacketDone, Some(envs[0].now + cfg.clientTimeout), m.fsm.action, []));
    assert Drain(cfg, s, envs) == Drain(cfg, d, envs[1..]) == d;
  }

  // ---------------------------------------------------------------- what the master listens to

  /** The messages that each state of the master waits for. */
  predicate Concerns(st: FsmState, msg: Msg) {
    match st
    case IdleState => false
    case StartMaster => msg.MasterStarted? || msg.MasterEnded?
    case SendingToken => msg.GrantToken?
    case WaitClientPacketDone => msg.ReturnToken? || msg.SendPacket? || msg.MacUpdate?
    case QueryAddressState => msg.AddressRequest?
    case WaitAddressReply => false
  }

  /** An action is about to be carried out, or none is. */
  predicate BetweenActions(s: Master) { s.fault == NoFault && (Pending(s) || (Resting(s) && s.fsm.events == [])) }

  /** The reaction has led back to idle, or to another transmission. */
  predicate MovedOn(sent: nat, r: Master) { r.fsm.state == IdleState || |r.sent| > sent }

  lemma PendingTurn(cfg: Config, s: Master, env: Env, e: Env)
    requires Inv(cfg, s) && s.fault == NoFault && Pending(s) && Steady([e], env)
    ensures var s1 := Dispatch(cfg, s, e);
            && Inv(cfg, s1) && DispatchesLeft(cfg, s1, env) < DispatchesLeft(cfg, s, env)
            && (|| (BetweenActions(s1) && s1.sent == s.sent)
                || (s1.fsm.events == [] && |s1.sent| > |s.sent|))
  {
    TurnKeeps(cfg, s, env, e);
    DecisionFits(cfg, s, e);
    if Decision(cfg, s, e).Finish? { FinishCloses(cfg, s, RxTokenNoPacket, e); } else { QuietDispatch(cfg, s, e); }
  }

  /** A pending action is carried out, with a packet, or the own token is declined and nothing else is ready. */
  lemma {:induction false} PendingMoves(cfg: Config, s: Master, env: Env, envs: seq<Env>)
    requires Inv(cfg, s) && BetweenActions(s) && Steady(envs, env) && DispatchesLeft(cfg, s, env) <= |envs|
    ensures MovedOn(|s.sent|, Drain(cfg, s, envs))
    decreases |envs|
  {
    if s.fsm.events != [] {
      var s1 := Dispatch(cfg, s, envs[0]);
      assert [envs[0]][0] == envs[0];
      PendingTurn(cfg, s, env, envs[0]);
      if BetweenActions(s1) && s1.sent == s.sent { PendingMoves(cfg, s1, env, envs[1..]); }
    }
  }

  lemma FinishTurn(cfg: Config, s: Master, rv: ReturnValue, env: Env, e: Env)
    requires Inv(cfg, s) && s.fault == NoFault && |s.fsm.events| == 1 && Steady([e], env)
    requires Decision(cfg, s, e) == Finish(rv) && !rv.Timeout?
    ensures var s1 := Dispatch(cfg, s, e);
            Inv(cfg, s1) && BetweenActions(s1) && s1.sent == s.sent && DispatchesLeft(cfg, s1, env) <= 2
  {
    DecisionFits(cfg, s, e);
    TurnKeeps(cfg, s, env, e);
    FinishCloses(cfg, s, rv, e);
  }

  lemma FinishMoves(cfg: Config, s: Master, rv: ReturnValue, env: Env, envs: seq<Env>)
    requires Inv(cfg, s) && s.fault == NoFault && |s.fsm.events| == 1
    requires |envs| == 3 && Steady(envs, env) && Decision(cfg, s, envs[0]) == Finish(rv) && !rv.Timeout?
    ensures MovedOn(|s.sent|, Drain(cfg, s, envs))
  {
    assert [envs[0]][0] == envs[0];
    FinishTurn(cfg, s, rv, env, envs[0]);
    PendingMoves(cfg, Dispatch(cfg, s, envs[0]), env, envs[1..]);
  }

  lemma AnswerMoves(cfg: Config, s: Master, id: UniqueId, envs: seq<Env>)
    requires Phase(s) && s.fault == NoFault && s.fsm.events != [] && envs != []
             && Decision(cfg, s, envs[0]) == Answer(id)
    ensures Drain(cfg, s, envs).fsm.state == WaitAddressReply && s.fsm.state == QueryAddressState
  {
    DecisionFits(cfg, s, envs[0]);
    AnswerShape(cfg, s, id, envs[0]);
    RequestReplies(s, id);
    var s1 := Dispatch(cfg, s, envs[0]);
    assert Drain(cfg, s, envs) == Drain(cfg, s1, envs[1..]) == s1;
  }

  lemma ConcernMoves(cfg: Config, m: Master, msg: Msg, envs: Envs)
    requires Inv(cfg, m) && Quiet(m) && |envs.turns| == 3 && Steady(envs.turns, envs.first)
             && Concerns(m.fsm.state, msg)
    ensures MasterHearsMsg(cfg, m, msg, envs) != m
  {
    var k := Packet(EventOf(msg).value);
    var s := Stimulate(m, k, envs.first);
    StimulusKeeps(cfg, m, k, envs.first);
    assert m.fsm.events + [k.event] == [k.event];
    var d := Decision(cfg, s, envs.turns[0]);
    if d.Finish? {
      FinishMoves(cfg, s, d.rv, envs.first, envs.turns);
    } else if d.Answer? {
      AnswerMoves(cfg, s, d.id, envs.turns);
    } else {
      GrantEchoIsSilent(cfg, m, envs.first, envs.turns);
    }
  }

  lemma OtherIsIgnored(cfg: Config, m: Master, e: Event, envs: Envs)
    requires Inv(cfg, m) && Quiet(m) && |envs.turns| == 3
    requires var s := m.(fsm := m.fsm.(events := [e])); Decision(cfg, s, envs.turns[0]) == Ignore
    ensures React(cfg, m, Packet(e), envs.first, envs.turns) == m
  {
    var s := m.(fsm := m.fsm.(events := [e]));
    assert m.fsm.events + [e] == [e] && [e][1..] == [];
    assert Dispatch(cfg, s, envs.turns[0]) == m;
    assert Drain(cfg, s, envs.turns) == Drain(cfg, m, envs.turns[1..]) == m;
  }

  /** A quiet master reacts to a message if and only if its state waits for that message; anything else leaves
      it exactly as it was. */
  lemma HearsExactly(cfg: Config, m: Master, msg: Msg, envs: Envs)
    requires Inv(cfg, m) && Quiet(m) && |envs.turns| == 3 && Steady(envs.turns, envs.first)
    ensures MasterHearsMsg(cfg, m, msg, envs) != m <==> Concerns(m.fsm.state, msg)
  {
    if Concerns(m.fsm.state, msg) {
      ConcernMoves(cfg, m, msg, envs);
    } else if EventOf(msg).Some? {
      OtherIsIgnored(cfg, m, EventOf(msg).value, envs);
    }
  }

  /** The own client's packet: the front of its queue, and nobody else's queue is touched. */
  lemma OwnSendsFront(own: UniqueId, n: Net, m': Master, id: UniqueId)
    requires own in n.clients && n.clients[own].queue != [] && m'.sent == n.master.sent + [TxOwnPacket]
             && id in n.clients
    ensures var n', q := MasterActs(own, n, m'), n.clients[own].queue;
            && n'.pending == n.pending + [Entry(FromMaster, false, q[0])] && n'.clients.Keys == n.clients.Keys
            && n'.clients[id] == if id == own then n.clients[own].(queue := q[1..]) else n.clients[id]
  {
    assert NewTx(n.master, m') == [TxOwnPacket];
    EmitSingle(own, n.clients, NewTx(n.master, m'));
  }

  // ---------------------------------------------------------------- deliveries

  lemma MasterHearsKeeps(cfg: Config, m: Master, msg: Msg, envs: Envs)
    requires Inv(cfg, m) && (m.fault != NoFault || Quiet(m)) && |envs.turns| == 3 && Steady(envs.turns, envs.first)
    ensures var m' := MasterHearsMsg(cfg, m, msg, envs);
            Inv(cfg, m') && (m'.fault != NoFault || Quiet(m')) && Emits(cfg, m, m')
  {
    if Quiet(m) && EventOf(msg).Some? {
      BoundedReaction(cfg, m, Packet(EventOf(msg).value), envs.first, envs.turns);
    }
  }

  /** The single packet on the wire, and what is left when it is delivered. */
  lemma TheOnePacket(cfg: Config, own: UniqueId, n: Net, st: Bus.Step)
    requires NetInv(cfg, n) && st.Deliver? && Possible(own, n, st)
    ensures NextOnWire(n.pending) == 0 && |n.pending| == 1
    ensures n.pending[..0] + n.pending[1..] == []
  {
  }

  /** A delivery with its parts named: nobody answered, and the wire is silent again. */
  lemma UnansweredShape(cfg: Config, own: UniqueId, n: Net, st: Bus.Step)
    requires NetInv(cfg, n) && st.Deliver? && Possible(own, n, st) && st.order == []
    ensures |n.pending| == 1 && NextOnWire(n.pending) == 0
    ensures var n1 := Net(n.master, HearAll(n.clients, st.hearers, n.pending[0].msg), []);
            var m' := MasterHearsMsg(cfg, n.master, n.pending[0].msg, st.envs);
            DeliverTo(cfg, own, n, st) == if st.masterHears then MasterActs(own, n1, m') else n1
  {
    TheOnePacket(cfg, own, n, st);
    assert n.pending[..0] + n.pending[1..] + ReplyEntries(n.clients, st.hearers, n.pending[0].msg, st.order) == [];
  }

  /** Delivery of a packet that nobody answers. */
  lemma DeliverUnanswered(cfg: Config, own: UniqueId, n: Net, st: Bus.Step)
    requires NetInv(cfg, n) && st.Deliver? && Possible(own, n, st) && st.order == []
    ensures NetInv(cfg, DeliverTo(cfg, own, n, st))
  {
    UnansweredShape(cfg, own, n, st);
    var msg := n.pending[0].msg;
    var n1 := Net(n.master, HearAll(n.clients, st.hearers, msg), []);
    HearingKeepsData(n.clients, st.hearers, msg);
    if st.masterHears {
      MasterHearsKeeps(cfg, n.master, msg, st.envs);
      MasterActsAlone(cfg, own, n1, MasterHearsMsg(cfg, n.master, msg, st.envs));
    }
  }

  /** A silent master adds nothing to the wire. */
  lemma SilentMaster(own: UniqueId, n: Net, m': Master)
    requires m'.sent == n.master.sent
    ensures MasterActs(own, n, m') == n.(master := m')
  {
    assert NewTx(n.master, m') == [];
    assert n.pending + [] == n.pending;
  }

  lemma ReplyFits(cfg: Config, n: Net, hearers: set<UniqueId>, msg: Msg, id: UniqueId, m': Master)
    requires QueuesHoldData(n.clients) && Replies(n.clients, hearers, msg, id)
    requires EntryFits(cfg, n, Entry(FromMaster, true, msg))
    requires m'.current == n.master.current
    requires msg.GrantToken? ==> m'.fsm.state == SendingToken || m'.fsm.state == WaitClientPacketDone
    requires msg.AddressDiscovery? ==> m'.fsm.state == n.master.fsm.state
    ensures ClientEntryFits(m', HearAll(n.clients, hearers, msg), id, Hear(id, n.clients[id], msg).reply.value)
  {
    WhoReplies(n.clients, hearers, msg, id);
  }

  /** Delivery of a grant or a discovery to the one client that answers it: the right to send moves
      from the packet to that client. */
  lemma DeliverAnswered(cfg: Config, own: UniqueId, n: Net, st: Bus.Step)
    requires NetInv(cfg, n) && st.Deliver? && Possible(own, n, st) && Orderly(n, st) && st.order != []
    ensures |n.pending| == 1 && NextOnWire(n.pending) == 0
    ensures NetInv(cfg, DeliverTo(cfg, own, n, st))
    ensures var n', msg := DeliverTo(cfg, own, n, st), n.pending[0].msg;
            && |st.order| == 1 && n'.pending == ReplyEntries(n.clients, st.hearers, msg, st.order)
            && n'.clients == HearAll(n.clients, st.hearers, msg) && n'.master.dyn == n.master.dyn
  {
    TheOnePacket(cfg, own, n, st);
    var msg := n.pending[0].msg;
    AtMostOneReply(n, st.hearers, msg, st.order);
    HearingKeepsData(n.clients, st.hearers, msg);
    var replies := ReplyEntries(n.clients, st.hearers, msg, st.order);
    assert n.pending[..0] + n.pending[1..] + replies == replies;
    var n1 := Net(n.master, HearAll(n.clients, st.hearers, msg), replies);
    var m' := if st.masterHears then MasterHearsMsg(cfg, n.master, msg, st.envs) else n.master;
    if st.masterHears && msg.GrantToken? {
      GrantEchoIsSilent(cfg, n.master, st.envs.first, st.envs.turns);
    }
    SilentMaster(own, n1, m');
    assert n.pending[0].sender == FromMaster;
    ReplyFits(cfg, n, st.hearers, msg, st.order[0], m');
  }

  /** A delivery leaves more than one packet under way if and only if two hearers share the granted
      address, or two hearers of a discovery have no address. */
  lemma DeliveryCollidesExactly(cfg: Config, own: UniqueId, n: Net, st: Bus.Step)
    requires NetInv(cfg, n) && st.Deliver? && Possible(own, n, st)
    ensures NextOnWire(n.pending) == 0 && |n.pending| == 1
    ensures |DeliverTo(cfg, own, n, st).pending| > 1 <==> Contention(n.clients, st.hearers, n.pending[0].msg)
  {
    TheOnePacket(cfg, own, n, st);
    AtMostOneReply(n, st.hearers, n.pending[0].msg, st.order);
    if !Contention(n.clients, st.hearers, n.pending[0].msg) {
      NetStepKeeps(cfg, own, n, st);
    }
  }

  // ---------------------------------------------------------------- the other steps

  /** While a packet is coming in, the timer is armed again and nothing else happens. */
  lemma RearmIsSilent(cfg: Config, m: Master, env: Env, envs: seq<Env>)
    requires Inv(cfg, m) && Quiet(m) && m.fsm.timer.Some? && Rearms(m, env) && |envs| == 3 && Steady(envs, env)
    ensures React(cfg, m, FsmTimer, env, envs) == SetTimer(m, Some(env.now + cfg.clientTimeout))
  {
    var s := Stimulate(m, FsmTimer, env);
    assert m.fsm.events + [TimerTimeout] == [TimerTimeout];
    var d := Dispatch(cfg, s, envs[0]);
    assert [TimerTimeout][1..] == [];
    assert d == SetTimer(m, Some(env.now + cfg.clientTimeout));
    assert Drain(cfg, s, envs) == Drain(cfg, d, envs[1..]) == d;
  }

  lemma RearmKeeps(cfg: Config, own: UniqueId, n: Net, t: Time)
    requires NetInv(cfg, n) && Quiet(n.master) && n.master.fsm.timer.Some?
    ensures MasterActs(own, n, SetTimer(n.master, Some(t))) == n.(master := SetTimer(n.master, Some(t)))
    ensures NetInv(cfg, MasterActs(own, n, SetTimer(n.master, Some(t))))
  {
    SilentMaster(own, n, SetTimer(n.master, Some(t)));
  }

  lemma TimerKeeps(cfg: Config, own: UniqueId, n: Net, st: Bus.Step)
    requires NetInv(cfg, n) && st.Timer? && Possible(own, n, st) && Orderly(n, st)
    ensures NetInv(cfg, MasterActs(own, n, React(cfg, n.master, st.k, st.envs.first, st.envs.turns)))
  {
    BoundedReaction(cfg, n.master, st.k, st.envs.first, st.envs.turns);
    var m' := React(cfg, n.master, st.k, st.envs.first, st.envs.turns);
    if st.k.DiscoveryTimer? {
      SilentMaster(own, n, m');
    } else if n.pending == [] {
      MasterActsAlone(cfg, own, n, m');
    } else if st.k.FsmTimer? {
      RearmIsSilent(cfg, n.master, st.envs.first, st.envs.turns);
      RearmKeeps(cfg, own, n, st.envs.first.now + cfg.clientTimeout);
    }
  }

  lemma TransmitKeeps(cfg: Config, n: Net, i: nat)
    requires NetInv(cfg, n) && CanTransmit(n.pending, i)
    ensures NetInv(cfg, n.(pending := n.pending[..i] + n.pending[i + 1..] + [n.pending[i].(onWire := true)]))
  {
    assert n.pending[..i] + n.pending[i + 1..] + [n.pending[i].(onWire := true)] == [n.pending[0].(onWire := true)];
  }

  lemma WithoutOne(p: seq<Entry>, id: UniqueId)
    requires |p| <= 1
    ensures Without(p, id) == p || Without(p, id) == []
  {
    if p != [] { assert p[1..] == [] && [p[0]] == p; }
  }

  lemma ClientsChange(cfg: Config, n: Net, cs: Clients, p: seq<Entry>)
    requires NetInv(cfg, n) && QueuesHoldData(cs)
    requires forall id :: id in cs ==> id in n.clients && cs[id].addr == n.clients[id].addr
    requires p == n.pending || p == []
    ensures NetInv(cfg, n.(clients := cs, pending := p))
  {
  }

  lemma PowerOnKeeps(cfg: Config, n: Net, id: UniqueId, c: Client)
    requires NetInv(cfg, n) && NewToBus(n, id) && c.queue == []
    ensures NetInv(cfg, n.(clients := n.clients[id := c]))
  {
  }

  /** The constructed master has sent its start-up message, and waits for its echo. */
  lemma BootedWaits(cfg: Config, uids: int -> UniqueId, envs: Envs)
    requires cfg.Valid() && |envs.turns| == 3 && Steady(envs.turns, envs.first)
    ensures var m := Booted(cfg, uids, envs);
            && Inv(cfg, m) && Quiet(m) && Busy(m) && m.sent == [TxStart] && m.fsm.state == StartMaster
            && m.dyn == Posted(cfg, uids).dyn
  {
    var s := Boot(cfg, uids, envs.first);
    BootInv(cfg, uids, envs.first);
    QuietDispatch(cfg, s, envs.turns[0]);
    var d := Dispatch(cfg, s, envs.turns[0]);
    assert Drain(cfg, s, envs.turns) == Drain(cfg, d, envs.turns[1..]) == d;
    assert d.sent == [] + [TxStart] == [TxStart];
  }

  lemma RestartKeeps(cfg: Config, own: UniqueId, n: Net, st: Bus.Step)
    requires NetInv(cfg, n) && st.Restart? && Possible(own, n, st) && n.pending == []
    ensures var n' := After(cfg, own, n, st);
            && NetInv(cfg, n') && n'.clients == n.clients && n'.master == Booted(cfg, st.uids, st.envs)
            && n'.pending == [Entry(FromMaster, false, MasterStarted)]
  {
    BootedWaits(cfg, st.uids, st.envs);
    EmitSingle(own, n.clients, [TxStart]);
    assert [] + [Entry(FromMaster, false, MasterStarted)] == [Entry(FromMaster, false, MasterStarted)];
  }

  /** A restart leaves more than one packet under way if and only if one was under way before. */
  lemma RestartCollidesExactly(cfg: Config, own: UniqueId, n: Net, st: Bus.Step)
    requires NetInv(cfg, n) && st.Restart? && Possible(own, n, st)
    ensures |After(cfg, own, n, st).pending| > 1 <==> n.pending != []
  {
    BootedWaits(cfg, st.uids, st.envs);
    EmitSingle(own, n.clients, [TxStart]);
  }

  /** Every step of the whole bus keeps the right to send in one place. */
  lemma NetStepKeeps(cfg: Config, own: UniqueId, n: Net, st: Bus.Step)
    requires NetInv(cfg, n) && Possible(own, n, st) && Orderly(n, st)
    ensures NetInv(cfg, After(cfg, own, n, st))
  {
    match st
    case Transmit(i) => TransmitKeeps(cfg, n, i);
    case Deliver(_, _, _, _) =>
      if st.order == [] { DeliverUnanswered(cfg, own, n, st); } else { DeliverAnswered(cfg, own, n, st); }
    case Timer(_, _) => TimerKeeps(cfg, own, n, st);
    case HostSend(id, msg) => ClientsChange(cfg, n, After(cfg, own, n, st).clients, n.pending);
    case PowerOff(id) =>
      WithoutOne(n.pending, id);
      ClientsChange(cfg, n, n.clients - {id}, Without(n.pending, id));
    case PowerOn(id, addr) => PowerOnKeeps(cfg, n, id, Client(addr, addr == NULL_ADDR, []));
    case Restart(_, _) => RestartKeeps(cfg, own, n, st);
  }

  // ---------------------------------------------------------------- runs

  /** A run of the whole bus, from a master that was just started. */
  ghost predicate IsNetRun(cfg: Config, own: UniqueId, trace: seq<Net>, steps: seq<Bus.Step>) {
    && cfg.Valid() && |trace| == |steps| + 1
    && (forall i :: 0 <= i < |steps| ==>
          Possible(own, trace[i], steps[i]) && trace[i + 1] == After(cfg, own, trace[i], steps[i]))
  }

  ghost predicate Begins(cfg: Config, n: Net) {
    cfg.Valid() && exists uids: int -> UniqueId, envs: Envs ::
      && |envs.turns| == 3 && Steady(envs.turns, envs.first) && QueuesHoldData(n.clients)
      && n.master == Booted(cfg, uids, envs) && n.pending == [Entry(FromMaster, false, MasterStarted)]
  }

  lemma BeginsInv(cfg: Config, n: Net)
    requires cfg.Valid() && Begins(cfg, n)
    ensures NetInv(cfg, n)
  {
    var uids: int -> UniqueId, envs: Envs :|
      && |envs.turns| == 3 && Steady(envs.turns, envs.first) && QueuesHoldData(n.clients)
      && n.master == Booted(cfg, uids, envs) && n.pending == [Entry(FromMaster, false, MasterStarted)];
    BootedWaits(cfg, uids, envs);
  }

  lemma {:induction false} NetRunKeeps(cfg: Config, own: UniqueId, trace: seq<Net>, steps: seq<Bus.Step>, i: nat)
    requires IsNetRun(cfg, own, trace, steps) && Begins(cfg, trace[0]) && i < |trace|
    requires forall k :: 0 <= k < |steps| ==> Orderly(trace[k], steps[k])
    ensures NetInv(cfg, trace[i])
  {
    if i == 0 {
      BeginsInv(cfg, trace[0]);
    } else {
      NetRunKeeps(cfg, own, trace, steps, i - 1);
      NetStepKeeps(cfg, own, trace[i - 1], steps[i - 1]);
    }
  }

  /** Where the right to send is. */
  datatype Right =
    | WithMaster
    | InGrant(a: Address)      // a grant to `a` is under way
    | InMasterPacket           // some other packet of the master is under way
    | WithClient(id: UniqueId) // a client holds its one answer
    | InAnswer(id: UniqueId)   // that answer is on the wire

  ghost predicate HasRight(n: Net, r: Right) {
    match r
    case WithMaster => n.pending == []
    case InGrant(a) => exists e :: e in n.pending && e.sender == FromMaster && e.msg == GrantToken(a)
    case InMasterPacket => exists e :: e in n.pending && e.sender == FromMaster && !e.msg.GrantToken?
    case WithClient(id) => exists e :: e in n.pending && e.sender == FromClient(id) && !e.onWire
    case InAnswer(id) => exists e :: e in n.pending && e.sender == FromClient(id) && e.onWire
  }

  function RightOf(n: Net): Right {
    if n.pending == [] then WithMaster else
    var e := n.pending[0];
    match e.sender
    case FromMaster => if e.msg.GrantToken? then InGrant(e.msg.receiver) else InMasterPacket
    case FromClient(id) => if e.onWire then InAnswer(id) else WithClient(id)
  }

  lemma RightIsUnique(n: Net, r: Right)
    requires |n.pending| <= 1
    ensures HasRight(n, r) <==> r == RightOf(n)
  {
    if n.pending != [] {
      var e := n.pending[0];
      assert n.pending == [e];
      assert e in n.pending && forall x :: x in n.pending ==> x == e;
    }
  }

  /** Bus arbitration: over every orderly run the right to send is in exactly one place, so two
      packets are never under way together; an answer under way is that of the client whose address
      the master granted, or an address request. */
  lemma Arbitration(cfg: Config, own: UniqueId, trace: seq<Net>, steps: seq<Bus.Step>, i: nat)
    requires IsNetRun(cfg, own, trace, steps) && Begins(cfg, trace[0]) && i < |trace|
    requires forall k :: 0 <= k < |steps| ==> Orderly(trace[k], steps[k])
    ensures var n := trace[i];
            && |n.pending| <= 1
            && (forall r :: HasRight(n, r) <==> r == RightOf(n))
            && match RightOf(n)
               case InGrant(a) => n.master.current == SendToken(a) && a != cfg.own
               case WithClient(id) => Granted(n, id)
               case InAnswer(id) => Granted(n, id)
               case _ => true
  {
    NetRunKeeps(cfg, own, trace, steps, i);
    var n := trace[i];
    RightIsGranted(cfg, n);
    forall r ensures HasRight(n, r) <==> r == RightOf(n) { RightIsUnique(n, r); }
  }

  /** The master is asking for the client's address, or has granted its token to that address. */
  ghost predicate Granted(n: Net, id: UniqueId) {
    id in n.clients ==> n.master.current == QueryAddress || n.master.current == SendToken(n.clients[id].addr)
  }

  lemma RightIsGranted(cfg: Config, n: Net)
    requires OneRight(cfg, n)
    ensures match RightOf(n)
            case InGrant(a) => n.master.current == SendToken(a) && a != cfg.own
            case WithClient(id) => Granted(n, id)
            case InAnswer(id) => Granted(n, id)
            case _ => true
  {
  }
}
