/** What the bus achieves when nothing is lost: a token's round, and the negotiation of an address. */
module BusRounds {
  import opened Prelude
  import opened Bytes
  import opened Protocol
  import opened Scheduler
  import opened MasterModel
  import opened MasterInvariant
  import opened MasterSteps
  import opened MasterRuns
  import opened MasterTheorems
  import opened MasterLines
  import opened MasterHolders
  import opened Bus
  import opened BusArbitration

  // ---------------------------------------------------------------- the master's side of a round

  /** The result that the answer to a grant stands for. */
  function AnswerResult(msg: Msg): ReturnValue {
    if msg.ReturnToken? then RxTokenNoPacket else ClientPacketStarted
  }

  lemma AnswerDecides(cfg: Config, m: Master, msg: Msg, env: Env, e: Env)
    requires Quiet(m) && m.fsm.state == WaitClientPacketDone && (msg.ReturnToken? || IsData(msg))
    ensures EventOf(msg).Some?
    ensures var s := Stimulate(m, Packet(EventOf(msg).value), env);
            s.fsm.events == [EventOf(msg).value] && s.dyn == m.dyn && s.current == m.current
            && Decision(cfg, s, e) == Finish(AnswerResult(msg))
  {
    assert m.fsm.events + [EventOf(msg).value] == [EventOf(msg).value];
  }

  /** A master that hears the answer to its grant records a good outcome for the granted address. */
  lemma AnswerSettles(cfg: Config, m: Master, msg: Msg, env: Env, envs: seq<Env>, a: Address)
    requires Inv(cfg, m) && Quiet(m) && m.fsm.state == WaitClientPacketDone && m.current == SendToken(a)
    requires (msg.ReturnToken? || IsData(msg)) && a != cfg.own && envs != []
    ensures EventOf(msg).Some? && HasLine(m.dyn.table, a)
    ensures var t' := React(cfg, m, Packet(EventOf(msg).value), env, envs).dyn.table;
            HasLine(t', a) && LineOf(t', a) == LineOf(m.dyn.table, a).(bad := 0, state := OutcomeOf(AnswerResult(msg)))
  {
    var s := Stimulate(m, Packet(EventOf(msg).value), env);
    assert Outstanding(m)[SendToken(a)] > 0;
    AnswerDecides(cfg, m, msg, env, envs[0]);
    StimulusKeeps(cfg, m, Packet(EventOf(msg).value), env);
    AnswerRecorded(cfg, s, AnswerResult(msg), envs[0], a);
    DispatchKeeps(cfg, s, envs[0]);
    DrainLeavesLine(cfg, Dispatch(cfg, s, envs[0]), envs[1..], a);
  }

  lemma AnswerRecorded(cfg: Config, s: Master, rv: ReturnValue, env: Env, a: Address)
    requires Inv(cfg, s) && s.fault == NoFault && s.fsm.events != [] && s.current == SendToken(a)
    requires Decision(cfg, s, env) == Finish(rv) && (rv.RxTokenNoPacket? || rv.ClientPacketStarted?)
    requires HasLine(s.dyn.table, a)
    ensures var t' := Dispatch(cfg, s, env).dyn.table;
            HasLine(t', a) && LineOf(t', a) == LineOf(s.dyn.table, a).(bad := 0, state := OutcomeOf(rv))
  {
    NextDyn(cfg, s, DispatchStep(env));
    LineAfterStep(cfg, s, DispatchStep(env), a);
    GoodOutcomeKeepsLine(LineOf(s.dyn.table, a), OutcomeOf(rv));
  }

  // ---------------------------------------------------------------- a token's round

  /** A packet of the master is on the wire. */
  predicate OnWire(n: Net, msg: Msg) { n.pending == [Entry(FromMaster, true, msg)] && Quiet(n.master) }

  lemma TransmitIs(cfg: Config, own: UniqueId, n: Net, st: Bus.Step)
    requires cfg.Valid() && |n.pending| == 1 && st.Transmit? && Possible(own, n, st)
    ensures After(cfg, own, n, st) == n.(pending := [n.pending[0].(onWire := true)])
    ensures NetInv(cfg, n) ==> NetInv(cfg, After(cfg, own, n, st))
  {
    assert n.pending[..0] + n.pending[1..] + [n.pending[0].(onWire := true)] == [n.pending[0].(onWire := true)];
    if NetInv(cfg, n) { TransmitKeeps(cfg, n, 0); }
  }

  /** What a granted client sends: the front of its queue, or the token. */
  function AnswerOf(c: Client): Msg { if c.queue == [] then ReturnToken(c.addr) else c.queue[0] }

  function ServedClient(c: Client): Client { c.(queue := if c.queue == [] then [] else c.queue[1..]) }

  /** The client answers a grant that both it and the master hear. */
  lemma GrantHeard(cfg: Config, own: UniqueId, n: Net, st: Bus.Step, id: UniqueId, a: Address)
    requires NetInv(cfg, n) && OnWire(n, GrantToken(a)) && id in n.clients && n.clients[id].addr == a
    requires st.Deliver? && Possible(own, n, st) && Orderly(n, st) && st.masterHears && id in st.hearers
    ensures var n' := After(cfg, own, n, st);
            && n'.pending == [Entry(FromClient(id), false, AnswerOf(n.clients[id]))] && NetInv(cfg, n')
            && id in n'.clients && n'.clients[id] == ServedClient(n.clients[id])
            && Quiet(n'.master) && n'.master.fsm.state == WaitClientPacketDone
            && n'.master.current == SendToken(a) && n'.master.dyn == n.master.dyn
  {
    assert Replies(n.clients, st.hearers, GrantToken(a), id);
    DeliverAnswered(cfg, own, n, st);
    assert st.order == [id];
    GrantEchoIsSilent(cfg, n.master, st.envs.first, st.envs.turns);
    var n1 := Net(n.master, HearAll(n.clients, st.hearers, GrantToken(a)),
                  ReplyEntries(n.clients, st.hearers, GrantToken(a), st.order));
    assert n.pending[..0] + n.pending[1..] + n1.pending == n1.pending;
    SilentMaster(own, n1, MasterHearsMsg(cfg, n.master, GrantToken(a), st.envs));
  }

  lemma NobodyAnswers(cs: Clients, hearers: set<UniqueId>, msg: Msg, order: seq<UniqueId>)
    requires RepliersInOrder(cs, hearers, msg, order) && !msg.GrantToken? && !msg.AddressDiscovery?
    ensures order == []
  {
    if order != [] { WhoReplies(cs, hearers, msg, order[0]); }
  }

  /** A reaction of the master takes packets from no queue but the own client's. */
  lemma OthersKeepQueues(cfg: Config, own: UniqueId, n: Net, m': Master, id: UniqueId)
    requires Emits(cfg, n.master, m') && id in n.clients && id != own
    ensures var n' := MasterActs(own, n, m'); id in n'.clients && n'.clients[id] == n.clients[id] && n'.master == m'
  {
    NewTxIsAtMostOne(cfg, n.master, m');
    EmitSingle(own, n.clients, NewTx(n.master, m'));
  }

  /** The answer reaches the master. */
  lemma AnswerHeard(cfg: Config, own: UniqueId, n: Net, st: Bus.Step, id: UniqueId, msg: Msg, a: Address)
    requires NetInv(cfg, n) && n.pending == [Entry(FromClient(id), true, msg)] && (msg.ReturnToken? || IsData(msg))
    requires id in n.clients && id != own && a != cfg.own
    requires Quiet(n.master) && n.master.fsm.state == WaitClientPacketDone && n.master.current == SendToken(a)
    requires st.Deliver? && Possible(own, n, st) && st.masterHears
    ensures HasLine(n.master.dyn.table, a)
    ensures var n' := After(cfg, own, n, st);
            && id in n'.clients && n'.clients[id] == n.clients[id]
            && HasLine(n'.master.dyn.table, a)
            && LineOf(n'.master.dyn.table, a)
               == LineOf(n.master.dyn.table, a).(bad := 0, state := OutcomeOf(AnswerResult(msg)))
  {
    NobodyAnswers(n.clients, st.hearers, msg, st.order);
    UnansweredShape(cfg, own, n, st);
    var n1 := Net(n.master, HearAll(n.clients, st.hearers, msg), []);
    AnswerSettles(cfg, n.master, msg, st.envs.first, st.envs.turns, a);
    MasterHearsKeeps(cfg, n.master, msg, st.envs);
    OthersKeepQueues(cfg, own, n1, MasterHearsMsg(cfg, n.master, msg, st.envs), id);
  }

  /** The one packet under way is delivered, is sent, and is delivered to the master as well. */
  ghost predicate HeardByMaster(cfg: Config, own: UniqueId, trace: seq<Net>, steps: seq<Bus.Step>, id: UniqueId) {
    && IsNetRun(cfg, own, trace, steps) && |steps| >= 3 && NetInv(cfg, trace[0])
    && steps[0].Deliver? && steps[1].Transmit? && steps[2].Deliver?
    && Orderly(trace[0], steps[0]) && steps[0].masterHears && id in steps[0].hearers && steps[2].masterHears
  }

  /** A token's round: when a granted client and the master hear what they should, the client sends the
      front of its queue, or returns the token; the master records it as active or idle with no
      failures, and the round leaves the rest of the queue as it was. */
  lemma TokenRound(cfg: Config, own: UniqueId, trace: seq<Net>, steps: seq<Bus.Step>, id: UniqueId, a: Address)
    requires HeardByMaster(cfg, own, trace, steps, id) && OnWire(trace[0], GrantToken(a))
    requires id in trace[0].clients && id != own && trace[0].clients[id].addr == a
    ensures var n, n2, n3 := trace[0], trace[2], trace[3];
            var c := n.clients[id];
            && n2.pending == [Entry(FromClient(id), true, AnswerOf(c))]
            && id in n3.clients && n3.clients[id] == ServedClient(c)
            && HasLine(n.master.dyn.table, a) && HasLine(n3.master.dyn.table, a)
            && LineOf(n3.master.dyn.table, a)
               == LineOf(n.master.dyn.table, a).(bad := 0, state := if c.queue == [] then LineState.Idle else Active)
  {
    GrantHeard(cfg, own, trace[0], steps[0], id, a);
    GrantIsForeign(cfg, trace[0], a);
    AnswerIsAnswer(trace[0].clients, id);
    AnswerSentAndHeard(cfg, own, trace[1], steps[1], trace[2], steps[2], id, a);
  }

  lemma AnswerIsAnswer(cs: Clients, id: UniqueId)
    requires QueuesHoldData(cs) && id in cs
    ensures var msg := AnswerOf(cs[id]);
            && (msg.ReturnToken? || IsData(msg))
            && OutcomeOf(AnswerResult(msg)) == if cs[id].queue == [] then LineState.Idle else Active
  {
  }

  lemma AnswerSentAndHeard(cfg: Config, own: UniqueId, n: Net, send: Bus.Step, n': Net, st: Bus.Step, id: UniqueId,
                           a: Address)
    requires NetInv(cfg, n) && |n.pending| == 1 && n.pending[0].sender == FromClient(id)
    requires n.pending[0].msg.ReturnToken? || IsData(n.pending[0].msg)
    requires id in n.clients && id != own && a != cfg.own
    requires Quiet(n.master) && n.master.fsm.state == WaitClientPacketDone && n.master.current == SendToken(a)
    requires send.Transmit? && Possible(own, n, send) && n' == After(cfg, own, n, send)
    requires st.Deliver? && Possible(own, n', st) && st.masterHears
    ensures n' == n.(pending := [Entry(FromClient(id), true, n.pending[0].msg)])
    ensures HasLine(n.master.dyn.table, a)
    ensures var n3 := After(cfg, own, n', st);
            && id in n3.clients && n3.clients[id] == n.clients[id]
            && HasLine(n3.master.dyn.table, a)
            && LineOf(n3.master.dyn.table, a)
               == LineOf(n.master.dyn.table, a).(bad := 0, state := OutcomeOf(AnswerResult(n.pending[0].msg)))
  {
    TransmitIs(cfg, own, n, send);
    AnswerHeard(cfg, own, n', st, id, n.pending[0].msg, a);
  }

  lemma GrantIsForeign(cfg: Config, n: Net, a: Address)
    requires OneRight(cfg, n) && OnWire(n, GrantToken(a))
    ensures a != cfg.own
  {
  }

  // ---------------------------------------------------------------- the negotiation of an address

  /** An unaddressed client answers a discovery with its id. */
  lemma DiscoveryHeard(cfg: Config, own: UniqueId, n: Net, st: Bus.Step, id: UniqueId)
    requires NetInv(cfg, n) && OnWire(n, AddressDiscovery(0, 0)) && id in n.clients && n.clients[id].addr == NULL_ADDR
    requires st.Deliver? && Possible(own, n, st) && Orderly(n, st) && st.masterHears && id in st.hearers
    ensures After(cfg, own, n, st)
            == Net(n.master, n.clients, [Entry(FromClient(id), false, AddressRequest(id, 0, [0, 0, 0, 0]))])
  {
    var msg := AddressDiscovery(0, 0);
    WhoReplies(n.clients, st.hearers, msg, id);
    AtMostOneReply(n, st.hearers, msg, st.order);
    TheAnswer(n.clients, st.hearers, msg, st.order, id);
    DiscoveriesMoveNobody(n.clients, st.hearers);
    DiscoveryIsSilent(cfg, own, n, st);
  }

  lemma TheAnswer(cs: Clients, hearers: set<UniqueId>, msg: Msg, order: seq<UniqueId>, id: UniqueId)
    requires RepliersInOrder(cs, hearers, msg, order) && |order| <= 1 && Replies(cs, hearers, msg, id)
    ensures order == [id]
    ensures ReplyEntries(cs, hearers, msg, order) == [Entry(FromClient(id), false, Hear(id, cs[id], msg).reply.value)]
  {
    assert id in order;
  }

  /** The master does not react to its own discovery. */
  lemma DiscoveryIsSilent(cfg: Config, own: UniqueId, n: Net, st: Bus.Step)
    requires OnWire(n, AddressDiscovery(0, 0)) && st.Deliver? && Possible(own, n, st)
    ensures var msg := AddressDiscovery(0, 0);
            DeliverTo(cfg, own, n, st)
            == Net(n.master, HearAll(n.clients, st.hearers, msg), ReplyEntries(n.clients, st.hearers, msg, st.order))
  {
    var replies := ReplyEntries(n.clients, st.hearers, AddressDiscovery(0, 0), st.order);
    assert NextOnWire(n.pending) == 0;
    assert n.pending[..0] + n.pending[1..] + replies == replies;
    SilentMaster(own, Net(n.master, HearAll(n.clients, st.hearers, AddressDiscovery(0, 0)), replies), n.master);
  }

  lemma DiscoveriesMoveNobody(cs: Clients, hearers: set<UniqueId>)
    ensures HearAll(cs, hearers, AddressDiscovery(0, 0)) == cs
  {
  }

  lemma RepliesMoveOne(cs: Clients, hearers: set<UniqueId>, a: Address, id: UniqueId)
    requires id in cs && id in hearers
    ensures HearAll(cs, hearers, AddressReply(a, id)) == cs[id := cs[id].(addr := a)]
  {
  }

  /** The address that a request of `id` is answered with: that of its line, or the top of the pool. */
  function AddressFor(d: Dyn, id: UniqueId): Option<Address> {
    var i := FindId(d.table, id);
    if i < |d.table| then Some(d.table[i].addr)
    else if d.free != [] then Some(d.free[|d.free| - 1]) else None
  }

  lemma RequestSends(m: Master, id: UniqueId)
    requires AddressFor(m.dyn, id).Some?
    ensures ReceivedAddressRequest(m, id).sent == m.sent + [TxReply(AddressFor(m.dyn, id).value, id)]
    ensures ReceivedAddressRequest(m, id).fault == m.fault
  {
  }

  lemma RequestDrains(cfg: Config, s: Master, id: UniqueId, envs: seq<Env>)
    requires s.fault == NoFault && s.fsm.state == QueryAddressState && s.fsm.events == [RxAddressRequest(id)]
             && envs != []
    ensures Drain(cfg, s, envs) == Answered(cfg, s, id, envs[0].now)
  {
    AnswerShape(cfg, s, id, envs[0]);
  }

  lemma RequestAnswered(cfg: Config, m: Master, id: UniqueId, envs: Envs)
    requires Quiet(m) && m.fsm.state == QueryAddressState && |envs.turns| == 3 && AddressFor(m.dyn, id).Some?
    ensures var m' := MasterHearsMsg(cfg, m, AddressRequest(id, 0, [0, 0, 0, 0]), envs);
            && m' == Answered(cfg, m, id, envs.turns[0].now) && Quiet(m')
            && m'.sent == m.sent + [TxReply(AddressFor(m.dyn, id).value, id)]
  {
    var s := m.(fsm := m.fsm.(events := [RxAddressRequest(id)]));
    assert m.fsm.events + [RxAddressRequest(id)] == [RxAddressRequest(id)];
    RequestDrains(cfg, s, id, envs.turns);
    RequestSends(m, id);
  }

  lemma ReplyEmitted(own: UniqueId, n: Net, m': Master, a: Address, id: UniqueId)
    requires n.pending == [] && m'.sent == n.master.sent + [TxReply(a, id)]
    ensures MasterActs(own, n, m') == Net(m', n.clients, [Entry(FromMaster, false, AddressReply(a, id))])
  {
    assert NewTx(n.master, m') == [TxReply(a, id)];
    EmitSingle(own, n.clients, NewTx(n.master, m'));
    assert [] + [Entry(FromMaster, false, AddressReply(a, id))] == [Entry(FromMaster, false, AddressReply(a, id))];
  }

  lemma RequestsMoveNobody(cs: Clients, hearers: set<UniqueId>, id: UniqueId)
    ensures HearAll(cs, hearers, AddressRequest(id, 0, [0, 0, 0, 0])) == cs
  {
  }

  /** The request reaches the master, which replies. */
  lemma RequestHeard(cfg: Config, own: UniqueId, n: Net, st: Bus.Step, id: UniqueId)
    requires NetInv(cfg, n) && n.pending == [Entry(FromClient(id), true, AddressRequest(id, 0, [0, 0, 0, 0]))]
    requires id in n.clients && AddressFor(n.master.dyn, id).Some? && Quiet(n.master)
    requires st.Deliver? && Possible(own, n, st) && st.masterHears
    ensures After(cfg, own, n, st)
            == Net(Answered(cfg, n.master, id, st.envs.turns[0].now), n.clients,
                   [Entry(FromMaster, false, AddressReply(AddressFor(n.master.dyn, id).value, id))])
    ensures Orderly(n, st)
  {
    var msg, m' := AddressRequest(id, 0, [0, 0, 0, 0]), Answered(cfg, n.master, id, st.envs.turns[0].now);
    NobodyAnswers(n.clients, st.hearers, msg, st.order);
    UnansweredShape(cfg, own, n, st);
    RequestAnswered(cfg, n.master, id, st.envs);
    RequestsMoveNobody(n.clients, st.hearers, id);
    ReplyEmitted(own, n.(pending := []), m', AddressFor(n.master.dyn, id).value, id);
  }

  /** The reply reaches the client. */
  /** Nobody answers the packet, and the master does not react to it. */
  lemma QuietDelivery(cfg: Config, own: UniqueId, n: Net, st: Bus.Step)
    requires NetInv(cfg, n) && st.Deliver? && Possible(own, n, st) && st.order == []
    requires n.pending != [] && EventOf(n.pending[0].msg).None?
    ensures After(cfg, own, n, st) == Net(n.master, HearAll(n.clients, st.hearers, n.pending[0].msg), [])
  {
    UnansweredShape(cfg, own, n, st);
    SilentMaster(own, Net(n.master, HearAll(n.clients, st.hearers, n.pending[0].msg), []), n.master);
  }

  lemma ReplyTaken(cfg: Config, own: UniqueId, n: Net, st: Bus.Step, id: UniqueId, a: Address)
    requires NetInv(cfg, n) && n.pending == [Entry(FromMaster, true, AddressReply(a, id))] && id in n.clients
    requires st.Deliver? && Possible(own, n, st) && id in st.hearers
    ensures After(cfg, own, n, st) == Net(n.master, n.clients[id := n.clients[id].(addr := a)], [])
  {
    assert NextOnWire(n.pending) == 0;
    NobodyAnswers(n.clients, st.hearers, AddressReply(a, id), st.order);
    QuietDelivery(cfg, own, n, st);
    RepliesMoveOne(n.clients, st.hearers, a, id);
  }

  /** The line that carries the negotiated address. */
  lemma AddressIsListed(m: Master, id: UniqueId)
    requires AddressFor(m.dyn, id).Some?
    ensures HasPair(ReceivedAddressRequest(m, id).dyn.table, AddressFor(m.dyn, id).value, id)
  {
    var t, t' := m.dyn.table, ReceivedAddressRequest(m, id).dyn.table;
    if HasId(t, id) {
      assert t'[FindId(t, id)].uid == id;
    } else {
      assert t'[|t|] == Line(LineState.Idle, 0, m.dyn.free[|m.dyn.free| - 1], true, id);
    }
  }

  /** The negotiation of an address: when the one unaddressed hearer of a discovery, and the master, hear
      what they should, the client ends with the address that its line carries: the one it had
      before, or else the top of the pool. Without either, the master stays silent. */
  lemma AddressRound(cfg: Config, own: UniqueId, trace: seq<Net>, steps: seq<Bus.Step>, id: UniqueId)
    requires HeardByMaster(cfg, own, trace, steps, id) && OnWire(trace[0], AddressDiscovery(0, 0))
    requires id in trace[0].clients && trace[0].clients[id].addr == NULL_ADDR
    requires AddressFor(trace[0].master.dyn, id).Some?
    requires |steps| == 5 && steps[3].Transmit? && steps[4].Deliver? && id in steps[4].hearers
    ensures var n, n', a := trace[0], trace[5], AddressFor(trace[0].master.dyn, id).value;
            && n'.pending == [] && n'.clients == n.clients[id := n.clients[id].(addr := a)]
            && HasPair(n'.master.dyn.table, a, id)
            && (HasId(n.master.dyn.table, id) ==> n'.master.dyn == n.master.dyn)
  {
    NetStepKeeps(cfg, own, trace[0], steps[0]);
    DiscoveryHeard(cfg, own, trace[0], steps[0], id);
    TransmitIs(cfg, own, trace[1], steps[1]);
    RequestHeard(cfg, own, trace[2], steps[2], id);
    NetStepKeeps(cfg, own, trace[2], steps[2]);
    TransmitIs(cfg, own, trace[3], steps[3]);
    ReplyTaken(cfg, own, trace[4], steps[4], id, AddressFor(trace[0].master.dyn, id).value);
    AddressIsListed(trace[0].master, id);
  }
}
