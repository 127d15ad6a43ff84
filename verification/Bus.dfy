/** The whole bus: one master, any number of clients, and a broadcast wire that any node may miss
    a packet on. */
module Bus {
  import opened Prelude
  import opened Bytes
  import opened Protocol
  import opened MasterModel
  import opened MasterTheorems

  // ---------------------------------------------------------------- clients

  /** A client as far as the bus sees it: its address, whether that address is negotiated, and the
      packets that wait for a token. */
  datatype Client = Client(addr: Address, dynamic: bool, queue: seq<Msg>)

  predicate IsData(m: Msg) { m.SendPacket? || m.MacUpdate? }

  datatype Heard = Heard(client: Client, reply: Option<Msg>)

  /** What a client does about a message. The fields of a request that nobody reads are zero. */
  function Hear(id: UniqueId, c: Client, m: Msg): Heard {
    match m
    case GrantToken(a) =>
      if a != c.addr then Heard(c, None)
      else if c.queue == [] then Heard(c, Some(ReturnToken(c.addr)))
      else Heard(c.(queue := c.queue[1..]), Some(c.queue[0]))
    case AddressDiscovery(_, _) =>
      Heard(c, if c.addr == NULL_ADDR then Some(AddressRequest(id, 0, [0, 0, 0, 0])) else None)
    case AddressReply(a, id') => Heard(if id' == id then c.(addr := a) else c, None)
    case MasterStarted => Heard(if c.dynamic then c.(addr := NULL_ADDR) else c, None)
    case _ => Heard(c, None)
  }

  type Clients = map<UniqueId, Client>

  function HearAll(cs: Clients, hearers: set<UniqueId>, m: Msg): (r: Clients)
    ensures r.Keys == cs.Keys
  {
    map id | id in cs :: if id in hearers then Hear(id, cs[id], m).client else cs[id]
  }

  predicate Replies(cs: Clients, hearers: set<UniqueId>, m: Msg, id: UniqueId) {
    id in cs && id in hearers && Hear(id, cs[id], m).reply.Some?
  }

  // ---------------------------------------------------------------- the wire

  datatype Sender = FromMaster | FromClient(id: UniqueId)

  /** A packet that was handed to a transmitter and has not been delivered yet. */
  datatype Entry = Entry(sender: Sender, onWire: bool, msg: Msg)

  datatype Net = Net(master: Master, clients: Clients, pending: seq<Entry>)

  /** Index of the packet that the wire delivers next, or the number of pending packets. */
  function NextOnWire(p: seq<Entry>): (i: nat)
    ensures i <= |p| && (i < |p| ==> p[i].onWire) && forall j :: 0 <= j < i ==> !p[j].onWire
  {
    if p == [] then 0 else if p[0].onWire then 0 else
    assert forall j :: 0 <= j < |p[1..]| ==> p[1..][j] == p[j + 1];
    1 + NextOnWire(p[1..])
  }

  predicate RepliersInOrder(cs: Clients, hearers: set<UniqueId>, m: Msg, order: seq<UniqueId>) {
    && (forall i, j :: 0 <= i < j < |order| ==> order[i] != order[j])
    && (forall i :: 0 <= i < |order| ==> Replies(cs, hearers, m, order[i]))
    && (forall id :: id in cs && Replies(cs, hearers, m, id) ==> id in order)
  }

  function ReplyEntries(cs: Clients, hearers: set<UniqueId>, m: Msg, order: seq<UniqueId>): seq<Entry>
    requires RepliersInOrder(cs, hearers, m, order)
  {
    seq(|order|, i requires 0 <= i < |order| =>
      assert Replies(cs, hearers, m, order[i]);
      Entry(FromClient(order[i]), false, Hear(order[i], cs[order[i]], m).reply.value))
  }

  // ---------------------------------------------------------------- the master's transmissions

  datatype Emission = Emission(clients: Clients, entries: seq<Entry>)

  /** The own client's packet is taken from the front of its queue. */
  function EmitOne(own: UniqueId, cs: Clients, tx: Tx): Emission {
    match tx
    case TxStart => Emission(cs, [Entry(FromMaster, false, MasterStarted)])
    case TxGrant(a) => Emission(cs, [Entry(FromMaster, false, GrantToken(a))])
    case TxDiscovery => Emission(cs, [Entry(FromMaster, false, AddressDiscovery(0, 0))])
    case TxReply(a, id) => Emission(cs, [Entry(FromMaster, false, AddressReply(a, id))])
    case TxOwnPacket =>
      if own in cs && cs[own].queue != [] then
        Emission(cs[own := cs[own].(queue := cs[own].queue[1..])], [Entry(FromMaster, false, cs[own].queue[0])])
      else Emission(cs, [])
  }

  function Emit(own: UniqueId, cs: Clients, txs: seq<Tx>): Emission {
    if txs == [] then Emission(cs, []) else
    var e := EmitOne(own, cs, txs[0]);
    var r := Emit(own, e.clients, txs[1..]);
    Emission(r.clients, e.entries + r.entries)
  }

  /** The transmissions that a reaction of the master adds to its history. */
  function NewTx(m: Master, m': Master): seq<Tx> {
    if |m.sent| <= |m'.sent| then m'.sent[|m.sent|..] else []
  }

  function MasterActs(own: UniqueId, n: Net, m': Master): Net {
    var e := Emit(own, n.clients, NewTx(n.master, m'));
    Net(m', e.clients, n.pending + e.entries)
  }

  // ---------------------------------------------------------------- steps

  /** The environments of one reaction of the master. */
  datatype Envs = Envs(first: Env, turns: seq<Env>)

  predicate EnvsFit(own: UniqueId, cs: Clients, e: Envs) {
    && |e.turns| == 3 && Steady(e.turns, e.first)
    && own in cs && (e.first.txEmpty <==> cs[own].queue == [])
  }

  datatype Step =
    | Transmit(i: nat)
    | Deliver(hearers: set<UniqueId>, masterHears: bool, order: seq<UniqueId>, envs: Envs)
    | Timer(k: Stimulus, envs: Envs)
    | HostSend(id: UniqueId, msg: Msg)
    | PowerOff(id: UniqueId)
    | PowerOn(id: UniqueId, addr: Address)
    | Restart(uids: int -> UniqueId, envs: Envs)

  /** A transmitter sends in the order in which it was given packets. */
  predicate CanTransmit(p: seq<Entry>, i: nat) {
    i < |p| && !p[i].onWire && forall j :: 0 <= j < i ==> p[j].onWire || p[j].sender != p[i].sender
  }

  /** The message is about the node with this id. */
  predicate Names(m: Msg, id: UniqueId) { (m.AddressRequest? || m.AddressReply?) && m.id == id }

  /** An id drawn at random when a node starts: nobody has it, and nothing under way is about it. */
  predicate NewToBus(n: Net, id: UniqueId) {
    && id !in n.clients
    && forall i :: 0 <= i < |n.pending| ==> n.pending[i].sender != FromClient(id) && !Names(n.pending[i].msg, id)
  }

  predicate Possible(own: UniqueId, n: Net, st: Step) {
    match st
    case Transmit(i) => CanTransmit(n.pending, i)
    case Deliver(hearers, masterHears, order, envs) =>
      var i := NextOnWire(n.pending);
      && i < |n.pending|
      && RepliersInOrder(n.clients, hearers, n.pending[i].msg, order)
      && EnvsFit(own, HearAll(n.clients, hearers, n.pending[i].msg), envs)
    case Timer(k, envs) => !k.Packet? && Quiet(n.master) && Enabled(n.master, k) && EnvsFit(own, n.clients, envs)
    case HostSend(id, msg) =>
      id in n.clients && IsData(msg) && n.clients[id].addr != NULL_ADDR && msg.src == n.clients[id].addr
    case PowerOff(id) => id in n.clients && id != own
    case PowerOn(id, addr) => NewToBus(n, id)
    case Restart(uids, envs) => EnvsFit(own, n.clients, envs)
  }

  function Without(p: seq<Entry>, id: UniqueId): seq<Entry> {
    if p == [] then []
    else if p[0].sender == FromClient(id) && !p[0].onWire then Without(p[1..], id)
    else [p[0]] + Without(p[1..], id)
  }

  function Booted(cfg: Config, uids: int -> UniqueId, envs: Envs): Master
    requires cfg.Valid()
  {
    Drain(cfg, Boot(cfg, uids, envs.first), envs.turns)
  }

  function MasterHearsMsg(cfg: Config, m: Master, msg: Msg, envs: Envs): Master {
    if !Quiet(m) || EventOf(msg).None? then m
    else React(cfg, m, Packet(EventOf(msg).value), envs.first, envs.turns)
  }

  function DeliverTo(cfg: Config, own: UniqueId, n: Net, st: Step): Net
    requires st.Deliver? && Possible(own, n, st)
  {
    var i := NextOnWire(n.pending);
    var msg := n.pending[i].msg;
    var n1 := Net(n.master, HearAll(n.clients, st.hearers, msg),
                  n.pending[..i] + n.pending[i + 1..] + ReplyEntries(n.clients, st.hearers, msg, st.order));
    if st.masterHears then MasterActs(own, n1, MasterHearsMsg(cfg, n.master, msg, st.envs)) else n1
  }

  function After(cfg: Config, own: UniqueId, n: Net, st: Step): Net
    requires cfg.Valid() && Possible(own, n, st)
  {
    match st
    case Transmit(i) =>
      n.(pending := n.pending[..i] + n.pending[i + 1..] + [n.pending[i].(onWire := true)])
    case Deliver(_, _, _, _) => DeliverTo(cfg, own, n, st)
    case Timer(k, envs) => MasterActs(own, n, React(cfg, n.master, k, envs.first, envs.turns))
    case HostSend(id, msg) =>
      n.(clients := n.clients[id := n.clients[id].(queue := n.clients[id].queue + [msg])])
    case PowerOff(id) => n.(clients := n.clients - {id}, pending := Without(n.pending, id))
    case PowerOn(id, addr) => n.(clients := n.clients[id := Client(addr, addr == NULL_ADDR, [])])
    case Restart(uids, envs) =>
      var m := Booted(cfg, uids, envs);
      var e := Emit(own, n.clients, m.sent);
      Net(m, e.clients, n.pending + e.entries)
  }
}
