/** One node's packet path: the transmit queue, the packet dispatcher, and what a byte stream between
    two nodes delivers. */
module Transport {
  import opened Prelude
  import opened Bytes
  import opened Protocol
  import opened Framing
  import opened Bus

  // ---------------------------------------------------------------- own address and transmit queue

  class OwnAddress {
    var addr: Address
    var dynamic: bool
    /** Every address that the listener was told about. */
    var notified: seq<Address>

    constructor (a: Address)
      ensures addr == a && dynamic == (a == NULL_ADDR) && notified == []
    {
      addr, dynamic, notified := a, a == NULL_ADDR, [];
    }

    method Set(a: Address)
      modifies this
      ensures addr == a && dynamic == old(dynamic)
      ensures notified == old(notified) + if a != old(addr) then [a] else []
    {
      var change := addr != a;
      addr := a;
      if change {
        notified := notified + [addr];
      }
    }

    method MasterStarted()
      modifies this
      ensures dynamic == old(dynamic) && addr == if dynamic then NULL_ADDR else old(addr)
      ensures notified == old(notified) + if addr != old(addr) then [NULL_ADDR] else []
    {
      if dynamic {
        Set(NULL_ADDR);
      }
    }
  }

  function SerializeAll(ms: seq<Msg>): (r: seq<Packet>)
    ensures |r| == |ms| && forall i :: 0 <= i < |ms| ==> r[i] == Serialize(ms[i])
  {
    seq(|ms|, i requires 0 <= i < |ms| => Serialize(ms[i]))
  }

  class TxQueue {
    const own: OwnAddress
    /** Packets that wait for a token, as bytes. */
    var txMsg: seq<Packet>
    /** Packets handed to the transmitter so far. */
    var sent: seq<Packet>
    /** The waiting packets as messages. */
    ghost var queue: seq<Msg>

    ghost predicate Valid()
      reads this
    {
      txMsg == SerializeAll(queue)
    }

    /** The client that the rest of the bus sees. */
    ghost function Model(): Client
      reads this, own
    {
      Client(own.addr, own.dynamic, queue)
    }

    constructor (a: Address)
      ensures Valid() && fresh(own) && Model() == Client(a, a == NULL_ADDR, []) && sent == []
    {
      own := new OwnAddress(a);
      txMsg, sent, queue := [], [], [];
    }

    method SendPacket(data: seq<Byte>, dest: Address, channel: Channel)
      requires Valid()
      modifies this`txMsg, this`queue
      ensures Valid()
      ensures Model() == old(Model()).(queue := old(queue) + [Msg.SendPacket(channel, dest, own.addr, data)])
    {
      var packet := [4, channel, dest, own.addr] + data;
      txMsg := txMsg + [packet];
      queue := queue + [Msg.SendPacket(channel, dest, own.addr, data)];
    }

    /** A node without an address drops what its host wants to send. */
    method HostSendPacket(data: seq<Byte>, dest: Address, channel: Channel)
      requires Valid()
      modifies this`txMsg, this`queue
      ensures Valid() && Model() == Offered(old(Model()), data, dest, channel)
      ensures queue == if own.addr == NULL_ADDR then old(queue)
                       else old(queue) + [Msg.SendPacket(channel, dest, own.addr, data)]
    {
      if own.addr != NULL_ADDR {
        SendPacket(data, dest, channel);
      }
    }

    method SendClientPacket()
      requires Valid() && txMsg != []
      modifies this
      ensures Valid() && Model() == old(Model()).(queue := old(queue)[1..])
      ensures sent == old(sent) + [Serialize(old(queue)[0])]
    {
      var packet := txMsg[0];
      sent := sent + [packet];
      txMsg := txMsg[1..];
      queue := queue[1..];
    }

    method SendReturnToken()
      requires Valid()
      modifies this`sent
      ensures sent == old(sent) + [Serialize(ReturnToken(own.addr))]
    {
      sent := sent + [[1, own.addr]];
    }

    method SendClientPacketOrReturnToken()
      requires Valid()
      modifies this
      ensures Valid()
      ensures var h := Hear([0, 0, 0, 0, 0, 0, 0, 0], old(Model()), GrantToken(own.addr));
              Model() == h.client && sent == old(sent) + [Serialize(h.reply.value)]
    {
      if txMsg == [] {
        SendReturnToken();
      } else {
        SendClientPacket();
      }
    }

    method SendMasterPacket(packet: Packet)
      modifies this`sent
      ensures sent == old(sent) + [packet]
    {
      sent := sent + [packet];
    }
  }

  function Offered(c: Client, data: seq<Byte>, dest: Address, channel: Channel): Client {
    if c.addr == NULL_ADDR then c else c.(queue := c.queue + [Msg.SendPacket(channel, dest, c.addr, data)])
  }

  // ---------------------------------------------------------------- packet dispatcher

  datatype Delivery = Delivery(payload: seq<Byte>, src: Address, dest: Address, channel: Channel)

  /** Which data packets a node takes; a node with the broadcast address takes all of them. */
  predicate Accepts(own: Address, m: Msg) {
    m.SendPacket? && ((m.dest == own && own != NULL_ADDR) || own == BROADCAST || m.dest == BROADCAST)
  }

  /** Only the three known channels have receivers. */
  predicate IsChannel(ch: Channel) { 1 <= ch <= 3 }

  function DeliveriesOf(own: Address, handlers: set<Channel>, m: Msg): seq<Delivery> {
    if Accepts(own, m) && IsChannel(m.channel) && m.channel in handlers
    then [Delivery(m.payload, m.src, m.dest, m.channel)] else []
  }

  /** What a raw packet delivers to the host. */
  function DeliveriesOfRaw(own: Address, handlers: set<Channel>, p: Packet): seq<Delivery> {
    if Parse(p).None? then [] else DeliveriesOf(own, handlers, Parse(p).value)
  }

  /** Who is registered with a packet dispatcher besides its client. */
  datatype Listeners = Listeners(master: bool, cache: bool, ended: bool)

  class PacketTypeCodec {
    const tx: TxQueue
    const uniqueId: UniqueId
    /** Channels with a registered receiver. */
    const handlers: set<Channel>
    const listeners: Listeners
    var rxMsg: seq<Packet>
    var delivered: seq<Delivery>
    /** Packets handed over to a registered master. */
    var handed: seq<Packet>
    var cache: map<Address, Mac>
    /** How often the end of the master was reported. */
    var endings: nat

    ghost predicate Valid()
      reads this, tx
    {
      tx.Valid() && rxMsg == []
    }

    constructor (tx: TxQueue, id: UniqueId, handlers: set<Channel>, listeners: Listeners)
      requires tx.Valid()
      ensures Valid() && this.tx == tx && uniqueId == id && this.handlers == handlers && this.listeners == listeners
      ensures delivered == [] && handed == [] && cache == map[] && endings == 0
    {
      this.tx, uniqueId, this.handlers, this.listeners := tx, id, handlers, listeners;
      rxMsg, delivered, handed, cache, endings := [], [], [], map[], 0;
    }

    /** A received packet moves the client exactly as the bus model says, sends its one answer if it
        has one, is handed over to a registered master, and delivers its payload if it is for this
        node. A packet that is no message does nothing at all. */
    method RxRawPacket(bb: Packet)
      requires Valid()
      modifies this, tx, tx.own
      ensures Valid()
      ensures Parse(bb).None? ==>
                && tx.Model() == old(tx.Model()) && tx.sent == old(tx.sent)
                && handed == old(handed) && cache == old(cache) && endings == old(endings)
      ensures Parse(bb).Some? ==>
                var m, h := Parse(bb).value, Hear(uniqueId, old(tx.Model()), Parse(bb).value);
                && tx.Model() == h.client
                && tx.sent == old(tx.sent) + (if h.reply.Some? then [Serialize(h.reply.value)] else [])
                && handed == old(handed) + (if listeners.master then [bb] else [])
                && cache == (if listeners.cache && m.MacUpdate? && m.near != BROADCAST then old(cache)[m.near := m.mac]
                             else old(cache))
                && endings == old(endings) + (if m.MasterEnded? && listeners.ended then 1 else 0)
      ensures delivered == old(delivered) + DeliveriesOfRaw(old(tx.own.addr), handlers, bb)
    {
      if !LongEnough(bb) {
        return;
      }
      var ownAddress := tx.own.addr;
      ClientHears(bb);
      Note(bb, ownAddress);
      if listeners.master {
        handed := handed + [bb];
      }
      DeliverRxQueue();
    }

    /** The branches that concern the client's address and its turn to send. */
    method ClientHears(bb: Packet)
      requires tx.Valid() && LongEnough(bb)
      modifies tx, tx.own
      ensures tx.Valid()
      ensures var h := Hear(uniqueId, old(tx.Model()), Parse(bb).value);
              && tx.Model() == h.client
              && tx.sent == old(tx.sent) + (if h.reply.Some? then [Serialize(h.reply.value)] else [])
    {
      match bb[0] {
        case 0 =>
          if bb[1] == tx.own.addr {
            tx.SendClientPacketOrReturnToken();
          }
        case 2 => tx.own.MasterStarted();
        case 6 =>
          if tx.own.addr == NULL_ADDR {
            tx.SendMasterPacket([7] + uniqueId + [0] + [0, 0, 0, 0]);
          }
        case 8 =>
          if bb[2..10] == uniqueId {
            tx.own.Set(bb[1]);
          }
        case _ =>
      }
    }

    /** The branches that store a packet for the host, or tell a listener. */
    method Note(bb: Packet, ownAddress: Address)
      requires LongEnough(bb) && rxMsg == []
      modifies this`rxMsg, this`cache, this`endings
      ensures rxMsg == if Accepts(ownAddress, Parse(bb).value) then [bb] else []
      ensures var m := Parse(bb).value;
              cache == if listeners.cache && m.MacUpdate? && m.near != BROADCAST then old(cache)[m.near := m.mac]
                       else old(cache)
      ensures endings == old(endings) + if Parse(bb).value.MasterEnded? && listeners.ended then 1 else 0
    {
      match bb[0] {
        case 3 =>
          if listeners.ended {
            endings := endings + 1;
          }
        case 4 =>
          if (bb[2] == ownAddress && ownAddress != NULL_ADDR) || ownAddress == BROADCAST || bb[2] == BROADCAST {
            rxMsg := rxMsg + [bb];
          }
        case 5 =>
          if listeners.cache && bb[3] != BROADCAST {
            cache := cache[bb[3] := bb[4..10]];
          }
        case _ =>
      }
    }

    method DeliverRxQueue()
      requires forall i :: 0 <= i < |rxMsg| ==> |rxMsg[i]| >= 4
      modifies this`rxMsg, this`delivered
      ensures rxMsg == []
      ensures delivered == old(delivered) + DeliverQueue(handlers, old(rxMsg))
    {
      while rxMsg != []
        invariant forall i :: 0 <= i < |rxMsg| ==> |rxMsg[i]| >= 4
        invariant delivered + DeliverQueue(handlers, rxMsg) == old(delivered) + DeliverQueue(handlers, old(rxMsg))
        decreases |rxMsg|
      {
        var bb := rxMsg[0];
        var payload := bb[4..];
        if IsChannel(bb[1]) && bb[1] in handlers {
          delivered := delivered + [Delivery(payload, bb[3], bb[2], bb[1])];
        }
        rxMsg := rxMsg[1..];
      }
    }
  }

  /** The receive queue's contents as deliveries, oldest first. */
  function DeliverQueue(handlers: set<Channel>, q: seq<Packet>): seq<Delivery>
    requires forall i :: 0 <= i < |q| ==> |q[i]| >= 4
  {
    if q == [] then [] else
    (if IsChannel(q[0][1]) && q[0][1] in handlers then [Delivery(q[0][4..], q[0][3], q[0][2], q[0][1])] else [])
    + DeliverQueue(handlers, q[1..])
  }

  // ---------------------------------------------------------------- end to end

  /** What happens to a sending node: its host offers a payload, or it is granted the token. */
  datatype Op = Offer(payload: seq<Byte>, dest: Address, channel: Channel) | Token | Readdress(a: Address)

  /** A sender with its histories: messages accepted from the host, and messages sent. */
  datatype Sender = Sender(client: Client, accepted: seq<Msg>, sent: seq<Msg>)

  function Do(s: Sender, op: Op): Sender {
    match op
    case Offer(payload, dest, channel) =>
      var c := Offered(s.client, payload, dest, channel);
      Sender(c, s.accepted + c.queue[|s.client.queue|..], s.sent)
    case Token =>
      var h := Hear([0, 0, 0, 0, 0, 0, 0, 0], s.client, GrantToken(s.client.addr));
      Sender(h.client, s.accepted, s.sent + [h.reply.value])
    case Readdress(a) => s.(client := s.client.(addr := a))
  }

  function DoAll(s: Sender, ops: seq<Op>): Sender
    decreases |ops|
  {
    if ops == [] then s else Do(DoAll(s, ops[..|ops| - 1]), ops[|ops| - 1])
  }

  function Data(ms: seq<Msg>): seq<Msg> {
    if ms == [] then [] else Data(ms[..|ms| - 1]) + if ms[|ms| - 1].SendPacket? then [ms[|ms| - 1]] else []
  }

  function Tokens(ops: seq<Op>): nat {
    if ops == [] then 0 else Tokens(ops[..|ops| - 1]) + if ops[|ops| - 1].Token? then 1 else 0
  }

  lemma DataSnoc(ms: seq<Msg>, m: Msg)
    ensures Data(ms + [m]) == Data(ms) + if m.SendPacket? then [m] else []
  {
    assert (ms + [m])[..|ms|] == ms;
  }

  ghost predicate OnlyPackets(q: seq<Msg>) { forall i :: 0 <= i < |q| ==> q[i].SendPacket? }

  /** Conservation: what was accepted is what was sent, in order, followed by what waits; and every
      grant sends exactly one message. */
  lemma {:induction false} AcceptedIsSentThenQueued(c: Client, ops: seq<Op>)
    requires c.queue == []
    ensures var s := DoAll(Sender(c, [], []), ops);
            && s.accepted == Data(s.sent) + s.client.queue && OnlyPackets(s.client.queue)
            && |s.sent| == Tokens(ops)
    decreases |ops|
  {
    if ops != [] {
      var n := |ops| - 1;
      AcceptedIsSentThenQueued(c, ops[..n]);
      var s := DoAll(Sender(c, [], []), ops[..n]);
      if ops[n].Token? { TokenConserves(s); }
    }
  }

  /** A grant moves the front of the queue onto the wire, or returns the token. */
  lemma TokenConserves(s: Sender)
    requires s.accepted == Data(s.sent) + s.client.queue && OnlyPackets(s.client.queue)
    ensures var s' := Do(s, Token);
            && s'.accepted == Data(s'.sent) + s'.client.queue && OnlyPackets(s'.client.queue)
            && |s'.sent| == |s.sent| + 1
  {
    var q := s.client.queue;
    if q == [] {
      DataSnoc(s.sent, ReturnToken(s.client.addr));
    } else {
      DataSnoc(s.sent, q[0]);
      assert q == [q[0]] + q[1..];
    }
  }

  /** Everything that raw packets deliver, in order. */
  function DeliverAll(own: Address, handlers: set<Channel>, ps: seq<Packet>): seq<Delivery> {
    if ps == [] then []
    else DeliverAll(own, handlers, ps[..|ps| - 1]) + DeliveriesOfRaw(own, handlers, ps[|ps| - 1])
  }

  function DeliverMsgs(own: Address, handlers: set<Channel>, ms: seq<Msg>): seq<Delivery> {
    if ms == [] then []
    else DeliverMsgs(own, handlers, ms[..|ms| - 1]) + DeliveriesOf(own, handlers, ms[|ms| - 1])
  }

  lemma {:induction false} RawIsMessages(own: Address, handlers: set<Channel>, ms: seq<Msg>)
    ensures DeliverAll(own, handlers, SerializeAll(ms)) == DeliverMsgs(own, handlers, ms)
  {
    if ms != [] {
      var n := |ms| - 1;
      RawIsMessages(own, handlers, ms[..n]);
      ParseSerialize(ms[n]);
      assert SerializeAll(ms)[..n] == SerializeAll(ms[..n]);
    }
  }

  lemma {:induction false} OnlyDataIsDelivered(own: Address, handlers: set<Channel>, ms: seq<Msg>)
    ensures DeliverMsgs(own, handlers, ms) == DeliverMsgs(own, handlers, Data(ms))
  {
    if ms != [] {
      var n := |ms| - 1;
      OnlyDataIsDelivered(own, handlers, ms[..n]);
      var ds := Data(ms[..n]);
      if ms[n].SendPacket? {
        assert Data(ms) == ds + [ms[n]] && (ds + [ms[n]])[..|ds|] == ds;
      } else {
        assert Data(ms) == ds;
      }
    }
  }

  ghost predicate ShortPayloads(ops: seq<Op>) {
    forall i :: 0 <= i < |ops| && ops[i].Offer? ==> |ops[i].payload| <= 16379
  }

  ghost predicate AllFit(ms: seq<Msg>) { forall i :: 0 <= i < |ms| ==> Sendable(Serialize(ms[i])) }

  lemma OpFits(s: Sender, op: Op)
    requires AllFit(s.sent) && AllFit(s.client.queue) && (op.Offer? ==> |op.payload| <= 16379)
    ensures AllFit(Do(s, op).sent) && AllFit(Do(s, op).client.queue)
  {
  }

  lemma {:induction false} SentFits(c: Client, ops: seq<Op>)
    requires c.queue == [] && ShortPayloads(ops)
    ensures var s := DoAll(Sender(c, [], []), ops); AllFit(s.sent) && AllFit(s.client.queue)
    decreases |ops|
  {
    if ops != [] {
      var n := |ops| - 1;
      assert ShortPayloads(ops[..n]);
      SentFits(c, ops[..n]);
      OpFits(DoAll(Sender(c, [], []), ops[..n]), ops[n]);
    }
  }

  // ---------------------------------------------------------------- what was offered, and what arrives

  /** The address of a node after these operations. */
  function AddressAfter(addr: Address, ops: seq<Op>): Address
    decreases |ops|
  {
    if ops == [] then addr
    else AddressAfter(if ops[0].Readdress? then ops[0].a else addr, ops[1..])
  }

  /** What the host offered while the node had an address, as messages from that address. */
  function OffersMade(addr: Address, ops: seq<Op>): seq<Msg>
    decreases |ops|
  {
    if ops == [] then [] else
    (match ops[0]
     case Offer(payload, dest, channel) =>
       (if addr == NULL_ADDR then [] else [Msg.SendPacket(channel, dest, addr, payload)]) + OffersMade(addr, ops[1..])
     case Token => OffersMade(addr, ops[1..])
     case Readdress(a) => OffersMade(a, ops[1..]))
  }

  lemma {:induction false} OffersSnoc(addr: Address, ops: seq<Op>, op: Op)
    ensures AddressAfter(addr, ops + [op]) == if op.Readdress? then op.a else AddressAfter(addr, ops)
    ensures OffersMade(addr, ops + [op]) == OffersMade(addr, ops) + OffersMade(AddressAfter(addr, ops), [op])
    decreases |ops|
  {
    if ops == [] {
      assert ops + [op] == [op] && [op][1..] == [];
      AppendEmpty(OffersMade(addr, [op]));
    } else {
      assert (ops + [op])[0] == ops[0] && (ops + [op])[1..] == ops[1..] + [op];
      var next := if ops[0].Readdress? then ops[0].a else addr;
      OffersSnoc(next, ops[1..], op);
      var first := if ops[0].Offer? && addr != NULL_ADDR
                   then [Msg.SendPacket(ops[0].channel, ops[0].dest, addr, ops[0].payload)] else [];
      AppendAssociates(first, OffersMade(next, ops[1..]), OffersMade(AddressAfter(next, ops[1..]), [op]));
      AppendEmpty(OffersMade(next, ops[1..]));
      AppendEmpty(OffersMade(next, ops[1..] + [op]));
    }
  }

  lemma OneOffer(addr: Address, op: Op)
    ensures OffersMade(addr, [op])
            == if op.Offer? && addr != NULL_ADDR then [Msg.SendPacket(op.channel, op.dest, addr, op.payload)] else []
  {
    assert [op][1..] == [];
  }

  /** What a sender accepts is exactly what its host offers while it has an address: in order, with the payload,
      the destination and the channel of each offer, and the address it had at that time as source. */
  lemma {:induction false} AcceptedIsOffered(c: Client, ops: seq<Op>)
    ensures var s := DoAll(Sender(c, [], []), ops);
            s.accepted == OffersMade(c.addr, ops) && s.client.addr == AddressAfter(c.addr, ops)
    decreases |ops|
  {
    if ops != [] {
      var n := |ops| - 1;
      AcceptedIsOffered(c, ops[..n]);
      assert ops == ops[..n] + [ops[n]];
      OffersSnoc(c.addr, ops[..n], ops[n]);
      OneOffer(AddressAfter(c.addr, ops[..n]), ops[n]);
      OneOpAccepts(DoAll(Sender(c, [], []), ops[..n]), ops[n]);
    }
  }

  lemma OneOpAccepts(s: Sender, op: Op)
    ensures Do(s, op).client.addr == if op.Readdress? then op.a else s.client.addr
    ensures Do(s, op).accepted
            == s.accepted + if op.Offer? && s.client.addr != NULL_ADDR
                            then [Msg.SendPacket(op.channel, op.dest, s.client.addr, op.payload)] else []
  {
    if op.Offer? {
      var q, q' := s.client.queue, Do(s, op).client.queue;
      assert q'[|q|..] == if s.client.addr == NULL_ADDR then []
                          else [Msg.SendPacket(op.channel, op.dest, s.client.addr, op.payload)];
    }
  }

  /** The data messages that a node with address `own` hands to its host: those to its address, those to
      everyone, and all of them if it listens with the broadcast address; on a known channel with a receiver. */
  predicate MeantFor(own: Address, handlers: set<Channel>, m: Msg) {
    && m.SendPacket? && m.channel in {1, 2, 3} && m.channel in handlers
    && (m.dest == 0xff || own == 0xff || (m.dest == own && own != 0))
  }

  function MeantOf(own: Address, handlers: set<Channel>, ms: seq<Msg>): seq<Msg> {
    if ms == [] then []
    else MeantOf(own, handlers, ms[..|ms| - 1]) + if MeantFor(own, handlers, ms[|ms| - 1]) then [ms[|ms| - 1]] else []
  }

  /** The host is told what the message says. */
  predicate Tells(v: Delivery, m: Msg) {
    m.SendPacket? && v.payload == m.payload && v.src == m.src && v.dest == m.dest && v.channel == m.channel
  }

  ghost predicate TellAll(vs: seq<Delivery>, ms: seq<Msg>) {
    |vs| == |ms| && forall i :: 0 <= i < |vs| ==> Tells(vs[i], ms[i])
  }

  /** A message is delivered if and only if it is meant for the node, once, and as it is. */
  lemma DeliveredAsIs(own: Address, handlers: set<Channel>, m: Msg)
    ensures TellAll(DeliveriesOf(own, handlers, m), if MeantFor(own, handlers, m) then [m] else [])
  {
  }

  lemma {:induction false} DeliveredInOrder(own: Address, handlers: set<Channel>, ms: seq<Msg>)
    ensures TellAll(DeliverMsgs(own, handlers, ms), MeantOf(own, handlers, ms))
  {
    if ms != [] {
      DeliveredInOrder(own, handlers, ms[..|ms| - 1]);
      DeliveredAsIs(own, handlers, ms[|ms| - 1]);
    }
  }

  /** A stored packet is handed on with its payload, source, destination and channel. */
  lemma QueuedIsDelivered(handlers: set<Channel>, bb: Packet, q: seq<Packet>)
    requires |bb| >= 4 && forall i :: 0 <= i < |q| ==> |q[i]| >= 4
    ensures var vs, rest := DeliverQueue(handlers, [bb] + q), DeliverQueue(handlers, q);
            if bb[1] in {1, 2, 3} && bb[1] in handlers
            then |vs| == |rest| + 1 && vs[1..] == rest && Tells(vs[0], Msg.SendPacket(bb[1], bb[2], bb[3], bb[4..]))
            else vs == rest
  {
    assert ([bb] + q)[1..] == q;
    AppendEmpty(DeliverQueue(handlers, q));
  }

  /** End to end: the bytes that a sender puts on a clean line deliver, at any receiver, exactly what its host
      offered and what is meant for that receiver, up to what still waits for a token: the i-th delivery
      has the payload, source, destination and channel of the i-th such offer. */
  lemma EndToEnd(c: Client, ops: seq<Op>, d: Decoder, own: Address, handlers: set<Channel>)
    requires c.queue == [] && ShortPayloads(ops) && d.state == GetKW
    ensures var s, offers := DoAll(Sender(c, [], []), ops), OffersMade(c.addr, ops);
            && |s.client.queue| <= |offers|
            && TellAll(DeliverAll(own, handlers, DecodeAll(d, Stream(SerializeAll(s.sent))).got),
                       MeantOf(own, handlers, offers[..|offers| - |s.client.queue|]))
  {
    var s := DoAll(Sender(c, [], []), ops);
    SentFits(c, ops);
    StreamRoundTrip(d, SerializeAll(s.sent));
    RawIsMessages(own, handlers, s.sent);
    OnlyDataIsDelivered(own, handlers, s.sent);
    AcceptedIsSentThenQueued(c, ops);
    AcceptedIsOffered(c, ops);
    assert s.accepted[..|s.accepted| - |s.client.queue|] == Data(s.sent);
    DeliveredInOrder(own, handlers, Data(s.sent));
  }
}
