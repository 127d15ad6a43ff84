/** No two nodes share an address, whatever collides, times out or is restarted, as long as every holder of
    a negotiated address hears a starting master and is not given up on. */
module BusAgreement {
  import opened Prelude
  import opened Bytes
  import opened Protocol
  import opened Scheduler
  import opened MasterModel
  import opened MasterInvariant
  import opened MasterSteps
  import opened MasterRuns
  import opened MasterTheorems
  import opened MasterLines
  import opened MasterHolders
  import opened Bus
  import opened BusArbitration
  import opened BusOrder

  // ---------------------------------------------------------------- the master's table

  /** No static line happens to carry the id of a client. */
  ghost predicate StaticIdsApart(t: seq<Line>, ids: set<UniqueId>) {
    forall i :: 0 <= i < |t| && !t[i].dynamic ==> t[i].uid !in ids
  }

  lemma UpdateKeepsIdsApart(cfg: Config, s: Master, a: Address, st: LineState, now: Time, ids: set<UniqueId>)
    requires StaticIdsApart(s.dyn.table, ids)
    ensures StaticIdsApart(UpdateAddressLine(cfg, s, a, st, now).dyn.table, ids)
  {
    var t, i := s.dyn.table, FindAddr(s.dyn.table, a);
    if i < |t| {
      var r := Remove(t, i);
      assert forall j :: 0 <= j < |r| ==> r[j] == t[if j < i then j else j + 1];
    }
  }

  lemma RecordKeepsIdsApart(cfg: Config, s: Master, rv: ReturnValue, now: Time, ids: set<UniqueId>)
    requires StaticIdsApart(s.dyn.table, ids)
    ensures StaticIdsApart(Recorded(cfg, s, rv, now).dyn.table, ids)
  {
    if rv.ClientPacketStarted? || rv.RxTokenNoPacket? || rv.TokenTimeout? {
      var s0 := s.(fsm := s.fsm.(action := DoNothing), current := DoNothing);
      UpdateKeepsIdsApart(cfg, s0, ActionAddr(s.current), OutcomeOf(rv), now, ids);
    }
  }

  lemma DynAfterKeepsIdsApart(cfg: Config, s: Master, env: Env, ids: set<UniqueId>)
    requires CanStep(s, DispatchStep(env)) && StaticIdsApart(s.dyn.table, ids)
    ensures StaticIdsApart(DynAfter(cfg, s, DispatchStep(env)).table, ids)
  {
    var d := Decision(cfg, s, env);
    if d.Finish? { RecordKeepsIdsApart(cfg, s, d.rv, env.now, ids); }
  }

  lemma DispatchKeepsIdsApart(cfg: Config, s: Master, env: Env, ids: set<UniqueId>)
    requires Inv(cfg, s) && s.fault == NoFault && s.fsm.events != [] && StaticIdsApart(s.dyn.table, ids)
    ensures StaticIdsApart(Dispatch(cfg, s, env).dyn.table, ids)
  {
    NextDyn(cfg, s, DispatchStep(env));
    DynAfterKeepsIdsApart(cfg, s, env, ids);
  }

  /** An address reply is only ever sent in answer to the request of the same id. */
  ghost predicate RepliesToRequest(s: Master, s': Master) {
    forall a: Address, id: UniqueId :: s'.sent == s.sent + [TxReply(a, id)] ==> s.fsm.events == [RxAddressRequest(id)]
  }

  lemma DispatchRepliesToRequest(cfg: Config, s: Master, env: Env)
    requires Inv(cfg, s) && s.fault == NoFault && s.fsm.events != []
    ensures RepliesToRequest(s, Dispatch(cfg, s, env))
  {
    DecisionFits(cfg, s, env);
    match Decision(cfg, s, env)
    case Finish(rv) =>
      if rv.Timeout? { UnheardStartDies(cfg, s, env); } else { FinishCloses(cfg, s, rv, env); }
    case Answer(id) =>
      AnswerShape(cfg, s, id, env);
      RequestReplies(s, id);
    case _ => QuietDispatch(cfg, s, env);
  }

  /** One turn of the drain loop, with everything the chain of replies needs. */
  lemma TurnKeepsIds(cfg: Config, s: Master, e: Env, ids: set<UniqueId>)
    requires Inv(cfg, s) && s.fault == NoFault && s.fsm.events != [] && StaticIdsApart(s.dyn.table, ids)
    ensures var s1 := Dispatch(cfg, s, e);
            && Inv(cfg, s1) && StaticIdsApart(s1.dyn.table, ids) && RepliesToRequest(s, s1) && Emits(cfg, s, s1)
            && (s1.fault != NoFault || s1.fsm.events == [] || Pending(s1))
  {
    DispatchKeeps(cfg, s, e);
    DispatchKeepsIdsApart(cfg, s, e, ids);
    DispatchRepliesToRequest(cfg, s, e);
  }

  lemma {:induction false} DrainKeepsIds(cfg: Config, s: Master, env: Env, envs: seq<Env>, ids: set<UniqueId>)
    requires Inv(cfg, s) && Steady(envs, env) && StaticIdsApart(s.dyn.table, ids)
    ensures StaticIdsApart(Drain(cfg, s, envs).dyn.table, ids)
    ensures RepliesToRequest(s, Drain(cfg, s, envs))
    decreases |envs|
  {
    if envs != [] && s.fault == NoFault && s.fsm.events != [] {
      var s1 := Dispatch(cfg, s, envs[0]);
      TurnKeepsIds(cfg, s, envs[0], ids);
      DrainKeepsIds(cfg, s1, env, envs[1..], ids);
      RepliesChain(cfg, s, s1, Drain(cfg, s1, envs[1..]));
    }
  }

  /** After the first dispatch only a `check_new_command` can be queued. */
  lemma RepliesChain(cfg: Config, s: Master, s1: Master, s2: Master)
    requires RepliesToRequest(s, s1) && RepliesToRequest(s1, s2)
    requires Inv(cfg, s) && s.fsm.events != [] && s.fault == NoFault
    requires Emits(cfg, s, s1) && (s1.fault != NoFault || s1.fsm.events == [] || Pending(s1))
    requires s1.fault != NoFault || s1.fsm.events == [] ==> s2 == s1
    ensures RepliesToRequest(s, s2)
  {
  }

  // ---------------------------------------------------------------- assumptions

  /** Everyone with a negotiated address is among the hearers. */
  ghost predicate HoldersHear(cs: Clients, hearers: set<UniqueId>) {
    forall id :: id in cs && cs[id].dynamic && cs[id].addr != NULL_ADDR ==> id in hearers
  }

  /** What the agreement asks of a step. Everyone with a negotiated address hears a starting master. The
      master does not give up, for the fourth time in a row, on an address that its client has or is
      about to be told. Uninitialised static lines do not happen to carry a client's id, and a node
      that joins with a configured address has one of its own. */
  ghost predicate Careful(cfg: Config, n: Net, st: Bus.Step) {
    match st
    case Deliver(hearers, _, _, _) =>
      var i := NextOnWire(n.pending);
      i < |n.pending| && n.pending[i].msg == MasterStarted ==> HoldersHear(n.clients, hearers)
    case Timer(k, envs) => k.FsmTimer? ==> SparesHolders(n, envs.first)
    case Restart(uids, _) => forall a: int :: cfg.IsStatic(a) ==> uids(a) !in n.clients
    case PowerOn(id, addr) => JoinsApart(cfg, n, id, addr)
    case _ => true
  }

  /** The client has the address, or is about to be told it. */
  ghost predicate Claims(n: Net, id: UniqueId, a: Address) {
    && id in n.clients && n.clients[id].dynamic
    && (n.clients[id].addr == a || AddressReply(a, id) in MasterSays(n.pending))
  }

  ghost predicate SparesHolders(n: Net, env: Env) {
    forall id: UniqueId, a: Address ::
      Claims(n, id, a) && Holds(n.master.dyn.table, id, a) ==> !FourthFailure(n.master, env, a)
  }

  ghost predicate JoinsApart(cfg: Config, n: Net, id: UniqueId, addr: Address) {
    && StaticIdsApart(n.master.dyn.table, {id})
    && (addr != NULL_ADDR ==> !cfg.IsDynamic(addr))
    && (addr != NULL_ADDR ==> forall x :: x in n.clients && !n.clients[x].dynamic ==> n.clients[x].addr != addr)
  }

  /** No claimed line disappears. */
  ghost predicate NoLiveRetirement(n: Net, m': Master) {
    forall id: UniqueId, a: Address ::
      Claims(n, id, a) && Holds(n.master.dyn.table, id, a) ==> Holds(m'.dyn.table, id, a)
  }

  /** A timer keeps every claimed line if and only if it is not the fourth failure in a row of one. */
  lemma TimerSparesExactly(cfg: Config, n: Net, k: Stimulus, envs: Envs)
    requires Inv(cfg, n.master) && Quiet(n.master) && Enabled(n.master, k)
    requires |envs.turns| == 3 && Steady(envs.turns, envs.first)
    ensures NoLiveRetirement(n, React(cfg, n.master, k, envs.first, envs.turns))
            <==> (k.FsmTimer? ==> SparesHolders(n, envs.first))
  {
    forall id: UniqueId, a: Address | Claims(n, id, a) && Holds(n.master.dyn.table, id, a)
      ensures Holds(React(cfg, n.master, k, envs.first, envs.turns).dyn.table, id, a)
              <==> !(k.FsmTimer? && FourthFailure(n.master, envs.first, a))
    {
      RetiresExactly(cfg, n.master, k, envs.first, envs.turns, id, a);
    }
  }

  /** No received packet makes the master retire a line. */
  lemma HearingSpares(cfg: Config, n: Net, msg: Msg, envs: Envs)
    requires Inv(cfg, n.master) && |envs.turns| == 3 && Steady(envs.turns, envs.first)
    ensures NoLiveRetirement(n, MasterHearsMsg(cfg, n.master, msg, envs))
  {
    if Quiet(n.master) && EventOf(msg).Some? {
      TimerSparesExactly(cfg, n, Packet(EventOf(msg).value), envs);
    }
  }

  /** The clients agree with the empty-handed table of a new master, once its start has been delivered,
      if and only if everyone with a negotiated address heard it. */
  lemma StartHeardExactly(t: seq<Line>, cs: Clients, hearers: set<UniqueId>)
    requires forall i :: 0 <= i < |t| ==> !t[i].dynamic
    ensures Agree(t, HearAll(cs, hearers, MasterStarted)) <==> HoldersHear(cs, hearers)
  {
    var cs' := HearAll(cs, hearers, MasterStarted);
    forall id | id in cs && cs[id].dynamic && cs[id].addr != NULL_ADDR
      ensures id in hearers <==> cs'[id].addr == NULL_ADDR {}
  }

  // ---------------------------------------------------------------- the invariant

  /** Configured addresses are real, lie outside the negotiated range, and differ. */
  ghost predicate StaticsApart(cfg: Config, cs: Clients) {
    && (forall x :: x in cs && !cs[x].dynamic ==> cs[x].addr != NULL_ADDR && !cfg.IsDynamic(cs[x].addr))
    && (forall x, y :: x in cs && y in cs && x != y && !cs[x].dynamic && !cs[y].dynamic ==> cs[x].addr != cs[y].addr)
  }

  /** No two nodes share an address, and negotiated addresses lie in the negotiated range. */
  ghost predicate UniqueAddresses(cfg: Config, cs: Clients) {
    && (forall x, y :: x in cs && y in cs && x != y && cs[x].addr != NULL_ADDR ==> cs[x].addr != cs[y].addr)
    && (forall x :: x in cs && cs[x].dynamic && cs[x].addr != NULL_ADDR ==> cfg.IsDynamic(cs[x].addr))
  }

  /** Every negotiated address is on a line with its holder's id. */
  ghost predicate Agree(t: seq<Line>, cs: Clients) {
    forall id :: id in cs && cs[id].dynamic && cs[id].addr != NULL_ADDR ==> Holds(t, id, cs[id].addr)
  }

  /** What a client can have under way. Only a client that negotiates asks for an address. */
  ghost predicate ClientMsg(cs: Clients, m: Msg) {
    && (IsData(m) || m.ReturnToken? || m.AddressRequest?)
    && (m.AddressRequest? && m.id in cs ==> cs[m.id].dynamic)
  }

  ghost predicate ClientsSay(p: seq<Entry>, cs: Clients) {
    forall i :: 0 <= i < |p| && p[i].sender.FromClient? ==> ClientMsg(cs, p[i].msg)
  }

  /** The master's packets under way, in order of delivery, against the tables they come from: each
      start-up message ends the time of one table, and every reply names a line of the table of
      its time. The last table is that of the running master. */
  ghost predicate Told(ms: seq<Msg>, ts: seq<seq<Line>>, cs: Clients)
    decreases |ms|
  {
    |ts| >= 1 &&
    if ms == [] then |ts| == 1
    else if ms[0].MasterStarted? then Told(ms[1..], ts[1..], cs)
    else MayTell(ts[0], cs, ms[0]) && Told(ms[1..], ts, cs)
  }

  /** A reply names a line with its receiver's id. */
  ghost predicate MayTell(t: seq<Line>, cs: Clients, m: Msg) {
    && !m.AddressRequest?
    && (m.AddressReply? && m.id in cs ==> cs[m.id].dynamic && Holds(t, m.id, m.given))
  }

  ghost predicate TablesOk(cfg: Config, ts: seq<seq<Line>>) {
    forall k :: 0 <= k < |ts| ==> TableOk(cfg, ts[k])
  }

  predicate MasterOk(m: Master) { m.fault != NoFault || Quiet(m) }

  /** The clients agree with the oldest table that is still being spoken of. */
  ghost predicate AgreeInv(cfg: Config, n: Net, ts: seq<seq<Line>>) {
    && Inv(cfg, n.master) && MasterOk(n.master)
    && QueuesHoldData(n.clients) && StaticsApart(cfg, n.clients) && ClientsSay(n.pending, n.clients)
    && Told(MasterSays(n.pending), ts, n.clients) && TablesOk(cfg, ts)
    && ts[|ts| - 1] == n.master.dyn.table && StaticIdsApart(n.master.dyn.table, n.clients.Keys)
    && Agree(ts[0], n.clients)
  }

  // ---------------------------------------------------------------- what was told stays true

  predicate SameAddresses(cs: Clients, cs': Clients) {
    && cs'.Keys <= cs.Keys
    && forall id :: id in cs' ==> cs'[id].addr == cs[id].addr && cs'[id].dynamic == cs[id].dynamic
  }

  predicate SameKinds(cs: Clients, cs': Clients) {
    cs'.Keys <= cs.Keys && forall id :: id in cs' ==> cs'[id].dynamic == cs[id].dynamic
  }

  lemma {:induction false} ToldClients(ms: seq<Msg>, ts: seq<seq<Line>>, cs: Clients, cs': Clients)
    requires Told(ms, ts, cs) && SameKinds(cs, cs')
    ensures Told(ms, ts, cs')
    decreases |ms|
  {
    if ms != [] { ToldClients(ms[1..], if ms[0].MasterStarted? then ts[1..] else ts, cs, cs'); }
  }

  lemma {:induction false} ToldMore(ms: seq<Msg>, ts: seq<seq<Line>>, cs: Clients, m: Msg)
    requires Told(ms, ts, cs) && !m.MasterStarted? && MayTell(ts[|ts| - 1], cs, m)
    ensures Told(ms + [m], ts, cs)
    decreases |ms|
  {
    if ms == [] {
      assert (ms + [m])[1..] == [];
    } else {
      assert (ms + [m])[1..] == ms[1..] + [m];
      ToldMore(ms[1..], if ms[0].MasterStarted? then ts[1..] else ts, cs, m);
    }
  }

  lemma {:induction false} ToldStart(ms: seq<Msg>, ts: seq<seq<Line>>, cs: Clients, t: seq<Line>)
    requires Told(ms, ts, cs)
    ensures Told(ms + [MasterStarted], ts + [t], cs)
    decreases |ms|
  {
    if ms == [] {
      assert (ms + [MasterStarted])[1..] == [] && (ts + [t])[1..] == [t];
    } else {
      assert (ms + [MasterStarted])[1..] == ms[1..] + [MasterStarted] && (ts + [t])[1..] == ts[1..] + [t];
      ToldStart(ms[1..], if ms[0].MasterStarted? then ts[1..] else ts, cs, t);
    }
  }

  function NewLast(ts: seq<seq<Line>>, t: seq<Line>): seq<seq<Line>>
    requires ts != []
  {
    ts[..|ts| - 1] + [t]
  }

  /** The running master's table changes, but keeps the lines that its replies under way name. */
  lemma {:induction false} ToldTable(ms: seq<Msg>, ts: seq<seq<Line>>, cs: Clients, t: seq<Line>)
    requires Told(ms, ts, cs)
    requires forall id: UniqueId, a: Address ::
               id in cs && AddressReply(a, id) in ms && Holds(ts[|ts| - 1], id, a) ==> Holds(t, id, a)
    ensures Told(ms, NewLast(ts, t), cs)
    decreases |ms|
  {
    if ms != [] {
      forall id: UniqueId, a: Address | AddressReply(a, id) in ms[1..] ensures AddressReply(a, id) in ms {}
      if ms[0].MasterStarted? {
        ToldTable(ms[1..], ts[1..], cs, t);
        assert NewLast(ts, t)[1..] == NewLast(ts[1..], t);
      } else {
        if ms[0].AddressReply? { assert AddressReply(ms[0].given, ms[0].id) == ms[0]; }
        ToldTable(ms[1..], ts, cs, t);
      }
    }
  }

  /** With no start-up message under way, there is only the running master's table. */
  lemma {:induction false} ToldOneTable(ms: seq<Msg>, ts: seq<seq<Line>>, cs: Clients)
    requires Told(ms, ts, cs) && MasterStarted !in ms
    ensures |ts| == 1
    decreases |ms|
  {
    if ms != [] {
      assert ms[0] in ms;
      ToldOneTable(ms[1..], ts, cs);
    }
  }

  // ---------------------------------------------------------------- the master moves

  /** Agreement with one table makes addresses unique. */
  lemma AgreementIsUnique(cfg: Config, t: seq<Line>, cs: Clients)
    requires cfg.Valid() && TableOk(cfg, t) && StaticsApart(cfg, cs) && Agree(t, cs)
    ensures UniqueAddresses(cfg, cs)
  {
    forall x, y | x in cs && y in cs && x != y && cs[x].addr != NULL_ADDR && cs[x].dynamic && cs[y].dynamic
      ensures cs[x].addr != cs[y].addr
    {
      if cs[y].addr != NULL_ADDR { HoldersDiffer(cfg, t, x, cs[x].addr, y, cs[y].addr); }
    }
    forall x | x in cs && cs[x].dynamic && cs[x].addr != NULL_ADDR ensures cfg.IsDynamic(cs[x].addr) {
      assert Holds(t, x, cs[x].addr);
    }
  }

  lemma HoldersDiffer(cfg: Config, t: seq<Line>, x: UniqueId, a: Address, y: UniqueId, b: Address)
    requires TableOk(cfg, t) && x != y && Holds(t, x, a) && Holds(t, y, b)
    ensures a != b
  {
    var i :| 0 <= i < |t| && t[i].dynamic && t[i].uid == x && t[i].addr == a;
    var j :| 0 <= j < |t| && t[j].dynamic && t[j].uid == y && t[j].addr == b;
    assert i != j;
  }

  /** The master changes its table, and sends nothing yet. */
  lemma MasterMoves(cfg: Config, n: Net, ts: seq<seq<Line>>, m': Master)
    requires AgreeInv(cfg, n, ts) && Inv(cfg, m') && MasterOk(m')
    requires StaticIdsApart(m'.dyn.table, n.clients.Keys) && NoLiveRetirement(n, m')
    ensures AgreeInv(cfg, n.(master := m'), NewLast(ts, m'.dyn.table))
  {
    var ms, t, cs := MasterSays(n.pending), m'.dyn.table, n.clients;
    forall id: UniqueId, a: Address | id in cs && AddressReply(a, id) in ms && Holds(ts[|ts| - 1], id, a)
      ensures Holds(t, id, a)
    {
      ReplyIsForDynamic(ms, ts, cs, a, id);
      assert Claims(n, id, a);
    }
    ToldTable(ms, ts, cs, t);
    InvTable(cfg, m');
    if |ts| == 1 { AgreeMoves(n, ts[0], m'); }
  }

  lemma AgreeMoves(n: Net, t: seq<Line>, m': Master)
    requires Agree(t, n.clients) && t == n.master.dyn.table && NoLiveRetirement(n, m')
    ensures Agree(m'.dyn.table, n.clients)
  {
    forall id | id in n.clients && n.clients[id].dynamic && n.clients[id].addr != NULL_ADDR
      ensures Holds(m'.dyn.table, id, n.clients[id].addr)
    {
      assert Claims(n, id, n.clients[id].addr);
    }
  }

  lemma {:induction false} ReplyIsForDynamic(ms: seq<Msg>, ts: seq<seq<Line>>, cs: Clients, a: Address, id: UniqueId)
    requires Told(ms, ts, cs) && AddressReply(a, id) in ms && id in cs
    ensures cs[id].dynamic
    decreases |ms|
  {
    if ms[0] != AddressReply(a, id) {
      ReplyIsForDynamic(ms[1..], if ms[0].MasterStarted? then ts[1..] else ts, cs, a, id);
    }
  }

  /** Clients that keep their addresses and kinds. */
  lemma ClientsStay(cfg: Config, n: Net, ts: seq<seq<Line>>, cs: Clients)
    requires AgreeInv(cfg, n, ts) && SameAddresses(n.clients, cs) && QueuesHoldData(cs)
    ensures AgreeInv(cfg, n.(clients := cs), ts)
  {
    ToldClients(MasterSays(n.pending), ts, n.clients, cs);
  }

  /** One more packet of the master. A second start-up message would only end the table's time. */
  lemma MasterSends(cfg: Config, n: Net, ts: seq<seq<Line>>, m: Msg) returns (ts': seq<seq<Line>>)
    requires AgreeInv(cfg, n, ts) && (m.MasterStarted? || MayTell(n.master.dyn.table, n.clients, m))
    ensures AgreeInv(cfg, n.(pending := n.pending + [Entry(FromMaster, false, m)]), ts')
  {
    EmitAppends(n.pending, m);
    if m.MasterStarted? {
      ToldStart(MasterSays(n.pending), ts, n.clients, n.master.dyn.table);
      ts' := ts + [n.master.dyn.table];
    } else {
      ToldMore(MasterSays(n.pending), ts, n.clients, m);
      ts' := ts;
    }
  }

  lemma PairHolds(t: seq<Line>, a: Address, id: UniqueId, ids: set<UniqueId>)
    requires HasPair(t, a, id) && StaticIdsApart(t, ids) && id in ids
    ensures Holds(t, id, a)
  {
  }

  /** What one transmission of the master puts on the bus. */
  lemma EmitOneSays(cfg: Config, own: UniqueId, cs: Clients, tx: Tx, m: Master)
    requires QueuesHoldData(cs) && TxMatches(cfg, tx, m) && StaticIdsApart(m.dyn.table, cs.Keys)
    requires tx.TxReply? && tx.id in cs ==> cs[tx.id].dynamic
    ensures var e := EmitOne(own, cs, tx);
            && SameAddresses(cs, e.clients) && e.clients.Keys == cs.Keys && QueuesHoldData(e.clients)
            && |e.entries| <= 1
            && (e.entries != [] ==>
                  && e.entries == [Entry(FromMaster, false, e.entries[0].msg)]
                  && (e.entries[0].msg.MasterStarted? || MayTell(m.dyn.table, e.clients, e.entries[0].msg)))
  {
    if tx.TxReply? && tx.id in cs { PairHolds(m.dyn.table, tx.addr, tx.id, cs.Keys); }
  }

  /** A reply goes to a client that negotiates. */
  ghost predicate TellsDynamics(cs: Clients, m: Master, m': Master) {
    forall a: Address, id: UniqueId :: m'.sent == m.sent + [TxReply(a, id)] && id in cs ==> cs[id].dynamic
  }

  /** A reaction of the master, with what it sends. */
  lemma ActsAgree(cfg: Config, own: UniqueId, n: Net, ts: seq<seq<Line>>, m': Master) returns (ts': seq<seq<Line>>)
    requires AgreeInv(cfg, n, ts) && Inv(cfg, m') && MasterOk(m') && Emits(cfg, n.master, m')
    requires StaticIdsApart(m'.dyn.table, n.clients.Keys) && NoLiveRetirement(n, m')
    requires TellsDynamics(n.clients, n.master, m')
    ensures AgreeInv(cfg, MasterActs(own, n, m'), ts')
  {
    var txs := NewTx(n.master, m');
    NewTxIsAtMostOne(cfg, n.master, m');
    EmitSingle(own, n.clients, txs);
    MasterMoves(cfg, n, ts, m');
    ts' := NewLast(ts, m'.dyn.table);
    var n1 := n.(master := m');
    if txs == [] {
      assert MasterActs(own, n, m') == n1 by { assert n.pending + [] == n.pending; }
    } else {
      ts' := EmissionAgrees(cfg, own, n1, ts', txs[0]);
    }
  }

  lemma EmissionAgrees(cfg: Config, own: UniqueId, n: Net, ts: seq<seq<Line>>, tx: Tx) returns (ts': seq<seq<Line>>)
    requires AgreeInv(cfg, n, ts) && TxMatches(cfg, tx, n.master) && StaticIdsApart(n.master.dyn.table, n.clients.Keys)
    requires tx.TxReply? && tx.id in n.clients ==> n.clients[tx.id].dynamic
    ensures var e := EmitOne(own, n.clients, tx);
            AgreeInv(cfg, Net(n.master, e.clients, n.pending + e.entries), ts')
  {
    var e := EmitOne(own, n.clients, tx);
    EmitOneSays(cfg, own, n.clients, tx, n.master);
    ClientsStay(cfg, n, ts, e.clients);
    if e.entries == [] {
      assert n.pending + e.entries == n.pending;
      ts' := ts;
    } else {
      ts' := MasterSends(cfg, n.(clients := e.clients), ts, e.entries[0].msg);
    }
  }

  /** The reaction of a master keeps static ids apart, and a reply goes to the id that asked. */
  lemma ReactionIds(cfg: Config, m: Master, k: Stimulus, envs: Envs, ids: set<UniqueId>)
    requires Inv(cfg, m) && Quiet(m) && Enabled(m, k) && StaticIdsApart(m.dyn.table, ids)
    requires |envs.turns| == 3 && Steady(envs.turns, envs.first)
    ensures var m' := React(cfg, m, k, envs.first, envs.turns);
            && StaticIdsApart(m'.dyn.table, ids)
            && (forall a: Address, id: UniqueId ::
                  m'.sent == m.sent + [TxReply(a, id)] ==> k == Packet(RxAddressRequest(id)))
  {
    var s := Stimulate(m, k, envs.first);
    StimulusKeeps(cfg, m, k, envs.first);
    assert s.dyn.table == m.dyn.table by {
      if k.DelayTimer? { DelayKeeps(cfg, m, envs.first); }
    }
    assert s.fsm.events != [] && s.fsm.events[0].RxAddressRequest? ==> k.Packet? && s.fsm.events == [k.event] by {
      if k.DelayTimer? { DelayKeeps(cfg, m, envs.first); }
    }
    DrainKeepsIds(cfg, s, envs.first, envs.turns, ids);
  }

  // ---------------------------------------------------------------- deliveries

  /** The clients' side of a delivery: one packet less under way, and their answers. */
  function AfterHearing(n: Net, st: Bus.Step): Net
    requires st.Deliver? && NextOnWire(n.pending) < |n.pending|
    requires RepliersInOrder(n.clients, st.hearers, n.pending[NextOnWire(n.pending)].msg, st.order)
  {
    var i := NextOnWire(n.pending);
    var msg := n.pending[i].msg;
    Net(n.master, HearAll(n.clients, st.hearers, msg),
        n.pending[..i] + n.pending[i + 1..] + ReplyEntries(n.clients, st.hearers, msg, st.order))
  }

  lemma AnswerSays(cfg: Config, cs: Clients, hearers: set<UniqueId>, msg: Msg, id: UniqueId)
    requires StaticsApart(cfg, cs) && QueuesHoldData(cs) && Replies(cs, hearers, msg, id)
    ensures ClientMsg(HearAll(cs, hearers, msg), Hear(id, cs[id], msg).reply.value)
  {
    WhoReplies(cs, hearers, msg, id);
  }

  lemma RestSays(p: seq<Entry>, i: nat, cs: Clients, cs': Clients)
    requires ClientsSay(p, cs) && i < |p| && SameKinds(cs, cs')
    ensures ClientsSay(p[..i] + p[i + 1..], cs')
  {
    var q := p[..i] + p[i + 1..];
    forall k | 0 <= k < |q| && q[k].sender.FromClient? ensures ClientMsg(cs', q[k].msg) {
      assert q[k] == p[if k < i then k else k + 1];
    }
  }

  lemma AnswersSay(cfg: Config, cs: Clients, hearers: set<UniqueId>, msg: Msg, order: seq<UniqueId>)
    requires StaticsApart(cfg, cs) && QueuesHoldData(cs) && RepliersInOrder(cs, hearers, msg, order)
    ensures ClientsSay(ReplyEntries(cs, hearers, msg, order), HearAll(cs, hearers, msg))
  {
    forall k | 0 <= k < |order|
      ensures ClientMsg(HearAll(cs, hearers, msg), ReplyEntries(cs, hearers, msg, order)[k].msg)
    {
      assert Replies(cs, hearers, msg, order[k]);
      AnswerSays(cfg, cs, hearers, msg, order[k]);
    }
  }

  lemma SayTogether(p: seq<Entry>, q: seq<Entry>, cs: Clients)
    requires ClientsSay(p, cs) && ClientsSay(q, cs)
    ensures ClientsSay(p + q, cs)
  {
  }

  lemma HearingKeepsKinds(cs: Clients, hearers: set<UniqueId>, msg: Msg)
    ensures SameKinds(cs, HearAll(cs, hearers, msg))
  {
  }

  lemma HeardSays(cfg: Config, n: Net, st: Bus.Step)
    requires StaticsApart(cfg, n.clients) && QueuesHoldData(n.clients) && ClientsSay(n.pending, n.clients)
    requires st.Deliver? && NextOnWire(n.pending) < |n.pending|
    requires RepliersInOrder(n.clients, st.hearers, n.pending[NextOnWire(n.pending)].msg, st.order)
    ensures ClientsSay(AfterHearing(n, st).pending, AfterHearing(n, st).clients)
    ensures QueuesHoldData(AfterHearing(n, st).clients)
  {
    var i, cs := NextOnWire(n.pending), AfterHearing(n, st).clients;
    var msg := n.pending[i].msg;
    HearingKeepsData(n.clients, st.hearers, msg);
    HearingKeepsKinds(n.clients, st.hearers, msg);
    RestSays(n.pending, i, n.clients, cs);
    AnswersSay(cfg, n.clients, st.hearers, msg, st.order);
    SayTogether(n.pending[..i] + n.pending[i + 1..], ReplyEntries(n.clients, st.hearers, msg, st.order), cs);
  }

  /** Who is where after a message that may be said against the table `t`. */
  lemma HeardStands(cfg: Config, t: seq<Line>, cs: Clients, hearers: set<UniqueId>, msg: Msg)
    requires Agree(t, cs) && StaticsApart(cfg, cs)
    requires msg.AddressReply? ==> MayTell(t, cs, msg)
    ensures Agree(t, HearAll(cs, hearers, msg)) && StaticsApart(cfg, HearAll(cs, hearers, msg))
  {
  }

  /** A start heard by all holders leaves nobody with a negotiated address. */
  lemma StartStands(cfg: Config, t: seq<Line>, cs: Clients, hearers: set<UniqueId>)
    requires StaticsApart(cfg, cs) && HoldersHear(cs, hearers)
    ensures Agree(t, HearAll(cs, hearers, MasterStarted)) && StaticsApart(cfg, HearAll(cs, hearers, MasterStarted))
  {
  }

  /** Whatever the clients hear: they agree with the oldest table that is still spoken of. */
  lemma HeardTells(cfg: Config, n: Net, ts: seq<seq<Line>>, hearers: set<UniqueId>, msg: Msg, fromMaster: bool,
                   rest: seq<Msg>)
    returns (ts': seq<seq<Line>>)
    requires Told(if fromMaster then [msg] + rest else rest, ts, n.clients) && TablesOk(cfg, ts)
    requires Agree(ts[0], n.clients) && StaticsApart(cfg, n.clients)
    requires !fromMaster ==> ClientMsg(n.clients, msg)
    requires msg == MasterStarted ==> HoldersHear(n.clients, hearers)
    ensures var cs := HearAll(n.clients, hearers, msg);
            && |ts'| >= 1 && ts'[|ts'| - 1] == ts[|ts| - 1]
            && Told(rest, ts', cs) && TablesOk(cfg, ts') && Agree(ts'[0], cs) && StaticsApart(cfg, cs)
  {
    assert ([msg] + rest)[1..] == rest;
    ts' := if fromMaster && msg.MasterStarted? then ts[1..] else ts;
    HearingKeepsKinds(n.clients, hearers, msg);
    ToldClients(rest, ts', n.clients, HearAll(n.clients, hearers, msg));
    if msg.MasterStarted? {
      StartStands(cfg, ts'[0], n.clients, hearers);
    } else {
      HeardStands(cfg, ts[0], n.clients, hearers, msg);
    }
  }

  /** The clients' side of a delivery keeps the agreement. */
  lemma HeardAgrees(cfg: Config, n: Net, ts: seq<seq<Line>>, st: Bus.Step) returns (ts': seq<seq<Line>>)
    requires AgreeInv(cfg, n, ts) && st.Deliver? && NextOnWire(n.pending) < |n.pending|
    requires var msg := n.pending[NextOnWire(n.pending)].msg;
             && RepliersInOrder(n.clients, st.hearers, msg, st.order)
             && (msg == MasterStarted ==> HoldersHear(n.clients, st.hearers))
    ensures AgreeInv(cfg, AfterHearing(n, st), ts')
  {
    var e, n1 := n.pending[NextOnWire(n.pending)], AfterHearing(n, st);
    HeardSays(cfg, n, st);
    DeliverTakesFirst(n.pending, ReplyEntries(n.clients, st.hearers, e.msg, st.order));
    ts' := HeardTells(cfg, n, ts, st.hearers, e.msg, e.sender == FromMaster, MasterSays(n1.pending));
  }

  lemma HearingTells(cfg: Config, m: Master, msg: Msg, envs: Envs, cs: Clients)
    requires Inv(cfg, m) && MasterOk(m) && StaticIdsApart(m.dyn.table, cs.Keys)
    requires |envs.turns| == 3 && Steady(envs.turns, envs.first)
    requires msg.AddressRequest? && msg.id in cs ==> cs[msg.id].dynamic
    ensures var m' := MasterHearsMsg(cfg, m, msg, envs);
            StaticIdsApart(m'.dyn.table, cs.Keys) && TellsDynamics(cs, m, m')
  {
    if Quiet(m) && EventOf(msg).Some? {
      ReactionIds(cfg, m, Packet(EventOf(msg).value), envs, cs.Keys);
    }
  }

  /** The master's side: it hears the message too. */
  lemma MasterHearsAgrees(cfg: Config, own: UniqueId, n: Net, ts: seq<seq<Line>>, msg: Msg, envs: Envs)
    returns (ts': seq<seq<Line>>)
    requires AgreeInv(cfg, n, ts) && |envs.turns| == 3 && Steady(envs.turns, envs.first)
    requires msg.AddressRequest? && msg.id in n.clients ==> n.clients[msg.id].dynamic
    ensures AgreeInv(cfg, MasterActs(own, n, MasterHearsMsg(cfg, n.master, msg, envs)), ts')
  {
    MasterHearsKeeps(cfg, n.master, msg, envs);
    HearingTells(cfg, n.master, msg, envs, n.clients);
    HearingSpares(cfg, n, msg, envs);
    ts' := ActsAgree(cfg, own, n, ts, MasterHearsMsg(cfg, n.master, msg, envs));
  }

  /** A request under way is from a client that negotiates. */
  lemma RequesterIsDynamic(n: Net, ts: seq<seq<Line>>, i: nat)
    requires i < |n.pending| && NextOnWire(n.pending) == i
    requires ClientsSay(n.pending, n.clients) && Told(MasterSays(n.pending), ts, n.clients)
    ensures var m := n.pending[i].msg;
            && (m.AddressRequest? && m.id in n.clients ==> n.clients[m.id].dynamic)
            && (m.AddressReply? ==> n.pending[i].sender == FromMaster)
  {
    DeliverTakesFirst(n.pending, []);
  }

  lemma RequesterStaysDynamic(cfg: Config, own: UniqueId, n: Net, ts: seq<seq<Line>>, st: Bus.Step)
    requires AgreeInv(cfg, n, ts) && st.Deliver? && Possible(own, n, st)
    ensures var n1, m := AfterHearing(n, st), n.pending[NextOnWire(n.pending)].msg;
            m.AddressRequest? && m.id in n1.clients ==> n1.clients[m.id].dynamic
  {
    RequesterIsDynamic(n, ts, NextOnWire(n.pending));
  }

  lemma DeliverAgrees(cfg: Config, own: UniqueId, n: Net, ts: seq<seq<Line>>, st: Bus.Step)
    returns (ts': seq<seq<Line>>)
    requires AgreeInv(cfg, n, ts) && st.Deliver? && Possible(own, n, st) && Careful(cfg, n, st)
    ensures AgreeInv(cfg, DeliverTo(cfg, own, n, st), ts')
  {
    var n1, m := AfterHearing(n, st), n.pending[NextOnWire(n.pending)].msg;
    ts' := HeardAgrees(cfg, n, ts, st);
    if st.masterHears {
      RequesterStaysDynamic(cfg, own, n, ts, st);
      ts' := MasterHearsAgrees(cfg, own, n1, ts', m, st.envs);
    }
  }

  // ---------------------------------------------------------------- the other steps

  lemma TimerAgrees(cfg: Config, own: UniqueId, n: Net, ts: seq<seq<Line>>, st: Bus.Step) returns (ts': seq<seq<Line>>)
    requires AgreeInv(cfg, n, ts) && st.Timer? && Possible(own, n, st) && Careful(cfg, n, st)
    ensures AgreeInv(cfg, After(cfg, own, n, st), ts')
  {
    BoundedReaction(cfg, n.master, st.k, st.envs.first, st.envs.turns);
    TimerSparesExactly(cfg, n, st.k, st.envs);
    ReactionIds(cfg, n.master, st.k, st.envs, n.clients.Keys);
    ts' := ActsAgree(cfg, own, n, ts, React(cfg, n.master, st.k, st.envs.first, st.envs.turns));
  }

  /** A restart at any time: the old master's packets are still under way, and the clients keep to its
      table until they hear the new one start. */
  lemma RestartAgrees(cfg: Config, own: UniqueId, n: Net, ts: seq<seq<Line>>, st: Bus.Step)
    returns (ts': seq<seq<Line>>)
    requires AgreeInv(cfg, n, ts) && st.Restart? && Possible(own, n, st) && Careful(cfg, n, st)
    ensures AgreeInv(cfg, After(cfg, own, n, st), ts')
  {
    var m := Booted(cfg, st.uids, st.envs);
    BootedWaits(cfg, st.uids, st.envs);
    EmitSingle(own, n.clients, [TxStart]);
    EmitAppends(n.pending, MasterStarted);
    InvTable(cfg, m);
    assert StaticIdsApart(m.dyn.table, n.clients.Keys);
    ToldStart(MasterSays(n.pending), ts, n.clients, m.dyn.table);
    ts' := ts + [m.dyn.table];
  }

  lemma TransmitAgrees(cfg: Config, n: Net, ts: seq<seq<Line>>, i: nat)
    requires AgreeInv(cfg, n, ts) && CanTransmit(n.pending, i)
    ensures AgreeInv(cfg, n.(pending := n.pending[..i] + n.pending[i + 1..] + [n.pending[i].(onWire := true)]), ts)
  {
    var p := n.pending[..i] + n.pending[i + 1..] + [n.pending[i].(onWire := true)];
    TransmitKeepsOrder(n.pending, i);
    forall k | 0 <= k < |p| && p[k].sender.FromClient? ensures ClientMsg(n.clients, p[k].msg) {
      var j := if k < i then k else if k < |p| - 1 then k + 1 else i;
      assert p[k].msg == n.pending[j].msg && p[k].sender == n.pending[j].sender;
    }
  }

  lemma {:induction false} WithoutSays(p: seq<Entry>, cs: Clients, id: UniqueId)
    requires ClientsSay(p, cs)
    ensures ClientsSay(Without(p, id), cs)
    decreases |p|
  {
    if p != [] {
      assert ClientsSay(p[1..], cs);
      WithoutSays(p[1..], cs, id);
    }
  }

  lemma PowerOffAgrees(cfg: Config, n: Net, ts: seq<seq<Line>>, id: UniqueId)
    requires AgreeInv(cfg, n, ts)
    ensures AgreeInv(cfg, n.(clients := n.clients - {id}, pending := Without(n.pending, id)), ts)
  {
    WithoutKeepsOrder(n.pending, id, true);
    WithoutKeepsOrder(n.pending, id, false);
    WithoutSays(n.pending, n.clients, id);
    ClientsStay(cfg, n.(pending := Without(n.pending, id)), ts, n.clients - {id});
  }

  lemma {:induction false} ToldJoins(ms: seq<Msg>, ts: seq<seq<Line>>, cs: Clients, id: UniqueId, c: Client)
    requires Told(ms, ts, cs) && forall m :: m in ms ==> !Names(m, id)
    ensures Told(ms, ts, cs[id := c])
    decreases |ms|
  {
    if ms != [] {
      assert ms[0] in ms;
      ToldJoins(ms[1..], if ms[0].MasterStarted? then ts[1..] else ts, cs, id, c);
    }
  }

  /** A node joins: nothing that is under way is about it, and the master does not know it. */
  lemma PowerOnAgrees(cfg: Config, n: Net, ts: seq<seq<Line>>, id: UniqueId, addr: Address)
    requires AgreeInv(cfg, n, ts) && NewToBus(n, id) && JoinsApart(cfg, n, id, addr)
    ensures AgreeInv(cfg, n.(clients := n.clients[id := Client(addr, addr == NULL_ADDR, [])]), ts)
  {
    forall m | m in MasterSays(n.pending) ensures !Names(m, id) { SaidIsPending(n.pending, m); }
    ToldJoins(MasterSays(n.pending), ts, n.clients, id, Client(addr, addr == NULL_ADDR, []));
  }

  /** Steps that the master has no part in. */
  lemma ClientStepAgrees(cfg: Config, own: UniqueId, n: Net, ts: seq<seq<Line>>, st: Bus.Step)
    requires AgreeInv(cfg, n, ts) && Possible(own, n, st) && Careful(cfg, n, st)
    requires st.Transmit? || st.HostSend? || st.PowerOff? || st.PowerOn?
    ensures AgreeInv(cfg, After(cfg, own, n, st), ts)
  {
    match st
    case Transmit(i) => TransmitAgrees(cfg, n, ts, i);
    case HostSend(id, msg) => ClientsStay(cfg, n, ts, After(cfg, own, n, st).clients);
    case PowerOff(id) => PowerOffAgrees(cfg, n, ts, id);
    case PowerOn(id, addr) => PowerOnAgrees(cfg, n, ts, id, addr);
  }

  /** Every step of the whole bus keeps the agreement. */
  lemma AgreeStepKeeps(cfg: Config, own: UniqueId, n: Net, ts: seq<seq<Line>>, st: Bus.Step)
    returns (ts': seq<seq<Line>>)
    requires AgreeInv(cfg, n, ts) && Possible(own, n, st) && Careful(cfg, n, st)
    ensures AgreeInv(cfg, After(cfg, own, n, st), ts')
  {
    match st
    case Deliver(_, _, _, _) => ts' := DeliverAgrees(cfg, own, n, ts, st);
    case Timer(_, _) => ts' := TimerAgrees(cfg, own, n, ts, st);
    case Restart(_, _) => ts' := RestartAgrees(cfg, own, n, ts, st);
    case _ =>
      ClientStepAgrees(cfg, own, n, ts, st);
      ts' := ts;
  }

  // ---------------------------------------------------------------- runs

  /** Negotiated addresses from before the first start, as a table. */
  lemma PastTable(cfg: Config, cs: Clients, ids: set<UniqueId>) returns (t: seq<Line>)
    requires ids <= cs.Keys && UniqueAddresses(cfg, cs)
    ensures TableOk(cfg, t)
            && (forall i :: 0 <= i < |t| ==> t[i].dynamic && t[i].uid in ids && t[i].addr == cs[t[i].uid].addr)
    ensures forall id :: id in ids && cs[id].dynamic && cs[id].addr != NULL_ADDR ==> Holds(t, id, cs[id].addr)
    decreases |ids|
  {
    t := [];
    if ids != {} {
      var x :| x in ids;
      t := PastTable(cfg, cs, ids - {x});
      if cs[x].dynamic && cs[x].addr != NULL_ADDR {
        var t0 := t;
        t := t + [Line(LineState.Idle, 0, cs[x].addr, true, x)];
        assert t[|t0|].uid == x && forall i :: 0 <= i < |t0| ==> t[i] == t0[i];
        forall id | id in ids && cs[id].dynamic && cs[id].addr != NULL_ADDR ensures Holds(t, id, cs[id].addr) {
          if id != x {
            var i :| 0 <= i < |t0| && t0[i].dynamic && t0[i].uid == id && t0[i].addr == cs[id].addr;
            assert t[i] == t0[i];
          }
        }
      }
    }
  }

  lemma ToldAtStart(p: seq<Entry>, t: seq<Line>, t': seq<Line>, cs: Clients)
    requires p == [Entry(FromMaster, false, MasterStarted)]
    ensures Told(MasterSays(p), [t, t'], cs) && ClientsSay(p, cs)
  {
    EmitAppends([], MasterStarted);
    assert [] + [Entry(FromMaster, false, MasterStarted)] == p && MasterSays([]) == [];
    assert MasterSays(p) == [MasterStarted];
    assert [MasterStarted][1..] == [] && [t, t'][1..] == [t'];
  }

  lemma AgreeBegins(cfg: Config, n: Net) returns (ts: seq<seq<Line>>)
    requires Begins(cfg, n) && StaticsApart(cfg, n.clients) && UniqueAddresses(cfg, n.clients)
    requires StaticIdsApart(n.master.dyn.table, n.clients.Keys)
    ensures AgreeInv(cfg, n, ts)
  {
    BeginsInv(cfg, n);
    var t := PastTable(cfg, n.clients, n.clients.Keys);
    InvTable(cfg, n.master);
    ToldAtStart(n.pending, t, n.master.dyn.table, n.clients);
    ts := [t, n.master.dyn.table];
  }

  lemma {:induction false} AgreeRunKeeps(cfg: Config, own: UniqueId, trace: seq<Net>, steps: seq<Bus.Step>, i: nat)
    returns (ts: seq<seq<Line>>)
    requires IsNetRun(cfg, own, trace, steps) && AgreeStarts(cfg, trace[0]) && i < |trace|
    requires forall k :: 0 <= k < |steps| ==> Careful(cfg, trace[k], steps[k])
    ensures AgreeInv(cfg, trace[i], ts)
  {
    if i == 0 {
      ts := AgreeBegins(cfg, trace[0]);
    } else {
      ts := AgreeRunKeeps(cfg, own, trace, steps, i - 1);
      ts := AgreeStepKeeps(cfg, own, trace[i - 1], ts, steps[i - 1]);
    }
  }

  /** A bus whose master has just been started, with nodes that do not share addresses, and a master
      whose static lines do not happen to carry a client's id. */
  ghost predicate AgreeStarts(cfg: Config, n: Net) {
    && Begins(cfg, n) && StaticsApart(cfg, n.clients) && UniqueAddresses(cfg, n.clients)
    && StaticIdsApart(n.master.dyn.table, n.clients.Keys)
  }

  /** Address agreement across nodes. Over every careful run, across lost packets and lost replies,
      repeated requests, newcomers that answer one discovery together, timers that fire while
      packets are under way, and restarts of the master at any time: no two nodes share an address,
      and unless a start-up message is under way every negotiated address is on a line with its
      holder's id. */
  lemma AddressAgreement(cfg: Config, own: UniqueId, trace: seq<Net>, steps: seq<Bus.Step>, i: nat, x: UniqueId,
                         y: UniqueId)
    requires IsNetRun(cfg, own, trace, steps) && AgreeStarts(cfg, trace[0]) && i < |trace|
    requires forall k :: 0 <= k < |steps| ==> Careful(cfg, trace[k], steps[k])
    ensures var cs := trace[i].clients;
            && (x in cs && y in cs && x != y && cs[x].addr != NULL_ADDR ==> cs[x].addr != cs[y].addr)
            && (&& x in cs && cs[x].dynamic && cs[x].addr != NULL_ADDR
                && MasterStarted !in MasterSays(trace[i].pending) ==>
                  Holds(trace[i].master.dyn.table, x, cs[x].addr))
  {
    var ts := AgreeRunKeeps(cfg, own, trace, steps, i);
    AgreementIsUnique(cfg, ts[0], trace[i].clients);
    if MasterStarted !in MasterSays(trace[i].pending) {
      ToldOneTable(MasterSays(trace[i].pending), ts, trace[i].clients);
    }
  }
}
