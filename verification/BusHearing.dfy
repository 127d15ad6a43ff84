/** Agreement and arbitration together, on a bus where grants and their answers are heard: no line of a
    living client is ever retired. */
module BusHearing {
  import opened Bytes
  import opened Protocol
  import opened Scheduler
  import opened MasterModel
  import opened MasterInvariant
  import opened MasterSteps
  import opened MasterRuns
  import opened MasterTheorems
  import opened MasterHolders
  import opened Bus
  import opened BusArbitration
  import opened BusRounds
  import opened BusOrder
  import opened BusAgreement

  // ---------------------------------------------------------------- assumptions

  /** Order on the bus without assuming unique addresses: only discoveries are restricted. */
  ghost predicate Calm(n: Net, st: Bus.Step) {
    match st
    case Deliver(hearers, _, _, _) =>
      var i := NextOnWire(n.pending);
      i < |n.pending| && n.pending[i].msg.AddressDiscovery? ==> !Contention(n.clients, hearers, n.pending[i].msg)
    case _ => Orderly(n, st)
  }

  /** Everyone with a negotiated address hears a starting master and the grants to it, and the master hears
      the answers; ids and configured addresses of new masters and new nodes are their own. */
  ghost predicate Attentive(cfg: Config, n: Net, st: Bus.Step) {
    match st
    case Deliver(hearers, masterHears, _, _) =>
      var i := NextOnWire(n.pending);
      i < |n.pending| ==>
        var msg := n.pending[i].msg;
        && (msg == MasterStarted ==> HoldersHear(n.clients, hearers))
        && (forall id :: id in n.clients && n.clients[id].dynamic && msg == GrantToken(n.clients[id].addr)
                         ==> id in hearers)
        && (IsData(msg) || msg.ReturnToken? ==> masterHears)
    case Timer(_, _) => true
    case _ => Careful(cfg, n, st)
  }

  // ---------------------------------------------------------------- waiting for a client

  /** The master waits for the answer of a client other than its own. */
  predicate Awaits(cfg: Config, m: Master, a: Address) {
    m.fault == NoFault && m.fsm.state == WaitClientPacketDone && m.current == SendToken(a) && a != cfg.own
  }

  lemma {:induction false} DrainAwaitsNobody(cfg: Config, s: Master, envs: seq<Env>, a: Address)
    requires Inv(cfg, s) && s.fault == NoFault && (Pending(s) || (Resting(s) && s.fsm.events == []))
    ensures !Awaits(cfg, Drain(cfg, s, envs), a)
    decreases |envs|
  {
    if envs != [] && s.fsm.events != [] {
      var s' := Dispatch(cfg, s, envs[0]);
      DispatchKeeps(cfg, s, envs[0]);
      DecisionFits(cfg, s, envs[0]);
      if Decision(cfg, s, envs[0]).Finish? {
        FinishCloses(cfg, s, RxTokenNoPacket, envs[0]);
        DrainAwaitsNobody(cfg, s', envs[1..], a);
      } else {
        QuietDispatch(cfg, s, envs[0]);
        assert Drain(cfg, s', envs[1..]) == s';
      }
    }
  }

  /** Only the echo of a grant makes the master wait for a client; it then waits until that client is
      heard, or the timer runs out with no packet coming in. */
  lemma AwaitingIsKept(cfg: Config, m: Master, k: Stimulus, env: Env, envs: seq<Env>, a: Address)
    requires Inv(cfg, m) && Quiet(m) && Enabled(m, k) && |envs| == 3 && Steady(envs, env)
    requires Awaits(cfg, React(cfg, m, k, env, envs), a)
    ensures if m.fsm.state == WaitClientPacketDone
            then
              && Awaits(cfg, m, a) && k != Packet(RxClientPacket) && k != Packet(RxReturnToken)
              && (k.FsmTimer? ==> env.rxBusy)
            else k == Packet(RxGrantToken) && m.fsm.state == SendingToken && m.current == SendToken(a)
  {
    var s := Stimulate(m, k, env);
    StimulusKeeps(cfg, m, k, env);
    StimulusQueues(cfg, m, k, env);
    if k.DelayTimer? {
      DrainAwaitsNobody(cfg, s, envs, a);
    } else if !k.DiscoveryTimer? {
      DispatchAwaits(cfg, s, envs, a);
    }
  }

  lemma DeadAwaitsNobody(cfg: Config, s: Master, envs: seq<Env>, a: Address)
    requires s.fault != NoFault
    ensures !Awaits(cfg, Drain(cfg, s, envs), a)
  {
  }

  lemma FinishAwaitsNobody(cfg: Config, s: Master, envs: seq<Env>, a: Address, rv: ReturnValue)
    requires Inv(cfg, s) && s.fault == NoFault && s.fsm.events != [] && envs != []
    requires Decision(cfg, s, envs[0]) == Finish(rv)
    ensures !Awaits(cfg, Drain(cfg, s, envs), a)
  {
    var s' := Dispatch(cfg, s, envs[0]);
    DecisionFits(cfg, s, envs[0]);
    if rv.Timeout? {
      UnheardStartDies(cfg, s, envs[0]);
      DeadAwaitsNobody(cfg, s', envs[1..], a);
    } else {
      DispatchKeeps(cfg, s, envs[0]);
      FinishCloses(cfg, s, rv, envs[0]);
      DrainAwaitsNobody(cfg, s', envs[1..], a);
    }
  }

  lemma AnswerAwaitsNobody(cfg: Config, s: Master, envs: seq<Env>, a: Address, id: UniqueId)
    requires Inv(cfg, s) && s.fault == NoFault && s.fsm.events != [] && envs != []
    requires Decision(cfg, s, envs[0]) == Answer(id)
    ensures !Awaits(cfg, Drain(cfg, s, envs), a)
  {
    DecisionFits(cfg, s, envs[0]);
    RequestDrains(cfg, s, id, envs);
  }

  lemma QuietAwaits(cfg: Config, s: Master, envs: seq<Env>, a: Address)
    requires Phase(s) && s.fault == NoFault && |s.fsm.events| == 1 && !s.fsm.events[0].CheckNewCommand? && envs != []
    requires var r := Decision(cfg, s, envs[0]); !r.Finish? && !r.Answer?
    requires Awaits(cfg, Drain(cfg, s, envs), a)
    ensures s.current == SendToken(a)
    ensures var e := s.fsm.events[0];
            if s.fsm.state == WaitClientPacketDone
            then !e.RxClientPacket? && !e.RxReturnToken? && (e.TimerTimeout? ==> envs[0].rxBusy)
            else s.fsm.state == SendingToken && e.RxGrantToken?
  {
    QuietDispatch(cfg, s, envs[0]);
    var s' := Dispatch(cfg, s, envs[0]);
    assert Drain(cfg, s', envs[1..]) == s';
  }

  lemma DispatchAwaits(cfg: Config, s: Master, envs: seq<Env>, a: Address)
    requires Inv(cfg, s) && s.fault == NoFault
    requires |s.fsm.events| == 1 && !s.fsm.events[0].CheckNewCommand? && envs != []
    requires Awaits(cfg, Drain(cfg, s, envs), a)
    ensures s.current == SendToken(a)
    ensures var e := s.fsm.events[0];
            if s.fsm.state == WaitClientPacketDone
            then !e.RxClientPacket? && !e.RxReturnToken? && (e.TimerTimeout? ==> envs[0].rxBusy)
            else s.fsm.state == SendingToken && e.RxGrantToken?
  {
    var r := Decision(cfg, s, envs[0]);
    if r.Finish? {
      FinishAwaitsNobody(cfg, s, envs, a, r.rv);
    } else if r.Answer? {
      AnswerAwaitsNobody(cfg, s, envs, a, r.id);
    } else {
      QuietAwaits(cfg, s, envs, a);
    }
  }

  // ---------------------------------------------------------------- calm runs

  /** A granted address is a real one. */
  lemma GrantIsNotNull(cfg: Config, m: Master, a: Address)
    requires Inv(cfg, m) && m.current == SendToken(a)
    ensures a != NULL_ADDR
  {
    assert Outstanding(m)[SendToken(a)] > 0;
    var i :| 0 <= i < |m.dyn.table| && m.dyn.table[i].addr == a;
  }

  /** The agreement itself supplies the unique addresses that arbitration needs. */
  lemma CalmIsOrderly(cfg: Config, own: UniqueId, n: Net, st: Bus.Step)
    requires NetInv(cfg, n) && UniqueAddresses(cfg, n.clients) && Possible(own, n, st) && Calm(n, st)
    ensures Orderly(n, st)
  {
    if st.Deliver? {
      TheOnePacket(cfg, own, n, st);
      var msg := n.pending[0].msg;
      if msg.GrantToken? { GrantIsNotNull(cfg, n.master, msg.receiver); }
    }
  }

  /** A client with a negotiated address that the master waits for has its answer under way. */
  ghost predicate Answering(cfg: Config, n: Net) {
    forall id :: id in n.clients && n.clients[id].dynamic && Awaits(cfg, n.master, n.clients[id].addr)
                 ==> n.pending != []
  }

  ghost predicate HearingInv(cfg: Config, n: Net, ts: seq<seq<Line>>) {
    NetInv(cfg, n) && AgreeInv(cfg, n, ts) && Answering(cfg, n)
  }

  lemma HearingIsUnique(cfg: Config, n: Net, ts: seq<seq<Line>>)
    requires AgreeInv(cfg, n, ts)
    ensures UniqueAddresses(cfg, n.clients)
  {
    AgreementIsUnique(cfg, ts[0], n.clients);
  }

  lemma DynamicIsNotOwn(cfg: Config, t: seq<Line>, id: UniqueId, a: Address)
    requires TableOk(cfg, t) && !cfg.IsDynamic(cfg.own) && Holds(t, id, a)
    ensures a != cfg.own
  {
  }

  /** Hearing keeps the lines of living clients. */
  lemma AttentiveIsCareful(cfg: Config, own: UniqueId, n: Net, ts: seq<seq<Line>>, st: Bus.Step)
    requires HearingInv(cfg, n, ts) && Possible(own, n, st) && Orderly(n, st) && Attentive(cfg, n, st)
    requires !cfg.IsDynamic(cfg.own)
    ensures Careful(cfg, n, st)
  {
    if st.Timer? && st.k.FsmTimer? {
      InvTable(cfg, n.master);
      forall id: UniqueId, a: Address | Claims(n, id, a) && Holds(n.master.dyn.table, id, a)
        ensures !FourthFailure(n.master, st.envs.first, a)
      {
        DynamicIsNotOwn(cfg, n.master.dyn.table, id, a);
      }
    }
  }

  // ---------------------------------------------------------------- answers stay under way

  lemma AwaitedPacket(cfg: Config, n: Net, a: Address)
    requires OneRight(cfg, n) && n.pending != [] && Awaits(cfg, n.master, a)
    ensures n.pending[0].sender.FromClient? && (IsData(n.pending[0].msg) || n.pending[0].msg.ReturnToken?)
  {
  }

  lemma ActsKeepAddresses(cfg: Config, own: UniqueId, n: Net, m': Master)
    requires Emits(cfg, n.master, m')
    ensures var n' := MasterActs(own, n, m');
            SameAddresses(n.clients, n'.clients) && n'.master == m' && |n'.pending| >= |n.pending|
  {
    NewTxIsAtMostOne(cfg, n.master, m');
    EmitSingle(own, n.clients, NewTx(n.master, m'));
  }

  /** The parts of a delivery on an orderly bus. */
  lemma DeliveryParts(cfg: Config, own: UniqueId, n: Net, st: Bus.Step)
    requires NetInv(cfg, n) && st.Deliver? && Possible(own, n, st)
    ensures |n.pending| == 1 && NextOnWire(n.pending) == 0
    ensures var msg, n' := n.pending[0].msg, After(cfg, own, n, st);
            && n'.master == (if st.masterHears then MasterHearsMsg(cfg, n.master, msg, st.envs) else n.master)
            && SameAddresses(HearAll(n.clients, st.hearers, msg), n'.clients) && |n'.pending| >= |st.order|
  {
    TheOnePacket(cfg, own, n, st);
    var msg := n.pending[0].msg;
    MasterHearsKeeps(cfg, n.master, msg, st.envs);
    ActsKeepAddresses(cfg, own, AfterHearing(n, st), MasterHearsMsg(cfg, n.master, msg, st.envs));
  }

  /** After a delivery the master waits only for a client that has just been granted, and has heard it. */
  lemma DeliveryAwaits(cfg: Config, n: Net, st: Bus.Step, msg: Msg, a: Address)
    requires NetInv(cfg, n) && st.Deliver? && |n.pending| == 1 && n.pending[0].msg == msg
    requires |st.envs.turns| == 3 && Steady(st.envs.turns, st.envs.first)
    requires IsData(msg) || msg.ReturnToken? ==> st.masterHears
    requires Awaits(cfg, if st.masterHears then MasterHearsMsg(cfg, n.master, msg, st.envs) else n.master, a)
    ensures msg == GrantToken(a)
  {
    if Awaits(cfg, n.master, a) { AwaitedPacket(cfg, n, a); }
    AwaitingIsKept(cfg, n.master, Packet(EventOf(msg).value), st.envs.first, st.envs.turns, a);
  }

  lemma DeliverAnswering(cfg: Config, own: UniqueId, n: Net, st: Bus.Step)
    requires NetInv(cfg, n) && st.Deliver? && Possible(own, n, st) && Attentive(cfg, n, st)
    ensures Answering(cfg, After(cfg, own, n, st))
  {
    var n' := After(cfg, own, n, st);
    DeliveryParts(cfg, own, n, st);
    var msg := n.pending[0].msg;
    forall id | id in n'.clients && n'.clients[id].dynamic && Awaits(cfg, n'.master, n'.clients[id].addr)
      ensures n'.pending != []
    {
      DeliveryAwaits(cfg, n, st, msg, n'.clients[id].addr);
      WhoReplies(n.clients, st.hearers, msg, id);
      assert id in st.order;
    }
  }

  lemma TimerAnswering(cfg: Config, own: UniqueId, n: Net, st: Bus.Step)
    requires NetInv(cfg, n) && Answering(cfg, n) && st.Timer? && Possible(own, n, st)
    ensures Answering(cfg, After(cfg, own, n, st))
  {
    var n', m' := After(cfg, own, n, st), React(cfg, n.master, st.k, st.envs.first, st.envs.turns);
    BoundedReaction(cfg, n.master, st.k, st.envs.first, st.envs.turns);
    ActsKeepAddresses(cfg, own, n, m');
    forall id | id in n'.clients && n'.clients[id].dynamic && Awaits(cfg, n'.master, n'.clients[id].addr)
      ensures n'.pending != []
    {
      AwaitingIsKept(cfg, n.master, st.k, st.envs.first, st.envs.turns, n'.clients[id].addr);
    }
  }

  lemma PowerOffAnswering(cfg: Config, n: Net, x: UniqueId)
    requires NetInv(cfg, n) && UniqueAddresses(cfg, n.clients) && Answering(cfg, n) && x in n.clients
    ensures Answering(cfg, n.(clients := n.clients - {x}, pending := Without(n.pending, x)))
  {
    forall id | id in n.clients - {x} && n.clients[id].dynamic && Awaits(cfg, n.master, n.clients[id].addr)
      ensures Without(n.pending, x) != []
    {
      AwaitedPacket(cfg, n, n.clients[id].addr);
      GrantIsNotNull(cfg, n.master, n.clients[id].addr);
    }
  }

  lemma AnsweringKept(cfg: Config, own: UniqueId, n: Net, st: Bus.Step)
    requires NetInv(cfg, n) && UniqueAddresses(cfg, n.clients) && Answering(cfg, n)
    requires Possible(own, n, st) && Attentive(cfg, n, st)
    ensures Answering(cfg, After(cfg, own, n, st))
  {
    match st
    case Deliver(_, _, _, _) => DeliverAnswering(cfg, own, n, st);
    case Timer(_, _) => TimerAnswering(cfg, own, n, st);
    case PowerOff(x) => PowerOffAnswering(cfg, n, x);
    case Restart(_, _) => BootedWaits(cfg, st.uids, st.envs);
    case Transmit(i) =>
    case HostSend(id, msg) =>
    case PowerOn(id, addr) => if n.master.current.SendToken? { GrantIsNotNull(cfg, n.master, n.master.current.addr); }
  }

  lemma HearingStepKeeps(cfg: Config, own: UniqueId, n: Net, ts: seq<seq<Line>>, st: Bus.Step)
    returns (ts': seq<seq<Line>>)
    requires HearingInv(cfg, n, ts) && Possible(own, n, st) && Calm(n, st) && Attentive(cfg, n, st)
    requires !cfg.IsDynamic(cfg.own)
    ensures HearingInv(cfg, After(cfg, own, n, st), ts')
  {
    HearingIsUnique(cfg, n, ts);
    CalmIsOrderly(cfg, own, n, st);
    AttentiveIsCareful(cfg, own, n, ts, st);
    NetStepKeeps(cfg, own, n, st);
    AnsweringKept(cfg, own, n, st);
    ts' := AgreeStepKeeps(cfg, own, n, ts, st);
  }

  lemma {:induction false} HearingRunKeeps(cfg: Config, own: UniqueId, trace: seq<Net>, steps: seq<Bus.Step>, i: nat)
    returns (ts: seq<seq<Line>>)
    requires IsNetRun(cfg, own, trace, steps) && AgreeStarts(cfg, trace[0]) && i < |trace| && !cfg.IsDynamic(cfg.own)
    requires forall k :: 0 <= k < |steps| ==> Calm(trace[k], steps[k]) && Attentive(cfg, trace[k], steps[k])
    ensures HearingInv(cfg, trace[i], ts)
  {
    if i == 0 {
      ts := AgreeBegins(cfg, trace[0]);
      BeginsInv(cfg, trace[0]);
    } else {
      ts := HearingRunKeeps(cfg, own, trace, steps, i - 1);
      ts := HearingStepKeeps(cfg, own, trace[i - 1], ts, steps[i - 1]);
    }
  }

  /** On a calm bus where everyone hears a starting master, clients hear their grants and the master hears
      their answers, nothing has to be assumed about retirement: at most one packet is ever under
      way, no two nodes share an address, and unless a start-up message is under way every
      negotiated address is on a line with its holder's id. */
  lemma AgreementByHearing(cfg: Config, own: UniqueId, trace: seq<Net>, steps: seq<Bus.Step>, i: nat, x: UniqueId,
                           y: UniqueId)
    requires IsNetRun(cfg, own, trace, steps) && AgreeStarts(cfg, trace[0]) && i < |trace| && !cfg.IsDynamic(cfg.own)
    requires forall k :: 0 <= k < |steps| ==> Calm(trace[k], steps[k]) && Attentive(cfg, trace[k], steps[k])
    ensures var cs := trace[i].clients;
            && |trace[i].pending| <= 1
            && (x in cs && y in cs && x != y && cs[x].addr != NULL_ADDR ==> cs[x].addr != cs[y].addr)
            && (&& x in cs && cs[x].dynamic && cs[x].addr != NULL_ADDR
                && MasterStarted !in MasterSays(trace[i].pending) ==>
                  Holds(trace[i].master.dyn.table, x, cs[x].addr))
  {
    var ts := HearingRunKeeps(cfg, own, trace, steps, i);
    HearingIsUnique(cfg, trace[i], ts);
    if MasterStarted !in MasterSays(trace[i].pending) {
      ToldOneTable(MasterSays(trace[i].pending), ts, trace[i].clients);
    }
  }

  /** On a calm and careful bus, too, at most one packet is ever under way. */
  lemma {:induction false} CalmRunKeeps(cfg: Config, own: UniqueId, trace: seq<Net>, steps: seq<Bus.Step>, i: nat)
    returns (ts: seq<seq<Line>>)
    requires IsNetRun(cfg, own, trace, steps) && AgreeStarts(cfg, trace[0]) && i < |trace|
    requires forall k :: 0 <= k < |steps| ==> Calm(trace[k], steps[k]) && Careful(cfg, trace[k], steps[k])
    ensures NetInv(cfg, trace[i]) && AgreeInv(cfg, trace[i], ts) && |trace[i].pending| <= 1
  {
    if i == 0 {
      ts := AgreeBegins(cfg, trace[0]);
      BeginsInv(cfg, trace[0]);
    } else {
      ts := CalmRunKeeps(cfg, own, trace, steps, i - 1);
      HearingIsUnique(cfg, trace[i - 1], ts);
      CalmIsOrderly(cfg, own, trace[i - 1], steps[i - 1]);
      NetStepKeeps(cfg, own, trace[i - 1], steps[i - 1]);
      ts := AgreeStepKeeps(cfg, own, trace[i - 1], ts, steps[i - 1]);
    }
  }
}
