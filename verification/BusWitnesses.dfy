/** Runs of the bus on which what the theorems assume is missing: two newcomers collide, and a missed
    start-up message, or four missed grants, let two nodes share an address. */
module BusWitnesses {
  import opened Prelude
  import opened Bytes
  import opened Protocol
  import opened Scheduler
  import opened MasterModel
  import opened MasterInvariant
  import opened MasterSteps
  import opened MasterRuns
  import opened MasterTheorems
  import opened MasterLines
  import opened MasterHolders
  import opened MasterProgress
  import opened MasterLimits
  import opened Bus
  import opened BusArbitration
  import opened BusRounds

  ghost predicate RunsTo(cfg: Config, own: UniqueId, cs: Clients, trace: seq<Net>, steps: seq<Bus.Step>, n: Net) {
    IsNetRun(cfg, own, trace, steps) && Begins(cfg, trace[0]) && trace[0].clients == cs && trace[|steps|] == n
  }

  /** Some run from the start of a master, with the given clients, leads to `n`. */
  ghost predicate NetReachable(cfg: Config, own: UniqueId, cs: Clients, n: Net) {
    exists trace: seq<Net>, steps: seq<Bus.Step> :: RunsTo(cfg, own, cs, trace, steps, n)
  }

  lemma RunGrows(cfg: Config, own: UniqueId, cs: Clients, trace: seq<Net>, steps: seq<Bus.Step>, n: Net, st: Bus.Step,
                 n': Net)
    requires RunsTo(cfg, own, cs, trace, steps, n) && Possible(own, n, st) && n' == After(cfg, own, n, st)
    ensures RunsTo(cfg, own, cs, trace + [n'], steps + [st], n')
  {
    var trace', steps' := trace + [n'], steps + [st];
    forall i | 0 <= i < |steps'|
      ensures Possible(own, trace'[i], steps'[i]) && trace'[i + 1] == After(cfg, own, trace'[i], steps'[i])
    {
      if i < |steps| {
        assert steps'[i] == steps[i] && trace'[i] == trace[i] && trace'[i + 1] == trace[i + 1];
      } else {
        assert steps'[i] == st && trace'[i] == n && trace'[i + 1] == n';
      }
    }
    assert trace'[0] == trace[0] && trace'[|steps'|] == n';
  }

  ghost predicate Leads(cfg: Config, own: UniqueId, n: Net, st: Bus.Step, n': Net) {
    cfg.Valid() && Possible(own, n, st) && n' == After(cfg, own, n, st)
  }

  lemma SomeRunGrows(cfg: Config, own: UniqueId, cs: Clients, n: Net, st: Bus.Step, n': Net)
    returns (trace: seq<Net>, steps: seq<Bus.Step>)
    requires NetReachable(cfg, own, cs, n) && Leads(cfg, own, n, st, n')
    ensures RunsTo(cfg, own, cs, trace, steps, n')
  {
    var trace0: seq<Net>, steps0: seq<Bus.Step> :| RunsTo(cfg, own, cs, trace0, steps0, n);
    RunGrows(cfg, own, cs, trace0, steps0, n, st, n');
    trace, steps := trace0 + [n'], steps0 + [st];
  }

  lemma NetReachNext(cfg: Config, own: UniqueId, cs: Clients, n: Net, st: Bus.Step, n': Net)
    requires NetReachable(cfg, own, cs, n) && Leads(cfg, own, n, st, n')
    ensures NetReachable(cfg, own, cs, n')
  {
    var trace, steps := SomeRunGrows(cfg, own, cs, n, st, n');
  }

  // ---------------------------------------------------------------- serving the master in silence

  function Calmly(t: Time): Envs { Envs(Silence(t), Turns(t)) }

  function MsgFor(a: Action): Msg {
    match a
    case SendToken(b) => GrantToken(b)
    case QueryAddress => AddressDiscovery(0, 0)
    case _ => MasterStarted
  }

  /** The master with the packet of its current action, if it has one, still to be sent. */
  function NetFor(cs: Clients, m: Master): Net {
    Net(m, cs, if m.current == DoNothing then [] else [Entry(FromMaster, false, MsgFor(m.current))])
  }

  predicate OwnIdle(own: UniqueId, cs: Clients) { own in cs && cs[own].queue == [] }

  /** A reachable state in which the master has just sent an action, or rests. */
  ghost predicate Settled(cfg: Config, own: UniqueId, start: Clients, n: Net) {
    NetReachable(cfg, own, start, n) && NetInv(cfg, n) && n == NetFor(n.clients, n.master) && OwnIdle(own, n.clients)
  }

  lemma ActsSettle(own: UniqueId, cs: Clients, m: Master, m': Master)
    requires SentFor(m, m')
    ensures MasterActs(own, Net(m, cs, []), m') == NetFor(cs, m')
  {
    if m'.current == DoNothing {
      SilentMaster(own, Net(m, cs, []), m');
    } else {
      assert NewTx(m, m') == [TxFor(m'.current)];
      EmitSingle(own, cs, NewTx(m, m'));
      assert [] + NetFor(cs, m').pending == NetFor(cs, m').pending;
    }
  }

  ghost predicate SentFor(m: Master, r: Master) {
    r.sent == if r.current == DoNothing then m.sent else m.sent + [TxFor(r.current)]
  }

  lemma TimerStep(cfg: Config, own: UniqueId, n: Net, k: Stimulus, t: Time, r: Master)
    requires cfg.Valid() && n.pending == [] && OwnIdle(own, n.clients) && !k.Packet? && Quiet(n.master)
             && Enabled(n.master, k)
    requires r == React(cfg, n.master, k, Silence(t), Turns(t)) && SentFor(n.master, r)
    ensures var st := Timer(k, Calmly(t));
            Possible(own, n, st) && Orderly(n, st) && After(cfg, own, n, st) == NetFor(n.clients, r)
  {
    ActsSettle(own, n.clients, n.master, r);
    assert Net(n.master, n.clients, []) == n;
  }

  /** A timer fires on a silent bus, and the reaction ends. */
  lemma ReachTimer(cfg: Config, own: UniqueId, start: Clients, n: Net, k: Stimulus, t: Time, r: Master)
    returns (n': Net)
    requires NetReachable(cfg, own, start, n) && NetInv(cfg, n) && n.pending == [] && OwnIdle(own, n.clients)
    requires !k.Packet? && Quiet(n.master) && Enabled(n.master, k)
    requires r == React(cfg, n.master, k, Silence(t), Turns(t)) && SentFor(n.master, r)
    ensures n' == NetFor(n.clients, r) && Settled(cfg, own, start, n')
  {
    var st := Timer(k, Calmly(t));
    n' := NetFor(n.clients, r);
    TimerStep(cfg, own, n, k, t, r);
    NetStepKeeps(cfg, own, n, st);
    NetReachNext(cfg, own, start, n, st, n');
  }

  lemma ReachOnWire(cfg: Config, own: UniqueId, start: Clients, n: Net) returns (n': Net)
    requires NetReachable(cfg, own, start, n) && NetInv(cfg, n) && |n.pending| == 1 && !n.pending[0].onWire
    ensures n' == n.(pending := [n.pending[0].(onWire := true)])
    ensures NetReachable(cfg, own, start, n') && NetInv(cfg, n')
  {
    n' := After(cfg, own, n, Transmit(0));
    TransmitIs(cfg, own, n, Transmit(0));
    NetReachNext(cfg, own, start, n, Transmit(0), n');
  }

  lemma HeardStep(cfg: Config, own: UniqueId, n: Net, hearers: set<UniqueId>, t: Time)
    requires NetInv(cfg, n) && OwnIdle(own, n.clients)
    requires |n.pending| == 1 && n.pending[0].onWire && HearAll(n.clients, hearers, n.pending[0].msg) == n.clients
    requires RepliersInOrder(n.clients, hearers, n.pending[0].msg, [])
    ensures var st := Deliver(hearers, true, [], Calmly(t));
            var m' := MasterHearsMsg(cfg, n.master, n.pending[0].msg, Calmly(t));
            Possible(own, n, st) && After(cfg, own, n, st) == MasterActs(own, Net(n.master, n.clients, []), m')
  {
    var st := Deliver(hearers, true, [], Calmly(t));
    assert NextOnWire(n.pending) == 0 && Possible(own, n, st);
    UnansweredShape(cfg, own, n, st);
  }

  /** The packet on the wire is heard by the master, and moves and wakes no client. */
  lemma ReachHeard(cfg: Config, own: UniqueId, start: Clients, n: Net, hearers: set<UniqueId>, t: Time, m': Master)
    returns (n': Net)
    requires NetReachable(cfg, own, start, n) && NetInv(cfg, n) && OwnIdle(own, n.clients)
    requires |n.pending| == 1 && n.pending[0].onWire && HearAll(n.clients, hearers, n.pending[0].msg) == n.clients
    requires RepliersInOrder(n.clients, hearers, n.pending[0].msg, [])
    requires m' == MasterHearsMsg(cfg, n.master, n.pending[0].msg, Calmly(t))
    ensures n' == MasterActs(own, Net(n.master, n.clients, []), m')
    ensures NetReachable(cfg, own, start, n') && NetInv(cfg, n')
  {
    var st := Deliver(hearers, true, [], Calmly(t));
    HeardStep(cfg, own, n, hearers, t);
    DeliverUnanswered(cfg, own, n, st);
    n' := After(cfg, own, n, st);
    NetReachNext(cfg, own, start, n, st, n');
  }

  lemma NobodyHears(cs: Clients, msg: Msg)
    ensures HearAll(cs, {}, msg) == cs && RepliersInOrder(cs, {}, msg, [])
  {
  }

  lemma StartUnanswered(cs: Clients, hearers: set<UniqueId>)
    ensures RepliersInOrder(cs, hearers, MasterStarted, [])
  {
  }

  lemma ReachStarted(cfg: Config, own: UniqueId, start: Clients, n: Net, hearers: set<UniqueId>, t: Time, r: Master)
    returns (n': Net)
    requires Settled(cfg, own, start, n) && Quiet(n.master) && n.master.current == SendMasterStart
    requires r == MasterHearsMsg(cfg, n.master, MasterStarted, Calmly(t)) && SentFor(n.master, r)
    requires HearAll(n.clients, hearers, MasterStarted) == n.clients
    ensures n' == NetFor(n.clients, r) && Settled(cfg, own, start, n')
  {
    n' := ReachOnWire(cfg, own, start, n);
    StartUnanswered(n.clients, hearers);
    n' := ReachHeard(cfg, own, start, n', hearers, t, r);
    ActsSettle(own, n.clients, n.master, r);
  }

  /** The start-up message reaches the given hearers, whom it does not move. */
  lemma ServeStart(cfg: Config, own: UniqueId, start: Clients, n: Net, hearers: set<UniqueId>, t: Time)
    returns (n': Net)
    requires Settled(cfg, own, start, n) && Driven(cfg, n.master) && n.master.current == SendMasterStart
    requires HearAll(n.clients, hearers, MasterStarted) == n.clients
    ensures n' == NetFor(n.clients, Served(cfg, n.master, t)) && Settled(cfg, own, start, n')
  {
    var r := Served(cfg, n.master, t);
    ServedEnds(cfg, n.master, t);
    n' := ReachStarted(cfg, own, start, n, hearers, t, r);
  }

  lemma MasterHearsEcho(cfg: Config, m: Master, t: Time)
    requires Quiet(m) && m.current != SendMasterStart && m.current != DoNothing
    ensures MasterHearsMsg(cfg, m, MsgFor(m.current), Calmly(t)) == Echoed(cfg, m, t)
  {
  }

  lemma ReachEchoed(cfg: Config, own: UniqueId, start: Clients, n: Net, t: Time, m1: Master) returns (n': Net)
    requires Settled(cfg, own, start, n) && Quiet(n.master) && m1 == Echoed(cfg, n.master, t)
    requires n.master.current != SendMasterStart && n.master.current != DoNothing && m1.sent == n.master.sent
    ensures n' == Net(m1, n.clients, []) && NetReachable(cfg, own, start, n') && NetInv(cfg, n')
  {
    NobodyHears(n.clients, MsgFor(n.master.current));
    MasterHearsEcho(cfg, n.master, t);
    n' := ReachOnWire(cfg, own, start, n);
    n' := ReachHeard(cfg, own, start, n', {}, t, m1);
    SilentMaster(own, Net(n.master, n.clients, []), m1);
  }

  /** A grant or a discovery that only the master hears, until the timer runs out. */
  lemma ServeOther(cfg: Config, own: UniqueId, start: Clients, n: Net, t: Time) returns (n': Net)
    requires Settled(cfg, own, start, n) && Driven(cfg, n.master) && n.master.current != SendMasterStart
    ensures n' == NetFor(n.clients, Served(cfg, n.master, t)) && Settled(cfg, own, start, n')
  {
    var m1, r := Echoed(cfg, n.master, t), Served(cfg, n.master, t);
    EchoIsSilent(cfg, n.master, t);
    TimerEnds(cfg, m1, t);
    n' := ReachEchoed(cfg, own, start, n, t, m1);
    n' := ReachTimer(cfg, own, start, n', FsmTimer, t, r);
  }

  /** What serving the current action does to the lines, and to the line of `a` in particular. */
  ghost predicate ServedDyn(cfg: Config, m: Master, r: Master, a: Address) {
    && DynFollows(m.dyn, r.dyn)
    && (HasLine(m.dyn.table, a) && a != cfg.own ==> LineServed(m, r, a))
  }

  ghost predicate LineServed(m: Master, r: Master, a: Address)
    requires HasLine(m.dyn.table, a)
  {
    && LineMoves(m.dyn.table, r.dyn, a, if m.current == SendToken(a) then Some(BadClient) else None)
    && (m.current == SendToken(a) && RemoveDynamic(SetState(LineOf(m.dyn.table, a), BadClient)) ==>
          r.dyn.free == m.dyn.free + [a])
  }

  lemma ServedMoves(cfg: Config, m: Master, t: Time, a: Address)
    requires Inv(cfg, m) && Driven(cfg, m)
    ensures ServedDyn(cfg, m, Served(cfg, m, t), a)
  {
    ServedFollows(cfg, m, t);
    if HasLine(m.dyn.table, a) && a != cfg.own { ServedLine(cfg, m, t, a); }
  }

  lemma ServedLine(cfg: Config, m: Master, t: Time, a: Address)
    requires Inv(cfg, m) && Driven(cfg, m) && HasLine(m.dyn.table, a) && a != cfg.own
    ensures LineServed(m, Served(cfg, m, t), a)
  {
    if m.current.SendMasterStart? {
      QueuedMovesLine(cfg, m, Packet(RxMasterStartStop), t, a);
    } else {
      EchoIsSilent(cfg, m, t);
      QueuedMovesLine(cfg, Echoed(cfg, m, t), FsmTimer, t, a);
    }
  }

  lemma QueuedMovesLine(cfg: Config, m: Master, k: Stimulus, t: Time, a: Address)
    requires Inv(cfg, m) && Quiet(m) && Busy(m) && HasLine(m.dyn.table, a) && a != cfg.own
    requires (k.FsmTimer? && TimerEndsAction(m)) || (k == Packet(RxMasterStartStop) && m.current.SendMasterStart?)
    ensures LineServed(m, React(cfg, m, k, Silence(t), Turns(t)), a)
  {
    var s := Stimulate(m, k, Silence(t));
    StimulusKeeps(cfg, m, k, Silence(t));
    StimulusQueues(cfg, m, k, Silence(t));
    StimulusLeavesDyn(cfg, m, k, Silence(t));
    OutcomeIs(cfg, s, m, k, t, a);
    ReactionMovesLine(cfg, s, t, a);
    if m.current == SendToken(a) && RemoveDynamic(SetState(LineOf(m.dyn.table, a), BadClient)) {
      RetirePushes(cfg, s, t, a);
    }
  }

  lemma OutcomeIs(cfg: Config, s: Master, m: Master, k: Stimulus, t: Time, a: Address)
    requires Quiet(m) && Busy(m) && s == m.(fsm := s.fsm) && s.fsm.state == m.fsm.state && s.fsm.action == m.fsm.action
    requires || (k.FsmTimer? && TimerEndsAction(m) && s.fsm.events == [TimerTimeout])
             || (k == Packet(RxMasterStartStop) && m.current.SendMasterStart? && s.fsm.events == [RxMasterStartStop])
    ensures Outcome(cfg, s, DispatchStep(Silence(t)), a) == if m.current == SendToken(a) then Some(BadClient) else None
    ensures !Decision(cfg, s, Silence(t)).Answer?
  {
  }

  /** One action is served. */
  lemma Serve(cfg: Config, own: UniqueId, start: Clients, n: Net, hearers: set<UniqueId>, t: Time, a: Address)
    returns (n': Net)
    requires Settled(cfg, own, start, n) && Driven(cfg, n.master)
    requires n.master.current == SendMasterStart ==> HearAll(n.clients, hearers, MasterStarted) == n.clients
    ensures Settled(cfg, own, start, n') && n'.clients == n.clients
    ensures Ended(cfg, n.master, n'.master, t) && ServedDyn(cfg, n.master, n'.master, a)
  {
    ServedEnds(cfg, n.master, t);
    ServedMoves(cfg, n.master, t, a);
    if n.master.current == SendMasterStart {
      n' := ServeStart(cfg, own, start, n, hearers, t);
    } else {
      n' := ServeOther(cfg, own, start, n, t);
    }
  }

  /** The line of `a` stays as it is. */
  ghost predicate LineStays(m: Master, r: Master, a: Address) {
    HasLine(m.dyn.table, a) ==> HasLine(r.dyn.table, a) && LineOf(r.dyn.table, a) == LineOf(m.dyn.table, a)
  }

  /** What happens to the lines on the way to the action `g`. The line of `a` stays as it is when it is the
      token of `a` that is waited for. */
  ghost predicate Went(m: Master, r: Master, g: Action, a: Address) {
    DynFollows(m.dyn, r.dyn) && (g == SendToken(a) ==> LineStays(m, r, a))
  }

  lemma WentOnce(cfg: Config, m: Master, r: Master, g: Action, a: Address)
    requires ServedDyn(cfg, m, r, a) && g != SendToken(cfg.own) && (g == SendToken(a) ==> m.current != g)
    ensures Went(m, r, g, a)
  {
  }

  lemma WentOn(m: Master, r: Master, q: Master, g: Action, a: Address)
    requires Went(m, r, g, a) && Went(r, q, g, a)
    ensures Went(m, q, g, a)
  {
    FollowsOn(m.dyn, r.dyn, q.dyn);
  }

  /** One action is served, and `g` comes nearer. */
  lemma ServeNearer(cfg: Config, own: UniqueId, start: Clients, n: Net, hearers: set<UniqueId>, t: Time,
                    g: Action, j: nat, a: Address)
    returns (n': Net, j': nat)
    requires Settled(cfg, own, start, n) && Driven(cfg, n.master) && g != SendToken(cfg.own)
    requires HearAll(n.clients, hearers, MasterStarted) == n.clients
    requires j < |n.master.sched.ready| && n.master.sched.ready[j] == g
    requires g == SendToken(a) ==> n.master.current != g
    ensures Settled(cfg, own, start, n') && n'.clients == n.clients && Driven(cfg, n'.master)
    ensures Went(n.master, n'.master, g, a)
    ensures n'.master.current != g ==> j' < j && j' < |n'.master.sched.ready| && n'.master.sched.ready[j'] == g
  {
    n' := Serve(cfg, own, start, n, hearers, t, a);
    WentOnce(cfg, n.master, n'.master, g, a);
    j' := Nearer(cfg, n.master, n'.master, t, g, j);
  }

  /** Every ready action but the own token is carried out in its turn. */
  lemma {:induction false} Drive(cfg: Config, own: UniqueId, start: Clients, n: Net, hearers: set<UniqueId>, t: Time,
                                 g: Action, j: nat, a: Address)
    returns (n': Net)
    requires Settled(cfg, own, start, n) && Driven(cfg, n.master) && g != SendToken(cfg.own)
    requires HearAll(n.clients, hearers, MasterStarted) == n.clients
    requires j < |n.master.sched.ready| && n.master.sched.ready[j] == g
    requires g == SendToken(a) ==> n.master.current != g
    ensures Settled(cfg, own, start, n') && n'.clients == n.clients && Driven(cfg, n'.master) && n'.master.current == g
    ensures Went(n.master, n'.master, g, a)
    decreases j
  {
    var n1, j1 := ServeNearer(cfg, own, start, n, hearers, t, g, j, a);
    n' := n1;
    if n1.master.current != g {
      n' := Drive(cfg, own, start, n1, hearers, t, g, j1, a);
      WentOn(n.master, n1.master, n'.master, g, a);
    }
  }

  // ---------------------------------------------------------------- the first discovery

  lemma BootedBegins(cfg: Config, cs: Clients, uids: int -> UniqueId, t: Time, m: Master)
    requires cfg.Valid() && QueuesHoldData(cs) && m == Drain(cfg, Boot(cfg, uids, Silence(t)), Turns(t))
    requires m.current == SendMasterStart
    ensures Begins(cfg, NetFor(cs, m))
  {
    var envs := Calmly(t);
    assert Booted(cfg, uids, envs) == m && |envs.turns| == 3 && Steady(envs.turns, envs.first);
  }

  lemma NoStepsYet(cfg: Config, own: UniqueId, n: Net)
    requires Begins(cfg, n)
    ensures NetReachable(cfg, own, n.clients, n)
  {
    assert RunsTo(cfg, own, n.clients, [n], [], n);
  }

  lemma NetBooted(cfg: Config, own: UniqueId, cs: Clients, uids: int -> UniqueId, t: Time) returns (n: Net)
    requires cfg.Valid() && QueuesHoldData(cs) && OwnIdle(own, cs)
    ensures Settled(cfg, own, cs, n) && n.clients == cs && Driven(cfg, n.master)
    ensures n.master.dyn == Posted(cfg, uids).dyn
    ensures n.master.sched.ready != [] && n.master.sched.ready[|n.master.sched.ready| - 1] == QueryAddress
  {
    var m := BootDriven(cfg, uids, t);
    n := NetFor(cs, m);
    BootedBegins(cfg, cs, uids, t, m);
    BeginsInv(cfg, n);
    NoStepsYet(cfg, own, n);
  }

  /** Every configuration reaches its first discovery, with its tables as they were at the start, if the
      given hearers of the start-up message do not move. */
  lemma FirstDiscovery(cfg: Config, own: UniqueId, cs: Clients, hearers: set<UniqueId>, uids: int -> UniqueId, t: Time)
    returns (n: Net)
    requires cfg.Valid() && QueuesHoldData(cs) && OwnIdle(own, cs) && HearAll(cs, hearers, MasterStarted) == cs
    ensures Settled(cfg, own, cs, n) && n.clients == cs && Driven(cfg, n.master) && n.master.current == QueryAddress
    ensures DynFollows(Posted(cfg, uids).dyn, n.master.dyn)
  {
    n := NetBooted(cfg, own, cs, uids, t);
    n := Drive(cfg, own, cs, n, hearers, t, QueryAddress, |n.master.sched.ready| - 1, 0);
  }

  // ---------------------------------------------------------------- a collision

  /** The master's own client, and two more with the given addresses. */
  function Three(cfg: Config, own: UniqueId, x: UniqueId, a: Address, y: UniqueId): Clients {
    map[own := Client(cfg.own, false, []), x := Client(a, true, []), y := Client(NULL_ADDR, true, [])]
  }

  lemma BothAnswer(cfg: Config, own: UniqueId, x: UniqueId, y: UniqueId, t: Time)
    requires cfg.own != NULL_ADDR && own != x && own != y && x != y
    ensures var cs, msg := Three(cfg, own, x, NULL_ADDR, y), AddressDiscovery(0, 0);
            && Contention(cs, {x, y}, msg) && RepliersInOrder(cs, {x, y}, msg, [x, y])
            && EnvsFit(own, HearAll(cs, {x, y}, msg), Calmly(t))
  {
    var cs, msg := Three(cfg, own, x, NULL_ADDR, y), AddressDiscovery(0, 0);
    assert Replies(cs, {x, y}, msg, x) && Replies(cs, {x, y}, msg, y);
    assert Answers(cs[x], msg) && Answers(cs[y], msg);
    DiscoveriesMoveNobody(cs, {x, y});
  }

  lemma StartMovesNobody(cfg: Config, own: UniqueId, x: UniqueId, a: Address, y: UniqueId, hearers: set<UniqueId>)
    requires own != x && own != y && x != y && (a != NULL_ADDR ==> x !in hearers)
    ensures HearAll(Three(cfg, own, x, a, y), hearers, MasterStarted) == Three(cfg, own, x, a, y)
  {
  }

  /** In every configuration: two clients without an address that hear the first discovery of a master put two
      packets on the bus. */
  lemma NewcomersCollide(cfg: Config, own: UniqueId, x: UniqueId, y: UniqueId, uids: int -> UniqueId, t: Time)
    returns (n: Net)
    requires cfg.Valid() && cfg.own != NULL_ADDR && own != x && own != y && x != y
    ensures NetReachable(cfg, own, Three(cfg, own, x, NULL_ADDR, y), n) && |n.pending| > 1
  {
    var cs, st := Three(cfg, own, x, NULL_ADDR, y), Deliver({x, y}, true, [x, y], Calmly(t));
    StartMovesNobody(cfg, own, x, NULL_ADDR, y, {own, x, y});
    var n1 := FirstDiscovery(cfg, own, cs, {own, x, y}, uids, t);
    n1 := ReachOnWire(cfg, own, cs, n1);
    BothAnswer(cfg, own, x, y, t);
    assert NextOnWire(n1.pending) == 0;
    n := After(cfg, own, n1, st);
    NetReachNext(cfg, own, cs, n1, st, n);
    DeliveryCollidesExactly(cfg, own, n1, st);
  }

  // ---------------------------------------------------------------- a missed start

  lemma OneNewcomer(cs: Clients, y: UniqueId, msg: Msg)
    requires y in cs && cs[y].addr == NULL_ADDR && msg == AddressDiscovery(0, 0)
    ensures RepliersInOrder(cs, {y}, msg, [y]) && !Contention(cs, {y}, msg)
  {
    WhoReplies(cs, {y}, msg, y);
  }

  /** A delivery to `y` alone. */
  lemma DeliverPossible(own: UniqueId, n: Net, y: UniqueId, order: seq<UniqueId>, t: Time, cs: Clients)
    requires |n.pending| == 1 && n.pending[0].onWire && RepliersInOrder(n.clients, {y}, n.pending[0].msg, order)
    requires HearAll(n.clients, {y}, n.pending[0].msg) == cs && own in cs && cs[own].queue == []
    ensures NextOnWire(n.pending) == 0 && Possible(own, n, Deliver({y}, true, order, Calmly(t)))
  {
  }

  lemma ReachStep(cfg: Config, own: UniqueId, start: Clients, n: Net, st: Bus.Step, n': Net)
    requires NetReachable(cfg, own, start, n) && NetInv(cfg, n) && Leads(cfg, own, n, st, n') && Orderly(n, st)
    ensures NetReachable(cfg, own, start, n') && NetInv(cfg, n')
  {
    NetStepKeeps(cfg, own, n, st);
    NetReachNext(cfg, own, start, n, st, n');
  }

  lemma ReachRequest(cfg: Config, own: UniqueId, start: Clients, n: Net, y: UniqueId, t: Time) returns (n': Net)
    requires NetReachable(cfg, own, start, n) && NetInv(cfg, n) && OnWire(n, AddressDiscovery(0, 0))
    requires OwnIdle(own, n.clients) && y in n.clients && n.clients[y].addr == NULL_ADDR
    ensures NetReachable(cfg, own, start, n') && NetInv(cfg, n') && n'.master == n.master && n'.clients == n.clients
    ensures n'.pending == [Entry(FromClient(y), true, AddressRequest(y, 0, [0, 0, 0, 0]))]
  {
    var st := Deliver({y}, true, [y], Calmly(t));
    OneNewcomer(n.clients, y, AddressDiscovery(0, 0));
    DiscoveriesMoveNobody(n.clients, {y});
    DeliverPossible(own, n, y, [y], t, n.clients);
    n' := Net(n.master, n.clients, [Entry(FromClient(y), false, AddressRequest(y, 0, [0, 0, 0, 0]))]);
    DiscoveryHeard(cfg, own, n, st, y);
    ReachStep(cfg, own, start, n, st, n');
    n' := ReachOnWire(cfg, own, start, n');
  }

  lemma ReachReply(cfg: Config, own: UniqueId, start: Clients, n: Net, y: UniqueId, t: Time) returns (n': Net)
    requires NetReachable(cfg, own, start, n) && NetInv(cfg, n) && AddressFor(n.master.dyn, y).Some?
    requires Quiet(n.master) && OwnIdle(own, n.clients) && y in n.clients
    requires n.pending == [Entry(FromClient(y), true, AddressRequest(y, 0, [0, 0, 0, 0]))]
    ensures NetReachable(cfg, own, start, n') && NetInv(cfg, n') && n'.clients == n.clients
    ensures n'.pending == [Entry(FromMaster, true, AddressReply(AddressFor(n.master.dyn, y).value, y))]
    ensures n'.master == Answered(cfg, n.master, y, t)
  {
    var st := Deliver({y}, true, [], Calmly(t));
    RequestsMoveNobody(n.clients, {y}, y);
    DeliverPossible(own, n, y, [], t, n.clients);
    n' := Net(Answered(cfg, n.master, y, t), n.clients,
              [Entry(FromMaster, false, AddressReply(AddressFor(n.master.dyn, y).value, y))]);
    RequestHeard(cfg, own, n, st, y);
    ReachStep(cfg, own, start, n, st, n');
    n' := ReachOnWire(cfg, own, start, n');
  }

  lemma ReachTaken(cfg: Config, own: UniqueId, start: Clients, n: Net, y: UniqueId, a: Address, t: Time)
    returns (n': Net)
    requires NetReachable(cfg, own, start, n) && NetInv(cfg, n)
             && n.pending == [Entry(FromMaster, true, AddressReply(a, y))]
    requires OwnIdle(own, n.clients) && y in n.clients
    ensures NetReachable(cfg, own, start, n') && NetInv(cfg, n') && n'.master == n.master && n'.pending == []
    ensures n'.clients == n.clients[y := n.clients[y].(addr := a)]
  {
    var st := Deliver({y}, true, [], Calmly(t));
    RepliesMoveOne(n.clients, {y}, a, y);
    DeliverPossible(own, n, y, [], t, n.clients[y := n.clients[y].(addr := a)]);
    n' := Net(n.master, n.clients[y := n.clients[y].(addr := a)], []);
    ReplyTaken(cfg, own, n, st, y, a);
    ReachStep(cfg, own, start, n, st, n');
  }

  /** A discovery about to be sent, and its one hearer gets its address. */
  lemma ReachAddress(cfg: Config, own: UniqueId, start: Clients, n: Net, y: UniqueId, a: Address, t: Time)
    returns (n': Net)
    requires Settled(cfg, own, start, n) && Driven(cfg, n.master) && n.master.current == QueryAddress
    requires y in n.clients && n.clients[y].addr == NULL_ADDR && AddressFor(n.master.dyn, y) == Some(a)
    ensures NetReachable(cfg, own, start, n') && NetInv(cfg, n') && n'.pending == []
    ensures n'.clients == n.clients[y := n.clients[y].(addr := a)] && n'.master == Answered(cfg, n.master, y, t)
  {
    n' := ReachOnWire(cfg, own, start, n);
    n' := ReachRequest(cfg, own, start, n', y, t);
    n' := ReachReply(cfg, own, start, n', y, t);
    n' := ReachTaken(cfg, own, start, n', y, a, t);
  }

  /** The first address that the master gives away, while no static line carries the id of the newcomer. */
  lemma FirstAddress(cfg: Config, uids: int -> UniqueId, d: Dyn, y: UniqueId)
    requires cfg.Valid() && cfg.dynLow <= cfg.dynHigh && DynFollows(Posted(cfg, uids).dyn, d) && !StaticId(cfg, uids, y)
    ensures NoDynamic(d.table) && (forall i :: 0 <= i < |d.table| ==> d.table[i].uid != y)
    ensures AddressFor(d, y) == Some(cfg.dynLow)
  {
    var t := Posted(cfg, uids).dyn.table;
    StaticLinesFrom(t, d.table);
    forall i | 0 <= i < |d.table| ensures d.table[i].uid != y {
      assert Listed(t, d.table[i]);
      var j :| 0 <= j < |t| && SameHolder(d.table[i], t[j]);
      assert cfg.IsStatic(t[j].addr) && t[j].uid == uids(t[j].addr);
    }
  }

  /** In every configuration that gives addresses away: a client that misses the start-up message of a new
      master keeps its old address, and the first newcomer is given the same one. */
  lemma MissedStartSharesAddress(cfg: Config, own: UniqueId, x: UniqueId, y: UniqueId, uids: int -> UniqueId, t: Time)
    returns (n: Net)
    requires cfg.Valid() && cfg.dynLow <= cfg.dynHigh && own != x && own != y && x != y && !StaticId(cfg, uids, y)
    ensures NetReachable(cfg, own, Three(cfg, own, x, cfg.dynLow, y), n)
    ensures x in n.clients && y in n.clients && n.clients[x].addr == n.clients[y].addr == cfg.dynLow
  {
    var cs := Three(cfg, own, x, cfg.dynLow, y);
    StartMovesNobody(cfg, own, x, cfg.dynLow, y, {own, y});
    n := FirstDiscovery(cfg, own, cs, {own, y}, uids, t);
    FirstAddress(cfg, uids, n.master.dyn, y);
    n := ReachAddress(cfg, own, cs, n, y, cfg.dynLow, t);
  }

  // ---------------------------------------------------------------- four missed grants

  /** Only `x` has a line that is not static, with the address `a` and `k` failures; `y` has none. */
  ghost predicate OneHolder(t: seq<Line>, x: UniqueId, a: Address, y: UniqueId, k: nat) {
    && HasLine(t, a) && LineOf(t, a).dynamic && LineOf(t, a).uid == x && LineOf(t, a).bad == k
    && (forall i :: 0 <= i < |t| ==> t[i].uid != y && (t[i].dynamic ==> t[i].addr == a))
  }

  lemma StrangersStay(t: seq<Line>, t': seq<Line>, a: Address, y: UniqueId)
    requires LinesFrom(t, t') && forall i :: 0 <= i < |t| ==> t[i].uid != y && (t[i].dynamic ==> t[i].addr == a)
    ensures forall i :: 0 <= i < |t'| ==> t'[i].uid != y && (t'[i].dynamic ==> t'[i].addr == a)
  {
    forall i | 0 <= i < |t'| ensures t'[i].uid != y && (t'[i].dynamic ==> t'[i].addr == a) {
      assert Listed(t, t'[i]);
    }
  }

  lemma HolderStays(m: Master, r: Master, x: UniqueId, a: Address, y: UniqueId, k: nat)
    requires OneHolder(m.dyn.table, x, a, y, k) && DynFollows(m.dyn, r.dyn) && LineStays(m, r, a)
    ensures OneHolder(r.dyn.table, x, a, y, k)
  {
    StrangersStay(m.dyn.table, r.dyn.table, a, y);
  }

  lemma HolderFails(cfg: Config, m: Master, r: Master, x: UniqueId, a: Address, y: UniqueId, k: nat)
    requires OneHolder(m.dyn.table, x, a, y, k) && ServedDyn(cfg, m, r, a) && m.current == SendToken(a) && a != cfg.own
    ensures k < 3 ==> OneHolder(r.dyn.table, x, a, y, k + 1)
    ensures k >= 3 ==> NoDynamic(r.dyn.table) && AddressFor(r.dyn, y) == Some(a)
    ensures forall i :: 0 <= i < |r.dyn.table| ==> r.dyn.table[i].uid != y
  {
    StrangersStay(m.dyn.table, r.dyn.table, a, y);
  }

  /** The handler rests with a token waiting, past the first second: its timer is armed. */
  lemma RestIsArmed(cfg: Config, r: Master, a: Address, t: Time)
    requires Inv(cfg, r) && Resting(r) && r.sched.ready == [] && HasLine(r.dyn.table, a) && AllLater(r.sched.waiting, t)
    requires t >= 1.0 && r.delay == RestTimer(r.sched.waiting)
    ensures r.delay.Some?
  {
    if r.sched.waiting == [] {
      var j := TokenIsReady(cfg, r, a);
      assert false;
    }
    ReadyTimeIsEarliest(r.sched.waiting);
  }

  lemma WakeMoves(cfg: Config, m: Master, t: Time, a: Address)
    requires Inv(cfg, m) && Quiet(m) && Resting(m) && m.delay.Some? && a != cfg.own
    ensures Went(m, React(cfg, m, DelayTimer, Silence(t), Turns(t)), SendToken(a), a)
  {
    ReactionFollows(cfg, m, DelayTimer, t);
    if HasLine(m.dyn.table, a) {
      var s := Stimulate(m, DelayTimer, Silence(t));
      StimulusKeeps(cfg, m, DelayTimer, Silence(t));
      StimulusQueues(cfg, m, DelayTimer, Silence(t));
      DrainLeavesLine(cfg, s, Turns(t), a);
    }
  }

  /** Something happens at a time when everything is due: the token of `a` is ready or carried out. */
  lemma Stir(cfg: Config, own: UniqueId, start: Clients, n: Net, a: Address) returns (n': Net, t: Time)
    requires Settled(cfg, own, start, n) && a != cfg.own && n.master.current != SendToken(a)
    requires Driven(cfg, n.master) || (Quiet(n.master) && Resting(n.master) && n.master.delay.Some?)
    ensures Settled(cfg, own, start, n') && n'.clients == n.clients && Went(n.master, n'.master, SendToken(a), a)
    ensures Ended(cfg, n.master, n'.master, t) && t >= Latest(n.master.sched.waiting)
  {
    t := Latest(n.master.sched.waiting);
    NobodyHears(n.clients, MasterStarted);
    if Driven(cfg, n.master) {
      n' := Serve(cfg, own, start, n, {}, t, a);
      WentOnce(cfg, n.master, n'.master, SendToken(a), a);
    } else {
      WakeMoves(cfg, n.master, t, a);
      var r := WakeEnds(cfg, n.master, t);
      n' := ReachTimer(cfg, own, start, n, DelayTimer, t, r);
    }
  }

  /** The token of `a` comes round. */
  lemma Recall(cfg: Config, own: UniqueId, start: Clients, n: Net, a: Address) returns (n': Net)
    requires Settled(cfg, own, start, n) && a != cfg.own && n.master.current != SendToken(a)
             && HasLine(n.master.dyn.table, a)
    requires Driven(cfg, n.master) || (Quiet(n.master) && Resting(n.master) && n.master.delay.Some?)
    ensures Settled(cfg, own, start, n') && n'.clients == n.clients
    ensures Driven(cfg, n'.master) && n'.master.current == SendToken(a) && Went(n.master, n'.master, SendToken(a), a)
  {
    var n1, t := Stir(cfg, own, start, n, a);
    var j := Recalled(cfg, n.master, n1.master, t, a);
    NobodyHears(n.clients, MasterStarted);
    n' := n1;
    if n1.master.current != SendToken(a) {
      n' := Drive(cfg, own, start, n1, {}, t, SendToken(a), j, a);
      WentOn(n.master, n1.master, n'.master, SendToken(a), a);
    }
  }

  /** One more grant that `x` does not hear, and the next one is sent. */
  lemma MissGrant(cfg: Config, own: UniqueId, start: Clients, n: Net, x: UniqueId, a: Address, y: UniqueId, k: nat)
    returns (n': Net)
    requires Settled(cfg, own, start, n) && a != cfg.own && Driven(cfg, n.master) && n.master.current == SendToken(a)
    requires OneHolder(n.master.dyn.table, x, a, y, k) && k < 3
    ensures Settled(cfg, own, start, n') && n'.clients == n.clients
    ensures Driven(cfg, n'.master) && n'.master.current == SendToken(a)
            && OneHolder(n'.master.dyn.table, x, a, y, k + 1)
  {
    NobodyHears(n.clients, MasterStarted);
    var n1 := Serve(cfg, own, start, n, {}, 1.0, a);
    var r := n1.master;
    HolderFails(cfg, n.master, r, x, a, y, k);
    n' := n1;
    if r.current != SendToken(a) {
      if r.current == DoNothing { RestIsArmed(cfg, r, a, 1.0); }
      n' := Recall(cfg, own, start, n1, a);
      HolderStays(r, n'.master, x, a, y, k + 1);
    }
  }

  /** What the answer to the first request leaves: a line, and a token that is ready. */
  lemma AnsweredHolds(cfg: Config, m: Master, x: UniqueId, a: Address, y: UniqueId, t: Time)
    requires Inv(cfg, m) && Driven(cfg, m) && m.current == QueryAddress && AddressFor(m.dyn, x) == Some(a)
    requires NoDynamic(m.dyn.table) && x != y
    requires forall i :: 0 <= i < |m.dyn.table| ==> m.dyn.table[i].uid != x && m.dyn.table[i].uid != y
    ensures var m' := Answered(cfg, m, x, t);
            && Inv(cfg, m') && Quiet(m') && Busy(m') && m'.fsm.state == WaitAddressReply && m'.current == QueryAddress
            && m'.sched.ready == m.sched.ready + [SendToken(a)] && OneHolder(m'.dyn.table, x, a, y, 0)
  {
    var m', t0 := Answered(cfg, m, x, t), m.dyn.table;
    AnswerEmits(cfg, m, x, t);
    AnswerKeepsBooks(cfg, m, x, t);
    assert m'.dyn.table == t0 + [Line(LineState.Idle, 0, a, true, x)];
    NewestLine(cfg, m', a, x);
  }

  lemma NewestLine(cfg: Config, m: Master, a: Address, x: UniqueId)
    requires Inv(cfg, m) && m.dyn.table != [] && m.dyn.table[|m.dyn.table| - 1] == Line(LineState.Idle, 0, a, true, x)
    ensures HasLine(m.dyn.table, a) && LineOf(m.dyn.table, a) == Line(LineState.Idle, 0, a, true, x)
  {
    InvTable(cfg, m);
    assert m.dyn.table[|m.dyn.table| - 1].addr == a;
  }

  lemma ReplyKeepsHolder(cfg: Config, m: Master, x: UniqueId, a: Address, y: UniqueId, t: Time, r: Master)
    requires Inv(cfg, m) && Quiet(m) && Busy(m) && m.fsm.state == WaitAddressReply && m.current == QueryAddress
    requires OneHolder(m.dyn.table, x, a, y, 0) && a != cfg.own && r == React(cfg, m, FsmTimer, Silence(t), Turns(t))
    ensures OneHolder(r.dyn.table, x, a, y, 0)
  {
    ReactionFollows(cfg, m, FsmTimer, t);
    QueuedMovesLine(cfg, m, FsmTimer, t, a);
    HolderStays(m, r, x, a, y, 0);
  }

  lemma ReplyEnds(cfg: Config, m: Master, t: Time) returns (r: Master)
    requires Inv(cfg, m) && Quiet(m) && Busy(m) && m.fsm.state == WaitAddressReply && m.current == QueryAddress
    ensures r == React(cfg, m, FsmTimer, Silence(t), Turns(t)) && Ended(cfg, m, r, t)
  {
    TimerEnds(cfg, m, t);
    r := React(cfg, m, FsmTimer, Silence(t), Turns(t));
  }

  /** The reply is over. */
  lemma FinishReply(cfg: Config, own: UniqueId, start: Clients, n: Net, x: UniqueId, a: Address, y: UniqueId, t: Time)
    returns (n': Net)
    requires NetReachable(cfg, own, start, n) && NetInv(cfg, n) && n.pending == [] && OwnIdle(own, n.clients)
    requires Quiet(n.master) && Busy(n.master) && n.master.fsm.state == WaitAddressReply
             && n.master.current == QueryAddress
    requires OneHolder(n.master.dyn.table, x, a, y, 0) && a != cfg.own
    ensures Settled(cfg, own, start, n') && n'.clients == n.clients
    ensures Ended(cfg, n.master, n'.master, t) && OneHolder(n'.master.dyn.table, x, a, y, 0)
  {
    var r := ReplyEnds(cfg, n.master, t);
    ReplyKeepsHolder(cfg, n.master, x, a, y, t, r);
    n' := ReachTimer(cfg, own, start, n, FsmTimer, t, r);
  }

  lemma ReadyGrant(cfg: Config, own: UniqueId, start: Clients, n: Net, x: UniqueId, a: Address, y: UniqueId, t: Time,
                   j: nat)
    returns (n': Net)
    requires Settled(cfg, own, start, n) && Driven(cfg, n.master) && OneHolder(n.master.dyn.table, x, a, y, 0)
             && a != cfg.own
    requires n.master.current != SendToken(a) ==> j < |n.master.sched.ready| && n.master.sched.ready[j] == SendToken(a)
    ensures Settled(cfg, own, start, n') && n'.clients == n.clients
    ensures Driven(cfg, n'.master) && n'.master.current == SendToken(a) && OneHolder(n'.master.dyn.table, x, a, y, 0)
  {
    n' := n;
    NobodyHears(n.clients, MasterStarted);
    if n.master.current != SendToken(a) {
      n' := Drive(cfg, own, start, n, {}, t, SendToken(a), j, a);
      HolderStays(n.master, n'.master, x, a, y, 0);
    }
  }

  /** The new holder's first grant is sent. */
  lemma FirstGrant(cfg: Config, own: UniqueId, start: Clients, n: Net, x: UniqueId, a: Address, y: UniqueId, t: Time)
    returns (n': Net)
    requires NetReachable(cfg, own, start, n) && NetInv(cfg, n) && n.pending == [] && OwnIdle(own, n.clients)
    requires Quiet(n.master) && Busy(n.master) && n.master.fsm.state == WaitAddressReply
             && n.master.current == QueryAddress
    requires OneHolder(n.master.dyn.table, x, a, y, 0) && a != cfg.own
    requires n.master.sched.ready != [] && n.master.sched.ready[|n.master.sched.ready| - 1] == SendToken(a)
    ensures Settled(cfg, own, start, n') && n'.clients == n.clients
    ensures Driven(cfg, n'.master) && n'.master.current == SendToken(a) && OneHolder(n'.master.dyn.table, x, a, y, 0)
  {
    var last := |n.master.sched.ready| - 1;
    var n1 := FinishReply(cfg, own, start, n, x, a, y, t);
    var j := Nearer(cfg, n.master, n1.master, t, SendToken(a), last);
    n' := ReadyGrant(cfg, own, start, n1, x, a, y, t, j);
  }

  lemma QueryIsSomewhere(cfg: Config, m: Master) returns (j: nat)
    requires Inv(cfg, m) && m.current != QueryAddress && m.dyn.discovery.None?
    ensures j < |m.sched.ready| && m.sched.ready[j] == QueryAddress
  {
    var w := Actions(m.sched.waiting);
    forall i | 0 <= i < |w| ensures w[i] != QueryAddress { assert m.sched.waiting[i] in m.sched.waiting; }
    assert multiset(w)[QueryAddress] == 0;
    assert Outstanding(m)[QueryAddress] == 1;
    assert QueryAddress in multiset(m.sched.ready);
    j :| 0 <= j < |m.sched.ready| && m.sched.ready[j] == QueryAddress;
  }

  function Queried(m: Master): Master {
    m.(dyn := m.dyn.(discovery := None), sched := m.sched.(ready := m.sched.ready + [QueryAddress]))
  }

  lemma QueriedStep(cfg: Config, own: UniqueId, n: Net, t: Time)
    requires cfg.Valid() && OwnIdle(own, n.clients) && Quiet(n.master) && n.master.dyn.discovery.Some?
    ensures var st := Timer(DiscoveryTimer, Calmly(t));
            Possible(own, n, st) && Orderly(n, st) && After(cfg, own, n, st) == n.(master := Queried(n.master))
  {
    assert React(cfg, n.master, DiscoveryTimer, Silence(t), Turns(t)) == Queried(n.master);
    SilentMaster(own, n, Queried(n.master));
  }

  lemma QueriedIsDriven(cfg: Config, cs: Clients, m: Master)
    requires Driven(cfg, m)
    ensures Driven(cfg, Queried(m)) && NetFor(cs, Queried(m)) == NetFor(cs, m).(master := Queried(m))
  {
  }

  /** The discovery timer fires while an action is under way. */
  lemma ReachQueried(cfg: Config, own: UniqueId, start: Clients, n: Net, t: Time) returns (n': Net)
    requires Settled(cfg, own, start, n) && Quiet(n.master) && n.master.dyn.discovery.Some?
    ensures n' == n.(master := Queried(n.master)) && NetReachable(cfg, own, start, n') && NetInv(cfg, n')
  {
    var st := Timer(DiscoveryTimer, Calmly(t));
    n' := n.(master := Queried(n.master));
    QueriedStep(cfg, own, n, t);
    NetStepKeeps(cfg, own, n, st);
    NetReachNext(cfg, own, start, n, st, n');
  }

  /** A discovery is made ready, if none is. */
  lemma ReadyQuery(cfg: Config, own: UniqueId, start: Clients, n: Net, t: Time) returns (n': Net, j: nat)
    requires Settled(cfg, own, start, n) && Driven(cfg, n.master) && n.master.current != QueryAddress
    ensures Settled(cfg, own, start, n') && Driven(cfg, n'.master) && n'.clients == n.clients
    ensures n'.master.current == n.master.current && n'.master.dyn.table == n.master.dyn.table
    ensures j < |n'.master.sched.ready| && n'.master.sched.ready[j] == QueryAddress
  {
    if n.master.dyn.discovery.Some? {
      QueriedIsDriven(cfg, n.clients, n.master);
      n' := ReachQueried(cfg, own, start, n, t);
      j := |n.master.sched.ready|;
    } else {
      n' := n;
      j := QueryIsSomewhere(cfg, n.master);
    }
  }

  /** The fourth grant that `x` misses: its address is the first to be given away at the next discovery. */
  lemma LoseAddress(cfg: Config, own: UniqueId, start: Clients, n: Net, x: UniqueId, a: Address, y: UniqueId)
    returns (n': Net)
    requires Settled(cfg, own, start, n) && a != cfg.own && Driven(cfg, n.master) && n.master.current == SendToken(a)
    requires OneHolder(n.master.dyn.table, x, a, y, 3)
    ensures Settled(cfg, own, start, n') && n'.clients == n.clients
    ensures Driven(cfg, n'.master) && n'.master.current == QueryAddress && AddressFor(n'.master.dyn, y) == Some(a)
  {
    NobodyHears(n.clients, MasterStarted);
    var n1, j := ReadyQuery(cfg, own, start, n, 1.0);
    var n2 := Serve(cfg, own, start, n1, {}, 1.0, a);
    HolderFails(cfg, n1.master, n2.master, x, a, y, 3);
    j := Nearer(cfg, n1.master, n2.master, 1.0, QueryAddress, j);
    n' := n2;
    if n2.master.current != QueryAddress {
      n' := Drive(cfg, own, start, n2, {}, 1.0, QueryAddress, j, a);
      AddressStays(n2.master.dyn, n'.master.dyn, y, a);
    }
  }

  lemma AddressStays(d: Dyn, d': Dyn, y: UniqueId, a: Address)
    requires DynFollows(d, d') && NoDynamic(d.table) && AddressFor(d, y) == Some(a)
    requires forall i :: 0 <= i < |d.table| ==> d.table[i].uid != y
    ensures AddressFor(d', y) == Some(a)
  {
    forall i | 0 <= i < |d'.table| ensures d'.table[i].uid != y { assert Listed(d.table, d'.table[i]); }
  }

  /** The newcomer `x` is given the address `a`, and its first grant is sent. */
  lemma HolderBegins(cfg: Config, own: UniqueId, start: Clients, n: Net, x: UniqueId, a: Address, y: UniqueId, t: Time)
    returns (n': Net)
    requires Settled(cfg, own, start, n) && Driven(cfg, n.master) && n.master.current == QueryAddress && own != x
             && x != y
    requires x in n.clients && n.clients[x].addr == NULL_ADDR && AddressFor(n.master.dyn, x) == Some(a) && a != cfg.own
    requires NoDynamic(n.master.dyn.table)
    requires var t := n.master.dyn.table; forall i :: 0 <= i < |t| ==> t[i].uid != x && t[i].uid != y
    ensures Settled(cfg, own, start, n') && n'.clients == n.clients[x := n.clients[x].(addr := a)]
    ensures Driven(cfg, n'.master) && n'.master.current == SendToken(a) && OneHolder(n'.master.dyn.table, x, a, y, 0)
  {
    AnsweredHolds(cfg, n.master, x, a, y, t);
    n' := ReachAddress(cfg, own, start, n, x, a, t);
    n' := FirstGrant(cfg, own, start, n', x, a, y, t);
  }

  lemma {:induction false} MissGrants(cfg: Config, own: UniqueId, start: Clients, n: Net, x: UniqueId, a: Address,
                                      y: UniqueId, k: nat)
    returns (n': Net)
    requires Settled(cfg, own, start, n) && a != cfg.own && Driven(cfg, n.master) && n.master.current == SendToken(a)
    requires OneHolder(n.master.dyn.table, x, a, y, 0) && k <= 3
    ensures Settled(cfg, own, start, n') && n'.clients == n.clients
    ensures Driven(cfg, n'.master) && n'.master.current == SendToken(a) && OneHolder(n'.master.dyn.table, x, a, y, k)
  {
    n' := n;
    if k > 0 {
      n' := MissGrants(cfg, own, start, n, x, a, y, k - 1);
      n' := MissGrant(cfg, own, start, n', x, a, y, k - 1);
    }
  }

  /** Four grants that `x` misses, and the newcomer `y` is given the address of `x`. */
  lemma HolderIsReplaced(cfg: Config, own: UniqueId, start: Clients, n: Net, x: UniqueId, a: Address, y: UniqueId,
                         t: Time)
    returns (n': Net)
    requires Settled(cfg, own, start, n) && a != cfg.own && Driven(cfg, n.master) && n.master.current == SendToken(a)
    requires OneHolder(n.master.dyn.table, x, a, y, 0) && y in n.clients && n.clients[y].addr == NULL_ADDR
    ensures NetReachable(cfg, own, start, n') && n'.clients == n.clients[y := n.clients[y].(addr := a)]
  {
    n' := MissGrants(cfg, own, start, n, x, a, y, 3);
    n' := LoseAddress(cfg, own, start, n', x, a, y);
    n' := ReachAddress(cfg, own, start, n', y, a, t);
  }

  /** Two newcomers: the first has just been sent its first grant. */
  lemma FirstOfTwo(cfg: Config, own: UniqueId, cs: Clients, hearers: set<UniqueId>, x: UniqueId, y: UniqueId,
                   uids: int -> UniqueId, t: Time)
    returns (n: Net)
    requires cfg.Valid() && cfg.dynLow <= cfg.dynHigh && cfg.dynLow != cfg.own && own != x && x != y
    requires QueuesHoldData(cs) && OwnIdle(own, cs) && HearAll(cs, hearers, MasterStarted) == cs
    requires !StaticId(cfg, uids, x) && !StaticId(cfg, uids, y) && x in cs && cs[x].addr == NULL_ADDR
    ensures Settled(cfg, own, cs, n) && n.clients == cs[x := cs[x].(addr := cfg.dynLow)]
    ensures Driven(cfg, n.master) && n.master.current == SendToken(cfg.dynLow)
    ensures OneHolder(n.master.dyn.table, x, cfg.dynLow, y, 0)
  {
    n := FirstDiscovery(cfg, own, cs, hearers, uids, t);
    FirstAddress(cfg, uids, n.master.dyn, x);
    FirstAddress(cfg, uids, n.master.dyn, y);
    n := HolderBegins(cfg, own, cs, n, x, cfg.dynLow, y, t);
  }

  /** In every configuration that gives addresses away: a client that misses four grants in a row keeps its
      address, its line is retired, and the next newcomer is given the same address. */
  lemma MissedGrantsShareAddress(cfg: Config, own: UniqueId, x: UniqueId, y: UniqueId, uids: int -> UniqueId, t: Time)
    returns (n: Net)
    requires cfg.Valid() && cfg.dynLow <= cfg.dynHigh && cfg.dynLow != cfg.own && own != x && own != y && x != y
    requires !StaticId(cfg, uids, x) && !StaticId(cfg, uids, y)
    ensures NetReachable(cfg, own, Three(cfg, own, x, NULL_ADDR, y), n)
    ensures x in n.clients && y in n.clients && n.clients[x].addr == n.clients[y].addr == cfg.dynLow
  {
    var cs, a := Three(cfg, own, x, NULL_ADDR, y), cfg.dynLow;
    StartMovesNobody(cfg, own, x, NULL_ADDR, y, {own, x, y});
    n := FirstOfTwo(cfg, own, cs, {own, x, y}, x, y, uids, t);
    n := HolderIsReplaced(cfg, own, cs, n, x, a, y, t);
  }
}
