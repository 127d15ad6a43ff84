/** The bus master as one value: the state machine, the action handler and the address handler,
    and what a single dispatched event or timer does to them. */
module MasterModel {
  import opened Prelude
  import opened Bytes
  import opened Protocol
  import opened Scheduler

  // ---------------------------------------------------------------- configuration

  datatype Config = Config(
    staticLow: int, staticHigh: int, dynLow: int, dynHigh: int, own: Address,
    startEcho: Time, grantEcho: Time, clientTimeout: Time,
    afterPacket: Time, afterReturn: Time, afterTimeout: Time, afterFree: Time, queryPeriod: Time)
  {
    predicate IsStatic(a: int) { staticLow <= a <= staticHigh }
    predicate IsDynamic(a: int) { dynLow <= a <= dynHigh }

    predicate Valid() {
      && 1 <= staticLow && staticHigh <= 254 && 1 <= dynLow && dynHigh <= 254
      && (staticHigh < dynLow || dynHigh < staticLow)
      && startEcho > 0.0 && grantEcho > 0.0 && clientTimeout > 0.0
      && afterPacket > 0.0 && afterReturn > 0.0 && afterTimeout > 0.0 && afterFree > 0.0
      && queryPeriod > 0.0
    }
  }

  /** The values compiled into the program; the master's own client has address 1 by default. */
  const SHIPPED := Config(1, 3, 33, 48, 1, 0.1, 0.1, 0.08, 0.0001, 0.1, 10.0, 30.0, 5.0)

  lemma ShippedIsValid()
    ensures SHIPPED.Valid() && SHIPPED.IsStatic(SHIPPED.own)
    ensures forall a :: (SHIPPED.IsStatic(a) <==> a in {1, 2, 3}) && (SHIPPED.IsDynamic(a) <==> 33 <= a <= 48)
    ensures SHIPPED.own == 1 && SHIPPED.startEcho == 0.1 && SHIPPED.grantEcho == 0.1 && SHIPPED.clientTimeout == 0.08
    ensures SHIPPED.afterPacket == 0.0001 && SHIPPED.afterReturn == 0.1 && SHIPPED.afterTimeout == 10.0
    ensures SHIPPED.afterFree == 30.0 && SHIPPED.queryPeriod == 5.0
  {
  }

  // ---------------------------------------------------------------- address lines

  datatype LineState = Active | Idle | BadClient | Free

  datatype Line = Line(state: LineState, bad: nat, addr: Address, dynamic: bool, uid: UniqueId)

  /** The outcome of a token is recorded; the fourth failure in a row frees the line. */
  function SetState(l: Line, st: LineState): Line {
    var bad := if st == BadClient then l.bad + 1 else 0;
    l.(bad := bad, state := if bad > 3 then Free else st)
  }

  predicate RemoveDynamic(l: Line) { l.dynamic && l.state == Free }

  predicate HasLine(t: seq<Line>, a: Address) {
    exists i :: 0 <= i < |t| && t[i].addr == a
  }

  predicate HasId(t: seq<Line>, id: UniqueId) {
    exists i :: 0 <= i < |t| && t[i].uid == id
  }

  /** First line with the given address, or the table's size. */
  function FindAddr(t: seq<Line>, a: Address): (i: nat)
    ensures i <= |t|
    ensures i < |t| ==> t[i].addr == a
    ensures forall j :: 0 <= j < i ==> t[j].addr != a
    ensures i < |t| <==> HasLine(t, a)
  {
    if t == [] then 0
    else if t[0].addr == a then 0
    else
      assert forall j :: 0 <= j < |t[1..]| ==> t[1..][j] == t[j + 1];
      1 + FindAddr(t[1..], a)
  }

  /** First line with the given unique id, or the table's size. */
  function FindId(t: seq<Line>, id: UniqueId): (i: nat)
    ensures i <= |t|
    ensures i < |t| ==> t[i].uid == id
    ensures forall j :: 0 <= j < i ==> t[j].uid != id
    ensures i < |t| <==> HasId(t, id)
  {
    if t == [] then 0
    else if t[0].uid == id then 0
    else
      assert forall j :: 0 <= j < |t[1..]| ==> t[1..][j] == t[j + 1];
      1 + FindId(t[1..], id)
  }

  // ---------------------------------------------------------------- the master

  datatype FsmState =
    | IdleState | StartMaster | SendingToken | WaitClientPacketDone | QueryAddressState | WaitAddressReply

  datatype Event =
    | RxMasterStartStop | RxGrantToken | RxClientPacket | RxReturnToken
    | RxAddressRequest(id: UniqueId)
    | TimerTimeout | CheckNewCommand

  /** Events that a received packet can turn into. */
  predicate IsPacketEvent(e: Event) { !e.TimerTimeout? && !e.CheckNewCommand? }

  /** The event that a received message is turned into. */
  function EventOf(m: Msg): Option<Event> {
    match m
    case GrantToken(_) => Some(RxGrantToken)
    case ReturnToken(_) => Some(RxReturnToken)
    case SendPacket(_, _, _, _) => Some(RxClientPacket)
    case MacUpdate(_, _, _, _) => Some(RxClientPacket)
    case MasterStarted => Some(RxMasterStartStop)
    case MasterEnded => Some(RxMasterStartStop)
    case AddressRequest(id, _, _) => Some(RxAddressRequest(id))
    case AddressDiscovery(_, _) => None
    case AddressReply(_, _) => None
  }

  datatype ReturnValue = Ok | Timeout | RxTokenNoPacket | ClientPacketStarted | TokenTimeout | AddressQueryDone

  /** What the master hands to the transmitter. */
  datatype Tx = TxStart | TxGrant(addr: Address) | TxOwnPacket | TxDiscovery | TxReply(addr: Address, id: UniqueId)

  /** Ways the program dies: an `assert` in `startAction`, a null line, the `assert(0)` of a report. */
  datatype Fault = NoFault | ActionActive | NullLine | BadReport

  datatype Fsm = Fsm(state: FsmState, timer: Option<Time>, action: Action, events: seq<Event>)

  datatype Dyn = Dyn(table: seq<Line>, free: seq<Address>, discovery: Option<Time>)

  /** `sent` and `started` are histories: every transmission and every started action so far. */
  datatype Master = Master(
    fsm: Fsm, current: Action, delay: Option<Time>, sched: Sched, dyn: Dyn,
    sent: seq<Tx>, started: seq<Action>, fault: Fault)

  /** What a dispatch reads from outside: the clock, the own client's queue, the receiver. */
  datatype Env = Env(now: Time, txEmpty: bool, rxBusy: bool, hint: seq<nat>)

  function Send(s: Master, t: Tx): Master { s.(sent := s.sent + [t]) }

  // ---------------------------------------------------------------- address handler

  function NextTime(cfg: Config, st: LineState, now: Time): Time {
    match st
    case Active => now + cfg.afterPacket
    case Idle => now + cfg.afterReturn
    case BadClient => now + cfg.afterTimeout
    case Free => now + cfg.afterFree
  }

  function UpdateAddressLine(cfg: Config, s: Master, a: Address, st: LineState, now: Time): Master {
    var i := FindAddr(s.dyn.table, a);
    if i == |s.dyn.table| then s.(fault := NullLine) else
    var l := SetState(s.dyn.table[i], st);
    if RemoveDynamic(l) then
      s.(dyn := s.dyn.(table := Remove(s.dyn.table, i), free := s.dyn.free + [l.addr]))
    else
      s.(dyn := s.dyn.(table := s.dyn.table[i := l]),
         sched := s.sched.(waiting := s.sched.waiting + [Waiting(NextTime(cfg, l.state, now), SendToken(a))]))
  }

  function ReceivedAddressRequest(s: Master, id: UniqueId): Master {
    var i := FindId(s.dyn.table, id);
    if i < |s.dyn.table| then
      Send(s, TxReply(s.dyn.table[i].addr, id))
    else if s.dyn.free != [] then
      var n := |s.dyn.free| - 1;
      var a := s.dyn.free[n];
      Send(s.(dyn := s.dyn.(free := s.dyn.free[..n], table := s.dyn.table + [Line(Idle, 0, a, true, id)]),
              sched := s.sched.(ready := s.sched.ready + [SendToken(a)])),
           TxReply(a, id))
    else s
  }

  // ---------------------------------------------------------------- action handler

  /** `startAction` posts to a machine that is still inside a dispatch, or starts a drain. */
  function StartAction(s: Master, a: Action): Master {
    if s.fsm.action != DoNothing then s.(fault := ActionActive)
    else s.(fsm := s.fsm.(action := a, events := s.fsm.events + [CheckNewCommand]))
  }

  /** The front of the ready queue is started; with nothing ready, the delay timer is armed. */
  function StartNext(s: Master, q: Sched): Master {
    if q.ready != [] then
      var a := q.ready[0];
      StartAction(s.(sched := q.(ready := q.ready[1..]), current := a, started := s.started + [a]), a)
    else if ReadyTime(q.waiting) < 1.0 then s.(sched := q)
    else s.(sched := q, delay := Some(ReadyTime(q.waiting)))
  }

  function CheckNewAction(s: Master, env: Env): Master {
    if s.current != DoNothing then s else StartNext(s, Promoted(s.sched, env.now, env.hint))
  }

  function ActionAddr(a: Action): Address {
    if a.SendToken? then a.addr else NULL_ADDR
  }

  function RecordResult(cfg: Config, s: Master, a: Address, rv: ReturnValue, now: Time): Master {
    match rv
    case ClientPacketStarted => UpdateAddressLine(cfg, s, a, Active, now)
    case RxTokenNoPacket => UpdateAddressLine(cfg, s, a, Idle, now)
    case TokenTimeout => UpdateAddressLine(cfg, s, a, BadClient, now)
    case AddressQueryDone => s.(dyn := s.dyn.(discovery := Some(now + cfg.queryPeriod)))
    case Ok => s
    case Timeout => s.(fault := BadReport)
  }

  function HandlerReport(cfg: Config, s: Master, rv: ReturnValue, env: Env): Master {
    var s1 := RecordResult(cfg, s.(current := DoNothing), ActionAddr(s.current), rv, env.now);
    if s1.fault != NoFault then s1 else CheckNewAction(s1, env)
  }

  // ---------------------------------------------------------------- state machine

  /** A report clears the machine's action first, then calls back into the handler. */
  function Report(cfg: Config, s: Master, rv: ReturnValue, env: Env): Master {
    var s1 := s.(fsm := s.fsm.(action := DoNothing));
    if s.fsm.action == DoNothing then s1 else HandlerReport(cfg, s1, rv, env)
  }

  function SetTimer(s: Master, t: Option<Time>): Master { s.(fsm := s.fsm.(timer := t)) }

  /** What the state machine decides to do about an event. */
  datatype Reaction =
    | Ignore
    | CarryOut                // enter the state that the started action calls for
    | Finish(rv: ReturnValue) // report the result and be in idle
    | AwaitClient             // the grant's echo was heard
    | Rearm                   // a packet is coming in; wait a bit more
    | GiveUp                  // the grant's echo was not heard: to idle, without a report
    | Answer(id: UniqueId)    // an address request

  function TimeoutReaction(rv: ReturnValue, env: Env): Reaction {
    if env.rxBusy then Rearm else Finish(rv)
  }

  /** The six states' event tables. */
  function ReactionTo(cfg: Config, m: Fsm, e: Event, env: Env): Reaction {
    match m.state
    case IdleState =>
      if !e.CheckNewCommand? || m.action == DoNothing then Ignore
      else if m.action == SendToken(cfg.own) && env.txEmpty then Finish(RxTokenNoPacket)
      else CarryOut
    case StartMaster =>
      if e.RxMasterStartStop? then Finish(Ok)
      else if e.TimerTimeout? then Finish(Timeout) else Ignore
    case SendingToken =>
      if e.RxGrantToken? then AwaitClient
      else if e.TimerTimeout? then GiveUp else Ignore
    case WaitClientPacketDone =>
      if e.RxClientPacket? then Finish(ClientPacketStarted)
      else if e.RxReturnToken? then Finish(RxTokenNoPacket)
      else if e.TimerTimeout? then TimeoutReaction(TokenTimeout, env) else Ignore
    case QueryAddressState =>
      if e.RxAddressRequest? then Answer(e.id)
      else if e.TimerTimeout? then TimeoutReaction(AddressQueryDone, env) else Ignore
    case WaitAddressReply =>
      if e.TimerTimeout? then TimeoutReaction(AddressQueryDone, env) else Ignore
  }

  /** State, timer and transmission for a started action. */
  function Carry(cfg: Config, s: Master, now: Time): Master {
    match s.fsm.action
    case DoNothing => s
    case SendMasterStart =>
      Send(s.(fsm := s.fsm.(state := StartMaster, timer := Some(now + cfg.startEcho))), TxStart)
    case QueryAddress =>
      Send(s.(fsm := s.fsm.(state := QueryAddressState, timer := Some(now + cfg.clientTimeout))), TxDiscovery)
    case SendToken(a) =>
      if a == cfg.own then
        Send(s.(fsm := s.fsm.(state := WaitClientPacketDone, timer := Some(now + cfg.clientTimeout))), TxOwnPacket)
      else
        Send(s.(fsm := s.fsm.(state := SendingToken, timer := Some(now + cfg.grantEcho))), TxGrant(a))
  }

  function ReportThenIdle(cfg: Config, s: Master, rv: ReturnValue, env: Env): Master {
    var r := Report(cfg, s, rv, env);
    if r.fault != NoFault then r else r.(fsm := r.fsm.(state := IdleState, timer := None))
  }

  function Perform(cfg: Config, s: Master, r: Reaction, env: Env): Master {
    match r
    case Ignore => s
    case CarryOut => Carry(cfg, s, env.now)
    case Finish(rv) => ReportThenIdle(cfg, s, rv, env)
    case AwaitClient =>
      s.(fsm := s.fsm.(state := WaitClientPacketDone, timer := Some(env.now + cfg.clientTimeout)))
    case Rearm => SetTimer(s, Some(env.now + cfg.clientTimeout))
    case GiveUp => s.(fsm := s.fsm.(state := IdleState, timer := None))
    case Answer(id) =>
      var a := ReceivedAddressRequest(s, id);
      a.(fsm := a.fsm.(state := WaitAddressReply, timer := Some(env.now + cfg.clientTimeout)))
  }

  function PopEvent(s: Master): Master {
    if s.fault != NoFault || s.fsm.events == [] then s
    else s.(fsm := s.fsm.(events := s.fsm.events[1..]))
  }

  /** One turn of the drain loop: the front event is handled, then popped. */
  function Dispatch(cfg: Config, s: Master, env: Env): Master
    requires s.fsm.events != []
  {
    PopEvent(Perform(cfg, s, ReactionTo(cfg, s.fsm, s.fsm.events[0], env), env))
  }

  // ---------------------------------------------------------------- stimuli and steps

  datatype Stimulus = Packet(event: Event) | FsmTimer | DelayTimer | DiscoveryTimer

  predicate Enabled(s: Master, k: Stimulus) {
    match k
    case Packet(e) => IsPacketEvent(e)
    case FsmTimer => s.fsm.timer.Some?
    case DelayTimer => s.delay.Some?
    case DiscoveryTimer => s.dyn.discovery.Some?
  }

  /** The outside world touches a quiescent master. Posting leaves the event for the drain loop. */
  function Stimulate(s: Master, k: Stimulus, env: Env): Master {
    match k
    case Packet(e) => s.(fsm := s.fsm.(events := s.fsm.events + [e]))
    case FsmTimer => s.(fsm := s.fsm.(timer := None, events := s.fsm.events + [TimerTimeout]))
    case DelayTimer => CheckNewAction(s.(delay := None), env)
    case DiscoveryTimer =>
      s.(dyn := s.dyn.(discovery := None), sched := s.sched.(ready := s.sched.ready + [QueryAddress]))
  }

  function StaticLines(lo: int, hi: int, uids: int -> UniqueId): (t: seq<Line>)
    requires 0 <= lo && (lo <= hi ==> hi < 256)
    ensures |t| == if lo <= hi then hi - lo + 1 else 0
    ensures forall i :: 0 <= i < |t| ==> t[i] == Line(Free, 0, lo + i, false, uids(lo + i))
  {
    seq(if lo <= hi then hi - lo + 1 else 0,
        i requires 0 <= i && lo + i <= hi => Line(Free, 0, lo + i, false, uids(lo + i)))
  }

  function Tokens(t: seq<Line>): (r: seq<Action>)
    ensures |r| == |t| && forall i :: 0 <= i < |t| ==> r[i] == SendToken(t[i].addr)
  {
    seq(|t|, i requires 0 <= i < |t| => SendToken(t[i].addr))
  }

  /** The pool is filled from the highest address down, so that the lowest is handed out first. */
  function Pool(lo: int, hi: int): (r: seq<Address>)
    requires (lo <= hi ==> 0 <= lo && hi < 256)
    ensures |r| == if lo <= hi then hi - lo + 1 else 0
    ensures forall i :: 0 <= i < |r| ==> r[i] == hi - i
  {
    seq(if lo <= hi then hi - lo + 1 else 0, i requires 0 <= i && lo <= hi - i => hi - i)
  }

  /** The master with its start-up actions posted and none of them started yet.
      The unique ids of static lines are never initialised, so they are arbitrary. */
  function Posted(cfg: Config, uids: int -> UniqueId): Master
    requires cfg.Valid()
  {
    var t := StaticLines(cfg.staticLow, cfg.staticHigh, uids);
    Master(Fsm(IdleState, None, DoNothing, []), DoNothing, None,
           Sched([SendMasterStart] + Tokens(t) + [QueryAddress], []),
           Dyn(t, Pool(cfg.dynLow, cfg.dynHigh), None), [], [], NoFault)
  }

  /** The constructed master: the first action is started. */
  function Boot(cfg: Config, uids: int -> UniqueId, env: Env): Master
    requires cfg.Valid()
  {
    CheckNewAction(Posted(cfg, uids), env)
  }
}
