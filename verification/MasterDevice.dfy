/** The master as the program runs it: fields that change in place, and methods that call back into
    each other while an event is still being processed. Every method is proved against the model. */
module MasterDevice {
  import opened Prelude
  import opened Bytes
  import opened Protocol
  import opened Scheduler
  import opened MasterModel
  import opened MasterInvariant
  import opened MasterSteps
  import opened MasterRuns
  import opened MasterTheorems

  /** What the surroundings show while one stimulus is processed. */
  datatype View = View(now: Time, txEmpty: bool, rxBusy: bool)

  function Seen(v: View, hint: seq<nat>): Env { Env(v.now, v.txEmpty, v.rxBusy, hint) }

  // ---------------------------------------------------------------- transitions

  /** The master after a state's event function returned, before the transition it asked for. */
  function Handled(cfg: Config, s: Master, r: Reaction, env: Env): Master {
    match r
    case Finish(rv) => if s.fsm.state == WaitAddressReply then s else MasterModel.Report(cfg, s, rv, env)
    case CarryOut =>
      if !s.fsm.action.SendToken? then s
      else if s.fsm.action.addr == cfg.own then Send(s, TxOwnPacket) else Send(s, TxGrant(s.fsm.action.addr))
    case Rearm => SetTimer(s, Some(env.now + cfg.clientTimeout))
    case Answer(id) => MasterModel.ReceivedAddressRequest(s, id)
    case _ => s
  }

  /** The transition that an event function asks for. */
  function Target(cfg: Config, m: Fsm, r: Reaction): Option<FsmState> {
    match r
    case Finish(rv) => if m.state == IdleState then None else Some(IdleState)
    case CarryOut =>
      (match m.action
       case SendToken(a) => if a == cfg.own then Some(WaitClientPacketDone) else Some(SendingToken)
       case QueryAddress => Some(QueryAddressState)
       case SendMasterStart => Some(StartMaster)
       case DoNothing => None)
    case AwaitClient => Some(WaitClientPacketDone)
    case GiveUp => Some(IdleState)
    case Answer(id) => Some(WaitAddressReply)
    case _ => None
  }

  /** Destructor of the state that is left: only the reply state reports from there. */
  function Exited(cfg: Config, s: Master, env: Env): Master {
    match s.fsm.state
    case IdleState => s
    case WaitAddressReply => MasterModel.Report(cfg, SetTimer(s, None), AddressQueryDone, env)
    case _ => SetTimer(s, None)
  }

  /** Constructor of the state that is entered. */
  function Entered(cfg: Config, s: Master, st: FsmState, now: Time): Master {
    var s1 := s.(fsm := s.fsm.(state := st));
    match st
    case IdleState => s1
    case StartMaster => SetTimer(Send(s1, TxStart), Some(now + cfg.startEcho))
    case SendingToken => SetTimer(s1, Some(now + cfg.grantEcho))
    case QueryAddressState => Send(SetTimer(s1, Some(now + cfg.clientTimeout)), TxDiscovery)
    case _ => SetTimer(s1, Some(now + cfg.clientTimeout))
  }

  function Transitioned(cfg: Config, h: Master, next: Option<FsmState>, env: Env): Master {
    if h.fault != NoFault || next.None? then h else
    var x := Exited(cfg, h, env);
    if x.fault != NoFault then x else Entered(cfg, x, next.value, env.now)
  }

  lemma LookIgnoresTimer(s: Master, t: Option<Time>, env: Env)
    ensures MasterModel.CheckNewAction(SetTimer(s, t), env) == SetTimer(MasterModel.CheckNewAction(s, env), t)
  {
    var q := Promoted(s.sched, env.now, env.hint);
    assert StartNext(SetTimer(s, t), q) == SetTimer(StartNext(s, q), t);
  }

  lemma QueryReportIgnoresTimer(cfg: Config, s: Master, t: Option<Time>, env: Env)
    requires s.fault == NoFault
    ensures MasterModel.Report(cfg, SetTimer(s, t), AddressQueryDone, env)
            == SetTimer(MasterModel.Report(cfg, s, AddressQueryDone, env), t)
  {
    LookIgnoresTimer(Recorded(cfg, s, AddressQueryDone, env.now), t, env);
  }

  /** Reports that fit the current action neither fail nor move the machine. */
  lemma ReportLeavesState(cfg: Config, s: Master, env: Env, rv: ReturnValue)
    requires Inv(cfg, s) && s.fault == NoFault && s.fsm.events != [] && Decision(cfg, s, env) == Finish(rv)
    ensures var r := MasterModel.Report(cfg, s, rv, env);
            if rv.Timeout? then r.fault != NoFault
            else r.fault == NoFault && r.fsm.state == s.fsm.state && r.fsm.timer == s.fsm.timer && r.fsm.events != []
  {
    DecisionFits(cfg, s, env);
    if rv.Timeout? { UnheardStartDies(cfg, s, env); } else { ReportKeeps(cfg, s, rv, env); }
  }

  lemma HandledLeavesState(cfg: Config, s: Master, env: Env)
    requires Inv(cfg, s) && s.fault == NoFault && s.fsm.events != []
    ensures var h := Handled(cfg, s, Decision(cfg, s, env), env);
            h.fault == NoFault ==> h.fsm.state == s.fsm.state && h.fsm.events != []
  {
    match Decision(cfg, s, env)
    case Finish(rv) => ReportLeavesState(cfg, s, env, rv);
    case Answer(id) => RequestReplies(s, id);
    case _ =>
  }

  lemma FinishIsTransition(cfg: Config, s: Master, rv: ReturnValue, env: Env, r: Master)
    requires s.fault == NoFault && r == MasterModel.Report(cfg, s, rv, env)
    requires r.fault == NoFault ==> r.fsm.state == s.fsm.state && r.fsm.timer == s.fsm.timer
    requires s.fsm.state == IdleState ==> s.fsm.timer == None
    requires s.fsm.state == WaitAddressReply ==> rv.AddressQueryDone? && r.fault == NoFault
    ensures ReportThenIdle(cfg, s, rv, env)
            == Transitioned(cfg, Handled(cfg, s, Finish(rv), env), Target(cfg, s.fsm, Finish(rv)), env)
  {
    if s.fsm.state == WaitAddressReply { QueryReportIgnoresTimer(cfg, s, None, env); }
  }

  lemma AnswerIsTransition(cfg: Config, s: Master, id: UniqueId, env: Env)
    requires s.fault == NoFault && s.fsm.state == QueryAddressState
    ensures var r := Answer(id);
            Perform(cfg, s, r, env) == Transitioned(cfg, Handled(cfg, s, r, env), Target(cfg, s.fsm, r), env)
  {
    RequestReplies(s, id);
  }

  lemma OtherIsTransition(cfg: Config, s: Master, e: Event, env: Env)
    requires s.fault == NoFault
    requires var r := ReactionTo(cfg, s.fsm, e, env); !r.Finish? && !r.Answer?
    ensures var r := ReactionTo(cfg, s.fsm, e, env);
            Perform(cfg, s, r, env) == Transitioned(cfg, Handled(cfg, s, r, env), Target(cfg, s.fsm, r), env)
  {
  }

  /** Event function, destructor and constructor together do what the reaction says. */
  lemma PerformIsTransition(cfg: Config, s: Master, env: Env)
    requires Inv(cfg, s) && s.fault == NoFault && s.fsm.events != []
    ensures var r := Decision(cfg, s, env);
            Perform(cfg, s, r, env) == Transitioned(cfg, Handled(cfg, s, r, env), Target(cfg, s.fsm, r), env)
  {
    match Decision(cfg, s, env)
    case Finish(rv) =>
      ReportLeavesState(cfg, s, env, rv);
      FinishIsTransition(cfg, s, rv, env, MasterModel.Report(cfg, s, rv, env));
    case Answer(id) => AnswerIsTransition(cfg, s, id, env);
    case _ => OtherIsTransition(cfg, s, s.fsm.events[0], env);
  }

  /** A dispatch looks at the heap once: in the event function, or, in the reply state, on exit. */
  lemma OneLookPerEvent(cfg: Config, s: Master, v: View, h1: seq<nat>, h2: seq<nat>)
    requires Inv(cfg, s) && s.fault == NoFault && s.fsm.events != []
    requires s.fsm.state != WaitAddressReply ==> h2 == h1
    ensures var r := Decision(cfg, s, Seen(v, h1));
            && r == Decision(cfg, s, Seen(v, h2))
            && Transitioned(cfg, Handled(cfg, s, r, Seen(v, h1)), Target(cfg, s.fsm, r), Seen(v, h2))
               == Perform(cfg, s, r, Seen(v, h2))
  {
    assert Handled(cfg, s, Decision(cfg, s, Seen(v, h1)), Seen(v, h1))
        == Handled(cfg, s, Decision(cfg, s, Seen(v, h2)), Seen(v, h2));
    PerformIsTransition(cfg, s, Seen(v, h2));
  }

  predicate ReadyToLook(cfg: Config, s: Master) {
    Resting(s) && s.delay == None && s.fault == NoFault && s.fsm.events == []
  }

  lemma LookStaysInPhase(cfg: Config, s: Master, env: Env)
    requires s.fsm.events == [] ==> Inv(cfg, s) && ReadyToLook(cfg, s)
    ensures s.fsm.events == [] ==> Inv(cfg, MasterModel.CheckNewAction(s, env))
  {
    if s.fsm.events == [] {
      LookKeepsBooks(cfg, s, env);
      LookedPhase(s, MasterModel.CheckNewAction(s, env), env.now);
    }
  }

  /** One more turn of the drain loop that began in `s0`. */
  lemma OneMoreTurn(cfg: Config, s0: Master, envs: seq<Env>, s: Master, s': Master, v: View, hint: seq<nat>)
    requires Inv(cfg, s) && s.fault == NoFault && s.fsm.events != [] && s == Drain(cfg, s0, envs)
    requires s' == Dispatch(cfg, s, Seen(v, hint))
    ensures Inv(cfg, s') && s' == Drain(cfg, s0, envs + [Seen(v, hint)])
    ensures DispatchesLeft(cfg, s', Seen(v, [])) < DispatchesLeft(cfg, s, Seen(v, []))
  {
    TurnKeeps(cfg, s, Seen(v, []), Seen(v, hint));
    DrainOneMore(cfg, s0, envs, Seen(v, hint));
  }

  lemma StartNextReplaces(s: Master, q: Sched)
    ensures StartNext(s.(sched := q), q) == StartNext(s, q)
  {
  }

  class Device {
    const cfg: Config

    // the state machine
    var state: FsmState
    var timer: Option<Time>
    var action: Action
    var events: seq<Event>

    // the action handler
    const scheduler: MasterScheduler
    var current: Action
    var delay: Option<Time>

    // the address handler
    var table: seq<Line>
    var free: seq<Address>
    var discovery: Option<Time>

    // histories, and how the program died
    var sent: seq<Tx>
    var started: seq<Action>
    var fault: Fault

    ghost function Model(): Master
      reads this, scheduler
    {
      Master(Fsm(state, timer, action, events), current, delay, scheduler.Model(),
             Dyn(table, free, discovery), sent, started, fault)
    }

    constructor (cfg: Config)
      ensures this.cfg == cfg && fresh(scheduler)
      ensures Model() == Master(Fsm(IdleState, None, DoNothing, []), DoNothing, None, Sched([], []),
                                Dyn([], [], None), [], [], NoFault)
    {
      this.cfg := cfg;
      scheduler := new MasterScheduler();
      state, timer, action, events := IdleState, None, DoNothing, [];
      current, delay := DoNothing, None;
      table, free, discovery := [], [], None;
      sent, started, fault := [], [], NoFault;
    }

    /** Fills the table and the pool, and posts the first round of tokens and a discovery. */
    method Start(uids: int -> UniqueId)
      requires cfg.Valid() && table == [] && free == []
      modifies this`table, this`free, scheduler
      ensures table == StaticLines(cfg.staticLow, cfg.staticHigh, uids) && free == Pool(cfg.dynLow, cfg.dynHigh)
      ensures scheduler.Model()
              == old(scheduler.Model()).(ready := old(scheduler.ready) + Tokens(table) + [QueryAddress])
    {
      var i := cfg.staticLow;
      while i <= cfg.staticHigh
        invariant cfg.staticLow <= i && (i <= cfg.staticHigh + 1 || i == cfg.staticLow) && free == []
        invariant table == StaticLines(cfg.staticLow, i - 1, uids)
        invariant scheduler.Model() == old(scheduler.Model()).(ready := old(scheduler.ready) + Tokens(table))
      {
        assert StaticLines(cfg.staticLow, i, uids)
            == StaticLines(cfg.staticLow, i - 1, uids) + [Line(Free, 0, i, false, uids(i))];
        ghost var t := table;
        table := table + [Line(Free, 0, i, false, uids(i))];
        scheduler.AddActionNow(SendToken(i));
        assert Tokens(table) == Tokens(t) + [SendToken(i)];
        i := i + 1;
      }
      var k := cfg.dynHigh;
      while k >= cfg.dynLow
        invariant k <= cfg.dynHigh && (k >= cfg.dynLow - 1 || k == cfg.dynHigh)
        invariant free == Pool(k + 1, cfg.dynHigh)
        invariant table == StaticLines(cfg.staticLow, cfg.staticHigh, uids)
        invariant scheduler.Model() == old(scheduler.Model()).(ready := old(scheduler.ready) + Tokens(table))
      {
        assert Pool(k, cfg.dynHigh) == Pool(k + 1, cfg.dynHigh) + [k];
        free := free + [k];
        k := k - 1;
      }
      scheduler.AddActionNow(QueryAddress);
    }

    /** What the constructor of the whole master does once its parts exist: it posts the start-up
        actions and looks for work, so the first drain happens right here. */
    method Wire(uids: int -> UniqueId, v: View) returns (ghost env: Env, ghost envs: seq<Env>)
      requires cfg.Valid()
      requires Model() == Master(Fsm(IdleState, None, DoNothing, []), DoNothing, None, Sched([], []),
                                 Dyn([], [], None), [], [], NoFault)
      modifies this, scheduler
      ensures |envs| <= 3 && Model() == Drain(cfg, Boot(cfg, uids, env), envs)
      ensures fault != NoFault || events == []
    {
      scheduler.AddActionNow(SendMasterStart);
      Start(uids);
      assert [] + [SendMasterStart] + Tokens(table) + [QueryAddress]
          == [SendMasterStart] + Tokens(table) + [QueryAddress];
      assert Model() == Posted(cfg, uids);
      PostedInv(cfg, uids);
      ghost var hint;
      hint, envs := CheckNewAction(v);
      env := Seen(v, hint);
    }

    // -------------------------------------------------------------- address handler

    method FindLineByAddress(a: Address) returns (i: nat)
      ensures i == FindAddr(table, a)
    {
      i := 0;
      while i < |table| && table[i].addr != a
        invariant i <= |table| && forall j :: 0 <= j < i ==> table[j].addr != a
      {
        i := i + 1;
      }
    }

    method FindLineById(id: UniqueId) returns (i: nat)
      ensures i == FindId(table, id)
    {
      i := 0;
      while i < |table| && table[i].uid != id
        invariant i <= |table| && forall j :: 0 <= j < i ==> table[j].uid != id
      {
        i := i + 1;
      }
    }

    method UpdateAddressLine(a: Address, st: LineState, now: Time)
      modifies this, scheduler
      ensures Model() == MasterModel.UpdateAddressLine(cfg, old(Model()), a, st, now)
    {
      var i := FindLineByAddress(a);
      if i == |table| {
        fault := NullLine;
        return;
      }
      var line := SetState(table[i], st);
      table := table[i := line];
      if RemoveDynamic(line) {
        free := free + [line.addr];
        table := table[..i] + table[i + 1..];
        assert table == Remove(old(table), i);
      } else {
        scheduler.AddAction(SendToken(a), NextTime(cfg, line.state, now));
      }
    }

    method ReceivedAddressRequest(id: UniqueId)
      modifies this, scheduler
      ensures Model() == MasterModel.ReceivedAddressRequest(old(Model()), id)
    {
      var i := FindLineById(id);
      if i == |table| {
        if free == [] {
          return;
        }
        var a := free[|free| - 1];
        free := free[..|free| - 1];
        table := table + [Line(LineState.Idle, 0, a, true, id)];
        scheduler.AddActionNow(SendToken(a));
        sent := sent + [TxReply(a, id)];
      } else {
        sent := sent + [TxReply(table[i].addr, id)];
      }
    }

    // -------------------------------------------------------------- the re-entrant knot

    /** Posting into a queue that is being drained only appends. Posting into an empty one drains it. */
    method PostEvent(e: Event, v: View) returns (ghost envs: seq<Env>)
      requires events == [] ==> Inv(cfg, Model().(fsm := Model().fsm.(events := [e])))
      modifies this, scheduler
      ensures |envs| <= 3 && (old(events) != [] ==> envs == [])
      ensures Model() == Drain(cfg, old(Model().(fsm := Model().fsm.(events := events + [e]))), envs)
      ensures old(events) == [] ==> Inv(cfg, Model()) && (fault != NoFault || events == [])
      decreases if events == [] then 1 else 0, 1
    {
      var empty := events == [];
      events := events + [e];
      envs := [];
      ghost var s0 := Model();
      if empty {
        assert events == [e];
        while events != [] && fault == NoFault
          invariant Inv(cfg, Model())
          invariant Model() == Drain(cfg, s0, envs)
          invariant |envs| + DispatchesLeft(cfg, Model(), Seen(v, [])) <= 3
          decreases DispatchesLeft(cfg, Model(), Seen(v, []))
        {
          ghost var s := Model();
          ghost var hint := Turn(v);
          OneMoreTurn(cfg, s0, envs, s, Model(), v, hint);
          envs := envs + [Seen(v, hint)];
        }
      }
    }

    /** One turn of the drain loop. The front event stays queued while it is processed. */
    method Turn(v: View) returns (ghost hint: seq<nat>)
      requires events != [] && fault == NoFault && Inv(cfg, Model())
      modifies this, scheduler
      ensures Model() == Dispatch(cfg, old(Model()), Seen(v, hint))
      decreases 0, 10
    {
      var ev := events[0];
      hint := ProcessEvent(ev, v);
      if fault == NoFault && events != [] {
        events := events[1..];
      }
    }

    method StartAction(a: Action, v: View) returns (ghost envs: seq<Env>)
      requires events == [] ==> Inv(cfg, MasterModel.StartAction(Model(), a))
      modifies this, scheduler
      ensures |envs| <= 3 && (old(events) != [] ==> envs == [])
      ensures Model() == Drain(cfg, MasterModel.StartAction(old(Model()), a), envs)
      ensures old(events) == [] ==> fault != NoFault || events == []
      decreases if events == [] then 1 else 0, 2
    {
      envs := [];
      if action != DoNothing {
        fault := ActionActive;
        return;
      }
      action := a;
      assert events == [] ==> events + [CheckNewCommand] == [CheckNewCommand];
      envs := PostEvent(CheckNewCommand, v);
    }

    /** The front of the ready queue becomes the current action. */
    method StartFront(v: View) returns (ghost envs: seq<Env>)
      requires scheduler.ready != []
      requires events == [] ==> Inv(cfg, StartNext(Model(), scheduler.Model()))
      modifies this, scheduler
      ensures |envs| <= 3 && (old(events) != [] ==> envs == [])
      ensures Model() == Drain(cfg, StartNext(old(Model()), old(scheduler.Model())), envs)
      ensures old(events) == [] ==> fault != NoFault || events == []
      decreases if events == [] then 1 else 0, 3
    {
      current := scheduler.Pop();
      started := started + [current];
      envs := StartAction(current, v);
    }

    method CheckNewAction(v: View) returns (ghost hint: seq<nat>, ghost envs: seq<Env>)
      requires events == [] ==> Inv(cfg, Model()) && ReadyToLook(cfg, Model())
      modifies this, scheduler
      ensures |envs| <= 3 && (old(events) != [] ==> envs == [])
      ensures Model() == Drain(cfg, MasterModel.CheckNewAction(old(Model()), Seen(v, hint)), envs)
      ensures old(events) == [] ==> fault != NoFault || events == []
      decreases if events == [] then 1 else 0, 4
    {
      hint, envs := [], [];
      if current == DoNothing {
        ghost var s := Model();
        var work;
        work, hint := scheduler.WorkToDo(v.now);
        LookStaysInPhase(cfg, s, Seen(v, hint));
        StartNextReplaces(s, scheduler.Model());
        if work {
          envs := StartFront(v);
        } else {
          var nextTime := ReadyTime(scheduler.waiting);
          if nextTime < 1.0 {
            return;
          }
          delay := Some(nextTime);
        }
      }
    }

    method HandlerReport(rv: ReturnValue, v: View) returns (ghost hint: seq<nat>)
      requires events != [] && fault == NoFault
      modifies this, scheduler
      ensures Model() == MasterModel.HandlerReport(cfg, old(Model()), rv, Seen(v, hint))
      decreases 0, 5
    {
      hint := [];
      var addr := ActionAddr(current);
      current := DoNothing;
      match rv {
        case ClientPacketStarted => UpdateAddressLine(addr, Active, v.now);
        case RxTokenNoPacket => UpdateAddressLine(addr, LineState.Idle, v.now);
        case TokenTimeout => UpdateAddressLine(addr, BadClient, v.now);
        case AddressQueryDone => discovery := Some(v.now + cfg.queryPeriod);
        case Ok =>
        case Timeout => fault := BadReport;
      }
      assert Model() == RecordResult(cfg, old(Model()).(current := DoNothing), addr, rv, v.now);
      if fault == NoFault {
        ghost var envs;
        hint, envs := CheckNewAction(v);
        assert envs == [];
      }
    }

    method Report(rv: ReturnValue, v: View) returns (ghost hint: seq<nat>)
      requires events != [] && fault == NoFault
      modifies this, scheduler
      ensures Model() == MasterModel.Report(cfg, old(Model()), rv, Seen(v, hint))
      decreases 0, 6
    {
      hint := [];
      var callback := action != DoNothing;
      action := DoNothing;
      if callback {
        hint := HandlerReport(rv, v);
      }
    }

    // -------------------------------------------------------------- state machine

    method HandleEvent(e: Event, v: View) returns (next: Option<FsmState>, ghost hint: seq<nat>)
      requires events != [] && fault == NoFault
      modifies this, scheduler
      ensures var s, env := old(Model()), Seen(v, hint);
              var r := ReactionTo(cfg, s.fsm, e, env);
              Model() == Handled(cfg, s, r, env) && next == Target(cfg, s.fsm, r)
      decreases 0, 7
    {
      hint, next := [], None;
      match state {
        case IdleState =>
          if e.CheckNewCommand? { next, hint := DecodeAction(v); }
        case StartMaster =>
          if e.RxMasterStartStop? {
            hint := Report(Ok, v);
            next := Some(IdleState);
          } else if e.TimerTimeout? {
            hint := Report(Timeout, v);
            next := Some(IdleState);
          }
        case SendingToken =>
          if e.RxGrantToken? {
            next := Some(WaitClientPacketDone);
          } else if e.TimerTimeout? {
            next := Some(IdleState);
          }
        case WaitClientPacketDone =>
          if e.RxClientPacket? {
            hint := Report(ClientPacketStarted, v);
            next := Some(IdleState);
          } else if e.RxReturnToken? {
            hint := Report(RxTokenNoPacket, v);
            next := Some(IdleState);
          } else if e.TimerTimeout? {
            if v.rxBusy {
              timer := Some(v.now + cfg.clientTimeout);
            } else {
              hint := Report(TokenTimeout, v);
              next := Some(IdleState);
            }
          }
        case QueryAddressState =>
          if e.TimerTimeout? {
            if v.rxBusy {
              timer := Some(v.now + cfg.clientTimeout);
            } else {
              hint := Report(AddressQueryDone, v);
              next := Some(IdleState);
            }
          } else if e.RxAddressRequest? {
            ReceivedAddressRequest(e.id);
            next := Some(WaitAddressReply);
          }
        case WaitAddressReply =>
          if e.TimerTimeout? {
            if v.rxBusy {
              timer := Some(v.now + cfg.clientTimeout);
            } else {
              next := Some(IdleState);
            }
          }
      }
    }

    method DecodeAction(v: View) returns (next: Option<FsmState>, ghost hint: seq<nat>)
      requires events != [] && fault == NoFault && state == IdleState
      modifies this, scheduler
      ensures var s, env := old(Model()), Seen(v, hint);
              var r := ReactionTo(cfg, s.fsm, CheckNewCommand, env);
              Model() == Handled(cfg, s, r, env) && next == Target(cfg, s.fsm, r)
      decreases 0, 7, 0
    {
      hint, next := [], None;
      match action
      case DoNothing =>
      case SendToken(a) =>
        if a == cfg.own {
          if v.txEmpty {
            hint := Report(RxTokenNoPacket, v);
          } else {
            sent := sent + [TxOwnPacket];
            next := Some(WaitClientPacketDone);
          }
        } else {
          sent := sent + [TxGrant(a)];
          next := Some(SendingToken);
        }
      case QueryAddress => next := Some(QueryAddressState);
      case SendMasterStart => next := Some(StartMaster);
    }

    method ExitState(v: View, ghost given: seq<nat>) returns (ghost hint: seq<nat>)
      requires events != [] && fault == NoFault
      modifies this, scheduler
      ensures Model() == Exited(cfg, old(Model()), Seen(v, hint))
      ensures old(state) != WaitAddressReply ==> hint == given
      decreases 0, 7
    {
      hint := given;
      if state != IdleState {
        timer := None;
        if state == WaitAddressReply {
          hint := Report(AddressQueryDone, v);
        }
      }
    }

    method EnterState(st: FsmState, now: Time)
      modifies this
      ensures Model() == Entered(cfg, old(Model()), st, now)
    {
      state := st;
      match st
      case IdleState =>
      case StartMaster =>
        sent := sent + [TxStart];
        timer := Some(now + cfg.startEcho);
      case SendingToken => timer := Some(now + cfg.grantEcho);
      case WaitClientPacketDone => timer := Some(now + cfg.clientTimeout);
      case QueryAddressState =>
        timer := Some(now + cfg.clientTimeout);
        sent := sent + [TxDiscovery];
      case WaitAddressReply => timer := Some(now + cfg.clientTimeout);
    }

    method Transition(next: FsmState, v: View, ghost given: seq<nat>) returns (ghost hint: seq<nat>)
      requires events != [] && fault == NoFault
      modifies this, scheduler
      ensures Model() == Transitioned(cfg, old(Model()), Some(next), Seen(v, hint))
      ensures old(state) != WaitAddressReply ==> hint == given
      decreases 0, 8
    {
      hint := ExitState(v, given);
      if fault == NoFault {
        EnterState(next, v.now);
      }
    }

    /** An event runs to completion: event function, then the transition it asked for. */
    method ProcessEvent(e: Event, v: View) returns (ghost hint: seq<nat>)
      requires events != [] && events[0] == e && fault == NoFault && Inv(cfg, Model())
      modifies this, scheduler
      ensures var s, env := old(Model()), Seen(v, hint);
              Model() == Perform(cfg, s, Decision(cfg, s, env), env)
      decreases 0, 9
    {
      ghost var s := Model();
      var next;
      next, hint := HandleEvent(e, v);
      ghost var h := hint;
      HandledLeavesState(cfg, s, Seen(v, h));
      if fault == NoFault && next.Some? {
        hint := Transition(next.value, v, hint);
      }
      OneLookPerEvent(cfg, s, v, h, hint);
    }

    // -------------------------------------------------------------- what the outside calls

    method MasterPacketReceived(m: Msg, v: View) returns (ghost envs: seq<Env>)
      requires Inv(cfg, Model()) && Quiet(Model())
      modifies this, scheduler
      ensures Inv(cfg, Model()) && (fault != NoFault || events == []) && |envs| <= 3
      ensures Model() == if EventOf(m).None? then old(Model())
                         else React(cfg, old(Model()), Packet(EventOf(m).value), Seen(v, []), envs)
    {
      envs := [];
      var e := EventOf(m);
      if e.Some? {
        StimulusKeeps(cfg, Model(), Packet(e.value), Seen(v, []));
        assert events + [e.value] == [e.value];
        envs := PostEvent(e.value, v);
      }
    }

    method FsmTimerFires(v: View) returns (ghost envs: seq<Env>)
      requires Inv(cfg, Model()) && Quiet(Model()) && timer.Some?
      modifies this, scheduler
      ensures Inv(cfg, Model()) && (fault != NoFault || events == []) && |envs| <= 3
      ensures Model() == React(cfg, old(Model()), FsmTimer, Seen(v, []), envs)
    {
      StimulusKeeps(cfg, Model(), FsmTimer, Seen(v, []));
      timer := None;
      assert events + [TimerTimeout] == [TimerTimeout];
      envs := PostEvent(TimerTimeout, v);
    }

    method DelayTimerFires(v: View) returns (ghost hint: seq<nat>, ghost envs: seq<Env>)
      requires Inv(cfg, Model()) && Quiet(Model()) && delay.Some?
      modifies this, scheduler
      ensures fault != NoFault || events == []
      ensures |envs| <= 3 && Model() == React(cfg, old(Model()), DelayTimer, Seen(v, hint), envs)
    {
      delay := None;
      hint, envs := CheckNewAction(v);
    }

    /** The discovery is only posted: nobody looks for work here. */
    method DiscoveryTimerFires(v: View)
      requires Quiet(Model()) && discovery.Some?
      modifies this, scheduler
      ensures Model() == Stimulate(old(Model()), DiscoveryTimer, Seen(v, []))
    {
      discovery := None;
      scheduler.AddActionNow(QueryAddress);
    }
  }
}
