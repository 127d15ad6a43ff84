/** The address table over whole runs: conservation, repeated requests, and retirement. */
module MasterLines {
  import opened Prelude
  import opened Bytes
  import opened Protocol
  import opened Scheduler
  import opened MasterModel
  import opened MasterInvariant
  import opened MasterSteps
  import opened MasterRuns

  // ---------------------------------------------------------------- what a step does to the table

  /** Only a reported result and an answered request touch the address handler. */
  function DynAfter(cfg: Config, s: Master, st: Step): Dyn
    requires CanStep(s, st)
  {
    match st
    case DispatchStep(env) =>
      (match Decision(cfg, s, env)
       case Finish(rv) => Recorded(cfg, s, rv, env.now).dyn
       case Answer(id) => ReceivedAddressRequest(s, id).dyn
       case _ => s.dyn)
    case StimulusStep(k, env) =>
      if k.DiscoveryTimer? then s.dyn.(discovery := None) else s.dyn
  }

  lemma FinishDyn(cfg: Config, s: Master, rv: ReturnValue, env: Env)
    requires cfg.Valid() && Books(cfg, s) && s.fault == NoFault && s.fsm.action == s.current && Fits(s.current, rv)
    ensures PopEvent(ReportThenIdle(cfg, s, rv, env)).dyn == Recorded(cfg, s, rv, env.now).dyn
  {
    var s1 := Recorded(cfg, s, rv, env.now);
    RecordedKeepsBooks(cfg, s, rv, env.now);
    LookKeepsBooks(cfg, s1, env);
    assert Report(cfg, s, rv, env) == CheckNewAction(s1, env);
  }

  lemma NextDyn(cfg: Config, s: Master, st: Step)
    requires Inv(cfg, s) && CanStep(s, st)
    ensures Next(cfg, s, st).dyn == DynAfter(cfg, s, st)
  {
    match st
    case DispatchStep(env) =>
      DecisionFits(cfg, s, env);
      match Decision(cfg, s, env) {
        case Finish(rv) => if !rv.Timeout? { FinishDyn(cfg, s, rv, env); }
        case Answer(id) => AnswerShape(cfg, s, id, env);
        case _ => QuietDispatch(cfg, s, env);
      }
    case StimulusStep(k, env) =>
      if k.DelayTimer? { DelayKeeps(cfg, s, env); }
  }

  // ---------------------------------------------------------------- conservation

  function DynamicAddrs(t: seq<Line>): seq<Address> {
    if t == [] then []
    else DynamicAddrs(t[..|t| - 1]) + if t[|t| - 1].dynamic then [t[|t| - 1].addr] else []
  }

  lemma {:induction false} DynamicAddrsCount(cfg: Config, t: seq<Line>, a: Address)
    requires cfg.Valid() && TableOk(cfg, t)
    ensures multiset(DynamicAddrs(t))[a] == if cfg.IsDynamic(a) && HasLine(t, a) then 1 else 0
  {
    if t != [] {
      var n := |t| - 1;
      assert t == t[..n] + [t[n]];
      HasLineAfterAppend(t[..n], t[n]);
      assert TableOk(cfg, t[..n]);
      DynamicAddrsCount(cfg, t[..n], a);
      assert !HasLine(t[..n], t[n].addr);
    }
  }

  lemma {:induction false} DistinctCount<T>(s: seq<T>, x: T)
    requires forall i, j :: 0 <= i < j < |s| ==> s[i] != s[j]
    ensures multiset(s)[x] == if x in s then 1 else 0
  {
    if s != [] {
      var n := |s| - 1;
      assert s == s[..n] + [s[n]];
      DistinctCount(s[..n], x);
    }
  }

  /** Pool conservation: in every reachable state the free addresses and those on dynamic lines are
      together exactly the configured range, each once; every static address keeps its line. */
  lemma PoolConserved(cfg: Config, uids: int -> UniqueId, env: Env, trace: seq<Master>, steps: seq<Step>, i: nat)
    requires BootedRun(cfg, uids, env, trace, steps) && i < |trace|
    ensures var d := trace[i].dyn;
            && multiset(d.free) + multiset(DynamicAddrs(d.table)) == multiset(Pool(cfg.dynLow, cfg.dynHigh))
            && (forall j, k :: 0 <= j < k < |d.table| && d.table[j].dynamic && d.table[k].dynamic
                               ==> d.table[j].uid != d.table[k].uid)
            && (forall a: Address :: cfg.IsStatic(a) ==> HasLine(d.table, a))
  {
    ReachableInv(cfg, uids, env, trace, steps, i);
    PoolIsWhole(cfg, trace[i].dyn);
  }

  lemma PoolIsWhole(cfg: Config, d: Dyn)
    requires cfg.Valid() && PoolOk(cfg, d)
    ensures multiset(d.free) + multiset(DynamicAddrs(d.table)) == multiset(Pool(cfg.dynLow, cfg.dynHigh))
  {
    var pool := Pool(cfg.dynLow, cfg.dynHigh);
    forall a: Address
      ensures (multiset(d.free) + multiset(DynamicAddrs(d.table)))[a] == multiset(pool)[a]
    {
      DynamicAddrsCount(cfg, d.table, a);
      DistinctCount(d.free, a);
      DistinctCount(pool, a);
      if cfg.IsDynamic(a) { assert pool[cfg.dynHigh - a] == a; }
    }
  }

  // ---------------------------------------------------------------- requests

  ghost predicate HasDynamic(t: seq<Line>, id: UniqueId) {
    exists i :: 0 <= i < |t| && t[i].dynamic && t[i].uid == id
  }

  /** The id happens to be the uninitialised one of a static line. */
  ghost predicate StaticId(cfg: Config, uids: int -> UniqueId, id: UniqueId) {
    exists a: Address :: cfg.IsStatic(a) && uids(a) == id
  }

  /** Static lines keep the ids they came with, and no dynamic line has one of those. */
  ghost predicate IdsOk(cfg: Config, uids: int -> UniqueId, t: seq<Line>) {
    forall i :: 0 <= i < |t| ==> if t[i].dynamic then !StaticId(cfg, uids, t[i].uid) else t[i].uid == uids(t[i].addr)
  }

  lemma StaticIdIsListed(cfg: Config, uids: int -> UniqueId, d: Dyn, id: UniqueId)
    requires cfg.Valid() && PoolOk(cfg, d) && IdsOk(cfg, uids, d.table) && StaticId(cfg, uids, id)
    ensures HasId(d.table, id)
  {
    var a: Address :| cfg.IsStatic(a) && uids(a) == id;
    assert HasLine(d.table, a);
    var i :| 0 <= i < |d.table| && d.table[i].addr == a;
    assert d.table[i].uid == id;
  }

  lemma UpdateKeepsIds(cfg: Config, uids: int -> UniqueId, s: Master, a: Address, st: LineState, now: Time)
    requires IdsOk(cfg, uids, s.dyn.table)
    ensures IdsOk(cfg, uids, UpdateAddressLine(cfg, s, a, st, now).dyn.table)
  {
    var t, i := s.dyn.table, FindAddr(s.dyn.table, a);
    if i < |t| {
      var r := Remove(t, i);
      assert forall j :: 0 <= j < |r| ==> r[j] == t[if j < i then j else j + 1];
    }
  }

  lemma RequestKeepsIds(cfg: Config, uids: int -> UniqueId, s: Master, id: UniqueId)
    requires cfg.Valid() && PoolOk(cfg, s.dyn) && IdsOk(cfg, uids, s.dyn.table)
    ensures IdsOk(cfg, uids, ReceivedAddressRequest(s, id).dyn.table)
  {
    if StaticId(cfg, uids, id) { StaticIdIsListed(cfg, uids, s.dyn, id); }
  }

  lemma StepKeepsIds(cfg: Config, uids: int -> UniqueId, s: Master, st: Step)
    requires cfg.Valid() && PoolOk(cfg, s.dyn) && CanStep(s, st) && IdsOk(cfg, uids, s.dyn.table)
    ensures IdsOk(cfg, uids, DynAfter(cfg, s, st).table)
  {
    if st.DispatchStep? {
      match Decision(cfg, s, st.env)
      case Finish(rv) =>
        if rv.ClientPacketStarted? || rv.RxTokenNoPacket? || rv.TokenTimeout? {
          var s0 := s.(fsm := s.fsm.(action := DoNothing), current := DoNothing);
          UpdateKeepsIds(cfg, uids, s0, ActionAddr(s.current), OutcomeOf(rv), st.env.now);
        }
      case Answer(id) => RequestKeepsIds(cfg, uids, s, id);
      case _ =>
    }
  }

  lemma {:induction false} RunKeepsIds(cfg: Config, uids: int -> UniqueId, env: Env, trace: seq<Master>,
                                       steps: seq<Step>, i: nat)
    requires BootedRun(cfg, uids, env, trace, steps) && i < |trace|
    ensures IdsOk(cfg, uids, trace[i].dyn.table)
  {
    if i == 0 {
      BootInv(cfg, uids, env);
    } else {
      RunKeepsIds(cfg, uids, env, trace, steps, i - 1);
      ReachableInv(cfg, uids, env, trace, steps, i - 1);
      NextDyn(cfg, trace[i - 1], steps[i - 1]);
      StepKeepsIds(cfg, uids, trace[i - 1], steps[i - 1]);
    }
  }

  /** In every reachable state, a request from a live id is answered with the address of that id's line,
      and changes nothing else. */
  lemma RepeatedRequestSameAddress(cfg: Config, uids: int -> UniqueId, env: Env, trace: seq<Master>, steps: seq<Step>,
                                   i: nat, k: nat)
    requires BootedRun(cfg, uids, env, trace, steps) && i < |trace|
    requires k < |trace[i].dyn.table| && trace[i].dyn.table[k].dynamic
    ensures var s, l := trace[i], trace[i].dyn.table[k];
            ReceivedAddressRequest(s, l.uid) == Send(s, TxReply(l.addr, l.uid))
  {
    RunKeepsIds(cfg, uids, env, trace, steps, i);
    ReachableInv(cfg, uids, env, trace, steps, i);
    LineOfLiveId(cfg, uids, trace[i].dyn.table, k);
  }

  lemma LineOfLiveId(cfg: Config, uids: int -> UniqueId, t: seq<Line>, k: nat)
    requires TableOk(cfg, t) && IdsOk(cfg, uids, t) && k < |t| && t[k].dynamic
    ensures FindId(t, t[k].uid) == k
  {
    var j := FindId(t, t[k].uid);
    assert HasId(t, t[k].uid);
    if !t[j].dynamic { assert StaticId(cfg, uids, t[k].uid); }
  }

  /** In every reachable state: a request leaves its id with a line of its own if and only if no static
      line carries that id and the id is live or an address is free. An id that a static line
      carries is answered with that static address and never gets a line. */
  lemma RequestGetsLineExactly(cfg: Config, uids: int -> UniqueId, env: Env, trace: seq<Master>, steps: seq<Step>,
                               i: nat, id: UniqueId)
    requires BootedRun(cfg, uids, env, trace, steps) && i < |trace|
    ensures var s, s' := trace[i], ReceivedAddressRequest(trace[i], id);
            && (HasDynamic(s'.dyn.table, id) <==>
                  !StaticId(cfg, uids, id) && (HasDynamic(s.dyn.table, id) || s.dyn.free != []))
            && (StaticId(cfg, uids, id) ==>
                  exists a: Address :: cfg.IsStatic(a) && uids(a) == id && s' == Send(s, TxReply(a, id)))
  {
    RunKeepsIds(cfg, uids, env, trace, steps, i);
    ReachableInv(cfg, uids, env, trace, steps, i);
    RequestOutcome(cfg, uids, trace[i], id);
  }

  lemma RequestOutcome(cfg: Config, uids: int -> UniqueId, s: Master, id: UniqueId)
    requires cfg.Valid() && PoolOk(cfg, s.dyn) && IdsOk(cfg, uids, s.dyn.table)
    ensures var s' := ReceivedAddressRequest(s, id);
            && (HasDynamic(s'.dyn.table, id) <==>
                  !StaticId(cfg, uids, id) && (HasDynamic(s.dyn.table, id) || s.dyn.free != []))
            && (StaticId(cfg, uids, id) ==>
                  exists a: Address :: cfg.IsStatic(a) && uids(a) == id && s' == Send(s, TxReply(a, id)))
  {
    var t, t' := s.dyn.table, ReceivedAddressRequest(s, id).dyn.table;
    var k := FindId(t, id);
    if StaticId(cfg, uids, id) { StaticIdIsListed(cfg, uids, s.dyn, id); }
    if k < |t| {
      assert t' == t && t[k].uid == id;
      if !t[k].dynamic { assert StaticId(cfg, uids, id); }
    } else if s.dyn.free != [] {
      assert t'[|t|].dynamic && t'[|t|].uid == id;
    }
  }

  // ---------------------------------------------------------------- retirement

  function LineOf(t: seq<Line>, a: Address): Line
    requires HasLine(t, a)
  {
    t[FindAddr(t, a)]
  }

  /** The outcome that a step records for address `a`, if it records one. */
  function Outcome(cfg: Config, s: Master, st: Step, a: Address): Option<LineState>
    requires CanStep(s, st)
  {
    if st.DispatchStep? && s.current == SendToken(a) && Decision(cfg, s, st.env).Finish?
    then Some(OutcomeOf(Decision(cfg, s, st.env).rv)) else None
  }

  /** Length of the unbroken row of timeouts that a history ends with. */
  function Timeouts(h: seq<LineState>): nat {
    if h == [] || h[|h| - 1] != BadClient then 0 else 1 + Timeouts(h[..|h| - 1])
  }

  /** The outcomes recorded for `a` since its line was last created, up to state `i` of a run. */
  ghost function History(cfg: Config, trace: seq<Master>, steps: seq<Step>, a: Address, i: nat): seq<LineState>
    requires IsRun(cfg, trace, steps) && i < |trace|
  {
    if i == 0 then [] else
    var h := History(cfg, trace, steps, a, i - 1);
    var o := Outcome(cfg, trace[i - 1], steps[i - 1], a);
    if !HasLine(trace[i - 1].dyn.table, a) then []
    else if o.Some? then h + [o.value] else h
  }

  /** What a line looks like after a history of outcomes. */
  ghost predicate LineTells(l: Line, h: seq<LineState>) {
    && l.bad == Timeouts(h)
    && (l.dynamic ==> Timeouts(h) < 4 && l.state != Free)
    && (!l.dynamic ==> (l.state == Free <==> h == [] || Timeouts(h) >= 4))
  }

  lemma TimeoutsSnoc(h: seq<LineState>, o: LineState)
    ensures Timeouts(h + [o]) == if o == BadClient then Timeouts(h) + 1 else 0
  {
    assert (h + [o])[..|h|] == h;
  }

  lemma LineAfterRecord(cfg: Config, t: seq<Line>, i: nat, l: Line, a: Address)
    requires TableOk(cfg, t) && HasLine(t, a) && i < |t| && l.addr == t[i].addr
    ensures HasLine(t[i := l], a) && LineOf(t[i := l], a) == if t[i].addr == a then l else LineOf(t, a)
  {
    assert t[i := l][FindAddr(t, a)].addr == a;
  }

  lemma LineAfterRetire(cfg: Config, t: seq<Line>, i: nat, a: Address)
    requires TableOk(cfg, t) && HasLine(t, a) && i < |t|
    ensures if t[i].addr == a then !HasLine(Remove(t, i), a)
            else HasLine(Remove(t, i), a) && LineOf(Remove(t, i), a) == LineOf(t, a)
  {
    var r, k := Remove(t, i), FindAddr(t, a);
    HasLineAfterRemove(cfg, t, i);
    assert k != i ==> r[if k < i then k else k - 1] == t[k];
  }

  lemma LineAfterAppend(t: seq<Line>, l: Line, a: Address)
    requires HasLine(t, a)
    ensures HasLine(t + [l], a) && LineOf(t + [l], a) == LineOf(t, a)
  {
    assert (t + [l])[FindAddr(t, a)].addr == a;
  }

  lemma LineAfterOutcome(cfg: Config, s: Master, b: Address, st: LineState, now: Time, a: Address)
    requires TableOk(cfg, s.dyn.table) && HasLine(s.dyn.table, a) && HasLine(s.dyn.table, b)
    ensures var t, d := s.dyn.table, UpdateAddressLine(cfg, s, b, st, now).dyn;
            if a != b then HasLine(d.table, a) && LineOf(d.table, a) == LineOf(t, a)
            else if RemoveDynamic(SetState(LineOf(t, a), st)) then !HasLine(d.table, a) && a in d.free
            else HasLine(d.table, a) && LineOf(d.table, a) == SetState(LineOf(t, a), st)
  {
    var t, i := s.dyn.table, FindAddr(s.dyn.table, b);
    LineAfterRecord(cfg, t, i, SetState(t[i], st), a);
    LineAfterRetire(cfg, t, i, a);
  }

  lemma LineAfterRequest(s: Master, id: UniqueId, a: Address)
    requires HasLine(s.dyn.table, a)
    ensures var t' := ReceivedAddressRequest(s, id).dyn.table; HasLine(t', a) && LineOf(t', a) == LineOf(s.dyn.table, a)
  {
    if s.dyn.free != [] {
      LineAfterAppend(s.dyn.table, Line(LineState.Idle, 0, s.dyn.free[|s.dyn.free| - 1], true, id), a);
    }
  }

  /** The line of `a` after an outcome, or without one. */
  ghost predicate LineMoves(t: seq<Line>, d: Dyn, a: Address, o: Option<LineState>)
    requires HasLine(t, a)
  {
    if o.None? then HasLine(d.table, a) && LineOf(d.table, a) == LineOf(t, a)
    else if RemoveDynamic(SetState(LineOf(t, a), o.value)) then !HasLine(d.table, a) && a in d.free
    else HasLine(d.table, a) && LineOf(d.table, a) == SetState(LineOf(t, a), o.value)
  }

  lemma LineAfterFinish(cfg: Config, s: Master, rv: ReturnValue, now: Time, a: Address)
    requires cfg.Valid() && Books(cfg, s) && Fits(s.current, rv) && HasLine(s.dyn.table, a)
    ensures LineMoves(s.dyn.table, Recorded(cfg, s, rv, now).dyn, a,
                      if s.current == SendToken(a) then Some(OutcomeOf(rv)) else None)
  {
    if s.current.SendToken? {
      var b := s.current.addr;
      assert Outstanding(s)[SendToken(b)] > 0;
      var s0 := s.(fsm := s.fsm.(action := DoNothing), current := DoNothing);
      LineAfterOutcome(cfg, s0, b, OutcomeOf(rv), now, a);
    }
  }

  /** The line of `a` changes only when an outcome is recorded for `a`. */
  lemma LineAfterStep(cfg: Config, s: Master, st: Step, a: Address)
    requires Inv(cfg, s) && CanStep(s, st) && HasLine(s.dyn.table, a)
    ensures LineMoves(s.dyn.table, DynAfter(cfg, s, st), a, Outcome(cfg, s, st, a))
  {
    if st.DispatchStep? {
      DecisionFits(cfg, s, st.env);
      match Decision(cfg, s, st.env)
      case Finish(rv) => if !rv.Timeout? { LineAfterFinish(cfg, s, rv, st.env.now, a); }
      case Answer(id) => LineAfterRequest(s, id, a);
      case _ =>
    }
  }

  lemma OutcomeAddsNoLine(cfg: Config, s: Master, b: Address, st: LineState, now: Time, a: Address)
    requires TableOk(cfg, s.dyn.table) && !HasLine(s.dyn.table, a) && HasLine(s.dyn.table, b)
    ensures !HasLine(UpdateAddressLine(cfg, s, b, st, now).dyn.table, a)
  {
    var t, i := s.dyn.table, FindAddr(s.dyn.table, b);
    HasLineAfterRemove(cfg, t, i);
    HasLineAfterUpdate(cfg, t, i, SetState(t[i], st));
  }

  predicate Fresh(l: Line) { l.dynamic && l.bad == 0 && l.state == LineState.Idle }

  lemma RequestAddsFreshLine(s: Master, id: UniqueId, a: Address)
    requires !HasLine(s.dyn.table, a)
    ensures var t' := ReceivedAddressRequest(s, id).dyn.table; HasLine(t', a) ==> Fresh(LineOf(t', a))
  {
    var t, t' := s.dyn.table, ReceivedAddressRequest(s, id).dyn.table;
    if HasLine(t', a) {
      assert forall k :: 0 <= k < |t| ==> t'[k] == t[k];
    }
  }

  lemma FinishAddsNoLine(cfg: Config, s: Master, rv: ReturnValue, now: Time, a: Address)
    requires cfg.Valid() && Books(cfg, s) && Fits(s.current, rv) && !HasLine(s.dyn.table, a)
    ensures !HasLine(Recorded(cfg, s, rv, now).dyn.table, a)
  {
    if s.current.SendToken? {
      var b := s.current.addr;
      assert Outstanding(s)[SendToken(b)] > 0;
      OutcomeAddsNoLine(cfg, s.(fsm := s.fsm.(action := DoNothing), current := DoNothing), b, OutcomeOf(rv), now, a);
    }
  }

  /** A line that appears is a fresh dynamic one. */
  lemma NewLine(cfg: Config, s: Master, st: Step, a: Address)
    requires Inv(cfg, s) && CanStep(s, st) && !HasLine(s.dyn.table, a)
    ensures var t' := DynAfter(cfg, s, st).table; HasLine(t', a) ==> Fresh(LineOf(t', a))
  {
    if st.DispatchStep? {
      DecisionFits(cfg, s, st.env);
      match Decision(cfg, s, st.env)
      case Finish(rv) => if !rv.Timeout? { FinishAddsNoLine(cfg, s, rv, st.env.now, a); }
      case Answer(id) => RequestAddsFreshLine(s, id, a);
      case _ =>
    }
  }

  /** What one step of a run does to the line of `a`. */
  lemma RunMovesLine(cfg: Config, uids: int -> UniqueId, env: Env, trace: seq<Master>, steps: seq<Step>, i: nat,
                     a: Address)
    requires BootedRun(cfg, uids, env, trace, steps) && i < |steps|
    ensures var t, d := trace[i].dyn.table, trace[i + 1].dyn;
            if HasLine(t, a) then LineMoves(t, d, a, Outcome(cfg, trace[i], steps[i], a))
            else HasLine(d.table, a) ==> Fresh(LineOf(d.table, a))
  {
    ReachableInv(cfg, uids, env, trace, steps, i);
    NextDyn(cfg, trace[i], steps[i]);
    if HasLine(trace[i].dyn.table, a) {
      LineAfterStep(cfg, trace[i], steps[i], a);
    } else {
      NewLine(cfg, trace[i], steps[i], a);
    }
  }

  lemma BootLine(cfg: Config, uids: int -> UniqueId, env: Env, a: Address)
    requires cfg.Valid() && HasLine(Boot(cfg, uids, env).dyn.table, a)
    ensures LineTells(LineOf(Boot(cfg, uids, env).dyn.table, a), [])
  {
    BootInv(cfg, uids, env);
  }

  /** Over any run, a line's failure count is the number of timeouts its history ends with; a dynamic
      line that still exists ends with fewer than four, and a static line is free exactly when it
      was never polled or its last four outcomes, or more, are timeouts. */
  lemma {:induction false} LinesTellTheirHistory(cfg: Config, uids: int -> UniqueId, env: Env,
                                                 trace: seq<Master>, steps: seq<Step>, i: nat, a: Address)
    requires BootedRun(cfg, uids, env, trace, steps) && i < |trace| && HasLine(trace[i].dyn.table, a)
    ensures LineTells(LineOf(trace[i].dyn.table, a), History(cfg, trace, steps, a, i))
  {
    if i == 0 {
      BootLine(cfg, uids, env, a);
    } else {
      RunMovesLine(cfg, uids, env, trace, steps, i - 1, a);
      var t, d, o := trace[i - 1].dyn.table, trace[i].dyn, Outcome(cfg, trace[i - 1], steps[i - 1], a);
      if HasLine(t, a) {
        LinesTellTheirHistory(cfg, uids, env, trace, steps, i - 1, a);
        MovedLineTells(t, d, a, o, History(cfg, trace, steps, a, i - 1));
      } else {
        assert LineTells(LineOf(d.table, a), []);
      }
    }
  }

  lemma MovedLineTells(t: seq<Line>, d: Dyn, a: Address, o: Option<LineState>, h: seq<LineState>)
    requires HasLine(t, a) && LineMoves(t, d, a, o) && LineTells(LineOf(t, a), h) && (o.Some? ==> o.value != Free)
    ensures HasLine(d.table, a) ==> LineTells(LineOf(d.table, a), if o.Some? then h + [o.value] else h)
  {
    LineAdvances(LineOf(t, a), h, o);
  }

  lemma LineAdvances(l: Line, h: seq<LineState>, o: Option<LineState>)
    requires LineTells(l, h) && (o.Some? ==> o.value != Free)
    ensures o.Some? ==>
              var l' := SetState(l, o.value);
              && (RemoveDynamic(l') <==> l.dynamic && Timeouts(h + [o.value]) >= 4)
              && (!RemoveDynamic(l') ==> LineTells(l', h + [o.value]))
  {
    if o.Some? { TimeoutsSnoc(h, o.value); }
  }

  /** A dynamic line is removed, and its address freed, exactly when the outcome just recorded is the
      fourth timeout in a row. */
  lemma RetiredOnFourthTimeout(cfg: Config, uids: int -> UniqueId, env: Env,
                               trace: seq<Master>, steps: seq<Step>, i: nat, a: Address)
    requires BootedRun(cfg, uids, env, trace, steps) && i < |steps|
    requires HasLine(trace[i].dyn.table, a) && LineOf(trace[i].dyn.table, a).dynamic
    ensures var o := Outcome(cfg, trace[i], steps[i], a);
            && (!HasLine(trace[i + 1].dyn.table, a) <==>
                  o.Some? && Timeouts(History(cfg, trace, steps, a, i) + [o.value]) == 4)
            && (!HasLine(trace[i + 1].dyn.table, a) ==> a in trace[i + 1].dyn.free)
  {
    RunMovesLine(cfg, uids, env, trace, steps, i, a);
    LinesTellTheirHistory(cfg, uids, env, trace, steps, i, a);
    var h, o := History(cfg, trace, steps, a, i), Outcome(cfg, trace[i], steps[i], a);
    LineAdvances(LineOf(trace[i].dyn.table, a), h, o);
    if o.Some? { TimeoutsSnoc(h, o.value); }
  }

  // ---------------------------------------------------------------- the polling schedule

  /** When an address is polled again, after a history of outcomes that ended at `now`. */
  function PollTime(cfg: Config, h: seq<LineState>, now: Time): Time
    requires h != []
  {
    if Timeouts(h) >= 4 then now + cfg.afterFree
    else if Timeouts(h) > 0 then now + cfg.afterTimeout
    else if h[|h| - 1] == Active then now + cfg.afterPacket
    else now + cfg.afterReturn
  }

  /** How many tokens of `a` wait for exactly the time `t`. */
  ghost function TokensAt(s: Master, a: Address, t: Time): nat { multiset(s.sched.waiting)[Waiting(t, SendToken(a))] }

  lemma StateTellsDelay(cfg: Config, l: Line, h: seq<LineState>, o: LineState, now: Time)
    requires l.bad == Timeouts(h) && o != Free
    ensures NextTime(cfg, SetState(l, o).state, now) == PollTime(cfg, h + [o], now)
  {
    TimeoutsSnoc(h, o);
  }

  /** A recorded token of a line that stays waits for the delay of the line's new state. */
  lemma RecordedWaits(cfg: Config, s: Master, rv: ReturnValue, now: Time, a: Address)
    requires Fits(s.current, rv) && s.current == SendToken(a) && HasLine(s.dyn.table, a)
    requires !RemoveDynamic(SetState(LineOf(s.dyn.table, a), OutcomeOf(rv)))
    ensures var l := SetState(LineOf(s.dyn.table, a), OutcomeOf(rv));
            Waiting(NextTime(cfg, l.state, now), SendToken(a)) in Recorded(cfg, s, rv, now).sched.waiting
  {
  }

  lemma LookLeavesLater(s: Master, env: Env, x: Waiting)
    requires x in s.sched.waiting && x.time > env.now
    ensures x in CheckNewAction(s, env).sched.waiting
  {
    PromotedConserves(s.sched, env.now, env.hint);
  }

  lemma ReportLeavesLater(cfg: Config, s: Master, rv: ReturnValue, env: Env, x: Waiting)
    requires s.fsm.action != DoNothing
    requires x in Recorded(cfg, s, rv, env.now).sched.waiting && x.time > env.now
    ensures x in PopEvent(ReportThenIdle(cfg, s, rv, env)).sched.waiting
  {
    LookLeavesLater(Recorded(cfg, s, rv, env.now), env, x);
  }

  /** What a recorded outcome leaves in the waiting queue, as long as the line stays. */
  lemma OutcomeWaits(cfg: Config, s: Master, st: Step, a: Address)
    requires Inv(cfg, s) && CanStep(s, st) && Outcome(cfg, s, st, a).Some?
    ensures HasLine(s.dyn.table, a)
    ensures var l := SetState(LineOf(s.dyn.table, a), Outcome(cfg, s, st, a).value);
            !RemoveDynamic(l) ==>
              TokensAt(Next(cfg, s, st), a, NextTime(cfg, l.state, st.env.now)) > 0
  {
    OutcomeIsOfLine(cfg, s, st, a);
    var rv := Decision(cfg, s, st.env).rv;
    var l := SetState(LineOf(s.dyn.table, a), OutcomeOf(rv));
    if !RemoveDynamic(l) {
      RecordedWaits(cfg, s, rv, st.env.now, a);
      ReportLeavesLater(cfg, s, rv, st.env, Waiting(NextTime(cfg, l.state, st.env.now), SendToken(a)));
    }
  }

  lemma LinePolls(cfg: Config, s: Master, s': Master, now: Time, a: Address, h: seq<LineState>, o: LineState)
    requires HasLine(s.dyn.table, a) && LineTells(LineOf(s.dyn.table, a), h) && HasLine(s'.dyn.table, a) && o != Free
    requires LineMoves(s.dyn.table, s'.dyn, a, Some(o))
    requires var l := SetState(LineOf(s.dyn.table, a), o);
             !RemoveDynamic(l) ==> TokensAt(s', a, NextTime(cfg, l.state, now)) > 0
    ensures TokensAt(s', a, PollTime(cfg, h + [o], now)) > 0
  {
    StateTellsDelay(cfg, LineOf(s.dyn.table, a), h, o, now);
  }

  lemma StepPolls(cfg: Config, s: Master, st: Step, s': Master, a: Address, h: seq<LineState>, o: LineState)
    requires Inv(cfg, s) && CanStep(s, st) && Outcome(cfg, s, st, a) == Some(o) && s' == Next(cfg, s, st)
    requires HasLine(s.dyn.table, a) && LineTells(LineOf(s.dyn.table, a), h) && HasLine(s'.dyn.table, a)
    ensures TokensAt(s', a, PollTime(cfg, h + [o], st.env.now)) > 0
  {
    NextDyn(cfg, s, st);
    OutcomeWaits(cfg, s, st, a);
    LineAfterStep(cfg, s, st, a);
    LinePolls(cfg, s, s', st.env.now, a, h, o);
  }

  /** The polling schedule: a step that records an outcome for an address whose line stays leaves its
      token waiting for exactly the delay that the line's history calls for. */
  lemma PolledOnSchedule(cfg: Config, uids: int -> UniqueId, env: Env, trace: seq<Master>, steps: seq<Step>,
                         i: nat, a: Address, o: LineState)
    requires BootedRun(cfg, uids, env, trace, steps) && i < |steps|
    requires Outcome(cfg, trace[i], steps[i], a) == Some(o) && HasLine(trace[i + 1].dyn.table, a)
    ensures var h := History(cfg, trace, steps, a, i) + [o];
            TokensAt(trace[i + 1], a, PollTime(cfg, h, steps[i].env.now)) > 0
  {
    ReachableInv(cfg, uids, env, trace, steps, i);
    OutcomeIsOfLine(cfg, trace[i], steps[i], a);
    LinesTellTheirHistory(cfg, uids, env, trace, steps, i, a);
    StepPolls(cfg, trace[i], steps[i], trace[i + 1], a, History(cfg, trace, steps, a, i), o);
  }

  lemma OutcomeIsOfLine(cfg: Config, s: Master, st: Step, a: Address)
    requires Inv(cfg, s) && CanStep(s, st) && Outcome(cfg, s, st, a).Some?
    ensures HasLine(s.dyn.table, a) && Fits(s.current, Decision(cfg, s, st.env).rv) && s.fsm.action == s.current
  {
    DecisionFits(cfg, s, st.env);
    assert Outstanding(s)[SendToken(a)] > 0;
  }

  // ---------------------------------------------------------------- the own token

  /** The token of the master's own client. With nothing to send it is declined on the spot: nothing is sent, and
      its line is recorded idle with no failures. Otherwise exactly one packet of the client is sent, and the
      master waits for it to come back. */
  lemma OwnToken(cfg: Config, s: Master, env: Env)
    requires Inv(cfg, s) && s.fault == NoFault && Pending(s) && s.current == SendToken(cfg.own)
    ensures HasLine(s.dyn.table, cfg.own)
    ensures var s' := Dispatch(cfg, s, env);
            if env.txEmpty then
              && s'.sent == s.sent && s'.current != s.current && HasLine(s'.dyn.table, cfg.own)
              && LineOf(s'.dyn.table, cfg.own) == LineOf(s.dyn.table, cfg.own).(bad := 0, state := LineState.Idle)
            else
              && s'.sent == s.sent + [TxOwnPacket] && s'.dyn == s.dyn && s'.current == s.current
              && s'.fsm.state == WaitClientPacketDone
  {
    assert Outstanding(s)[SendToken(cfg.own)] > 0;
    if env.txEmpty {
      OwnTokenDeclined(cfg, s, env);
    } else {
      QuietDispatch(cfg, s, env);
    }
  }

  lemma OwnTokenDeclined(cfg: Config, s: Master, env: Env)
    requires Inv(cfg, s) && s.fault == NoFault && Pending(s) && s.current == SendToken(cfg.own) && env.txEmpty
    requires HasLine(s.dyn.table, cfg.own)
    ensures var s' := Dispatch(cfg, s, env);
            && s'.sent == s.sent && s'.current != s.current && HasLine(s'.dyn.table, cfg.own)
            && LineOf(s'.dyn.table, cfg.own) == LineOf(s.dyn.table, cfg.own).(bad := 0, state := LineState.Idle)
  {
    var st := DispatchStep(env);
    FinishCloses(cfg, s, RxTokenNoPacket, env);
    assert Decision(cfg, s, env) == Finish(RxTokenNoPacket);
    NextDyn(cfg, s, st);
    LineAfterStep(cfg, s, st, cfg.own);
  }
}
