/** The order in which the master's packets reach the bus. */
module BusOrder {
  import opened Prelude
  import opened Protocol
  import opened Bus

  /** The master's pending packets, those on the wire or those not yet sent. */
  function Sent(p: seq<Entry>, onWire: bool): seq<Msg> {
    if p == [] then [] else
    (if p[0].sender == FromMaster && p[0].onWire == onWire then [p[0].msg] else []) + Sent(p[1..], onWire)
  }

  /** The master's pending packets in the order in which they will be delivered. */
  function MasterSays(p: seq<Entry>): seq<Msg> { Sent(p, true) + Sent(p, false) }

  lemma {:induction false} SentConcat(a: seq<Entry>, b: seq<Entry>, w: bool)
    ensures Sent(a + b, w) == Sent(a, w) + Sent(b, w)
    decreases |a|
  {
    if a == [] {
      AppendEmpty(b);
      AppendEmpty(Sent(b, w));
    } else {
      assert (a + b)[0] == a[0] && (a + b)[1..] == a[1..] + b;
      SentConcat(a[1..], b, w);
      var first := if a[0].sender == FromMaster && a[0].onWire == w then [a[0].msg] else [];
      AppendAssociates(first, Sent(a[1..], w), Sent(b, w));
    }
  }

  lemma SentOne(e: Entry, w: bool)
    ensures Sent([e], w) == if e.sender == FromMaster && e.onWire == w then [e.msg] else []
  {
    assert [e][1..] == [];
  }

  lemma {:induction false} SentNone(p: seq<Entry>, w: bool)
    requires forall i :: 0 <= i < |p| ==> p[i].sender != FromMaster || p[i].onWire != w
    ensures Sent(p, w) == []
    decreases |p|
  {
    if p != [] { SentNone(p[1..], w); }
  }

  lemma SentAround(p: seq<Entry>, i: nat, w: bool)
    requires i < |p|
    ensures Sent(p, w) == Sent(p[..i], w) + Sent([p[i]], w) + Sent(p[i + 1..], w)
  {
    assert p == p[..i] + [p[i]] + p[i + 1..];
    SentConcat(p[..i] + [p[i]], p[i + 1..], w);
    SentConcat(p[..i], [p[i]], w);
  }

  lemma SentWithout(p: seq<Entry>, i: nat, tail: seq<Entry>, w: bool)
    requires i < |p|
    ensures Sent(p[..i] + p[i + 1..] + tail, w) == Sent(p[..i], w) + Sent(p[i + 1..], w) + Sent(tail, w)
  {
    SentConcat(p[..i] + p[i + 1..], tail, w);
    SentConcat(p[..i], p[i + 1..], w);
  }

  lemma TransmitSent(p: seq<Entry>, i: nat, w: bool)
    requires CanTransmit(p, i)
    ensures var p', m := p[..i] + p[i + 1..] + [p[i].(onWire := true)], [p[i].msg];
            if p[i].sender != FromMaster then Sent(p', w) == Sent(p, w)
            else if w then Sent(p', w) == Sent(p, w) + m
            else Sent(p, w) == m + Sent(p', w)
  {
    var e := p[i].(onWire := true);
    SentAround(p, i, w);
    SentWithout(p, i, [e], w);
    SentOne(p[i], w);
    SentOne(e, w);
    var x, z := Sent(p[..i], w), Sent(p[i + 1..], w);
    AppendEmpty(x);
    AppendEmpty(x + z);
    if p[i].sender == FromMaster && !w {
      SentNone(p[..i], w);
      AppendEmpty(z);
      AppendEmpty([p[i].msg]);
    }
  }

  /** A transmission changes nothing about the order. */
  lemma TransmitKeepsOrder(p: seq<Entry>, i: nat)
    requires CanTransmit(p, i)
    ensures MasterSays(p[..i] + p[i + 1..] + [p[i].(onWire := true)]) == MasterSays(p)
  {
    var p' := p[..i] + p[i + 1..] + [p[i].(onWire := true)];
    TransmitSent(p, i, true);
    TransmitSent(p, i, false);
    AppendAssociates(Sent(p, true), [p[i].msg], Sent(p', false));
  }

  lemma TakeFirst(p: seq<Entry>, i: nat, replies: seq<Entry>)
    requires i < |p| && p[i].onWire && forall j :: 0 <= j < i ==> !p[j].onWire
    requires Sent(replies, true) == []
    ensures Sent(p, true) == Sent([p[i]], true) + Sent(p[..i] + p[i + 1..] + replies, true)
  {
    SentAround(p, i, true);
    SentWithout(p, i, replies, true);
    SentNone(p[..i], true);
    AppendEmpty(Sent([p[i]], true));
    AppendEmpty(Sent(p[i + 1..], true));
  }

  lemma LeaveUnsent(p: seq<Entry>, i: nat, replies: seq<Entry>)
    requires i < |p| && p[i].onWire && Sent(replies, false) == []
    ensures Sent(p, false) == Sent(p[..i] + p[i + 1..] + replies, false)
  {
    SentAround(p, i, false);
    SentWithout(p, i, replies, false);
    SentOne(p[i], false);
    AppendEmpty(Sent(p[..i], false));
    AppendEmpty(Sent(p[..i], false) + Sent(p[i + 1..], false));
  }

  /** A delivery takes the first of the master's packets, or none of them. */
  lemma DeliverTakesFirst(p: seq<Entry>, replies: seq<Entry>)
    requires NextOnWire(p) < |p| && forall k :: 0 <= k < |replies| ==> replies[k].sender != FromMaster
    ensures var i := NextOnWire(p);
            var rest := MasterSays(p[..i] + p[i + 1..] + replies);
            MasterSays(p) == if p[i].sender == FromMaster then [p[i].msg] + rest else rest
  {
    var i := NextOnWire(p);
    SentNone(replies, true);
    SentNone(replies, false);
    TakeFirst(p, i, replies);
    LeaveUnsent(p, i, replies);
    SentOne(p[i], true);
    var p' := p[..i] + p[i + 1..] + replies;
    FirstThenRest(p[i], Sent(p', true), Sent(p', false));
  }

  lemma FirstThenRest(e: Entry, a: seq<Msg>, b: seq<Msg>)
    ensures var first := if e.sender == FromMaster then [e.msg] else [];
            first + a + b == if e.sender == FromMaster then [e.msg] + (a + b) else a + b
  {
    AppendEmpty(a);
    AppendAssociates([e.msg], a, b);
  }

  lemma EmitAppends(p: seq<Entry>, msg: Msg)
    ensures MasterSays(p + [Entry(FromMaster, false, msg)]) == MasterSays(p) + [msg]
  {
    var e := Entry(FromMaster, false, msg);
    SentConcat(p, [e], true);
    SentConcat(p, [e], false);
    SentOne(e, true);
    SentOne(e, false);
  }

  lemma {:induction false} WithoutKeepsOrder(p: seq<Entry>, id: UniqueId, w: bool)
    ensures Sent(Without(p, id), w) == Sent(p, w)
    decreases |p|
  {
    if p != [] {
      WithoutKeepsOrder(p[1..], id, w);
      if !(p[0].sender == FromClient(id) && !p[0].onWire) {
        SentConcat([p[0]], Without(p[1..], id), w);
        SentOne(p[0], w);
      }
    }
  }

  lemma {:induction false} SentIsPending(p: seq<Entry>, w: bool, m: Msg)
    requires m in Sent(p, w)
    ensures exists i :: 0 <= i < |p| && p[i].msg == m
    decreases |p|
  {
    if p[0].msg != m {
      SentIsPending(p[1..], w, m);
      var i :| 0 <= i < |p[1..]| && p[1..][i].msg == m;
      assert p[i + 1].msg == m;
    }
  }

  lemma SaidIsPending(p: seq<Entry>, m: Msg)
    requires m in MasterSays(p)
    ensures exists i :: 0 <= i < |p| && p[i].msg == m
  {
    SentIsPending(p, m in Sent(p, true), m);
  }
}
