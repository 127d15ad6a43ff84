/** The master's two action queues: actions waiting for a point in time, and actions ready to run. */
module Scheduler {
  import opened Prelude
  import opened Bytes

  datatype Action = SendMasterStart | SendToken(addr: Address) | QueryAddress | DoNothing

  /** Position of an action's kind in the enumeration that breaks ties between equal times. */
  function Rank(a: Action): nat {
    match a
    case SendMasterStart => 0
    case SendToken(_) => 1
    case QueryAddress => 2
    case DoNothing => 3
  }

  datatype Waiting = Waiting(time: Time, action: Action)

  /** The queue's ordering: `a` leaves strictly after `b`. */
  predicate Later(a: Waiting, b: Waiting) {
    a.time > b.time || (a.time == b.time && Rank(a.action) > Rank(b.action))
  }

  /** The element at `i` may be the top of a priority queue that stores `w`. */
  predicate IsTop(w: seq<Waiting>, i: nat)
    requires i < |w|
  {
    forall j :: 0 <= j < |w| ==> !Later(w[i], w[j])
  }

  function FirstTop(w: seq<Waiting>): (i: nat)
    requires w != []
    ensures i < |w| && IsTop(w, i)
  {
    var n := |w| - 1;
    if n == 0 then 0 else
    var m := FirstTop(w[..n]);
    assert forall j :: 0 <= j < n ==> w[..n][j] == w[j];
    if Later(w[m], w[n]) then n else m
  }

  /** Equal elements may leave in any order. The hint names the one that the heap's layout
      happens to put on top; a hint that names no top element falls back to the first one. */
  function Top(w: seq<Waiting>, hint: seq<nat>): (i: nat)
    requires w != []
    ensures i < |w| && IsTop(w, i)
  {
    if hint != [] && hint[0] < |w| && IsTop(w, hint[0]) then hint[0] else FirstTop(w)
  }

  function Remove<T>(s: seq<T>, i: nat): (r: seq<T>)
    requires i < |s|
    ensures |r| == |s| - 1
  {
    s[..i] + s[i + 1..]
  }

  function Actions(w: seq<Waiting>): (r: seq<Action>)
    ensures |r| == |w| && forall i :: 0 <= i < |w| ==> r[i] == w[i].action
  {
    seq(|w|, i requires 0 <= i < |w| => w[i].action)
  }

  datatype Split = Split(moved: seq<Waiting>, rest: seq<Waiting>)

  /** The elements that `workToDo` moves, in the order it moves them, and those it leaves. */
  function TakeDue(w: seq<Waiting>, now: Time, hint: seq<nat>): (r: Split)
    decreases |w|
  {
    if w == [] then Split([], []) else
    var i := Top(w, hint);
    if w[i].time > now then Split([], w) else
    var r := TakeDue(Remove(w, i), now, if hint == [] then [] else hint[1..]);
    Split([w[i]] + r.moved, r.rest)
  }

  datatype Sched = Sched(ready: seq<Action>, waiting: seq<Waiting>)

  /** The queues after `workToDo`: the moved actions stand behind those already ready. */
  function Promoted(s: Sched, now: Time, hint: seq<nat>): Sched {
    var t := TakeDue(s.waiting, now, hint);
    Sched(s.ready + Actions(t.moved), t.rest)
  }

  /** Time of the first waiting element, and 0 when nothing waits. */
  function ReadyTime(w: seq<Waiting>): Time {
    if w == [] then 0.0 else w[FirstTop(w)].time
  }

  function AllActions(s: Sched): multiset<Action> {
    multiset(s.ready) + multiset(Actions(s.waiting))
  }

  lemma RemoveMultiset<T>(s: seq<T>, i: nat)
    requires i < |s|
    ensures multiset(s) == multiset(Remove(s, i)) + multiset{s[i]}
  {
    assert s == s[..i] + [s[i]] + s[i + 1..];
  }

  ghost predicate Ordered(w: seq<Waiting>) {
    forall i, j :: 0 <= i < j < |w| ==> !Later(w[i], w[j])
  }

  /** `workToDo` moves exactly the due elements, in queue order, losing and duplicating none,
      whatever the heap's layout does with equal elements. */
  lemma TakeDueMovesExactlyTheDue(w: seq<Waiting>, now: Time, hint: seq<nat>)
    ensures var t := TakeDue(w, now, hint);
            && multiset(t.moved) + multiset(t.rest) == multiset(w)
            && (forall x :: x in t.moved ==> x.time <= now)
            && (forall x :: x in t.rest ==> x.time > now)
            && Ordered(t.moved)
  {
    TakeDueConserves(w, now, hint);
    TakeDueSplits(w, now, hint);
  }

  /** Of two moved elements the earlier one comes first; at equal times a start comes before a token, and a
      token before a query. */
  lemma MovedInOrder(w: seq<Waiting>, now: Time, hint: seq<nat>, i: nat, j: nat)
    requires i < j < |TakeDue(w, now, hint).moved|
    ensures var x, y := TakeDue(w, now, hint).moved[i], TakeDue(w, now, hint).moved[j];
            && x.time <= y.time
            && (x.time == y.time ==>
                  && (y.action.SendMasterStart? ==> x.action.SendMasterStart?)
                  && (y.action.SendToken? ==> x.action.SendMasterStart? || x.action.SendToken?)
                  && (y.action.QueryAddress? ==> !x.action.DoNothing?))
  {
    TakeDueMovesExactlyTheDue(w, now, hint);
    var moved := TakeDue(w, now, hint).moved;
    assert !Later(moved[i], moved[j]);
  }

  lemma OneMoreMoved(w: seq<Waiting>, i: nat, moved: seq<Waiting>, rest: seq<Waiting>)
    requires i < |w|
    requires multiset(moved) + multiset(rest) == multiset(Remove(w, i))
    requires multiset(Actions(moved)) + multiset(Actions(rest)) == multiset(Actions(Remove(w, i)))
    ensures multiset([w[i]] + moved) + multiset(rest) == multiset(w)
    ensures multiset(Actions([w[i]] + moved)) + multiset(Actions(rest)) == multiset(Actions(w))
  {
    RemoveMultiset(w, i);
    RemoveMultiset(Actions(w), i);
    assert Actions(Remove(w, i)) == Remove(Actions(w), i);
    assert Actions([w[i]] + moved) == [w[i].action] + Actions(moved);
  }

  lemma {:induction false} TakeDueConserves(w: seq<Waiting>, now: Time, hint: seq<nat>)
    ensures var t := TakeDue(w, now, hint);
            && multiset(t.moved) + multiset(t.rest) == multiset(w)
            && multiset(Actions(t.moved)) + multiset(Actions(t.rest)) == multiset(Actions(w))
    decreases |w|
  {
    assert Actions([]) == [];
    if w != [] && w[Top(w, hint)].time <= now {
      var i, hint' := Top(w, hint), if hint == [] then [] else hint[1..];
      var t := TakeDue(Remove(w, i), now, hint');
      TakeDueConserves(Remove(w, i), now, hint');
      OneMoreMoved(w, i, t.moved, t.rest);
    }
  }

  lemma TopIsEarliest(w: seq<Waiting>, i: nat, x: Waiting)
    requires i < |w| && IsTop(w, i) && x in w
    ensures !Later(w[i], x)
  {
    var j :| 0 <= j < |w| && w[j] == x;
    assert !Later(w[i], w[j]);
  }

  /** Whatever is moved later was in the queue when the top was taken. */
  lemma TopGoesFirst(w: seq<Waiting>, i: nat, now: Time, hint: seq<nat>)
    requires i < |w| && IsTop(w, i)
    ensures forall x :: x in TakeDue(Remove(w, i), now, hint).moved ==> !Later(w[i], x)
  {
    var w' := Remove(w, i);
    TakeDueConserves(w', now, hint);
    forall x | x in TakeDue(w', now, hint).moved ensures !Later(w[i], x) {
      assert x in multiset(w');
      TopIsEarliest(w, i, x);
    }
  }

  lemma {:induction false} TakeDueSplits(w: seq<Waiting>, now: Time, hint: seq<nat>)
    ensures var t := TakeDue(w, now, hint);
            && (forall x :: x in t.moved ==> x.time <= now)
            && (forall x :: x in t.rest ==> x.time > now)
            && Ordered(t.moved)
    decreases |w|
  {
    if w != [] {
      var i := Top(w, hint);
      if w[i].time <= now {
        var w', hint' := Remove(w, i), if hint == [] then [] else hint[1..];
        var t := TakeDue(w', now, hint');
        TakeDueSplits(w', now, hint');
        TopGoesFirst(w, i, now, hint');
        OrderedCons(w[i], t.moved);
      } else {
        forall x | x in w ensures x.time > now {
          TopIsEarliest(w, i, x);
        }
      }
    }
  }

  lemma OrderedCons(x: Waiting, w: seq<Waiting>)
    requires Ordered(w) && forall y :: y in w ==> !Later(x, y)
    ensures Ordered([x] + w)
  {
  }

  /** Popping the elements named by `hint`, one after the other, takes `w` to `w'`. */
  ghost predicate Popped(w: seq<Waiting>, now: Time, hint: seq<nat>, moved: seq<Waiting>, w': seq<Waiting>)
    decreases |hint|
  {
    if hint == [] then moved == [] && w' == w else
    && hint[0] < |w| && IsTop(w, hint[0]) && w[hint[0]].time <= now
    && moved != [] && moved[0] == w[hint[0]]
    && Popped(Remove(w, hint[0]), now, hint[1..], moved[1..], w')
  }

  lemma {:induction false} PopOneMore(w: seq<Waiting>, now: Time, hint: seq<nat>, moved: seq<Waiting>,
                                      w': seq<Waiting>, i: nat)
    requires Popped(w, now, hint, moved, w')
    requires i < |w'| && IsTop(w', i) && w'[i].time <= now
    ensures Popped(w, now, hint + [i], moved + [w'[i]], Remove(w', i))
    decreases |hint|
  {
    if hint == [] {
      assert (hint + [i])[1..] == [] && (moved + [w'[i]])[1..] == [];
      assert Popped(Remove(w, i), now, [], [], Remove(w', i));
    } else {
      PopOneMore(Remove(w, hint[0]), now, hint[1..], moved[1..], w', i);
      assert (hint + [i])[1..] == hint[1..] + [i];
      assert (moved + [w'[i]])[1..] == moved[1..] + [w'[i]];
    }
  }

  lemma {:induction false} PoppedIsTakeDue(w: seq<Waiting>, now: Time, hint: seq<nat>, moved: seq<Waiting>,
                                           w': seq<Waiting>)
    requires Popped(w, now, hint, moved, w')
    requires w' != [] ==> w'[FirstTop(w')].time > now
    ensures TakeDue(w, now, hint) == Split(moved, w')
    decreases |hint|
  {
    if hint != [] {
      PoppedIsTakeDue(Remove(w, hint[0]), now, hint[1..], moved[1..], w');
      assert [moved[0]] + moved[1..] == moved;
    }
  }

  /** What a look at the queues keeps: every action, and the order of those already ready. */
  lemma PromotedConserves(s: Sched, now: Time, hint: seq<nat>)
    ensures var s' := Promoted(s, now, hint);
            && AllActions(s') == AllActions(s)
            && s.ready <= s'.ready
            && (forall x :: x in s'.waiting ==> x in s.waiting && x.time > now)
            && (forall x :: x in s.waiting && x.time > now ==> x in s'.waiting)
  {
    var t := TakeDue(s.waiting, now, hint);
    TakeDueMovesExactlyTheDue(s.waiting, now, hint);
    TakeDueConserves(s.waiting, now, hint);
    assert multiset(s.ready + Actions(t.moved)) == multiset(s.ready) + multiset(Actions(t.moved));
    forall x | x in t.rest ensures x in s.waiting {
      assert x in multiset(s.waiting);
    }
    forall x | x in s.waiting && x.time > now ensures x in t.rest {
      assert x in multiset(s.waiting);
      assert x !in t.moved;
      assert x in multiset(t.rest);
    }
  }

  /** `readyTime` is a lower bound of the waiting times, and one of them. */
  lemma ReadyTimeIsEarliest(w: seq<Waiting>)
    requires w != []
    ensures forall x :: x in w ==> ReadyTime(w) <= x.time
    ensures exists x :: x in w && x.time == ReadyTime(w)
  {
    var i := FirstTop(w);
    assert w[i] in w;
    forall x | x in w ensures ReadyTime(w) <= x.time {
      TopIsEarliest(w, i, x);
    }
  }

  /** Whichever of the top elements the heap happens to hold at its root. */
  method HeapTop(w: seq<Waiting>) returns (i: nat)
    requires w != []
    ensures i < |w| && IsTop(w, i)
    ensures w[i].time == w[FirstTop(w)].time
  {
    assert IsTop(w, FirstTop(w));
    i :| i < |w| && IsTop(w, i);
    TopIsEarliest(w, i, w[FirstTop(w)]);
    TopIsEarliest(w, FirstTop(w), w[i]);
  }

  lemma ActionsAppend(r: seq<Action>, m: seq<Waiting>, x: Waiting)
    ensures r + Actions(m + [x]) == r + Actions(m) + [x.action]
  {
    assert Actions(m + [x]) == Actions(m) + [x.action];
  }

  /** The scheduler object. `waiting` is the priority queue's storage in an unspecified order. */
  class MasterScheduler {
    var ready: seq<Action>
    var waiting: seq<Waiting>

    ghost function Model(): Sched
      reads this
    {
      Sched(ready, waiting)
    }

    constructor ()
      ensures Model() == Sched([], [])
    {
      ready, waiting := [], [];
    }

    method AddAction(a: Action, t: Time)
      modifies this
      ensures Model() == Sched(old(ready), old(waiting) + [Waiting(t, a)])
    {
      waiting := waiting + [Waiting(t, a)];
    }

    method AddActionNow(a: Action)
      modifies this
      ensures Model() == Sched(old(ready) + [a], old(waiting))
    {
      ready := ready + [a];
    }

    method Pop() returns (a: Action)
      requires ready != []
      modifies this
      ensures a == old(ready)[0] && Model() == Sched(old(ready)[1..], old(waiting))
    {
      a := ready[0];
      ready := ready[1..];
    }

    /** The loop pops whichever top element the heap offers; `hint` records the choices. */
    method WorkToDo(now: Time) returns (work: bool, ghost hint: seq<nat>)
      modifies this
      ensures Model() == Promoted(old(Model()), now, hint)
      ensures work == (ready != [])
    {
      hint := [];
      ghost var moved: seq<Waiting> := [];
      while waiting != [] && waiting[FirstTop(waiting)].time <= now
        invariant ready == old(ready) + Actions(moved)
        invariant Popped(old(waiting), now, hint, moved, waiting)
        decreases |waiting|
      {
        var i := HeapTop(waiting);
        PopOneMore(old(waiting), now, hint, moved, waiting, i);
        ActionsAppend(old(ready), moved, waiting[i]);
        ready := ready + [waiting[i].action];
        moved, hint := moved + [waiting[i]], hint + [i];
        waiting := Remove(waiting, i);
      }
      PoppedIsTakeDue(old(waiting), now, hint, moved, waiting);
      work := ready != [];
    }
  }
}
