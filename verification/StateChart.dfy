/** The hierarchical state machine engine: registered state trees, transitions and event dispatch. */
module StateChart {

  import opened Prelude

  // ---------------------------------------------------------------- state trees

  datatype StateInfo = StateInfo(id: int, parentId: int, level: nat)

  /** First registered state with the given id, or the number of states. */
  function FindState(states: seq<StateInfo>, id: int): (i: nat)
    ensures i <= |states|
    ensures i < |states| ==> states[i].id == id
    ensures forall j :: 0 <= j < i ==> states[j].id != id
  {
    if states == [] then 0 else if states[0].id == id then 0 else
    assert forall j :: 0 <= j < |states[1..]| ==> states[1..][j] == states[j + 1];
    1 + FindState(states[1..], id)
  }

  predicate Known(states: seq<StateInfo>, id: int) { FindState(states, id) < |states| }

  function Lookup(states: seq<StateInfo>, id: int): (s: StateInfo)
    requires Known(states, id)
    ensures s.id == id && s in states
  {
    states[FindState(states, id)]
  }

  /** A root is its own parent; every other state lies one level below its parent. */
  predicate Linked(states: seq<StateInfo>, s: StateInfo) {
    if s.parentId == s.id then s.level == 0
    else Known(states, s.parentId) && s.level == Lookup(states, s.parentId).level + 1
  }

  /** Every registered state hangs from a root. A second state with a known id is never found. */
  ghost predicate IsTree(states: seq<StateInfo>) {
    forall s {:trigger Linked(states, s)} :: s in states ==> Linked(states, s)
  }

  /** The states from the root down to `s`. Levels strictly decrease towards the root. */
  function Path(states: seq<StateInfo>, s: StateInfo): (p: seq<StateInfo>)
    requires IsTree(states) && s in states
    ensures |p| == s.level + 1 && p[s.level] == s
    ensures forall k :: 0 <= k < |p| ==> p[k] in states && p[k].level == k
    decreases s.level
  {
    if s.level == 0 then [s] else
    assert Linked(states, s);
    Path(states, Lookup(states, s.parentId)) + [s]
  }

  /** Registration keeps the tree, and what was found before is found again. */
  lemma RegisterKeepsTree(states: seq<StateInfo>, s: StateInfo)
    requires IsTree(states)
    requires if s.parentId == s.id then s.level == 0
             else Known(states, s.parentId) && s.level == Lookup(states, s.parentId).level + 1
    ensures IsTree(states + [s])
    ensures forall id {:trigger Known(states, id)} :: Known(states, id) ==>
              Known(states + [s], id) && Lookup(states + [s], id) == Lookup(states, id)
    ensures Known(states + [s], s.id) && (!Known(states, s.id) ==> Lookup(states + [s], s.id) == s)
  {
    var all := states + [s];
    forall id | Known(states, id) ensures Known(all, id) && Lookup(all, id) == Lookup(states, id) {
      var i := FindState(states, id);
      assert all[i] == states[i];
    }
    assert all[|states|] == s;
    forall x | x in all ensures Linked(all, x) {
      assert x in states ==> Linked(states, x);
    }
  }

  /** A state determines everything above it: the path to `s` runs through the path to each of its
      ancestors. */
  lemma {:induction false} PathOfAncestor(states: seq<StateInfo>, s: StateInfo, k: nat)
    requires IsTree(states) && s in states && k <= s.level
    ensures Path(states, s)[..k + 1] == Path(states, Path(states, s)[k])
    decreases s.level
  {
    if k == s.level {
      assert Path(states, s)[..k + 1] == Path(states, s);
    } else {
      assert Linked(states, s);
      var p := Lookup(states, s.parentId);
      PathOfAncestor(states, p, k);
      assert Path(states, s)[..k + 1] == Path(states, p)[..k + 1];
    }
  }

  /** On a path, the state above is the parent. */
  lemma {:induction false} PathClimbs(states: seq<StateInfo>, s: StateInfo, k: nat)
    requires IsTree(states) && s in states && 0 < k <= s.level
    ensures var p := Path(states, s); Known(states, p[k].parentId) && Lookup(states, p[k].parentId) == p[k - 1]
    decreases s.level
  {
    assert Linked(states, s);
    if k < s.level { PathClimbs(states, Lookup(states, s.parentId), k); }
  }

  // ---------------------------------------------------------------- transitions

  function CommonPrefix(a: seq<StateInfo>, b: seq<StateInfo>): (k: nat)
    ensures k <= |a| && k <= |b| && a[..k] == b[..k]
    ensures k < |a| && k < |b| ==> a[k] != b[k]
  {
    if a == [] || b == [] || a[0] != b[0] then 0 else
    var k := CommonPrefix(a[1..], b[1..]);
    assert a[..k + 1] == [a[0]] + a[1..][..k] && b[..k + 1] == [b[0]] + b[1..][..k];
    k + 1
  }

  /** How many states, counted from the root, survive a transition. A transition to the current state
      leaves and re-enters that state alone. */
  function Kept(cur: seq<StateInfo>, path: seq<StateInfo>): (k: nat)
    requires path != []
    ensures k <= |cur| && k <= |path|
    ensures cur != [] && cur[|cur| - 1] != path[|path| - 1] ==> k == CommonPrefix(cur, path)
  {
    if cur == [] then 0
    else if cur[|cur| - 1] == path[|path| - 1] then
      if |cur| <= |path| then |cur| - 1 else |path| - 1
    else CommonPrefix(cur, path)
  }

  datatype Mark = Exit(s: StateInfo) | Enter(s: StateInfo)

  function Exits(s: seq<StateInfo>): (r: seq<Mark>)
    ensures |r| == |s| && forall i :: 0 <= i < |s| ==> r[i] == Exit(s[|s| - 1 - i])
  {
    seq(|s|, i requires 0 <= i < |s| => Exit(s[|s| - 1 - i]))
  }

  function Entries(s: seq<StateInfo>): (r: seq<Mark>)
    ensures |r| == |s| && forall i :: 0 <= i < |s| ==> r[i] == Enter(s[i])
  {
    seq(|s|, i requires 0 <= i < |s| => Enter(s[i]))
  }

  /** What a transition to `path` does: it leaves the states beyond the kept ones leaf first, and
      enters the missing ones root first. */
  function Marks(cur: seq<StateInfo>, path: seq<StateInfo>): seq<Mark>
    requires path != []
  {
    Exits(cur[Kept(cur, path)..]) + Entries(path[Kept(cur, path)..])
  }

  /** In a sequence ordered by level, a state's level is its place. */
  lemma PlaceIsLevel(p: seq<StateInfo>, k: nat, s: StateInfo)
    requires k <= |p| && forall i :: 0 <= i < |p| ==> p[i].level == i
    ensures s in p ==> s.level < |p| && p[s.level] == s
    ensures s in p[..k] <==> s in p && s.level < k
    ensures s in p[k..] <==> s in p && s.level >= k
  {
    assert s in p && s.level < k ==> p[..k][s.level] == s;
    assert s in p && s.level >= k ==> p[k..][s.level - k] == s;
  }

  lemma {:induction false} CommonPrefixIsLongest(a: seq<StateInfo>, b: seq<StateInfo>, n: nat)
    requires n <= |a| && n <= |b| && a[..n] == b[..n]
    ensures n <= CommonPrefix(a, b)
    decreases n
  {
    if n > 0 {
      assert a[0] == a[..n][0] == b[..n][0] == b[0];
      assert a[1..][..n - 1] == a[..n][1..] && b[1..][..n - 1] == b[..n][1..];
      CommonPrefixIsLongest(a[1..], b[1..], n - 1);
    }
  }

  lemma {:induction false} CommonPrefixStops(a: seq<StateInfo>, b: seq<StateInfo>, l: nat)
    requires l <= |a| && l <= |b| && (l == |a| || l == |b| || a[l] != b[l])
    ensures CommonPrefix(a, b) <= l
    decreases l
  {
    if l > 0 { CommonPrefixStops(a[1..], b[1..], l - 1); }
  }

  lemma SharedAncestors(states: seq<StateInfo>, src: StateInfo, dst: StateInfo, l: nat)
    requires IsTree(states) && src in states && dst in states && l <= src.level && l <= dst.level
    requires Path(states, src)[l] == Path(states, dst)[l]
    ensures Path(states, src)[..l + 1] == Path(states, dst)[..l + 1]
  {
    PathOfAncestor(states, src, l);
    PathOfAncestor(states, dst, l);
  }

  /** A state on both paths has the same ancestors on both, so it is kept. */
  lemma CommonStatesAreKept(states: seq<StateInfo>, src: StateInfo, dst: StateInfo, s: StateInfo)
    requires IsTree(states) && src in states && dst in states && src != dst
    requires s in Path(states, src) && s in Path(states, dst)
    ensures s.level < Kept(Path(states, src), Path(states, dst))
  {
    var cur, path := Path(states, src), Path(states, dst);
    PlaceIsLevel(cur, |cur|, s);
    PlaceIsLevel(path, |path|, s);
    SharedAncestors(states, src, dst, s.level);
    CommonPrefixIsLongest(cur, path, s.level + 1);
  }

  /** Between two states of a tree, exactly the states on one path but not on the other are left or
      entered, and the common ancestors stay alive. */
  lemma TransitionIsMinimal(states: seq<StateInfo>, src: StateInfo, dst: StateInfo, s: StateInfo)
    requires IsTree(states) && src in states && dst in states && src != dst
    ensures var cur, path := Path(states, src), Path(states, dst);
            var k := Kept(cur, path);
            && cur[..k] == path[..k]
            && (s in cur[k..] <==> s in cur && s !in path)
            && (s in path[k..] <==> s in path && s !in cur)
            && (s in cur[..k] <==> s in cur && s in path)
  {
    var cur, path := Path(states, src), Path(states, dst);
    var k := Kept(cur, path);
    PlaceIsLevel(cur, k, s);
    PlaceIsLevel(path, k, s);
    if s in cur && s in path { CommonStatesAreKept(states, src, dst, s); }
  }

  /** In a machine without nesting, every transition leaves the one state and enters the other. */
  lemma FlatTransition(states: seq<StateInfo>, src: StateInfo, dst: StateInfo)
    requires IsTree(states) && src in states && dst in states && src.level == 0 && dst.level == 0
    ensures Marks(Path(states, src), Path(states, dst)) == [Exit(src), Enter(dst)]
  {
    if src == dst { SelfTransition(states, src); } else { CommonPrefixStops([src], [dst], 0); }
  }

  /** A transition to the current state leaves and re-enters that state alone. */
  lemma SelfTransition(states: seq<StateInfo>, s: StateInfo)
    requires IsTree(states) && s in states
    ensures Marks(Path(states, s), Path(states, s)) == [Exit(s), Enter(s)]
  {
    var p := Path(states, s);
    assert p[Kept(p, p)..] == [s];
  }

  // ---------------------------------------------------------------- callbacks

  /** What the states of a machine do: which transition a constructor, a destructor or an event function asks
      for, and which events a state handles. They may answer differently every time: the number is how
      many constructors and destructors, or how many offers, there have been before. */
  datatype Callbacks<!E> = Callbacks(
    onEnter: (nat, StateInfo) -> Option<int>, onExit: (nat, StateInfo) -> Option<int>,
    handles: (nat, StateInfo, E) -> bool, asks: (nat, StateInfo, E) -> Option<int>)

  function MarkAsks<E>(cb: Callbacks<E>, k: nat, m: Mark): Option<int> {
    match m
    case Exit(s) => cb.onExit(k, s)
    case Enter(s) => cb.onEnter(k, s)
  }

  /** A later request replaces an earlier one. */
  function Later(a: Option<int>, b: Option<int>): Option<int> { if b.Some? then b else a }

  /** The request that stands after a sequence of destructors and constructors has run, after `k` others. */
  function Wish<E>(cb: Callbacks<E>, k: nat, before: Option<int>, ms: seq<Mark>): Option<int>
    decreases |ms|
  {
    if ms == [] then before else
    var n := |ms| - 1;
    Later(Wish(cb, k, before, ms[..n]), MarkAsks(cb, k + n, ms[n]))
  }

  lemma WishSnoc<E>(cb: Callbacks<E>, k: nat, before: Option<int>, ms: seq<Mark>, m: Mark, at: nat)
    requires at == k + |ms|
    ensures Wish(cb, k, before, ms + [m]) == Later(Wish(cb, k, before, ms), MarkAsks(cb, at, m))
  {
    assert (ms + [m])[..|ms|] == ms;
  }

  lemma {:induction false} WishConcat<E>(cb: Callbacks<E>, k: nat, before: Option<int>, a: seq<Mark>, b: seq<Mark>)
    ensures Wish(cb, k, before, a + b) == Wish(cb, k + |a|, Wish(cb, k, before, a), b)
    decreases |b|
  {
    if b == [] {
      assert a + b == a;
    } else {
      var n := |b| - 1;
      WishConcat(cb, k, before, a, b[..n]);
      assert a + b == a + b[..n] + [b[n]];
      WishSnoc(cb, k, before, a + b[..n], b[n], k + |a| + n);
    }
  }

  lemma MarksConcat<E>(cb: Callbacks<E>, log: seq<Mark>, before: Option<int>, a: seq<Mark>, b: seq<Mark>)
    ensures log + a + b == log + (a + b)
    ensures Wish(cb, |log + a|, Wish(cb, |log|, before, a), b) == Wish(cb, |log|, before, a + b)
  {
    WishConcat(cb, |log|, before, a, b);
  }

  /** The states that an event is offered to: from the leaf up to the first that handles it. */
  function Offered<E>(cb: Callbacks<E>, k: nat, cur: seq<StateInfo>, ev: E): seq<StateInfo>
    decreases |cur|
  {
    if cur == [] then [] else
    var leaf := cur[|cur| - 1];
    [leaf] + if cb.handles(k, leaf, ev) then [] else Offered(cb, k + 1, cur[..|cur| - 1], ev)
  }

  /** The request that stands after the offers. */
  function Asked<E>(cb: Callbacks<E>, k: nat, before: Option<int>, offers: seq<StateInfo>, ev: E): Option<int>
    decreases |offers|
  {
    if offers == [] then before
    else Asked(cb, k + 1, Later(before, cb.asks(k, offers[0], ev)), offers[1..], ev)
  }

  /** The path that a request for `id` leads to. */
  function Landing(states: seq<StateInfo>, id: int): (p: seq<StateInfo>)
    requires IsTree(states) && Known(states, id)
    ensures p != []
  {
    Path(states, Lookup(states, id))
  }

  /** The request that stands after a transition to `id`. */
  function NextWish<E>(cb: Callbacks<E>, k: nat, states: seq<StateInfo>, cur: seq<StateInfo>, id: int): Option<int>
    requires IsTree(states) && Known(states, id)
  {
    Wish(cb, k, None, Marks(cur, Landing(states, id)))
  }

  /** Where a machine stands: its path, the request that is pending, and everything left and entered. */
  datatype Progress = Progress(cur: seq<StateInfo>, request: Option<int>, marks: seq<Mark>)

  /** One turn of the transition loop. A request for an unknown state stays as it is. */
  function Turn<E>(cb: Callbacks<E>, states: seq<StateInfo>, p: Progress): Progress
    requires IsTree(states) && p.request.Some?
  {
    var id := p.request.value;
    if !Known(states, id) then p else
    var path := Landing(states, id);
    Progress(path, NextWish(cb, |p.marks|, states, p.cur, id), p.marks + Marks(p.cur, path))
  }

  /** At most `n` turns of the transition loop. */
  function Follow<E>(cb: Callbacks<E>, states: seq<StateInfo>, p: Progress, n: nat): Progress
    requires IsTree(states)
    decreases n
  {
    if n == 0 || p.request.None? then p else Follow(cb, states, Turn(cb, states, p), n - 1)
  }

  /** The loop ends. */
  ghost predicate Settles<E>(cb: Callbacks<E>, states: seq<StateInfo>, p: Progress)
    requires IsTree(states)
  {
    exists n: nat :: Follow(cb, states, p, n).request.None?
  }

  /** Once it has ended, further turns change nothing. */
  lemma {:induction false} SettledStays<E>(cb: Callbacks<E>, states: seq<StateInfo>, p: Progress, n: nat, m: nat)
    requires IsTree(states) && n <= m && Follow(cb, states, p, n).request.None?
    ensures Follow(cb, states, p, m) == Follow(cb, states, p, n)
    decreases n
  {
    if p.request.Some? { SettledStays(cb, states, Turn(cb, states, p), n - 1, m - 1); }
  }

  /** A request for an unknown state is retried for ever. */
  lemma {:induction false} UnknownIsRetried<E>(cb: Callbacks<E>, states: seq<StateInfo>, p: Progress, n: nat)
    requires IsTree(states) && p.request.Some? && !Known(states, p.request.value)
    ensures Follow(cb, states, p, n) == p
    decreases n
  {
    if n > 0 { UnknownIsRetried(cb, states, p, n - 1); }
  }

  // ---------------------------------------------------------------- the last request stands

  /** The constructor or destructor that runs after `k` others asks for the state `id`. */
  ghost predicate AsksFor<E>(cb: Callbacks<E>, k: nat, m: Mark, id: int) {
    match m
    case Exit(s) => cb.onExit(k, s) == Some(id)
    case Enter(s) => cb.onEnter(k, s) == Some(id)
  }

  ghost predicate AsksNothing<E>(cb: Callbacks<E>, k: nat, m: Mark) {
    match m
    case Exit(s) => cb.onExit(k, s) == None
    case Enter(s) => cb.onEnter(k, s) == None
  }

  /** From the `i`-th of these marks on, nobody asks for anything. */
  ghost predicate SilentFrom<E>(cb: Callbacks<E>, k: nat, ms: seq<Mark>, i: nat) {
    forall j :: i <= j < |ms| ==> AsksNothing(cb, k + j, ms[j])
  }

  /** The last constructor or destructor that asks for a transition decides. */
  lemma {:induction false} LastAskerDecides<E>(cb: Callbacks<E>, k: nat, before: Option<int>, ms: seq<Mark>, i: nat,
                                               id: int)
    requires i < |ms| && AsksFor(cb, k + i, ms[i], id) && SilentFrom(cb, k, ms, i + 1)
    ensures Wish(cb, k, before, ms) == Some(id)
    decreases |ms|
  {
    var n := |ms| - 1;
    if i < n {
      assert AsksNothing(cb, k + n, ms[n]);
      LastAskerDecides(cb, k, before, ms[..n], i, id);
    }
  }

  /** Without anyone asking, the request from before stands. */
  lemma {:induction false} NobodyAsks<E>(cb: Callbacks<E>, k: nat, before: Option<int>, ms: seq<Mark>)
    requires SilentFrom(cb, k, ms, 0)
    ensures Wish(cb, k, before, ms) == before
    decreases |ms|
  {
    if ms != [] {
      var n := |ms| - 1;
      assert AsksNothing(cb, k + n, ms[n]);
      NobodyAsks(cb, k, before, ms[..n]);
    }
  }

  /** The last event function that asks for a transition decides. */
  lemma {:induction false} LastOfferDecides<E>(cb: Callbacks<E>, k: nat, before: Option<int>, offers: seq<StateInfo>,
                                               ev: E, i: nat, id: int)
    requires i < |offers| && cb.asks(k + i, offers[i], ev) == Some(id)
    requires forall j :: i < j < |offers| ==> cb.asks(k + j, offers[j], ev) == None
    ensures Asked(cb, k, before, offers, ev) == Some(id)
    decreases |offers|
  {
    var rest, first := offers[1..], cb.asks(k, offers[0], ev);
    if i == 0 {
      forall j | 0 <= j < |rest| ensures cb.asks(k + 1 + j, rest[j], ev) == None {
        assert cb.asks(k + (j + 1), offers[j + 1], ev) == None;
      }
      NoOfferAsks(cb, k + 1, Some(id), rest, ev);
    } else {
      forall j | i - 1 < j < |rest| ensures cb.asks(k + 1 + j, rest[j], ev) == None {
        assert cb.asks(k + (j + 1), offers[j + 1], ev) == None;
      }
      LastOfferDecides(cb, k + 1, Later(before, first), rest, ev, i - 1, id);
    }
  }

  lemma {:induction false} NoOfferAsks<E>(cb: Callbacks<E>, k: nat, before: Option<int>, offers: seq<StateInfo>, ev: E)
    requires forall j :: 0 <= j < |offers| ==> cb.asks(k + j, offers[j], ev) == None
    ensures Asked(cb, k, before, offers, ev) == before
    decreases |offers|
  {
    if offers != [] {
      var rest := offers[1..];
      assert cb.asks(k + 0, offers[0], ev) == None;
      forall j | 0 <= j < |rest| ensures cb.asks(k + 1 + j, rest[j], ev) == None {
        assert cb.asks(k + (j + 1), offers[j + 1], ev) == None;
      }
      NoOfferAsks(cb, k + 1, before, rest, ev);
    }
  }

  lemma OfferStarts<E>(cb: Callbacks<E>, k: nat, cur: seq<StateInfo>, ev: E)
    requires cur != []
    ensures var n := |cur| - 1;
            var o, rest := Offered(cb, k, cur, ev), Offered(cb, k + 1, cur[..n], ev);
            && |o| > 0 && o[0] == cur[n]
            && if cb.handles(k, cur[n], ev) then |o| == 1
               else |o| == |rest| + 1 && forall i :: 0 < i < |o| ==> o[i] == rest[i - 1]
  {
  }

  lemma {:induction false} OfferShape<E>(cb: Callbacks<E>, k: nat, cur: seq<StateInfo>, ev: E, i: nat)
    requires i < |Offered(cb, k, cur, ev)|
    ensures i < |cur| && Offered(cb, k, cur, ev)[i] == cur[|cur| - 1 - i]
    decreases |cur|
  {
    OfferStarts(cb, k, cur, ev);
    if i > 0 { OfferShape(cb, k + 1, cur[..|cur| - 1], ev, i - 1); }
  }

  lemma {:induction false} OfferGoesOn<E>(cb: Callbacks<E>, k: nat, cur: seq<StateInfo>, ev: E, i: nat, at: nat)
    requires i + 1 < |Offered(cb, k, cur, ev)| && at == k + i
    ensures !cb.handles(at, Offered(cb, k, cur, ev)[i], ev)
    decreases |cur|
  {
    OfferStarts(cb, k, cur, ev);
    if i > 0 { OfferGoesOn(cb, k + 1, cur[..|cur| - 1], ev, i - 1, at); }
  }

  lemma {:induction false} OfferEnds<E>(cb: Callbacks<E>, k: nat, cur: seq<StateInfo>, ev: E, at: nat)
    requires 0 < |Offered(cb, k, cur, ev)| < |cur| && at == k + |Offered(cb, k, cur, ev)| - 1
    ensures var o := Offered(cb, k, cur, ev); cb.handles(at, o[|o| - 1], ev)
    decreases |cur|
  {
    OfferStarts(cb, k, cur, ev);
    if |Offered(cb, k, cur, ev)| > 1 { OfferEnds(cb, k + 1, cur[..|cur| - 1], ev, at); }
  }

  lemma {:induction false} OfferIsShort<E>(cb: Callbacks<E>, k: nat, cur: seq<StateInfo>, ev: E)
    ensures |Offered(cb, k, cur, ev)| <= |cur| && (cur != [] ==> Offered(cb, k, cur, ev) != [])
    decreases |cur|
  {
    if cur != [] {
      OfferStarts(cb, k, cur, ev);
      OfferIsShort(cb, k + 1, cur[..|cur| - 1], ev);
    }
  }

  /** The offers climb from the leaf, one state at a time, to the first state that handles the event, or to the
      root. */
  lemma OffersClimb<E>(cb: Callbacks<E>, k: nat, cur: seq<StateInfo>, ev: E)
    ensures var o := Offered(cb, k, cur, ev);
            && |o| <= |cur| && (cur != [] ==> o != [])
            && (forall i :: 0 <= i < |o| ==> o[i] == cur[|cur| - 1 - i])
            && (forall i: nat :: i + 1 < |o| ==> !cb.handles(k + i, o[i], ev))
            && (o != [] && |o| < |cur| ==> cb.handles(k + (|o| - 1), o[|o| - 1], ev))
  {
    var o := Offered(cb, k, cur, ev);
    OfferIsShort(cb, k, cur, ev);
    forall i | 0 <= i < |o| ensures o[i] == cur[|cur| - 1 - i] { OfferShape(cb, k, cur, ev, i); }
    forall i: nat | i + 1 < |o| ensures !cb.handles(k + i, o[i], ev) {
      OfferGoesOn(cb, k, cur, ev, i, k + i);
    }
    if o != [] && |o| < |cur| { OfferEnds(cb, k, cur, ev, k + (|o| - 1)); }
  }

  /** One turn of the loop for a known state whose way asks for nothing: the machine stands on its root path. */
  lemma OneTurn<E>(cb: Callbacks<E>, states: seq<StateInfo>, p: Progress, id: int)
    requires IsTree(states) && p.request == Some(id) && Known(states, id)
    requires SilentFrom(cb, |p.marks|, Marks(p.cur, Path(states, Lookup(states, id))), 0)
    ensures var path := Path(states, Lookup(states, id));
            Follow(cb, states, p, 1) == Progress(path, None, p.marks + Marks(p.cur, path))
  {
    NobodyAsks(cb, |p.marks|, None, Marks(p.cur, Path(states, Lookup(states, id))));
    assert Follow(cb, states, p, 1) == Turn(cb, states, p);
  }

  /** A request that a constructor or destructor makes on the way is not lost: after two turns the machine
      stands on the root path of the state that was asked for last, having gone both ways. */
  lemma RequestOnTheWay<E>(cb: Callbacks<E>, states: seq<StateInfo>, p: Progress, id: int, i: nat, id2: int)
    requires IsTree(states) && p.request == Some(id) && Known(states, id) && Known(states, id2)
    requires var ms := Marks(p.cur, Path(states, Lookup(states, id)));
             i < |ms| && AsksFor(cb, |p.marks| + i, ms[i], id2) && SilentFrom(cb, |p.marks|, ms, i + 1)
    ensures var path, path2 := Path(states, Lookup(states, id)), Path(states, Lookup(states, id2));
            var q := Follow(cb, states, p, 2);
            q.cur == path2 && q.marks == p.marks + Marks(p.cur, path) + Marks(path, path2)
  {
    var path := Path(states, Lookup(states, id));
    LastAskerDecides(cb, |p.marks|, None, Marks(p.cur, path), i, id2);
    var t := Turn(cb, states, p);
    assert Follow(cb, states, p, 2) == Follow(cb, states, t, 1) == Turn(cb, states, t);
  }

  /** An event leads to the state that was asked for last on its way up. */
  lemma EventLeadsTo<E>(cb: Callbacks<E>, states: seq<StateInfo>, k: nat, cur: seq<StateInfo>, log: seq<Mark>, ev: E,
                        i: nat, id: int)
    requires IsTree(states) && Known(states, id)
    requires var o := Offered(cb, k, cur, ev);
             && i < |o| && cb.asks(k + i, o[i], ev) == Some(id)
             && forall j :: i < j < |o| ==> cb.asks(k + j, o[j], ev) == None
    requires SilentFrom(cb, |log|, Marks(cur, Path(states, Lookup(states, id))), 0)
    ensures var path := Path(states, Lookup(states, id));
            var asked := Asked(cb, k, None, Offered(cb, k, cur, ev), ev);
            Follow(cb, states, Progress(cur, asked, log), 1) == Progress(path, None, log + Marks(cur, path))
  {
    LastOfferDecides(cb, k, None, Offered(cb, k, cur, ev), ev, i, id);
    OneTurn(cb, states, Progress(cur, Some(id), log), id);
  }

  /** Where constructors and destructors ask for nothing, as in the master's machine, the loop ends if and
      only if the requested state is registered, and then after one transition. */
  lemma SettlesExactly<E>(cb: Callbacks<E>, states: seq<StateInfo>, p: Progress)
    requires IsTree(states) && p.request.Some?
    requires forall k: nat, m :: AsksNothing(cb, k, m)
    ensures Settles(cb, states, p) <==> Known(states, p.request.value)
    ensures Settles(cb, states, p) ==>
              var path := Landing(states, p.request.value);
              Follow(cb, states, p, 1) == Progress(path, None, p.marks + Marks(p.cur, path))
  {
    if Known(states, p.request.value) {
      OneTurn(cb, states, p, p.request.value);
    } else {
      forall n: nat ensures Follow(cb, states, p, n).request.Some? { UnknownIsRetried(cb, states, p, n); }
    }
  }

  // ---------------------------------------------------------------- the engine

  class Engine<!E> {
    const cb: Callbacks<E>
    var states: seq<StateInfo>
    var current: seq<StateInfo>
    var next: seq<StateInfo>
    var stateUpdate: bool
    var nextState: int
    /** Every destructor and constructor run so far, and every offer of an event. */
    var log: seq<Mark>
    var offers: seq<StateInfo>

    /** The machine is not started, or stands on the root path of a registered state. */
    ghost predicate Valid()
      reads this
    {
      && IsTree(states)
      && (current != [] ==> current[|current| - 1] in states && current == Path(states, current[|current| - 1]))
    }

    function Request(): Option<int>
      reads this
    {
      if stateUpdate then Some(nextState) else None
    }

    constructor (cb: Callbacks<E>)
      ensures Valid() && this.cb == cb && states == [] && current == [] && !stateUpdate && log == [] && offers == []
    {
      this.cb := cb;
      states, current, next, log, offers := [], [], [], [], [];
      stateUpdate, nextState := false, 0;
    }

    method FindStateIndex(id: int) returns (i: nat)
      ensures i == FindState(states, id)
    {
      i := 0;
      while i < |states| && states[i].id != id
        invariant i <= |states| && forall j :: 0 <= j < i ==> states[j].id != id
      {
        i := i + 1;
      }
    }

    /** An unregistered parent makes the program follow a null reference, and `ok` is false for it. */
    method AddState(id: int, parentId: int) returns (ok: bool)
      requires Valid() && current == []
      modifies this`states
      ensures Valid() && (ok <==> parentId == id || Known(old(states), parentId))
      ensures !ok ==> states == old(states)
      ensures ok ==>
                var level := if id == parentId then 0 else Lookup(old(states), parentId).level + 1;
                states == old(states) + [StateInfo(id, parentId, level)]
    {
      var level := 0;
      if id != parentId {
        var p := FindStateIndex(parentId);
        if p == |states| {
          return false;
        }
        level := states[p].level + 1;
      }
      RegisterKeepsTree(states, StateInfo(id, parentId, level));
      states := states + [StateInfo(id, parentId, level)];
      return true;
    }

    method Transition(id: int)
      modifies this`nextState, this`stateUpdate
      ensures Request() == Some(id)
    {
      nextState := id;
      stateUpdate := true;
    }

    method Ask(w: Option<int>)
      modifies this`nextState, this`stateUpdate
      ensures Request() == Later(old(Request()), w)
    {
      if w.Some? {
        Transition(w.value);
      }
    }

    /** Fills `next` from the target's level down to the root. */
    method PopulateNextInfos(target: StateInfo)
      requires IsTree(states) && target in states
      modifies this`next
      ensures next == Path(states, target)
    {
      ghost var path := Path(states, target);
      var si := target;
      var level := si.level;
      next := seq(level + 1, _ => target);
      while level > 0
        invariant 0 <= level <= target.level && |next| == |path| && si == path[level]
        invariant forall k :: level <= k < |path| ==> next[k] == path[k]
        decreases level
      {
        PathClimbs(states, target, level);
        var p := FindStateIndex(si.parentId);
        si := states[p];
        assert si == path[level - 1];
        level := si.level;
        next := next[level := si];
      }
      assert next == path;
    }

    method FindFirstThatDiffer() returns (level: nat)
      requires current != [] && next != []
      requires LeafDecides(current, next)
      ensures level == Kept(current, next)
    {
      if current[|current| - 1] == next[|next| - 1] {
        level := current[|current| - 1].level;
        return;
      }
      level := 0;
      while level < |current| && level < |next| && current[level] == next[level]
        invariant level <= |current| && level <= |next| && current[..level] == next[..level]
      {
        level := level + 1;
      }
      CommonPrefixIsLongest(current, next, level);
      CommonPrefixStops(current, next, level);
    }

    method DoExit(bottom: nat)
      requires bottom <= |current|
      modifies this`current, this`log, this`nextState, this`stateUpdate
      ensures current == old(current)[..bottom]
      ensures log == old(log) + Exits(old(current)[bottom..])
      ensures Request() == Wish(cb, |old(log)|, old(Request()), Exits(old(current)[bottom..]))
    {
      ghost var all, n := current, |current|;
      assert Exits(all[n..]) == [];
      while |current| > bottom
        invariant bottom <= |current| <= n && current == all[..|current|]
        invariant log == old(log) + Exits(all[|current|..])
        invariant Request() == Wish(cb, |old(log)|, old(Request()), Exits(all[|current|..]))
      {
        var leaf := current[|current| - 1];
        OneMoreExit(cb, old(Request()), old(log), all, |current|);
        var answer := cb.onExit(|log|, leaf);
        log := log + [Exit(leaf)];
        Ask(answer);
        current := current[..|current| - 1];
      }
    }

    method DoEntry()
      requires |current| <= |next| && current == next[..|current|]
      modifies this`current, this`log, this`nextState, this`stateUpdate
      ensures current == next
      ensures log == old(log) + Entries(next[|old(current)|..])
      ensures Request() == Wish(cb, |old(log)|, old(Request()), Entries(next[|old(current)|..]))
    {
      ghost var k := |current|;
      assert Entries(next[k..k]) == [];
      while |current| != |next|
        invariant k <= |current| <= |next| && current == next[..|current|]
        invariant log == old(log) + Entries(next[k..|current|])
        invariant Request() == Wish(cb, |old(log)|, old(Request()), Entries(next[k..|current|]))
        decreases |next| - |current|
      {
        var level := |current|;
        var state := next[level];
        OneMoreEntry(cb, old(Request()), old(log), next, k, level);
        var answer := cb.onEnter(|log|, state);
        current := current + [state];
        log := log + [Enter(state)];
        Ask(answer);
      }
      assert next[k..|next|] == next[k..] && next[..|next|] == next;
    }

    method ExitThenEnter(bottom: nat)
      requires bottom <= |current| && bottom <= |next| && current[..bottom] == next[..bottom]
      modifies this`current, this`log, this`nextState, this`stateUpdate
      ensures current == next
      ensures log == old(log) + (Exits(old(current)[bottom..]) + Entries(next[bottom..]))
      ensures Request() == Wish(cb, |old(log)|, old(Request()), Exits(old(current)[bottom..]) + Entries(next[bottom..]))
    {
      MarksConcat(cb, log, Request(), Exits(current[bottom..]), Entries(next[bottom..]));
      DoExit(bottom);
      DoEntry();
    }

    /** Moves from the current path to the next one. */
    method MoveToNext()
      requires next != [] && LeafDecides(current, next)
      modifies this`current, this`log, this`nextState, this`stateUpdate
      ensures current == next
      ensures log == old(log) + Marks(old(current), next)
      ensures Request() == Wish(cb, |old(log)|, old(Request()), Marks(old(current), next))
    {
      var bottom := 0;
      if current != [] {
        bottom := FindFirstThatDiffer();
      }
      KeptIsCommon(current, next);
      ExitThenEnter(bottom);
    }

    /** One transition: the machine ends on the root path of the target. */
    method DoTransition(target: StateInfo)
      requires Valid() && target in states
      modifies this`current, this`next, this`log, this`nextState, this`stateUpdate
      ensures Valid() && current == Path(states, target)
      ensures log == old(log) + Marks(old(current), current)
      ensures Request() == Wish(cb, |old(log)|, old(Request()), Marks(old(current), current))
    {
      PopulateNextInfos(target);
      PathsDecide(states, current, target);
      MoveToNext();
    }

    /** The pending request is cleared first, so that a request made on the way survives. */
    method TakeRequest()
      requires Valid() && stateUpdate && Known(states, nextState)
      modifies this`current, this`next, this`log, this`nextState, this`stateUpdate
      ensures Valid() && current == Landing(states, old(nextState))
      ensures log == old(log) + Marks(old(current), current)
      ensures Request() == NextWish(cb, |old(log)|, states, old(current), old(nextState))
    {
      var i := FindStateIndex(nextState);
      stateUpdate := false;
      DoTransition(states[i]);
    }

    /** The machine with its history so far. */
    ghost function Standing(): Progress
      reads this
    {
      Progress(current, Request(), log)
    }

    /** One turn of the loop: an unknown state is looked up in vain. */
    method FollowRequest()
      requires Valid() && stateUpdate
      modifies this`current, this`next, this`log, this`nextState, this`stateUpdate
      ensures Valid() && Standing() == Turn(cb, states, old(Standing()))
    {
      var i := FindStateIndex(nextState);
      if i < |states| {
        TakeRequest();
      }
    }

    /** The loop follows requests until none is left. The program sets no limit; after `limit` turns the
        model stops to look, with `done` telling whether the program's loop has ended. */
    method PrepareTransition(limit: nat) returns (done: bool)
      requires Valid()
      modifies this`current, this`next, this`log, this`nextState, this`stateUpdate
      ensures Valid() && Standing() == Follow(cb, states, old(Standing()), limit)
      ensures done <==> !stateUpdate
    {
      var left := limit;
      while stateUpdate && left > 0
        invariant Valid() && Follow(cb, states, Standing(), left) == Follow(cb, states, old(Standing()), limit)
      {
        FollowRequest();
        left := left - 1;
      }
      done := !stateUpdate;
    }

    /** Offers an event from the leaf towards the root until a state handles it. */
    method OfferEvent(ev: E)
      modifies this`offers, this`nextState, this`stateUpdate
      ensures var asked := Offered(cb, |old(offers)|, current, ev);
              && offers == old(offers) + asked
              && Request() == Asked(cb, |old(offers)|, old(Request()), asked, ev)
    {
      var level := |current|;
      var handled := false;
      assert current[..level] == current;
      while !handled && level > 0
        invariant 0 <= level <= |current|
        invariant Offering(cb, old(offers), old(Request()), current, ev, level, handled, offers, Request())
        decreases level
      {
        level := level - 1;
        var state := current[level];
        OfferingGoesOn(cb, old(offers), old(Request()), current, ev, level, offers, Request());
        handled := cb.handles(|offers|, state, ev);
        var answer := cb.asks(|offers|, state, ev);
        offers := offers + [state];
        Ask(answer);
      }
      AppendEmpty(offers);
    }

    /** An event is offered, then the last transition asked for is carried out, for at most `limit`
        turns of the loop. */
    method ProcessEvent(ev: E, limit: nat) returns (done: bool)
      requires Valid() && !stateUpdate
      modifies this
      ensures Valid() && states == old(states)
      ensures var offered := Offered(cb, |old(offers)|, old(current), ev);
              var asked := Asked(cb, |old(offers)|, None, offered, ev);
              && offers == old(offers) + offered
              && Standing() == Follow(cb, states, Progress(old(current), asked, old(log)), limit)
      ensures done <==> !stateUpdate
    {
      OfferEvent(ev);
      done := PrepareTransition(limit);
    }
  }

  lemma OneMoreEntry<E>(cb: Callbacks<E>, before: Option<int>, log: seq<Mark>, next: seq<StateInfo>, k: nat, level: nat)
    requires k <= level < |next|
    ensures next[..level + 1] == next[..level] + [next[level]]
    ensures log + Entries(next[k..level + 1]) == log + Entries(next[k..level]) + [Enter(next[level])]
    ensures Wish(cb, |log|, before, Entries(next[k..level + 1]))
            == Later(Wish(cb, |log|, before, Entries(next[k..level])),
                     cb.onEnter(|log + Entries(next[k..level])|, next[level]))
  {
    assert Entries(next[k..level + 1]) == Entries(next[k..level]) + [Enter(next[level])];
    WishSnoc(cb, |log|, before, Entries(next[k..level]), Enter(next[level]), |log + Entries(next[k..level])|);
  }

  lemma OneMoreExit<E>(cb: Callbacks<E>, before: Option<int>, log: seq<Mark>, all: seq<StateInfo>, k: nat)
    requires 0 < k <= |all|
    ensures all[..k][..k - 1] == all[..k - 1] && all[..k][k - 1] == all[k - 1]
    ensures log + Exits(all[k - 1..]) == log + Exits(all[k..]) + [Exit(all[k - 1])]
    ensures Wish(cb, |log|, before, Exits(all[k - 1..]))
            == Later(Wish(cb, |log|, before, Exits(all[k..])), cb.onExit(|log + Exits(all[k..])|, all[k - 1]))
  {
    assert Exits(all[k - 1..]) == Exits(all[k..]) + [Exit(all[k - 1])];
    WishSnoc(cb, |log|, before, Exits(all[k..]), Exit(all[k - 1]), |log + Exits(all[k..])|);
  }

  lemma OfferStep<E>(cb: Callbacks<E>, done: seq<StateInfo>, request: Option<int>, cur: seq<StateInfo>, level: nat,
                     ev: E)
    requires level < |cur|
    ensures var k, state, rest := |done|, cur[level], Offered(cb, |done|, cur[..level + 1], ev);
            && rest != [] && done + rest == done + [state] + rest[1..]
            && rest[1..] == (if cb.handles(k, state, ev) then [] else Offered(cb, |done + [state]|, cur[..level], ev))
            && Asked(cb, k, request, rest, ev)
               == Asked(cb, |done + [state]|, Later(request, cb.asks(k, state, ev)), rest[1..], ev)
  {
    assert cur[..level + 1][..level] == cur[..level];
    var rest := Offered(cb, |done|, cur[..level + 1], ev);
    assert rest == [cur[level]] + rest[1..];
    AppendAssociates(done, [cur[level]], rest[1..]);
  }

  /** What is left to be offered below `level`. */
  function LeftToOffer<E>(cb: Callbacks<E>, k: nat, cur: seq<StateInfo>, ev: E, level: nat, handled: bool)
    : seq<StateInfo>
    requires level <= |cur|
  {
    if handled then [] else Offered(cb, k, cur[..level], ev)
  }

  /** The offers of an event, half done: with what is left they are all the offers, with all their requests. */
  ghost predicate Offering<E>(cb: Callbacks<E>, first: seq<StateInfo>, before: Option<int>, cur: seq<StateInfo>, ev: E,
                              level: nat, handled: bool, done: seq<StateInfo>, request: Option<int>)
    requires level <= |cur|
  {
    var left, all := LeftToOffer(cb, |done|, cur, ev, level, handled), Offered(cb, |first|, cur, ev);
    && done + left == first + all
    && Asked(cb, |done|, request, left, ev) == Asked(cb, |first|, before, all, ev)
  }

  lemma OfferingGoesOn<E>(cb: Callbacks<E>, first: seq<StateInfo>, before: Option<int>, cur: seq<StateInfo>, ev: E,
                          level: nat, done: seq<StateInfo>, request: Option<int>)
    requires level < |cur| && Offering(cb, first, before, cur, ev, level + 1, false, done, request)
    ensures var k, state := |done|, cur[level];
            Offering(cb, first, before, cur, ev, level, cb.handles(k, state, ev), done + [state],
                     Later(request, cb.asks(k, state, ev)))
  {
    OfferStep(cb, done, request, cur, level, ev);
  }

  /** The leaf of a path determines the path, and its level is its place. */
  predicate LeafDecides(cur: seq<StateInfo>, path: seq<StateInfo>)
    requires path != []
  {
    cur != [] && cur[|cur| - 1] == path[|path| - 1] ==> cur == path && cur[|cur| - 1].level == |cur| - 1
  }

  lemma PathsDecide(states: seq<StateInfo>, cur: seq<StateInfo>, target: StateInfo)
    requires IsTree(states) && target in states
    requires cur != [] ==> cur[|cur| - 1] in states && cur == Path(states, cur[|cur| - 1])
    ensures LeafDecides(cur, Path(states, target))
  {
  }

  lemma KeptIsCommon(cur: seq<StateInfo>, path: seq<StateInfo>)
    requires path != [] && LeafDecides(cur, path)
    ensures cur[..Kept(cur, path)] == path[..Kept(cur, path)]
  {
  }
}
