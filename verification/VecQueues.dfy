/** A queue kept in a growing vector, and the run-to-completion event loop built on it. */
module VecQueues {

  const NORM_LIMIT: nat := 20

  function Max(a: nat, b: nat): nat { if a > b then a else b }

  /** How far the vector may grow when at most `live` elements were ever queued together. */
  function StoreBound(live: nat): nat { Max(21, if live == 0 then 0 else 2 * live - 1) }

  class VecQueue<T> {
    var store: seq<T>
    var headPos: nat
    /** The largest number of elements queued at once so far. */
    ghost var maxLive: nat

    /** The head position is inside the store, or the store is empty. */
    ghost predicate Valid()
      reads this
    {
      && (headPos < |store| || (headPos == 0 && store == []))
      && |store| - headPos <= maxLive
      && |store| <= StoreBound(maxLive)
    }

    ghost function Contents(): seq<T>
      requires Valid()
      reads this
    {
      store[headPos..]
    }

    constructor ()
      ensures Valid() && Contents() == [] && maxLive == 0
    {
      store, headPos, maxLive := [], 0, 0;
    }

    method Push(el: T)
      requires Valid()
      modifies this
      ensures Valid() && Contents() == old(Contents()) + [el]
      ensures maxLive == Max(old(maxLive), |Contents()|)
    {
      ghost var live := Contents();
      if |store| > NORM_LIMIT {
        CheckRenormalization();
      }
      store := store + [el];
      maxLive := Max(maxLive, |store| - headPos);
      assert store[headPos..] == live + [el];
    }

    /** Moves the live elements to the front once they fill less than half of the store. */
    method CheckRenormalization()
      requires Valid()
      modifies this`store, this`headPos
      ensures Valid() && Contents() == old(Contents())
      ensures headPos <= |store| / 2
    {
      if headPos > |store| / 2 {
        store := store[headPos..];
        headPos := 0;
      }
    }

    method Pop()
      requires Valid() && Contents() != []
      modifies this`store, this`headPos
      ensures Valid() && Contents() == old(Contents())[1..]
    {
      headPos := headPos + 1;
      CheckEmpty();
    }

    method PopBack()
      requires Valid() && Contents() != []
      modifies this`store, this`headPos
      ensures Valid() && Contents() == old(Contents())[..|old(Contents())| - 1]
    {
      ghost var live := Contents();
      store := store[..|store| - 1];
      assert store[headPos..] == live[..|live| - 1];
      CheckEmpty();
    }

    method CheckEmpty()
      requires headPos <= |store| <= StoreBound(maxLive) && |store| - headPos <= maxLive
      modifies this`store, this`headPos
      ensures Valid() && Contents() == old(store[headPos..])
    {
      if headPos == |store| {
        headPos := 0;
        store := [];
      }
    }

    method Front() returns (el: T)
      requires Valid() && Contents() != []
      ensures el == Contents()[0]
    {
      el := store[headPos];
    }

    method Size() returns (n: nat)
      requires Valid()
      ensures n == |Contents()|
    {
      n := |store| - headPos;
    }

    /** Emptiness is read off the store, not off the live part. */
    method Empty() returns (b: bool)
      requires Valid()
      ensures b == (Contents() == [])
    {
      b := store == [];
    }
  }

  // ---------------------------------------------------------------- run to completion

  /** All events that the handlers still to be called are going to post. */
  function Posts<E>(script: seq<seq<E>>): nat {
    if script == [] then 0 else |script[0]| + Posts(script[1..])
  }

  lemma FrontMoves<E>(done: seq<E>, live: seq<E>)
    requires live != []
    ensures done + live == done + [live[0]] + live[1..]
  {
    assert live == [live[0]] + live[1..];
  }

  /** An event loop whose k-th handler call posts the events `script[k]`, re-entrantly. */
  class EventPump<E> {
    const queue: VecQueue<E>
    /** What the next handler calls are going to post; handlers beyond the end post nothing. */
    var script: seq<seq<E>>

    ghost var posted: seq<E>
    ghost var dispatched: seq<E>
    /** A handler is running. */
    ghost var active: bool

    /** Every posted event has been dispatched or waits behind those before it; the event being
        handled stays at the front of the queue until its handler returns. */
    ghost predicate Valid()
      reads this, queue
    {
      && queue.Valid()
      && (active ==> queue.Contents() != [] && dispatched != [] && dispatched[|dispatched| - 1] == queue.Contents()[0])
      && posted == dispatched + if active then queue.Contents()[1..] else queue.Contents()
    }

    constructor (script: seq<seq<E>>)
      ensures Valid() && fresh(queue) && queue.Contents() == [] && posted == [] && dispatched == [] && !active
      ensures this.script == script
    {
      queue := new VecQueue<E>();
      this.script := script;
      posted, dispatched, active := [], [], false;
    }

    /** From inside a handler, posting only queues. From outside, every event is dispatched before the
        call returns, those posted on the way included. */
    method PostEvent(ev: E)
      requires Valid() && (queue.Contents() != [] ==> active)
      modifies this, queue
      ensures Valid() && active == old(active)
      ensures old(active) ==>
                && queue.Contents() == old(queue.Contents()) + [ev] && posted == old(posted) + [ev]
                && dispatched == old(dispatched) && script == old(script)
      ensures !old(active) ==>
                && queue.Contents() == [] && dispatched == posted && old(posted) + [ev] <= posted
      decreases if active then 0 else 1, 0
    {
      var empty := queue.Empty();
      queue.Push(ev);
      posted := posted + [ev];
      if empty {
        assert queue.Contents() == [ev];
        var done := false;
        while !done
          invariant Valid() && !active && done == (queue.Contents() == [])
          invariant old(posted) + [ev] <= posted
          decreases Posts(script) + |queue.Contents()|
        {
          Turn();
          done := queue.Empty();
        }
      }
    }

    /** One turn of the drain loop: the element that is popped is the one that was dispatched. */
    method Turn()
      requires Valid() && !active && queue.Contents() != []
      modifies this, queue
      ensures Valid() && !active && dispatched == old(dispatched) + [old(queue.Contents())[0]]
      ensures old(posted) <= posted
      ensures Posts(script) + |queue.Contents()| < old(Posts(script) + |queue.Contents()|)
      decreases 0, 3
    {
      var e := queue.Front();
      ProcessEvent(e);
      queue.Pop();
      active := false;
    }

    /** Called only when no handler is running, with the event at the front of the queue. */
    method ProcessEvent(ev: E)
      requires Valid() && !active && queue.Contents() != [] && ev == queue.Contents()[0]
      modifies this, queue
      ensures Valid() && active && dispatched == old(dispatched) + [ev]
      ensures old(posted) <= posted && old(queue.Contents()) <= queue.Contents()
      ensures Posts(script) + |queue.Contents()| == old(Posts(script) + |queue.Contents()|)
      decreases 0, 2
    {
      FrontMoves(dispatched, queue.Contents());
      active := true;
      dispatched := dispatched + [ev];
      if script != [] {
        var posts := script[0];
        script := script[1..];
        PostAll(posts);
      }
    }

    /** The posts of a running handler. */
    method PostAll(posts: seq<E>)
      requires Valid() && active
      modifies this, queue
      ensures Valid() && active && dispatched == old(dispatched) && script == old(script)
      ensures queue.Contents() == old(queue.Contents()) + posts && posted == old(posted) + posts
      decreases 0, 1
    {
      var i := 0;
      while i < |posts|
        invariant 0 <= i <= |posts| && Valid() && active && dispatched == old(dispatched) && script == old(script)
        invariant queue.Contents() == old(queue.Contents()) + posts[..i] && posted == old(posted) + posts[..i]
      {
        PostEvent(posts[i]);
        assert posts[..i + 1] == posts[..i] + [posts[i]];
        i := i + 1;
      }
      assert posts[..i] == posts;
    }
  }
}
