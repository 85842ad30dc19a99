/**
 The bounded queue between the receive thread and `events()`.  The consumer may take any
 number of events between any two steps of a dispatch.
 */
module EventQueues {
  import opened Wrappers

  /** `xs` occurs in `ys` in order, each element at its own place. */
  ghost predicate Embeds<T(!new)>(xs: seq<T>, ys: seq<T>, places: seq<nat>) {
    && |places| == |xs|
    && (forall i :: 0 <= i < |xs| ==> places[i] < |ys| && xs[i] == ys[places[i]])
    && (forall i, j :: 0 <= i < j < |xs| ==> places[i] < places[j])
  }

  /** `from`, `from` + 1, ... */
  function Count(from: nat, n: nat): (r: seq<nat>)
    ensures |r| == n && forall i :: 0 <= i < n ==> r[i] == from + i
  {
    if n == 0 then [] else Count(from, n - 1) + [from + n - 1]
  }

  /** What left the queue before `cut`, then everything from `cut` on, is in order and without duplicates. */
  lemma QueueFollows<T(!new)>(dispatched: seq<T>, delivered: seq<T>, places: seq<nat>, cut: nat)
    requires cut <= |dispatched| && Embeds(delivered, dispatched, places)
    requires forall i :: 0 <= i < |places| ==> places[i] < cut
    ensures Embeds(delivered + dispatched[cut..], dispatched, places + Count(cut, |dispatched| - cut))
  {
    var n := |delivered|;
    var all := places + Count(cut, |dispatched| - cut);
    forall i | 0 <= i < n + |dispatched| - cut
      ensures all[i] == (if i < n then places[i] else cut + (i - n)) && all[i] < |dispatched|
    {
    }
  }

  class EventQueue<T(!new)> {
    const capacity: nat
    var items: seq<T>
    ghost var dispatched: seq<T>           // everything ever put, in order
    ghost var delivered: seq<T>            // what `events()` yielded
    ghost var places: seq<nat>             // where in `dispatched` those were
    ghost var dropped: nat

    ghost predicate Valid()
      reads this
    {
      && 0 < capacity && |items| <= capacity
      && |items| <= |dispatched| && items == dispatched[Cut()..]
      && Embeds(delivered, dispatched, places)
      && (forall i :: 0 <= i < |places| ==> places[i] < Cut())
      && |dispatched| == |delivered| + dropped + |items|
    }

    /** How many of the dispatched events have left the queue. */
    ghost function Cut(): int
      reads this
    {
      |dispatched| - |items|
    }

    constructor (capacity: nat)
      requires capacity > 0
      ensures Valid() && this.capacity == capacity && items == [] && dispatched == [] && delivered == [] && dropped == 0
    {
      this.capacity := capacity;
      items, dispatched, delivered, places, dropped := [], [], [], [], 0;
    }

    /** `put_nowait`; false for `queue.Full`. */
    method PutNowait(e: T) returns (ok: bool)
      requires Valid()
      modifies `items, `dispatched
      ensures Valid()
      ensures ok <==> |old(items)| < capacity
      ensures items == if ok then old(items) + [e] else old(items)
      ensures dispatched == if ok then old(dispatched) + [e] else old(dispatched)
    {
      ok := |items| < capacity;
      if ok {
        items, dispatched := items + [e], dispatched + [e];
      }
    }

    /** The consumer's `get`. */
    method Take() returns (e: Option<T>)
      requires Valid()
      modifies `items, `delivered, `places
      ensures Valid()
      ensures old(items) == [] ==> e == None && items == [] && delivered == old(delivered)
      ensures old(items) != [] ==>
        e == Some(old(items)[0]) && items == old(items)[1..] && delivered == old(delivered) + [old(items)[0]]
    {
      if items == [] { return None; }
      e := Some(items[0]);
      delivered, places := delivered + [items[0]], places + [Cut()];
      items := items[1..];
    }

    /** The producer's `get_nowait`, whose result is thrown away. */
    method DropOldest()
      requires Valid()
      modifies `items, `dropped
      ensures Valid()
      ensures items == if old(items) == [] then [] else old(items)[1..]
      ensures dropped == if old(items) == [] then old(dropped) else old(dropped) + 1
    {
      if items != [] {
        items, dropped := items[1..], dropped + 1;
      }
    }

    /** Any number of `get`s by the consumer. */
    method Consumer()
      requires Valid()
      modifies `items, `delivered, `places
      ensures Valid() && |items| <= |old(items)| && old(delivered) <= delivered
    {
      var calls: nat := *;
      while calls > 0
        invariant Valid() && |items| <= |old(items)| && old(delivered) <= delivered
      {
        var e := Take();
        calls := calls - 1;
      }
    }

    /** The handler of `queue.Full`. */
    method MakeRoom(e: T)
      requires Valid()
      modifies this
      ensures Valid()
      ensures dispatched == old(dispatched) + [e] && old(delivered) <= delivered
      ensures |items| <= |old(items)| + 1
      ensures old(dropped) <= dropped <= old(dropped) + 1
    {
      Consumer();
      DropOldest();
      Consumer();
      var ok := PutNowait(e);
      assert ok;
    }

    /**
     `_dispatch_event` of the one producer.  The new event always gets in; at most one event
     is lost, an oldest one, and only when the queue was full.
     */
    method Dispatch(e: T)
      requires Valid()
      modifies this
      ensures Valid()
      ensures dispatched == old(dispatched) + [e] && old(delivered) <= delivered
      ensures |items| <= |old(items)| + 1
      ensures old(dropped) <= dropped <= old(dropped) + 1
      ensures dropped > old(dropped) ==> |old(items)| == capacity
    {
      Consumer();
      var ok := PutNowait(e);
      if !ok { MakeRoom(e); }
    }

    /** The receive loop: nothing is lost while there is room for what comes. */
    method ReceiveLoop(events: seq<T>)
      requires Valid()
      modifies this
      ensures Valid()
      ensures dispatched == old(dispatched) + events && old(delivered) <= delivered
      ensures dropped <= old(dropped) + |events|
      ensures |old(items)| + |events| <= capacity ==> dropped == old(dropped)
    {
      for i := 0 to |events|
        invariant Valid()
        invariant dispatched == old(dispatched) + events[..i] && old(delivered) <= delivered
        invariant |items| <= |old(items)| + i
        invariant dropped <= old(dropped) + i
        invariant |old(items)| + |events| <= capacity ==> dropped == old(dropped)
      {
        Dispatch(events[i]);
        assert events[..i + 1] == events[..i] + [events[i]];
      }
      assert events[..|events|] == events;
    }

    /** What was delivered and what is queued, one after the other, come from the dispatched events in order. */
    lemma InOrderWithoutDuplicates() returns (all: seq<nat>)
      requires Valid()
      ensures Embeds(delivered + items, dispatched, all)
    {
      all := places + Count(Cut(), |items|);
      QueueFollows(dispatched, delivered, places, Cut());
    }
  }
}
