/**
  The Python `EventQueue`: a list of events kept in order of their time.
  `enqueue` appends and then sorts by time; Python's sort is stable, so on
  a list that is already in order this puts the new event after every
  event whose time is not later than its own.
*/
module EventQueues {
  import opened Wrappers
  import opened JsonText

  datatype EventType =
    | BuyerMarketJoin | BuyerMarketLeave | BuyerPurchase | BuyerPurchaseComplete | BuyerListItem
    | SellerJoin | TimeTick | StockUpdate | ItemRotation

  /** An event; the time is a Python float, here exact. */
  datatype Event = Event(eventType: EventType, data: Json, time: real, senderId: string)

  /** In order of time: never a later event before an earlier one. */
  ghost predicate Sorted(q: seq<Event>)
  {
    forall i, j | 0 <= i < j < |q| :: q[i].time <= q[j].time
  }

  /**
    `append` followed by the stable sort, on a list already in order: the
    new event goes after the events whose time is at most its own.
  */
  function Insert(q: seq<Event>, e: Event): (r: seq<Event>)
    ensures |r| == |q| + 1
  {
    if |q| == 0 then [e]
    else if e.time < q[0].time then [e] + q
    else [q[0]] + Insert(q[1..], e)
  }

  /** The events of `q` whose time is `t`, in their order. */
  function WithTime(q: seq<Event>, t: real): seq<Event>
  {
    if |q| == 0 then []
    else (if q[0].time == t then [q[0]] else []) + WithTime(q[1..], t)
  }

  class EventQueue {
    var queue: seq<Event>

    ghost predicate Valid()
      reads this
    {
      Sorted(queue)
    }

    /** A new queue is empty. */
    constructor()
      ensures queue == [] && Valid()
    {
      queue := [];
    }

    /** `enqueue`: the queue stays in order and holds one event more. */
    method Enqueue(e: Event)
      requires Valid()
      modifies this
      ensures Valid()
      ensures queue == Insert(old(queue), e)
      ensures multiset(queue) == multiset(old(queue)) + multiset{e}
    {
      InsertSorted(queue, e);
      InsertPermutes(queue, e);
      queue := Insert(queue, e);
    }

    /** `dequeue`: the first event, which has the least time, or None. */
    method Dequeue() returns (r: Option<Event>)
      modifies this
      ensures old(queue) == [] ==> r.None? && queue == []
      ensures old(queue) != [] ==> r == Some(old(queue)[0]) && queue == old(queue)[1..]
      ensures old(Valid()) ==> Valid()
      ensures old(Valid()) && r.Some? ==> forall i | 0 <= i < |old(queue)| :: r.value.time <= old(queue)[i].time
    {
      if |queue| == 0 {
        return None;
      }
      r := Some(queue[0]);
      queue := queue[1..];
    }

    /** `peek`: what `dequeue` would return, leaving the queue as it is. */
    method Peek() returns (r: Option<Event>)
      ensures r.None? <==> |queue| == 0
      ensures r.Some? ==> r.value == queue[0]
      ensures Valid() && r.Some? ==> forall i | 0 <= i < |queue| :: r.value.time <= queue[i].time
    {
      if |queue| == 0 {
        return None;
      }
      r := Some(queue[0]);
    }

    /** `is_empty`. */
    predicate IsEmpty()
      reads this
    {
      |queue| == 0
    }

    /** `clear`: afterwards the queue is empty. */
    method Clear()
      modifies this
      ensures queue == [] && IsEmpty() && Valid()
    {
      queue := [];
    }
  }

  /**
    The loop of the queue's test: peek and dequeue until the queue is
    empty. The events come out in the order they were queued in, which is
    the order of time.
  */
  method Drain(q: EventQueue) returns (out: seq<Event>)
    requires q.Valid()
    modifies q
    ensures q.queue == []
    ensures out == old(q.queue)
    ensures forall i, j | 0 <= i < j < |out| :: out[i].time <= out[j].time
  {
    out := [];
    while !q.IsEmpty()
      invariant q.Valid()
      invariant out + q.queue == old(q.queue)
      decreases |q.queue|
    {
      var next := q.Peek();
      var e := q.Dequeue();
      assert e == next;
      out := out + [e.value];
    }
  }

  // ---------------------------------------------------------------------
  // Properties of the insertion

  /** The insertion keeps the queue in order. */
  lemma {:induction false} InsertSorted(q: seq<Event>, e: Event)
    requires Sorted(q)
    ensures Sorted(Insert(q, e))
    ensures |q| > 0 ==> Insert(q, e)[0] == (if e.time < q[0].time then e else q[0])
    decreases |q|
  {
    if |q| > 0 && e.time >= q[0].time {
      InsertSorted(q[1..], e);
      var r := Insert(q, e);
      forall i, j | 0 <= i < j < |r|
        ensures r[i].time <= r[j].time
      {
        if i == 0 {
          InsertHolds(q[1..], e, j - 1);
        }
      }
    }
  }

  /** Every event of the insertion is the new one or one of the old ones. */
  lemma {:induction false} InsertHolds(q: seq<Event>, e: Event, k: nat)
    requires k < |Insert(q, e)|
    ensures Insert(q, e)[k] == e || Insert(q, e)[k] in q
    decreases |q|
  {
    if |q| > 0 && e.time >= q[0].time && k > 0 {
      InsertHolds(q[1..], e, k - 1);
    }
  }

  /** The insertion adds exactly the new event. */
  lemma {:induction false} InsertPermutes(q: seq<Event>, e: Event)
    ensures multiset(Insert(q, e)) == multiset(q) + multiset{e}
    decreases |q|
  {
    if |q| > 0 {
      assert q == [q[0]] + q[1..];
      if e.time >= q[0].time {
        InsertPermutes(q[1..], e);
      }
    }
  }

  /**
    The insertion is stable: among the events of any one time, the old
    ones keep their order and the new one comes last, as in `q + [e]`.
  */
  lemma {:induction false} InsertStable(q: seq<Event>, e: Event, t: real)
    requires Sorted(q)
    ensures WithTime(Insert(q, e), t) == WithTime(q + [e], t)
    decreases |q|
  {
    if |q| == 0 {
      assert q + [e] == [e];
    } else {
      assert (q + [e])[1..] == q[1..] + [e];
      if e.time < q[0].time {
        // Every old event is later than `e`, so none shares a time with it.
        LaterNone(q, e.time);
        if e.time == t {
          WithTimeAppendNone(q, e);
        } else {
          WithTimeAppendOther(q, e, t);
        }
        assert Insert(q, e)[1..] == q;
      } else {
        InsertStable(q[1..], e, t);
      }
    }
  }

  /** A sorted list whose first event is later than `t` has none at `t`. */
  lemma {:induction false} LaterNone(q: seq<Event>, t: real)
    requires Sorted(q) && |q| > 0 && t < q[0].time
    ensures WithTime(q, t) == []
    decreases |q|
  {
    if |q| > 1 {
      LaterNone(q[1..], t);
    }
  }

  lemma {:induction false} WithTimeAppendNone(q: seq<Event>, e: Event)
    requires WithTime(q, e.time) == []
    ensures WithTime(q + [e], e.time) == [e]
    decreases |q|
  {
    if |q| == 0 {
      assert q + [e] == [e];
    } else {
      assert (q + [e])[1..] == q[1..] + [e];
      WithTimeAppendNone(q[1..], e);
    }
  }

  lemma {:induction false} WithTimeAppendOther(q: seq<Event>, e: Event, t: real)
    requires e.time != t
    ensures WithTime(q + [e], t) == WithTime(q, t)
    decreases |q|
  {
    if |q| == 0 {
      assert q + [e] == [e];
    } else {
      assert (q + [e])[1..] == q[1..] + [e];
      WithTimeAppendOther(q[1..], e, t);
    }
  }
}
