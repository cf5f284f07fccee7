/** The debounced brightness dispatcher: _throttledServiceCall keeps a single
    setTimeout slot; every request clears it and arms a new one `delay`
    milliseconds later, so a value is sent only once the pointer has been quiet
    for a full delay (trailing-edge debounce); disconnectedCallback clears it.
    Time is an abstract clock in milliseconds, and the event loop running due
    timers is a Tick at a given time. */
module Dispatcher {
  import opened Js

  /** The timer slot: nothing pending, or the value its callback will send and
      the time it is due. */
  datatype Slot<T> = Idle | Armed(value: T, due: int)

  /** What reaches the slot: a request (from a pointer move), the clock reaching a
      time, or the card being disconnected. */
  datatype Event<T> = Request(value: T, at: int) | Tick(at: int) | Dispose

  /** One event: a request replaces whatever is pending by its own value, due
      `delay` later; a tick at or after the due time runs the callback, which
      sends the pending value and empties the slot; a dispose empties it. */
  function Step<T>(delay: nat, s: Slot<T>, e: Event<T>): (r: (Slot<T>, Option<T>))
    ensures r.1.Some? <==> e.Tick? && s.Armed? && s.due <= e.at
    ensures r.1.Some? ==> r.1.value == s.value && r.0 == Idle
    ensures e.Tick? && r.1.None? ==> r.0 == s
  {
    match e
    case Request(v, t) => (Armed(v, t + delay), None)
    case Tick(t) => if s.Armed? && s.due <= t then (Idle, Some(s.value)) else (s, None)
    case Dispose => (Idle, None)
  }

  /** The slot after a trace of events from a fresh card, and what each event sent,
      one entry per event. */
  function Run<T>(delay: nat, trace: seq<Event<T>>): (r: (Slot<T>, seq<Option<T>>))
    ensures |r.1| == |trace|
  {
    if trace == [] then (Idle, [])
    else
      var prev := Run(delay, trace[..|trace| - 1]);
      var next := Step(delay, prev.0, trace[|trace| - 1]);
      (next.0, prev.1 + [next.1])
  }

  /** Reference reading of the slot, by the events alone: the request at index j
      is still waiting after the trace when every later event is a tick that came
      before its due time. */
  ghost predicate PendingAfter<T>(delay: nat, trace: seq<Event<T>>, j: int) {
    0 <= j < |trace| && trace[j].Request? &&
    forall i :: j < i < |trace| ==> trace[i].Tick? && trace[i].at < trace[j].at + delay
  }

  /** Reference reading of a send: the tick at index k sends the request at index j
      when it reaches j's due time and nothing but earlier ticks came between. So
      no later request and no dispose came between them. */
  ghost predicate SentBy<T>(delay: nat, trace: seq<Event<T>>, j: int, k: int) {
    0 <= j < k < |trace| && trace[j].Request? && trace[k].Tick? &&
    trace[k].at >= trace[j].at + delay &&
    forall i :: j < i < k ==> trace[i].Tick? && trace[i].at < trace[j].at + delay
  }

  /** The last event of the trace sends the request at index j. */
  ghost predicate SentByLast<T>(delay: nat, trace: seq<Event<T>>, j: int) {
    trace != [] && SentBy(delay, trace, j, |trace| - 1)
  }

  /** The slot is armed exactly when some request is still waiting, and then it
      holds that request's value and due time. */
  lemma {:induction false} RunSlot<T>(delay: nat, trace: seq<Event<T>>)
    ensures Run(delay, trace).0.Armed? <==> exists j :: PendingAfter(delay, trace, j)
    ensures forall j :: PendingAfter(delay, trace, j) ==>
      Run(delay, trace).0 == Armed(trace[j].value, trace[j].at + delay)
  {
    if trace != [] {
      var n := |trace|;
      var p := trace[..n - 1];
      RunSlot(delay, p);
      var s := Run(delay, p).0;
      forall j | 0 <= j < n - 1 && PendingAfter(delay, trace, j)
        ensures PendingAfter(delay, p, j)
      {
      }
      match trace[n - 1]
      case Request(v, t) =>
        assert PendingAfter(delay, trace, n - 1);
      case Dispose =>
      case Tick(t) =>
        if s.Armed? && s.due <= t {
        } else if s.Armed? {
          var j :| PendingAfter(delay, p, j);
          assert PendingAfter(delay, trace, j);
        }
    }
  }

  /** What each event of a trace sends is exactly what the reference reading
      says: the tick at k sends a value if and only if some request j is sent by
      it, and then it sends j's value. */
  lemma {:induction false} RunSends<T>(delay: nat, trace: seq<Event<T>>, k: int)
    requires 0 <= k < |trace|
    ensures Run(delay, trace).1[k].Some? <==> exists j :: SentBy(delay, trace, j, k)
    ensures forall j :: SentBy(delay, trace, j, k) ==> Run(delay, trace).1[k] == Some(trace[j].value)
  {
    var n := |trace|;
    var p := trace[..n - 1];
    if k < n - 1 {
      RunSends(delay, p, k);
      assert Run(delay, trace).1[k] == Run(delay, p).1[k];
      forall j ensures SentBy(delay, trace, j, k) <==> SentBy(delay, p, j, k) {
      }
    } else {
      RunSlot(delay, p);
      forall j ensures SentBy(delay, trace, j, k) <==>
        PendingAfter(delay, p, j) && trace[k].Tick? && trace[k].at >= trace[j].at + delay
      {
      }
      if Run(delay, trace).1[k].Some? {
        var j :| PendingAfter(delay, p, j);
        assert SentBy(delay, trace, j, k);
      }
    }
  }

  /** A request is sent at most once. */
  lemma SentOnce<T>(delay: nat, trace: seq<Event<T>>, j: int, k: int, k': int)
    requires SentBy(delay, trace, j, k) && SentBy(delay, trace, j, k')
    ensures k == k'
  {
  }

  /** The clock never runs backwards: the times carried by requests and ticks do
      not decrease along the trace. */
  ghost predicate ClockMonotone<T>(trace: seq<Event<T>>) {
    forall i, i' :: 0 <= i < i' < |trace| && !trace[i].Dispose? && !trace[i'].Dispose? ==>
      trace[i].at <= trace[i'].at
  }

  /** At most one command per delay window: on a clock that does not run
      backwards, two sends lie at least one delay apart. */
  lemma SendsSpacedByDelay<T>(delay: nat, trace: seq<Event<T>>, j: int, k: int, j': int, k': int)
    requires ClockMonotone(trace)
    requires SentBy(delay, trace, j, k) && SentBy(delay, trace, j', k') && k < k'
    ensures trace[k'].at >= trace[k].at + delay
  {
  }

  /** Appending an event runs one more step. */
  lemma RunSnoc<T>(delay: nat, trace: seq<Event<T>>, e: Event<T>)
    ensures Run(delay, trace + [e]).0 == Step(delay, Run(delay, trace).0, e).0
    ensures Run(delay, trace + [e]).1 == Run(delay, trace).1 + [Step(delay, Run(delay, trace).0, e).1]
  {
    assert (trace + [e])[..|trace|] == trace;
  }

  /** Three requests 10, 20 and 30 less than one delay apart: nothing is sent
      until 50 ms after the last, then 30 alone is sent, once. */
  lemma TrailingEdgeExample()
    ensures Run(50, [Request(10, 0), Request(20, 10), Request(30, 20), Tick(60), Tick(70), Tick(100)]).1
         == [None, None, None, None, Some(30), None]
  {
    var t0: seq<Event<int>> := [];
    RunSnoc(50, t0, Request(10, 0));
    var t1 := t0 + [Request(10, 0)];
    RunSnoc(50, t1, Request(20, 10));
    var t2 := t1 + [Request(20, 10)];
    RunSnoc(50, t2, Request(30, 20));
    var t3 := t2 + [Request(30, 20)];
    RunSnoc(50, t3, Tick(60));
    var t4 := t3 + [Tick(60)];
    RunSnoc(50, t4, Tick(70));
    var t5 := t4 + [Tick(70)];
    RunSnoc(50, t5, Tick(100));
    assert t5 + [Tick(100)] == [Request(10, 0), Request(20, 10), Request(30, 20), Tick(60), Tick(70), Tick(100)];
  }

  /** A request followed by a disconnect is never sent. */
  lemma DisposeExample()
    ensures Run(50, [Request(10, 0), Dispose, Tick(100)]).1 == [None, None, None]
  {
    var t0: seq<Event<int>> := [];
    RunSnoc(50, t0, Request(10, 0));
    var t1 := t0 + [Request(10, 0)];
    RunSnoc(50, t1, Dispose);
    var t2 := t1 + [Dispose];
    RunSnoc(50, t2, Tick(100));
    assert t2 + [Tick(100)] == [Request(10, 0), Dispose, Tick(100)];
  }

  /** The dispatcher of one card: the slot, and as ghost state the events it has
      seen and what each sent. */
  class Debouncer<T> {
    const delay: nat
    var slot: Slot<T>
    ghost var trace: seq<Event<T>>
    ghost var sent: seq<Option<T>>

    ghost predicate Valid()
      reads this
    {
      Run(delay, trace) == (slot, sent)
    }

    constructor (delay: nat)
      ensures Valid() && this.delay == delay
      ensures slot == Idle && trace == [] && sent == []
    {
      this.delay := delay;
      slot := Idle;
      trace := [];
      sent := [];
    }

    /** _throttledServiceCall: clears the pending timer, if any, and arms a new one
        for this value. */
    method Request(v: T, now: int)
      requires Valid()
      modifies this
      ensures Valid()
      ensures slot == Armed(v, now + delay)
      ensures trace == old(trace) + [Event.Request(v, now)] && sent == old(sent) + [None]
    {
      RunSnoc(delay, trace, Event.Request(v, now));
      slot := Armed(v, now + delay);
      trace := trace + [Event.Request(v, now)];
      sent := sent + [None];
    }

    /** The event loop at time now: a due timer runs its callback, which hands
        back the value to send and clears the slot. What it sends is the latest
        request, after a full quiet delay with no dispose in between. */
    method Tick(now: int) returns (fired: Option<T>)
      requires Valid()
      modifies this
      ensures Valid()
      ensures trace == old(trace) + [Event.Tick(now)] && sent == old(sent) + [fired]
      ensures fired.Some? <==> old(slot).Armed? && old(slot).due <= now
      ensures fired.Some? ==> fired == Some(old(slot).value) && slot == Idle
      ensures fired.None? ==> slot == old(slot)
      ensures fired.Some? <==> exists j :: SentByLast(delay, trace, j)
      ensures forall j :: SentByLast(delay, trace, j) ==> fired == Some(trace[j].value)
    {
      ghost var before := trace;
      if slot.Armed? && slot.due <= now {
        fired := Some(slot.value);
        slot := Idle;
      } else {
        fired := None;
      }
      trace := trace + [Event.Tick(now)];
      sent := sent + [fired];
      RunSnoc(delay, before, Event.Tick(now));
      RunSends(delay, trace, |trace| - 1);
      assert Run(delay, trace).1[|trace| - 1] == fired;
      if fired.Some? {
        ghost var j :| SentBy(delay, trace, j, |trace| - 1);
        assert SentByLast(delay, trace, j);
      }
    }

    /** disconnectedCallback: clears the pending timer; its value is never sent. */
    method Dispose()
      requires Valid()
      modifies this
      ensures Valid()
      ensures slot == Idle
      ensures trace == old(trace) + [Event.Dispose] && sent == old(sent) + [None]
    {
      RunSnoc(delay, trace, Event.Dispose);
      slot := Idle;
      trace := trace + [Event.Dispose];
      sent := sent + [None];
    }
  }
}
