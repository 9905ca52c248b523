/**
 * The retry loop behind `CommonApi::recoverable`, as a function of what the
 * loop observes: the outcome of each attempt, the events the dispatcher
 * delivers while the loop waits, whether the event channel is still open, and
 * the attempt `closesAt` from whose report on the render loop has dropped the
 * request channel (a `closesAt` past the last attempt: it never does).
 */
module Retry {
  import opened Errors
  import opened Events
  import opened Requests

  /** Which branch ended a wait: the error-interval timer or an update request. */
  datatype Wake = Timer | Refresh

  datatype WaitEnd = Woken(wake: Wake, rest: seq<BlockEvent>) | Ended

  /** How the loop ends. `EventsEnded` is the panic of a wait on a closed event
      channel; `Exhausted` means the loop would go on after the modelled attempts. */
  datatype Recovered<T> = Returned(result: Result<T>) | EventsEnded | Exhausted

  /** The loop's outcome, the events left buffered, the requests it sent, and the
      branch that ended each of its waits, in order. */
  datatype Trace<T> = Trace(outcome: Recovered<T>, events: seq<BlockEvent>, sent: seq<Request>, wakes: seq<Wake>)

  /** The events the dispatcher delivers during the wait after attempt `i`. */
  function ArrivalsAt(arrivals: seq<seq<BlockEvent>>, i: nat): seq<BlockEvent>
  {
    if i < |arrivals| then arrivals[i] else []
  }

  /** What the wait can see: the buffered events, then those delivered while it
      waits (a closed channel delivers nothing more). */
  function Visible(open: bool, buffered: seq<BlockEvent>, arrived: seq<BlockEvent>): seq<BlockEvent>
  {
    if open then buffered + arrived else buffered
  }

  /**
   * The race between the error-interval timer and `wait_for_update_request`.
   * An update request among the visible events ends the wait and leaves
   * everything after it buffered; otherwise the actions are drained and the
   * timer ends the wait, or, on a closed channel, the wait panics.
   */
  function Wait(open: bool, buffered: seq<BlockEvent>, arrived: seq<BlockEvent>): (r: WaitEnd)
    ensures r == Ended ==> !open
    ensures r.Woken? && r.wake == Refresh <==> UpdateRequest in buffered || (open && UpdateRequest in arrived)
  {
    assert UpdateRequest in buffered + arrived <==> UpdateRequest in buffered || UpdateRequest in arrived;
    Drain(open, Visible(open, buffered, arrived))
  }

  /** `wait_for_update_request` over the events `s`, one event at a time: an
      action is dropped, an update request ends the wait; running out of events
      leaves the timer to end it, or panics on a closed channel. */
  function Drain(open: bool, s: seq<BlockEvent>): (r: WaitEnd)
    ensures r == Ended <==> !open && UpdateRequest !in s
    ensures r.Woken? && r.wake == Refresh <==> UpdateRequest in s
    decreases |s|
  {
    if s == [] then (if open then Woken(Timer, []) else Ended)
    else if s[0] == UpdateRequest then Woken(Refresh, s[1..])
    else Drain(open, s[1..])
  }

  /** Draining stops just after the first update request, or drains everything. */
  lemma {:induction false} DrainStopsAtFirstUpdate(open: bool, s: seq<BlockEvent>)
    ensures UpdateRequest in s ==> Drain(open, s) == Woken(Refresh, s[FirstUpdate(s) + 1..])
    ensures UpdateRequest !in s ==> Drain(open, s) == if open then Woken(Timer, []) else Ended
    decreases |s|
  {
    if s != [] && s[0] != UpdateRequest {
      DrainStopsAtFirstUpdate(open, s[1..]);
      assert s == [s[0]] + s[1..];
      assert UpdateRequest in s <==> UpdateRequest in s[1..];
      if UpdateRequest in s {
        var k := FirstUpdate(s[1..]);
        assert FirstUpdate(s) == k + 1;
        assert s[1..][k + 1..] == s[k + 2..];
      }
    }
  }

  /** How a wait ends, stated on what it can see. */
  lemma WaitOutcome(open: bool, buffered: seq<BlockEvent>, arrived: seq<BlockEvent>)
    ensures var s := Visible(open, buffered, arrived); var w := Wait(open, buffered, arrived);
      && (w == Ended <==> !open && UpdateRequest !in s)
      && (w == Woken(Timer, []) <==> open && UpdateRequest !in s)
      && (w.Woken? && w.wake == Refresh <==> UpdateRequest in s)
    ensures var s := Visible(open, buffered, arrived); var w := Wait(open, buffered, arrived);
      w.Woken? && w.wake == Refresh ==>
        && |w.rest| < |s| && s[|s| - |w.rest|..] == w.rest
        && s[|s| - |w.rest| - 1] == UpdateRequest
        && forall j :: 0 <= j < |s| - |w.rest| - 1 ==> s[j].Action?
  {
    DrainStopsAtFirstUpdate(open, Visible(open, buffered, arrived));
  }

  /**
   * The loop from attempt `i` on, with `events` buffered: an attempt that
   * succeeds is returned; a failed one is reported with `SetError` (unless that
   * send fails because the request channel is gone, which ends the loop with
   * the send error) and is followed by a wait and the next attempt.
   */
  function Recover<T>(id: nat, attempts: seq<Result<T>>, arrivals: seq<seq<BlockEvent>>,
                      eventsOpen: bool, closesAt: nat, i: nat, events: seq<BlockEvent>): (r: Trace<T>)
    ensures r.outcome.Returned? && r.outcome.result.Err? ==> r.outcome.result == Err(SendFailed)
    ensures |r.sent| == |r.wakes| + (if r.outcome == EventsEnded then 1 else 0)
    decreases |attempts| - i
  {
    if i >= |attempts| then Trace(Exhausted, events, [], [])
    else match attempts[i]
      case Ok(v) => Trace(Returned(Ok(v)), events, [], [])
      case Err(e) =>
        if closesAt <= i then Trace(Returned(Err(SendFailed)), events, [], [])
        else
          var report := Request(id, SetError(e));
          match Wait(eventsOpen, events, ArrivalsAt(arrivals, i))
          case Ended => Trace(EventsEnded, [], [report], [])
          case Woken(w, rest) =>
            var t := Recover(id, attempts, arrivals, eventsOpen, closesAt, i + 1, rest);
            t.(sent := [report] + t.sent, wakes := [w] + t.wakes)
  }

  /** The loop from its first attempt. */
  function Recoverable<T>(id: nat, attempts: seq<Result<T>>, arrivals: seq<seq<BlockEvent>>,
                          eventsOpen: bool, closesAt: nat, events: seq<BlockEvent>): Trace<T>
  {
    Recover(id, attempts, arrivals, eventsOpen, closesAt, 0, events)
  }

  /** What is left of the loop from attempt `i` on, after the requests `sent`
      and the wait outcomes `wakes` so far, completes the whole loop `whole`. */
  ghost predicate Completes<T>(id: nat, attempts: seq<Result<T>>, arrivals: seq<seq<BlockEvent>>,
                               eventsOpen: bool, closesAt: nat, i: nat, events: seq<BlockEvent>,
                               sent: seq<Request>, wakes: seq<Wake>, whole: Trace<T>)
  {
    var t := Recover(id, attempts, arrivals, eventsOpen, closesAt, i, events);
    t.outcome == whole.outcome && t.events == whole.events && sent + t.sent == whole.sent
    && wakes + t.wakes == whole.wakes
  }

  /** One round of the loop: a failed attempt whose report is sent and whose wait
      did not panic is followed by the loop from the next attempt on the events
      the wait left. */
  lemma RecoverStep<T>(id: nat, attempts: seq<Result<T>>, arrivals: seq<seq<BlockEvent>>,
                       eventsOpen: bool, closesAt: nat, i: nat, events: seq<BlockEvent>)
    requires i < |attempts| && attempts[i].Err? && i < closesAt
    requires Recover(id, attempts, arrivals, eventsOpen, closesAt, i, events).outcome != EventsEnded
    ensures var w := Wait(eventsOpen, events, ArrivalsAt(arrivals, i));
      && w.Woken?
      && var t := Recover(id, attempts, arrivals, eventsOpen, closesAt, i, events);
         var t' := Recover(id, attempts, arrivals, eventsOpen, closesAt, i + 1, w.rest);
         t.outcome == t'.outcome && t.events == t'.events
         && t.sent == [Request(id, SetError(attempts[i].error))] + t'.sent
         && t.wakes == [w.wake] + t'.wakes
  {
  }

  /** The loop invariant survives a round that reports attempt `i` and waits. */
  lemma CompletesStep<T>(id: nat, attempts: seq<Result<T>>, arrivals: seq<seq<BlockEvent>>,
                         eventsOpen: bool, closesAt: nat, i: nat, events: seq<BlockEvent>,
                         sent: seq<Request>, wakes: seq<Wake>, whole: Trace<T>)
    requires i < |attempts| && attempts[i].Err? && i < closesAt
    requires whole.outcome != EventsEnded
    requires Completes(id, attempts, arrivals, eventsOpen, closesAt, i, events, sent, wakes, whole)
    ensures Wait(eventsOpen, events, ArrivalsAt(arrivals, i)).Woken?
    ensures var w := Wait(eventsOpen, events, ArrivalsAt(arrivals, i));
      Completes(id, attempts, arrivals, eventsOpen, closesAt, i + 1, w.rest,
                sent + [Request(id, SetError(attempts[i].error))], wakes + [w.wake], whole)
  {
    RecoverStep(id, attempts, arrivals, eventsOpen, closesAt, i, events);
    var w := Wait(eventsOpen, events, ArrivalsAt(arrivals, i));
    var next := Recover(id, attempts, arrivals, eventsOpen, closesAt, i + 1, w.rest);
    AppendAssoc(sent, [Request(id, SetError(attempts[i].error))], next.sent);
    AppendAssoc(wakes, [w.wake], next.wakes);
  }

  /** Appending to a sequence in two steps is appending the concatenation. */
  lemma AppendAssoc<X>(a: seq<X>, b: seq<X>, c: seq<X>)
    ensures (a + b) + c == a + (b + c)
  {
  }

  /** The outcome of the loop once it reaches attempt `k`: the first success,
      the failed report of a request channel that is gone, or the end of the
      modelled attempts. */
  function OutcomeAt<T>(attempts: seq<Result<T>>, closesAt: nat, k: nat): Recovered<T>
  {
    if k >= |attempts| then Exhausted
    else if attempts[k].Ok? then Returned(Ok(attempts[k].value))
    else if closesAt <= k then Returned(Err(SendFailed))
    else Exhausted
  }

  /** From attempt `i` on, every failure before attempt `k` is reported in order,
      and at `k` the loop returns the success, returns the failed report of a
      request channel that is gone, or runs out of attempts. */
  lemma {:induction false} ReportsFrom<T>(id: nat, attempts: seq<Result<T>>, arrivals: seq<seq<BlockEvent>>,
                                          eventsOpen: bool, closesAt: nat, i: nat, events: seq<BlockEvent>, k: nat)
    requires i <= k <= |attempts| && k <= closesAt
    requires forall j :: i <= j < k ==> attempts[j].Err?
    requires k < |attempts| ==> attempts[k].Ok? || k == closesAt
    requires Recover(id, attempts, arrivals, eventsOpen, closesAt, i, events).outcome != EventsEnded
    ensures var t := Recover(id, attempts, arrivals, eventsOpen, closesAt, i, events);
      && t.outcome == OutcomeAt(attempts, closesAt, k)
      && |t.sent| == k - i && |t.wakes| == k - i
      && forall j :: i <= j < k ==> t.sent[j - i] == Request(id, SetError(attempts[j].error))
    decreases k - i
  {
    if i < k {
      RecoverStep(id, attempts, arrivals, eventsOpen, closesAt, i, events);
      var w := Wait(eventsOpen, events, ArrivalsAt(arrivals, i));
      ReportsFrom(id, attempts, arrivals, eventsOpen, closesAt, i + 1, w.rest, k);
      var t := Recover(id, attempts, arrivals, eventsOpen, closesAt, i, events);
      var t' := Recover(id, attempts, arrivals, eventsOpen, closesAt, i + 1, w.rest);
      forall j | i <= j < k
        ensures t.sent[j - i] == Request(id, SetError(attempts[j].error))
      {
        if j > i { assert t.sent[j - i] == t'.sent[j - (i + 1)]; }
      }
    }
  }

  /** The loop returns the value of the first successful attempt, after sending
      exactly one `SetError` per earlier failure, in order and stamped with `id`,
      provided the request channel outlives those reports. */
  lemma ReturnsFirstSuccess<T>(id: nat, attempts: seq<Result<T>>, arrivals: seq<seq<BlockEvent>>,
                               eventsOpen: bool, closesAt: nat, events: seq<BlockEvent>, k: nat)
    requires k < |attempts| && attempts[k].Ok? && k <= closesAt
    requires forall j :: 0 <= j < k ==> attempts[j].Err?
    requires Recoverable(id, attempts, arrivals, eventsOpen, closesAt, events).outcome != EventsEnded
    ensures var t := Recoverable(id, attempts, arrivals, eventsOpen, closesAt, events);
      && t.outcome == Returned(Ok(attempts[k].value))
      && |t.sent| == k && |t.wakes| == k
      && forall j :: 0 <= j < k ==> t.sent[j] == Request(id, SetError(attempts[j].error))
  {
    ReportsFrom(id, attempts, arrivals, eventsOpen, closesAt, 0, events, k);
  }

  /** The loop never gives up by itself: while attempts keep failing and the
      request channel stays, it keeps reporting and retrying. */
  lemma KeepsRetrying<T>(id: nat, attempts: seq<Result<T>>, arrivals: seq<seq<BlockEvent>>,
                         eventsOpen: bool, closesAt: nat, events: seq<BlockEvent>)
    requires forall j :: 0 <= j < |attempts| ==> attempts[j].Err?
    requires |attempts| <= closesAt
    requires Recoverable(id, attempts, arrivals, eventsOpen, closesAt, events).outcome != EventsEnded
    ensures var t := Recoverable(id, attempts, arrivals, eventsOpen, closesAt, events);
      && t.outcome == Exhausted
      && |t.sent| == |attempts| && |t.wakes| == |attempts|
      && forall j :: 0 <= j < |attempts| ==> t.sent[j] == Request(id, SetError(attempts[j].error))
  {
    ReportsFrom(id, attempts, arrivals, eventsOpen, closesAt, 0, events, |attempts|);
  }

  /** A failed `set_error` ends the loop at once with the send error: when the
      render loop is gone by the report of failure `k`, the `k` earlier failures
      are the only reports, no later wait happens and no later attempt runs. */
  lemma SendFailureStops<T>(id: nat, attempts: seq<Result<T>>, arrivals: seq<seq<BlockEvent>>,
                            eventsOpen: bool, events: seq<BlockEvent>, k: nat)
    requires k < |attempts| && forall j :: 0 <= j <= k ==> attempts[j].Err?
    requires Recoverable(id, attempts, arrivals, eventsOpen, k, events).outcome != EventsEnded
    ensures var t := Recoverable(id, attempts, arrivals, eventsOpen, k, events);
      && t.outcome == Returned(Err(SendFailed))
      && |t.sent| == k && |t.wakes| == k
      && forall j :: 0 <= j < k ==> t.sent[j] == Request(id, SetError(attempts[j].error))
  {
    ReportsFrom(id, attempts, arrivals, eventsOpen, k, 0, events, k);
  }

  /** While the event sender stays alive, no wait panics. */
  lemma {:induction false} OpenEventsNeverEnd<T>(id: nat, attempts: seq<Result<T>>, arrivals: seq<seq<BlockEvent>>,
                                                 closesAt: nat, i: nat, events: seq<BlockEvent>)
    ensures Recover(id, attempts, arrivals, true, closesAt, i, events).outcome != EventsEnded
    decreases |attempts| - i
  {
    if i < |attempts| && attempts[i].Err? && i < closesAt {
      var w := Wait(true, events, ArrivalsAt(arrivals, i));
      WaitOutcome(true, events, ArrivalsAt(arrivals, i));
      OpenEventsNeverEnd(id, attempts, arrivals, closesAt, i + 1, w.rest);
    }
  }

  /** Without any update request, buffered or delivered, every wait ends by the timer. */
  lemma {:induction false} TimerWithoutUpdates<T>(id: nat, attempts: seq<Result<T>>, arrivals: seq<seq<BlockEvent>>,
                                                  closesAt: nat, i: nat, events: seq<BlockEvent>)
    requires UpdateRequest !in events
    requires forall n :: 0 <= n < |arrivals| ==> UpdateRequest !in arrivals[n]
    ensures forall j :: 0 <= j < |Recover(id, attempts, arrivals, true, closesAt, i, events).wakes| ==>
      Recover(id, attempts, arrivals, true, closesAt, i, events).wakes[j] == Timer
    decreases |attempts| - i
  {
    if i < |attempts| && attempts[i].Err? && i < closesAt {
      assert UpdateRequest !in ArrivalsAt(arrivals, i);
      assert UpdateRequest !in Visible(true, events, ArrivalsAt(arrivals, i));
      WaitOutcome(true, events, ArrivalsAt(arrivals, i));
      TimerWithoutUpdates(id, attempts, arrivals, closesAt, i + 1, []);
      var t := Recover(id, attempts, arrivals, true, closesAt, i, events);
      var t' := Recover(id, attempts, arrivals, true, closesAt, i + 1, []);
      assert Wait(true, events, ArrivalsAt(arrivals, i)) == Woken(Timer, []);
      assert t.wakes == [Timer] + t'.wakes;
      forall j | 0 <= j < |t.wakes| ensures t.wakes[j] == Timer {
        if j > 0 { assert t.wakes[j] == t'.wakes[j - 1]; }
      }
    }
  }

  /** A failed attempt is retried as soon as the wait sees an update request,
      whether it was buffered already or is delivered while the loop waits,
      not after the error interval. */
  lemma RefreshWhenRequested<T>(id: nat, attempts: seq<Result<T>>, arrivals: seq<seq<BlockEvent>>,
                                eventsOpen: bool, closesAt: nat, events: seq<BlockEvent>)
    requires |attempts| > 0 && attempts[0].Err? && 0 < closesAt
    requires UpdateRequest in Visible(eventsOpen, events, ArrivalsAt(arrivals, 0))
    ensures var t := Recoverable(id, attempts, arrivals, eventsOpen, closesAt, events);
      |t.wakes| > 0 && t.wakes[0] == Refresh && t.sent[0] == Request(id, SetError(attempts[0].error))
  {
    WaitOutcome(eventsOpen, events, ArrivalsAt(arrivals, 0));
  }

  /** An operation that fails twice and then succeeds, with no update request
      and a request channel that outlives both reports: two `SetError` reports,
      two timer waits, then the value. */
  lemma {:induction false} FailTwiceThenSucceed<T>(id: nat, e1: Error, e2: Error, v: T, closesAt: nat,
                                                   arrivals: seq<seq<BlockEvent>>, events: seq<BlockEvent>)
    requires 2 <= closesAt
    requires UpdateRequest !in events
    requires forall n :: 0 <= n < |arrivals| ==> UpdateRequest !in arrivals[n]
    ensures var t := Recoverable(id, [Err(e1), Err(e2), Ok(v)], arrivals, true, closesAt, events);
      && t.outcome == Returned(Ok(v))
      && t.sent == [Request(id, SetError(e1)), Request(id, SetError(e2))]
      && t.wakes == [Timer, Timer]
  {
    var attempts: seq<Result<T>> := [Err(e1), Err(e2), Ok(v)];
    OpenEventsNeverEnd(id, attempts, arrivals, closesAt, 0, events);
    ReturnsFirstSuccess(id, attempts, arrivals, true, closesAt, events, 2);
    TimerWithoutUpdates(id, attempts, arrivals, closesAt, 0, events);
  }
}
