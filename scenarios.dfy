/** Clients of `CommonApi` that show the ordering and failure guarantees of the request primitives. */
module Scenarios {
  import opened Errors
  import opened Requests
  import opened Api
  import opened Wrappers
  import opened Events
  import opened Retry

  /** Hiding and then showing a widget queues both requests, in call order, with the block's id. */
  method HideThenShow(api: CommonApi, w: Widget) returns (r: Result<()>)
    requires !api.requestSender.closed
    modifies api.requestSender
    ensures r == Ok(())
    ensures api.requestSender.queue
         == old(api.requestSender.queue) + [Request(api.id, UnsetWidget), Request(api.id, RequestCmd.SetWidget(w))]
  {
    r := api.Hide();
    r := api.SetWidget(w);
  }

  /** Once the render loop is gone, `set_error` reports the send failure and queues nothing. */
  method SetErrorAfterShutdown(api: CommonApi, e: Error) returns (r: Result<()>)
    modifies api.requestSender
    ensures r == Err(SendFailed)
    ensures api.requestSender.queue == old(api.requestSender.queue)
  {
    api.requestSender.Close();
    r := api.SetError(e);
  }

  /** Two blocks that share one request channel: each block's requests keep their order and id. */
  method TwoBlocks(a: CommonApi, b: CommonApi, w: Widget, e: Error)
    requires a.requestSender == b.requestSender && !a.requestSender.closed
    modifies a.requestSender
    ensures a.requestSender.queue == old(a.requestSender.queue)
      + [Request(a.id, RequestCmd.SetWidget(w)), Request(b.id, RequestCmd.SetError(e)), Request(a.id, UnsetWidget)]
  {
    var r := a.SetWidget(w);
    r := b.SetError(e);
    r := a.Hide();
  }

  /** An `event()` poll abandoned while nothing is buffered consumes nothing: the
      next poll after a delivery returns that event, exactly once. */
  method AbandonedEventPoll(api: CommonApi, ev: BlockEvent) returns (p: Poll<BlockEvent>)
    requires api.events == [] && api.eventsOpen
    modifies api
    ensures p == Ready(ev) && api.events == []
  {
    p := api.Event();
    assert p == Pending && api.events == [];
    api.Deliver([ev]);
    p := api.Event();
  }

  /** An operation that fails twice and then succeeds, with no update request:
      the block shows both errors, in order, then gets the value. */
  method FailTwiceThenSucceed<T>(api: CommonApi, e1: Error, e2: Error, v: T) returns (r: Recovered<T>, wakes: seq<Wake>)
    requires api.eventsOpen && UpdateRequest !in api.events && !api.requestSender.closed
    modifies api, api.requestSender
    ensures r == Returned(Ok(v)) && wakes == [Timer, Timer] && !api.requestSender.closed
    ensures api.requestSender.queue
         == old(api.requestSender.queue) + [Request(api.id, RequestCmd.SetError(e1)), Request(api.id, RequestCmd.SetError(e2))]
  {
    var attempts: seq<Result<T>> := [Err(e1), Err(e2), Ok(v)];
    var none: seq<seq<BlockEvent>> := [];
    Retry.FailTwiceThenSucceed(api.id, e1, e2, v, |attempts|, none, api.events);
    r, wakes := api.Recoverable(attempts, none, |attempts|);
  }

  /** The render loop shuts down after the first failure was shown: the second
      report fails, so the loop returns the send error with only the first
      `SetError` queued and no further attempt. */
  method ShutdownDuringRetry<T>(api: CommonApi, e1: Error, e2: Error, v: T) returns (r: Recovered<T>)
    requires api.eventsOpen && !api.requestSender.closed
    modifies api, api.requestSender
    ensures r == Returned(Err(SendFailed)) && api.requestSender.closed
    ensures api.requestSender.queue == old(api.requestSender.queue) + [Request(api.id, RequestCmd.SetError(e1))]
  {
    var attempts: seq<Result<T>> := [Err(e1), Err(e2), Ok(v)];
    var none: seq<seq<BlockEvent>> := [];
    Retry.OpenEventsNeverEnd(api.id, attempts, none, 1, 0, api.events);
    Retry.SendFailureStops(api.id, attempts, none, true, api.events, 1);
    var wakes;
    r, wakes := api.Recoverable(attempts, none, 1);
  }
}
