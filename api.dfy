/** The per-block capability object `CommonApi`. */
module Api {
  import opened Wrappers
  import opened Errors
  import opened Events
  import opened Requests
  import opened Retry

  /** The read-only configuration shared by all blocks, reduced to the icon table
      that `get_icon` consults (the theme's icon set, looked up without a progression value). */
  datatype SharedConfig = SharedConfig(icons: map<string, string>)

  /**
   * One block instance's view of the runtime. `events` is what is buffered in
   * its event receiver and `eventsOpen` says whether the dispatcher still holds
   * the sending end; `requestSender` is the request channel every block shares.
   */
  class CommonApi {
    const id: nat
    const sharedConfig: SharedConfig
    var events: seq<BlockEvent>
    var eventsOpen: bool
    const requestSender: RequestChannel
    /** The retry back-off of `recoverable`, in milliseconds. */
    const errorInterval: nat

    constructor (id: nat, sharedConfig: SharedConfig, requestSender: RequestChannel, errorInterval: nat)
      ensures this.id == id && this.sharedConfig == sharedConfig
      ensures this.requestSender == requestSender && this.errorInterval == errorInterval
      ensures events == [] && eventsOpen
    {
      this.id := id;
      this.sharedConfig := sharedConfig;
      this.requestSender := requestSender;
      this.errorInterval := errorInterval;
      events := [];
      eventsOpen := true;
    }

    /** Sends the widget to be displayed. */
    method SetWidget(widget: Widget) returns (r: Result<()>)
      modifies requestSender
      ensures requestSender.closed == old(requestSender.closed)
      ensures old(requestSender.closed) ==> r == Err(SendFailed) && requestSender.queue == old(requestSender.queue)
      ensures !old(requestSender.closed) ==>
        r == Ok(()) && requestSender.queue == old(requestSender.queue) + [Request(id, RequestCmd.SetWidget(widget))]
    {
      var rejected := requestSender.Send(Request(id, RequestCmd.SetWidget(widget)));
      r := if rejected.Some? then Err(SendFailed) else Ok(());
    }

    /** Hides the block until the next widget is sent. */
    method Hide() returns (r: Result<()>)
      modifies requestSender
      ensures requestSender.closed == old(requestSender.closed)
      ensures old(requestSender.closed) ==> r == Err(SendFailed) && requestSender.queue == old(requestSender.queue)
      ensures !old(requestSender.closed) ==>
        r == Ok(()) && requestSender.queue == old(requestSender.queue) + [Request(id, UnsetWidget)]
    {
      var rejected := requestSender.Send(Request(id, UnsetWidget));
      r := if rejected.Some? then Err(SendFailed) else Ok(());
    }

    /** Sends the error to be displayed. */
    method SetError(error: Error) returns (r: Result<()>)
      modifies requestSender
      ensures requestSender.closed == old(requestSender.closed)
      ensures old(requestSender.closed) ==> r == Err(SendFailed) && requestSender.queue == old(requestSender.queue)
      ensures !old(requestSender.closed) ==>
        r == Ok(()) && requestSender.queue == old(requestSender.queue) + [Request(id, RequestCmd.SetError(error))]
    {
      var rejected := requestSender.Send(Request(id, RequestCmd.SetError(error)));
      r := if rejected.Some? then Err(SendFailed) else Ok(());
    }

    /** Sends the block's default click bindings. */
    method SetDefaultActions(actions: seq<DefaultAction>) returns (r: Result<()>)
      modifies requestSender
      ensures requestSender.closed == old(requestSender.closed)
      ensures old(requestSender.closed) ==> r == Err(SendFailed) && requestSender.queue == old(requestSender.queue)
      ensures !old(requestSender.closed) ==>
        r == Ok(()) && requestSender.queue == old(requestSender.queue) + [Request(id, RequestCmd.SetDefaultActions(actions))]
    {
      var rejected := requestSender.Send(Request(id, RequestCmd.SetDefaultActions(actions)));
      r := if rejected.Some? then Err(SendFailed) else Ok(());
    }

    /**
     * One poll of `event()`: the oldest buffered event, or `Pending` with
     * nothing consumed when none is buffered yet (so an abandoned wait loses
     * nothing). An empty, closed channel is the panic "events stream ended".
     */
    method Event() returns (p: Poll<BlockEvent>)
      requires events != [] || eventsOpen
      modifies this`events
      ensures old(events) != [] ==> p == Ready(old(events)[0]) && events == old(events)[1..]
      ensures old(events) == [] ==> p == Pending && events == []
    {
      if events == [] {
        p := Pending;
      } else {
        p := Ready(events[0]);
        events := events[1..];
      }
    }

    /**
     * One poll of `wait_for_update_request()`: consumes events up to and
     * including the first update request, or, if none is buffered, consumes
     * the buffered actions and stays pending.
     */
    method WaitForUpdateRequest() returns (p: Poll<()>)
      requires eventsOpen || UpdateRequest in events
      modifies this`events
      ensures UpdateRequest in old(events) ==>
        p == Ready(()) && events == old(events)[FirstUpdate(old(events)) + 1..]
      ensures UpdateRequest !in old(events) ==> p == Pending && events == []
    {
      ghost var start := events;
      while true
        invariant |events| <= |start| && events == start[|start| - |events|..]
        invariant forall j :: 0 <= j < |start| - |events| ==> start[j].Action?
        invariant eventsOpen || UpdateRequest in events
        decreases |events|
      {
        var e := Event();
        match e
        case Pending =>
          assert UpdateRequest !in start by {
            forall j | 0 <= j < |start| ensures start[j] != UpdateRequest { }
          }
          return Pending;
        case Ready(ev) =>
          if ev == UpdateRequest {
            var n := |start| - |events|;
            assert start[n - 1] == UpdateRequest;
            assert FirstUpdate(start) == n - 1;
            return Ready(());
          }
      }
    }

    /** Looks up an icon of the shared configuration. */
    function GetIcon(icon: string): (r: Result<string>)
      ensures r.Ok? <==> icon in sharedConfig.icons
      ensures r.Ok? ==> r.value == sharedConfig.icons[icon]
      ensures r.Err? ==> r.error == Contextual("Icon '" + icon + "' not found", None)
    {
      if icon in sharedConfig.icons then Ok(sharedConfig.icons[icon])
      else Err(Contextual("Icon '" + icon + "' not found", None))
    }

    /**
     * `recoverable(f)`: calls the operation until it succeeds. `attempts` are
     * the successive results of `f()`, `arrivals[i]` the events the dispatcher
     * delivers while the loop waits after attempt `i`, and `closesAt` the
     * attempt before whose report the render loop drops the request channel
     * (at once if it is gone already; never if past the last attempt). `wakes`
     * says which branch ended each wait.
     */
    method Recoverable<T>(attempts: seq<Result<T>>, arrivals: seq<seq<BlockEvent>>, closesAt: nat)
      returns (r: Recovered<T>, wakes: seq<Wake>)
      requires Retry.Recoverable(id, attempts, arrivals, eventsOpen,
                                 if requestSender.closed then 0 else closesAt, events).outcome != EventsEnded
      modifies this`events, requestSender
      ensures var t := Retry.Recoverable(id, attempts, arrivals, old(eventsOpen),
                                         if old(requestSender.closed) then 0 else closesAt, old(events));
        && r == t.outcome && wakes == t.wakes && events == t.events
        && requestSender.queue == old(requestSender.queue) + t.sent
      ensures requestSender.closed == (old(requestSender.closed) || r == Returned(Err(SendFailed)))
    {
      ghost var open := eventsOpen;
      ghost var closing: nat := if requestSender.closed then 0 else closesAt;
      ghost var whole := Retry.Recoverable(id, attempts, arrivals, open, closing, events);
      ghost var sent: seq<Request> := [];
      ghost var closedBefore := requestSender.closed;
      wakes := [];
      var i: nat := 0;
      while true
        invariant eventsOpen == open && requestSender.closed == closedBefore && i <= closing
        invariant requestSender.queue == old(requestSender.queue) + sent
        invariant Completes(id, attempts, arrivals, open, closing, i, events, sent, wakes, whole)
        decreases |attempts| - i
      {
        if i >= |attempts| {
          return Exhausted, wakes;
        }
        if attempts[i].Ok? {
          return Returned(Ok(attempts[i].value)), wakes;
        }
        if i == closesAt {
          requestSender.Close();  // the render loop has shut down
        }
        AppendAssoc(old(requestSender.queue), sent, [Request(id, RequestCmd.SetError(attempts[i].error))]);
        var reported := SetError(attempts[i].error);
        if reported.Err? {
          return Returned(Err(reported.error)), wakes;
        }
        CompletesStep(id, attempts, arrivals, open, closing, i, events, sent, wakes, whole);
        var wake := AwaitRetry(ArrivalsAt(arrivals, i));
        sent := sent + [Request(id, RequestCmd.SetError(attempts[i].error))];
        wakes := wakes + [wake];
        i := i + 1;
      }
    }

    /**
     * The `select!` between the error-interval timer and
     * `wait_for_update_request()` after a reported failure; `arrived` are the
     * events the dispatcher delivers before the timer fires.
     */
    method AwaitRetry(arrived: seq<BlockEvent>) returns (wake: Wake)
      requires Wait(eventsOpen, events, arrived).Woken?
      modifies this`events
      ensures wake == Wait(eventsOpen, old(events), arrived).wake
      ensures events == Wait(eventsOpen, old(events), arrived).rest
    {
      WaitOutcome(eventsOpen, events, arrived);
      if eventsOpen {
        Deliver(arrived);
      }
      var woken := WaitForUpdateRequest();
      wake := if woken.Ready? then Refresh else Timer;
    }

    /** The dispatcher, the only holder of the sending end, delivers `evs`. */
    method Deliver(evs: seq<BlockEvent>)
      requires eventsOpen
      modifies this`events
      ensures events == old(events) + evs
    {
      events := events + evs;
    }
  }
}
