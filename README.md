# Block runtime of i3status-rust, modelled in Dafny

This project models the block runtime of i3status-rust (`src/blocks.rs`). The status bar runs many
independent blocks on one cooperative scheduler. The runtime has three parts:

- **The `BlockConfig` dispatch table.** It is a closed union with one variant per block kind, generated by
  `define_blocks!`. `name()` gives a variant's tag. `run()` forwards to that kind's module and
  attributes any error the block finishes with to `(name, id)`.
- **`CommonApi`, each block's capability object.** It has four request primitives (`set_widget`, `hide`,
  `set_error`, `set_default_actions`). Each one queues one request stamped with the block's id on the
  request channel that all blocks share. `event()` and `wait_for_update_request()` consume the block's
  event channel. `get_icon` looks up the shared icon table.
- **`recoverable`.** It retries a fallible operation. After each failure it shows the error
  (`SetError`), then waits for either the error-interval timer or an update request.

Modelling choices:

- **Async operations.** Each async operation is one poll in a sequential world. `Poll` is `Ready(v)` or `Pending`.
  `Event` returns `Pending` without consuming anything when no event is buffered, which is the cancel safety the
  source documents. An empty event channel whose sender is gone is the source's panic. It appears as the
  precondition of `Event` and `WaitForUpdateRequest`.
- **The request channel.** `Requests.RequestChannel` is a shared object. It holds a `queue` of requests
  not yet taken by the render loop and a `closed` flag, which means the receiver was dropped. Every
  `CommonApi` refers to one such object, as the cloned `mpsc::Sender` handles do.
- **`recoverable(f)`.** Its inputs are the successive results of `f()` (`attempts`), the events the
  dispatcher delivers during each wait (`arrivals`) and the attempt before whose report the render loop
  has dropped the request channel (`closesAt`). `Retry.Recover` gives the whole run as a value:
  the outcome, the events left buffered, the requests sent and which branch ended each wait.
  `Api.CommonApi.Recoverable` is the loop itself and is proved equal to that function. The lemmas in
  `Retry` state what the loop promises.
- **I/O, time and randomness.** The block modules' own `run` and the icon theme are parameters:
  `Blocks.BlockModules` and `Api.SharedConfig`. Time appears only as the order of wait outcomes.

Things the code defines outside `src/blocks.rs`:

- `src/errors.rs` is not part of this model. Its error is modelled with the fields the runtime touches:
  message, cause and attributed block.
- `in_block` is taken to set the block attribution, replacing any previous one.
- `.error(msg)` is taken to wrap the foreign error as its cause under the message `msg`.

## Model

| member | source | states |
|---|---|---|
| `Blocks.BlockConfig.Name` | src/blocks.rs:45-51 | every variant's name is one of the declared block tags |
| `Blocks.FromTag` | src/blocks.rs:30-42 | a tag selects a variant carrying the given configuration exactly when it is a declared tag; an unknown tag selects nothing |
| `Blocks.NameRoundTrip` | src/blocks.rs:45-51 | the tag a variant is named by selects that same variant |
| `Blocks.FromTagNamed` | src/blocks.rs:45-51 | the variant a declared tag selects is named by that tag |
| `Blocks.NamesDistinct` | src/blocks.rs:45-51 | two configurations have the same name if and only if they are the same variant |
| `Blocks.BlockConfig.Run` | src/blocks.rs:54-64 | a success of the kind's module is returned unchanged; an error stays an error, keeps its message and cause, and is attributed to the kind's name and the api's id |
| `Errors.ResultInBlock` | src/blocks.rs:60 | `in_block` on a result leaves a success alone and attributes an error |
| `Errors.Error.InBlock` | src/blocks.rs:60 | the attributed error names the block and id and keeps message and cause |
| `Errors.Contextual` | src/blocks.rs:142 | a converted error carries the given message and cause and no block |
| `Events.FirstUpdate` | src/blocks.rs:234 | the position of the first update request in a sequence, before which every event is an action |
| `Requests.RequestChannel.Close` | src/blocks.rs:136-142 | the render loop drops the receiving end: every later send fails, and what was queued stays |
| `Requests.RequestChannel.Send` | src/blocks.rs:136-141 | an open channel appends exactly the request; a closed one hands it back and leaves the queue alone |
| `Api.CommonApi.constructor` | src/blocks.rs:123-131 | a fresh api has its id, shared configuration, sender and interval, an open and empty event channel |
| `Api.CommonApi.SetWidget` | src/blocks.rs:135-143 | appends exactly `Request(id, SetWidget(w))` and returns Ok, or on a closed channel returns the send error and appends nothing |
| `Api.CommonApi.Hide` | src/blocks.rs:146-154 | appends exactly `Request(id, UnsetWidget)` and returns Ok, or on a closed channel returns the send error and appends nothing |
| `Api.CommonApi.SetError` | src/blocks.rs:157-165 | appends exactly `Request(id, SetError(e))` and returns Ok, or on a closed channel returns the send error and appends nothing |
| `Api.CommonApi.SetDefaultActions` | src/blocks.rs:167-178 | appends exactly `Request(id, SetDefaultActions(a))` and returns Ok, or on a closed channel returns the send error and appends nothing |
| `Api.CommonApi.Event` | src/blocks.rs:205-210 | returns the head of the buffered events and leaves the tail; with nothing buffered it is pending and consumes nothing; requires a buffered event or a live sender (panics otherwise) |
| `Api.CommonApi.WaitForUpdateRequest` | src/blocks.rs:233-235 | removes the events up to and including the first update request and leaves the suffix after it; with no update request buffered it drains the actions and stays pending |
| `Api.CommonApi.GetIcon` | src/blocks.rs:237-241 | Ok with the configured icon exactly when the name is in the icon table; otherwise the "Icon '<name>' not found" error |
| `Api.CommonApi.Recoverable` | src/blocks.rs:260-277 | the outcome, the branch that ended each wait, the events left and the requests appended to the shared queue are those of `Retry.Recover` from the first attempt; the request channel ends up closed exactly when it was closed before or a report failed |
| `Api.CommonApi.Deliver` | src/blocks.rs:126 | the dispatcher, holding the sending end, appends the events to the block's open event channel |
| `Api.CommonApi.AwaitRetry` | src/blocks.rs:270-273 | the wait after a reported failure ends by the branch `Retry.Wait` gives and leaves buffered exactly the events it leaves |
| `Retry.Wait` | src/blocks.rs:270-273 | the wait after a failure ends by an update request exactly when one is buffered or, on an open channel, delivered during the wait; it panics only on a closed channel |
| `Retry.Drain` | src/blocks.rs:233-235 | the `while` loop over the events, one at a time: it ends by an update request exactly when the events hold one, and panics exactly when the channel is closed and they hold none |
| `Retry.Recover` | src/blocks.rs:265-276 | the loop from attempt `i` on: the only error it returns is the failed report, and there is one wait per report except a last report whose wait panicked |
| `Retry.WaitOutcome` | src/blocks.rs:270-273 | the wait ends by an update request exactly when one is visible, leaving the events after the first one and dropping only actions before it; otherwise it ends by the timer with the actions drained, or panics on a closed channel |
| `Retry.DrainStopsAtFirstUpdate` | src/blocks.rs:233-235 | draining events one at a time, as the `while` loop does, stops just after the first update request, or consumes everything and leaves the timer to end the wait (a panic on a closed channel) |
| `Retry.RecoverStep` | src/blocks.rs:265-276 | a failed attempt whose report is sent leads to one `SetError` with the block's id, one wait, and the loop from the next attempt |
| `Retry.ReportsFrom` | src/blocks.rs:265-276 | from any attempt on, each failure before attempt `k` is reported once, in order, and at `k` the loop returns the success, the failed report, or runs out of modelled attempts |
| `Retry.ReturnsFirstSuccess` | src/blocks.rs:266-269 | the loop returns the value of the first successful attempt after exactly one `SetError` per earlier failure, in order, stamped with the id |
| `Retry.KeepsRetrying` | src/blocks.rs:265-276 | while attempts fail the loop never gives up; it reports every failure in order and waits after each |
| `Retry.SendFailureStops` | src/blocks.rs:269 | when the request channel is gone by the report of failure `k`, the loop returns the send error after exactly the `k` earlier reports and waits, with no further attempt |
| `Retry.OpenEventsNeverEnd` | src/blocks.rs:208 | while the event sender is alive, no wait of the loop panics |
| `Retry.TimerWithoutUpdates` | src/blocks.rs:270-273 | with no update request buffered or delivered, every wait ends by the timer |
| `Retry.RefreshWhenRequested` | src/blocks.rs:272 | with an update request buffered or delivered during the wait, the wait after a failure ends by that request and not by the timer |
| `Retry.FailTwiceThenSucceed` | src/blocks.rs:265-276 | two failures then a success, with no update request, give the value after exactly two `SetError` reports and two timer waits |
| `Scenarios.HideThenShow` | src/blocks.rs:135-154 | `hide` then `set_widget(w)` queue `UnsetWidget` then `SetWidget(w)`, both with the block's id |
| `Scenarios.SetErrorAfterShutdown` | src/blocks.rs:157-165 | after the render loop drops the channel, `set_error` returns the send error and queues nothing |
| `Scenarios.TwoBlocks` | src/blocks.rs:128 | two blocks sharing one request channel see their requests queued in call order, each with its own id |
| `Scenarios.AbandonedEventPoll` | src/blocks.rs:186-210 | an `event()` poll abandoned on an empty channel loses nothing; the next poll returns the next delivered event exactly once |
| `Scenarios.FailTwiceThenSucceed` | src/blocks.rs:260-277 | on a real api, two failures then a success return the value and queue exactly the two `SetError` requests, in order, both waits ending by the timer |
| `Scenarios.ShutdownDuringRetry` | src/blocks.rs:265-276 | when the render loop shuts down after the first report, the second report fails and the loop returns the send error with only the first `SetError` queued |

## Left out

- Block kinds: 8 of the 41 declared kinds are modelled (amd_gpu, battery, cpu, custom, custom_dbus, maildir, time, xrandr). The others differ only in their tag.
- The `cfg(feature = ...)` gating of variants (maildir, notmuch) is left out. The maildir variant is always present here.
- Deserialization of `BlockConfig`, including `deny_unknown_fields` and `flatten`, comes from a library and is left out. `FromTag` models only which variant a tag selects.
- The ~40 block modules' own `run` are not shown. `Blocks.BlockModules` stands for their results.
- How futures are boxed and driven (`boxed_local`, `FutureExt::map`, `BoxedFuture`) is left out. `Run` gives the finished future's value.
- Timing: the `select!` racing and `sleep(error_interval)` are left out, and `errorInterval` is stored unused. Only the order of wait outcomes is kept.
- Retry.WaitOutcome: assumes `error_interval` is not zero. So a buffered update request always wins the race. With a zero interval the timer may win, because `select!` picks among ready branches at random.
- Bounded channel capacity and back-pressure are concurrency concerns and are left out, along with the deadlock a full event channel can cause. Sends never block here.
- The render loop dropping the request channel during `recoverable` is modelled only at report boundaries (`closesAt`). A drop between a report and the next attempt is the same as one just before that report.
- Api.CommonApi.Recoverable: the operation runs a finite number of modelled times. `Exhausted` marks where the source would keep retrying. The operation's own side effects are not modelled.
- Api.CommonApi.Recoverable: requires that no wait of the loop panics. This is the "events stream ended" panic, stated as a precondition.
- `get_icon_in_progression` is left out, because it takes a floating-point value.
- The internals of `SharedConfig::get_icon` are left out. The icon table is an abstract map.
- A block closing its own event receiver is not modelled. `CommonApi::event` documents this as an option.
- Widgets, mouse buttons and the error kind are defined outside this file. They appear only as opaque or representative values.
- Block ids are `usize` in the source and unbounded naturals here. They are only compared, never computed.
