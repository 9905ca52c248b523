/** Requests a block sends to the render loop, and the channel that carries them. */
module Requests {
  import opened Wrappers
  import opened Errors

  /** Mouse buttons a default action can be bound to (representative). */
  datatype MouseButton = Left | Middle | Right | WheelUp | WheelDown

  /** One entry of a block's default click bindings: button, optional modifier, action name. */
  datatype DefaultAction = DefaultAction(button: MouseButton, modifier: Option<string>, action: string)

  /** A snapshot of a rendered widget; its format belongs to the widget module. */
  datatype Widget = Widget(text: string)

  datatype RequestCmd =
    | SetWidget(widget: Widget)
    | UnsetWidget
    | SetError(error: Error)
    | SetDefaultActions(actions: seq<DefaultAction>)

  datatype Request = Request(blockId: nat, cmd: RequestCmd)

  /** What every send primitive returns once the render loop has dropped the receiving end. */
  const SendFailed: Error := Contextual("Failed to send Request", Some("channel closed"))

  /**
   * The outbound request channel. One object is shared by the handles of all
   * blocks; `queue` holds the requests not yet taken by the render loop.
   */
  class RequestChannel {
    var queue: seq<Request>
    /** The render loop has dropped the receiving end. */
    var closed: bool

    constructor ()
      ensures queue == [] && !closed
    {
      queue := [];
      closed := false;
    }

    /** `Sender::send`: enqueues `req`, or hands it back when the receiver is gone. */
    method Send(req: Request) returns (rejected: Option<Request>)
      modifies this
      ensures closed == old(closed)
      ensures old(closed) ==> rejected == Some(req) && queue == old(queue)
      ensures !old(closed) ==> rejected == None && queue == old(queue) + [req]
    {
      if closed {
        rejected := Some(req);
      } else {
        queue := queue + [req];
        rejected := None;
      }
    }

    /** The render loop shuts down and drops the receiving end. */
    method Close()
      modifies this
      ensures closed && queue == old(queue)
    {
      closed := true;
    }
  }
}
