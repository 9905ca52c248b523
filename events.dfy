/** Events a block receives from the dispatcher. */
module Events {

  /** A named user action (from a click binding) or an explicit refresh demand. */
  datatype BlockEvent = Action(name: string) | UpdateRequest

  /** Position of the first `UpdateRequest` in `s`; everything before it is an action. */
  function FirstUpdate(s: seq<BlockEvent>): (k: nat)
    requires UpdateRequest in s
    ensures k < |s| && s[k] == UpdateRequest
    ensures forall j :: 0 <= j < k ==> s[j].Action?
  {
    if s[0] == UpdateRequest then 0
    else
      assert UpdateRequest in s[1..] by { assert s == [s[0]] + s[1..]; }
      1 + FirstUpdate(s[1..])
  }
}
