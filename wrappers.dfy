/** Small value wrappers shared by the other modules. */
module Wrappers {

  datatype Option<+T> = None | Some(value: T)

  /** The state of an awaited computation after one poll: finished with a value,
      or suspended until something outside the block makes progress. */
  datatype Poll<+T> = Ready(value: T) | Pending
}
