/** What a call to a server, or a lookup, can come to. */
module Replies {

  datatype Option<+T> = None | Some(value: T)

  /** What the network and the server do with one call. A lost call took effect, but the caller is told that it failed. */
  datatype Outcome = Accepted | Rejected | Lost

  /** What the caller gets back from one call; `Nil` is success. */
  datatype Error = Nil | NotFound | Conflict | AlreadyExists | Failed
}
