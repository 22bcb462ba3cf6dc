/** The optional values of the model: a missing `session_id`, a missing `answer` field. */
module Wrappers {
  datatype Option<+T> = None | Some(value: T)
}
