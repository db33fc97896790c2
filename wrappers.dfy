/** Optional values, standing for the `null` results of the host's queries. */
module Wrappers {

  datatype Option<+T> = None | Some(value: T)

  /** Either normal completion or an exception that escapes an action. */
  datatype Outcome<+E> = Pass | Fail(error: E)
}
