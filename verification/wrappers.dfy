/** Option and Outcome types shared by the ledger model. */
module Wrappers {

  /** A value that may be absent; stands in for a query that found no row (SQL NULL, JavaScript null). */
  datatype Option<+T> = None | Some(value: T)

  /** The outcome a handler reports to its caller: success, or the first error it sends. */
  datatype Outcome<+E> = Pass | Fail(error: E)
}
