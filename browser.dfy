/**
 * The browser is an oracle: every Playwright call the automation makes is
 * replaced by its outcome, given as an input of the model. The automation
 * code tells two kinds of exception apart (Playwright's `TimeoutError` and
 * every other exception), so that is all an outcome records.
 */
module Browser {

  /** The class of an exception raised by a browser call. */
  datatype Exc = Timeout | Other

  /** Outcome of a browser call that returns nothing (click, goto, wait, fill ...). */
  datatype Call = Done | Raise(exc: Exc)

  /** Outcome of `page.query_selector`: an element, `None`, or an exception. */
  datatype Query = Found | Absent | QueryRaise(exc: Exc)

  /** Outcome of `page.query_selector` seen through the truthiness test `if page.query_selector(...)`. */
  predicate Present(q: Query) { q == Found }
}
