/**
 * The errors the order controller throws and hands to `next(err)`: an `Error` with a
 * message and, for the ones it raises deliberately, an HTTP `statusCode`.
 */
module Failures {
  import opened Wrappers
  import opened JsValues

  /** An `Error` object as the controller sees it: its `statusCode` (absent on foreign errors) and its `message`. */
  datatype Failure = Failure(statusCode: Option<int>, message: string)

  /** `badRequest(message)`: an error carrying status 400. */
  function BadRequest(message: string): Failure {
    Failure(Some(400), message)
  }

  /** `notFound(message)`: an error carrying status 404. */
  function NotFound(message: string): Failure {
    Failure(Some(404), message)
  }

  /**
   * The `TypeError` that reading `key` from `null` or `undefined` raises. It carries no
   * status; the message follows the V8 engine's wording.
   */
  function ReadFailure(base: JsValue, key: string): (f: Failure)
    requires Nullish(base)
    ensures f.statusCode.None?
  {
    Failure(None, "Cannot read properties of " + (if base.Null? then "null" else "undefined") +
                  " (reading '" + key + "')")
  }
}
