/** Everything that can end a run early, and the exit status each one
    leads to (index.js:14-19 and 101-104). */
module Failures {

  datatype Failure =
    | MissingConfig          // a required setting is unset or empty
    | NetworkError           // the GET request itself was rejected
    | HttpStatus(status: int) // the source API answered with a non-ok status
    | InvalidJson            // the body of an ok response is not JSON
    | BadShape               // the body is falsy or its `data` is not an array
    | NullRecord             // an element of `data` is `null`, so reading its fields throws
    | AuthFailure            // no authenticated spreadsheet client could be obtained
    | ClearRejected          // the spreadsheet service rejected the clear request
    | UpdateRejected         // the spreadsheet service rejected the update request

  /** Missing configuration exits with status 1; everything thrown later
      reaches the top-level catch and exits with status 2. */
  function ExitCode(f: Failure): nat {
    if f.MissingConfig? then 1 else 2
  }
}
