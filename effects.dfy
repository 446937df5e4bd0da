/**
 * What the pages observe from, and do to, the outside world: the result of an
 * HTTP call, toasts, alerts and router navigations.
 */
module Effects {

  /** A rejected request: `err.response?.data?.message` ("" when absent) and `err.message`. */
  datatype ApiError = ApiError(serverMessage: string, message: string)

  /** `err.response?.data?.message || err.message`, the text the pages show on failure. */
  function Reason(e: ApiError): (r: string)
    ensures e.serverMessage != "" ==> r == e.serverMessage
    ensures e.serverMessage == "" ==> r == e.message
  {
    if e.serverMessage != "" then e.serverMessage else e.message
  }

  /** The outcome of one awaited request: resolved with its `data`, or rejected. */
  datatype Outcome<+T> = Ok(data: T) | Failed(error: ApiError)

  datatype Severity = Success | Error | Info | Warning

  /** A call of the global `showToast(message, severity)`. */
  datatype Toast = Toast(message: string, severity: Severity)

  /** The part of a router location the pages use. */
  datatype Location = Location(pathname: string, search: string, hash: string)

  /** A call of `navigate(to, { replace, state })`; `from` is `state.from` when one is passed. */
  datatype Navigation = Navigation(to: string, replace: bool, from: FromState)

  datatype FromState = NoState | From(location: Location)
}
