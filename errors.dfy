/** How a request ends when it does not end normally. */
module Errors {

  /** A Python exception that no handler catches; the server answers 500. */
  datatype Fault =
    | KeyError         // a dict lookup of a missing key
    | UnboundLocal     // a local variable read before any assignment
    | NoneAttribute    // an attribute read on a lookup that returned None

  datatype Error =
    | HttpError(status: int, detail: string, headers: map<string, string>)
    | InternalFault(fault: Fault)

  /** An HTTPException without extra headers. */
  function Http(status: int, detail: string): (e: Error)
    ensures e.HttpError? && e.status == status && e.detail == detail && e.headers == map[]
  {
    HttpError(status, detail, map[])
  }
}
