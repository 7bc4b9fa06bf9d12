/**
 * What a component sees of a remote call once it is awaited. The backend,
 * the axios instance and the per-resource call table are not modelled:
 * every call is settled by an outcome the caller supplies.
 */
module Remote {
  import opened Js

  /** A rejected call: `err.response?.data?.message` (empty when there is
      no server message) and `err.message`. */
  datatype ApiError = ApiError(serverMessage: string, message: string)

  /** A settled call: `Ok(res.data)` or the error it was rejected with. */
  datatype Outcome = Ok(body: Json) | Fail(error: ApiError)

  /** The stand-in for the engine's text of a TypeError raised by reading a
      property of null or undefined, or by calling a missing method. */
  const TypeErrorText := "TypeError"

  /** An error raised inside the client rather than by the backend. */
  function LocalError(message: string): (e: ApiError)
    ensures e.serverMessage == ""
  {
    ApiError("", message)
  }

  /** `err.response?.data?.message || err.message`: the text alerts and
      error banners show. */
  function Reason(e: ApiError): (r: string)
    ensures e.serverMessage != "" ==> r == e.serverMessage
    ensures e.serverMessage == "" ==> r == e.message
  {
    if e.serverMessage != "" then e.serverMessage else e.message
  }
}
