/** What an axios request can come back with. The request itself is not modelled:
    every handler receives the outcome the server (or the network) would produce. */
module Http {
  import opened Js

  /** An axios error, reduced to the parts the handlers read:
      `error.code === 'ERR_NETWORK'`, `error.response?.status`,
      `error.response?.data?.error`, `.message`, `.details`, and `error.message`.
      An empty string stands for an absent (undefined) value. */
  datatype HttpError = HttpError(
    network: bool,
    status: Option<int>,
    dataError: string,
    dataMessage: string,
    dataDetails: string,
    message: string)

  /** A request either resolves with a response body or rejects with an error. */
  datatype Outcome<+T> = Ok(data: T) | Fail(err: HttpError)

  /** An error thrown by the page itself (`throw new Error(msg)`): it has no response. */
  function Thrown(msg: string): (e: HttpError)
    ensures e.status.None? && !e.network && e.message == msg
    ensures e.dataError == "" && e.dataMessage == "" && e.dataDetails == ""
  {
    HttpError(false, None, "", "", "", msg)
  }

  /** `error.response?.data?.error || fallback`: the server's own text when it sent
      one, the page's fixed text otherwise. */
  function ServerText(e: HttpError, fallback: string): (r: string)
    ensures e.dataError != "" ==> r == e.dataError
    ensures e.dataError == "" ==> r == fallback
  {
    Or(e.dataError, fallback)
  }

  /** `error.response?.status === code`. */
  predicate HasStatus(e: HttpError, code: int)
  {
    e.status == Some(code)
  }
}
