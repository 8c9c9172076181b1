/**
 * The part of the HTTP library the client relies on: sessions that carry
 * credentials and headers, the request they produce, the response, and
 * `raise_for_status`. The remote service is an oracle from request to
 * response; `None` stands for a request that never got a response.
 */
module Http {
  import opened Wrappers
  import opened Json
  import opened Exceptions

  datatype Verb = Get | Post | Put | Delete

  /** A Basic-auth (user, password) pair. */
  type Credentials = (string, string)

  /** What a session adds to every request it sends: Basic credentials and extra headers. */
  datatype Session = Session(auth: Option<Credentials>, headers: map<string, string>)

  datatype Request = Request(
    verb: Verb,
    url: string,
    auth: Option<Credentials>,
    headers: map<string, string>,
    json: Option<Json>,
    params: map<string, Json>)

  /** A response: status code, headers, and the body when it is JSON. */
  datatype Response = Response(status: int, headers: map<string, string>, body: Option<Json>)

  /** The remote service. */
  type Network = Request -> Option<Response>

  /** The statuses `raise_for_status` rejects: client errors and server errors. */
  predicate IsErrorStatus(status: int)
  {
    400 <= status < 600
  }

  /** The request a session sends for `verb` on `url` with the given body and query. */
  function Send(s: Session, verb: Verb, url: string, json: Option<Json>, params: map<string, Json>): Request
  {
    Request(verb, url, s.auth, s.headers, json, params)
  }

  /** `resp.raise_for_status()`: the response itself, or the error for a 4xx/5xx status. */
  function RaiseForStatus(resp: Response): Result<Response, Error>
  {
    if IsErrorStatus(resp.status) then Failure(HttpError(resp.status)) else Success(resp)
  }

  /** `resp.json()`: the parsed body, or an error when the body is not JSON. */
  function ParseBody(resp: Response): Result<Json, Error>
  {
    match resp.body
    case Some(j) => Success(j)
    case None => Failure(InvalidJsonBody)
  }
}
