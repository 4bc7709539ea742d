/**
 * The HTTP client wrapper every service goes through: default headers built from the
 * stored token, per-call header overrides, and the single shape errors are rethrown in.
 * The transport itself (axios) is outside the model: a call's reply is a parameter.
 */
module ApiService {
  import opened Wrappers
  import opened Storage

  /** JavaScript truthiness of an optional string: present and not empty. */
  predicate Truthy(s: Option<string>) {
    s.Some? && s.value != ""
  }

  /** `apiService.getAuthToken()`: the text stored under `token`, None when there is none. */
  function GetAuthToken(items: map<string, Item>): (token: Option<string>)
    ensures token.Some? <==> "token" in items && items["token"].Text?
    ensures token.Some? ==> items["token"] == Text(token.value)
  {
    match GetItem(items, "token")
    case Some(Text(t)) => Some(t)
    case _ => None
  }

  /** `getHeaders()` for a given stored token. */
  function GetHeaders(token: Option<string>): (h: map<string, string>)
    ensures "Content-Type" in h && h["Content-Type"] == "application/json"
    ensures "Authorization" in h <==> Truthy(token)
    ensures Truthy(token) ==> h["Authorization"] == "Bearer " + token.value
    ensures h.Keys <= {"Content-Type", "Authorization"}
  {
    var defaults := map["Content-Type" := "application/json"];
    if Truthy(token) then defaults["Authorization" := "Bearer " + token.value] else defaults
  }

  /** `{ ...this.getHeaders(), ...config.headers }`: a missing `config.headers` is the empty map. */
  function CallHeaders(items: map<string, Item>, overrides: map<string, string>): (h: map<string, string>)
    ensures h.Keys == GetHeaders(GetAuthToken(items)).Keys + overrides.Keys
    ensures forall k :: k in overrides ==> h[k] == overrides[k]
    ensures forall k :: k in h && k !in overrides ==> h[k] == GetHeaders(GetAuthToken(items))[k]
  {
    GetHeaders(GetAuthToken(items)) + overrides
  }

  datatype Verb = Get | Post | Put | Delete

  /** What the wrapper hands to axios for `get`, `post`, `put` or `delete`. */
  datatype Request = Request(verb: Verb, url: string, headers: map<string, string>)

  function BuildRequest(verb: Verb, url: string, items: map<string, Item>, overrides: map<string, string>): (r: Request)
    ensures r.verb == verb && r.url == url
    ensures "Content-Type" in r.headers
    ensures "Authorization" !in overrides ==>
      ("Authorization" in r.headers <==> Truthy(GetAuthToken(items)))
  {
    Request(verb, url, CallHeaders(items, overrides))
  }

  /** The body of an error reply, or the object built in its place; only its `message` is read. */
  datatype ErrorBody = ErrorBody(message: Option<string>)

  /** How an axios call fails: with a reply, with a request that got no reply, or before sending. */
  datatype HttpFailure =
    | ResponseFailure(data: ErrorBody)
    | NoResponse
    | SetupFailure(message: Option<string>)

  const ConnectionMessage := "No se pudo conectar con el servidor"

  /** `handleError(error)` */
  function HandleError(e: HttpFailure): (r: ErrorBody)
    ensures e.ResponseFailure? ==> r == e.data
    ensures e.NoResponse? ==> r == ErrorBody(Some(ConnectionMessage))
    ensures e.SetupFailure? ==> r == ErrorBody(e.message)
  {
    match e
    case ResponseFailure(data) => data
    case NoResponse => ErrorBody(Some(ConnectionMessage))
    case SetupFailure(m) => ErrorBody(m)
  }

  /** A call's settled result: `response.data`, or the rethrown `handleError(error)`. */
  function Settle<T>(reply: Result<T, HttpFailure>): (r: Result<T, ErrorBody>)
    ensures reply.Success? <==> r.Success?
    ensures reply.Success? ==> r.value == reply.value
    ensures reply.Failure? ==> r.error == HandleError(reply.error)
  {
    match reply
    case Success(data) => Success(data)
    case Failure(e) => Failure(HandleError(e))
  }

  /** `err.message || fallback`, the way every page turns a caught error into its message. */
  function MessageOr(e: ErrorBody, fallback: string): (m: string)
    ensures Truthy(e.message) ==> m == e.message.value
    ensures !Truthy(e.message) ==> m == fallback
  {
    if Truthy(e.message) then e.message.value else fallback
  }

  /** A failure to reach the server always shows the connection message, whatever the page's fallback. */
  lemma UnreachableServerMessage<T>(reply: Result<T, HttpFailure>, fallback: string)
    requires reply.Failure? && reply.error.NoResponse?
    ensures Settle(reply).Failure?
    ensures MessageOr(Settle(reply).error, fallback) == ConnectionMessage
  {
  }
}
