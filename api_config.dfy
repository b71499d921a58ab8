/** The API helpers (src/config/api.ts): the base URL, URL building, the request headers with
    an optional bearer token, and the extraction of a message from whatever an API call threw. */
module ApiConfig {
  import opened Wrappers

  const DefaultBaseUrl: string := "http://localhost:3000/api"

  /** `VITE_API_BASE_URL || 'http://localhost:3000/api'`; the environment value is a parameter. */
  function BaseUrl(env: Option<string>): (url: string)
    ensures env.Some? && env.value != "" ==> url == env.value
    ensures env.None? || env.value == "" ==> url == DefaultBaseUrl
    ensures url != ""
  {
    if env.Some? && env.value != "" then env.value else DefaultBaseUrl
  }

  /** `buildApiUrl`: the base URL followed by the endpoint. */
  function BuildApiUrl(base: string, endpoint: string): (url: string)
    ensures |url| == |base| + |endpoint|
    ensures url[..|base|] == base && url[|base|..] == endpoint
  {
    base + endpoint
  }

  /** Two endpoints give the same URL only if they are the same endpoint. */
  lemma BuildApiUrlInjective(base: string, e1: string, e2: string)
    requires BuildApiUrl(base, e1) == BuildApiUrl(base, e2)
    ensures e1 == e2
  {
    assert e1 == BuildApiUrl(base, e1)[|base|..];
  }

  const ContentType: string := "Content-Type"
  const Authorization: string := "Authorization"

  /** `API_CONFIG.DEFAULT_HEADERS`. */
  const DefaultHeaders: map<string, string> := map[ContentType := "application/json"]

  /** `getAuthHeaders`: a copy of the default headers, plus `Authorization: Bearer <token>` when
      the token is neither null nor empty. The defaults themselves are a constant and are
      never changed. */
  function GetAuthHeaders(token: Option<string>): (headers: map<string, string>)
    ensures token.None? || token.value == "" ==> headers == DefaultHeaders
    ensures token.Some? && token.value != "" ==>
      headers == DefaultHeaders[Authorization := "Bearer " + token.value]
  {
    if token.Some? && token.value != "" then DefaultHeaders[Authorization := "Bearer " + token.value]
    else DefaultHeaders
  }

  /** Whatever the headers, they keep the content type, and carry an authorization entry
      exactly when a non-empty token was given. */
  lemma AuthHeadersShape(token: Option<string>)
    ensures ContentType in GetAuthHeaders(token) && GetAuthHeaders(token)[ContentType] == "application/json"
    ensures Authorization in GetAuthHeaders(token) <==> token.Some? && token.value != ""
    ensures Authorization in GetAuthHeaders(token) ==>
      GetAuthHeaders(token)[Authorization][..7] == "Bearer " &&
      GetAuthHeaders(token)[Authorization][7..] == token.value
    ensures GetAuthHeaders(token).Keys <= {ContentType, Authorization}
  {
    assert ContentType != Authorization;
  }

  /** A value caught from an API call, as `handleApiError` inspects it: a non-null object with
      an optional `response.data.message` and an optional `message` key, a string, or anything
      else (null, undefined, a number, ...). */
  datatype Caught =
    | ObjectValue(hasResponse: bool, responseMessage: Option<string>, message: Option<string>)
    | StringValue(text: string)
    | OtherCaught

  const UnexpectedError: string := "Une erreur inattendue est survenue"

  /** `handleApiError`: a non-empty `response.data.message` first, then the `message` key, then
      the value itself when it is a string, then the fixed fallback. */
  function HandleApiError(e: Caught): (m: string)
    ensures e.ObjectValue? && e.hasResponse && e.responseMessage.Some? && e.responseMessage.value != "" ==>
      m == e.responseMessage.value
    ensures e.ObjectValue? && !(e.hasResponse && e.responseMessage.Some? && e.responseMessage.value != "") ==>
      m == (if e.message.Some? then e.message.value else UnexpectedError)
    ensures e.StringValue? ==> m == e.text
    ensures e.OtherCaught? ==> m == UnexpectedError
  {
    match e
    case ObjectValue(hasResponse, responseMessage, message) =>
      if hasResponse && responseMessage.Some? && responseMessage.value != "" then responseMessage.value
      else if message.Some? then message.value
      else UnexpectedError
    case StringValue(text) => text
    case OtherCaught => UnexpectedError
  }

  /** `new Error(msg)` as `handleApiError` sees it: an object without `response` whose message
      is `msg`. */
  function ErrorWith(msg: string): (e: Caught)
    ensures e.ObjectValue? && !e.hasResponse && e.message == Some(msg)
  {
    ObjectValue(false, None, Some(msg))
  }

  /** An `Error` thrown by the application reads back as its own message, so the services'
      nested `catch` clauses concatenate messages. */
  lemma ErrorMessageReadBack(msg: string)
    ensures HandleApiError(ErrorWith(msg)) == msg
  {
  }
}
