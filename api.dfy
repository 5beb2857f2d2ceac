/** The HTTP client's two rules: when a request carries the bearer token,
    and what a failed call throws. */
module Api {
  import opened Text

  /** The part of an outgoing request the interceptor looks at and edits. */
  class RequestConfig {
    var url: Option<string>
    var hasHeaders: bool
    var headers: map<string, string>

    constructor(url: Option<string>, headers: map<string, string>)
      ensures this.url == url && hasHeaders && this.headers == headers
    {
      this.url := url;
      hasHeaders := true;
      this.headers := headers;
    }
  }

  /** The stored token is attached unless it is missing, empty or the text
      "undefined", or the URL is an authentication endpoint. */
  predicate AttachesToken(token: Option<string>, config: RequestConfig)
    reads config
  {
    token.Some? && token.value != "" && token.value != "undefined" && config.hasHeaders
    && !(config.url.Some? && Includes(config.url.value, "/auth"))
  }

  /** The request interceptor: edits the headers in place. */
  method Intercept(config: RequestConfig, token: Option<string>)
    modifies config
    ensures AttachesToken(token, config) ==> config.headers == old(config.headers)["Authorization" := "Bearer " + token.value]
    ensures !AttachesToken(token, config) ==> config.headers == old(config.headers)
    ensures config.url == old(config.url) && config.hasHeaders == old(config.hasHeaders)
  {
    if token.Some? && token.value != "" && token.value != "undefined" && config.hasHeaders
       && !(config.url.Some? && Includes(config.url.value, "/auth")) {
      config.headers := config.headers["Authorization" := "Bearer " + token.value];
    }
  }

  /** An authentication endpoint never receives the token. */
  lemma AuthUrlsStayAnonymous(token: Option<string>, config: RequestConfig, prefix: string, rest: string)
    requires config.url == Some(prefix + "/auth" + rest)
    ensures !AttachesToken(token, config)
  {
    var u := prefix + "/auth" + rest;
    assert u[|prefix|..|prefix| + 5] == "/auth";
    assert OccursAt(u, "/auth", |prefix|);
  }

  /** A response body: a string, an object whose `error` and `message`
      fields are strings or not (`None`), or anything else. */
  datatype Body = StringBody(text: string) | ObjectBody(error: Option<string>, message: Option<string>) | OtherBody

  /** The failure `handleApiError` receives. */
  datatype ApiError = ApiError(response: Option<Body>, hasRequest: bool, message: Option<string>)

  /** What it throws: a string, or `error.message` when that is undefined. */
  datatype Thrown = Thrown(text: string) | ThrownUndefined

  const UnknownServerError: string := "Unknown server error"
  const NetworkError: string := "Network error. Server is unreachable."

  /** `handleApiError`. */
  function HandleApiError(e: ApiError): (t: Thrown)
    ensures e.response.Some? && e.response.value.StringBody? ==> t == Thrown(e.response.value.text)
    ensures e.response.Some? && e.response.value.ObjectBody? && e.response.value.error.Some? ==>
      t == Thrown(e.response.value.error.value)
    ensures (e.response.Some? && e.response.value.ObjectBody? && e.response.value.error.None?
             && e.response.value.message.Some?) ==> t == Thrown(e.response.value.message.value)
    ensures e.response.Some? && (e.response.value.OtherBody? ||
              (e.response.value.ObjectBody? && e.response.value.error.None? && e.response.value.message.None?)) ==>
      t == Thrown(UnknownServerError)
    ensures e.response.None? && e.hasRequest ==> t == Thrown(NetworkError)
    ensures e.response.None? && !e.hasRequest ==> t == (if e.message.Some? then Thrown(e.message.value) else ThrownUndefined)
  {
    match e.response
    case Some(body) =>
      (match body
       case StringBody(text) => Thrown(text)
       case ObjectBody(err, msg) =>
         if err.Some? then Thrown(err.value)
         else if msg.Some? then Thrown(msg.value)
         else Thrown(UnknownServerError)
       case OtherBody => Thrown(UnknownServerError))
    case None =>
      if e.hasRequest then Thrown(NetworkError)
      else if e.message.Some? then Thrown(e.message.value) else ThrownUndefined
  }
}
