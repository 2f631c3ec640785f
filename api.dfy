/** The shared HTTP client of src/api.js: default headers, a request
    interceptor that adds the bearer token and a response interceptor that
    unwraps bodies and turns failures into errors, logging the user out when
    the message says the token expired. */
module Api {
  import opened TodoData
  import opened Text
  import opened Session
  import Routes

  const ContentTypeHeader := "Content-Type"
  const AuthorizationHeader := "Authorization"
  const DefaultHeaders: map<string, string> := map[ContentTypeHeader := "application/json"]

  const DefaultErrorMessage := "Something went wrong!"
  const ExpiryMarker := "expired"
  const ExpiryRedirectDelayMs := 2000

  /** The headers after the request interceptor ran with `token` in storage. */
  function WithBearer(headers: map<string, string>, token: Option<string>): (h: map<string, string>)
    ensures Truthy(token) ==> h.Keys == headers.Keys + {AuthorizationHeader}
    ensures Truthy(token) ==> h[AuthorizationHeader] == "Bearer " + token.value
    ensures forall k :: k in headers && k != AuthorizationHeader ==> k in h && h[k] == headers[k]
    ensures !Truthy(token) ==> h == headers
  {
    if Truthy(token) then headers[AuthorizationHeader := "Bearer " + token.value] else headers
  }

  /** The interceptor never drops the default content type. */
  lemma DefaultContentTypeKept(token: Option<string>)
    ensures var h := WithBearer(DefaultHeaders, token);
            ContentTypeHeader in h && h[ContentTypeHeader] == "application/json"
  {
  }

  /** An outgoing request as axios hands it to the interceptor. */
  class RequestConfig {
    const verb: Verb
    const path: string
    const body: Body
    var headers: map<string, string>

    constructor (verb: Verb, path: string, body: Body)
      ensures this.verb == verb && this.path == path && this.body == body
      ensures headers == DefaultHeaders
    {
      this.verb := verb;
      this.path := path;
      this.body := body;
      headers := DefaultHeaders;
    }
  }

  /** The request interceptor: adds `Authorization` in place and passes the
      same config on. */
  method InterceptRequest(config: RequestConfig, session: SessionStore) returns (out: RequestConfig)
    modifies config
    ensures out == config
    ensures config.headers == WithBearer(old(config.headers), session.GetItem(AccessTokenKey))
  {
    var token := session.GetItem(AccessTokenKey);
    if Truthy(token) {
      config.headers := config.headers[AuthorizationHeader := "Bearer " + token.value];
    }
    out := config;
  }

  /** `error.response?.data?.message || 'Something went wrong!'`; `message`
      is None when the response, its body or its message is missing. */
  function ErrorMessage(message: Option<string>): (r: string)
    ensures r != ""
    ensures Truthy(message) ==> r == message.value
    ensures !Truthy(message) ==> r == DefaultErrorMessage
  {
    if Truthy(message) then message.value else DefaultErrorMessage
  }

  /** The expiry test, case-insensitive. */
  predicate SignalsExpiry(message: string) {
    Contains(ToLower(message), ExpiryMarker)
  }

  /** The expiry test gives the same answer whatever the case of the message. */
  lemma ExpiryIgnoresCase(message: string)
    ensures SignalsExpiry(ToLower(message)) == SignalsExpiry(message)
  {
    ToLowerIdempotent(message);
  }

  /** A message mentioning "expired" in any case signals expiry. */
  lemma ExpiredInAnyCase(message: string, word: string)
    requires ToLower(word) == ExpiryMarker
    requires Contains(message, word)
    ensures SignalsExpiry(message)
  {
    ContainsLowered(message, word);
  }

  /** What a rejected call hands back: the error carrying the message, the
      toast raised and the redirect scheduled (path and delay). */
  datatype Rejection = Rejection(message: string, notice: Option<Notice>, redirect: Option<(string, int)>)

  /** A reply from the server: a body, or a failure with whatever message the
      response carried. */
  datatype Reply<T> = Answered(data: T) | Failed(message: Option<string>)

  /** A call's result as the caller's promise settles. */
  datatype Settled<T> = Resolved(value: T) | Rejected(rejection: Rejection)

  /** The error handler of the response interceptor. */
  method OnRejected(session: SessionStore, message: Option<string>) returns (r: Rejection)
    modifies session
    ensures r.message == ErrorMessage(message)
    ensures SignalsExpiry(r.message) ==>
      session.items == map[] &&
      r.notice == Some(ErrorNotice(r.message)) &&
      r.redirect == Some((Routes.LoginPath, ExpiryRedirectDelayMs))
    ensures !SignalsExpiry(r.message) ==>
      session.items == old(session.items) && r.notice == None && r.redirect == None
  {
    var m := ErrorMessage(message);
    if SignalsExpiry(m) {
      session.Clear();
      r := Rejection(m, Some(ErrorNotice(m)), Some((Routes.LoginPath, ExpiryRedirectDelayMs)));
    } else {
      r := Rejection(m, None, None);
    }
  }

  /** Both interceptors' handlers on a reply: a body resolves to itself, a
      failure always rejects. */
  method Settle<T>(session: SessionStore, reply: Reply<T>) returns (s: Settled<T>)
    modifies session
    ensures s.Resolved? <==> reply.Answered?
    ensures reply.Answered? ==> s.value == reply.data && session.items == old(session.items)
    ensures reply.Failed? ==> s.rejection.message == ErrorMessage(reply.message)
    ensures reply.Failed? && SignalsExpiry(s.rejection.message) ==>
      session.items == map[] &&
      s.rejection.notice == Some(ErrorNotice(s.rejection.message)) &&
      s.rejection.redirect == Some((Routes.LoginPath, ExpiryRedirectDelayMs))
    ensures reply.Failed? && !SignalsExpiry(s.rejection.message) ==>
      session.items == old(session.items) && s.rejection.notice == None && s.rejection.redirect == None
  {
    match reply
    case Answered(data) =>
      s := Resolved(data);
    case Failed(message) =>
      var r := OnRejected(session, message);
      s := Rejected(r);
  }
}
