/** The shared request client (services/api.js): JSON content type and a
    request interceptor that reads the persisted token and
    attaches it as a bearer credential (section 2.1 of RFC 6750). */
module Api {
  import opened Js

  /** What an awaited request gives the caller: the response body, or the
      request error axios rejects with. `response` is undefined when no response
      arrived (a network error), otherwise the error response object. */
  datatype HttpError = HttpError(response: Value)
  datatype Fetch<T> = Resolved(body: T) | Rejected(error: HttpError)

  /** The one key the app persists in device storage. */
  const TokenKey := "token"

  const AuthorizationHeader := "Authorization"

  /** Headers every request of the client starts from. */
  const DefaultHeaders: map<string, string> := map["Content-Type" := "application/json"]

  /** `AsyncStorage.getItem("token")`: the stored string, or null when the slot is empty. */
  function StoredToken(storage: map<string, string>): (t: Option<string>)
    ensures t.Some? <==> TokenKey in storage
    ensures t.Some? ==> t.value == storage[TokenKey]
  {
    if TokenKey in storage then Some(storage[TokenKey]) else None
  }

  /** `if (token)`: a stored, non-empty string. */
  predicate HasToken(t: Option<string>) {
    t.Some? && t.value != ""
  }

  /** The header value the interceptor writes. */
  function BearerValue(token: string): (h: string)
    ensures |h| == 7 + |token| && h[..7] == "Bearer " && h[7..] == token
  {
    "Bearer " + token
  }

  /** The headers a request carries before interceptors run: the client's
      defaults, overridden by what the caller passes. */
  function RequestHeaders(caller: map<string, string>): (r: map<string, string>)
    ensures r.Keys == DefaultHeaders.Keys + caller.Keys
    ensures forall k :: k in caller ==> r[k] == caller[k]
    ensures forall k :: k in DefaultHeaders && k !in caller ==> r[k] == DefaultHeaders[k]
  {
    DefaultHeaders + caller
  }

  /** The header map after the interceptor, as a value. */
  function WithBearer(headers: map<string, string>, token: Option<string>): (r: map<string, string>)
    ensures r.Keys == if HasToken(token) then headers.Keys + {AuthorizationHeader} else headers.Keys
  {
    if HasToken(token) then headers[AuthorizationHeader := BearerValue(token.value)] else headers
  }

  /** With a token the interceptor sets Authorization to "Bearer " + token;
      without one (or with an empty one) it adds nothing. Either way every other
      header keeps its key and value. */
  lemma WithBearerSpec(headers: map<string, string>, token: Option<string>)
    ensures HasToken(token) ==>
      AuthorizationHeader in WithBearer(headers, token) &&
      WithBearer(headers, token)[AuthorizationHeader] == BearerValue(token.value)
    ensures !HasToken(token) ==> WithBearer(headers, token) == headers
    ensures forall k :: k != AuthorizationHeader ==>
      (k in WithBearer(headers, token) <==> k in headers) &&
      (k in headers ==> WithBearer(headers, token)[k] == headers[k])
    ensures WithBearer(headers, token).Keys - {AuthorizationHeader} == headers.Keys - {AuthorizationHeader}
  {
  }

  /** A caller-supplied Authorization header is overwritten by the stored token. */
  lemma CallerAuthorizationOverwritten(caller: map<string, string>, supplied: string, token: string)
    requires token != ""
    ensures WithBearer(RequestHeaders(caller[AuthorizationHeader := supplied]), Some(token))[AuthorizationHeader]
      == BearerValue(token)
  {
  }

  /** Running the interceptor twice with the same token is the same as once. */
  lemma WithBearerIdempotent(headers: map<string, string>, token: Option<string>)
    ensures WithBearer(WithBearer(headers, token), token) == WithBearer(headers, token)
  {
  }

  /** A request's configuration object, which the interceptor updates in place. */
  class Config {
    var url: string
    var headers: map<string, string>
    var data: Value

    constructor (url: string, caller: map<string, string>, data: Value)
      ensures this.url == url && this.headers == RequestHeaders(caller) && this.data == data
    {
      this.url := url;
      this.headers := RequestHeaders(caller);
      this.data := data;
    }
  }

  /** The request interceptor: reads the token slot and, when it holds a
      non-empty token, assigns `config.headers.Authorization`; returns the
      same object. */
  method Intercept(config: Config, storage: map<string, string>) returns (r: Config)
    modifies config
    ensures r == config
    ensures config.headers == WithBearer(old(config.headers), StoredToken(storage))
    ensures config.url == old(config.url) && config.data == old(config.data)
  {
    var token := StoredToken(storage);
    if token.Some? && token.value != "" {
      config.headers := config.headers[AuthorizationHeader := BearerValue(token.value)];
    }
    r := config;
  }

  // The credential grammar of section 2.1 of RFC 6750:
  //   credentials = "Bearer" 1*SP b64token
  //   b64token    = 1*( ALPHA / DIGIT / "-" / "." / "_" / "~" / "+" / "/" ) *"="

  predicate IsB64Char(c: char) {
    ('A' <= c <= 'Z') || ('a' <= c <= 'z') || ('0' <= c <= '9')
    || c == '-' || c == '.' || c == '_' || c == '~' || c == '+' || c == '/'
  }

  /** `t[..k]` is one or more token characters and `t[k..]` is all '='. */
  predicate B64TokenSplit(t: string, k: int) {
    1 <= k <= |t| &&
    (forall i :: 0 <= i < k ==> IsB64Char(t[i])) &&
    (forall i :: k <= i < |t| ==> t[i] == '=')
  }

  predicate IsB64Token(t: string) {
    exists k :: 1 <= k <= |t| && B64TokenSplit(t, k)
  }

  /** `h[6..k]` is one or more spaces after "Bearer", and `h[k..]` a b64token. */
  predicate CredentialsSplit(h: string, k: int) {
    7 <= k < |h| && h[..6] == "Bearer" &&
    (forall i :: 6 <= i < k ==> h[i] == ' ') && IsB64Token(h[k..])
  }

  predicate IsCredentials(h: string) {
    exists k :: 7 <= k < |h| && CredentialsSplit(h, k)
  }

  /** `t[..n]` is spaces and `t[n..]` a b64token. */
  predicate SpacedB64Token(t: string, n: int) {
    0 <= n < |t| && (forall i :: 0 <= i < n ==> t[i] == ' ') && IsB64Token(t[n..])
  }

  /** The interceptor's header is a well-formed bearer credential exactly when
      the stored token is a b64token after any leading spaces (the grammar's
      `1*SP` absorbs them); so a b64token always gives one, and for a token
      that does not start with a space the two are equivalent. The client
      itself does not check. */
  lemma BearerValueIsCredentials(token: string)
    ensures IsCredentials(BearerValue(token)) <==> exists n :: 0 <= n < |token| && SpacedB64Token(token, n)
    ensures IsB64Token(token) ==> IsCredentials(BearerValue(token))
    ensures token == "" || token[0] != ' ' ==> (IsCredentials(BearerValue(token)) <==> IsB64Token(token))
  {
    var h := BearerValue(token);
    if n :| 0 <= n < |token| && SpacedB64Token(token, n) {
      assert h[7 + n..] == token[n..];
      forall i | 6 <= i < 7 + n ensures h[i] == ' ' {
        if i > 6 {
          assert h[i] == token[i - 7];
        }
      }
      assert CredentialsSplit(h, 7 + n);
    }
    if IsCredentials(h) {
      var k :| 7 <= k < |h| && CredentialsSplit(h, k);
      assert token[k - 7..] == h[k..];
      forall i | 0 <= i < k - 7 ensures token[i] == ' ' {
        assert token[i] == h[7 + i];
      }
      assert SpacedB64Token(token, k - 7);
    }
    if IsB64Token(token) {
      assert token[0..] == token;
      assert SpacedB64Token(token, 0);
    }
    if token != [] && token[0] != ' ' {
      if n :| 0 <= n < |token| && SpacedB64Token(token, n) {
        assert n == 0;
        assert token[0..] == token;
      }
    }
  }

  /** A leading space is absorbed by the separator: " a" is not a b64token,
      yet "Bearer  a" is a credential. */
  lemma LeadingSpaceAbsorbed()
    ensures !IsB64Token(" a") && IsCredentials(BearerValue(" a"))
  {
    BearerValueIsCredentials(" a");
    assert !IsB64Char(" a"[0]);
    assert " a"[1..] == "a";
    assert B64TokenSplit("a", 1);
    assert SpacedB64Token(" a", 1);
  }

  /** Reading the token back out of an Authorization value: the inverse of BearerValue. */
  function ParseBearer(h: string): (t: Option<string>)
    ensures t.Some? ==> BearerValue(t.value) == h
  {
    if |h| >= 7 && h[..7] == "Bearer " then Some(h[7..]) else None
  }

  lemma ParseBearerRoundTrip(token: string)
    ensures ParseBearer(BearerValue(token)) == Some(token)
  {
  }
}
