/**
  The HTTP client's token handling: the token read from the cookie string,
  the choice of token for an outgoing request (cookie first, then the stored
  token, none for the login and signup endpoints), the token read from a
  response (bearer header first, then the body), and what a response or a
  401 does to the stored token and the default header.

  The cookie string, the stored token and the response headers are inputs;
  the browser storage and the client's default header are the fields of
  `TokenStore`.
 */
module AuthTokens {
  import opened Common
  import opened Strings

  const COOKIE_SEPARATOR := "; "
  const JWT_PREFIX := "jwt="
  const BEARER := "Bearer "
  const LOGIN_PATH := "/auth/login"
  const SIGNUP_PATH := "/auth/signup"
  const UNAUTHORIZED := 401

  /** The first cookie that starts with `jwt=`. */
  function FirstJwtCookie(cookies: seq<string>): (r: Option<nat>)
    ensures r.Some? ==> r.value < |cookies| && StartsWith(cookies[r.value], JWT_PREFIX)
    ensures r.Some? ==> forall j :: 0 <= j < r.value ==> !StartsWith(cookies[j], JWT_PREFIX)
    ensures r.None? ==> forall j :: 0 <= j < |cookies| ==> !StartsWith(cookies[j], JWT_PREFIX)
  {
    if cookies == [] then None
    else if StartsWith(cookies[0], JWT_PREFIX) then Some(0)
    else match FirstJwtCookie(cookies[1..])
      case None => None
      case Some(k) => Some(k + 1)
  }

  /** In a cookie that starts with `jwt=`, the first '=' is the one at index 3. */
  lemma JwtCookieFirstEquals(p: string)
    requires StartsWith(p, JWT_PREFIX)
    ensures IndexOf(p, "=") == Some(3)
  {
    assert p[..4] == JWT_PREFIX;
    assert OccursAt(p, "=", 3);
    forall j | 0 <= j < 3
      ensures !OccursAt(p, "=", j)
    {
      assert p[j] == JWT_PREFIX[j];
    }
  }

  /** `getTokenFromCookies`: in the first `jwt=` cookie, the text between
      its first and second '=' (or the end); `None` without such a cookie. */
  function TokenFromCookies(cookie: string): (r: Option<string>)
    ensures r.None? <==> FirstJwtCookie(Split(cookie, COOKIE_SEPARATOR)).None?
    ensures r.Some? ==>
      var p := Split(cookie, COOKIE_SEPARATOR)[FirstJwtCookie(Split(cookie, COOKIE_SEPARATOR)).value];
      var rest := p[|JWT_PREFIX|..];
      r.value == (if IndexOf(rest, "=").Some? then rest[..IndexOf(rest, "=").value] else rest)
    ensures r.Some? ==> !Contains(r.value, "=")
  {
    var cookies := Split(cookie, COOKIE_SEPARATOR);
    match FirstJwtCookie(cookies)
    case None => None
    case Some(i) =>
      JwtCookieFirstEquals(cookies[i]);
      SplitFirstPieces(cookies[i], "=");
      SplitPiecesFree(cookies[i], "=");
      Some(Split(cookies[i], "=")[1])
  }

  /** A string that starts with a prefix free of some character contains
      that character's pattern only where the rest does. */
  lemma NoSeparatorAfterPrefix(t: string)
    requires !Contains(t, COOKIE_SEPARATOR)
    ensures !Contains(JWT_PREFIX + t, COOKIE_SEPARATOR)
  {
    var s := JWT_PREFIX + t;
    forall i | 0 <= i <= |s| - 2
      ensures !OccursAt(s, COOKIE_SEPARATOR, i)
    {
      if i < 4 {
        assert s[i] == JWT_PREFIX[i];
      } else {
        assert s[i..i + 2] == t[i - 4..i - 2];
        assert !OccursAt(t, COOKIE_SEPARATOR, i - 4);
      }
    }
  }

  /** A single `jwt=` cookie gives back its token. */
  lemma TokenCookieRoundTrip(t: string)
    requires !Contains(t, "=") && !Contains(t, COOKIE_SEPARATOR)
    ensures TokenFromCookies(JWT_PREFIX + t) == Some(t)
  {
    var c := JWT_PREFIX + t;
    NoSeparatorAfterPrefix(t);
    SplitNoSeparator(c, COOKIE_SEPARATOR);
    assert StartsWith(c, JWT_PREFIX);
    assert c[|JWT_PREFIX|..] == t;
  }

  /** The request path is a login or signup endpoint. */
  predicate IsAuthEndpoint(url: string)
  {
    Contains(url, LOGIN_PATH) || Contains(url, SIGNUP_PATH)
  }

  predicate TruthyToken(t: Option<string>)
  {
    t.Some? && t.value != ""
  }

  /** The token a request carries: the cookie's when truthy, else the
      stored one when truthy, else none. */
  function RequestToken(cookieToken: Option<string>, stored: Option<string>): (r: Option<string>)
    ensures TruthyToken(cookieToken) ==> r == cookieToken
    ensures !TruthyToken(cookieToken) && TruthyToken(stored) ==> r == stored
    ensures r.None? <==> !TruthyToken(cookieToken) && !TruthyToken(stored)
  {
    if TruthyToken(cookieToken) then cookieToken
    else if TruthyToken(stored) then stored
    else None
  }

  /** The token a response carries: from an `authorization` header of the
      form "Bearer <token>", else from the body's `token`; `dataToken` is ""
      when the body has none. */
  function ResponseToken(authHeader: Option<string>, dataToken: string): (r: Option<string>)
    ensures r.Some? ==> r.value != ""
    ensures TruthyToken(authHeader) && StartsWith(authHeader.value, BEARER) && |authHeader.value| > |BEARER| ==>
              r == Some(authHeader.value[|BEARER|..])
    ensures !(TruthyToken(authHeader) && StartsWith(authHeader.value, BEARER) && |authHeader.value| > |BEARER|) ==>
              r == (if dataToken != "" then Some(dataToken) else None)
  {
    var fromHeader := if TruthyToken(authHeader) && StartsWith(authHeader.value, BEARER)
                      then authHeader.value[|BEARER|..] else "";
    if fromHeader != "" then Some(fromHeader)
    else if dataToken != "" then Some(dataToken)
    else None
  }

  /** What a request interceptor does to the `Authorization` header:
      `None` leaves it as it is. */
  function RequestAuthorization(url: string, cookie: string, stored: Option<string>): (r: Option<string>)
    ensures IsAuthEndpoint(url) ==> r.None?
    ensures !IsAuthEndpoint(url) ==>
      (r.Some? <==> RequestToken(TokenFromCookies(cookie), stored).Some?)
    ensures r.Some? ==> r.value == BEARER + RequestToken(TokenFromCookies(cookie), stored).value
  {
    if IsAuthEndpoint(url) then None
    else match RequestToken(TokenFromCookies(cookie), stored)
      case Some(token) => Some(BEARER + token)
      case None => None
  }

  /** The `Authorization` header a request goes out with: the
      interceptor's when it sets one, else the client's default header. */
  function SentAuthorization(url: string, cookie: string, stored: Option<string>,
                             defaultAuthorization: Option<string>): (r: Option<string>)
    ensures IsAuthEndpoint(url) ==> r == defaultAuthorization
    ensures RequestAuthorization(url, cookie, stored).Some? ==> r == RequestAuthorization(url, cookie, stored)
    ensures RequestAuthorization(url, cookie, stored).None? ==> r == defaultAuthorization
  {
    match RequestAuthorization(url, cookie, stored)
    case Some(h) => Some(h)
    case None => defaultAuthorization
  }

  /** A bearer header built for a request reads back as the same token. */
  lemma BearerRoundTrip(t: string, dataToken: string)
    requires t != ""
    ensures ResponseToken(Some(BEARER + t), dataToken) == Some(t)
  {
    assert (BEARER + t)[..|BEARER|] == BEARER;
    assert (BEARER + t)[|BEARER|..] == t;
  }

  class TokenStore {
    /** localStorage "token" */
    var storedToken: Option<string>
    /** the client's default `Authorization` header */
    var defaultAuthorization: Option<string>

    constructor ()
      ensures storedToken.None? && defaultAuthorization.None?
    {
      storedToken := None;
      defaultAuthorization := None;
    }

    /** The request interceptor, applied to a request that starts out with
        the default header; `authorization` is the header it goes out with. */
    method OnRequest(url: string, cookie: string) returns (authorization: Option<string>)
      ensures authorization == SentAuthorization(url, cookie, storedToken, defaultAuthorization)
    {
      authorization := defaultAuthorization;
      if Contains(url, LOGIN_PATH) || Contains(url, SIGNUP_PATH) {
        return;
      }
      var token := TokenFromCookies(cookie);
      if !TruthyToken(token) {
        token := storedToken;
      }
      if TruthyToken(token) {
        authorization := Some(BEARER + token.value);
      }
    }

    /** The response interceptor: a token found is stored and becomes the
        default header. */
    method OnResponse(authHeader: Option<string>, dataToken: string) returns (token: Option<string>)
      modifies this
      ensures token == ResponseToken(authHeader, dataToken)
      ensures token.Some? ==> storedToken == token && defaultAuthorization == Some(BEARER + token.value)
      ensures token.None? ==> storedToken == old(storedToken) && defaultAuthorization == old(defaultAuthorization)
    {
      token := None;
      if TruthyToken(authHeader) && StartsWith(authHeader.value, BEARER) {
        token := Some(authHeader.value[|BEARER|..]);
      }
      if !TruthyToken(token) && dataToken != "" {
        token := Some(dataToken);
      }
      if TruthyToken(token) {
        storedToken := token;
        defaultAuthorization := Some(BEARER + token.value);
      } else {
        token := None;
      }
    }

    /** The error interceptor: a 401 forgets the stored token; the default
        header is kept. */
    method OnResponseError(status: Option<int>)
      modifies this
      ensures status == Some(UNAUTHORIZED) ==> storedToken.None?
      ensures status != Some(UNAUTHORIZED) ==> storedToken == old(storedToken)
      ensures defaultAuthorization == old(defaultAuthorization)
    {
      if status == Some(UNAUTHORIZED) {
        storedToken := None;
      }
    }
  }

  /** A token stored from a response is what the next request carries when
      the cookie has no token. After a 401 the interceptor adds no header,
      yet the default header the response set still carries the old bearer. */
  lemma StoredTokenUsedNext(url: string, cookie: string, t: string, defaultAuthorization: Option<string>)
    requires t != "" && !IsAuthEndpoint(url) && !TruthyToken(TokenFromCookies(cookie))
    ensures SentAuthorization(url, cookie, Some(t), defaultAuthorization) == Some(BEARER + t)
    ensures RequestAuthorization(url, cookie, None).None?
    ensures SentAuthorization(url, cookie, None, Some(BEARER + t)) == Some(BEARER + t)
  {
  }
}
