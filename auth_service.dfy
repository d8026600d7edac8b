/**
 * The pure parts of the authentication service: the OAuth authorize URL, the OAuth callback
 * parser, the JWT (RFC 7519) payload checks, and the limit clamp of user search.
 * `atob` + `decodeURIComponent` + `JSON.parse` on the payload segment is one abstract
 * function `decode`, and the wall clock is the parameter `nowMs` (milliseconds).
 */
module AuthService {
  import opened Wrappers
  import opened Strings
  import opened QueryParams
  import Pagination

  // ---------------------------------------------------------------------------
  // OAuth authorize URL
  // ---------------------------------------------------------------------------

  datatype OAuthProvider = Google | Kakao | Apple

  function ProviderName(p: OAuthProvider): string {
    match p
    case Google => "google"
    case Kakao => "kakao"
    case Apple => "apple"
  }

  /** Text `encodeURIComponent` can produce: it percent-encodes `&`, `=` and `?`. */
  predicate UriComponentSafe(s: string) {
    '&' !in s && '=' !in s && '?' !in s
  }

  /** `getOAuthUrl`: `<base>auth/oauth/<provider>/authorize?client_redirect=<encoded>`, where
      `encodedRedirect` is `encodeURIComponent(client_redirect)`. */
  function GetOAuthUrl(baseUrl: string, provider: OAuthProvider, encodedRedirect: string): (url: string)
    ensures baseUrl <= url
    ensures |url| >= |encodedRedirect| && url[|url| - |encodedRedirect|..] == encodedRedirect
    ensures '?' !in baseUrl && '?' !in encodedRedirect ==>
      Split(url, '?') == [AuthorizePath(baseUrl, provider), "client_redirect=" + encodedRedirect]
  {
    var path := AuthorizePath(baseUrl, provider);
    var query := "client_redirect=" + encodedRedirect;
    UrlPieces(baseUrl, path, "client_redirect=", encodedRedirect);
    if '?' !in baseUrl && '?' !in encodedRedirect then
      assert '?' !in "client_redirect=";
      SplitAtQuery(path, query);
      path + "?" + query
    else path + "?" + query
  }

  /** A URL with a single `?` splits into the part before it and the query. */
  lemma SplitAtQuery(path: string, query: string)
    requires '?' !in path && '?' !in query
    ensures Split(path + "?" + query, '?') == [path, query]
  {
    SplitAtFirst(path, '?', query);
  }

  /** The prefix and suffix facts `GetOAuthUrl` needs, over plain sequences. */
  lemma UrlPieces(base: string, path: string, key: string, value: string)
    requires base <= path
    ensures var url := path + "?" + (key + value);
      && base <= url
      && |url| >= |value| && url[|url| - |value|..] == value
      && ('?' !in key && '?' !in value ==> '?' !in key + value)
  {
    var url := path + "?" + (key + value);
    assert url[..|base|] == path[..|base|];
    assert url[|url| - |value|..] == value;
  }

  /** `<base>auth/oauth/<provider>/authorize`: the part before the query. */
  function AuthorizePath(baseUrl: string, provider: OAuthProvider): (path: string)
    ensures baseUrl <= path
    ensures '?' !in baseUrl ==> '?' !in path
  {
    var path := baseUrl + "auth/oauth/" + ProviderName(provider) + "/authorize";
    assert path[..|baseUrl|] == baseUrl;
    path
  }

  lemma AuthorizePathShape(baseUrl: string, provider: OAuthProvider, e: string)
    requires '?' !in baseUrl
    ensures '?' !in AuthorizePath(baseUrl, provider)
    ensures GetOAuthUrl(baseUrl, provider, e) == AuthorizePath(baseUrl, provider) + "?" + ("client_redirect=" + e)
  {
  }

  lemma RedirectSerialized(e: string)
    ensures Serialize([Param("client_redirect", e)]) == "client_redirect=" + e
  {
  }

  lemma RedirectVerbatim(e: string)
    requires UriComponentSafe(e)
    ensures ParseQuery(Serialize([Param("client_redirect", e)])) == [Param("client_redirect", e)]
  {
    var ps := [Param("client_redirect", e)];
    assert Verbatim(ps[0]);
    ParseSerialize(ps);
  }

  lemma RedirectQuery(e: string)
    requires UriComponentSafe(e)
    ensures ParseQuery("client_redirect=" + e) == [Param("client_redirect", e)]
  {
    RedirectSerialized(e);
    RedirectVerbatim(e);
  }

  /** For a base URL without `?`, the query of the authorize URL carries exactly one pair,
      `client_redirect`, whose value is the encoded redirect. */
  lemma OAuthUrlQuery(baseUrl: string, provider: OAuthProvider, encodedRedirect: string)
    requires '?' !in baseUrl && UriComponentSafe(encodedRedirect)
    ensures var url := GetOAuthUrl(baseUrl, provider, encodedRedirect);
      && '?' in url
      && ParseQuery(Split(url, '?')[1]) == [Param("client_redirect", encodedRedirect)]
  {
    AuthorizePathShape(baseUrl, provider, encodedRedirect);
    SplitSecond(AuthorizePath(baseUrl, provider), '?', "client_redirect=" + encodedRedirect, "");
    RedirectQuery(encodedRedirect);
  }

  // ---------------------------------------------------------------------------
  // OAuth callback
  // ---------------------------------------------------------------------------

  /** The five values the OAuth redirect carries. */
  datatype OAuthCallback = OAuthCallback(
    token: string,
    userId: string,
    nickname: string,
    provider: string,
    isNewUser: bool)

  /** The query of the callback URL: the text between the first and the second `?`. */
  function CallbackQuery(url: string): (q: Option<string>)
    ensures q.Some? <==> '?' in url
    ensures q.Some? ==> '?' !in q.value
  {
    if '?' in url then Some(Split(url, '?')[1]) else None
  }

  /** The checks `parseOAuthCallback` makes on the parsed query: `None` when any of
      `token`, `user_id`, `nickname`, `provider` and `is_new_user` is missing or empty,
      otherwise those values, with `is_new_user` true exactly for the text `"true"`. */
  function CallbackFromParams(ps: seq<Param>): (r: Option<OAuthCallback>)
    ensures r.Some? <==>
      && !IsBlank(Get(ps, "token")) && !IsBlank(Get(ps, "user_id")) && !IsBlank(Get(ps, "nickname"))
      && !IsBlank(Get(ps, "provider")) && !IsBlank(Get(ps, "is_new_user"))
    ensures r.Some? ==>
      && Get(ps, "token") == Some(r.value.token)
      && Get(ps, "user_id") == Some(r.value.userId)
      && Get(ps, "nickname") == Some(r.value.nickname)
      && Get(ps, "provider") == Some(r.value.provider)
      && (r.value.isNewUser <==> Get(ps, "is_new_user") == Some("true"))
  {
    var token := Get(ps, "token");
    var userId := Get(ps, "user_id");
    var nickname := Get(ps, "nickname");
    var provider := Get(ps, "provider");
    var isNewUser := Get(ps, "is_new_user");
    if IsBlank(token) || IsBlank(userId) || IsBlank(nickname) || IsBlank(provider) || IsBlank(isNewUser) then
      None
    else
      Some(OAuthCallback(token.value, userId.value, nickname.value, provider.value, isNewUser.value == "true"))
  }

  /** `parseOAuthCallback`: `None` for a URL without `?`; otherwise the checks above on the
      query between the first and the second `?`. */
  function ParseOAuthCallback(url: string): (r: Option<OAuthCallback>)
    ensures '?' !in url ==> r.None?
    ensures '?' in url ==> r == CallbackFromParams(ParseQuery(Split(url, '?')[1]))
  {
    match CallbackQuery(url)
    case None => None
    case Some(query) => CallbackFromParams(ParseQuery(query))
  }

  /** Only the text between the first and the second `?` is read: whatever follows a second
      `?` is ignored. */
  lemma CallbackReadsFirstQuery(prefix: string, query: string, rest: string)
    requires '?' !in prefix && '?' !in query
    ensures ParseOAuthCallback(prefix + "?" + query + "?" + rest) == ParseOAuthCallback(prefix + "?" + query)
  {
    SplitSecond(prefix, '?', query, rest);
  }

  /** The pairs a redirect carrying `c` puts in its query. */
  function CallbackParams(c: OAuthCallback): seq<Param> {
    [Param("token", c.token), Param("user_id", c.userId), Param("nickname", c.nickname),
     Param("provider", c.provider), Param("is_new_user", if c.isNewUser then "true" else "false")]
  }

  /** A value that travels through a query without percent-encoding and is truthy. */
  predicate CallbackValue(s: string) {
    s != "" && '&' !in s && '?' !in s
  }

  /** The serialized callback pairs hold no `?`. */
  lemma CallbackQueryFree(c: OAuthCallback)
    requires CallbackValue(c.token) && CallbackValue(c.userId) && CallbackValue(c.nickname)
    requires CallbackValue(c.provider)
    ensures '?' !in Serialize(CallbackParams(c))
  {
    var ps := CallbackParams(c);
    assert forall i :: 0 <= i < |ps| ==> '?' !in ps[i].name && '?' !in ps[i].value;
    SerializeFreeOf(ps, '?');
  }

  /** The five names are distinct, so `get` finds each value where it was put. */
  lemma CallbackParamGet(c: OAuthCallback, i: nat)
    requires i < 5
    ensures Get(CallbackParams(c), CallbackParams(c)[i].name) == Some(CallbackParams(c)[i].value)
  {
    var ps := CallbackParams(c);
    forall j | 0 <= j < i ensures ps[j].name != ps[i].name {
      assert |ps[j].name| != |ps[i].name| || ps[j].name[0] != ps[i].name[0];
    }
    GetAt(ps, i, ps[i].name);
  }

  lemma CallbackPairsRoundTrip(c: OAuthCallback)
    requires CallbackValue(c.token) && CallbackValue(c.userId) && CallbackValue(c.nickname)
    requires CallbackValue(c.provider)
    ensures ParseQuery(Serialize(CallbackParams(c))) == CallbackParams(c)
  {
    var ps := CallbackParams(c);
    assert Verbatim(Param("token", c.token));
    assert Verbatim(Param("user_id", c.userId));
    assert Verbatim(Param("nickname", c.nickname));
    assert Verbatim(Param("provider", c.provider));
    assert Verbatim(Param("is_new_user", if c.isNewUser then "true" else "false"));
    assert forall i :: 0 <= i < |ps| ==> Verbatim(ps[i]);
    ParseSerialize(ps);
  }

  /** Any pairs whose `get` yields the five non-empty fields of `c` read back as `c`. */
  lemma CallbackFromFields(ps: seq<Param>, c: OAuthCallback)
    requires c.token != "" && c.userId != "" && c.nickname != "" && c.provider != ""
    requires Get(ps, "token") == Some(c.token) && Get(ps, "user_id") == Some(c.userId)
    requires Get(ps, "nickname") == Some(c.nickname) && Get(ps, "provider") == Some(c.provider)
    requires Get(ps, "is_new_user") == Some(if c.isNewUser then "true" else "false")
    ensures CallbackFromParams(ps) == Some(c)
  {
  }

  lemma CallbackFromOwnParams(c: OAuthCallback)
    requires CallbackValue(c.token) && CallbackValue(c.userId) && CallbackValue(c.nickname)
    requires CallbackValue(c.provider)
    ensures CallbackFromParams(CallbackParams(c)) == Some(c)
  {
    CallbackParamGet(c, 0);
    CallbackParamGet(c, 1);
    CallbackParamGet(c, 2);
    CallbackParamGet(c, 3);
    CallbackParamGet(c, 4);
    CallbackFromFields(CallbackParams(c), c);
  }

  /** Round trip: a callback URL built from `c` parses back to `c`. */
  lemma CallbackRoundTrip(prefix: string, c: OAuthCallback)
    requires '?' !in prefix
    requires CallbackValue(c.token) && CallbackValue(c.userId) && CallbackValue(c.nickname)
    requires CallbackValue(c.provider)
    ensures ParseOAuthCallback(prefix + "?" + Serialize(CallbackParams(c))) == Some(c)
  {
    var ps := CallbackParams(c);
    var query := Serialize(ps);
    CallbackQueryFree(c);
    SplitSecond(prefix, '?', query, "");
    CallbackPairsRoundTrip(c);
    CallbackFromOwnParams(c);
  }

  // ---------------------------------------------------------------------------
  // JWT payload
  // ---------------------------------------------------------------------------

  /** The claims the client reads from a decoded payload; each may be absent. */
  datatype Claims = Claims(exp: Option<int>, userId: Option<int>, email: Option<string>, role: Option<string>)

  /** `s.replace(/from/g, to)` for one character. */
  function ReplaceAll(s: string, from: char, to: char): (r: string)
    ensures |r| == |s|
    ensures forall i :: 0 <= i < |s| ==> r[i] == if s[i] == from then to else s[i]
  {
    if |s| == 0 then [] else [if s[0] == from then to else s[0]] + ReplaceAll(s[1..], from, to)
  }

  /** The base64url alphabet of section 5 of RFC 4648, with the `=` pad. */
  predicate IsBase64UrlChar(c: char) {
    ('A' <= c <= 'Z') || ('a' <= c <= 'z') || ('0' <= c <= '9') || c == '-' || c == '_' || c == '='
  }

  /** The base64 alphabet of section 4 of RFC 4648, with the `=` pad. */
  predicate IsBase64Char(c: char) {
    ('A' <= c <= 'Z') || ('a' <= c <= 'z') || ('0' <= c <= '9') || c == '+' || c == '/' || c == '='
  }

  /** `base64Url.replace(/-/g, "+").replace(/_/g, "/")`. */
  function Base64UrlToBase64(s: string): (r: string)
    ensures |r| == |s|
    ensures '-' !in r && '_' !in r
    ensures forall i :: 0 <= i < |s| ==>
      r[i] == (if s[i] == '-' then '+' else if s[i] == '_' then '/' else s[i])
  {
    var r := ReplaceAll(ReplaceAll(s, '-', '+'), '_', '/');
    assert forall i :: 0 <= i < |r| ==> r[i] != '-' && r[i] != '_';
    r
  }

  /** The mapping takes base64url text to base64 text, one character for one, and is
      injective on the base64url alphabet, so no two encodings collide. */
  lemma Base64UrlAlphabet(s: string, t: string)
    requires forall i :: 0 <= i < |s| ==> IsBase64UrlChar(s[i])
    requires forall i :: 0 <= i < |t| ==> IsBase64UrlChar(t[i])
    ensures forall i :: 0 <= i < |s| ==> IsBase64Char(Base64UrlToBase64(s)[i])
    ensures Base64UrlToBase64(s) == Base64UrlToBase64(t) ==> s == t
  {
    var a := Base64UrlToBase64(s);
    var b := Base64UrlToBase64(t);
    if a == b {
      assert |s| == |t|;
      forall i | 0 <= i < |s| ensures s[i] == t[i] {
        assert a[i] == b[i];
      }
    }
  }

  /** `token.split(".")[1]`, mapped to base64 and decoded; `None` where the source throws
      (no second segment) or `decode` fails. */
  function DecodeClaims(token: string, decode: string -> Option<Claims>): (r: Option<Claims>)
    ensures '.' !in token ==> r.None?
    ensures '.' in token ==> r == decode(Base64UrlToBase64(Split(token, '.')[1]))
  {
    if '.' in token then decode(Base64UrlToBase64(Split(token, '.')[1])) else None
  }

  /** Of a `header.payload.signature` token, only the payload segment is decoded. */
  lemma DecodeClaimsOfCompact(header: string, payload: string, signature: string,
                              decode: string -> Option<Claims>)
    requires '.' !in header && '.' !in payload
    ensures DecodeClaims(header + "." + payload + "." + signature, decode)
         == decode(Base64UrlToBase64(payload))
  {
    var token := header + "." + payload + "." + signature;
    assert token == header + "." + (payload + "." + signature);
    assert token[|header|] == '.';
    SplitAtFirst(header, '.', payload + "." + signature);
    SplitAtFirst(payload, '.', signature);
  }

  /** `Math.floor(Date.now() / 1000)`: whole seconds, rounding down. */
  function NowSeconds(nowMs: int): int {
    nowMs / 1000
  }

  /** `isTokenValid`: the payload decodes and its `exp` is after the current second. */
  function IsTokenValid(token: string, decode: string -> Option<Claims>, nowMs: int): (valid: bool)
    ensures '.' !in token ==> !valid
    ensures valid ==> DecodeClaims(token, decode).Some? && DecodeClaims(token, decode).value.exp.Some?
  {
    match DecodeClaims(token, decode)
    case None => false
    case Some(claims) => claims.exp.Some? && claims.exp.value > NowSeconds(nowMs)
  }

  /** Valid exactly when the expiry instant, in milliseconds, is strictly after now: a token
      is already invalid during its `exp` second. */
  lemma ValidIffExpiryAfterNow(token: string, decode: string -> Option<Claims>, nowMs: int)
    ensures IsTokenValid(token, decode, nowMs) <==>
      && DecodeClaims(token, decode).Some?
      && DecodeClaims(token, decode).value.exp.Some?
      && DecodeClaims(token, decode).value.exp.value * 1000 > nowMs
  {
    var s := nowMs / 1000;
    assert 1000 * s <= nowMs < 1000 * s + 1000;
  }

  /** A token valid now was valid at every earlier instant. */
  lemma ValidityMonotone(token: string, decode: string -> Option<Claims>, earlier: int, later: int)
    requires earlier <= later && IsTokenValid(token, decode, later)
    ensures IsTokenValid(token, decode, earlier)
  {
    ValidIffExpiryAfterNow(token, decode, earlier);
    ValidIffExpiryAfterNow(token, decode, later);
  }

  /** The fields `extractUserFromToken` returns; each is whatever the payload held. */
  datatype TokenUser = TokenUser(userId: Option<int>, email: Option<string>, role: Option<string>)

  /** `extractUserFromToken`: `None` exactly when the payload cannot be decoded. */
  function ExtractUserFromToken(token: string, decode: string -> Option<Claims>): (r: Option<TokenUser>)
    ensures r.Some? <==> DecodeClaims(token, decode).Some?
    ensures r.Some? ==> var c := DecodeClaims(token, decode).value;
      r.value == TokenUser(c.userId, c.email, c.role)
  {
    match DecodeClaims(token, decode)
    case None => None
    case Some(c) => Some(TokenUser(c.userId, c.email, c.role))
  }

  /** A valid token always yields a user record. */
  lemma ValidTokenHasUser(token: string, decode: string -> Option<Claims>, nowMs: int)
    requires IsTokenValid(token, decode, nowMs)
    ensures ExtractUserFromToken(token, decode).Some?
  {
  }

  // ---------------------------------------------------------------------------
  // User search
  // ---------------------------------------------------------------------------

  /** The `limit` `searchUsers` sends: the request's limit clamped to [1, 50], 20 when missing
      or 0. */
  function SearchUsersLimit(limit: Option<int>): (r: int)
    ensures 1 <= r <= 50
    ensures limit.None? || limit.value == 0 ==> r == 20
    ensures limit.Some? && 1 <= limit.value <= 50 ==> r == limit.value
    ensures limit.Some? && limit.value < 0 ==> r == 1
    ensures limit.Some? && limit.value > 50 ==> r == 50
  {
    Pagination.Min(Pagination.Max(Pagination.OrDefault(limit, 20), 1), 50)
  }

  /** The inline clamp agrees with the shared validator under the `USER_SEARCH` limits. */
  lemma SearchUsersLimitIsValidated(limit: Option<int>)
    ensures SearchUsersLimit(limit)
         == Pagination.ValidatePaginationParams(Pagination.PaginationParams(limit, None), Pagination.UserSearch).limit
  {
  }
}
