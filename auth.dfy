/**
 * Token handling of the SQL server (server2/auth.js): reading the token
 * from a Cookie header (section 5.4 of RFC 6265) or from an
 * `Authorization: Bearer` header (section 2.1 of RFC 6750), and the
 * null-on-failure wrapper around the JSON Web Token library. Signing and
 * verification themselves are a parameter: no cryptography is modelled.
 */
module Auth {
  import opened Wrappers
  import opened Text
  import opened PercentCoding
  import opened JsValues

  // ---------------------------------------------------------------------
  // Cookie header

  /** What `extractTokenFromCookie` gives: null, a string, or a thrown URIError. */
  datatype CookieToken = NoToken | Token(value: string) | UriError

  /** `const [name, value] = cookie.split('=')`: the name. */
  function PairName(cookie: string): string {
    Split(cookie, '=')[0]
  }

  /**
   * The value as `decodeURIComponent` receives it: the text between the
   * first and second '=', or `String(undefined)` when there is no '='.
   */
  function PairValue(cookie: string): string {
    var parts := Split(cookie, '=');
    if |parts| == 1 then "undefined" else parts[1]
  }

  /** `decodeURIComponent(value)`, which throws on a malformed escape. */
  function DecodeValue(raw: string): CookieToken {
    match DecodeURIComponent(raw)
    case None => UriError
    case Some(v) => Token(v)
  }

  /** `cookies.map(c => c.trim())`. */
  function TrimAll(parts: seq<string>): (r: seq<string>)
    ensures |r| == |parts| && forall i :: 0 <= i < |r| ==> r[i] == JsTrim(parts[i])
  {
    seq(|parts|, i requires 0 <= i < |parts| => JsTrim(parts[i]))
  }

  /** The loop over the trimmed cookies, returning at the first one named `token`. */
  function ScanCookies(cookies: seq<string>): CookieToken {
    if cookies == [] then NoToken
    else if PairName(cookies[0]) == "token" then DecodeValue(PairValue(cookies[0]))
    else ScanCookies(cookies[1..])
  }

  /** `extractTokenFromCookie(cookieHeader)`; an absent or empty header gives null. */
  function ExtractTokenFromCookie(header: Option<string>): CookieToken {
    if header.None? || header.value == "" then NoToken
    else ScanCookies(TrimAll(Split(header.value, ';')))
  }

  /**
   * The first cookie named exactly `token` decides the result; cookies
   * before it, whatever their names, are skipped, and later duplicates are
   * never looked at.
   */
  lemma {:induction false} FirstTokenWins(cookies: seq<string>, i: nat)
    requires i < |cookies| && PairName(cookies[i]) == "token"
    requires forall j :: 0 <= j < i ==> PairName(cookies[j]) != "token"
    ensures ScanCookies(cookies) == DecodeValue(PairValue(cookies[i]))
  {
    if i > 0 {
      FirstTokenWins(cookies[1..], i - 1);
    }
  }

  /** Without a cookie named exactly `token` the result is null, and only then. */
  lemma {:induction false} NoTokenIff(cookies: seq<string>)
    ensures ScanCookies(cookies) == NoToken <==>
      forall j :: 0 <= j < |cookies| ==> PairName(cookies[j]) != "token"
  {
    if cookies != [] {
      NoTokenIff(cookies[1..]);
      if PairName(cookies[0]) != "token" {
        forall j | 0 <= j < |cookies| - 1
          ensures PairName(cookies[1..][j]) == PairName(cookies[j + 1])
        {
        }
      }
    }
  }

  /** The value ends at the second '=': `token=a=b` yields `a`. */
  lemma ValueStopsAtSecondEquals(name: string, a: string, b: string)
    requires '=' !in name && '=' !in a
    ensures PairName(name + "=" + a + "=" + b) == name
    ensures PairValue(name + "=" + a + "=" + b) == a
  {
    assert name + "=" + a + "=" + b == name + ['='] + (a + ['='] + b);
    SplitCons(name, a + ['='] + b, '=');
    SplitCons(a, b, '=');
  }

  /** A bare `token` with no '=' yields the string "undefined". */
  lemma BareNameIsUndefined(cookie: string)
    requires '=' !in cookie
    ensures PairName(cookie) == cookie && PairValue(cookie) == "undefined"
  {
    SplitNoSeparator(cookie, '=');
  }

  /** The header `name=v`, when `v` holds no '=', ';' or trailing whitespace. */
  lemma SingleCookie(name: string, v: string)
    requires '=' !in name && ';' !in name && ';' !in v && '=' !in v
    requires name != [] && !IsJsWhitespace(name[0])
    requires v != [] ==> !IsJsWhitespace(v[|v| - 1])
    ensures ExtractTokenFromCookie(Some(name + "=" + v)) == if name == "token" then DecodeValue(v) else NoToken
  {
    var s := name + "=" + v;
    assert ';' !in s by {
      assert forall ch :: ch in s ==> ch in name || ch == '=' || ch in v;
    }
    SplitNoSeparator(s, ';');
    assert s[0] == name[0];
    assert s[|s| - 1] == if v == [] then '=' else v[|v| - 1];
    TrimNoop(s, IsJsWhitespace);
    assert TrimAll([s]) == [s];
    assert s == name + ['='] + v;
    SplitCons(name, v, '=');
    SplitNoSeparator(v, '=');
    assert PairName(s) == name && PairValue(s) == v;
    assert [s][1..] == [];
    assert Split(s, ';') == [s];
    assert TrimAll(Split(s, ';')) == [s];
    assert s != "";
    assert ExtractTokenFromCookie(Some(s)) == ScanCookies([s]);
    assert ScanCookies([s]) == if name == "token" then DecodeValue(v) else ScanCookies([]);
  }

  /** An encoded value holds no ';', no '=' and no whitespace. */
  lemma EncodedIsCookieSafe(v: string)
    ensures var e := EncodeURIComponent(v);
      ';' !in e && '=' !in e && (e != [] ==> !IsJsWhitespace(e[|e| - 1]))
  {
    var e := EncodeURIComponent(v);
    EncodedAlphabet(v);
    forall ch | ch in e
      ensures ch != ';' && ch != '='
    {
      EncodedCharSafe(ch);
    }
    if e != [] {
      assert e[|e| - 1] in e;
      EncodedCharSafe(e[|e| - 1]);
    }
  }

  lemma EncodedCharSafe(ch: char)
    requires IsUnescaped(ch) || ch == '%'
    ensures ch != ';' && ch != '=' && !IsJsWhitespace(ch)
  {
  }

  /** A header holding just the `token` cookie yields its decoded value. */
  lemma TokenCookie(raw: string)
    requires ';' !in raw && '=' !in raw
    requires raw != [] ==> !IsJsWhitespace(raw[|raw| - 1])
    ensures ExtractTokenFromCookie(Some("token=" + raw)) == DecodeValue(raw)
  {
    assert "token=" + raw == "token" + "=" + raw;
    SingleCookie("token", raw);
  }

  /**
   * The server's encoding reads back: the cookie `token=<encodeURIComponent(v)>`
   * yields `v`, because the encoding escapes '=', ';' and whitespace.
   */
  lemma CookieRoundTrip(v: string)
    ensures ExtractTokenFromCookie(Some("token=" + EncodeURIComponent(v))) == Token(v)
  {
    EncodedIsCookieSafe(v);
    TokenCookie(EncodeURIComponent(v));
    DecodeEncode(v);
  }

  /** A malformed escape in the token's value throws instead of giving null. */
  lemma MalformedValueThrows(raw: string)
    requires ';' !in raw && '=' !in raw
    requires raw != [] && !IsJsWhitespace(raw[|raw| - 1])
    requires DecodeURIComponent(raw).None?
    ensures ExtractTokenFromCookie(Some("token=" + raw)) == UriError
  {
    TokenCookie(raw);
  }

  // ---------------------------------------------------------------------
  // Authorization header

  /** `extractTokenFromHeader(authHeader)`: the text after a case-sensitive "Bearer ". */
  function ExtractTokenFromHeader(header: Option<string>): Option<string> {
    if header.None? || header.value == "" then None
    else if StartsWith(header.value, "Bearer ") then Some(header.value[7..])
    else None
  }

  /** The header yields `t` exactly when it is "Bearer " followed by `t`. */
  lemma HeaderIff(header: Option<string>, t: string)
    ensures ExtractTokenFromHeader(header) == Some(t) <==> header == Some("Bearer " + t)
  {
    if header == Some("Bearer " + t) {
      assert ("Bearer " + t)[..7] == "Bearer ";
      assert ("Bearer " + t)[7..] == t;
    }
    if ExtractTokenFromHeader(header) == Some(t) {
      assert header.value == header.value[..7] + header.value[7..];
    }
  }

  /** The scheme is matched case-sensitively: "bearer" is not accepted. */
  lemma LowerCaseSchemeRejected(t: string)
    ensures ExtractTokenFromHeader(Some("bearer " + t)).None?
  {
    assert ("bearer " + t)[0] == 'b';
  }

  // ---------------------------------------------------------------------
  // JSON Web Tokens

  /** What the library's `verify` does: return the payload, or throw. */
  datatype JwtOutcome = Verified(payload: JsValue) | Rejected(error: string)

  /** The token library with the server's secret and expiry bound in. */
  datatype Jwt = Jwt(sign: JsValue -> string, verify: string -> JwtOutcome)

  /** `generateToken(userId, email)`: signs `{ userId, email }`. */
  function GenerateToken(jwt: Jwt, userId: JsValue, email: JsValue): string {
    jwt.sign(Obj([Prop("userId", userId), Prop("email", email)]))
  }

  /** `verifyToken(token)`: never throws; any failure of the library becomes null. */
  function VerifyToken(jwt: Jwt, token: string): (r: Option<JsValue>)
    ensures r.None? <==> jwt.verify(token).Rejected?
    ensures r.Some? ==> r.value == jwt.verify(token).payload
  {
    match jwt.verify(token)
    case Rejected(_) => None
    case Verified(p) => Some(p)
  }

  /**
   * The library's promise for one payload and one member: a token it signed
   * is not empty and verifies, and the member reads back as it survived `JSON.stringify`
   * (the library adds its own `iat` and `exp` members beside it).
   */
  predicate SignsFaithfully(jwt: Jwt, payload: JsValue, k: string) {
    && payload.Obj?
    && jwt.sign(payload) != ""
    && jwt.verify(jwt.sign(payload)).Verified?
    && GetProp(jwt.verify(jwt.sign(payload)).payload, k) == GetProp(Jsonify(payload), k)
  }

  /** A payload whose `userId` is undefined verifies without a `userId`. */
  lemma UndefinedUserIdIsLost(jwt: Jwt, email: JsValue)
    requires SignsFaithfully(jwt, Obj([Prop("userId", Undefined), Prop("email", email)]), "userId")
    ensures var p := VerifyToken(jwt, GenerateToken(jwt, Undefined, email));
      p.Some? && GetProp(p.value, "userId") == Some(Undefined)
  {
    var props := [Prop("userId", Undefined), Prop("email", email)];
    UndefinedMemberDropped(props, "userId");
  }
}
