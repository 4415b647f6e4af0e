/**
 * The HTTP layer of the SQL server (server2/server.js): the `Set-Cookie`
 * header, `authenticateRequest`, the six handlers and the router.
 *
 * A request is its method, its pathname, its Cookie and Authorization
 * headers and its parsed JSON body; a reply is a status, the body as it
 * survives `JSON.stringify`, and the `Set-Cookie` header. Every handler is
 * a method of `Server` proved equal to a pure specification over a
 * snapshot of the server's state (`World`), and the properties of the
 * server are lemmas about those specifications.
 */
module Server {
  import opened Wrappers
  import opened JsValues
  import opened Text
  import opened PercentCoding
  import opened Database
  import opened Auth
  import opened UserStore
  import opened QueryGuard

  const ErrorServer: string := "Internal server error"
  const ErrorAuthentication: string := "Authentication failed"
  const ErrorMethod: string := "Method not allowed"
  const ErrorMissingQuery: string := "SQL query is required"
  const NotFoundMessage: string := "Endpoint not found"
  const MissingCredentials: string := "Email and password are required"
  const EmailTaken: string := "Email already exists"
  /** The message of the URIError `decodeURIComponent` throws. */
  const UriErrorMessage: string := "URI malformed"

  const SignupPath: string := "/api/auth/signup"
  const LoginPath: string := "/api/auth/login"
  const MePath: string := "/api/auth/me"
  const DefaultPath: string := "/api/v1/patients/default"
  const SqlPath: string := "/api/v1/sql"

  /** The request body: parsed JSON, or the error `JSON.parse` (or the stream) raised. */
  datatype Body = Parsed(data: JsValue) | Unparseable(error: string)

  datatype Request = Request(
    httpMethod: string,
    pathname: string,
    cookie: Option<string>,
    authorization: Option<string>,
    body: Body)

  /** What is written back: the status, the JSON body if any, and the `Set-Cookie` header if set. */
  datatype Reply = Reply(status: int, body: Option<JsValue>, setCookie: Option<string>)

  /** `response.writeHead(status); response.end(JSON.stringify(v))`. */
  function Send(status: int, v: JsValue): (r: Reply)
    ensures r.status == status && r.body == Some(Jsonify(v)) && r.setCookie.None?
  {
    Reply(status, Some(Jsonify(v)), None)
  }

  /** `{ success: false, message }`. */
  function Refused(message: string): JsValue {
    Obj([Prop("success", Bool(false)), Prop("message", Str(message))])
  }

  // ---------------------------------------------------------------------
  // setCookie

  const DefaultMaxAge: int := 7 * 24 * 60 * 60 * 1000

  /** The defaults `setCookie` spreads the caller's options over. */
  const DefaultCookieOptions: map<string, JsValue> := map[
    "httpOnly" := Bool(true),
    "secure" := Bool(true),
    "sameSite" := Str("None"),
    "maxAge" := Num(DefaultMaxAge),
    "path" := Str("/")]

  /** `cookieOptions[k]`. */
  function Member(o: map<string, JsValue>, k: string): JsValue {
    if k in o then o[k] else Undefined
  }

  /** `<prefix><value>` when the option is truthy, nothing otherwise. */
  function ValueAttribute(o: map<string, JsValue>, k: string, prefix: string): string {
    if Truthy(Member(o, k)) then prefix + ToString(Member(o, k)) else ""
  }

  /** `<text>` when the option is truthy, nothing otherwise. */
  function FlagAttribute(o: map<string, JsValue>, k: string, text: string): string {
    if Truthy(Member(o, k)) then text else ""
  }

  /** The attributes after the pair, in the order `setCookie` appends them. */
  function Attributes(o: map<string, JsValue>): (a: string)
    ensures a == [] || a[0] == ';'
  {
    ValueAttribute(o, "maxAge", "; Max-Age=")
      + ValueAttribute(o, "path", "; Path=")
      + FlagAttribute(o, "httpOnly", "; HttpOnly")
      + FlagAttribute(o, "secure", "; Secure")
      + ValueAttribute(o, "sameSite", "; SameSite=")
  }

  /** Appending the attributes one by one gives the pair followed by all of them. */
  lemma AppendAttributes(pair: string, o: map<string, JsValue>)
    ensures pair + ValueAttribute(o, "maxAge", "; Max-Age=") + ValueAttribute(o, "path", "; Path=")
      + FlagAttribute(o, "httpOnly", "; HttpOnly") + FlagAttribute(o, "secure", "; Secure")
      + ValueAttribute(o, "sameSite", "; SameSite=")
      == pair + Attributes(o)
  {
    var a1, a2, a3 := ValueAttribute(o, "maxAge", "; Max-Age="), ValueAttribute(o, "path", "; Path="),
      FlagAttribute(o, "httpOnly", "; HttpOnly");
    var a4, a5 := FlagAttribute(o, "secure", "; Secure"), ValueAttribute(o, "sameSite", "; SameSite=");
    assert Attributes(o) == a1 + a2 + a3 + a4 + a5;
    AppendFive(pair, a1, a2, a3, a4, a5);
  }

  lemma AppendFive(p: string, a1: string, a2: string, a3: string, a4: string, a5: string)
    ensures p + a1 + a2 + a3 + a4 + a5 == p + (a1 + a2 + a3 + a4 + a5)
  {
    assert p + a1 + a2 == p + (a1 + a2);
    assert p + (a1 + a2) + a3 == p + (a1 + a2 + a3);
    assert p + (a1 + a2 + a3) + a4 == p + (a1 + a2 + a3 + a4);
  }

  /** The header `setCookie(response, name, value, options)` sets. */
  function CookieString(name: string, value: string, options: map<string, JsValue>): string {
    name + "=" + EncodeURIComponent(value) + Attributes(DefaultCookieOptions + options)
  }

  /**
   * The name-value pair a user agent keeps from a `Set-Cookie` header: the
   * text before the first ';' (section 5.2 of RFC 6265).
   */
  function CookiePair(header: string): string {
    Split(header, ';')[0]
  }

  /** The attributes the defaults give, Max-Age rendered in decimal. */
  lemma DefaultAttributes()
    ensures Attributes(DefaultCookieOptions) ==
      "; Max-Age=604800000" + "; Path=/" + "; HttpOnly" + "; Secure" + "; SameSite=None"
  {
    MaxAgeNumeral();
    assert ValueAttribute(DefaultCookieOptions, "path", "; Path=") == "; Path=/";
    assert FlagAttribute(DefaultCookieOptions, "httpOnly", "; HttpOnly") == "; HttpOnly";
    assert FlagAttribute(DefaultCookieOptions, "secure", "; Secure") == "; Secure";
    assert ValueAttribute(DefaultCookieOptions, "sameSite", "; SameSite=") == "; SameSite=None";
  }

  /** Seven days in milliseconds, as `${cookieOptions.maxAge}` renders it. */
  lemma MaxAgeNumeral()
    ensures ValueAttribute(DefaultCookieOptions, "maxAge", "; Max-Age=") == "; Max-Age=604800000"
  {
    assert NatToDecimal(604800000) == "604800000" by {
      assert NatToDecimal(6) == "6";
      assert NatToDecimal(60) == "60";
      assert NatToDecimal(604) == "604";
      assert NatToDecimal(6048) == "6048";
      assert NatToDecimal(60480) == "60480";
      assert NatToDecimal(604800) == "604800";
      assert NatToDecimal(6048000) == "6048000";
      assert NatToDecimal(60480000) == "60480000";
    }
  }

  /**
   * Without options the header is the encoded pair followed by the five
   * default attributes. Max-Age carries the millisecond count of seven days,
   * which a user agent reads as seconds.
   */
  lemma DefaultTokenCookie(value: string)
    ensures CookieString("token", value, map[]) ==
      "token=" + EncodeURIComponent(value)
      + ("; Max-Age=604800000" + "; Path=/" + "; HttpOnly" + "; Secure" + "; SameSite=None")
  {
    var e := EncodeURIComponent(value);
    var d := "; Max-Age=604800000" + "; Path=/" + "; HttpOnly" + "; Secure" + "; SameSite=None";
    NoOptions("token", value);
    DefaultAttributes();
    assert CookieString("token", value, map[]) == "token" + "=" + e + d;
    assert "token" + "=" == "token=";
  }

  /** With no options the defaults apply unchanged. */
  lemma NoOptions(name: string, value: string)
    ensures CookieString(name, value, map[]) == name + "=" + EncodeURIComponent(value) + Attributes(DefaultCookieOptions)
  {
    assert DefaultCookieOptions + map[] == DefaultCookieOptions;
  }

  /** The text before the first ';' of `pair + attrs`, when `attrs` is empty or starts with ';'. */
  lemma PairBeforeAttributes(pair: string, attrs: string)
    requires ';' !in pair
    requires attrs == [] || attrs[0] == ';'
    ensures CookiePair(pair + attrs) == pair
  {
    if attrs == [] {
      assert pair + attrs == pair;
      SplitNoSeparator(pair, ';');
    } else {
      assert pair + attrs == pair + [';'] + attrs[1..];
      SplitCons(pair, attrs[1..], ';');
    }
  }

  /**
   * Whatever the options, the pair a user agent stores from the header is
   * `name=<encodeURIComponent(value)>`: the encoding leaves no ';' in it.
   */
  lemma CookiePairOfHeader(name: string, value: string, options: map<string, JsValue>)
    requires ';' !in name
    ensures CookiePair(CookieString(name, value, options)) == name + "=" + EncodeURIComponent(value)
  {
    var e := EncodeURIComponent(value);
    var pair := name + "=" + e;
    EncodedIsCookieSafe(value);
    assert ';' !in pair by {
      assert forall ch :: ch in pair ==> ch in name || ch == '=' || ch in e;
    }
    PairBeforeAttributes(pair, Attributes(DefaultCookieOptions + options));
  }

  /** The token cookie the server sets is read back as the same token. */
  lemma TokenCookieRoundTrip(token: string, options: map<string, JsValue>)
    ensures ExtractTokenFromCookie(Some(CookiePair(CookieString("token", token, options)))) == Token(token)
  {
    var pair := CookiePair(CookieString("token", token, options));
    CookiePairOfHeader("token", token, options);
    TokenPairReadsBack(pair, token);
  }

  /** The pair `token=<encoding>` reads back as the token. */
  lemma TokenPairReadsBack(pair: string, token: string)
    requires pair == "token" + "=" + EncodeURIComponent(token)
    ensures ExtractTokenFromCookie(Some(pair)) == Token(token)
  {
    assert pair == "token=" + EncodeURIComponent(token);
    CookieRoundTrip(token);
  }

  /** `setCookie(response, name, value, options)`: builds the header one attribute at a time. */
  method SetCookie(name: string, value: string, options: map<string, JsValue>) returns (header: string)
    ensures header == CookieString(name, value, options)
  {
    var cookieOptions := DefaultCookieOptions + options;
    header := name + "=" + EncodeURIComponent(value);
    ghost var pair := header;
    header := AppendValue(header, cookieOptions, "maxAge", "; Max-Age=");
    header := AppendValue(header, cookieOptions, "path", "; Path=");
    header := AppendFlag(header, cookieOptions, "httpOnly", "; HttpOnly");
    header := AppendFlag(header, cookieOptions, "secure", "; Secure");
    header := AppendValue(header, cookieOptions, "sameSite", "; SameSite=");
    AppendAttributes(pair, cookieOptions);
  }

  /** `if (cookieOptions[k]) cookieString += `<prefix>${cookieOptions[k]}``. */
  method AppendValue(header: string, o: map<string, JsValue>, k: string, prefix: string) returns (r: string)
    ensures r == header + ValueAttribute(o, k, prefix)
  {
    r := header;
    if Truthy(Member(o, k)) {
      r := r + prefix + ToString(Member(o, k));
    }
  }

  /** `if (cookieOptions[k]) cookieString += '<text>'`. */
  method AppendFlag(header: string, o: map<string, JsValue>, k: string, text: string) returns (r: string)
    ensures r == header + FlagAttribute(o, k, text)
  {
    r := header;
    if Truthy(Member(o, k)) {
      r := r + text;
    }
  }

  // ---------------------------------------------------------------------
  // authenticateRequest

  /** The server's collaborators: the engine, the store's hidden decisions and the token library. */
  datatype Config = Config(
    engine: Engine,
    exceeded: Option<User> -> bool,
    hash: JsValue -> string,
    passwordMatches: (JsValue, string) -> bool,
    jwt: Jwt)

  /** A snapshot of everything the server changes. */
  datatype World = World(sent: seq<Statement>, users: map<int, User>, usage: seq<UsageEntry>, logins: seq<int>)

  /** The token `authenticateRequest` settles on, or the URIError reading the cookie threw. */
  datatype TokenChoice = CookieThrew | Chosen(token: Option<string>)

  /** Cookie first; the Authorization header only when the cookie gives no truthy token. */
  function ChooseToken(cookie: Option<string>, authorization: Option<string>): (r: TokenChoice)
    ensures r == CookieThrew <==> ExtractTokenFromCookie(cookie).UriError?
    ensures r.Chosen? && r.token.Some? ==> r.token.value != ""
  {
    var c := ExtractTokenFromCookie(cookie);
    if c.UriError? then CookieThrew
    else if c.Token? && c.value != "" then Chosen(Some(c.value))
    else
      var h := ExtractTokenFromHeader(authorization);
      if h.Some? && h.value != "" then Chosen(h) else Chosen(None)
  }

  /** The truthy `userId` of a token the library accepts. */
  function ClaimedId(jwt: Jwt, token: string): (r: Option<JsValue>)
    ensures r.Some? ==> Truthy(r.value) && jwt.verify(token).Verified?
  {
    match VerifyToken(jwt, token)
    case None => None
    case Some(decoded) =>
      if !Truthy(decoded) then None
      else
        var id := GetProp(decoded, "userId").GetOr(Undefined);
        if Truthy(id) then Some(id) else None
  }

  /** What `authenticateRequest` resolves to, or the error it throws. */
  datatype AuthOutcome = AuthThrew(error: string) | Resolved(user: Option<User>)

  function Authenticate(cfg: Config, users: map<int, User>, cookie: Option<string>, authorization: Option<string>)
    : (r: AuthOutcome)
    ensures r.AuthThrew? <==> ExtractTokenFromCookie(cookie).UriError?
    ensures r.Resolved? && r.user.Some? ==> r.user.value in users.Values
  {
    match ChooseToken(cookie, authorization)
    case CookieThrew => AuthThrew(UriErrorMessage)
    case Chosen(None) => Resolved(None)
    case Chosen(Some(t)) =>
      match ClaimedId(cfg.jwt, t)
      case None => Resolved(None)
      case Some(id) => Resolved(UserById(users, id))
  }

  /**
   * A Bearer header is used only when the cookie gives no token, or an
   * empty one; a non-empty token in the cookie hides the header entirely.
   */
  lemma HeaderIsFallback(cookie: Option<string>, t: string, authorization: Option<string>)
    requires !ExtractTokenFromCookie(cookie).UriError?
    requires t != ""
    ensures ExtractTokenFromCookie(cookie) == Token(t) ==> ChooseToken(cookie, authorization) == Chosen(Some(t))
    ensures (ExtractTokenFromCookie(cookie) == NoToken || ExtractTokenFromCookie(cookie) == Token(""))
      ==> (ChooseToken(cookie, authorization) == Chosen(Some(t)) <==> authorization == Some("Bearer " + t))
  {
    HeaderIff(authorization, t);
  }

  /**
   * A malformed escape in the token cookie makes `authenticateRequest`
   * throw, even when a valid Bearer header is present.
   */
  lemma MalformedCookieThrows(cfg: Config, users: map<int, User>, raw: string, authorization: Option<string>)
    requires ';' !in raw && '=' !in raw
    requires raw != [] && !IsJsWhitespace(raw[|raw| - 1])
    requires DecodeURIComponent(raw).None?
    ensures Authenticate(cfg, users, Some("token=" + raw), authorization) == AuthThrew(UriErrorMessage)
  {
    MalformedValueThrows(raw);
  }

  /** Only objects have a `userId` member that is not undefined. */
  lemma UserIdOnlyOnObjects(v: JsValue)
    requires GetProp(v, "userId").Some? && !GetProp(v, "userId").value.Undefined?
    ensures v.Obj?
  {
    assert "userId"[0] == 'u' && !IsDigit('u');
    assert ParseIndex("userId").None?;
  }

  /** A token signed over a non-zero numeric `userId` claims that id once verified. */
  lemma SignedIdReadsBack(jwt: Jwt, id: int, email: JsValue)
    requires id != 0
    requires SignsFaithfully(jwt, Obj([Prop("userId", Num(id)), Prop("email", email)]), "userId")
    ensures ClaimedId(jwt, GenerateToken(jwt, Num(id), email)) == Some(Num(id))
  {
    var props := [Prop("userId", Num(id)), Prop("email", email)];
    var p := jwt.verify(jwt.sign(Obj(props))).payload;
    assert JsonifyProps(props) == [Prop("userId", Num(id))] + JsonifyProps(props[1..]);
    assert GetProp(p, "userId") == Some(Num(id));
    UserIdOnlyOnObjects(p);
  }

  /**
   * A login token, sent back as the cookie the server set, authenticates
   * its user, provided the token library verifies what it signs.
   */
  lemma LoginCookieAuthenticates(cfg: Config, users: map<int, User>, u: User, authorization: Option<string>)
    requires u.userId != 0 && u.userId in users && users[u.userId] == u
    requires SignsFaithfully(cfg.jwt, Obj([Prop("userId", Num(u.userId)), Prop("email", Str(u.email))]), "userId")
    ensures var token := GenerateToken(cfg.jwt, Num(u.userId), Str(u.email));
      Authenticate(cfg, users, Some(CookiePair(CookieString("token", token, map[]))), authorization)
        == Resolved(Some(u))
  {
    var token := GenerateToken(cfg.jwt, Num(u.userId), Str(u.email));
    var cookie := Some(CookiePair(CookieString("token", token, map[])));
    TokenCookieRoundTrip(token, map[]);
    assert ChooseToken(cookie, authorization) == Chosen(Some(token));
    SignedIdReadsBack(cfg.jwt, u.userId, Str(u.email));
    assert UserById(users, Num(u.userId)) == Some(u);
    assert Authenticate(cfg, users, cookie, authorization) == Resolved(UserById(users, Num(u.userId)));
  }

  /** A token whose `userId` was undefined when signed claims no user. */
  lemma UndefinedIdRejected(cfg: Config, users: map<int, User>, email: JsValue, authorization: Option<string>)
    requires SignsFaithfully(cfg.jwt, Obj([Prop("userId", Undefined), Prop("email", email)]), "userId")
    ensures var token := GenerateToken(cfg.jwt, Undefined, email);
      Authenticate(cfg, users, Some(CookiePair(CookieString("token", token, map[]))), authorization)
        == Resolved(None)
  {
    var token := GenerateToken(cfg.jwt, Undefined, email);
    var cookie := Some(CookiePair(CookieString("token", token, map[])));
    TokenCookieRoundTrip(token, map[]);
    assert ChooseToken(cookie, authorization) == Chosen(Some(token));
    UndefinedUserIdIsLost(cfg.jwt, email);
    assert ClaimedId(cfg.jwt, token).None?;
  }

  /**
   * A signup token never authenticates: the record `insertUser` returns has
   * no `userId`, so the token carries none.
   */
  lemma SignupTokenRejected(cfg: Config, users: map<int, User>, outcome: EngineOutcome, email: JsValue,
                            authorization: Option<string>)
    requires SignsFaithfully(cfg.jwt, Obj([Prop("userId", Undefined), Prop("email", email)]), "userId")
    ensures var token := GenerateToken(cfg.jwt, Get(InsertUserResult(outcome), "userId"), email);
      Authenticate(cfg, users, Some(CookiePair(CookieString("token", token, map[]))), authorization)
        == Resolved(None)
  {
    var id := Get(InsertUserResult(outcome), "userId");
    assert id == Undefined by {
      InsertUserResultShape(outcome);
    }
    UndefinedIdRejected(cfg, users, email, authorization);
  }

  // ---------------------------------------------------------------------
  // Handlers

  /** The user fields both `/api/auth/login` and `/api/auth/me` report. */
  function UserFields(u: User): seq<Prop> {
    [Prop("userId", Num(u.userId)), Prop("email", Str(u.email)),
     Prop("firstName", u.firstName), Prop("lastName", u.lastName),
     Prop("apiCallsUsed", Num(u.apiCallsUsed)), Prop("apiCallsLimit", Num(u.apiCallsLimit))]
  }

  /** `checkApiLimit(id).exceeded`. */
  function Exceeded(cfg: Config, users: map<int, User>, id: int): bool {
    cfg.exceeded(UserById(users, Num(id)))
  }

  /** `obj[k] = x` on the record a handler is about to send. */
  function WithProp(v: JsValue, k: string, x: JsValue): (r: JsValue)
    ensures v.Obj? ==> Get(r, k) == x && forall j :: j != k ==> Get(r, j) == Get(v, j)
  {
    if v.Obj? then Obj(SetProp(v.props, k, x)) else v
  }

  /**
   * The metering every SQL handler does when the user id is truthy: count
   * the call, log it, and add `apiLimitExceeded` to the result.
   */
  function Meter(cfg: Config, w: World, result: JsValue, userId: int, endpoint: string, httpMethod: string)
    : (JsValue, World)
  {
    if userId == 0 then (result, w)
    else
      var users := Counted(w.users, userId);
      (WithProp(result, "apiLimitExceeded", Bool(Exceeded(cfg, users, userId))),
       w.(users := users, usage := w.usage + [UsageEntry(userId, endpoint, httpMethod)]))
  }

  /** `handleSignup`. */
  ghost function SignupSpec(cfg: Config, w: World, body: Body): (Reply, World) {
    match body
    case Unparseable(e) => (Send(500, Failed(ErrorServer, e)), w)
    case Parsed(data) =>
      match GetProp(data, "email")
      case None => (Send(500, Failed(ErrorServer, ReadError(data, "email"))), w)
      case Some(email) =>
        var password := GetProp(data, "password").GetOr(Undefined);
        if !Truthy(email) || !Truthy(password) then (Send(400, Refused(MissingCredentials)), w)
        else if FindByEmail(w.users, email).Some? then (Send(400, Refused(EmailTaken)), w)
        else
          var lastName := Or(GetProp(data, "lastName").GetOr(Undefined), Null);
          var st := UserStatement(email, Str(cfg.hash(password)), Null, lastName, Bool(false));
          var result := InsertUserResult(cfg.engine(w.sent, st));
          var w' := w.(sent := w.sent + [st]);
          if !Truthy(Get(result, "success")) then (Send(400, result), w')
          else
            var token := GenerateToken(cfg.jwt, Get(result, "userId"), email);
            (Reply(200, Some(Jsonify(Obj([
               Prop("success", Bool(true)), Prop("message", Str("User registered successfully")),
               Prop("token", Str(token)), Prop("userId", Get(result, "userId"))]))),
             Some(CookieString("token", token, map[]))),
             w')
  }

  /** `handleLogin`. */
  ghost function LoginSpec(cfg: Config, w: World, body: Body): (Reply, World) {
    match body
    case Unparseable(e) => (Send(500, Failed(ErrorServer, e)), w)
    case Parsed(data) =>
      match GetProp(data, "email")
      case None => (Send(500, Failed(ErrorServer, ReadError(data, "email"))), w)
      case Some(email) =>
        var password := GetProp(data, "password").GetOr(Undefined);
        if !Truthy(email) || !Truthy(password) then (Send(400, Refused(MissingCredentials)), w)
        else
          match FindByEmail(w.users, email)
          case None => (Send(401, Refused(ErrorAuthentication)), w)
          case Some(u) =>
            if !cfg.passwordMatches(password, u.passwordHash) then (Send(401, Refused(ErrorAuthentication)), w)
            else
              var token := GenerateToken(cfg.jwt, Num(u.userId), Str(u.email));
              (Reply(200, Some(Jsonify(Obj([
                 Prop("success", Bool(true)), Prop("message", Str("Login successful")),
                 Prop("token", Str(token)), Prop("user", Obj(UserFields(u)))]))),
               Some(CookieString("token", token, map[]))),
               w.(logins := w.logins + [u.userId]))
  }

  /** `handleCurrentUser`: it changes nothing. */
  function CurrentUserSpec(cfg: Config, users: map<int, User>, cookie: Option<string>, authorization: Option<string>)
    : Reply
  {
    match Authenticate(cfg, users, cookie, authorization)
    case AuthThrew(e) => Send(500, Failed(ErrorServer, e))
    case Resolved(None) => Send(401, Refused(ErrorAuthentication))
    case Resolved(Some(u)) =>
      Send(200, Obj([Prop("success", Bool(true)),
        Prop("user", Obj(UserFields(u) + [Prop("apiLimitExceeded", Bool(Exceeded(cfg, users, u.userId)))]))]))
  }

  /** `handleInsertDefault`: `insertDefaultData` never throws, so the status is always 200. */
  function InsertDefaultSpec(cfg: Config, w: World, userId: int): (Reply, World) {
    var (result, sent) := DefaultData(cfg.engine, w.sent);
    var (r, w') := Meter(cfg, w.(sent := sent), result, userId, DefaultPath, "POST");
    (Send(200, r), w')
  }

  /** Running a query and metering it: the shared tail of the two SQL handlers. */
  function QueryReply(cfg: Config, w: World, query: JsValue, userId: int, httpMethod: string): (Reply, World) {
    var (result, sent) := QueryRun(cfg.engine, w.sent, query);
    var (r, w') := Meter(cfg, w.(sent := sent), result, userId, SqlPath, httpMethod);
    (Send(if Truthy(Get(r, "success")) then 200 else 400, r), w')
  }

  /** `handleCustomQuery`: the query comes from the JSON body. */
  function CustomQuerySpec(cfg: Config, w: World, body: Body, userId: int): (Reply, World) {
    match body
    case Unparseable(e) => (Send(500, Failed(ErrorServer, e)), w)
    case Parsed(data) =>
      match GetProp(data, "query")
      case None => (Send(500, Failed(ErrorServer, ReadError(data, "query"))), w)
      case Some(query) =>
        if !Truthy(query) then (Send(400, Refused(ErrorMissingQuery)), w)
        else QueryReply(cfg, w, query, userId, "POST")
  }

  /** `handleGetQuery`: the query is the fifth '/'-separated segment of the path, percent-decoded. */
  function GetQuerySpec(cfg: Config, w: World, pathname: string, userId: int): (Reply, World) {
    var parts := Split(pathname, '/');
    if |parts| >= 4 && parts[3] == "sql" then
      var raw := if |parts| > 4 then parts[4] else "";
      match DecodeURIComponent(raw)
      case None => (Send(500, Failed(ErrorServer, UriErrorMessage)), w)
      case Some(q) =>
        if q == "" then (Send(400, Refused(ErrorMissingQuery)), w)
        else QueryReply(cfg, w, Str(q), userId, "GET")
    else (Send(404, Refused(NotFoundMessage)), w)
  }

  // ---------------------------------------------------------------------
  // Router

  /** The method and path dispatch after authentication, with the user id (0 for null). */
  function Dispatch(cfg: Config, w: World, req: Request, userId: int): (Reply, World) {
    if req.httpMethod == "POST" then
      if req.pathname == DefaultPath then InsertDefaultSpec(cfg, w, userId)
      else if req.pathname == SqlPath then CustomQuerySpec(cfg, w, req.body, userId)
      else (Send(404, Refused(NotFoundMessage)), w)
    else if req.httpMethod == "GET" then
      if StartsWith(req.pathname, SqlPath + "/") then GetQuerySpec(cfg, w, req.pathname, userId)
      else (Send(404, Refused(NotFoundMessage)), w)
    else (Send(405, Refused(ErrorMethod)), w)
  }

  /** The request listener. */
  ghost function HandleSpec(cfg: Config, w: World, req: Request): (Reply, World) {
    var m, p := req.httpMethod, req.pathname;
    if m == "OPTIONS" then (Reply(200, None, None), w)
    else if p == SignupPath && m == "POST" then SignupSpec(cfg, w, req.body)
    else if p == LoginPath && m == "POST" then LoginSpec(cfg, w, req.body)
    else if p == MePath && m == "GET" then (CurrentUserSpec(cfg, w.users, req.cookie, req.authorization), w)
    else if p != SignupPath && p != LoginPath then
      match Authenticate(cfg, w.users, req.cookie, req.authorization)
      case AuthThrew(e) => (Send(500, Failed(ErrorServer, e)), w)
      case Resolved(None) => (Send(401, Refused(ErrorAuthentication)), w)
      case Resolved(Some(u)) => Dispatch(cfg, w, req, u.userId)
    else Dispatch(cfg, w, req, 0)
  }

  // ---------------------------------------------------------------------
  // Properties of the handlers

  /** The e-mail address and password a login or signup body carries, when both are truthy. */
  function Credentials(body: Body): (r: Option<(JsValue, JsValue)>)
    ensures r.Some? ==> body.Parsed? && !body.data.Undefined? && !body.data.Null?
    ensures r.Some? ==> Truthy(r.value.0) && Truthy(r.value.1)
  {
    if body.Unparseable? || body.data.Undefined? || body.data.Null? then None
    else
      var email := GetProp(body.data, "email").value;
      var password := GetProp(body.data, "password").value;
      if Truthy(email) && Truthy(password) then Some((email, password)) else None
  }

  /** A login the server accepts: a registered address and a password the store matches. */
  ghost predicate LoginAccepted(cfg: Config, users: map<int, User>, body: Body) {
    && Credentials(body).Some?
    && FindByEmail(users, Credentials(body).value.0).Some?
    && cfg.passwordMatches(Credentials(body).value.1, FindByEmail(users, Credentials(body).value.0).value.passwordHash)
  }

  /**
   * Login answers 200 exactly for accepted credentials, and only then
   * records the login and sets the token cookie for that user; every other
   * answer leaves the state as it was and sets no cookie.
   */
  lemma LoginOutcome(cfg: Config, w: World, body: Body)
    ensures var (r, w') := LoginSpec(cfg, w, body);
      && (r.status == 200 <==> LoginAccepted(cfg, w.users, body))
      && (r.status == 200 ==>
        var u := FindByEmail(w.users, Credentials(body).value.0).value;
        && w' == w.(logins := w.logins + [u.userId])
        && r.setCookie == Some(CookieString("token", GenerateToken(cfg.jwt, Num(u.userId), Str(u.email)), map[])))
      && (r.status != 200 ==> w' == w && r.setCookie.None?)
  {
  }

  /**
   * An unknown address and a wrong password get the same reply, so the
   * answer does not tell which of the two was wrong.
   */
  lemma LoginFailuresAlike(cfg: Config, w: World, body: Body)
    requires Credentials(body).Some? && !LoginAccepted(cfg, w.users, body)
    ensures LoginSpec(cfg, w, body).0 == Send(401, Refused(ErrorAuthentication))
  {
  }

  /** The statement signup sends for a body with credentials. */
  function SignupStatement(cfg: Config, body: Body): Statement
    requires Credentials(body).Some?
  {
    var (email, password) := Credentials(body).value;
    UserStatement(email, Str(cfg.hash(password)), Null, Or(GetProp(body.data, "lastName").value, Null), Bool(false))
  }

  /** Signup sends an INSERT exactly when the body carries credentials for an unregistered address. */
  ghost predicate SignupSends(w: World, body: Body) {
    Credentials(body).Some? && FindByEmail(w.users, Credentials(body).value.0).None?
  }

  /**
   * Signup changes nothing but the statements sent, and sends the one
   * INSERT for the new user exactly when the body carries credentials for
   * an unregistered address.
   */
  lemma SignupOnlyInserts(cfg: Config, w: World, body: Body)
    ensures var w' := SignupSpec(cfg, w, body).1;
      && w'.users == w.users && w'.usage == w.usage && w'.logins == w.logins
      && w'.sent == (if SignupSends(w, body) then w.sent + [SignupStatement(cfg, body)] else w.sent)
  {
  }

  /**
   * Signup answers 200 exactly when it sends the INSERT and the engine
   * answers it with a header, and only then sets the token cookie.
   */
  lemma SignupStatus(cfg: Config, w: World, body: Body)
    ensures var r := SignupSpec(cfg, w, body).0;
      && (r.status == 200 <==>
        && SignupSends(w, body)
        && cfg.engine(w.sent, SignupStatement(cfg, body)).Rows?
        && !cfg.engine(w.sent, SignupStatement(cfg, body)).value.Undefined?
        && !cfg.engine(w.sent, SignupStatement(cfg, body)).value.Null?)
      && (r.setCookie.Some? <==> r.status == 200)
  {
    if SignupSends(w, body) {
      InsertUserResultShape(cfg.engine(w.sent, SignupStatement(cfg, body)));
    }
  }

  /**
   * A successful signup never reports the new user's id: `insertUser`
   * returns it as `insertId`, the handler reads `userId`, and the undefined
   * member is dropped from the JSON body.
   */
  lemma SignupHidesUserId(cfg: Config, w: World, body: Body)
    ensures var r := SignupSpec(cfg, w, body).0;
      r.status == 200 ==> r.body.Some? && Get(r.body.value, "userId") == Undefined
  {
    if SignupSends(w, body) {
      var st := SignupStatement(cfg, body);
      var result := InsertUserResult(cfg.engine(w.sent, st));
      InsertUserResultShape(cfg.engine(w.sent, st));
      if Truthy(Get(result, "success")) {
        var token := GenerateToken(cfg.jwt, Get(result, "userId"), Credentials(body).value.0);
        var props := [Prop("success", Bool(true)), Prop("message", Str("User registered successfully")),
          Prop("token", Str(token)), Prop("userId", Undefined)];
        assert SignupSpec(cfg, w, body).0.body == Some(Jsonify(Obj(props)));
        RegisteredBodyHasNoUserId(token);
      }
    }
  }

  lemma RegisteredBodyHasNoUserId(token: string)
    ensures Get(Jsonify(Obj([Prop("success", Bool(true)), Prop("message", Str("User registered successfully")),
      Prop("token", Str(token)), Prop("userId", Undefined)])), "userId") == Undefined
  {
    var props := [Prop("success", Bool(true)), Prop("message", Str("User registered successfully")),
      Prop("token", Str(token)), Prop("userId", Undefined)];
    LookupAt(props, 3);
    UndefinedMemberDropped(props, "userId");
  }

  /** What the metering does: nothing for a falsy id, otherwise count, log and annotate. */
  lemma MeterEffect(cfg: Config, w: World, result: JsValue, userId: int, endpoint: string, httpMethod: string)
    requires result.Obj?
    ensures var (r, w') := Meter(cfg, w, result, userId, endpoint, httpMethod);
      && w'.sent == w.sent && w'.logins == w.logins
      && Get(r, "success") == Get(result, "success")
      && (userId == 0 ==> r == result && w' == w)
      && (userId != 0 ==>
        && w'.users == Counted(w.users, userId)
        && w'.usage == w.usage + [UsageEntry(userId, endpoint, httpMethod)]
        && Get(r, "apiLimitExceeded") == Bool(Exceeded(cfg, w'.users, userId)))
  {
  }

  /**
   * Running a query answers 200 exactly when the guard lets a string query
   * through and the engine returns rows, and 400 otherwise. With a truthy
   * user id the call is counted and logged whatever its outcome, a refused
   * query included, and the reply carries the limit flag.
   */
  lemma QueryReplyOutcome(cfg: Config, w: World, query: JsValue, userId: int, httpMethod: string)
    ensures var (r, w') := QueryReply(cfg, w, query, userId, httpMethod);
      var dispatched := query.Str? && IsQuerySafe(query.s);
      && (r.status == 200 <==> dispatched && cfg.engine(w.sent, Statement(query.s, [])).Rows?)
      && (r.status == 200 || r.status == 400)
      && w'.sent == (if dispatched then w.sent + [Statement(query.s, [])] else w.sent)
      && w'.logins == w.logins
      && (userId == 0 ==> w'.users == w.users && w'.usage == w.usage)
      && (userId != 0 ==>
        && w'.users == Counted(w.users, userId)
        && w'.usage == w.usage + [UsageEntry(userId, SqlPath, httpMethod)])
  {
    var (result, sent) := QueryRun(cfg.engine, w.sent, query);
    QueryRunSuccess(cfg.engine, w.sent, query);
    QueryRunSends(cfg.engine, w.sent, query);
    assert result.Obj?;
    MeterEffect(cfg, w.(sent := sent), result, userId, SqlPath, httpMethod);
  }

  /**
   * The limit is soft: whether the user is over it changes neither the
   * status of a query nor what is sent, counted or logged.
   */
  lemma SoftLimit(cfg: Config, w: World, query: JsValue, userId: int, httpMethod: string,
                  exceeded: Option<User> -> bool)
    ensures QueryReply(cfg, w, query, userId, httpMethod).0.status
      == QueryReply(cfg.(exceeded := exceeded), w, query, userId, httpMethod).0.status
    ensures QueryReply(cfg, w, query, userId, httpMethod).1
      == QueryReply(cfg.(exceeded := exceeded), w, query, userId, httpMethod).1
  {
    QueryReplyOutcome(cfg, w, query, userId, httpMethod);
    QueryReplyOutcome(cfg.(exceeded := exceeded), w, query, userId, httpMethod);
  }

  /** A path under `/api/v1/sql/` splits into its four fixed segments and the rest. */
  lemma SqlPathSegments(rest: string)
    ensures Split(SqlPath + "/" + rest, '/') == ["", "api", "v1", "sql"] + Split(rest, '/')
  {
    SqlPathSpelled(rest);
    SplitFourSegments("", "api", "v1", "sql", rest, '/');
  }

  lemma SplitFourSegments(a: string, b: string, c: string, d: string, rest: string, sep: char)
    requires sep !in a && sep !in b && sep !in c && sep !in d
    ensures Split(a + [sep] + (b + [sep] + (c + [sep] + (d + [sep] + rest))), sep) == [a, b, c, d] + Split(rest, sep)
  {
    var r3 := d + [sep] + rest;
    var r2 := c + [sep] + r3;
    var r1 := b + [sep] + r2;
    var tail := Split(rest, sep);
    SplitCons(d, rest, sep);
    SplitCons(c, r3, sep);
    SplitCons(b, r2, sep);
    SplitCons(a, r1, sep);
    ConsFour(a, b, c, d, tail);
  }

  lemma ConsFour<T>(a: T, b: T, c: T, d: T, tail: seq<T>)
    ensures [a] + ([b] + ([c] + ([d] + tail))) == [a, b, c, d] + tail
  {
  }

  /** `/api/v1/sql/` spelled as its segments and separators. */
  lemma SqlPathSpelled(rest: string)
    ensures SqlPath + "/" + rest == "" + ['/'] + ("api" + ['/'] + ("v1" + ['/'] + ("sql" + ['/'] + rest)))
  {
    var x := "" + ['/'] + ("api" + ['/'] + ("v1" + ['/'] + ("sql" + ['/'] + rest)));
    var y := SqlPath + "/" + rest;
    assert |x| == |y|;
    forall i | 0 <= i < |x|
      ensures x[i] == y[i]
    {
    }
  }

  /**
   * The POST form refuses before running anything: an unparseable body or a
   * `null` one (reading `.query` throws) gets 500, and a missing or falsy
   * `query` gets 400; none of them reaches the engine or the meter.
   */
  lemma CustomQueryRefusals(cfg: Config, w: World, body: Body, userId: int)
    ensures var (r, w') := CustomQuerySpec(cfg, w, body, userId);
      && (body.Unparseable? ==> r.status == 500 && w' == w)
      && (body.Parsed? && (body.data.Null? || body.data.Undefined?) ==> r.status == 500 && w' == w)
      && (body.Parsed? && body.data.Obj? && !Truthy(Get(body.data, "query")) ==>
          r == Send(400, Refused(ErrorMissingQuery)) && w' == w)
      && (w' != w ==> body.Parsed? && body.data.Obj? && Truthy(Get(body.data, "query")))
  {
    if body.Parsed? {
      var data := body.data;
      if data.Obj? {
        assert GetProp(data, "query") == Some(Get(data, "query"));
      } else if !data.Null? && !data.Undefined? {
        assert CustomQuerySpec(cfg, w, body, userId) == (Send(400, Refused(ErrorMissingQuery)), w);
      }
    }
  }

  /**
   * The client's GET form reads back: the path `/api/v1/sql/` followed by
   * `encodeURIComponent(q)` runs `q` itself, and an empty `q` is refused as
   * missing without reaching the engine or the meter.
   */
  lemma GetQueryOfEncoded(cfg: Config, w: World, q: string, userId: int)
    ensures GetQuerySpec(cfg, w, SqlPath + "/" + EncodeURIComponent(q), userId) ==
      if q == "" then (Send(400, Refused(ErrorMissingQuery)), w) else QueryReply(cfg, w, Str(q), userId, "GET")
  {
    var e := EncodeURIComponent(q);
    EncodedLacks(q, '/');
    SqlPathOneSegment(e);
    var parts := Split(SqlPath + "/" + e, '/');
    assert |parts| > 4 && parts[3] == "sql" && parts[4] == e;
    DecodeEncode(q);
    assert DecodeURIComponent(parts[4]) == Some(q);
  }

  /** A segment without `/` after `/api/v1/sql/` is the fifth and last segment. */
  lemma SqlPathOneSegment(e: string)
    requires '/' !in e
    ensures Split(SqlPath + "/" + e, '/') == ["", "api", "v1", "sql", e]
  {
    SplitNoSeparator(e, '/');
    SqlPathSegments(e);
  }

  /** Every path the router sends to `handleGetQuery` has `sql` as its fourth segment, so it never gets 404. */
  lemma RoutedGetIsSqlPath(cfg: Config, w: World, pathname: string, userId: int)
    requires StartsWith(pathname, SqlPath + "/")
    ensures GetQuerySpec(cfg, w, pathname, userId).0.status != 404
  {
    var rest := pathname[|SqlPath + "/"|..];
    assert pathname == SqlPath + "/" + rest;
    SqlPathSegments(rest);
    var raw := Split(pathname, '/');
    assert |raw| >= 5 && raw[3] == "sql";
    match DecodeURIComponent(raw[4])
    case None =>
    case Some(q) =>
      if q != "" {
        QueryReplyOutcome(cfg, w, Str(q), userId, "GET");
      }
  }

  /**
   * Seeding answers 200 whatever the engine does, because `insertDefaultData`
   * catches its own errors, and is counted and logged under its own path for
   * a truthy user id. The store calls of the metering never fail in this
   * model, so the 500 of the handler's `catch` does not arise here.
   */
  lemma InsertDefaultOutcome(cfg: Config, w: World, userId: int)
    ensures var (r, w') := InsertDefaultSpec(cfg, w, userId);
      && r.status == 200
      && w'.sent == DefaultData(cfg.engine, w.sent).1
      && (userId != 0 ==> w'.usage == w.usage + [UsageEntry(userId, DefaultPath, "POST")])
      && (userId == 0 ==> w'.usage == w.usage)
  {
    var (result, sent) := DefaultData(cfg.engine, w.sent);
    DefaultDataOutcome(cfg.engine, w.sent);
    MeterEffect(cfg, w.(sent := sent), result, userId, DefaultPath, "POST");
  }

  /**
   * Outside signup, login and `GET /api/auth/me`, every request is
   * authenticated before its method or path is looked at: without a user it
   * gets 401 (a PUT included, which would otherwise get 405), and a
   * malformed token cookie gets 500; neither changes anything.
   */
  lemma AuthenticationFirst(cfg: Config, w: World, req: Request)
    requires req.httpMethod != "OPTIONS"
    requires req.pathname != SignupPath && req.pathname != LoginPath
    requires !(req.pathname == MePath && req.httpMethod == "GET")
    requires !Authenticate(cfg, w.users, req.cookie, req.authorization).Resolved?
      || Authenticate(cfg, w.users, req.cookie, req.authorization).user.None?
    ensures HandleSpec(cfg, w, req).1 == w
    ensures HandleSpec(cfg, w, req).0.status ==
      if ExtractTokenFromCookie(req.cookie).UriError? then 500 else 401
  {
  }

  /**
   * Signup and login paths with another method than POST skip
   * authentication and get 404 for GET and 405 otherwise.
   */
  lemma AuthPathsOtherMethods(cfg: Config, w: World, req: Request)
    requires req.pathname == SignupPath || req.pathname == LoginPath
    requires req.httpMethod != "POST" && req.httpMethod != "OPTIONS"
    ensures HandleSpec(cfg, w, req) ==
      if req.httpMethod == "GET" then (Send(404, Refused(NotFoundMessage)), w)
      else (Send(405, Refused(ErrorMethod)), w)
  {
    assert req.pathname != MePath;
    assert !StartsWith(req.pathname, SqlPath + "/") by {
      assert req.pathname[5] != (SqlPath + "/")[5];
    }
  }

  /**
   * A preflight OPTIONS request gets 200 with no body before anything else
   * is looked at; `GET /api/auth/me` does its own check, answers 200 exactly
   * for a resolved user and 401 without one, and changes nothing.
   */
  lemma PublicRoutes(cfg: Config, w: World, req: Request)
    ensures req.httpMethod == "OPTIONS" ==> HandleSpec(cfg, w, req) == (Reply(200, None, None), w)
    ensures req.pathname == MePath && req.httpMethod == "GET" ==>
      var (r, w') := HandleSpec(cfg, w, req);
      var a := Authenticate(cfg, w.users, req.cookie, req.authorization);
      && w' == w
      && (r.status == 200 <==> a.Resolved? && a.user.Some?)
      && (a == Resolved(None) ==> r.status == 401)
  {
  }

  /**
   * Only an authenticated user's request is ever counted and logged, at
   * most once, under that user's id and the request's method.
   */
  lemma MeteringNeedsAUser(cfg: Config, w: World, req: Request)
    ensures var w' := HandleSpec(cfg, w, req).1;
      var a := Authenticate(cfg, w.users, req.cookie, req.authorization);
      w'.usage == w.usage || (
        && a.Resolved? && a.user.Some? && a.user.value.userId != 0
        && |w'.usage| == |w.usage| + 1 && w'.usage[..|w.usage|] == w.usage
        && w'.usage[|w.usage|].userId == a.user.value.userId
        && w'.usage[|w.usage|].httpMethod == req.httpMethod
        && w'.users == Counted(w.users, a.user.value.userId))
  {
    var m, p := req.httpMethod, req.pathname;
    var a := Authenticate(cfg, w.users, req.cookie, req.authorization);
    if m == "OPTIONS" || (p == SignupPath && m == "POST") || (p == LoginPath && m == "POST") || (p == MePath && m == "GET") {
      if p == SignupPath && m == "POST" && m != "OPTIONS" {
        SignupOnlyInserts(cfg, w, req.body);
      }
      if p == LoginPath && m == "POST" && m != "OPTIONS" {
        LoginOutcome(cfg, w, req.body);
      }
    } else if p != SignupPath && p != LoginPath && a.Resolved? && a.user.Some? {
      DispatchMetering(cfg, w, req, a.user.value.userId);
    } else if !(p != SignupPath && p != LoginPath) {
      DispatchMetering(cfg, w, req, 0);
    }
  }

  /** `w'` either kept the usage log of `w` or took one entry for `userId` and `httpMethod`, counted in `users`. */
  predicate MeteredAtMostOnce(w: World, w': World, userId: int, httpMethod: string) {
    w'.usage == w.usage || (
      && userId != 0
      && |w'.usage| == |w.usage| + 1 && w'.usage[..|w.usage|] == w.usage
      && w'.usage[|w.usage|].userId == userId
      && w'.usage[|w.usage|].httpMethod == httpMethod
      && w'.users == Counted(w.users, userId))
  }

  /** The dispatch counts and logs at most one call, under the given id and the request's method. */
  lemma DispatchMetering(cfg: Config, w: World, req: Request, userId: int)
    ensures var w' := Dispatch(cfg, w, req, userId).1;
      w'.usage == w.usage || (
        && userId != 0
        && |w'.usage| == |w.usage| + 1 && w'.usage[..|w.usage|] == w.usage
        && w'.usage[|w.usage|].userId == userId
        && w'.usage[|w.usage|].httpMethod == req.httpMethod
        && w'.users == Counted(w.users, userId))
  {
    var out := Dispatch(cfg, w, req, userId);
    if req.httpMethod == "POST" {
      if req.pathname == DefaultPath {
        assert out == InsertDefaultSpec(cfg, w, userId);
        InsertDefaultMetering(cfg, w, userId);
      } else if req.pathname == SqlPath {
        assert out == CustomQuerySpec(cfg, w, req.body, userId);
        CustomQueryMetering(cfg, w, req.body, userId);
      }
    } else if req.httpMethod == "GET" && StartsWith(req.pathname, SqlPath + "/") {
      assert out == GetQuerySpec(cfg, w, req.pathname, userId);
      GetQueryMetering(cfg, w, req.pathname, userId);
    }
  }

  /** `handleInsertDefault` meters at most one POST. */
  lemma InsertDefaultMetering(cfg: Config, w: World, userId: int)
    ensures MeteredAtMostOnce(w, InsertDefaultSpec(cfg, w, userId).1, userId, "POST")
  {
    var (result, sent) := DefaultData(cfg.engine, w.sent);
    DefaultDataOutcome(cfg.engine, w.sent);
    MeterEffect(cfg, w.(sent := sent), result, userId, DefaultPath, "POST");
    MeteredOnce(w, InsertDefaultSpec(cfg, w, userId).1, userId, DefaultPath, "POST");
  }

  /** `handleCustomQuery` meters at most one POST. */
  lemma CustomQueryMetering(cfg: Config, w: World, body: Body, userId: int)
    ensures MeteredAtMostOnce(w, CustomQuerySpec(cfg, w, body, userId).1, userId, "POST")
  {
    if body.Parsed? {
      var q := GetProp(body.data, "query");
      if q.Some? && Truthy(q.value) {
        assert CustomQuerySpec(cfg, w, body, userId) == QueryReply(cfg, w, q.value, userId, "POST");
        QueryReplyOutcome(cfg, w, q.value, userId, "POST");
        MeteredOnce(w, QueryReply(cfg, w, q.value, userId, "POST").1, userId, SqlPath, "POST");
      }
    }
  }

  /** `handleGetQuery` meters at most one GET. */
  lemma GetQueryMetering(cfg: Config, w: World, pathname: string, userId: int)
    ensures MeteredAtMostOnce(w, GetQuerySpec(cfg, w, pathname, userId).1, userId, "GET")
  {
    var parts := Split(pathname, '/');
    if |parts| >= 4 && parts[3] == "sql" {
      var raw := if |parts| > 4 then parts[4] else "";
      var q := DecodeURIComponent(raw);
      if q.Some? && q.value != "" {
        assert GetQuerySpec(cfg, w, pathname, userId) == QueryReply(cfg, w, Str(q.value), userId, "GET");
        QueryReplyOutcome(cfg, w, Str(q.value), userId, "GET");
        MeteredOnce(w, QueryReply(cfg, w, Str(q.value), userId, "GET").1, userId, SqlPath, "GET");
      }
    }
  }

  /** A world that either kept its usage or took one entry for `userId`, counted in `users`. */
  lemma MeteredOnce(w: World, w': World, userId: int, endpoint: string, httpMethod: string)
    requires userId == 0 ==> w'.usage == w.usage
    requires userId != 0 ==>
      w'.users == Counted(w.users, userId) && w'.usage == w.usage + [UsageEntry(userId, endpoint, httpMethod)]
    ensures MeteredAtMostOnce(w, w', userId, httpMethod)
  {
  }

  // ---------------------------------------------------------------------
  // The server

  class Server {
    const db: Database
    const store: UserStore
    const jwt: Jwt

    ghost predicate Valid()
      reads this, store
    {
      store.Valid()
    }

    /** The collaborators, as the specifications take them. */
    function Cfg(): Config {
      Config(db.engine, store.exceeded, store.hash, store.passwordMatches, jwt)
    }

    ghost function Now(): World
      reads this, db, store
    {
      World(db.sent, store.users, store.usage, store.logins)
    }

    constructor (db: Database, store: UserStore, jwt: Jwt)
      requires store.Valid()
      ensures this.db == db && this.store == store && this.jwt == jwt
      ensures Valid()
    {
      this.db := db;
      this.store := store;
      this.jwt := jwt;
    }

    /** `authenticateRequest(request)`. */
    method AuthenticateRequest(cookie: Option<string>, authorization: Option<string>) returns (outcome: AuthOutcome)
      requires Valid()
      ensures outcome == Authenticate(Cfg(), store.users, cookie, authorization)
    {
      var fromCookie := ExtractTokenFromCookie(cookie);
      if fromCookie.UriError? {
        return AuthThrew(UriErrorMessage);
      }
      var token := if fromCookie.Token? then Some(fromCookie.value) else None;
      if token.None? || token.value == "" {
        token := ExtractTokenFromHeader(authorization);
      }
      if token.None? || token.value == "" {
        return Resolved(None);
      }
      var decoded := VerifyToken(jwt, token.value);
      if decoded.None? || !Truthy(decoded.value) {
        return Resolved(None);
      }
      var claimed := GetProp(decoded.value, "userId").GetOr(Undefined);
      if !Truthy(claimed) {
        return Resolved(None);
      }
      var user := store.GetUserById(claimed);
      outcome := Resolved(user);
    }

    /** `handleSignup(request, response)`. */
    method HandleSignup(body: Body) returns (reply: Reply)
      requires Valid()
      modifies db`sent
      ensures (reply, Now()) == SignupSpec(Cfg(), old(Now()), body)
    {
      if body.Unparseable? {
        return Send(500, Failed(ErrorServer, body.error));
      }
      var data := body.data;
      var email := GetProp(data, "email");
      if email.None? {
        return Send(500, Failed(ErrorServer, ReadError(data, "email")));
      }
      var password := GetProp(data, "password").GetOr(Undefined);
      if !Truthy(email.value) || !Truthy(password) {
        return Send(400, Refused(MissingCredentials));
      }
      var existing := store.FindUserByEmail(email.value);
      if existing.Some? {
        return Send(400, Refused(EmailTaken));
      }
      var passwordHash := store.HashPassword(password);
      var lastName := Or(GetProp(data, "lastName").GetOr(Undefined), Null);
      var result := db.InsertUser(email.value, Str(passwordHash), Null, lastName, Bool(false));
      if !Truthy(Get(result, "success")) {
        return Send(400, result);
      }
      var token := GenerateToken(jwt, Get(result, "userId"), email.value);
      var cookie := SetCookie("token", token, map[]);
      reply := Reply(200, Some(Jsonify(Obj([
        Prop("success", Bool(true)), Prop("message", Str("User registered successfully")),
        Prop("token", Str(token)), Prop("userId", Get(result, "userId"))]))), Some(cookie));
    }

    /** `handleLogin(request, response)`. */
    method HandleLogin(body: Body) returns (reply: Reply)
      requires Valid()
      modifies store`logins
      ensures Valid()
      ensures (reply, Now()) == LoginSpec(Cfg(), old(Now()), body)
    {
      if body.Unparseable? {
        return Send(500, Failed(ErrorServer, body.error));
      }
      var data := body.data;
      var email := GetProp(data, "email");
      if email.None? {
        return Send(500, Failed(ErrorServer, ReadError(data, "email")));
      }
      var password := GetProp(data, "password").GetOr(Undefined);
      if !Truthy(email.value) || !Truthy(password) {
        return Send(400, Refused(MissingCredentials));
      }
      var user := store.FindUserByEmail(email.value);
      if user.None? {
        return Send(401, Refused(ErrorAuthentication));
      }
      var u := user.value;
      var passwordValid := store.VerifyPassword(password, u.passwordHash);
      if !passwordValid {
        return Send(401, Refused(ErrorAuthentication));
      }
      store.UpdateLastLogin(u.userId);
      var token := GenerateToken(jwt, Num(u.userId), Str(u.email));
      var cookie := SetCookie("token", token, map[]);
      reply := Reply(200, Some(Jsonify(Obj([
        Prop("success", Bool(true)), Prop("message", Str("Login successful")),
        Prop("token", Str(token)), Prop("user", Obj(UserFields(u)))]))), Some(cookie));
    }

    /** `handleCurrentUser(request, response)`. */
    method HandleCurrentUser(cookie: Option<string>, authorization: Option<string>) returns (reply: Reply)
      requires Valid()
      ensures reply == CurrentUserSpec(Cfg(), store.users, cookie, authorization)
    {
      var outcome := AuthenticateRequest(cookie, authorization);
      if outcome.AuthThrew? {
        return Send(500, Failed(ErrorServer, outcome.error));
      }
      if outcome.user.None? {
        return Send(401, Refused(ErrorAuthentication));
      }
      var u := outcome.user.value;
      var over := store.CheckApiLimit(u.userId);
      reply := Send(200, Obj([Prop("success", Bool(true)),
        Prop("user", Obj(UserFields(u) + [Prop("apiLimitExceeded", Bool(over))]))]));
    }

    /** The metering block the three SQL handlers share. */
    method Track(result: JsValue, userId: int, endpoint: string, httpMethod: string) returns (r: JsValue)
      requires Valid()
      modifies store`users, store`usage
      ensures Valid()
      ensures (r, Now()) == Meter(Cfg(), old(Now()), result, userId, endpoint, httpMethod)
    {
      r := result;
      if userId != 0 {
        store.IncrementApiCalls(userId);
        store.LogApiUsage(userId, endpoint, httpMethod);
        var over := store.CheckApiLimit(userId);
        r := WithProp(r, "apiLimitExceeded", Bool(over));
      }
    }

    /** `handleInsertDefault(response, userId)`. */
    method HandleInsertDefault(userId: int) returns (reply: Reply)
      requires Valid()
      modifies db`sent, store`users, store`usage
      ensures Valid()
      ensures (reply, Now()) == InsertDefaultSpec(Cfg(), old(Now()), userId)
    {
      var result := db.InsertDefaultData();
      result := Track(result, userId, DefaultPath, "POST");
      reply := Send(200, result);
    }

    /** `executeQuery` followed by the metering, as both SQL handlers do it. */
    method RunQuery(query: JsValue, userId: int, httpMethod: string) returns (reply: Reply)
      requires Valid()
      modifies db`sent, store`users, store`usage
      ensures Valid()
      ensures (reply, Now()) == QueryReply(Cfg(), old(Now()), query, userId, httpMethod)
    {
      var result := db.ExecuteQuery(query);
      result := Track(result, userId, SqlPath, httpMethod);
      var statusCode := if Truthy(Get(result, "success")) then 200 else 400;
      reply := Send(statusCode, result);
    }

    /** `handleCustomQuery(request, response, userId)`. */
    method HandleCustomQuery(body: Body, userId: int) returns (reply: Reply)
      requires Valid()
      modifies db`sent, store`users, store`usage
      ensures Valid()
      ensures (reply, Now()) == CustomQuerySpec(Cfg(), old(Now()), body, userId)
    {
      if body.Unparseable? {
        return Send(500, Failed(ErrorServer, body.error));
      }
      var query := GetProp(body.data, "query");
      if query.None? {
        return Send(500, Failed(ErrorServer, ReadError(body.data, "query")));
      }
      if !Truthy(query.value) {
        return Send(400, Refused(ErrorMissingQuery));
      }
      reply := RunQuery(query.value, userId, "POST");
    }

    /** `handleGetQuery(request, response, userId)`. */
    method HandleGetQuery(pathname: string, userId: int) returns (reply: Reply)
      requires Valid()
      modifies db`sent, store`users, store`usage
      ensures Valid()
      ensures (reply, Now()) == GetQuerySpec(Cfg(), old(Now()), pathname, userId)
    {
      var pathParts := Split(pathname, '/');
      if |pathParts| >= 4 && pathParts[3] == "sql" {
        var raw := if |pathParts| > 4 then pathParts[4] else "";
        var query := DecodeURIComponent(raw);
        if query.None? {
          return Send(500, Failed(ErrorServer, UriErrorMessage));
        }
        if query.value == "" {
          return Send(400, Refused(ErrorMissingQuery));
        }
        reply := RunQuery(Str(query.value), userId, "GET");
      } else {
        reply := Send(404, Refused(NotFoundMessage));
      }
    }

    /** The request listener passed to `http.createServer`. */
    method Handle(req: Request) returns (reply: Reply)
      requires Valid()
      modifies db`sent, store`users, store`usage, store`logins
      ensures Valid()
      ensures (reply, Now()) == HandleSpec(Cfg(), old(Now()), req)
    {
      if req.httpMethod == "OPTIONS" {
        return Reply(200, None, None);
      }
      var pathname := req.pathname;
      if pathname == SignupPath && req.httpMethod == "POST" {
        reply := HandleSignup(req.body);
        return;
      }
      if pathname == LoginPath && req.httpMethod == "POST" {
        reply := HandleLogin(req.body);
        return;
      }
      if pathname == MePath && req.httpMethod == "GET" {
        reply := HandleCurrentUser(req.cookie, req.authorization);
        return;
      }
      var userId := 0;
      if pathname != SignupPath && pathname != LoginPath {
        var outcome := AuthenticateRequest(req.cookie, req.authorization);
        if outcome.AuthThrew? {
          return Send(500, Failed(ErrorServer, outcome.error));
        }
        if outcome.user.None? {
          return Send(401, Refused(ErrorAuthentication));
        }
        userId := outcome.user.value.userId;
      }
      reply := Route(req, userId);
    }

    /** The method and path dispatch at the end of the listener. */
    method Route(req: Request, userId: int) returns (reply: Reply)
      requires Valid()
      modifies db`sent, store`users, store`usage
      ensures Valid()
      ensures (reply, Now()) == Dispatch(Cfg(), old(Now()), req, userId)
    {
      var pathname := req.pathname;
      if req.httpMethod == "POST" {
        if pathname == DefaultPath {
          reply := HandleInsertDefault(userId);
        } else if pathname == SqlPath {
          reply := HandleCustomQuery(req.body, userId);
        } else {
          reply := Send(404, Refused(NotFoundMessage));
        }
      } else if req.httpMethod == "GET" {
        if StartsWith(pathname, SqlPath + "/") {
          reply := HandleGetQuery(pathname, userId);
        } else {
          reply := Send(404, Refused(NotFoundMessage));
        }
      } else {
        reply := Send(405, Refused(ErrorMethod));
      }
    }
  }
}
