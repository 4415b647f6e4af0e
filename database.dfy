/**
 * The `Database` class of the SQL server (server2/database.js): the query
 * guard in front of `executeQuery`, the user insert and the seeding of the
 * default users, voices and languages.
 *
 * The MySQL engine is an oracle: its answer to a statement is a function of
 * every statement sent before it, which is as much as the code relies on.
 * The class records the statements it sends, so "the engine is never
 * invoked" is a statement about that record.
 */
module Database {
  import opened Wrappers
  import opened JsValues
  import opened QueryGuard

  const SuccessInsert: string := "Data inserted successfully"
  const SuccessSelect: string := "Query executed successfully"
  const ErrorDatabase: string := "Database error occurred"

  /** A statement sent to the engine, with its positional parameters. */
  datatype Statement = Statement(sql: string, params: seq<JsValue>)

  /**
   * The engine's answer: the first element of the pair `execute` resolves
   * to (rows, or the result header of an INSERT), or an error message.
   */
  datatype EngineOutcome = Rows(value: JsValue) | Failure(message: string)

  /** The engine: its answer may depend on every statement it has run before. */
  type Engine = (seq<Statement>, Statement) -> EngineOutcome

  /** The message of the TypeError raised by reading `k` from `null` or `undefined`. */
  function ReadError(v: JsValue, k: string): string {
    "Cannot read properties of " + (if v.Null? then "null" else "undefined") + " (reading '" + k + "')"
  }

  /** The message of the TypeError raised by calling `query.<name>()` on a non-string. */
  function CallError(v: JsValue, name: string): string {
    if v.Undefined? || v.Null? then ReadError(v, name) else "query." + name + " is not a function"
  }

  /** `{ success: false, message, error }`: the shape every caught exception takes. */
  function Failed(message: string, error: string): JsValue {
    Obj([Prop("success", Bool(false)), Prop("message", Str(message)), Prop("error", Str(error))])
  }

  // ---------------------------------------------------------------------
  // executeQuery

  /**
   * The answer of `executeQuery` when the query never reaches the engine:
   * a non-string query makes `toUpperCase` throw inside the `try`, and a
   * query the guard refuses is blocked. None when the query is sent.
   */
  function Screen(query: JsValue): Option<JsValue> {
    if !query.Str? then Some(Failed(ErrorDatabase, CallError(query, "toUpperCase")))
    else if !IsQuerySafe(query.s) then
      Some(Obj([Prop("success", Bool(false)), Prop("message", Str(BlockedMessage))]))
    else None
  }

  /** The answer of `executeQuery` once the engine has answered. */
  function Answer(outcome: EngineOutcome): JsValue {
    match outcome
    case Rows(rows) =>
      Obj([Prop("success", Bool(true)), Prop("message", Str(SuccessSelect)), Prop("data", rows)])
    case Failure(m) => Failed(ErrorDatabase, m)
  }

  /** `executeQuery(query)`: its answer and the statements sent once it returns. */
  function QueryRun(engine: Engine, history: seq<Statement>, query: JsValue): (JsValue, seq<Statement>) {
    match Screen(query)
    case Some(r) => (r, history)
    case None =>
      var st := Statement(query.s, []);
      (Answer(engine(history, st)), history + [st])
  }

  /** The members of a record with `success`, `message` and a third member. */
  lemma RecordFields(ok: bool, message: string, k: string, v: JsValue)
    requires k != "success" && k != "message"
    ensures var r := Obj([Prop("success", Bool(ok)), Prop("message", Str(message)), Prop(k, v)]);
      Get(r, "success") == Bool(ok) && Get(r, "message") == Str(message) && Get(r, k) == v
  {
    var props := [Prop("success", Bool(ok)), Prop("message", Str(message)), Prop(k, v)];
    LookupAt(props, 0);
    LookupAt(props, 1);
    LookupAt(props, 2);
  }

  /** A result record has no member besides its three. */
  lemma RecordLacks(ok: bool, message: string, k: string, v: JsValue, j: string)
    requires j != "success" && j != "message" && j != k
    ensures Get(Obj([Prop("success", Bool(ok)), Prop("message", Str(message)), Prop(k, v)]), j) == Undefined
  {
  }

  /** The query is sent to the engine exactly when it is a string the guard accepts. */
  lemma ScreenIff(query: JsValue)
    ensures Screen(query).None? <==> query.Str? && IsQuerySafe(query.s)
    ensures Screen(query).Some? ==> Get(Screen(query).value, "success") == Bool(false)
  {
    RecordFields(false, ErrorDatabase, "error", Str(CallError(query, "toUpperCase")));
    LookupAt([Prop("success", Bool(false)), Prop("message", Str(BlockedMessage))], 0);
  }

  /**
   * `executeQuery` sends the query text, unchanged and without parameters,
   * exactly when it is a string the guard accepts; otherwise the engine is
   * never invoked.
   */
  lemma QueryRunSends(engine: Engine, history: seq<Statement>, query: JsValue)
    ensures QueryRun(engine, history, query).1 ==
      if query.Str? && IsQuerySafe(query.s) then history + [Statement(query.s, [])] else history
  {
    ScreenIff(query);
  }

  /**
   * `executeQuery` succeeds exactly when the guard accepts a string query
   * and the engine answers with rows, which become `data`; every other
   * outcome is a record with `success: false` rather than an exception.
   */
  lemma QueryRunSuccess(engine: Engine, history: seq<Statement>, query: JsValue)
    ensures var r := QueryRun(engine, history, query).0;
      && Get(r, "success").Bool?
      && (Truthy(Get(r, "success")) <==>
        query.Str? && IsQuerySafe(query.s) && engine(history, Statement(query.s, [])).Rows?)
      && (Truthy(Get(r, "success")) ==>
        Get(r, "data") == engine(history, Statement(query.s, [])).value
        && Get(r, "message") == Str(SuccessSelect))
  {
    ScreenIff(query);
    if Screen(query).None? {
      match engine(history, Statement(query.s, []))
      case Rows(rows) => RecordFields(true, SuccessSelect, "data", rows);
      case Failure(m) => RecordFields(false, ErrorDatabase, "error", Str(m));
    }
  }

  /**
   * The blocked message is given exactly for string queries the guard
   * refuses; an engine error gives the generic database message with the
   * engine's own message as `error`.
   */
  lemma QueryRunMessage(engine: Engine, history: seq<Statement>, query: JsValue)
    ensures var r := QueryRun(engine, history, query).0;
      && (Get(r, "message") == Str(BlockedMessage) <==> query.Str? && !IsQuerySafe(query.s))
      && (query.Str? && IsQuerySafe(query.s) && engine(history, Statement(query.s, [])).Failure? ==>
        r == Failed(ErrorDatabase, engine(history, Statement(query.s, [])).message))
  {
    assert BlockedMessage != SuccessSelect && BlockedMessage != ErrorDatabase;
    RecordFields(false, ErrorDatabase, "error", Str(CallError(query, "toUpperCase")));
    LookupAt([Prop("success", Bool(false)), Prop("message", Str(BlockedMessage))], 1);
    if Screen(query).None? {
      match engine(history, Statement(query.s, []))
      case Rows(rows) => RecordFields(true, SuccessSelect, "data", rows);
      case Failure(m) => RecordFields(false, ErrorDatabase, "error", Str(m));
    }
  }

  // ---------------------------------------------------------------------
  // insertUser

  const InsertUserSql: string :=
    "INSERT INTO user (email, password_hash, first_name, last_name, is_admin) VALUES (?, ?, ?, ?, ?)"

  function UserStatement(email: JsValue, passwordHash: JsValue, firstName: JsValue, lastName: JsValue, isAdmin: JsValue): Statement {
    Statement(InsertUserSql, [email, passwordHash, firstName, lastName, isAdmin])
  }

  /** The answer of `insertUser` to the engine's answer. */
  function InsertUserResult(outcome: EngineOutcome): JsValue {
    match outcome
    case Failure(m) => Failed(ErrorDatabase, m)
    case Rows(header) =>
      match GetProp(header, "insertId")
      case None => Failed(ErrorDatabase, ReadError(header, "insertId"))
      case Some(id) =>
        Obj([Prop("success", Bool(true)), Prop("message", Str(SuccessInsert)), Prop("insertId", id)])
  }

  /**
   * `insertUser` never throws: it reports `success: true` with the engine's
   * `insertId`, or `success: false` with the database message. The record
   * never has a `userId` member, whatever the engine answers.
   */
  lemma InsertUserResultShape(outcome: EngineOutcome)
    ensures Get(InsertUserResult(outcome), "success").Bool?
    ensures Truthy(Get(InsertUserResult(outcome), "success")) <==>
      outcome.Rows? && !outcome.value.Undefined? && !outcome.value.Null?
    ensures Truthy(Get(InsertUserResult(outcome), "success")) ==>
      Get(InsertUserResult(outcome), "message") == Str(SuccessInsert)
      && Get(InsertUserResult(outcome), "insertId") == GetProp(outcome.value, "insertId").value
    ensures !Truthy(Get(InsertUserResult(outcome), "success")) ==>
      Get(InsertUserResult(outcome), "message") == Str(ErrorDatabase)
    ensures Get(InsertUserResult(outcome), "userId") == Undefined
  {
    assert "userId" != "success" && "userId" != "message" && "userId" != "error" && "userId" != "insertId" by {
      assert |"userId"| == 6 && |"error"| == 5 && |"insertId"| == 8;
      assert "userId"[0] != "success"[0] && "userId"[0] != "message"[0];
    }
    match outcome
    case Failure(m) =>
      RecordFields(false, ErrorDatabase, "error", Str(m));
      RecordLacks(false, ErrorDatabase, "error", Str(m), "userId");
    case Rows(header) =>
      match GetProp(header, "insertId")
      case None =>
        RecordFields(false, ErrorDatabase, "error", Str(ReadError(header, "insertId")));
        RecordLacks(false, ErrorDatabase, "error", Str(ReadError(header, "insertId")), "userId");
      case Some(id) =>
        RecordFields(true, SuccessInsert, "insertId", id);
        RecordLacks(true, SuccessInsert, "insertId", id, "userId");
  }

  // ---------------------------------------------------------------------
  // insertDefaultData

  datatype DefaultUser = DefaultUser(email: string, password: string, isAdmin: bool, firstName: string, lastName: string)

  const DefaultUsers: seq<DefaultUser> := [
    DefaultUser("john@john.com", "123", false, "John", "Doe"),
    DefaultUser("admin@admin.com", "111", true, "Admin", "User")
  ]

  /** The insert of a default user; its password goes in unhashed, as in the source. */
  function DefaultUserStatement(u: DefaultUser): Statement {
    UserStatement(Str(u.email), Str(u.password), Str(u.firstName), Str(u.lastName), Bool(u.isAdmin))
  }

  const UserStatements: seq<Statement> :=
    [DefaultUserStatement(DefaultUsers[0]), DefaultUserStatement(DefaultUsers[1])]

  const VoiceSql: string := "INSERT INTO voice (voice_name, voice_code, description) VALUES (?, ?, ?)"
  const LanguageSql: string := "INSERT INTO language (language_name, language_code) VALUES (?, ?)"

  const VoiceStatements: seq<Statement> := [
    Statement(VoiceSql, [Str("Natural Female"), Str("female_natural"), Str("Clear and natural female voice")]),
    Statement(VoiceSql, [Str("Professional Male"), Str("male_professional"), Str("Professional male voice for business content")]),
    Statement(VoiceSql, [Str("Neutral Voice"), Str("neutral_standard"), Str("Gender-neutral voice option")])
  ]

  const LanguageStatements: seq<Statement> := [
    Statement(LanguageSql, [Str("English"), Str("en")]),
    Statement(LanguageSql, [Str("Spanish"), Str("es")]),
    Statement(LanguageSql, [Str("French"), Str("fr")])
  ]

  /** One pass of an insert loop: the record pushed, or the message of what it threw. */
  datatype Step = Pushed(record: JsValue) | Threw(message: string)

  /** A pass of the users loop: `insertUser` catches everything itself. */
  function UserStep(outcome: EngineOutcome): Step {
    Pushed(InsertUserResult(outcome))
  }

  /**
   * A pass of the voices or languages loop: `{ success: true, insertId }`,
   * unless `execute` rejects or its result has no properties to read.
   */
  function RowStep(outcome: EngineOutcome): Step {
    match outcome
    case Failure(m) => Threw(m)
    case Rows(header) =>
      match GetProp(header, "insertId")
      case None => Threw(ReadError(header, "insertId"))
      case Some(id) => Pushed(Obj([Prop("success", Bool(true)), Prop("insertId", id)]))
  }

  /** The state of an insert loop: records pushed, statements sent, exception raised. */
  datatype Run = Run(records: seq<JsValue>, history: seq<Statement>, thrown: Option<string>)

  /**
   * The loop over `stmts` from position `i` on, starting from `acc`: each
   * statement is sent, then its record pushed; the first exception ends it.
   */
  function RunFrom(engine: Engine, stmts: seq<Statement>, i: nat, acc: Run, step: EngineOutcome -> Step): (r: Run)
    requires i <= |stmts| && acc.thrown.None?
    ensures r.thrown.None? ==>
      r.history == acc.history + stmts[i..] && |r.records| == |acc.records| + |stmts| - i
    ensures r.thrown.Some? ==>
      |acc.history| < |r.history| <= |acc.history| + |stmts| - i
      && r.history == acc.history + stmts[i..i + |r.history| - |acc.history|]
      && |r.records| == |acc.records| + |r.history| - |acc.history| - 1
    ensures r.records[..|acc.records|] == acc.records
    decreases |stmts| - i
  {
    if i == |stmts| then acc
    else
      var h := acc.history + [stmts[i]];
      match step(engine(acc.history, stmts[i]))
      case Threw(m) => Run(acc.records, h, Some(m))
      case Pushed(rec) =>
        var r := RunFrom(engine, stmts, i + 1, Run(acc.records + [rec], h, None), step);
        assert acc.history + stmts[i..] == h + stmts[i + 1..];
        if r.thrown.Some? then
          var n := |r.history| - |h|;
          assert h + stmts[i + 1..i + 1 + n] == acc.history + stmts[i..i + 1 + n];
          r
        else r
  }

  /** The users loop never ends early, so it sends and records every user. */
  lemma {:induction false} UsersLoopCompletes(engine: Engine, stmts: seq<Statement>, i: nat, acc: Run)
    requires i <= |stmts| && acc.thrown.None?
    ensures RunFrom(engine, stmts, i, acc, UserStep).thrown.None?
    decreases |stmts| - i
  {
    if i < |stmts| {
      var h := acc.history + [stmts[i]];
      var rec := InsertUserResult(engine(acc.history, stmts[i]));
      UsersLoopCompletes(engine, stmts, i + 1, Run(acc.records + [rec], h, None));
    }
  }

  /** `Inserted default data: N users, M voices, K languages`. */
  function Summary(users: nat, voices: nat, languages: nat): string {
    "Inserted default data: " + NatToDecimal(users) + " users, " + NatToDecimal(voices)
      + " voices, " + NatToDecimal(languages) + " languages"
  }

  /** The answer of `insertDefaultData` and the statements it leaves sent. */
  function DefaultData(engine: Engine, history: seq<Statement>): (JsValue, seq<Statement>) {
    var users := RunFrom(engine, UserStatements, 0, Run([], history, None), UserStep);
    var voices := RunFrom(engine, VoiceStatements, 0, Run([], users.history, None), RowStep);
    if voices.thrown.Some? then (Failed(ErrorDatabase, voices.thrown.value), voices.history)
    else
      var languages := RunFrom(engine, LanguageStatements, 0, Run([], voices.history, None), RowStep);
      if languages.thrown.Some? then (Failed(ErrorDatabase, languages.thrown.value), languages.history)
      else
        var results := Obj([
          Prop("users", Arr(users.records)),
          Prop("voices", Arr(voices.records)),
          Prop("languages", Arr(languages.records))]);
        (Obj([
          Prop("success", Bool(true)),
          Prop("message", Str(Summary(|users.records|, |voices.records|, |languages.records|))),
          Prop("results", results)]),
         languages.history)
  }

  /**
   * Both default users are always sent and recorded, failed inserts
   * included. When no voice or language insert throws, every default
   * statement is sent once, in order, and the summary counts 2, 3 and 3;
   * otherwise the answer is the database error and no language is sent
   * after a voice insert throws.
   */
  lemma DefaultDataOutcome(engine: Engine, history: seq<Statement>)
    ensures var (r, h) := DefaultData(engine, history);
      && h[..|history| + 2] == history + UserStatements
      && (Truthy(Get(r, "success")) ==>
        h == history + UserStatements + VoiceStatements + LanguageStatements
        && Get(r, "message") == Str("Inserted default data: 2 users, 3 voices, 3 languages"))
      && (!Truthy(Get(r, "success")) ==> Get(r, "message") == Str(ErrorDatabase))
  {
    UsersLoopCompletes(engine, UserStatements, 0, Run([], history, None));
    var users := RunFrom(engine, UserStatements, 0, Run([], history, None), UserStep);
    assert UserStatements[0..] == UserStatements;
    assert users.history == history + UserStatements;
    var voices := RunFrom(engine, VoiceStatements, 0, Run([], users.history, None), RowStep);
    assert voices.history[..|history| + 2] == history + UserStatements;
    if voices.thrown.None? {
      assert VoiceStatements[0..] == VoiceStatements;
      var languages := RunFrom(engine, LanguageStatements, 0, Run([], voices.history, None), RowStep);
      assert languages.history[..|history| + 2] == history + UserStatements;
      if languages.thrown.None? {
        assert LanguageStatements[0..] == LanguageStatements;
        SummaryOfDefaults(|users.records|, |voices.records|, |languages.records|);
        DefaultDataSucceeded(users.records, voices.records, languages.records);
      } else {
        FailedFields(languages.thrown.value);
      }
    } else {
      FailedFields(voices.thrown.value);
    }
  }

  lemma FailedFields(error: string)
    ensures Get(Failed(ErrorDatabase, error), "success") == Bool(false)
    ensures Get(Failed(ErrorDatabase, error), "message") == Str(ErrorDatabase)
  {
    RecordFields(false, ErrorDatabase, "error", Str(error));
  }

  lemma SummaryOfDefaults(users: nat, voices: nat, languages: nat)
    requires users == 2 && voices == 3 && languages == 3
    ensures Summary(users, voices, languages) == "Inserted default data: 2 users, 3 voices, 3 languages"
  {
  }

  lemma DefaultDataSucceeded(users: seq<JsValue>, voices: seq<JsValue>, languages: seq<JsValue>)
    ensures var r := Obj([
        Prop("success", Bool(true)),
        Prop("message", Str(Summary(|users|, |voices|, |languages|))),
        Prop("results", Obj([Prop("users", Arr(users)), Prop("voices", Arr(voices)), Prop("languages", Arr(languages))]))]);
      Get(r, "success") == Bool(true) && Get(r, "message") == Str(Summary(|users|, |voices|, |languages|))
  {
    RecordFields(true, Summary(|users|, |voices|, |languages|), "results",
      Obj([Prop("users", Arr(users)), Prop("voices", Arr(voices)), Prop("languages", Arr(languages))]));
  }

  // ---------------------------------------------------------------------
  // The class

  class Database {
    /** The engine behind `this.connection`. */
    const engine: Engine
    /** Every statement sent to the engine, oldest first. */
    var sent: seq<Statement>

    constructor (engine: Engine)
      ensures this.engine == engine && sent == []
    {
      this.engine := engine;
      sent := [];
    }

    /** `this.connection.execute(st)`. */
    method Execute(st: Statement) returns (outcome: EngineOutcome)
      modifies this`sent
      ensures sent == old(sent) + [st]
      ensures outcome == engine(old(sent), st)
    {
      outcome := engine(sent, st);
      sent := sent + [st];
    }

    /** `executeQuery(query)`: a refused query never reaches the engine. */
    method ExecuteQuery(query: JsValue) returns (r: JsValue)
      modifies this`sent
      ensures (r, sent) == QueryRun(engine, old(sent), query)
    {
      if !query.Str? {
        return Failed(ErrorDatabase, CallError(query, "toUpperCase"));
      }
      if !IsQuerySafe(query.s) {
        return Obj([Prop("success", Bool(false)), Prop("message", Str(BlockedMessage))]);
      }
      var outcome := Execute(Statement(query.s, []));
      match outcome
      case Rows(rows) =>
        r := Obj([Prop("success", Bool(true)), Prop("message", Str(SuccessSelect)), Prop("data", rows)]);
      case Failure(m) =>
        r := Failed(ErrorDatabase, m);
    }

    /** `insertUser(email, passwordHash, firstName, lastName, isAdmin)`. */
    method InsertUser(email: JsValue, passwordHash: JsValue, firstName: JsValue, lastName: JsValue, isAdmin: JsValue)
      returns (r: JsValue)
      modifies this`sent
      ensures sent == old(sent) + [UserStatement(email, passwordHash, firstName, lastName, isAdmin)]
      ensures r == InsertUserResult(engine(old(sent), UserStatement(email, passwordHash, firstName, lastName, isAdmin)))
    {
      var outcome := Execute(UserStatement(email, passwordHash, firstName, lastName, isAdmin));
      match outcome {
        case Failure(m) =>
          r := Failed(ErrorDatabase, m);
        case Rows(header) =>
          var id := GetProp(header, "insertId");
          if id.None? {
            r := Failed(ErrorDatabase, ReadError(header, "insertId"));
          } else {
            r := Obj([Prop("success", Bool(true)), Prop("message", Str(SuccessInsert)), Prop("insertId", id.value)]);
          }
      }
    }

    /** One of the voice or language loops: send each row, push `{ success, insertId }`. */
    method InsertRows(stmts: seq<Statement>) returns (records: seq<JsValue>, thrown: Option<string>)
      modifies this`sent
      ensures Run(records, sent, thrown) == RunFrom(engine, stmts, 0, Run([], old(sent), None), RowStep)
    {
      records := [];
      var i := 0;
      while i < |stmts|
        invariant i <= |stmts|
        invariant RunFrom(engine, stmts, i, Run(records, sent, None), RowStep)
          == RunFrom(engine, stmts, 0, Run([], old(sent), None), RowStep)
      {
        var outcome := Execute(stmts[i]);
        match outcome {
          case Failure(m) =>
            return records, Some(m);
          case Rows(header) =>
            var id := GetProp(header, "insertId");
            if id.None? {
              return records, Some(ReadError(header, "insertId"));
            }
            records := records + [Obj([Prop("success", Bool(true)), Prop("insertId", id.value)])];
        }
        i := i + 1;
      }
      thrown := None;
    }

    /** `insertDefaultData()`. */
    method InsertDefaultData() returns (r: JsValue)
      modifies this`sent
      ensures (r, sent) == DefaultData(engine, old(sent))
    {
      var users: seq<JsValue> := [];
      for i := 0 to |DefaultUsers|
        invariant RunFrom(engine, UserStatements, i, Run(users, sent, None), UserStep)
          == RunFrom(engine, UserStatements, 0, Run([], old(sent), None), UserStep)
      {
        var u := DefaultUsers[i];
        var result := InsertUser(Str(u.email), Str(u.password), Str(u.firstName), Str(u.lastName), Bool(u.isAdmin));
        users := users + [result];
      }
      var voices, voiceError := InsertRows(VoiceStatements);
      if voiceError.Some? {
        return Failed(ErrorDatabase, voiceError.value);
      }
      var languages, languageError := InsertRows(LanguageStatements);
      if languageError.Some? {
        return Failed(ErrorDatabase, languageError.value);
      }
      var results := Obj([Prop("users", Arr(users)), Prop("voices", Arr(voices)), Prop("languages", Arr(languages))]);
      r := Obj([
        Prop("success", Bool(true)),
        Prop("message", Str(Summary(|users|, |voices|, |languages|))),
        Prop("results", results)]);
    }
  }
}
