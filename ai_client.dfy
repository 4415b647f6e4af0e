/**
 * The AI dashboard client (server1/script.js): how it reads the usage
 * counters of the signed-in user and shows the soft free-call limit, how a
 * generation answer is merged into the user record, which sections a user
 * sees, and how `callApi` shapes errors. The page elements are the fields of
 * `Dashboard`; the network answer is a parameter.
 */
module AiClient {
  import opened Wrappers
  import opened JsValues
  import opened Text

  // ---------------------------------------------------------------------
  // Numbers

  /** A JavaScript number as far as this page uses it: an integer or NaN. */
  datatype Number = Finite(n: int) | NaN

  predicate AllDigits(s: string) {
    forall i :: 0 <= i < |s| ==> IsDigit(s[i])
  }

  /** `Number(s)` for a string: blank is 0, an optionally signed run of decimal digits is its value, anything else NaN. */
  function NumberOfString(s: string): Number {
    var t := JsTrim(s);
    if t == "" then Finite(0)
    else if AllDigits(t) then Finite(DecimalValue(t))
    else if |t| > 1 && (t[0] == '-' || t[0] == '+') && AllDigits(t[1..]) then
      var v: int := DecimalValue(t[1..]);
      Finite(if t[0] == '-' then -v else v)
    else NaN
  }

  /** `Number(v)`: undefined is NaN, null 0, booleans 0 and 1; arrays and objects go through their string form. */
  function NumberOf(v: JsValue): Number {
    match v
    case Undefined => NaN
    case Null => Finite(0)
    case Bool(b) => Finite(if b then 1 else 0)
    case Num(n) => Finite(n)
    case Str(s) => NumberOfString(s)
    case Arr(_) => NumberOfString(ToString(v))
    case Obj(_) => NumberOfString(ToString(v))
  }

  /** A number printed by `String` is read back by `Number`. */
  lemma NumberOfNumeral(n: int)
    ensures NumberOf(Str(IntToDecimal(n))) == Finite(n)
  {
    if n < 0 {
      NumberOfNegative(n);
    } else {
      NumberOfNatural(n);
    }
  }

  /** A numeral without a sign reads back as its value. */
  lemma NumberOfNatural(n: nat)
    ensures NumberOfString(NatToDecimal(n)) == Finite(n)
  {
    var s := NatToDecimal(n);
    TrimNoop(s, IsJsWhitespace);
    assert AllDigits(s);
    DecimalValueOfNumeral(n);
  }

  /** A numeral with a minus sign reads back as its negative value. */
  lemma NumberOfNegative(n: int)
    requires n < 0
    ensures NumberOfString("-" + NatToDecimal(-n)) == Finite(n)
  {
    var s := "-" + NatToDecimal(-n);
    TrimNoop(s, IsJsWhitespace);
    NegativeNumeral(s, -n);
  }

  /** A minus sign before digits is read as a signed numeral. */
  lemma NegativeNumeral(t: string, m: nat)
    requires t == "-" + NatToDecimal(m)
    ensures !AllDigits(t) && |t| > 1 && t[0] == '-' && AllDigits(t[1..]) && DecimalValue(t[1..]) == m
  {
    assert t[1..] == NatToDecimal(m);
    assert !IsDigit(t[0]);
    DecimalValueOfNumeral(m);
  }

  function Minus(a: Number, b: Number): Number {
    if a.Finite? && b.Finite? then Finite(a.n - b.n) else NaN
  }

  /** `Math.max(0, x)`, which is NaN when `x` is. */
  function Max0(x: Number): (r: Number)
    ensures x.NaN? <==> r.NaN?
    ensures r.Finite? ==> r.n >= 0 && r.n >= x.n && (r.n == x.n || r.n == 0)
  {
    if x.NaN? then NaN else Finite(if x.n < 0 then 0 else x.n)
  }

  /** `${x}` for a number. */
  function ShowNumber(x: Number): string {
    if x.NaN? then "NaN" else IntToDecimal(x.n)
  }

  // ---------------------------------------------------------------------
  // Usage arithmetic

  const DefaultFreeCallLimit: int := 20

  datatype Usage = Usage(used: Number, limit: Number, remaining: Number)

  /** The property `k` of a value that is neither null nor undefined. */
  function Field(user: JsValue, k: string): JsValue
    requires !user.Undefined? && !user.Null?
  {
    GetProp(user, k).value
  }

  /** The three figures `updateUsageSummary` computes for a user. */
  function UsageOf(user: JsValue): Usage
    requires !user.Undefined? && !user.Null?
  {
    var used := NumberOf(Coalesce(Field(user, "apiCallsUsed"), Num(0)));
    var limit := NumberOf(Coalesce(Field(user, "freeCallLimit"), Num(DefaultFreeCallLimit)));
    var reported := Field(user, "freeCallsRemaining");
    var remaining := Max0(if reported.Undefined? || reported.Null? then Minus(limit, used) else NumberOf(reported));
    Usage(used, limit, remaining)
  }

  /**
   * The defaults replace only null and undefined: a stored 0 (or any other
   * value) is used as it is. The remaining count is the reported one when
   * present, otherwise the limit minus the calls used, and it is never
   * negative.
   */
  lemma UsageFigures(user: JsValue)
    requires !user.Undefined? && !user.Null?
    ensures var u := UsageOf(user);
      && (Field(user, "apiCallsUsed").Undefined? || Field(user, "apiCallsUsed").Null? ==> u.used == Finite(0))
      && (!(Field(user, "apiCallsUsed").Undefined? || Field(user, "apiCallsUsed").Null?) ==> u.used == NumberOf(Field(user, "apiCallsUsed")))
      && (Field(user, "freeCallLimit").Undefined? || Field(user, "freeCallLimit").Null? ==> u.limit == Finite(DefaultFreeCallLimit))
      && (!(Field(user, "freeCallLimit").Undefined? || Field(user, "freeCallLimit").Null?) ==> u.limit == NumberOf(Field(user, "freeCallLimit")))
      && (u.remaining.Finite? ==> u.remaining.n >= 0)
      && (var r := Field(user, "freeCallsRemaining");
          (r.Undefined? || r.Null?) && u.used.Finite? && u.limit.Finite? ==>
            u.remaining == Finite(if u.limit.n >= u.used.n then u.limit.n - u.used.n else 0))
      && (var r := Field(user, "freeCallsRemaining");
          !(r.Undefined? || r.Null?) ==> u.remaining == Max0(NumberOf(r)))
  {
  }

  /** A user whose limit is stored as 0 keeps the limit 0, and with no calls reported is at the end of the free calls. */
  lemma ZeroLimitKept(used: int)
    requires used >= 0
    ensures var u := UsageOf(Obj([Prop("apiCallsUsed", Num(used)), Prop("freeCallLimit", Num(0))]));
      u.limit == Finite(0) && u.remaining == Finite(0)
  {
    var user := Obj([Prop("apiCallsUsed", Num(used)), Prop("freeCallLimit", Num(0))]);
    assert Lookup(user.props[1..], "freeCallLimit") == Some(Num(0));
    assert Lookup(user.props[1..][1..], "freeCallsRemaining").None?;
    assert Lookup(user.props[1..], "freeCallsRemaining").None?;
  }

  const LimitNoticeText: string :=
    "You have reached the end of your complimentary calls. The AI is still available, but future usage may require payment."

  function SummaryText(u: Usage): string {
    "You have used " + ShowNumber(u.used) + " of " + ShowNumber(u.limit) + " free AI calls ("
      + ShowNumber(u.remaining) + " remaining)."
  }

  // ---------------------------------------------------------------------
  // Messages

  /** The text and class of a message element. */
  datatype Message = Message(text: string, className: string)

  /** `setMessage(target, message, type)`: the class is "message", followed by the type when there is one. */
  function SetMessage(message: string, kind: string): (m: Message)
    ensures m.text == message
    ensures kind == "" ==> m.className == "message"
    ensures kind != "" ==> m.className == "message " + kind
  {
    Message(message, "message" + (if kind != "" then " " + kind else ""))
  }

  // ---------------------------------------------------------------------
  // callApi

  const NetworkErrorMessage: string := "Network error. Please verify that the API server is online."
  const RequestFailedMessage: string := "Request failed"

  /**
   * What `fetch` gave: a rejection, or an answer with its `ok` flag, its
   * status and its body parsed as JSON (None when parsing failed).
   */
  datatype FetchOutcome = NetworkFailure | Answer(ok: bool, status: nat, json: Option<JsValue>)

  /** What `callApi` resolves to, or the error it throws (status 0 stands for a missing status). */
  datatype ApiResult = Data(data: JsValue) | ApiError(message: string, status: nat)

  /** The message of a failed answer: its `message` field when truthy, else "Request failed". */
  function ServerMessage(data: JsValue): string {
    var m := if data.Undefined? || data.Null? then Undefined else Field(data, "message");
    ToString(Or(m, Str(RequestFailedMessage)))
  }

  function CallApi(outcome: FetchOutcome): ApiResult {
    match outcome
    case NetworkFailure => ApiError(NetworkErrorMessage, 0)
    case Answer(ok, status, json) =>
      var data := json.GetOr(Obj([]));
      if ok then Data(data)
      else if status == 0 then ApiError(NetworkErrorMessage, 0)
      else ApiError(ServerMessage(data), status)
  }

  /**
   * The body of an OK answer is the result, an unparseable one reads as
   * `{}`; a failed answer becomes an error with its status and the server's
   * message, and an error without a status carries the network message.
   */
  lemma CallApiOutcome(outcome: FetchOutcome)
    ensures CallApi(outcome).Data? <==> outcome.Answer? && outcome.ok
    ensures outcome.Answer? && outcome.ok ==> CallApi(outcome).data == outcome.json.GetOr(Obj([]))
    ensures outcome.Answer? && !outcome.ok && outcome.status != 0 ==>
      CallApi(outcome) == ApiError(ServerMessage(outcome.json.GetOr(Obj([]))), outcome.status)
    ensures CallApi(outcome).ApiError? && CallApi(outcome).status == 0 ==> CallApi(outcome).message == NetworkErrorMessage
  {
  }

  /** A failed answer whose body has no message (or cannot be parsed) reads "Request failed". */
  lemma ServerMessageDefault(data: JsValue)
    requires data.Obj? && Lookup(data.props, "message").None?
    ensures ServerMessage(data) == RequestFailedMessage
  {
  }

  // ---------------------------------------------------------------------
  // Merging the usage of a generation answer

  /** `data.usage?.[k]`. */
  function UsageField(usage: JsValue, k: string): JsValue {
    if usage.Undefined? || usage.Null? then Undefined else Field(usage, k)
  }

  /**
   * The three assignments of `handleGenerate` to `state.user`. Assigning a
   * property of a primitive is silently dropped in a classic script, so only
   * objects change.
   */
  function MergeUsage(user: JsValue, usage: JsValue): JsValue {
    if !user.Obj? then user
    else
      var p1 := SetProp(user.props, "apiCallsUsed", Coalesce(UsageField(usage, "total"), Get(user, "apiCallsUsed")));
      var p2 := SetProp(p1, "freeCallsRemaining", Coalesce(UsageField(usage, "remaining"), Get(Obj(p1), "freeCallsRemaining")));
      var p3 := SetProp(p2, "freeCallLimit", Coalesce(UsageField(usage, "limit"), Get(Obj(p2), "freeCallLimit")));
      Obj(p3)
  }

  /**
   * Each counter is overwritten exactly when the answer supplies it and
   * keeps its old value otherwise; every other property is untouched.
   */
  lemma MergeUsageSpec(user: JsValue, usage: JsValue)
    requires user.Obj?
    ensures var r := MergeUsage(user, usage);
      && r.Obj?
      && Get(r, "apiCallsUsed") == Coalesce(UsageField(usage, "total"), Get(user, "apiCallsUsed"))
      && Get(r, "freeCallsRemaining") == Coalesce(UsageField(usage, "remaining"), Get(user, "freeCallsRemaining"))
      && Get(r, "freeCallLimit") == Coalesce(UsageField(usage, "limit"), Get(user, "freeCallLimit"))
      && forall k :: k != "apiCallsUsed" && k != "freeCallsRemaining" && k != "freeCallLimit" ==>
        Lookup(r.props, k) == Lookup(user.props, k)
  {
  }

  // ---------------------------------------------------------------------
  // The page

  /** Everything on the page these functions write, plus `state.user`. */
  datatype View = View(
    user: JsValue,
    authHidden: bool, dashboardHidden: bool, adminHidden: bool,
    welcome: string,
    usageSummary: string, limitNotice: string, limitWarning: bool, limitHidden: bool,
    loginMessage: Message, registerMessage: Message, generateMessage: Message,
    aiResponse: string, aiResponseHidden: bool)

  /** `updateUsageSummary(user)` on a view. */
  function ShowUsage(v: View, user: JsValue): View {
    if !Truthy(user) then v.(usageSummary := "") else ShowFigures(v, UsageOf(user))
  }

  /** The summary and the limit notice for the figures `u`. */
  function ShowFigures(v: View, u: Usage): View {
    var exhausted := u.remaining == Finite(0);
    v.(usageSummary := SummaryText(u),
       limitNotice := if exhausted then LimitNoticeText else "",
       limitWarning := exhausted,
       limitHidden := !exhausted)
  }

  /**
   * A null user clears only the summary. Otherwise only the summary and the
   * limit notice change: the summary shows the usage figures, and the notice
   * shows, with the warning class, exactly when no calls remain.
   */
  lemma ShowUsageEffect(v: View, user: JsValue)
    ensures var r := ShowUsage(v, user);
      && (!Truthy(user) ==> r == v.(usageSummary := ""))
      && (Truthy(user) ==>
        && r == v.(usageSummary := r.usageSummary, limitNotice := r.limitNotice,
                   limitWarning := r.limitWarning, limitHidden := r.limitHidden)
        && r.usageSummary == SummaryText(UsageOf(user))
        && (!r.limitHidden <==> UsageOf(user).remaining == Finite(0))
        && r.limitWarning == !r.limitHidden
        && r.limitNotice == (if r.limitHidden then "" else LimitNoticeText))
  {
  }

  /** Whether `user.role === 'admin'`. */
  predicate IsAdmin(user: JsValue)
    requires !user.Undefined? && !user.Null?
  {
    Field(user, "role") == Str("admin")
  }

  /** `applyUser(user)` on a view. */
  function ApplyUserTo(v: View, user: JsValue): View {
    if !Truthy(user) then SignedOut(v, user) else SignedIn(v, user)
  }

  /** `applyUser(user)` without a user: back to the sign-in forms, with their messages cleared. */
  function SignedOut(v: View, user: JsValue): View {
    ClearMessages(Toggled(v.(user := user), true, false, false))
  }

  /** The three `toggleSection` calls: which of the sign-in, dashboard and admin sections show. */
  function Toggled(v: View, auth: bool, dashboard: bool, admin: bool): View {
    v.(authHidden := !auth, dashboardHidden := !dashboard, adminHidden := !admin)
  }

  /** `setMessage(loginMessage, '')` and `setMessage(registerMessage, '')`. */
  function ClearMessages(v: View): View {
    v.(loginMessage := SetMessage("", "info"), registerMessage := SetMessage("", "info"))
  }

  /** `applyUser(user)` with a user: the dashboard, greeting and usage, and the admin section for an admin. */
  function SignedIn(v: View, user: JsValue): View
    requires Truthy(user)
  {
    ShowUsage(Welcomed(v.(user := user), user), user).(adminHidden := !IsAdmin(user))
  }

  /** The dashboard replaces the sign-in forms and greets the user by email. */
  function Welcomed(v: View, user: JsValue): View
    requires Truthy(user)
  {
    v.(authHidden := true, dashboardHidden := false, welcome := "Welcome, " + ToString(Field(user, "email")))
  }

  /**
   * Without a user only the sign-in section shows. With one the dashboard
   * shows instead, greeting the user by email, and the admin section shows
   * exactly when the role is the string "admin".
   */
  lemma ApplyUserSections(v: View, user: JsValue)
    ensures var r := ApplyUserTo(v, user);
      && r.user == user
      && (!Truthy(user) ==> !r.authHidden && r.dashboardHidden && r.adminHidden
                            && r.loginMessage.text == "" && r.registerMessage.text == "")
      && (Truthy(user) ==>
            && r.authHidden && !r.dashboardHidden
            && (!r.adminHidden <==> Field(user, "role") == Str("admin"))
            && r.welcome == "Welcome, " + ToString(Field(user, "email"))
            && r.usageSummary == SummaryText(UsageOf(user)))
  {
    if Truthy(user) {
      var w := Welcomed(v.(user := user), user);
      assert ShowUsage(w, user) == ShowFigures(w, UsageOf(user));
      assert ApplyUserTo(v, user) == ShowFigures(w, UsageOf(user)).(adminHidden := !IsAdmin(user));
    } else {
      assert ApplyUserTo(v, user) == SignedOut(v, user);
    }
  }

  const EmptyPromptMessage: string := "Please enter a prompt first."
  const ExhaustedMessage: string := "Free tier exhausted. Service will continue."
  const NoTextMessage: string := "No text generated."
  /** The TypeError V8 raises for `data.message` when the answer is `null`. */
  const NullReadMessage: string := "Cannot read properties of null (reading 'message')"

  datatype Generated = Generated(view: View, request: Option<JsValue>)

  /** The JSON body of a generation request. */
  function PromptBody(prompt: string): JsValue {
    Obj([Prop("prompt", Str(prompt))])
  }

  /** The answer's message and text are shown. */
  function ShowText(v: View, data: JsValue): View
    requires !data.Undefined? && !data.Null?
  {
    v.(generateMessage := SetMessage(ToString(Or(Field(data, "message"), Str("Done!"))), "success"),
       aiResponse := ToString(Or(Field(data, "generatedText"), Str(NoTextMessage))),
       aiResponseHidden := false)
  }

  /** A signed-in user takes the answer's counters and the summary is redrawn. */
  function MergeAnswer(v: View, data: JsValue): View
    requires !data.Undefined? && !data.Null?
  {
    if Truthy(v.user) then
      var u := MergeUsage(v.user, Field(data, "usage"));
      ShowUsage(v.(user := u), u)
    else v
  }

  /** A `limitReached` answer turns the message into an error. */
  function MarkLimit(v: View, data: JsValue): View
    requires !data.Undefined? && !data.Null?
  {
    if Truthy(Field(data, "limitReached")) then
      v.(generateMessage := SetMessage(ToString(Or(Field(data, "message"), Str(ExhaustedMessage))), "error"))
    else v
  }

  /** Redrawing the usage leaves the user, the answer and the message alone. */
  lemma ShowUsageKeeps(w: View, user: JsValue)
    ensures var r := ShowUsage(w, user);
      r.user == w.user && r.aiResponse == w.aiResponse && r.aiResponseHidden == w.aiResponseHidden
      && r.generateMessage == w.generateMessage
  {
    if Truthy(user) {
      var u := UsageOf(user);
      assert ShowUsage(w, user) == ShowFigures(w, u);
    }
  }

  /** Merging the usage touches the user and the usage fields only. */
  lemma MergeAnswerKeeps(v: View, data: JsValue)
    requires !data.Undefined? && !data.Null?
    ensures var m := MergeAnswer(v, data);
      && m.aiResponse == v.aiResponse && m.aiResponseHidden == v.aiResponseHidden
      && m.generateMessage == v.generateMessage
      && m.user == (if Truthy(v.user) then MergeUsage(v.user, Field(data, "usage")) else v.user)
  {
    if Truthy(v.user) {
      var u := MergeUsage(v.user, Field(data, "usage"));
      ShowUsageKeeps(v.(user := u), u);
    }
  }

  /** The part of `handleGenerate()` after an answer `data` that is neither null nor undefined. */
  function ShowAnswer(v: View, data: JsValue): View
    requires !data.Undefined? && !data.Null?
  {
    MarkLimit(MergeAnswer(ShowText(v, data), data), data)
  }

  /** Merging the usage and marking the limit leave the shown text alone. */
  lemma AnswerTextKept(v: View, data: JsValue)
    requires !data.Undefined? && !data.Null?
    ensures var r := ShowAnswer(v, data);
      && !r.aiResponseHidden
      && r.aiResponse == ToString(Or(Field(data, "generatedText"), Str(NoTextMessage)))
  {
    var t := ShowText(v, data);
    MergeAnswerKeeps(t, data);
    var m := MergeAnswer(t, data);
    assert ShowAnswer(v, data) == MarkLimit(m, data);
  }

  /**
   * An answer always shows its text (`AnswerTextKept`), also when the free
   * calls are used up: this is the soft cap. `limitReached` only turns the
   * message into an error.
   */
  lemma AnswerLimitIsSoft(v: View, data: JsValue)
    requires !data.Undefined? && !data.Null?
    ensures (ShowAnswer(v, data).generateMessage.className == "message error") <==> Truthy(Field(data, "limitReached"))
  {
    var t := ShowText(v, data);
    MergeAnswerKeeps(t, data);
    var m := MergeAnswer(t, data);
    assert ShowAnswer(v, data) == MarkLimit(m, data);
    assert "message success" != "message error" by {
      assert "message success"[8] != "message error"[8];
    }
  }

  /** A signed-in user takes the counters of the answer; without one nothing is merged. */
  lemma AnswerMergesUsage(v: View, data: JsValue)
    requires !data.Undefined? && !data.Null?
    ensures ShowAnswer(v, data).user == (if Truthy(v.user) then MergeUsage(v.user, Field(data, "usage")) else v.user)
  {
    var t := ShowText(v, data);
    assert t.user == v.user;
    MergeAnswerKeeps(t, data);
    var m := MergeAnswer(t, data);
    assert ShowAnswer(v, data) == MarkLimit(m, data);
  }

  /** `handleGenerate()` on a view, for the prompt typed and the answer `fetch` gives. */
  function Generate(v: View, promptValue: string, outcome: FetchOutcome): Generated {
    var prompt := JsTrim(promptValue);
    if prompt == "" then Generated(v.(generateMessage := SetMessage(EmptyPromptMessage, "error")), None)
    else Generated(Respond(v, CallApi(outcome)), Some(PromptBody(prompt)))
  }

  /** What `handleGenerate()` does with what `callApi` resolved to or threw. */
  function Respond(v: View, result: ApiResult): View {
    match result
    case ApiError(message, _) => v.(generateMessage := SetMessage(message, "error"))
    case Data(data) =>
      if data.Undefined? || data.Null? then v.(generateMessage := SetMessage(NullReadMessage, "error"))
      else ShowAnswer(v, data)
  }

  /** A request is sent exactly when the trimmed prompt is not empty. */
  lemma GenerateSends(v: View, promptValue: string, outcome: FetchOutcome)
    ensures Generate(v, promptValue, outcome).request.None? <==> JsTrim(promptValue) == ""
  {
  }

  /** The request carries the trimmed prompt. */
  lemma GenerateBody(v: View, promptValue: string, outcome: FetchOutcome)
    requires JsTrim(promptValue) != ""
    ensures Generate(v, promptValue, outcome).request == Some(PromptBody(JsTrim(promptValue)))
  {
  }

  /** A blank prompt only shows an error. */
  lemma GenerateBlank(v: View, promptValue: string, outcome: FetchOutcome)
    requires JsTrim(promptValue) == ""
    ensures Generate(v, promptValue, outcome).view == v.(generateMessage := Message(EmptyPromptMessage, "message error"))
  {
  }

  /** A failed call changes only the message, which shows the error. */
  lemma GenerateFailed(v: View, promptValue: string, outcome: FetchOutcome)
    requires JsTrim(promptValue) != "" && CallApi(outcome).ApiError?
    ensures Generate(v, promptValue, outcome).view == v.(generateMessage := Message(CallApi(outcome).message, "message error"))
  {
    var r := CallApi(outcome);
    assert Generate(v, promptValue, outcome).view == Respond(v, r);
    RespondError(v, r);
  }

  /** An error only replaces the generation message, with the error class. */
  lemma RespondError(v: View, r: ApiResult)
    requires r.ApiError?
    ensures Respond(v, r) == v.(generateMessage := Message(r.message, "message error"))
  {
    var m := SetMessage(r.message, "error");
    assert "message " + "error" == "message error";
    assert m == Message(r.message, "message error");
  }

  /** The dashboard's elements and `state.user`. */
  class Dashboard {
    var user: JsValue
    var authHidden: bool
    var dashboardHidden: bool
    var adminHidden: bool
    var welcome: string
    var usageSummary: string
    var limitNotice: string
    var limitWarning: bool
    var limitHidden: bool
    var loginMessage: Message
    var registerMessage: Message
    var generateMessage: Message
    var aiResponse: string
    var aiResponseHidden: bool

    function Snapshot(): View
      reads this
    {
      View(user, authHidden, dashboardHidden, adminHidden, welcome,
                    usageSummary, limitNotice, limitWarning, limitHidden,
                    loginMessage, registerMessage, generateMessage, aiResponse, aiResponseHidden)
    }

    /** `updateUsageSummary(user)`. */
    method UpdateUsageSummary(user: JsValue)
      modifies this
      ensures Snapshot() == ShowUsage(old(Snapshot()), user)
    {
      if !Truthy(user) {
        usageSummary := "";
        return;
      }
      var usage := UsageOf(user);
      ShowFiguresOf(usage);
    }

    /** The part of `updateUsageSummary(user)` after the figures are computed. */
    method ShowFiguresOf(usage: Usage)
      modifies this
      ensures Snapshot() == ShowFigures(old(Snapshot()), usage)
    {
      usageSummary := SummaryText(usage);
      if usage.remaining == Finite(0) {
        limitNotice := LimitNoticeText;
        limitWarning := true;
        limitHidden := false;
      } else {
        limitNotice := "";
        limitWarning := false;
        limitHidden := true;
      }
    }

    /** `applyUser(user)`; the admin table it refreshes for an admin is not part of this model. */
    method ApplyUser(user: JsValue)
      modifies this
      ensures Snapshot() == ApplyUserTo(old(Snapshot()), user)
    {
      this.user := user;
      if !Truthy(user) {
        ToggleSections(true, false, false);
        ClearFormMessages();
        return;
      }
      ShowDashboard(user);
    }

    /** `toggleSection` on the sign-in, dashboard and admin sections. */
    method ToggleSections(auth: bool, dashboard: bool, admin: bool)
      modifies this
      ensures Snapshot() == Toggled(old(Snapshot()), auth, dashboard, admin)
    {
      authHidden := !auth;
      dashboardHidden := !dashboard;
      adminHidden := !admin;
    }

    /** Clears the messages of the sign-in and registration forms. */
    method ClearFormMessages()
      modifies this
      ensures Snapshot() == ClearMessages(old(Snapshot()))
    {
      loginMessage := SetMessage("", "info");
      registerMessage := SetMessage("", "info");
    }

    /** The part of `applyUser(user)` for a signed-in user. */
    method ShowDashboard(user: JsValue)
      requires Truthy(user) && this.user == user
      modifies this
      ensures Snapshot() == SignedIn(old(Snapshot()), user)
    {
      Welcome(user);
      UpdateUsageSummary(user);
      adminHidden := !IsAdmin(user);
    }

    /** Shows the dashboard instead of the sign-in forms, with the greeting. */
    method Welcome(user: JsValue)
      requires Truthy(user)
      modifies this
      ensures Snapshot() == Welcomed(old(Snapshot()), user)
    {
      authHidden := true;
      dashboardHidden := false;
      welcome := "Welcome, " + ToString(Field(user, "email"));
    }

    /** `handleGenerate()`: returns the request body sent, if any. */
    method HandleGenerate(promptValue: string, outcome: FetchOutcome) returns (request: Option<JsValue>)
      modifies this
      ensures Generated(Snapshot(), request) == Generate(old(Snapshot()), promptValue, outcome)
    {
      var prompt := JsTrim(promptValue);
      if prompt == "" {
        generateMessage := SetMessage(EmptyPromptMessage, "error");
        return None;
      }
      request := Some(PromptBody(prompt));
      var result := CallApi(outcome);
      RespondTo(result);
    }

    /** The `try`/`catch` of `handleGenerate()` once `callApi` has resolved or thrown. */
    method RespondTo(result: ApiResult)
      modifies this
      ensures Snapshot() == Respond(old(Snapshot()), result)
    {
      if result.ApiError? {
        generateMessage := SetMessage(result.message, "error");
        return;
      }
      var data := result.data;
      if data.Undefined? || data.Null? {
        generateMessage := SetMessage(NullReadMessage, "error");
        return;
      }
      ShowAnswerOf(data);
    }

    /** The steps of `handleGenerate()` once an answer has arrived. */
    method ShowAnswerOf(data: JsValue)
      requires !data.Undefined? && !data.Null?
      modifies this
      ensures Snapshot() == ShowAnswer(old(Snapshot()), data)
    {
      ShowTextOf(data);
      MergeAnswerOf(data);
      MarkLimitOf(data);
    }

    method ShowTextOf(data: JsValue)
      requires !data.Undefined? && !data.Null?
      modifies this
      ensures Snapshot() == ShowText(old(Snapshot()), data)
    {
      generateMessage := SetMessage(ToString(Or(Field(data, "message"), Str("Done!"))), "success");
      aiResponse := ToString(Or(Field(data, "generatedText"), Str(NoTextMessage)));
      aiResponseHidden := false;
    }

    method MergeAnswerOf(data: JsValue)
      requires !data.Undefined? && !data.Null?
      modifies this
      ensures Snapshot() == MergeAnswer(old(Snapshot()), data)
    {
      if Truthy(user) {
        user := MergeUsage(user, Field(data, "usage"));
        UpdateUsageSummary(user);
      }
    }

    method MarkLimitOf(data: JsValue)
      requires !data.Undefined? && !data.Null?
      modifies this
      ensures Snapshot() == MarkLimit(old(Snapshot()), data)
    {
      if Truthy(Field(data, "limitReached")) {
        generateMessage := SetMessage(ToString(Or(Field(data, "message"), Str(ExhaustedMessage))), "error");
      }
    }
  }
}
