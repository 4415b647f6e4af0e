# ISA Project Group 5 — verified model of the request logic

This project models, in Dafny, the parts of the ISA Project Group 5 web
application that hold logic rather than wiring, and proves what they promise:

- **SQL service** (`server2/`): the query guard `isQuerySafe`, the result
  records of `executeQuery`, `insertUser` and `insertDefaultData` over an
  abstract SQL engine, the token extraction of `auth.js`, the cookie
  serialiser `setCookie`, `authenticateRequest`, the route handlers with API
  metering, and the top-level dispatcher.
- **SQL client page** (`server1/js/script.js`): the GET/POST choice, the URL
  it builds, and the HTML `formatResponse` produces.
- **Speech widget** (`public/script.js`): base-URL normalisation and
  precedence, the status line, the byte copy in `base64ToBlob`, the
  synthesis payload, and the configuration fallbacks.
- **AI dashboard** (`server1/script.js`): usage arithmetic, the usage merge
  after a generation, role gating, and the error shaping of `callApi`.
- **Speech service** (`server3/`): the voice registry over a filesystem
  abstracted as a set of paths, and the request handling of `main.py`: the
  CORS origin list, the two request validators, the precedence of the
  speaker reference, temporary-file cleanup and the published configuration.

JavaScript values are the datatype `JsValues.JsValue` (integers only for
numbers), strings are `seq<char>`, and the SQL engine, the JWT library, the
TTS model, base64 decoding and downloads are parameters. Objects whose
fields the source updates in place (the database connection's log of sent
statements, the user store, the server, the dashboard state, the status
line, the voice registry) are classes; each of their methods is proved
equal to a specification function, and the lemmas about those functions
carry the promises.

Files: `wrappers.dfy` (Option), `js_values.dfy` (JavaScript values,
`String()`, property access, `JSON.stringify` of members), `text.dfy`
(trim, strip, ASCII upper-casing, `includes`, `split`/`join`),
`percent.dfy` (`encodeURIComponent`/`decodeURIComponent` with UTF-8),
`query_guard.dfy`, `database.dfy`, `user_store.dfy`, `auth.dfy`,
`server.dfy`, `sql_client.dfy`, `tts_widget.dfy`, `ai_client.dfy`,
`voice_registry.dfy`, `speech_service.dfy`.

## Model

| member | source | states |
|---|---|---|
| QueryGuard.HitsDenylistIff | server2/database.js:141-145 | the denylist scan reports a hit exactly when some keyword occurs in the text |
| QueryGuard.QuerySafeIff | server2/database.js:138-152 | a query is safe iff its upper-cased, trimmed text starts with SELECT or INSERT and contains none of the eight blocked keywords |
| QueryGuard.KeywordAnywhereBlocks | server2/database.js:141-145 | a blocked keyword anywhere in the text, inside a column name or literal included, makes the query unsafe |
| QueryGuard.UpperOfKeyword | server2/lang/messages/en/user.js:140 | every blocked keyword is upper-case letters only, so it survives upper-casing |
| QueryGuard.OccurrenceSurvivesTrim | server2/database.js:139 | trimming keeps every occurrence of a text that starts and ends with a kept character |
| QueryGuard.KeywordSurvivesTrim | server2/database.js:139-142 | trimming keeps every occurrence of a blocked keyword |
| QueryGuard.CaseInsensitive | server2/database.js:139 | queries equal up to letter case get the same verdict |
| QueryGuard.WhitespaceInsensitive | server2/database.js:139 | whitespace around a query does not change the verdict |
| QueryGuard.NormaliseIgnoresPadding | server2/database.js:139 | whitespace around a query does not change its upper-cased, trimmed text |
| QueryGuard.CreatedAtColumnBlocked | server2/database.js:141-145 | `SELECT created_at FROM user` is refused because it contains CREATE |
| QueryGuard.BatchedDeleteBlocked | server2/database.js:141-145 | a DELETE batched after a lower-case select is refused |
| QueryGuard.DropRejected | server2/database.js:141-145 | `DROP TABLE t` is refused by its keyword |
| QueryGuard.ShowKeysRejected | server2/database.js:147-149 | the prefix rule refuses on its own: `show keys in x` holds no keyword, so the scan lets it through, and it is refused because it starts with neither SELECT nor INSERT |
| QueryGuard.RawSelectPrefixAccepted | server2/database.js:147 | the prefix test is on raw text: anything starting with the letters SELECT (say `SELECTX`) passes when it holds no keyword |
| Database.RecordFields | server2/database.js:158-177 | the result records read back their `success`, `message` and third member |
| Database.ScreenIff | server2/database.js:156-162 | the query reaches the engine exactly when it is a string the guard accepts; otherwise the answer has `success: false` |
| Database.QueryRunSends | server2/database.js:157-164 | `executeQuery` sends the query text unchanged, once, exactly when the guard accepts it, and otherwise sends nothing |
| Database.QueryRunSuccess | server2/database.js:164-170 | success holds exactly for an accepted query the engine answers with rows; the rows become `data` and the message is the SELECT success text, also for INSERT |
| Database.QueryRunMessage | server2/database.js:157-177 | the blocked message is given exactly for refused string queries; an engine error gives the database-error record with the engine's message |
| Database.InsertUserResultShape | server2/database.js:68-87 | `insertUser` never throws: success with the engine's `insertId`, or failure with the database-error message; the record has no `userId` |
| Database.RunFrom | server2/database.js:94-121 | a loop over default rows sends each statement in order and pushes one record per completed insert; an exception stops it after the failing statement |
| Database.UsersLoopCompletes | server2/database.js:94-103 | the users loop never stops early, failed inserts included |
| Database.DefaultDataOutcome | server2/database.js:89-134 | both users are always sent; without an exception every default statement is sent in order and the summary counts 2 users, 3 voices, 3 languages; otherwise the answer is the database error |
| Database.FailedFields | server2/database.js:128-133 | the caught-exception record has `success: false` and the database-error message |
| Database.SummaryOfDefaults | server2/database.js:125 | with 2, 3 and 3 records the summary reads "Inserted default data: 2 users, 3 voices, 3 languages" |
| Database.DefaultDataSucceeded | server2/database.js:123-127 | the success record reads back `success: true` and the summary message |
| Database.Database.constructor | server2/database.js:19-21 | a new database object has sent nothing yet; the engine stands for the connection |
| Database.Database.Execute | server2/database.js:70-73 | executing a statement appends it to the sent log and returns the engine's answer for that history |
| Database.Database.ExecuteQuery | server2/database.js:155-179 | the answer and the sent log are those of the specification `QueryRun` |
| Database.Database.InsertUser | server2/database.js:68-87 | one insert statement is sent and the record is the one `InsertUserResult` gives for the engine's answer |
| Database.Database.InsertRows | server2/database.js:106-121 | the voices or languages loop ends as `RunFrom` says |
| Database.Database.InsertDefaultData | server2/database.js:89-135 | the answer and the sent log are those of `DefaultData` |
| Auth.TrimAll | server2/auth.js:27 | every cookie is trimmed, none lost |
| Auth.FirstTokenWins | server2/auth.js:28-33 | the first cookie named exactly `token` decides the result; later duplicates are never read |
| Auth.NoTokenIff | server2/auth.js:28-34 | the result is null exactly when no cookie is named exactly `token` |
| Auth.ValueStopsAtSecondEquals | server2/auth.js:29 | the value ends at the second '=': `token=a=b` yields `a` |
| Auth.BareNameIsUndefined | server2/auth.js:29-31 | a bare `token` with no '=' yields the string "undefined" |
| Auth.SingleCookie | server2/auth.js:24-35 | a header with one cookie yields its decoded value when named `token`, else null |
| Auth.EncodedIsCookieSafe | server2/server.js:58 | an encoded value holds no ';', no '=' and ends in no whitespace |
| Auth.TokenCookie | server2/auth.js:24-35 | a header holding only the `token` cookie yields the decoded value |
| Auth.CookieRoundTrip | server2/auth.js:27-31 | `token=` followed by the encoded value reads back the value |
| Auth.MalformedValueThrows | server2/auth.js:31 | a malformed escape in the token value throws rather than giving null |
| Auth.HeaderIff | server2/auth.js:37-44 | the header yields `t` exactly when it is "Bearer " followed by `t` |
| Auth.LowerCaseSchemeRejected | server2/auth.js:40 | the scheme match is case-sensitive: "bearer" gives null |
| Auth.VerifyToken | server2/auth.js:16-22 | verification gives null exactly when the library rejects, and the payload otherwise; it never throws |
| Auth.UndefinedUserIdIsLost | server2/auth.js:8-14 | a token signed with an undefined `userId` verifies to a payload without a `userId` |
| UserStore.UserById | server2/server.js:98 | `getUserById` finds a user exactly for a numeric id registered in the store, and gives that record |
| UserStore.Counted | server2/server.js:294 | counting a call adds one to that user's `apiCallsUsed` and leaves every other user and the set of ids unchanged |
| UserStore.UserStore.constructor | server2/server.js:98 | the store starts from the given users with empty usage and login logs |
| UserStore.UserStore.GetUserById | server2/server.js:98 | returns the user `UserById` gives, whose id is the one asked for |
| UserStore.FindByEmail | server2/server.js:137 | a user is found exactly when one is registered under that address as a string |
| UserStore.UserStore.FindUserByEmail | server2/server.js:137 | returns the user registered under exactly that address, or null |
| UserStore.UserStore.CheckApiLimit | server2/server.js:262 | reports the store's own verdict on the user's record |
| UserStore.UserStore.IncrementApiCalls | server2/server.js:294 | the users map becomes `Counted(old users, id)`, keeping the store's invariant |
| UserStore.UserStore.LogApiUsage | server2/server.js:295 | appends exactly one usage entry with the id, endpoint and method |
| UserStore.UserStore.UpdateLastLogin | server2/server.js:216 | appends the user id to the login log |
| UserStore.UserStore.HashPassword | server2/server.js:148 | returns the store's hash of the password |
| UserStore.UserStore.VerifyPassword | server2/server.js:205 | returns whether the store matches the password to the hash |
| Server.Send | server2/server.js:128-132 | a reply carries the status, the JSON-serialised body and no cookie |
| Server.Attributes | server2/server.js:60-74 | the attribute text is empty or starts with ';' |
| Server.AppendAttributes | server2/server.js:58-74 | appending the five attributes one by one gives the pair followed by all of them in the fixed order |
| Server.DefaultAttributes | server2/server.js:47-55 | the default options give `; Max-Age=604800000; Path=/; HttpOnly; Secure; SameSite=None` |
| Server.MaxAgeNumeral | server2/server.js:53 | the default Max-Age is written as the millisecond count 604800000 |
| Server.DefaultTokenCookie | server2/server.js:46-76 | without options the token header is the encoded pair followed by the five default attributes |
| Server.NoOptions | server2/server.js:57 | with no caller options the defaults apply unchanged |
| Server.PairBeforeAttributes | server2/server.js:58-74 | the text before the first ';' of a pair and its attributes is the pair |
| Server.CookiePairOfHeader | server2/server.js:58 | whatever the options, the stored cookie pair is `name=` followed by the encoded value |
| Server.TokenCookieRoundTrip | server2/server.js:58 | the token cookie the server sets reads back as the same token through `extractTokenFromCookie` |
| Server.SetCookie | server2/server.js:46-77 | the header built attribute by attribute equals `CookieString` |
| Server.AppendValue | server2/server.js:60-65 | a valued attribute is appended exactly when its option is truthy |
| Server.AppendFlag | server2/server.js:66-71 | a flag attribute is appended exactly when its option is truthy |
| Server.ChooseToken | server2/server.js:84-87 | the choice throws exactly when the cookie's decoding throws; a chosen token is never empty |
| Server.ClaimedId | server2/server.js:93-96 | a claimed id is truthy and comes from a token the library verified |
| Server.Authenticate | server2/server.js:79-100 | authentication throws exactly when the cookie's decoding throws; a user it resolves is in the store |
| Server.HeaderIsFallback | server2/server.js:84-87 | the Bearer header is used only when the cookie gives no token or an empty one |
| Server.MalformedCookieThrows | server2/server.js:84 | a malformed escape in the token cookie makes authentication throw, even beside a valid Bearer header |
| Server.UserIdOnlyOnObjects | server2/server.js:94 | only an object payload has a defined `userId` |
| Server.SignedIdReadsBack | server2/server.js:93-98 | a token signed over a non-zero numeric id claims that id once verified |
| Server.LoginCookieAuthenticates | server2/server.js:219-222 | the cookie set at login authenticates its user |
| Server.UndefinedIdRejected | server2/server.js:94-96 | a token signed with an undefined `userId` resolves no user |
| Server.SignupTokenRejected | server2/server.js:149-161 | the signup token never authenticates, because `insertUser` returns `insertId` and signup reads `userId` |
| Server.WithProp | server2/server.js:297 | setting a member on the result changes that member only |
| Server.Credentials | server2/server.js:127 | credentials are found only in a parsed object body, and both are truthy |
| Server.LoginOutcome | server2/server.js:180-246 | login answers 200 exactly for a registered address with a matching password, and only then records the login and sets the token cookie; otherwise nothing changes |
| Server.LoginFailuresAlike | server2/server.js:194-213 | an unknown address and a wrong password get the same 401 reply |
| Server.SignupOnlyInserts | server2/server.js:123-158 | signup changes nothing but the sent statements, and sends the INSERT exactly for credentials of an unregistered address |
| Server.SignupStatus | server2/server.js:149-169 | signup answers 200 exactly when the INSERT is sent and succeeds, and only then sets the cookie |
| Server.SignupHidesUserId | server2/server.js:163-169 | a successful signup reply carries no `userId` |
| Server.RegisteredBodyHasNoUserId | server2/server.js:164-169 | the undefined `userId` member is dropped by `JSON.stringify` |
| Server.MeterEffect | server2/server.js:293-298 | metering does nothing for a falsy id; otherwise it counts one call, logs one entry and adds `apiLimitExceeded`, read after the increment |
| Server.QueryReplyOutcome | server2/server.js:326-339 | a query answers 200 exactly when it is sent and the engine returns rows, and 400 otherwise; with a user it is counted and logged whatever its outcome |
| Server.SoftLimit | server2/server.js:332-336 | being over the limit changes neither the status nor what is sent, counted or logged |
| Server.SqlPathSegments | server2/server.js:356 | a path under `/api/v1/sql/` splits into its four fixed segments and the rest |
| Server.CustomQueryRefusals | server2/server.js:313-348 | an unparseable or null body gets 500 and a missing or falsy `query` gets 400, none of them touching the engine or the meter; the world changes only for a truthy `query` |
| Server.GetQueryOfEncoded | server2/server.js:356-370 | the path `/api/v1/sql/` plus the encoded query runs the query itself; an empty one is refused as missing |
| Server.RoutedGetIsSqlPath | server2/server.js:463-464 | every GET the router sends to `handleGetQuery` passes its `sql` segment check |
| Server.InsertDefaultOutcome | server2/server.js:288-301 | seeding answers 200 whatever the engine does when the store calls succeed, sends what `insertDefaultData` sends, and is logged for a truthy user |
| Server.PublicRoutes | server2/server.js:405-432 | OPTIONS gets 200 with no body first; `GET /api/auth/me` answers 200 exactly for a resolved user and 401 without one, changing nothing |
| Server.AuthenticationFirst | server2/server.js:434-446 | every other request without a user gets 401 (500 for a malformed cookie) before its route is looked at, and changes nothing |
| Server.AuthPathsOtherMethods | server2/server.js:436-478 | signup and login paths with another method skip authentication and get 404 for GET and 405 otherwise |
| Server.MeteringNeedsAUser | server2/server.js:401-487 | only an authenticated user's request is counted and logged, at most once, under that user's id and the request's method |
| Server.DispatchMetering | server2/server.js:450-478 | the dispatch counts and logs at most one call, under the given id |
| Server.Server.constructor | server2/server.js:401 | the server holds the given database, store and token library |
| Server.Server.AuthenticateRequest | server2/server.js:79-100 | the outcome is that of `Authenticate` |
| Server.Server.HandleSignup | server2/server.js:123-178 | the reply and new state are those of `SignupSpec` |
| Server.Server.HandleLogin | server2/server.js:180-246 | the reply and new state are those of `LoginSpec` |
| Server.Server.HandleCurrentUser | server2/server.js:248-285 | the reply is that of `CurrentUserSpec` |
| Server.Server.Track | server2/server.js:293-298 | the metering block ends as `Meter` says |
| Server.Server.HandleInsertDefault | server2/server.js:288-310 | the reply and new state are those of `InsertDefaultSpec` |
| Server.Server.RunQuery | server2/server.js:326-339 | running and metering a query ends as `QueryReply` says |
| Server.Server.HandleCustomQuery | server2/server.js:313-348 | the reply and new state are those of `CustomQuerySpec` |
| Server.Server.HandleGetQuery | server2/server.js:351-399 | the reply and new state are those of `GetQuerySpec` |
| Server.Server.Handle | server2/server.js:401-487 | the reply and new state are those of `HandleSpec` |
| Server.Server.Route | server2/server.js:450-478 | the dispatch ends as `Dispatch` says |
| SqlClient.DetermineHttpMethod | server1/js/script.js:75-84 | the method is always GET or POST |
| SqlClient.MethodIff | server1/js/script.js:75-84 | GET is chosen exactly when the trimmed, upper-cased query starts with SELECT; INSERT and everything else go by POST |
| SqlClient.MethodIgnoresCaseAndPadding | server1/js/script.js:76 | the choice ignores letter case and surrounding whitespace |
| SqlClient.GetHasAllowedPrefix | server1/js/script.js:77-78 | a query sent by GET always passes the server guard's prefix test |
| SqlClient.Submit | server1/js/script.js:120-142 | an error is shown without a request exactly when the trimmed query is empty |
| SqlClient.SubmittedQueryRuns | server1/js/script.js:132-142 | the GET URL is the base, `/api/v1/sql/` and the encoded query, which the server decodes back to the trimmed query; the POST body carries it as `query`; either way the SQL handler runs exactly the trimmed text for an authenticated user (the router answers 401 before it without one) |
| SqlClient.PostBodyCarriesQuery | server1/js/script.js:141 | the body `{ query: q }` reaches the handler as the query `q` |
| SqlClient.Cell | server1/js/script.js:44 | a falsy cell (0, false, null, missing) renders as nothing, any other as its string |
| SqlClient.FormatResponse | server1/js/script.js:24-72 | the HTML built with `+=` equals `ResponseHtml` |
| SqlClient.FormatTable | server1/js/script.js:29-52 | the table branch equals `TableHtml` |
| SqlClient.FormatHeaderCells | server1/js/script.js:33-38 | the header loop gives one `<th>` per key of the first row |
| SqlClient.FormatRowCells | server1/js/script.js:43-45 | the cell loop gives one `<td>` per header |
| SqlClient.FormatRows | server1/js/script.js:41-47 | the row loop equals `RowsHtml` |
| SqlClient.FormatResults | server1/js/script.js:58-66 | the results loop equals `ResultLines` |
| SqlClient.FormatResultLine | server1/js/script.js:61-63 | one result renders as its numbered `ResultLine`, row numbers counted from 1 |
| SqlClient.ConcatSnoc | server1/js/script.js:41-47 | appending a piece to the accumulated HTML is concatenation |
| SqlClient.RowLines | server1/js/script.js:41-47 | there is one `<tr>` line per row, in order |
| SqlClient.OneLinePerRow | server1/js/script.js:40-48 | the table body is exactly the rows' lines, one per row, in order |
| SqlClient.NumberedLines | server1/js/script.js:60-64 | there is one line per insert result, the i-th numbered i+1 |
| SqlClient.ResultsNumberedFromOne | server1/js/script.js:58-66 | the insert results are listed one line each, numbered from 1 in array order |
| SqlClient.ResultLineMark | server1/js/script.js:61-63 | a result line has the tick and class `success` exactly when that result succeeded |
| SqlClient.ErrorIff | server1/js/script.js:25-71 | the HTML starts with an error div exactly when `success` is falsy, and is then the single error line with the message |
| SqlClient.SuccessSplit | server1/js/script.js:26-68 | a successful reply's HTML is the success header followed by the data part and the results part |
| SqlClient.RowCountReported | server1/js/script.js:28-55 | rows give "N row(s) returned" with N their number; an empty array gives "No rows returned." |
| TtsWidget.StripTrailingSlash | public/script.js:43 | at most one character, a trailing '/', is removed |
| TtsWidget.NormaliseSpec | public/script.js:39-44 | an empty input or a lone "/" gives the default; any other input loses exactly one trailing slash if it has one and is otherwise kept |
| TtsWidget.OnlyOneSlashStripped | public/script.js:43 | only one slash goes: `a//` becomes `a/` |
| TtsWidget.NormaliseIdempotent | public/script.js:39-44 | normalising twice is normalising once for inputs not ending in "//" |
| TtsWidget.NotIdempotentOnDoubleSlash | public/script.js:43 | on "a//" a second pass strips another slash |
| TtsWidget.BaseUrlPrecedence | public/script.js:46-58 | the page setting wins, then the widget's trimmed non-blank attribute, then "http://localhost:8081" |
| TtsWidget.ToneClass | public/script.js:79-83 | red exactly for 'error', green exactly for 'success', grey otherwise |
| TtsWidget.StatusLine.constructor | public/script.js:70 | a status line holds its text and class list |
| TtsWidget.StatusClasses | public/script.js:74-84 | an empty message leaves no tone class; a non-empty one leaves exactly its tone's class; other classes are untouched |
| TtsWidget.SetTtsStatus | public/script.js:69-85 | the text becomes the message and the classes become `StatusClasses` of the old ones |
| TtsWidget.Uint8Codes | public/script.js:124-127 | one byte per character, each the char code modulo 256 |
| TtsWidget.Latin1 | public/script.js:122 | the string of the given char codes |
| TtsWidget.CharCodesToBytes | public/script.js:121-129 | the loop fills a fresh array of the string's length with its char codes in order |
| TtsWidget.BytesReadBack | public/script.js:121-129 | for `atob` output the bytes read back as the same string |
| TtsWidget.PayloadFields | public/script.js:194-210 | blank text sends nothing; otherwise the body has the trimmed text, the language or "en", the voice or "default", and `store_generated_audio: false` |
| TtsWidget.BodyFields | public/script.js:205-210 | each field of the request body reads back as written |
| TtsWidget.BlankTextRefused | public/script.js:194-198 | the red "Please provide some text to synthesize." status shows exactly when the trimmed text is empty, and then nothing is sent or played |
| TtsWidget.SpeakOutcomeIff | public/script.js:212-231 | audio plays exactly for an answer with a truthy `audio_base64` that decodes, the status is then green; every failure gives the same red message |
| TtsWidget.MapChoices | public/script.js:163-167 | mapping succeeds exactly when every item maps, giving one choice per item in order |
| TtsWidget.ChoicesOf | public/script.js:162-168 | a missing, non-array or empty list gives exactly the fallback; a non-empty one that maps gives one choice per item, in order; the result is never empty |
| TtsWidget.Populate | public/script.js:100-105 | one option per choice, its value as a string and its label |
| TtsWidget.EnsureOption | public/script.js:108-119 | the options keep their prefix and gain at most one; the value is always offered; nothing is added exactly when an option's value strictly equals it |
| TtsWidget.LoadedLists | public/script.js:153-176 | after a load English is offered and selected, and the language options start with one per listed language, or are exactly English (en) when none is listed; the first voice is selected and offered, and the voice options start with one per listed voice, or are exactly the default voice when none is listed |
| TtsWidget.VoiceLabel | public/script.js:167 | a voice is labelled by its display name or id and its language or "en" |
| TtsWidget.NumericVoiceIdDuplicated | public/script.js:112 | a numeric voice id never strictly equals its option's string value, so it is offered twice |
| AiClient.NumberOfNumeral | server1/script.js:75-77 | `Number` reads back any integer `String` printed |
| AiClient.Max0 | server1/script.js:77 | `Math.max(0, x)` is NaN exactly when `x` is, and otherwise the larger of `x` and 0, never negative |
| AiClient.UsageFigures | server1/script.js:75-77 | used defaults to 0 and the limit to 20 only for null or undefined; remaining is the reported count when present, else limit minus used, clamped at 0 |
| AiClient.ZeroLimitKept | server1/script.js:76 | a stored limit of 0 is kept, not replaced by 20, and leaves 0 calls remaining |
| AiClient.SetMessage | server1/script.js:30-34 | the text is the message and the class is "message", followed by the type when there is one |
| AiClient.CallApiOutcome | server1/script.js:41-68 | an OK answer gives its body (`{}` when unparseable); a failed one an error with its status and the server's message; an error without a status carries the network message |
| AiClient.ServerMessageDefault | server1/script.js:56 | a failed answer without a message reads "Request failed" |
| AiClient.MergeUsageSpec | server1/script.js:227-231 | each counter is overwritten exactly when the answer supplies it and kept otherwise; every other property is untouched |
| AiClient.ShowUsageEffect | server1/script.js:70-88 | a null user clears only the summary; otherwise the summary shows the figures and the limit notice shows, with the warning class, exactly when 0 calls remain |
| AiClient.ApplyUserSections | server1/script.js:90-112 | without a user only the sign-in section shows; with one the dashboard shows, greeting the user by email, and the admin section shows exactly when the role is "admin" |
| AiClient.AnswerTextKept | server1/script.js:223-225 | an answer always shows its generated text or "No text generated." |
| AiClient.AnswerLimitIsSoft | server1/script.js:234-236 | the text is shown also when the free calls are used up; `limitReached` only turns the message into an error |
| AiClient.AnswerMergesUsage | server1/script.js:227-232 | a signed-in user takes the answer's counters; without one nothing is merged |
| AiClient.GenerateSends | server1/script.js:213-222 | a request is sent exactly when the trimmed prompt is not empty |
| AiClient.GenerateBody | server1/script.js:222 | the request carries the trimmed prompt |
| AiClient.GenerateBlank | server1/script.js:214-218 | a blank prompt only shows an error |
| AiClient.GenerateFailed | server1/script.js:241-244 | a failed call changes only the message, which shows the error |
| AiClient.Dashboard.UpdateUsageSummary | server1/script.js:70-88 | the page state becomes `ShowUsage` of the old one |
| AiClient.Dashboard.ShowFiguresOf | server1/script.js:78-87 | the summary and the limit notice become those of `ShowFigures` for the figures |
| AiClient.Dashboard.ApplyUser | server1/script.js:90-112 | the page state becomes `ApplyUserTo` of the old one |
| AiClient.Dashboard.ToggleSections | server1/script.js:93-95 | the sign-in, dashboard and admin sections become those of `Toggled` |
| AiClient.Dashboard.ClearFormMessages | server1/script.js:96-97 | both form messages become those of `ClearMessages` |
| AiClient.Dashboard.ShowDashboard | server1/script.js:101-111 | the page state becomes `SignedIn` of the old one |
| AiClient.Dashboard.Welcome | server1/script.js:101-103 | the page state becomes `Welcomed` of the old one |
| AiClient.Dashboard.HandleGenerate | server1/script.js:213-245 | the page state and the request sent are those of `Generate` |
| AiClient.Dashboard.RespondTo | server1/script.js:220-244 | the page state after the call resolves or throws becomes `Respond` of the old one |
| AiClient.Dashboard.ShowAnswerOf | server1/script.js:223-236 | the steps after an answer end as `ShowAnswer` says |
| AiClient.Dashboard.ShowTextOf | server1/script.js:223-225 | the message and text shown are those of `ShowText` |
| AiClient.Dashboard.MergeAnswerOf | server1/script.js:227-232 | the user and summary become those of `MergeAnswer` |
| AiClient.Dashboard.MarkLimitOf | server1/script.js:234-236 | the message becomes that of `MarkLimit` |
| Voices.FromEntries | server3/voice_registry.py:28 | reading a stored object gives a dictionary with each key once |
| Voices.ToEntries | server3/voice_registry.py:35-37 | the saved object has one member per voice, in insertion order, each with its metadata |
| Voices.Load | server3/voice_registry.py:24-32 | a missing, unparseable or non-object registry file leaves the dictionary empty |
| Voices.LoadSaved | server3/voice_registry.py:24-37 | loading what `_save` wrote gives back the same dictionary, order included |
| Voices.Suffix | server3/voice_registry.py:103 | a suffix is empty or a dot followed by at least one character |
| Voices.LastComponentOf | server3/voice_registry.py:103 | the file name of `dir/name` is `name` |
| Voices.TargetKeepsExtension | server3/voice_registry.py:103-104 | a sample `stem.ext` is copied to `<storage>/<id>.ext` |
| Voices.TargetDefaultsToWav | server3/voice_registry.py:103-104 | a sample whose name has no dot is copied to `<storage>/<id>.wav` |
| Voices.HiddenFileHasNoSuffix | server3/voice_registry.py:103-104 | a leading dot is not a suffix, so `.voice` is copied to a ".wav" file as well |
| Voices.OrDefault | server3/voice_registry.py:90-91 | None and the empty string both give the default; any other string is kept |
| Voices.Listing | server3/voice_registry.py:59-69 | one public record per voice, in insertion order |
| Voices.VoicePathOf | server3/voice_registry.py:72-77 | a path is returned exactly when the voice is registered and its stored file exists; an unknown voice gives none; a non-empty record without `file_path` raises |
| Voices.RegisterMissingSource | server3/voice_registry.py:99-102 | a missing sample raises FileNotFoundError and changes nothing |
| Voices.RegisterAddsOne | server3/voice_registry.py:80-96 | a fresh id adds exactly one voice, last, keeps every other voice, copies the sample and saves; the name and language fall back to "Voice " + the id's first 8 characters and "en" |
| Voices.RegisterThenList | server3/voice_registry.py:59-96 | after registering, the listing is the old listing followed by the new voice, without its path |
| Voices.RegisterThenLookup | server3/voice_registry.py:72-96 | a registered voice's copied file is found by its id |
| Voices.EnsureDefaultOutcome | server3/voice_registry.py:40-56 | nothing changes when the sample is missing or the default voice's file exists; a non-empty "default" record without `file_path` raises KeyError and changes nothing; when "default" has no usable path, it is set to the copied sample, saved, and then found |
| Voices.EnsureDefaultIdempotent | server3/voice_registry.py:40-56 | a second call with the same sample changes nothing |
| Voices.VoiceRegistry.constructor | server3/voice_registry.py:13-18 | the dictionary is what `_load` reads from the registry file |
| Voices.VoiceRegistry.LoadTable | server3/voice_registry.py:24-32 | the dictionary becomes `Load` of the registry file; nothing else changes |
| Voices.VoiceRegistry.Save | server3/voice_registry.py:35-37 | the registry file holds the dictionary's entries; the dictionary is unchanged |
| Voices.VoiceRegistry.CopyVoiceFile | server3/voice_registry.py:99-106 | a missing sample raises; otherwise exactly the target path is added |
| Voices.VoiceRegistry.RegisterVoice | server3/voice_registry.py:80-96 | the new state and result are those of `Register` |
| Voices.VoiceRegistry.EnsureDefaultVoice | server3/voice_registry.py:40-56 | the new state and error are those of `EnsureDefault` |
| Voices.VoiceRegistry.ListVoices | server3/voice_registry.py:59-69 | the result is `Listing` of the dictionary |
| Voices.VoiceRegistry.GetVoicePath | server3/voice_registry.py:72-77 | the result is `VoicePathOf` the dictionary and the existing paths |
| Voices.Open | server3/voice_registry.py:13-21 | a fresh registry holds the loaded dictionary, and then the default voice when a sample is given |
| SpeechService.CleanOrigins | server3/main.py:29 | never more origins than comma-separated parts, each non-blank and already stripped |
| SpeechService.ParseOrigins | server3/main.py:25-29 | a setting that strips to "*" allows every origin; otherwise each allowed origin is non-blank and stripped |
| SpeechService.CleanOriginsKeeps | server3/main.py:29 | clean origins pass through unchanged |
| SpeechService.CleanOriginsNoComma | server3/main.py:29 | no allowed origin holds a comma |
| SpeechService.OriginsRoundTrip | server3/main.py:25-29 | a list of clean origins written comma-separated is read back as that list: nothing lost, split or reordered |
| SpeechService.CleanOriginsMembers | server3/main.py:29 | an origin is allowed exactly when it is not blank and some part strips to it |
| SpeechService.RegistrationNeedsSource | server3/main.py:55-65 | a well-typed registration is accepted exactly when a base64 clip or a URL is given |
| SpeechService.SynthesizeValidation | server3/main.py:74-87 | an accepted request has 1 to 800 characters of text and some reference; an absent speaker id means "default" and an absent language "en" |
| SpeechService.SynthesizeNeedsReference | server3/main.py:82-86 | a body whose fields are each well typed is accepted exactly when a base64 clip, a URL or a speaker id is non-empty |
| SpeechService.TextOnlyBody | server3/main.py:74-87 | a body holding only an acceptable text asks for the default voice in English, unstored |
| SpeechService.ParseSpeakerBody | server3/main.py:74-87 | a body with text, language and speaker id and no clip parses to that request |
| SpeechService.WidgetBodyHasNoClip | server3/main.py:78-79 | the widget's body sets neither clip field |
| SpeechService.WidgetPayloadAccepted | server3/main.py:74-87 | what the widget sends for a trimmed text that fits is always accepted, with its language and voice or their defaults |
| SpeechService.ReferencePrecedence | server3/main.py:155-169 | base64 wins over a URL, which wins over a registered speaker; a bad clip is a 400, an unknown speaker or missing file gets exactly the 404 "Unknown speaker_id '<id>'"; only base64 and URL clips are temporary |
| SpeechService.SynthesisSucceeds | server3/main.py:147-212 | a successful synthesis answers "wav" at the clip's sample rate or 24000, and leaves behind only the stored copy when one was asked for |
| SpeechService.SynthesisNeedsModel | server3/main.py:149-153 | without a model the answer is 503 naming the failure, and nothing else happens |
| SpeechService.SynthesisFails | server3/main.py:157-212 | a missing reference answers its error and leaves no file; a failing model removes the clip but leaves the output file behind |
| SpeechService.RemovedMembers | server3/main.py:208-210 | a path survives the clean-up exactly when it existed and was not queued |
| SpeechService.RemovedTemps | server3/main.py:208-210 | the clean-up removes the reference's temporary clip and nothing else |
| SpeechService.RemoveAll | server3/main.py:209-210 | the paths left are `Removed` of the old ones; the dictionary and registry file are unchanged |
| SpeechService.WriteTempClip | server3/main.py:215-235 | the reference is `TempSource` of the request, and the clip's path is added exactly when one was written |
| SpeechService.Synthesize | server3/main.py:147-212 | the paths left and the reply are those of `Synthesis`; the dictionary is unchanged |
| SpeechService.RegisterEndpointOutcome | server3/main.py:125-144 | base64 is preferred over a URL; the temporary clip never outlives the request; a success answers the new voice's id, name and language |
| SpeechService.RegisterVoice | server3/main.py:125-144 | the registry state and reply are those of `RegisterEndpoint` |
| SpeechService.WidgetLanguage | server3/main.py:115 | each published language is offered under its id, labelled "label (id)" |
| SpeechService.WidgetVoice | server3/main.py:116 | each registered voice is offered under its id, labelled "name (language)" |
| SpeechService.ConfigVoices | server3/main.py:109-117 | the configuration's voices are the registry's listing, as JSON |
| SpeechService.ConfigVoiceChoices | server3/main.py:116 | the widget offers one voice choice per published voice |
| SpeechService.WidgetSelectsFirstVoice | server3/main.py:109-117 | with a registered voice the widget selects the first one listed |
| JsValues.Or | server1/script.js:56 | JavaScript `or` gives its left operand when that is truthy and its right one otherwise |
| JsValues.Coalesce | server1/script.js:75-76 | `a ?? b` replaces only null and undefined |
| JsValues.NatToDecimal | server2/server.js:153 | the numeral of a number is digits without a leading zero, one digit exactly below 10 |
| JsValues.DecimalRoundTrip | server2/server.js:153 | a canonical numeral read and printed again is the same numeral |
| JsValues.ParseIndexOfNumeral | server2/server.js:153 | an array index is read back from its numeral |
| JsValues.Lookup | server2/server.js:153 | a property is found exactly when some member has the name, and then it is that member's value |
| JsValues.LookupAt | server2/server.js:153 | a key no earlier member uses reads back its own value |
| JsValues.GetProp | server1/script.js:71-77 | reading a property throws exactly on null and undefined |
| JsValues.SetProp | server1/script.js:227-231 | assigning a property sets it and leaves every other property as it was |
| JsValues.Keys | server2/server.js:153 | `Object.keys` throws exactly on null and undefined |
| JsValues.ArrayKeysReadBack | server2/server.js:153 | every key of an array reads back its own element |
| JsValues.UndefinedMemberDropped | server2/server.js:129-133 | a member whose value is undefined is left out of the JSON text |
| JsValues.DefinedMemberKept | server2/server.js:129-133 | any other member is kept, its value converted in turn |
| Text.TrimSpec | server2/database.js:139 | trimming cuts exactly the surrounding whitespace and keeps the infix between |
| Text.TrimIdempotent | server2/database.js:139 | trimming twice is trimming once |
| Text.Upper | server2/database.js:139 | upper-casing maps each character on its own and keeps the length |
| Text.JsTrimUpper | server2/database.js:139 | upper-casing and trimming commute |
| Text.ContainsIff | server2/database.js:142 | `includes` holds exactly when the keyword occurs at some position |
| Text.ContainsWithin | server2/database.js:142 | text around a string keeps every occurrence inside it |
| Text.IndexOf | server2/auth.js:29 | the first position of the character, or none exactly when it does not occur |
| Text.Split | server2/auth.js:27-29 | at least one piece, none holding the separator |
| Text.JoinSplit | server2/auth.js:27-29 | joining the pieces with the separator gives the input back |
| Text.SplitJoin | server3/main.py:29 | pieces without the separator are split back out of their join |
| PercentCoding.Utf8 | server2/server.js:58 | a character takes 1 to 4 bytes, one exactly when it is ASCII |
| PercentCoding.Utf8Decodes | server2/auth.js:31 | the bytes of a multi-byte character decode to it |
| PercentCoding.EncodedAlphabet | server2/server.js:58 | an encoding holds only unreserved characters and '%' |
| PercentCoding.EncodeConcat | server2/server.js:58 | encoding is character by character |
| PercentCoding.EncodeEmpty | server2/server.js:58 | only the empty string encodes to the empty string |
| PercentCoding.DecodePlain | server2/auth.js:31 | text without '%' decodes to itself |
| PercentCoding.DecodeEncode | server2/auth.js:31 | decoding undoes encoding, for every string |
| PercentCoding.MalformedEscapeThrows | server2/server.js:359 | a '%' not followed by two hexadecimal digits makes decoding throw |

## Left out

- The SQL engine: connection setup, table creation and the execution of statements are an oracle from the statements sent so far to an outcome. Table contents are not modelled.
- The user store's methods that `server2/server.js` calls but `server2/database.js` does not define are a map of users plus logs. `checkApiLimit(...).exceeded` stays an uninterpreted function of the stored user, because its rule is not shown. Concurrency and atomicity of the increments are not visible in the code.
- Store operations never throw, and `checkApiLimit` always returns an object, because their implementations are not shown. The 500 answers that the handlers' `catch` blocks give after a failing `getUserById`, `findUserByEmail`, `incrementApiCalls`, `logApiUsage`, `checkApiLimit` or `updateLastLogin` are therefore not modelled.
- InsertDefaultOutcome: promises 200 for every seeding request; in the source that holds only while the store calls of the metering succeed, as the line above says.
- UserStore.UserById and UserStore.FindByEmail: users are keyed by a numeric id, and an address matches only when it is exactly equal, letter case included; the lookups' implementations are not shown.
- `insertUser` goes through the engine oracle and is not linked to the user map, because the lookup methods that would read the new row are not shown.
- JWT signing and verification and password hashing: `verifyToken` is a partial function from token to payload (no crypto, no expiry clock), and hashing is an uninterpreted function.
- HTTP plumbing: body streaming in `parsePostData` (the parsed body is an input), CORS headers, WHATWG URL parsing (the pathname is given), server start-up and signal handling, and the text of V8 error messages.
- `Text.Upper` upper-cases ASCII letters only; the Unicode case mapping of `toUpperCase` is not modelled.
- JavaScript numbers are integers. `Number()` of a string with a fraction, an exponent, "Infinity", or a hexadecimal ("0x…"), binary ("0b…") or octal ("0o…") spelling is read as NaN, where JavaScript gives the fractional value, Infinity or the integer so spelled.
- Percent coding works on Unicode scalar values, so lone surrogates (which make `encodeURIComponent` throw) cannot occur.
- SqlClient.FormatResponse: a reply on which `formatResponse` throws a TypeError (a null reply, or null rows or results in a successful one) is excluded by its precondition instead of being modelled as a throw; such a throw leaves the page unchanged as an unhandled rejection.
- `fetch` and the network: every answer, error and download is an input. `atob` is a parameter. Early returns when a page element is missing are not modelled; the page always has its elements.
- From `server1/script.js`, `refreshSession`, `refreshAdminTable`, `renderAdminTable`, `handleRegister`, `handleLogin`, `handleLogout` and `fetchModelInfo` are not modelled: they only move server answers into the page.
- The interim "Generating…" and "Loading…" statuses of the speech widget, the disabling of its button during a request and re-enabling in `finally`, `textInput.focus()`, audio playback and object URLs are not modelled.
- Paths are taken as already resolved: `expanduser` and `resolve` are not modelled.
- Registry metadata values are strings; a registry file holding other JSON values under a voice is not modelled.
- Pydantic's lax coercions (for the `bool` field `store_generated_audio`, strings such as "true" or "no" and the numbers 0 and 1) are not modelled: StoreField accepts only a JSON boolean, and a field of the wrong JSON type is rejected. What counts as an HTTP URL for `AnyHttpUrl` is a parameter, and URL normalisation is not modelled.
- Base64 decoding, `requests` downloads, `soundfile`, the floating-point duration and the TTS model (`model_loader`) are inputs. The model repository and directory fields of the configuration are not modelled.
- `index.js` (Express and session glue) and the browser-only pages of `server1/js/` other than `script.js` are not part of this model.

The default cookie lifetime is written as Max-Age 604800000, a count of milliseconds in an attribute that section 5.2.2 of RFC 6265 measures in seconds; the model keeps the number as written. When the speech model raises during synthesis, the output temporary file is not removed, because the handler only unlinks it once the synthesis has returned; the model keeps that too (`SpeechService.SynthesisFails`).
