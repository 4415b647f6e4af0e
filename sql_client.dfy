/**
 * The browser client of the SQL server (server1/js/script.js): the choice
 * between GET and POST, the request a submitted query becomes, and the HTML
 * a reply is rendered into. The network round trip itself is not modelled;
 * the lemmas connect the requests the client builds to the server's handlers.
 */
module SqlClient {
  import opened Wrappers
  import opened JsValues
  import opened Text
  import opened PercentCoding
  import opened QueryGuard
  import opened Server

  const ErrorEmptyQuery: string := "Please enter a SQL query."

  // ---------------------------------------------------------------------
  // Choosing the method

  /** `determineHttpMethod(query)`: SELECT goes by GET, INSERT and anything else by POST. */
  function DetermineHttpMethod(query: string): (m: string)
    ensures m == "GET" || m == "POST"
  {
    var u := Upper(JsTrim(query));
    if StartsWith(u, "SELECT") then "GET"
    else if StartsWith(u, "INSERT") then "POST"
    else "POST"
  }

  /** GET is chosen exactly for queries whose normalised text starts with SELECT. */
  lemma MethodIff(query: string)
    ensures DetermineHttpMethod(query) == "GET" <==> StartsWith(Normalise(query), "SELECT")
  {
    JsTrimUpper(query);
  }

  /** The choice ignores letter case and whitespace around the query. */
  lemma MethodIgnoresCaseAndPadding(pre: string, q1: string, q2: string, post: string)
    requires forall i :: 0 <= i < |pre| ==> IsJsWhitespace(pre[i])
    requires forall i :: 0 <= i < |post| ==> IsJsWhitespace(post[i])
    requires Upper(q1) == Upper(q2)
    ensures DetermineHttpMethod(pre + q1 + post) == DetermineHttpMethod(q2)
  {
    MethodIff(pre + q1 + post);
    MethodIff(q2);
    NormaliseIgnoresPadding(pre, q1, post);
  }

  /** A query the client sends by GET always passes the server guard's prefix test. */
  lemma GetHasAllowedPrefix(query: string)
    requires DetermineHttpMethod(query) == "GET"
    ensures HasAllowedPrefix(Normalise(query))
  {
    MethodIff(query);
  }

  // ---------------------------------------------------------------------
  // Submitting a query

  /** What `submitQuery` does with the text in the query box. */
  datatype Submission =
    | ShowError(message: string)
    | GetRequest(url: string)
    | PostRequest(url: string, body: JsValue)

  /** `submitQuery()`: the query is trimmed; SELECTs travel percent-encoded in the path. */
  function Submit(base: string, input: string): (r: Submission)
    ensures r.ShowError? <==> JsTrim(input) == ""
  {
    var query := JsTrim(input);
    if query == "" then ShowError(ErrorEmptyQuery)
    else if DetermineHttpMethod(query) == "GET" then
      GetRequest(base + SqlPath + "/" + EncodeURIComponent(query))
    else PostRequest(base + SqlPath, Obj([Prop("query", Str(query))]))
  }

  /**
   * Whichever way the client sends a non-empty query, the server's SQL
   * handler runs exactly the trimmed text for an authenticated user `userId`:
   * the GET path decodes back to it, and the POST body carries it as
   * `query`. The page adds no Authorization header, so through the router
   * the request is served only when a session cookie authenticates it, and
   * otherwise gets 401 (`Server.AuthenticationFirst`).
   */
  lemma SubmittedQueryRuns(cfg: Config, w: World, base: string, input: string, userId: int)
    requires JsTrim(input) != ""
    ensures var q := JsTrim(input);
      match Submit(base, input)
      case ShowError(_) => false
      case GetRequest(url) =>
        && url == base + SqlPath + "/" + EncodeURIComponent(q)
        && GetQuerySpec(cfg, w, SqlPath + "/" + EncodeURIComponent(q), userId)
          == QueryReply(cfg, w, Str(q), userId, "GET")
      case PostRequest(url, body) =>
        && url == base + SqlPath
        && CustomQuerySpec(cfg, w, Parsed(Jsonify(body)), userId)
          == QueryReply(cfg, w, Str(q), userId, "POST")
  {
    var q := JsTrim(input);
    if DetermineHttpMethod(q) == "GET" {
      GetQueryOfEncoded(cfg, w, q, userId);
    } else {
      PostBodyCarriesQuery(cfg, w, q, userId);
    }
  }

  /** The JSON body `{ query: q }` reaches the handler as the query `q`. */
  lemma PostBodyCarriesQuery(cfg: Config, w: World, q: string, userId: int)
    requires q != ""
    ensures CustomQuerySpec(cfg, w, Parsed(Jsonify(Obj([Prop("query", Str(q))]))), userId)
      == QueryReply(cfg, w, Str(q), userId, "POST")
  {
    var props := [Prop("query", Str(q))];
    DefinedMemberKept(props, "query");
    assert Jsonify(Str(q)) == Str(q);
    assert GetProp(Jsonify(Obj(props)), "query") == Some(Str(q));
  }

  // ---------------------------------------------------------------------
  // Rendering a reply

  predicate NotNullish(v: JsValue) {
    !v.Undefined? && !v.Null?
  }

  /** `v[k]` on a value that is not null or undefined. */
  function Field(v: JsValue, k: string): JsValue
    requires NotNullish(v)
  {
    GetProp(v, k).value
  }

  /** `${row[header] || ''}`: falsy values render as nothing. */
  function Cell(row: JsValue, header: string): (r: string)
    requires NotNullish(row)
    ensures !Truthy(Field(row, header)) ==> r == ""
    ensures Truthy(Field(row, header)) ==> r == ToString(Field(row, header))
  {
    ToString(Or(Field(row, header), Str("")))
  }

  /** The `<th>` cells, in the order of the headers. */
  function HeaderCells(headers: seq<string>): string {
    if headers == [] then ""
    else HeaderCells(headers[..|headers| - 1]) + "<th>" + headers[|headers| - 1] + "</th>"
  }

  /** The `<td>` cells of one row, one per header. */
  function RowCells(row: JsValue, headers: seq<string>): string
    requires headers != [] ==> NotNullish(row)
  {
    if headers == [] then ""
    else RowCells(row, headers[..|headers| - 1]) + "<td>" + Cell(row, headers[|headers| - 1]) + "</td>"
  }

  /** One `<tr>` line of cells for a row. */
  function RowLine(row: JsValue, headers: seq<string>): string
    requires headers != [] ==> NotNullish(row)
  {
    "<tr>" + RowCells(row, headers) + "</tr>"
  }

  /** Every row whose cells are read can be read: none is null or undefined, unless there are no headers. */
  predicate RowsReadable(rows: seq<JsValue>, headers: seq<string>) {
    headers == [] || forall i :: 0 <= i < |rows| ==> NotNullish(rows[i])
  }

  /** The body rows, in the order of the data. */
  function RowsHtml(rows: seq<JsValue>, headers: seq<string>): string
    requires RowsReadable(rows, headers)
  {
    if rows == [] then ""
    else RowsHtml(rows[..|rows| - 1], headers) + RowLine(rows[|rows| - 1], headers)
  }

  /** The line for the insert result at position `index`, numbered from 1. */
  function ResultLine(result: JsValue, index: nat): string
    requires NotNullish(result)
  {
    var ok := Truthy(Field(result, "success"));
    "<div class=\"" + (if ok then "success" else "error") + "\">" + (if ok then "✓" else "✗")
      + " Row " + NatToDecimal(index + 1) + ": " + ToString(Field(result, "message")) + "</div>"
  }

  function ResultLines(results: seq<JsValue>): string
    requires forall i :: 0 <= i < |results| ==> NotNullish(results[i])
  {
    if results == [] then ""
    else ResultLines(results[..|results| - 1]) + ResultLine(results[|results| - 1], |results| - 1)
  }

  /** The table for a non-empty array of rows, with the first row's keys as columns. */
  function TableHtml(rows: seq<JsValue>): string
    requires rows != [] && NotNullish(rows[0]) && RowsReadable(rows, Keys(rows[0]).value)
  {
    var headers := Keys(rows[0]).value;
    "<div class=\"data-table\">" + "<table>" + "<thead><tr>" + HeaderCells(headers) + "</tr></thead>"
      + "<tbody>" + RowsHtml(rows, headers) + "</tbody>" + "</table>"
      + "<div class=\"row-count\">" + NatToDecimal(|rows|) + " row(s) returned</div>" + "</div>"
  }

  /** The reply's `data` can be rendered without a TypeError. */
  predicate DataReadable(rows: seq<JsValue>) {
    rows == [] || (NotNullish(rows[0]) && RowsReadable(rows, Keys(rows[0]).value))
  }

  /** The reply's `results` can be rendered without a TypeError. */
  predicate ResultsReadable(results: seq<JsValue>) {
    forall i :: 0 <= i < |results| ==> NotNullish(results[i])
  }

  /**
   * What `formatResponse` needs so as not to throw: a reply that is not null,
   * and when it reports success, rows and insert results it can read.
   */
  predicate Renderable(data: JsValue) {
    && NotNullish(data)
    && (Truthy(Field(data, "success")) ==>
      && (Field(data, "data").Arr? ==> DataReadable(Field(data, "data").items))
      && (Field(data, "results").Arr? ==> ResultsReadable(Field(data, "results").items)))
  }

  /** The part of a successful reply's HTML for its `data` member. */
  function DataHtml(data: JsValue): string
    requires Renderable(data) && Truthy(Field(data, "success"))
  {
    var d := Field(data, "data");
    if !d.Arr? then ""
    else if d.items == [] then "<div class=\"info\">No rows returned.</div>"
    else TableHtml(d.items)
  }

  /** The part of a successful reply's HTML for its `results` member. */
  function ResultsHtml(data: JsValue): string
    requires Renderable(data) && Truthy(Field(data, "success"))
  {
    var r := Field(data, "results");
    if !r.Arr? then "" else "<div class=\"insert-results\">" + ResultLines(r.items) + "</div>"
  }

  /** `formatResponse(data)`. */
  function ResponseHtml(data: JsValue): string
    requires Renderable(data)
  {
    if Truthy(Field(data, "success")) then
      "<div class=\"success\">✓ " + ToString(Field(data, "message")) + "</div>" + DataHtml(data) + ResultsHtml(data)
    else "<div class=\"error\">✗ " + ToString(Field(data, "message")) + "</div>"
  }

  /** `formatResponse(data)` as the source writes it: the HTML is built up with `+=` in loops. */
  method FormatResponse(data: JsValue) returns (html: string)
    requires Renderable(data)
    ensures html == ResponseHtml(data)
  {
    if !Truthy(Field(data, "success")) {
      return "<div class=\"error\">✗ " + ToString(Field(data, "message")) + "</div>";
    }
    var head := "<div class=\"success\">✓ " + ToString(Field(data, "message")) + "</div>";
    html := head;
    var d := Field(data, "data");
    if d.Arr? {
      if |d.items| > 0 {
        var table := FormatTable(d.items);
        html := html + table;
      } else {
        html := html + "<div class=\"info\">No rows returned.</div>";
      }
    }
    assert html == head + DataHtml(data);
    var r := Field(data, "results");
    if r.Arr? {
      var lines := FormatResults(r.items);
      var part := "<div class=\"insert-results\">" + lines + "</div>";
      assert part == ResultsHtml(data);
      html := html + part;
    } else {
      assert html == html + ResultsHtml(data);
    }
    assert ResponseHtml(data) == head + DataHtml(data) + ResultsHtml(data);
  }

  /** The table branch of `formatResponse`. */
  method FormatTable(rows: seq<JsValue>) returns (html: string)
    requires rows != [] && NotNullish(rows[0]) && RowsReadable(rows, Keys(rows[0]).value)
    ensures html == TableHtml(rows)
  {
    var headers := Keys(rows[0]).value;
    html := "<div class=\"data-table\">" + "<table>" + "<thead><tr>";
    var cells := FormatHeaderCells(headers);
    html := html + cells + "</tr></thead>" + "<tbody>";
    var body := FormatRows(rows, headers);
    html := html + body + "</tbody>" + "</table>";
    html := html + "<div class=\"row-count\">" + NatToDecimal(|rows|) + " row(s) returned</div>" + "</div>";
  }

  /** `headers.forEach(header => { html += `<th>${header}</th>` })`. */
  method FormatHeaderCells(headers: seq<string>) returns (html: string)
    ensures html == HeaderCells(headers)
  {
    html := "";
    var i := 0;
    while i < |headers|
      invariant 0 <= i <= |headers|
      invariant html == HeaderCells(headers[..i])
    {
      assert headers[..i + 1][..i] == headers[..i];
      html := html + "<th>" + headers[i] + "</th>";
      i := i + 1;
    }
    assert headers[..i] == headers;
  }

  /** The `<td>` loop for one row. */
  method FormatRowCells(row: JsValue, headers: seq<string>) returns (html: string)
    requires headers != [] ==> NotNullish(row)
    ensures html == RowCells(row, headers)
  {
    html := "";
    var i := 0;
    while i < |headers|
      invariant 0 <= i <= |headers|
      invariant html == RowCells(row, headers[..i])
    {
      assert headers[..i + 1][..i] == headers[..i];
      html := html + "<td>" + ToString(Or(Field(row, headers[i]), Str(""))) + "</td>";
      i := i + 1;
    }
    assert headers[..i] == headers;
  }

  /** `data.data.forEach(row => { ... })`. */
  method FormatRows(rows: seq<JsValue>, headers: seq<string>) returns (html: string)
    requires RowsReadable(rows, headers)
    ensures html == RowsHtml(rows, headers)
  {
    html := "";
    var i := 0;
    while i < |rows|
      invariant 0 <= i <= |rows|
      invariant html == RowsHtml(rows[..i], headers)
    {
      assert rows[..i + 1][..i] == rows[..i];
      var cells := FormatRowCells(rows[i], headers);
      html := html + "<tr>" + cells + "</tr>";
      i := i + 1;
    }
    assert rows[..i] == rows;
  }

  /** `data.results.forEach((result, index) => { ... })`. */
  method FormatResults(results: seq<JsValue>) returns (html: string)
    requires ResultsReadable(results)
    ensures html == ResultLines(results)
  {
    html := "";
    var i := 0;
    while i < |results|
      invariant 0 <= i <= |results|
      invariant html == ResultLines(results[..i])
    {
      assert results[..i + 1][..i] == results[..i];
      var line := FormatResultLine(results[i], i);
      html := html + line;
      i := i + 1;
    }
    assert results[..i] == results;
  }

  /** The body of the `forEach` callback for the result at `index`. */
  method FormatResultLine(result: JsValue, index: nat) returns (line: string)
    requires NotNullish(result)
    ensures line == ResultLine(result, index)
  {
    var ok := Truthy(Field(result, "success"));
    var status := if ok then "✓" else "✗";
    var className := if ok then "success" else "error";
    line := "<div class=\"" + className + "\">" + status + " Row " + NatToDecimal(index + 1) + ": "
      + ToString(Field(result, "message")) + "</div>";
  }

  // ---------------------------------------------------------------------
  // Properties of the rendering

  /** The concatenation of pieces, first piece first. */
  function Concat(pieces: seq<string>): string {
    if pieces == [] then "" else pieces[0] + Concat(pieces[1..])
  }

  lemma {:induction false} ConcatSnoc(pieces: seq<string>, last: string)
    ensures Concat(pieces + [last]) == Concat(pieces) + last
  {
    if pieces != [] {
      assert (pieces + [last])[1..] == pieces[1..] + [last];
      ConcatSnoc(pieces[1..], last);
    } else {
      assert [last][1..] == [];
    }
  }

  /** The `<tr>` lines of the rows, one per row. */
  function RowLines(rows: seq<JsValue>, headers: seq<string>): (r: seq<string>)
    requires RowsReadable(rows, headers)
    ensures |r| == |rows| && forall i :: 0 <= i < |rows| ==> r[i] == RowLine(rows[i], headers)
  {
    seq(|rows|, i requires 0 <= i < |rows| && RowsReadable(rows, headers) => RowLine(rows[i], headers))
  }

  /** The body holds one `<tr>` line per row, in the order of the rows. */
  lemma {:induction false} OneLinePerRow(rows: seq<JsValue>, headers: seq<string>)
    requires RowsReadable(rows, headers)
    ensures RowsHtml(rows, headers) == Concat(RowLines(rows, headers))
  {
    if rows != [] {
      var init := rows[..|rows| - 1];
      var last := RowLine(rows[|rows| - 1], headers);
      OneLinePerRow(init, headers);
      RowLinesSnoc(rows, headers);
      ConcatSnoc(RowLines(init, headers), last);
    }
  }

  lemma RowLinesSnoc(rows: seq<JsValue>, headers: seq<string>)
    requires rows != [] && RowsReadable(rows, headers)
    ensures RowsReadable(rows[..|rows| - 1], headers)
    ensures RowLines(rows, headers) == RowLines(rows[..|rows| - 1], headers) + [RowLine(rows[|rows| - 1], headers)]
  {
  }

  /** The lines of the insert results, numbered by position. */
  function NumberedLines(results: seq<JsValue>): (r: seq<string>)
    requires ResultsReadable(results)
    ensures |r| == |results| && forall i :: 0 <= i < |results| ==> r[i] == ResultLine(results[i], i)
  {
    seq(|results|, i requires 0 <= i < |results| && ResultsReadable(results) => ResultLine(results[i], i))
  }

  /** The insert results are listed one line each, numbered from 1 in the order of the array. */
  lemma {:induction false} ResultsNumberedFromOne(results: seq<JsValue>)
    requires ResultsReadable(results)
    ensures ResultLines(results) == Concat(NumberedLines(results))
  {
    if results != [] {
      var init := results[..|results| - 1];
      var last := ResultLine(results[|results| - 1], |results| - 1);
      ResultsNumberedFromOne(init);
      NumberedLinesSnoc(results);
      ConcatSnoc(NumberedLines(init), last);
    }
  }

  lemma NumberedLinesSnoc(results: seq<JsValue>)
    requires results != [] && ResultsReadable(results)
    ensures ResultsReadable(results[..|results| - 1])
    ensures NumberedLines(results) == NumberedLines(results[..|results| - 1]) + [ResultLine(results[|results| - 1], |results| - 1)]
  {
  }

  /** The first `n` characters of `a + b` are those of `a` when `a` is long enough. */
  lemma PrefixOfConcat(a: string, b: string, n: nat)
    requires n <= |a|
    ensures (a + b)[..n] == a[..n]
  {
  }

  /** A result line is marked with a tick and the class `success` exactly when that result succeeded. */
  lemma ResultLineMark(result: JsValue, index: nat)
    requires NotNullish(result)
    ensures StartsWith(ResultLine(result, index), "<div class=\"success\">✓") <==> Truthy(Field(result, "success"))
  {
    var rest := ResultRest(result, index);
    ResultLineSplit(result, index);
    if Truthy(Field(result, "success")) {
      PrefixOfConcat("<div class=\"success\">✓", rest, 22);
    } else {
      OpeningsDiffer("<div class=\"error\">✗", "<div class=\"success\">✓", rest, 12);
    }
  }

  /** What follows the mark of a result line. */
  function ResultRest(result: JsValue, index: nat): string
    requires NotNullish(result)
  {
    " Row " + NatToDecimal(index + 1) + ": " + ToString(Field(result, "message")) + "</div>"
  }

  lemma ResultLineSplit(result: JsValue, index: nat)
    requires NotNullish(result)
    ensures ResultLine(result, index) ==
      (if Truthy(Field(result, "success")) then "<div class=\"success\">✓" else "<div class=\"error\">✗")
      + ResultRest(result, index)
  {
  }

  /** A line opening with `head` does not start with `other` when the two differ at position `i`. */
  lemma OpeningsDiffer(head: string, other: string, rest: string, i: nat)
    requires i < |head| && i < |other| && head[i] != other[i]
    ensures !StartsWith(head + rest, other)
  {
    assert (head + rest)[i] == head[i];
  }

  /** The reply's `success` alone decides between the success header and the single error line. */
  lemma ErrorIff(data: JsValue)
    requires Renderable(data)
    ensures StartsWith(ResponseHtml(data), "<div class=\"error\">") <==> !Truthy(Field(data, "success"))
    ensures !Truthy(Field(data, "success")) ==>
      ResponseHtml(data) == "<div class=\"error\">✗ " + ToString(Field(data, "message")) + "</div>"
  {
    var message := ToString(Field(data, "message"));
    if Truthy(Field(data, "success")) {
      SuccessSplit(data);
      OpeningsDiffer("<div class=\"success\">✓ ", "<div class=\"error\">", message + "</div>" + DataHtml(data) + ResultsHtml(data), 12);
    } else {
      PrefixOfConcat("<div class=\"error\">✗ ", message + "</div>", 19);
    }
  }

  lemma SuccessSplit(data: JsValue)
    requires Renderable(data) && Truthy(Field(data, "success"))
    ensures ResponseHtml(data) ==
      "<div class=\"success\">✓ " + (ToString(Field(data, "message")) + "</div>" + DataHtml(data) + ResultsHtml(data))
  {
    Regroup("<div class=\"success\">✓ ", ToString(Field(data, "message")), "</div>", DataHtml(data), ResultsHtml(data));
  }

  lemma Regroup<T>(a: seq<T>, b: seq<T>, c: seq<T>, d: seq<T>, e: seq<T>)
    ensures a + b + c + d + e == a + (b + c + d + e)
  {
  }

  /** A successful reply with rows reports their number, and one with an empty array says so. */
  lemma RowCountReported(data: JsValue)
    requires Renderable(data) && Truthy(Field(data, "success")) && Field(data, "data").Arr?
    ensures var rows := Field(data, "data").items;
      if rows == [] then Contains(ResponseHtml(data), "<div class=\"info\">No rows returned.</div>")
      else Contains(ResponseHtml(data), "<div class=\"row-count\">" + NatToDecimal(|rows|) + " row(s) returned</div>")
  {
    var rows := Field(data, "data").items;
    var head := "<div class=\"success\">✓ " + ToString(Field(data, "message")) + "</div>";
    if rows == [] {
      ContainsInfix(head, "<div class=\"info\">No rows returned.</div>", ResultsHtml(data));
    } else {
      var headers := Keys(rows[0]).value;
      var before := "<div class=\"data-table\">" + "<table>" + "<thead><tr>" + HeaderCells(headers)
        + "</tr></thead>" + "<tbody>" + RowsHtml(rows, headers) + "</tbody>" + "</table>";
      var count := "<div class=\"row-count\">" + NatToDecimal(|rows|) + " row(s) returned</div>";
      assert TableHtml(rows) == before + count + "</div>";
      ContainsInfix(before, count, "</div>");
      assert ResponseHtml(data) == head + TableHtml(rows) + ResultsHtml(data);
      ContainsWithin(head, TableHtml(rows), ResultsHtml(data), count);
    }
  }
}
