/** The upload client: from the platform's response body back to one result per row sent. */
module Client {
  import opened Wrappers
  import opened Model
  import opened Json
  import opened Platform

  /**
   * How parsing a decoded body ends. Malformed stands for the ValueError, KeyError and TypeError that
   * the client turns into a transient failure; Uncaught for an AttributeError, which it does not catch.
   */
  datatype Parse<+T> = Parsed(value: T) | Malformed | Uncaught {
    predicate IsFailure() { !Parsed? }
    function PropagateFailure<U>(): (r: Parse<U>)
      requires !Parsed?
    {
      if Malformed? then Parse.Malformed else Parse.Uncaught
    }
    function Extract(): T
      requires Parsed?
    {
      value
    }
  }

  /** `str(j)`; how Python writes a value that is not text is a parameter. */
  function PyStr(j: Json, show: Json -> string): string {
    if j.Str? then j.text else show(j)
  }

  function Items(j: Json): Parse<seq<Json>> {
    match Iterate(j)
    case Some(xs) => Parsed(xs)
    case None => Malformed
  }

  /** `(container.get(key) or {})`, on which `.get` is called next. */
  function SubObject(container: Json, key: string): Parse<Json>
    requires container.Obj?
  {
    var sub := container.Get(key, Null);
    if !sub.Truthy() then Parsed(EMPTY_OBJECT)
    else if sub.Obj? then Parsed(sub)
    else Uncaught
  }

  /** The first element of the path that names a row, if there is one. */
  function IndexInPath(path: seq<Json>): Parse<Option<int>> {
    if path == [] then Parsed(None)
    else if !path[0].Obj? then Uncaught
    else
      var index := path[0].Get("index", Null);
      if path[0].Get("fieldName", Null) == Str("conversions") && (index.Int? || index.Bool?)
      then Parsed(Some(if index.Int? then index.number else if index.flag then 1 else 0))
      else IndexInPath(path[1..])
  }

  function RowIndex(err: Json): Parse<Option<int>>
    requires err.Obj?
  {
    var location :- SubObject(err, "location");
    var path :- Items(location.Get("fieldPathElements", Arr([])));
    IndexInPath(path)
  }

  /** The first value of the error-code object, as text. */
  function ErrorCode(err: Json, show: Json -> string): Parse<string>
    requires err.Obj?
  {
    var codes := err.Get("errorCode", EMPTY_OBJECT);
    if !codes.Obj? then Uncaught
    else if codes.keys == [] || codes.keys[0] !in codes.fields then Parsed("UNKNOWN")
    else Parsed(PyStr(codes.fields[codes.keys[0]], show))
  }

  type ErrorTable = map<int, (string, string)>

  /** What one error object adds to the table. */
  function AddError(table: ErrorTable, err: Json, show: Json -> string): Parse<ErrorTable> {
    if !err.Obj? then Uncaught else
    var index :- RowIndex(err);
    if index.None? then Parsed(table) else
    var code :- ErrorCode(err, show);
    Parsed(table[index.value := (code, PyStr(err.Get("message", Str("")), show))])
  }

  function AddErrors(table: ErrorTable, errors: seq<Json>, show: Json -> string): Parse<ErrorTable>
    decreases |errors|
  {
    if errors == [] then Parsed(table)
    else
      var next :- AddError(table, errors[0], show);
      AddErrors(next, errors[1..], show)
  }

  /** The errors of one failure detail. */
  function ErrorsOf(detail: Json): Parse<seq<Json>> {
    if detail.Obj? then Items(detail.Get("errors", Arr([]))) else Uncaught
  }

  function AddDetails(table: ErrorTable, details: seq<Json>, show: Json -> string): Parse<ErrorTable>
    decreases |details|
  {
    if details == [] then Parsed(table)
    else
      var errors :- ErrorsOf(details[0]);
      var next :- AddErrors(table, errors, show);
      AddDetails(next, details[1..], show)
  }

  function RowResultAt(results: seq<Json>, table: ErrorTable, index: nat): RowResult
    requires index < |results|
  {
    if results[index].Truthy() then RowResult(index, true, None, None)
    else
      var (code, message) := if index in table then table[index] else ("UNKNOWN", "no error detail for row");
      RowResult(index, false, Some(code), Some(message))
  }

  function RowResults(results: seq<Json>, table: ErrorTable): (rows: seq<RowResult>)
    ensures |rows| == |results|
    ensures forall i :: 0 <= i < |rows| ==> rows[i] == RowResultAt(results, table, i)
  {
    seq(|results|, i requires 0 <= i < |results| => RowResultAt(results, table, i))
  }

  /** The results of a body that holds exactly one per row sent. */
  function ResultsOf(body: Json, expectedRows: nat): Parse<seq<Json>> {
    if !body.Obj? || "results" !in body.fields then Malformed
    else
      var results := body.fields["results"];
      if results.Arr? && |results.items| == expectedRows then Parsed(results.items) else Malformed
  }

  function DetailsOf(body: Json): Parse<seq<Json>>
    requires body.Obj?
  {
    var failure :- SubObject(body, "partialFailureError");
    Items(failure.Get("details", Arr([])))
  }

  /** One result per row, in row order, with the detail the body gives for each failed row. */
  function ResponseRows(body: Json, expectedRows: nat, show: Json -> string): Parse<seq<RowResult>> {
    var results :- ResultsOf(body, expectedRows);
    var details :- DetailsOf(body);
    var table :- AddDetails(map[], details, show);
    Parsed(RowResults(results, table))
  }

  /** The parser: fills the error table detail by detail, then builds the row list. */
  method ParseBatchResponse(body: Json, expectedRows: nat, show: Json -> string)
    returns (outcome: Parse<seq<RowResult>>)
    ensures outcome == ResponseRows(body, expectedRows, show)
  {
    var results := ResultsOf(body, expectedRows);
    if !results.Parsed? { return results.PropagateFailure(); }
    var details := DetailsOf(body);
    if !details.Parsed? { return details.PropagateFailure(); }
    var errorsByIndex: ErrorTable := map[];
    for d := 0 to |details.value|
      invariant AddDetails(errorsByIndex, details.value[d..], show) == AddDetails(map[], details.value, show)
    {
      var errors := ErrorsOf(details.value[d]);
      if !errors.Parsed? { return errors.PropagateFailure(); }
      ghost var before := errorsByIndex;
      for e := 0 to |errors.value|
        invariant AddErrors(errorsByIndex, errors.value[e..], show) == AddErrors(before, errors.value, show)
      {
        assert errors.value[e..][1..] == errors.value[e + 1..];
        var added := AddError(errorsByIndex, errors.value[e], show);
        if !added.Parsed? { return added.PropagateFailure(); }
        errorsByIndex := added.value;
      }
      assert details.value[d..][1..] == details.value[d + 1..];
    }
    var rows: seq<RowResult> := [];
    ghost var expected := RowResults(results.value, errorsByIndex);
    for index := 0 to |results.value|
      invariant rows == expected[..index]
    {
      rows := rows + [RowResultAt(results.value, errorsByIndex, index)];
    }
    assert expected[..|results.value|] == expected;
    outcome := Parsed(rows);
  }

  /** A body whose result list does not have one entry per row is refused, whatever else it holds. */
  lemma WrongLengthIsRefused(body: Json, expectedRows: nat, show: Json -> string)
    ensures ResponseRows(body, expectedRows, show).Parsed? ==>
              && body.Obj? && "results" in body.fields && body.fields["results"].Arr?
              && |body.fields["results"].items| == expectedRows == |ResponseRows(body, expectedRows, show).value|
              && forall i :: 0 <= i < expectedRows ==>
                   && ResponseRows(body, expectedRows, show).value[i].index == i
                   && ResponseRows(body, expectedRows, show).value[i].ok == body.fields["results"].items[i].Truthy()
    ensures body.Obj? && "results" in body.fields
            && !(body.fields["results"].Arr? && |body.fields["results"].items| == expectedRows)
            ==> ResponseRows(body, expectedRows, show).Malformed?
  {
  }

  /** The results of a batch with these verdicts, as the uploader sees them. */
  function VerdictResults(verdicts: seq<Option<string>>): (rows: seq<RowResult>)
    ensures |rows| == |verdicts|
    ensures forall i :: 0 <= i < |rows| ==> rows[i] == VerdictResult(verdicts, i)
  {
    seq(|verdicts|, i requires 0 <= i < |verdicts| => VerdictResult(verdicts, i))
  }

  function VerdictResult(verdicts: seq<Option<string>>, index: nat): RowResult
    requires index < |verdicts|
  {
    match verdicts[index]
    case None => RowResult(index, true, None, None)
    case Some(code) => RowResult(index, false, Some(code), Some(RowMessage(index, code)))
  }

  /** The error table the rendered errors of these verdicts amount to. */
  function ErrorTableOf(verdicts: seq<Option<string>>): ErrorTable {
    map i: int | 0 <= i < |verdicts| && verdicts[i].Some? :: (verdicts[i].value, RowMessage(i, verdicts[i].value))
  }

  lemma OneErrorParses(table: ErrorTable, index: nat, code: string, show: Json -> string)
    ensures AddError(table, RowError(index, code), show) == Parsed(table[index := (code, RowMessage(index, code))])
  {
    var err := RowError(index, code);
    var element := Obj(["fieldName", "index"], map["fieldName" := Str("conversions"), "index" := Int(index)]);
    assert err.Get("location", Null) == Location(index);
    assert Location(index).Get("fieldPathElements", Arr([])) == Arr([element]);
    assert IndexInPath([element]) == Parsed(Some(index));
    assert RowIndex(err) == Parsed(Some(index));
    assert ErrorCode(err, show) == Parsed(code);
  }

  lemma LastErrorParses(table: ErrorTable, index: nat, code: string, show: Json -> string)
    ensures AddErrors(table, [RowError(index, code)], show)
            == Parsed(table[index := (code, RowMessage(index, code))])
  {
    OneErrorParses(table, index, code, show);
    assert [RowError(index, code)][1..] == [];
  }

  lemma {:induction false} AddErrorsConcat(table: ErrorTable, a: seq<Json>, b: seq<Json>, show: Json -> string)
    requires AddErrors(table, a, show).Parsed?
    ensures AddErrors(table, a + b, show) == AddErrors(AddErrors(table, a, show).value, b, show)
    decreases |a|
  {
    if a == [] {
      assert a + b == b;
    } else {
      assert (a + b)[1..] == a[1..] + b;
      AddErrorsConcat(AddError(table, a[0], show).value, a[1..], b, show);
    }
  }

  lemma TableGrows(verdicts: seq<Option<string>>)
    requires verdicts != []
    ensures var last := |verdicts| - 1;
            ErrorTableOf(verdicts)
            == match verdicts[last]
               case None => ErrorTableOf(verdicts[..last])
               case Some(code) => ErrorTableOf(verdicts[..last])[last := (code, RowMessage(last, code))]
  {
  }

  lemma {:induction false} RenderedErrorsParse(verdicts: seq<Option<string>>, show: Json -> string)
    ensures AddErrors(map[], Errors(verdicts), show) == Parsed(ErrorTableOf(verdicts))
  {
    if verdicts != [] {
      var last := |verdicts| - 1;
      RenderedErrorsParse(verdicts[..last], show);
      TableGrows(verdicts);
      var before, errors := ErrorTableOf(verdicts[..last]), Errors(verdicts[..last]);
      match verdicts[last] {
        case None =>
          assert Errors(verdicts) == errors;
        case Some(code) =>
          AddErrorsConcat(map[], errors, [RowError(last, code)], show);
          LastErrorParses(before, last, code, show);
      }
    }
  }

  /** Parsing what the platform renders gives back exactly its verdicts, row by row. */
  lemma RenderThenParse(rows: seq<ConversionRow>, verdicts: seq<Option<string>>, show: Json -> string)
    requires |rows| == |verdicts|
    ensures ResponseRows(Render(rows, verdicts), |rows|, show) == Parsed(VerdictResults(verdicts))
  {
    var body := Render(rows, verdicts);
    var results, errors := Results(rows, verdicts), Errors(verdicts);
    assert ResultsOf(body, |rows|) == Parsed(results);
    RenderedErrorsParse(verdicts, show);
    RenderedTable(rows, verdicts, show);
    ResultsTellVerdicts(rows, verdicts);
    assert RowResults(results, ErrorTableOf(verdicts)) == VerdictResults(verdicts);
  }

  lemma RenderedTable(rows: seq<ConversionRow>, verdicts: seq<Option<string>>, show: Json -> string)
    requires |rows| == |verdicts|
    ensures DetailsOf(Render(rows, verdicts)).Parsed?
    ensures AddDetails(map[], DetailsOf(Render(rows, verdicts)).value, show) == Parsed(ErrorTableOf(verdicts))
  {
    var body, errors := Render(rows, verdicts), Errors(verdicts);
    RenderedErrorsParse(verdicts, show);
    if errors == [] {
      assert body.Get("partialFailureError", Null) == Null;
      assert EMPTY_OBJECT.Get("details", Arr([])) == Arr([]);
      assert DetailsOf(body) == Parsed([]);
    } else {
      var failure := body.Get("partialFailureError", Null);
      assert SubObject(body, "partialFailureError") == Parsed(failure);
      var details := failure.Get("details", Arr([]));
      assert |details.items| == 1 && ErrorsOf(details.items[0]) == Parsed(errors);
      assert details.items[1..] == [];
    }
  }

  lemma ResultsTellVerdicts(rows: seq<ConversionRow>, verdicts: seq<Option<string>>)
    requires |rows| == |verdicts|
    ensures forall i :: 0 <= i < |rows| ==> (Results(rows, verdicts)[i].Truthy() <==> verdicts[i].None?)
  {
  }
}
