/** Which error detail of a response ends up on which row, for any body at all. */
module ErrorDetails {
  import opened Wrappers
  import opened Json
  import opened Client

  /** A path element that names row i of the request; Python takes a truth value for an index too. */
  predicate PointsAt(element: Json, i: int) {
    && element.Obj? && "fieldName" in element.fields && element.fields["fieldName"] == Str("conversions")
    && "index" in element.fields
    && match element.fields["index"]
       case Int(n) => n == i
       case Bool(b) => i == if b then 1 else 0
       case _ => false
  }

  /** It names one row. */
  function Pointed(element: Json): Option<int> {
    if element.Obj? && "index" in element.fields
    then match element.fields["index"] case Int(n) => Some(n) case Bool(b) => Some(if b then 1 else 0) case _ => None
    else None
  }

  lemma PointsToOne(element: Json)
    ensures forall n :: PointsAt(element, n) ==> Pointed(element) == Some(n)
    ensures forall n, m :: PointsAt(element, n) && Pointed(element) == Some(m) ==> PointsAt(element, m)
  {
  }

  lemma PointerStep(path: seq<Json>, i: int)
    requires path != []
    ensures PointsAt(path[0], i) ==> IndexInPath(path) == Parsed(Some(i))
    ensures IndexInPath(path) == Parsed(Some(i)) && !PointsAt(path[0], i) ==>
              && IndexInPath(path[1..]) == Parsed(Some(i)) && path[0].Obj?
              && forall n :: !PointsAt(path[0], n)
    ensures path[0].Obj? && (forall n :: !PointsAt(path[0], n)) ==> IndexInPath(path) == IndexInPath(path[1..])
  {
    if path[0].Obj? && Pointed(path[0]).Some? {
      assert PointsAt(path[0], Pointed(path[0]).value)
             <==> "fieldName" in path[0].fields && path[0].fields["fieldName"] == Str("conversions");
    }
  }

  /** The element names a row, and every element before it is an object that names none. */
  ghost predicate IsFirstPointer(path: seq<Json>, k: nat, i: int) {
    k < |path| && PointsAt(path[k], i) && forall j :: 0 <= j < k ==> path[j].Obj? && forall n :: !PointsAt(path[j], n)
  }

  /** The first element of the path that names a row decides. */
  lemma {:induction false} FirstPointerDecides(path: seq<Json>, i: int)
    ensures IndexInPath(path) == Parsed(Some(i)) <==> exists k: nat :: IsFirstPointer(path, k, i)
    decreases |path|
  {
    hide PointsAt, IndexInPath;
    if path == [] {
      assert IndexInPath(path) == Parsed(None) by { EmptyPath(); }
    } else {
      var rest := path[1..];
      FirstPointerDecides(rest, i);
      PointerStep(path, i);
      assert forall j :: 0 <= j < |rest| ==> rest[j] == path[j + 1];
      forall k: nat | k > 0 && IsFirstPointer(path, k, i)
        ensures IsFirstPointer(rest, k - 1, i) && path[0].Obj? && forall n :: !PointsAt(path[0], n)
      {
      }
      if PointsAt(path[0], i) {
        assert IsFirstPointer(path, 0, i);
      } else if IndexInPath(path) == Parsed(Some(i)) {
        var k: nat :| IsFirstPointer(rest, k, i);
        forall j | 0 <= j < k + 1 ensures path[j].Obj? && forall n :: !PointsAt(path[j], n) {
          assert j > 0 ==> path[j] == rest[j - 1];
        }
        assert IsFirstPointer(path, k + 1, i);
      }
    }
  }

  lemma EmptyPath()
    ensures IndexInPath([]) == Parsed(None)
  {
  }

  /** Error k is about row i. */
  predicate IsAbout(errors: seq<Json>, k: nat, i: int)
    requires k < |errors|
  {
    errors[k].Obj? && RowIndex(errors[k]) == Parsed(Some(i))
  }

  /** Error k is the last one about row i. */
  predicate IsLastAbout(errors: seq<Json>, k: nat, i: int) {
    k < |errors| && IsAbout(errors, k, i) && forall j :: k < j < |errors| ==> !IsAbout(errors, j, i)
  }

  lemma {:induction false} AddErrorsSplit(table: ErrorTable, errors: seq<Json>, show: Json -> string)
    requires errors != [] && AddErrors(table, errors, show).Parsed?
    ensures AddErrors(table, errors[..|errors| - 1], show).Parsed?
    ensures AddErrors(table, errors, show)
            == AddError(AddErrors(table, errors[..|errors| - 1], show).value, errors[|errors| - 1], show)
    decreases |errors|
  {
    if |errors| > 1 {
      var next := AddError(table, errors[0], show).value;
      AddErrorsSplit(next, errors[1..], show);
      assert errors[..|errors| - 1][1..] == errors[1..][..|errors| - 2];
    } else {
      assert errors[..0] == [] && errors[1..] == [];
    }
  }

  lemma OneError(table: ErrorTable, err: Json, show: Json -> string, i: int)
    requires AddError(table, err, show).Parsed?
    ensures var after := AddError(table, err, show).value;
            && err.Obj?
            && (RowIndex(err) == Parsed(Some(i)) ==>
                  && ErrorCode(err, show).Parsed? && i in after
                  && after[i] == (ErrorCode(err, show).value, PyStr(err.Get("message", Str("")), show)))
            && (RowIndex(err) != Parsed(Some(i)) ==>
                  (i in after <==> i in table) && (i in table ==> after[i] == table[i]))
  {
  }

  /** The code of an error is the first value under `errorCode`, and UNKNOWN when there is none. */
  lemma CodeIsFirstValue(err: Json, show: Json -> string)
    requires err.Obj?
    ensures "errorCode" !in err.fields ==> ErrorCode(err, show) == Parsed("UNKNOWN")
    ensures "errorCode" in err.fields && err.fields["errorCode"].Obj? ==>
              var codes := err.fields["errorCode"];
              if codes.keys != [] && codes.keys[0] in codes.fields
              then ErrorCode(err, show)
                   == Parsed(match codes.fields[codes.keys[0]] case Str(code) => code case other => show(other))
              else ErrorCode(err, show) == Parsed("UNKNOWN")
    ensures "errorCode" in err.fields && !err.fields["errorCode"].Obj? ==> ErrorCode(err, show).Uncaught?
  {
  }

  /** After all errors, a row has the code and message of the last one about it, and none if there is none. */
  lemma {:induction false} LastErrorCounts(table: ErrorTable, errors: seq<Json>, show: Json -> string, i: int)
    requires AddErrors(table, errors, show).Parsed?
    ensures var after := AddErrors(table, errors, show).value;
            && (forall k :: 0 <= k < |errors| ==> errors[k].Obj?)
            && (forall k: nat :: IsLastAbout(errors, k, i) ==>
                  && ErrorCode(errors[k], show).Parsed? && i in after
                  && after[i] == (ErrorCode(errors[k], show).value, PyStr(errors[k].Get("message", Str("")), show)))
            && ((forall k :: 0 <= k < |errors| ==> !IsAbout(errors, k, i)) ==>
                  (i in after <==> i in table) && (i in table ==> after[i] == table[i]))
    decreases |errors|
  {
    hide AddError, AddErrors, RowIndex, ErrorCode;
    if errors == [] {
      NoErrors(table, show);
    } else {
      var last := |errors| - 1;
      var before := errors[..last];
      AddErrorsSplit(table, errors, show);
      LastErrorCounts(table, before, show, i);
      OneError(AddErrors(table, before, show).value, errors[last], show, i);
      OneMoreError(errors, i);
    }
  }

  lemma NoErrors(table: ErrorTable, show: Json -> string)
    ensures AddErrors(table, [], show) == Parsed(table)
  {
  }

  lemma OneMoreError(errors: seq<Json>, i: int)
    requires errors != []
    ensures var last, before := |errors| - 1, errors[..|errors| - 1];
            && (IsAbout(errors, last, i) ==> forall k: nat :: IsLastAbout(errors, k, i) ==> k == last)
            && (!IsAbout(errors, last, i) ==>
                  forall k: nat :: IsLastAbout(errors, k, i) ==> IsLastAbout(before, k, i) && before[k] == errors[k])
            && ((forall k :: 0 <= k < |errors| ==> !IsAbout(errors, k, i)) ==>
                  !IsAbout(errors, last, i) && forall k :: 0 <= k < |before| ==> !IsAbout(before, k, i))
  {
    hide RowIndex;
    var last, before := |errors| - 1, errors[..|errors| - 1];
    forall k | 0 <= k < last ensures before[k] == errors[k] && (IsAbout(before, k, i) <==> IsAbout(errors, k, i)) {
    }
  }

  /** All errors of all details, in order. */
  function AllErrors(details: seq<Json>): seq<Json> {
    if details == [] then []
    else (match ErrorsOf(details[0]) case Parsed(errors) => errors case _ => []) + AllErrors(details[1..])
  }

  lemma {:induction false} DetailsInOrder(table: ErrorTable, details: seq<Json>, show: Json -> string)
    requires AddDetails(table, details, show).Parsed?
    ensures AddErrors(table, AllErrors(details), show) == AddDetails(table, details, show)
    decreases |details|
  {
    if details != [] {
      var errors := ErrorsOf(details[0]).value;
      var next := AddErrors(table, errors, show).value;
      DetailsInOrder(next, details[1..], show);
      AddErrorsConcat(table, errors, AllErrors(details[1..]), show);
    }
  }

  /**
   * The rows of any response that can be read: row i is accepted exactly when its result is not empty; a
   * refused one has code and message of the last error about it, or else the standard ones.
   */
  lemma RowsOfResponse(body: Json, expectedRows: nat, show: Json -> string, i: nat)
    requires ResponseRows(body, expectedRows, show).Parsed? && i < expectedRows
    ensures var rows := ResponseRows(body, expectedRows, show).value;
            && |rows| == expectedRows && rows[i].index == i
            && body.Obj? && "results" in body.fields && body.fields["results"].Arr?
            && |body.fields["results"].items| == expectedRows
            && (rows[i].ok <==> body.fields["results"].items[i].Truthy())
            && (rows[i].ok ==> rows[i].errorCode == None && rows[i].message == None)
            && DetailsOf(body).Parsed?
            && var errors := AllErrors(DetailsOf(body).value);
               && (forall k: nat :: !rows[i].ok && IsLastAbout(errors, k, i) ==>
                     && errors[k].Obj? && ErrorCode(errors[k], show).Parsed?
                     && rows[i].errorCode == Some(ErrorCode(errors[k], show).value)
                     && rows[i].message == Some(PyStr(errors[k].Get("message", Str("")), show)))
               && (!rows[i].ok && (forall k :: 0 <= k < |errors| ==> !IsAbout(errors, k, i)) ==>
                     rows[i].errorCode == Some("UNKNOWN") && rows[i].message == Some("no error detail for row"))
  {
    hide DetailsOf, AddDetails, AddErrors, RowIndex, ErrorCode, AllErrors;
    var details := DetailsOf(body).value;
    DetailsInOrder(map[], details, show);
    LastErrorCounts(map[], AllErrors(details), show, i);
  }
}
