/**
 * What `format_query_response` computes: the server's column/row answer
 * `{"columns": [...], "data": [[...], ...]}` turned into one map per row.
 *
 * Each row's map is filled by walking `zip(columns, row)`: the walk stops
 * at the shorter of the two, and a column name that repeats overwrites the
 * cell stored under it before. The failures the Python code raises
 * (a missing key, something that is not a list) are `Failure` values.
 */
module Reshaping {
  import opened Wrappers
  import opened JsonValues

  /** One reshaped row: column name to cell. */
  type Row = map<string, Json>

  datatype FormatError =
    | NotAnObject              // the response is not a JSON object
    | MissingKey(key: string)  // "columns" or "data" is absent
    | DataNotList              // "data" is not a list of rows
    | ColumnsNotList           // "columns" is not a list (raised when the first row is zipped)
    | RowNotList               // a row is not a list
    | NonStringColumn(name: Json)  // a column name that is not a string reaches the row map

  function Min(a: nat, b: nat): (m: nat)
    ensures m <= a && m <= b && (m == a || m == b)
  {
    if a <= b then a else b
  }

  /** The row map once the first `k` pairs of `zip(columns, cells)` are stored. */
  function ZipPrefix(columns: seq<Json>, cells: seq<Json>, k: nat): Result<Row, FormatError>
    requires k <= |columns| && k <= |cells|
  {
    if k == 0 then Success(map[])
    else match ZipPrefix(columns, cells, k - 1)
      case Failure(e) => Failure(e)
      case Success(m) =>
        if columns[k - 1].JString? then Success(m[columns[k - 1].str := cells[k - 1]])
        else Failure(NonStringColumn(columns[k - 1]))
  }

  /** One row of `data` reshaped against the column names. */
  function FormatLine(columns: Json, line: Json): Result<Row, FormatError>
  {
    if !columns.JArray? then Failure(ColumnsNotList)
    else if !line.JArray? then Failure(RowNotList)
    else ZipPrefix(columns.items, line.items, Min(|columns.items|, |line.items|))
  }

  /** The rows reshaped in order; the first row that fails decides the error. */
  function FormatLines(columns: Json, lines: seq<Json>): Result<seq<Row>, FormatError>
  {
    if lines == [] then Success([])
    else match FormatLines(columns, lines[..|lines| - 1])
      case Failure(e) => Failure(e)
      case Success(rows) =>
        match FormatLine(columns, lines[|lines| - 1])
        case Failure(e) => Failure(e)
        case Success(row) => Success(rows + [row])
  }

  /** The whole reshaping of a parsed response. */
  function FormatResponse(response: Json): Result<seq<Row>, FormatError>
  {
    if !response.JObject? then Failure(NotAnObject)
    else if "columns" !in response.fields then Failure(MissingKey("columns"))
    else if "data" !in response.fields then Failure(MissingKey("data"))
    else match response.fields["data"]
      case JArray(lines) => FormatLines(response.fields["columns"], lines)
      case _ => Failure(DataNotList)
  }

  // Names and Lines only turn Dafny strings and rows into `Json`, to state the lemmas below.

  /** Column names as the server sends them: a list of strings. */
  function Names(names: seq<string>): (cols: seq<Json>)
    ensures |cols| == |names|
    ensures forall j :: 0 <= j < |names| ==> cols[j] == JString(names[j])
  {
    seq(|names|, j requires 0 <= j < |names| => JString(names[j]))
  }

  /** Rows as the server sends them: a list of lists of cells. */
  function Lines(rows: seq<seq<Json>>): (lines: seq<Json>)
    ensures |lines| == |rows|
    ensures forall i :: 0 <= i < |rows| ==> lines[i] == JArray(rows[i])
  {
    seq(|rows|, i requires 0 <= i < |rows| => JArray(rows[i]))
  }

  ghost predicate AllNames(columns: seq<Json>, k: nat)
    requires k <= |columns|
  {
    forall j :: 0 <= j < k ==> columns[j].JString?
  }

  // ---------------------------------------------------------------------
  // One row
  // ---------------------------------------------------------------------

  /** Once a stored pair fails, the row has failed with that error. */
  lemma {:induction false} ZipPrefixFailureSticks(columns: seq<Json>, cells: seq<Json>, j: nat, k: nat)
    requires j <= k <= |columns| && k <= |cells|
    requires ZipPrefix(columns, cells, j).Failure?
    ensures ZipPrefix(columns, cells, k) == ZipPrefix(columns, cells, j)
    decreases k
  {
    if k > j {
      ZipPrefixFailureSticks(columns, cells, j, k - 1);
    }
  }

  /** Storing the first `k` pairs succeeds exactly when their names are strings. */
  lemma {:induction false} ZipPrefixSucceeds(columns: seq<Json>, cells: seq<Json>, k: nat)
    requires k <= |columns| && k <= |cells|
    ensures ZipPrefix(columns, cells, k).Success? <==> AllNames(columns, k)
  {
    if k > 0 {
      ZipPrefixSucceeds(columns, cells, k - 1);
    }
  }

  /** The keys of the row map are exactly the first `k` column names. */
  lemma {:induction false} ZipPrefixKeys(columns: seq<Json>, cells: seq<Json>, k: nat)
    requires k <= |columns| && k <= |cells|
    requires AllNames(columns, k)
    ensures ZipPrefix(columns, cells, k).Success?
    ensures ZipPrefix(columns, cells, k).value.Keys == set j | 0 <= j < k :: columns[j].str
  {
    if k > 0 {
      ZipPrefixKeys(columns, cells, k - 1);
      var before := set j | 0 <= j < k - 1 :: columns[j].str;
      var after := set j | 0 <= j < k :: columns[j].str;
      assert after == before + {columns[k - 1].str} by {
        forall x | x in after ensures x in before + {columns[k - 1].str} {
          var j :| 0 <= j < k && columns[j].str == x;
          if j < k - 1 { assert x in before; }
        }
      }
    }
  }

  /** A name maps to the cell of its LAST occurrence among the first `k` pairs. */
  lemma {:induction false} ZipPrefixLastWins(columns: seq<Json>, cells: seq<Json>, k: nat, j: nat)
    requires k <= |columns| && k <= |cells|
    requires AllNames(columns, k)
    requires j < k
    requires forall l :: j < l < k ==> columns[l] != columns[j]
    ensures ZipPrefix(columns, cells, k).Success?
    ensures columns[j].str in ZipPrefix(columns, cells, k).value
    ensures ZipPrefix(columns, cells, k).value[columns[j].str] == cells[j]
  {
    ZipPrefixSucceeds(columns, cells, k - 1);
    if j < k - 1 {
      ZipPrefixLastWins(columns, cells, k - 1, j);
      assert columns[k - 1].str != columns[j].str;
    }
  }

  // ---------------------------------------------------------------------
  // All rows
  // ---------------------------------------------------------------------

  /** Once a prefix of the rows has failed, the whole reshaping fails with that error. */
  lemma {:induction false} FormatLinesFailureSticks(columns: Json, lines: seq<Json>, k: nat)
    requires k <= |lines|
    requires FormatLines(columns, lines[..k]).Failure?
    ensures FormatLines(columns, lines) == FormatLines(columns, lines[..k])
    decreases |lines|
  {
    if k < |lines| {
      var front := lines[..|lines| - 1];
      assert front[..k] == lines[..k];
      FormatLinesFailureSticks(columns, front, k);
    } else {
      assert lines[..k] == lines;
    }
  }

  /**
   * The reshaping succeeds exactly when every row does, and then it is one
   * map per row, in the order of the rows.
   */
  lemma {:induction false} FormatLinesRows(columns: Json, lines: seq<Json>)
    ensures FormatLines(columns, lines).Success?
      <==> forall i :: 0 <= i < |lines| ==> FormatLine(columns, lines[i]).Success?
    ensures FormatLines(columns, lines).Success? ==>
      && |FormatLines(columns, lines).value| == |lines|
      && forall i :: 0 <= i < |lines| ==>
           FormatLines(columns, lines).value[i] == FormatLine(columns, lines[i]).value
    decreases |lines|
  {
    if lines != [] {
      var front := lines[..|lines| - 1];
      FormatLinesRows(columns, front);
      assert forall i :: 0 <= i < |front| ==> front[i] == lines[i];
    }
  }

  /** When some row fails, the error is that of the first failing row. */
  lemma FormatLinesFirstError(columns: Json, lines: seq<Json>, i: nat)
    requires i < |lines|
    requires forall l :: 0 <= l < i ==> FormatLine(columns, lines[l]).Success?
    requires FormatLine(columns, lines[i]).Failure?
    ensures FormatLines(columns, lines) == Failure(FormatLine(columns, lines[i]).error)
  {
    var upto := lines[..i + 1];
    assert upto[..i] == lines[..i];
    FormatLinesRows(columns, lines[..i]);
    FormatLinesFailureSticks(columns, lines, i + 1);
  }

  // ---------------------------------------------------------------------
  // The whole response
  // ---------------------------------------------------------------------

  /** No rows give no maps, whatever "columns" holds. */
  lemma FormatResponseEmptyData(response: Json)
    requires response.JObject? && "columns" in response.fields
    requires "data" in response.fields && response.fields["data"] == JArray([])
    ensures FormatResponse(response) == Success([])
  {
  }

  /**
   * For a well-formed response (a list of string column names and a list
   * of rows) the result has one map per row, in order; row `i`'s keys are
   * exactly the first min(|columns|, |row i|) names, extra cells and extra
   * names being dropped; each such name maps to the cell of its last
   * occurrence.
   */
  lemma FormatResponseWellFormed(response: Json, names: seq<string>, rows: seq<seq<Json>>)
    requires response.JObject?
    requires "columns" in response.fields && response.fields["columns"] == JArray(Names(names))
    requires "data" in response.fields && response.fields["data"] == JArray(Lines(rows))
    ensures FormatResponse(response).Success?
    ensures |FormatResponse(response).value| == |rows|
    ensures forall i :: 0 <= i < |rows| ==>
      FormatResponse(response).value[i].Keys
        == set j | 0 <= j < Min(|names|, |rows[i]|) :: names[j]
    ensures forall i, j ::
      (0 <= i < |rows| && 0 <= j < Min(|names|, |rows[i]|)
       && forall l :: j < l < Min(|names|, |rows[i]|) ==> names[l] != names[j]) ==>
      FormatResponse(response).value[i][names[j]] == rows[i][j]
  {
    var columns := JArray(Names(names));
    var lines := Lines(rows);
    forall i | 0 <= i < |rows|
      ensures FormatLine(columns, lines[i]).Success?
      ensures FormatLine(columns, lines[i]).value.Keys
        == set j | 0 <= j < Min(|names|, |rows[i]|) :: names[j]
      ensures forall j ::
        (0 <= j < Min(|names|, |rows[i]|)
         && forall l :: j < l < Min(|names|, |rows[i]|) ==> names[l] != names[j]) ==>
        FormatLine(columns, lines[i]).value[names[j]] == rows[i][j]
    {
      var n := Min(|names|, |rows[i]|);
      ZipPrefixKeys(Names(names), rows[i], n);
      assert (set j | 0 <= j < n :: Names(names)[j].str) == set j | 0 <= j < n :: names[j];
      forall j | 0 <= j < n && (forall l :: j < l < n ==> names[l] != names[j])
        ensures FormatLine(columns, lines[i]).value[names[j]] == rows[i][j]
      {
        ZipPrefixLastWins(Names(names), rows[i], n, j);
      }
    }
    FormatLinesRows(columns, lines);
  }

  /**
   * With distinct column names, row `i` maps `columns[j]` to `data[i][j]`
   * for every `j` below min(|columns|, |row i|).
   */
  lemma FormatResponseDistinctColumns(response: Json, names: seq<string>, rows: seq<seq<Json>>, i: nat, j: nat)
    requires response.JObject?
    requires "columns" in response.fields && response.fields["columns"] == JArray(Names(names))
    requires "data" in response.fields && response.fields["data"] == JArray(Lines(rows))
    requires forall a, b :: 0 <= a < b < |names| ==> names[a] != names[b]
    requires i < |rows| && j < Min(|names|, |rows[i]|)
    ensures FormatResponse(response).Success?
    ensures |FormatResponse(response).value| == |rows|
    ensures names[j] in FormatResponse(response).value[i]
    ensures FormatResponse(response).value[i][names[j]] == rows[i][j]
  {
    FormatResponseWellFormed(response, names, rows);
  }

  /** The case the repository's test checks: columns a, b and rows [null, 1], [null, 2]. */
  lemma FormatResponseExample()
    ensures FormatResponse(JObject(map[
        "columns" := JArray([JString("a"), JString("b")]),
        "data" := JArray([JArray([JNull, JInt(1)]), JArray([JNull, JInt(2)])])]))
      == Success([map["a" := JNull, "b" := JInt(1)], map["a" := JNull, "b" := JInt(2)]])
  {
    var response := JObject(map[
        "columns" := JArray([JString("a"), JString("b")]),
        "data" := JArray([JArray([JNull, JInt(1)]), JArray([JNull, JInt(2)])])]);
    var names, rows := ["a", "b"], [[JNull, JInt(1)], [JNull, JInt(2)]];
    assert Names(names) == [JString("a"), JString("b")];
    assert Lines(rows) == [JArray([JNull, JInt(1)]), JArray([JNull, JInt(2)])];
    FormatResponseWellFormed(response, names, rows);
    var r := FormatResponse(response).value;
    assert r[0].Keys == {"a", "b"} by {
      assert (set j | 0 <= j < 2 :: names[j]) == {"a", "b"};
    }
    assert r[1].Keys == {"a", "b"} by {
      assert (set j | 0 <= j < 2 :: names[j]) == {"a", "b"};
    }
    assert r[0]["a"] == JNull && r[0]["b"] == JInt(1);
    assert r[1]["a"] == JNull && r[1]["b"] == JInt(2);
    assert r[0] == map["a" := JNull, "b" := JInt(1)];
    assert r[1] == map["a" := JNull, "b" := JInt(2)];
    assert r == [map["a" := JNull, "b" := JInt(1)], map["a" := JNull, "b" := JInt(2)]];
  }
}
