/** The SQL text the data layer builds (database/database.py and the older database.py,
    which agree on these helpers), and `ResultSet`, the dictionary that indexes query rows
    by their first column. */
module Sql {
  import opened Basics
  import opened Text

  /** The Python values that reach the query builders. `PyFloat` carries the number and the
      text `str()` gives for it. */
  datatype PyValue =
    | PyStr(s: string)
    | PyBool(b: bool)
    | PyInt(i: int)
    | PyFloat(x: real, text: string)
    | PyNone

  /** `to_comparison_value`: a string in single quotes (nothing inside is escaped), a bool
      as "1"/"0", `None` as `None`, anything else as its `str()`. */
  function ToComparisonValue(v: PyValue): (r: Option<string>)
    ensures r.None? <==> v.PyNone?
  {
    match v
    case PyStr(s) => Some("'" + s + "'")
    case PyBool(b) => Some(if b then "1" else "0")
    case PyInt(i) => Some(IntToString(i))
    case PyFloat(_, text) => Some(text)
    case PyNone => None
  }

  /** `int(value)`: integers as they are, booleans as 0/1, floats truncated toward zero, text
      that reads as a signed decimal integer; anything else raises (`None` here). */
  function IntOf(v: PyValue): (r: Option<int>)
    ensures v.PyInt? ==> r == Some(v.i)
    ensures v.PyNone? ==> r.None?
  {
    match v
    case PyInt(i) => Some(i)
    case PyBool(b) => Some(if b then 1 else 0)
    case PyFloat(x, _) => Some(if x >= 0.0 then x.Floor else -((-x).Floor))
    case PyStr(s) => ParseInt(s)
    case PyNone => None
  }

  /** `int()` of the text `str()` gives for an integer is that integer, and truncation of a
      float never moves it away from zero. */
  lemma IntOfSpec(i: int, x: real, text: string)
    ensures IntOf(PyStr(IntToString(i))) == Some(i)
    ensures var t := IntOf(PyFloat(x, text)).value;
      (x >= 0.0 ==> 0.0 <= t as real <= x < t as real + 1.0) &&
      (x < 0.0 ==> t as real - 1.0 < x <= t as real <= 0.0)
  {
    ParseIntToString(i);
  }

  /** A quoted literal with its first and last character removed. */
  function Unquote(literal: string): string
  {
    if |literal| >= 2 then literal[1..|literal| - 1] else literal
  }

  /** A string value renders as a literal that starts and ends with a quote and holds the
      string unchanged, so stripping the quotes gives it back. */
  lemma StringLiteral(s: string)
    ensures var lit := ToComparisonValue(PyStr(s)).value;
      |lit| == |s| + 2 && lit[0] == '\'' && lit[|lit| - 1] == '\'' && Unquote(lit) == s
  {
    var lit := "'" + s + "'";
    assert lit[1..|lit| - 1] == s;
  }

  /** Because nothing is escaped, a string holding a quote renders as text in which a quote
      stands strictly inside the literal, where SQL ends the literal early. */
  lemma StringLiteralUnescaped(s: string, k: nat)
    requires k < |s| && s[k] == '\''
    ensures var lit := ToComparisonValue(PyStr(s)).value;
      0 < k + 1 < |lit| - 1 && lit[k + 1] == '\''
  {
    var lit := "'" + s + "'";
    assert lit[k + 1] == s[k];
  }

  /** Booleans render as the integers SQLite stores for them, so `IsEnabled=True` and
      `IsEnabled=1` select the same rows. */
  lemma BoolRendersAsInt(b: bool)
    ensures ToComparisonValue(PyBool(b)) == ToComparisonValue(PyInt(if b then 1 else 0))
  {
    assert IntToString(1) == "1" && IntToString(0) == "0";
  }

  /** An integer renders as text that `int()` reads back as the same integer. */
  lemma IntRendering(i: int)
    ensures ParseInt(ToComparisonValue(PyInt(i)).value) == Some(i)
  {
    ParseIntToString(i);
  }

  /** How an f-string shows a comparison value: `None` prints as "None". */
  function Shown(v: PyValue): string
  {
    match ToComparisonValue(v)
    case None => "None"
    case Some(t) => t
  }

  /** One `key=value` condition of the keyword form. */
  function Condition(kv: (string, PyValue)): string
  {
    kv.0 + "=" + Shown(kv.1)
  }

  /** The `TypeError` of `str.join` when a positional value renders as `None`. */
  datatype SqlError = JoinTypeError

  /** `to_parameter_statement(separator, *args, **kwargs)`: with no positional arguments, one
      condition per keyword in order; with no keywords, the rendered positional values;
      with both, nothing at all. Keywords are a sequence of distinct-named pairs in the
      order they were passed. */
  function ParameterStatement(sep: string, args: seq<PyValue>, kwargs: seq<(string, PyValue)>): (r: Result<string, SqlError>)
    ensures r.Err? <==> args != [] && kwargs == [] && exists i :: 0 <= i < |args| && args[i].PyNone?
  {
    if args == [] then Ok(Join(MapSeq(kwargs, Condition), sep))
    else if kwargs == [] then
      if exists i :: 0 <= i < |args| && args[i].PyNone? then Err(JoinTypeError)
      else Ok(Join(MapSeq(args, Shown), sep))
    else Ok("")
  }

  /** The keyword form's append loop, proved to build `ParameterStatement`. */
  method ToParameterStatement(sep: string, args: seq<PyValue>, kwargs: seq<(string, PyValue)>) returns (r: Result<string, SqlError>)
    ensures r == ParameterStatement(sep, args, kwargs)
  {
    var parameterList: seq<string> := [];
    if args == [] {
      for i := 0 to |kwargs|
        invariant parameterList == MapSeq(kwargs[..i], Condition)
      {
        parameterList := parameterList + [Condition(kwargs[i])];
      }
      assert kwargs[..|kwargs|] == kwargs;
    } else if kwargs == [] {
      if exists i :: 0 <= i < |args| && args[i].PyNone? {
        return Err(JoinTypeError);
      }
      parameterList := MapSeq(args, Shown);
    }
    return Ok(Join(parameterList, sep));
  }

  /** One keyword more adds the separator and its condition after the existing ones. */
  lemma KeywordAppend(sep: string, kwargs: seq<(string, PyValue)>, key: string, value: PyValue)
    ensures kwargs == [] ==> ParameterStatement(sep, [], [(key, value)]) == Ok(key + "=" + Shown(value))
    ensures kwargs != [] ==>
      ParameterStatement(sep, [], kwargs + [(key, value)]).value
        == ParameterStatement(sep, [], kwargs).value + sep + key + "=" + Shown(value)
  {
    if kwargs != [] {
      assert MapSeq(kwargs + [(key, value)], Condition) == MapSeq(kwargs, Condition) + [Condition((key, value))];
      JoinSnoc(MapSeq(kwargs, Condition), Condition((key, value)), sep);
    }
  }

  /** Column names passed positionally, as `insert` passes them, come out single-quoted. */
  lemma ColumnsQuoted(columns: seq<string>)
    ensures ParameterStatement(", ", MapSeq(columns, c => PyStr(c)), [])
         == Ok(Join(MapSeq(columns, c => "'" + c + "'"), ", "))
  {
    var args := MapSeq(columns, c => PyStr(c));
    assert MapSeq(args, Shown) == MapSeq(columns, c => "'" + c + "'");
  }

  /** Passing both forms at once renders nothing. */
  lemma BothFormsEmpty(sep: string, args: seq<PyValue>, kwargs: seq<(string, PyValue)>)
    requires args != [] && kwargs != []
    ensures ParameterStatement(sep, args, kwargs) == Ok("")
  {
  }

  /** The `AND`-joined conditions of the keyword form. */
  function Conditions(filters: seq<(string, PyValue)>, sep: string): string
  {
    ParameterStatement(sep, [], filters).value
  }

  /** `select`: a WHERE clause only when some filter is given. */
  function SelectQuery(table: string, filters: seq<(string, PyValue)>): string
  {
    "SELECT * FROM " + table + (if filters == [] then "" else " WHERE " + Conditions(filters, " AND "))
  }

  /** The keyword filters whose value is not `None`, in order. */
  function DropNone(filters: seq<(string, PyValue)>): seq<(string, PyValue)>
  {
    Filter(filters, (kv: (string, PyValue)) => !kv.1.PyNone?)
  }

  /** `get_objects`: `select` over the filters that are not `None`. */
  function GetObjectsQuery(table: string, filters: seq<(string, PyValue)>): string
  {
    SelectQuery(table, DropNone(filters))
  }

  /** `get_objects` queries the whole table exactly when every filter is `None`; otherwise
      it filters on precisely the given ones, in order. */
  lemma GetObjectsUnfiltered(table: string, filters: seq<(string, PyValue)>)
    ensures GetObjectsQuery(table, filters) == "SELECT * FROM " + table
        <==> forall i :: 0 <= i < |filters| ==> filters[i].1.PyNone?
    ensures forall kv :: kv in DropNone(filters) <==> kv in filters && !kv.1.PyNone?
  {
    var kept := DropNone(filters);
    if !forall i :: 0 <= i < |filters| ==> filters[i].1.PyNone? {
      var i :| 0 <= i < |filters| && !filters[i].1.PyNone?;
      assert filters[i] in kept;
      assert |GetObjectsQuery(table, filters)| > |"SELECT * FROM " + table|;
    }
  }

  /** `insert`: the quoted column names and the rendered values; a `None` value is the
      `TypeError` of the join. */
  function InsertQuery(table: string, row: seq<(string, PyValue)>): (r: Result<string, SqlError>)
    ensures r.Err? <==> exists i :: 0 <= i < |row| && row[i].1.PyNone?
  {
    var columns := MapSeq(row, (kv: (string, PyValue)) => PyStr(kv.0));
    var values := MapSeq(row, (kv: (string, PyValue)) => kv.1);
    assert forall i :: 0 <= i < |row| ==> (values[i].PyNone? <==> row[i].1.PyNone?);
    match ParameterStatement(", ", values, [])
    case Err(e) => Err(e)
    case Ok(vs) =>
      Ok("INSERT INTO " + table + " (" + ParameterStatement(", ", columns, []).value + ") VALUES (" + vs + ");")
  }

  /** `update`: comma-separated assignments and the primary-key condition. */
  function UpdateQuery(table: string, keyColumn: string, key: PyValue, assignments: seq<(string, PyValue)>): string
  {
    "UPDATE " + table + " SET " + Conditions(assignments, ", ") + " WHERE " + keyColumn + "=" + Shown(key)
  }

  /** `delete`: the WHERE clause is always written, since the keyword dictionary is never
      `None`. */
  function DeleteQuery(table: string, filters: seq<(string, PyValue)>): string
  {
    "DELETE FROM " + table + " WHERE " + Conditions(filters, " AND ")
  }

  // ---------------------------------------------------------------------------
  // ResultSet

  /** `{key: val for key, val in zip(column, row)}`: pairs up to the shorter of the two, a
      repeated column name keeping its last value. */
  function ZipDict(column: seq<string>, row: seq<PyValue>): (d: map<string, PyValue>)
    ensures forall k :: k in d <==> exists j :: 0 <= j < |column| && j < |row| && column[j] == k
  {
    var n := if |column| < |row| then |column| else |row|;
    if n == 0 then map[]
    else
      var prev := ZipDict(column[..n - 1], row[..n - 1]);
      assert forall j :: 0 <= j < n - 1 ==> column[..n - 1][j] == column[j];
      prev[column[n - 1] := row[n - 1]]
  }

  /** With distinct column names every column maps to its own cell. */
  lemma {:induction false} ZipDictDistinct(column: seq<string>, row: seq<PyValue>)
    requires |column| == |row|
    requires forall i, j :: 0 <= i < j < |column| ==> column[i] != column[j]
    ensures forall j :: 0 <= j < |column| ==> column[j] in ZipDict(column, row) && ZipDict(column, row)[column[j]] == row[j]
  {
    if |column| > 0 {
      var n := |column|;
      var initColumn, initRow := column[..n - 1], row[..n - 1];
      ZipDictDistinct(initColumn, initRow);
      var d := ZipDict(column, row);
      assert d == ZipDict(initColumn, initRow)[column[n - 1] := row[n - 1]];
      forall j | 0 <= j < n ensures column[j] in d && d[column[j]] == row[j] {
        if j < n - 1 {
          assert initColumn[j] == column[j] && initRow[j] == row[j];
          assert column[j] != column[n - 1];
        }
      }
    }
  }

  /** The dictionary a `ResultSet` holds after indexing `rows`: each row under its first cell,
      a later row overwriting an earlier one with the same first cell. */
  function IndexRows(column: seq<string>, rows: seq<seq<PyValue>>): map<PyValue, map<string, PyValue>>
    requires forall i :: 0 <= i < |rows| ==> |rows[i]| >= 1
  {
    if rows == [] then map[]
    else
      var last := rows[|rows| - 1];
      IndexRows(column, rows[..|rows| - 1])[last[0] := ZipDict(column, last)]
  }

  /** The keys are exactly the rows' first cells, and each key holds the dictionary of the
      last row that starts with it. */
  lemma IndexRowsSpec(column: seq<string>, rows: seq<seq<PyValue>>)
    requires forall i :: 0 <= i < |rows| ==> |rows[i]| >= 1
    ensures forall key :: key in IndexRows(column, rows) <==> exists i :: 0 <= i < |rows| && rows[i][0] == key
    ensures forall i :: 0 <= i < |rows| && (forall j :: i < j < |rows| ==> rows[j][0] != rows[i][0]) ==>
      IndexRows(column, rows)[rows[i][0]] == ZipDict(column, rows[i])
  {
    IndexRowsKeys(column, rows);
    IndexRowsValues(column, rows);
  }

  lemma {:induction false} IndexRowsKeys(column: seq<string>, rows: seq<seq<PyValue>>)
    requires forall i :: 0 <= i < |rows| ==> |rows[i]| >= 1
    ensures forall key :: key in IndexRows(column, rows) <==> exists i :: 0 <= i < |rows| && rows[i][0] == key
  {
    if rows != [] {
      var n := |rows|;
      var init := rows[..n - 1];
      IndexRowsKeys(column, init);
      forall key ensures key in IndexRows(column, rows) <==> exists i :: 0 <= i < n && rows[i][0] == key {
        if key in IndexRows(column, init) {
          var i :| 0 <= i < |init| && init[i][0] == key;
          assert rows[i][0] == key;
        }
        if exists i :: 0 <= i < n && rows[i][0] == key {
          var i :| 0 <= i < n && rows[i][0] == key;
          if i < n - 1 {
            assert init[i][0] == key;
          }
        }
      }
    }
  }

  lemma {:induction false} IndexRowsValues(column: seq<string>, rows: seq<seq<PyValue>>)
    requires forall i :: 0 <= i < |rows| ==> |rows[i]| >= 1
    ensures forall i :: 0 <= i < |rows| && (forall j :: i < j < |rows| ==> rows[j][0] != rows[i][0]) ==>
      rows[i][0] in IndexRows(column, rows) && IndexRows(column, rows)[rows[i][0]] == ZipDict(column, rows[i])
  {
    if rows != [] {
      var n := |rows|;
      var init := rows[..n - 1];
      IndexRowsValues(column, init);
      forall i | 0 <= i < n && (forall j :: i < j < n ==> rows[j][0] != rows[i][0])
        ensures rows[i][0] in IndexRows(column, rows) && IndexRows(column, rows)[rows[i][0]] == ZipDict(column, rows[i])
      {
        if i < n - 1 {
          forall j | i < j < |init| ensures init[j][0] != init[i][0] {
            assert init[j] == rows[j] && init[i] == rows[i];
          }
          assert rows[n - 1][0] != rows[i][0];
        }
      }
    }
  }

  /** `ResultSet`: a dictionary filled row by row, which also keeps its column names and its
      rows. */
  class ResultSet {
    var entries: map<PyValue, map<string, PyValue>>
    const column: seq<string>
    const resultSet: seq<seq<PyValue>>

    constructor (column: seq<string>, rows: seq<seq<PyValue>>)
      requires forall i :: 0 <= i < |rows| ==> |rows[i]| >= 1
      ensures entries == IndexRows(column, rows)
      ensures this.column == column && resultSet == rows
    {
      this.column := column;
      this.resultSet := rows;
      entries := map[];
      new;
      for i := 0 to |rows|
        invariant entries == IndexRows(column, rows[..i])
      {
        assert rows[..i + 1][..i] == rows[..i];
        entries := entries[rows[i][0] := ZipDict(column, rows[i])];
      }
      assert rows[..|rows|] == rows;
    }

    /** `to_list`: the rows exactly as given. */
    function ToList(): (rows: seq<seq<PyValue>>)
      reads this
      ensures rows == resultSet
    {
      resultSet
    }
  }
}
