/**
 * The result-set-to-text projection of DB2Broker, as functions: the column type
 * classification of columnMapping, the per-cell conversion of mappingAndFilling
 * (including the text it carries from one column to the next), and the table
 * executeQuery hands to the viewer. The methods of Broker.DB2Broker are proved
 * against these definitions.
 */
module Projection {
  import opened Wrappers
  import opened Jdbc
  import opened DecimalText

  const ErrorPrefix: string := "Error: "

  /** A line DB2Broker.showError puts on the status bar. */
  function ErrorLine(message: string): string {
    ErrorPrefix + message
  }

  // ---------------------------------------------------------------------------
  // Column type classification (columnMapping)

  /** The code columnMapping stores for a column reported with code. */
  function MappedType(code: int): int {
    if Recognised(code) then code else VARCHAR
  }

  /** The codes columnMapping stores, one per column, in column order. */
  function MapTypes(codes: seq<int>): (r: seq<int>)
    ensures |r| == |codes|
  {
    if codes == [] then []
    else MapTypes(codes[..|codes| - 1]) + [MappedType(codes[|codes| - 1])]
  }

  /** Column i keeps its reported code when that code is recognised and becomes
      VARCHAR otherwise; either way the stored code is a recognised one. */
  lemma {:induction false} MapTypesAt(codes: seq<int>, i: nat)
    requires i < |codes|
    ensures Recognised(MapTypes(codes)[i])
    ensures Recognised(codes[i]) ==> MapTypes(codes)[i] == codes[i]
    ensures !Recognised(codes[i]) ==> MapTypes(codes)[i] == VARCHAR
  {
    var n := |codes| - 1;
    if i < n {
      MapTypesAt(codes[..n], i);
    }
  }

  /** Classifying twice changes nothing. */
  lemma {:induction false} MapTypesIdempotent(codes: seq<int>)
    ensures MapTypes(MapTypes(codes)) == MapTypes(codes)
  {
    var once := MapTypes(codes);
    forall i | 0 <= i < |codes|
      ensures MapTypes(once)[i] == once[i]
    {
      MapTypesAt(codes, i);
      MapTypesAt(once, i);
    }
  }

  /** The message columnMapping reports for a column of unrecognised type code. */
  function UnknownTypeMessage(code: int): string {
    "Unknown data type: " + IntegerText(code)
  }

  /** The status lines columnMapping shows: one per unrecognised column, naming its code. */
  function UnknownTypeReports(codes: seq<int>): seq<string> {
    if codes == [] then []
    else
      var last := codes[|codes| - 1];
      UnknownTypeReports(codes[..|codes| - 1])
        + (if Recognised(last) then [] else [ErrorLine(UnknownTypeMessage(last))])
  }

  /** Classifying one more column extends both the codes and the reports. */
  lemma ColumnMappingStep(codes: seq<int>, i: nat)
    requires i < |codes|
    ensures MapTypes(codes[..i + 1]) == MapTypes(codes[..i]) + [MappedType(codes[i])]
    ensures UnknownTypeReports(codes[..i + 1]) == UnknownTypeReports(codes[..i])
      + (if Recognised(codes[i]) then [] else [ErrorLine(UnknownTypeMessage(codes[i]))])
  {
    assert codes[..i + 1][..i] == codes[..i];
  }

  /** Positions (0-based) of the columns whose reported code is not recognised. */
  function UnrecognisedColumns(codes: seq<int>): set<nat> {
    set i: nat | i < |codes| && !Recognised(codes[i])
  }

  /** columnMapping reports exactly once per unrecognised column. */
  lemma {:induction false} UnknownTypeReportsCount(codes: seq<int>)
    ensures |UnknownTypeReports(codes)| == |UnrecognisedColumns(codes)|
  {
    if codes != [] {
      var n := |codes| - 1;
      var front := codes[..n];
      UnknownTypeReportsCount(front);
      UnrecognisedColumnsStep(codes);
      if !Recognised(codes[n]) {
        assert n !in UnrecognisedColumns(front);
      }
    }
  }

  /** Adding a column adds its position to the unrecognised ones exactly when its code
      is not recognised. */
  lemma UnrecognisedColumnsStep(codes: seq<int>)
    requires codes != []
    ensures UnrecognisedColumns(codes) == UnrecognisedColumns(codes[..|codes| - 1])
      + (if Recognised(codes[|codes| - 1]) then {} else {|codes| - 1})
  {
    var n := |codes| - 1;
    var front := codes[..n];
    forall i: nat
      ensures i in UnrecognisedColumns(codes)
          <==> i in UnrecognisedColumns(front) + (if Recognised(codes[n]) then {} else {n})
    {
      if i < n {
        assert front[i] == codes[i];
      }
    }
  }

  // ---------------------------------------------------------------------------
  // Row projection (mappingAndFilling)

  /** The value of mappingAndFilling's `value` variable before the next column: the text
      added last, or null before the first column. */
  function Carried(row: seq<Option<string>>): Option<string> {
    if row == [] then None else row[|row| - 1]
  }

  /** The sentinels mappingAndFilling writes for a SQL null, a column of unrecognised
      type and a CLOB. */
  const NullText: string := "NULL"
  const UnknownText: string := "UNKNOWN"
  const ClobText: string := "CLOB"

  /** Boolean.toString. */
  function BooleanText(b: bool): string {
    if b then "true" else "false"
  }

  /**
   * The text mappingAndFilling adds for one cell of a column of type code, when
   * `value` held carried before it. A column of unrecognised type gives "UNKNOWN"
   * without looking at the cell; a null cell of any recognised type gives "NULL";
   * a non-null REAL cell leaves `value` as it was.
   */
  function CellText(code: int, cell: Cell, carried: Option<string>): Option<string> {
    if !Recognised(code) then Some(UnknownText)
    else if cell.wasNull then Some(NullText)
    else if code == BOOLEAN then Some(BooleanText(cell.booleanValue))
    else if code == INTEGER || code == SMALLINT then Some(IntegerText(cell.intValue))
    else if code == DECIMAL || code == NUMERIC then Some(IntegerText(cell.longValue))
    else if code == CHAR || code == VARCHAR || code == LONGVARCHAR then Some(cell.stringValue)
    else if code == CLOB then Some(ClobText)
    else if code == REAL then carried
    else Some(cell.objectText)  // BIGINT, DOUBLE, FLOAT, DATE, TIME, TIMESTAMP
  }

  /** The texts mappingAndFilling returns for a row, column by column. */
  function ProjectRow(codes: seq<int>, cells: seq<Cell>): (r: seq<Option<string>>)
    requires |codes| == |cells|
    ensures |r| == |codes|
  {
    if codes == [] then []
    else
      var n := |codes| - 1;
      var front := ProjectRow(codes[..n], cells[..n]);
      front + [CellText(codes[n], cells[n], Carried(front))]
  }

  /** The message mappingAndFilling reports for a cell of a column of unrecognised type. */
  const UnknownCellMessage: string := "Unknown data type"

  /** The status lines mappingAndFilling shows: one per column of unrecognised type. */
  function UnknownCellReports(codes: seq<int>): seq<string> {
    if codes == [] then []
    else
      UnknownCellReports(codes[..|codes| - 1])
        + (if Recognised(codes[|codes| - 1]) then [] else [ErrorLine(UnknownCellMessage)])
  }

  /** Converting one more column appends its text and its report. */
  lemma MappingAndFillingStep(codes: seq<int>, cells: seq<Cell>, k: nat)
    requires k < |codes| && k < |cells|
    ensures ProjectRow(codes[..k + 1], cells[..k + 1])
         == ProjectRow(codes[..k], cells[..k]) + [CellText(codes[k], cells[k], Carried(ProjectRow(codes[..k], cells[..k])))]
    ensures UnknownCellReports(codes[..k + 1]) == UnknownCellReports(codes[..k])
      + (if Recognised(codes[k]) then [] else [ErrorLine(UnknownCellMessage)])
  {
    assert codes[..k + 1][..k] == codes[..k];
    assert cells[..k + 1][..k] == cells[..k];
  }

  /** Column k's text is computed from column k's cell and type and the text before it. */
  lemma {:induction false} ProjectRowAt(codes: seq<int>, cells: seq<Cell>, k: nat)
    requires |codes| == |cells| && k < |codes|
    ensures ProjectRow(codes, cells)[k]
         == CellText(codes[k], cells[k], if k == 0 then None else ProjectRow(codes, cells)[k - 1])
    decreases |codes|
  {
    var n := |codes| - 1;
    var front := ProjectRow(codes[..n], cells[..n]);
    if k < n {
      ProjectRowAt(codes[..n], cells[..n], k);
    }
  }

  /** A null cell of a recognised type gives exactly "NULL". */
  lemma {:induction false} NullCellGivesNull(codes: seq<int>, cells: seq<Cell>, k: nat)
    requires |codes| == |cells| && k < |codes|
    requires Recognised(codes[k]) && cells[k].wasNull
    ensures ProjectRow(codes, cells)[k] == Some("NULL")
  {
    ProjectRowAt(codes, cells, k);
  }

  /** A column of unrecognised type gives "UNKNOWN", whatever its cell holds. */
  lemma {:induction false} UnknownColumnGivesUnknown(codes: seq<int>, cells: seq<Cell>, k: nat)
    requires |codes| == |cells| && k < |codes|
    requires !Recognised(codes[k])
    ensures ProjectRow(codes, cells)[k] == Some("UNKNOWN")
  {
    ProjectRowAt(codes, cells, k);
  }

  /** A non-null BOOLEAN cell gives "true" or "false", following its value. */
  lemma {:induction false} BooleanColumnText(codes: seq<int>, cells: seq<Cell>, k: nat)
    requires |codes| == |cells| && k < |codes|
    requires codes[k] == BOOLEAN && !cells[k].wasNull
    ensures ProjectRow(codes, cells)[k] == Some("true") <==> cells[k].booleanValue
    ensures ProjectRow(codes, cells)[k] == Some("false") <==> !cells[k].booleanValue
  {
    ProjectRowAt(codes, cells, k);
  }

  /** A non-null INTEGER, SMALLINT, DECIMAL or NUMERIC cell gives decimal text that
      reads back as the integer the getter returned (getInt for the first two,
      getLong for the others). */
  lemma {:induction false} IntegerColumnText(codes: seq<int>, cells: seq<Cell>, k: nat)
    requires |codes| == |cells| && k < |codes|
    requires codes[k] in {INTEGER, SMALLINT, DECIMAL, NUMERIC} && !cells[k].wasNull
    ensures ProjectRow(codes, cells)[k].Some?
    ensures ParseInteger(ProjectRow(codes, cells)[k].value)
         == Some(if codes[k] in {INTEGER, SMALLINT} then cells[k].intValue as int else cells[k].longValue as int)
  {
    ProjectRowAt(codes, cells, k);
    IntegerRoundTrip(cells[k].intValue);
    IntegerRoundTrip(cells[k].longValue);
  }

  /** A non-null CHAR, VARCHAR or LONGVARCHAR cell gives its string unchanged. */
  lemma {:induction false} TextColumnText(codes: seq<int>, cells: seq<Cell>, k: nat)
    requires |codes| == |cells| && k < |codes|
    requires codes[k] in {CHAR, VARCHAR, LONGVARCHAR} && !cells[k].wasNull
    ensures ProjectRow(codes, cells)[k] == Some(cells[k].stringValue)
  {
    ProjectRowAt(codes, cells, k);
  }

  /** A non-null CLOB cell gives "CLOB", whatever its content. */
  lemma {:induction false} ClobColumnText(codes: seq<int>, cells: seq<Cell>, k: nat)
    requires |codes| == |cells| && k < |codes|
    requires codes[k] == CLOB && !cells[k].wasNull
    ensures ProjectRow(codes, cells)[k] == Some("CLOB")
  {
    ProjectRowAt(codes, cells, k);
  }

  /** A non-null BIGINT, DOUBLE, FLOAT, DATE, TIME or TIMESTAMP cell gives the text of
      the object its getter returned. */
  lemma {:induction false} ObjectColumnText(codes: seq<int>, cells: seq<Cell>, k: nat)
    requires |codes| == |cells| && k < |codes|
    requires codes[k] in {BIGINT, DOUBLE, FLOAT, DATE, TIME, TIMESTAMP} && !cells[k].wasNull
    ensures ProjectRow(codes, cells)[k] == Some(cells[k].objectText)
  {
    ProjectRowAt(codes, cells, k);
  }

  /** A non-null REAL cell repeats the text of the column before it, or gives a null
      reference in the first column. */
  lemma {:induction false} RealColumnRepeatsPrevious(codes: seq<int>, cells: seq<Cell>, k: nat)
    requires |codes| == |cells| && k < |codes|
    requires codes[k] == REAL && !cells[k].wasNull
    ensures ProjectRow(codes, cells)[k] == if k == 0 then None else ProjectRow(codes, cells)[k - 1]
  {
    ProjectRowAt(codes, cells, k);
  }

  /** For the kinds whose text can never be "NULL" otherwise, "NULL" appears exactly
      when the cell was null. */
  lemma {:induction false} NullSentinelExact(codes: seq<int>, cells: seq<Cell>, k: nat)
    requires |codes| == |cells| && k < |codes|
    requires codes[k] in {BOOLEAN, INTEGER, SMALLINT, DECIMAL, NUMERIC, CLOB}
    ensures ProjectRow(codes, cells)[k] == Some("NULL") <==> cells[k].wasNull
  {
    ProjectRowAt(codes, cells, k);
    var s := IntegerText(if codes[k] in {INTEGER, SMALLINT} then cells[k].intValue as int else cells[k].longValue as int);
    assert s[0] == '-' || IsDigit(s[0]);
  }

  /** Column k's text is a null reference exactly when columns 0..k are all non-null
      REAL cells. */
  lemma {:induction false} NullReferenceOnlyInLeadingReals(codes: seq<int>, cells: seq<Cell>, k: nat)
    requires |codes| == |cells| && k < |codes|
    ensures ProjectRow(codes, cells)[k] == None
        <==> forall j :: 0 <= j <= k ==> codes[j] == REAL && !cells[j].wasNull
  {
    ProjectRowAt(codes, cells, k);
    if k > 0 {
      NullReferenceOnlyInLeadingReals(codes, cells, k - 1);
    }
  }

  /** mappingAndFilling reports nothing for columns of recognised types. */
  lemma {:induction false} RecognisedColumnsNotReported(codes: seq<int>)
    requires forall i :: 0 <= i < |codes| ==> Recognised(codes[i])
    ensures UnknownCellReports(codes) == []
  {
    if codes != [] {
      RecognisedColumnsNotReported(codes[..|codes| - 1]);
    }
  }

  /** Once columnMapping has classified the columns, mappingAndFilling reports nothing:
      its "UNKNOWN" branch is never reached. */
  lemma {:induction false} ClassifiedColumnsNotReported(reported: seq<int>)
    ensures UnknownCellReports(MapTypes(reported)) == []
  {
    var codes := MapTypes(reported);
    forall i | 0 <= i < |codes|
      ensures Recognised(codes[i])
    {
      MapTypesAt(reported, i);
    }
    RecognisedColumnsNotReported(codes);
  }

  /** The row [INTEGER 5, a non-null REAL cell] shows "5" twice; a non-null REAL cell in
      the first column shows null. */
  lemma RealDefectExample(five: Cell, realCell: Cell)
    requires !five.wasNull && five.intValue == 5 && !realCell.wasNull
    ensures ProjectRow([INTEGER, REAL], [five, realCell]) == [Some("5"), Some("5")]
    ensures ProjectRow([REAL], [realCell]) == [None]
  {
    assert [INTEGER, REAL][..1] == [INTEGER];
    assert [five, realCell][..1] == [five];
    assert IntegerText(5) == "5";
  }

  // ---------------------------------------------------------------------------
  // The table executeQuery hands to the viewer

  /** The header row and the converted rows of a query result. */
  datatype ResultTable = ResultTable(columnNames: seq<string>, rows: seq<seq<Option<string>>>)

  /** getColumnNames: the names of the columns, in column order. */
  function ColumnNames(meta: ResultMetaData): (names: seq<string>)
    ensures |names| == meta.ColumnCount()
    ensures forall i :: 0 <= i < |names| ==> names[i] == meta.columns[i].name
  {
    seq(|meta.columns|, i requires 0 <= i < |meta.columns| => meta.columns[i].name)
  }

  /** The rows executeQuery collects: one converted row per cursor row, in cursor order. */
  function ProjectRows(codes: seq<int>, rows: seq<seq<Cell>>): (r: seq<seq<Option<string>>>)
    requires forall i :: 0 <= i < |rows| ==> |rows[i]| == |codes|
    ensures |r| == |rows|
  {
    if rows == [] then []
    else ProjectRows(codes, rows[..|rows| - 1]) + [ProjectRow(codes, rows[|rows| - 1])]
  }

  /** Row i of the collected rows is cursor row i converted. */
  lemma {:induction false} ProjectRowsAt(codes: seq<int>, rows: seq<seq<Cell>>, i: nat)
    requires forall j :: 0 <= j < |rows| ==> |rows[j]| == |codes|
    requires i < |rows|
    ensures ProjectRows(codes, rows)[i] == ProjectRow(codes, rows[i])
  {
    var n := |rows| - 1;
    if i < n {
      ProjectRowsAt(codes, rows[..n], i);
    }
  }

  /** Converting one more cursor row appends its row of texts. */
  lemma ProjectRowsAppend(codes: seq<int>, rows: seq<seq<Cell>>, i: nat)
    requires i < |rows|
    requires forall j :: 0 <= j < |rows| ==> |rows[j]| == |codes|
    ensures ProjectRows(codes, rows[..i + 1]) == ProjectRows(codes, rows[..i]) + [ProjectRow(codes, rows[i])]
  {
    assert rows[..i + 1][..i] == rows[..i];
  }

  /** The table executeQuery passes to createTable for a result set. */
  function QueryTable(rs: ResultSet): ResultTable
    requires rs.Rectangular()
  {
    ResultTable(ColumnNames(rs.meta), ProjectRows(MapTypes(rs.meta.ColumnTypes()), rs.rows))
  }

  /** The table has one name per column, one row per cursor row, and row i holds one
      text per column, computed from cursor row i with the classified types. */
  lemma QueryTableShape(rs: ResultSet, i: nat)
    requires rs.Rectangular() && i < |rs.rows|
    ensures |QueryTable(rs).columnNames| == rs.meta.ColumnCount()
    ensures |QueryTable(rs).rows| == |rs.rows|
    ensures QueryTable(rs).rows[i] == ProjectRow(MapTypes(rs.meta.ColumnTypes()), rs.rows[i])
    ensures |QueryTable(rs).rows[i]| == rs.meta.ColumnCount()
  {
    ProjectRowsAt(MapTypes(rs.meta.ColumnTypes()), rs.rows, i);
  }

  /** The table built from the column names and the converted cursor rows. */
  lemma QueryTableFrom(rs: ResultSet, names: seq<string>, data: seq<seq<Option<string>>>)
    requires rs.Rectangular()
    requires |names| == rs.meta.ColumnCount()
    requires forall i :: 0 <= i < |names| ==> names[i] == rs.meta.columns[i].name
    requires data == ProjectRows(MapTypes(rs.meta.ColumnTypes()), rs.rows)
    ensures QueryTable(rs) == ResultTable(names, data)
  {
    assert names == ColumnNames(rs.meta);
  }

  /** SELECT 1 AS X: header ["X"], one row ["1"]. */
  lemma SelectOneAsX(one: Cell)
    requires !one.wasNull && one.intValue == 1
    ensures QueryTable(ResultSet(ResultMetaData([Column("X", INTEGER)]), [[one]]))
         == ResultTable(["X"], [[Some("1")]])
  {
    var rs := ResultSet(ResultMetaData([Column("X", INTEGER)]), [[one]]);
    assert rs.meta.ColumnTypes() == [INTEGER];
    assert IntegerText(1) == "1";
    assert ProjectRow([INTEGER], [one]) == [Some("1")];
    assert ColumnNames(rs.meta) == ["X"];
  }
}
