/**
 * What the JDBC driver hands to the applet, as plain values: the type codes of
 * java.sql.Types, the metadata of a result, and the cells of the cursor rows.
 * The driver itself (DriverManager, Statement, ResultSet objects) is not modelled.
 */
module Jdbc {

  // The java.sql.Types codes the applet recognises.
  const BIGINT: int := -5
  const BOOLEAN: int := 16
  const CHAR: int := 1
  const DATE: int := 91
  const DECIMAL: int := 3
  const DOUBLE: int := 8
  const FLOAT: int := 6
  const INTEGER: int := 4
  const LONGVARCHAR: int := -1
  const NUMERIC: int := 2
  const REAL: int := 7
  const SMALLINT: int := 5
  const TIME: int := 92
  const TIMESTAMP: int := 93
  const VARCHAR: int := 12
  const CLOB: int := 2005

  /** The sixteen codes that have their own branch in the applet's type switches. */
  predicate Recognised(code: int) {
    || code == BIGINT || code == BOOLEAN || code == CHAR || code == DATE
    || code == DECIMAL || code == DOUBLE || code == FLOAT || code == INTEGER
    || code == LONGVARCHAR || code == NUMERIC || code == REAL || code == SMALLINT
    || code == TIME || code == TIMESTAMP || code == VARCHAR || code == CLOB
  }

  /** Java's int and long. */
  type Int32 = x: int | -0x8000_0000 <= x < 0x8000_0000
  type Int64 = x: int | -0x8000_0000_0000_0000 <= x < 0x8000_0000_0000_0000

  /**
   * One cell of the row the cursor is positioned on, as the typed getters see it:
   * wasNull is what ResultSet.wasNull reports after the getter; intValue and
   * longValue are what getInt and getLong return; booleanValue is getBoolean;
   * stringValue is getString; objectText is the text of the object returned by
   * getBigDecimal (engineering notation), getDouble, getFloat, getDate, getTime
   * or getTimestamp, which the model treats as given.
   */
  datatype Cell = Cell(
    wasNull: bool,
    intValue: Int32,
    longValue: Int64,
    booleanValue: bool,
    stringValue: string,
    objectText: string)

  /** A column of the result: its name and the type code the driver reports. */
  datatype Column = Column(name: string, typeCode: int)

  /** ResultSetMetaData: getColumnCount is |columns|, column i (1-based) is columns[i - 1]. */
  datatype ResultMetaData = ResultMetaData(columns: seq<Column>) {
    function ColumnCount(): nat {
      |columns|
    }

    function ColumnTypes(): (codes: seq<int>)
      ensures |codes| == |columns|
      ensures forall i :: 0 <= i < |columns| ==> codes[i] == columns[i].typeCode
    {
      seq(|columns|, i requires 0 <= i < |columns| => columns[i].typeCode)
    }
  }

  /** A result set: its metadata and the rows in the order the cursor returns them. */
  datatype ResultSet = ResultSet(meta: ResultMetaData, rows: seq<seq<Cell>>) {
    /** Every row has one cell per column. */
    predicate Rectangular() {
      forall i :: 0 <= i < |rows| ==> |rows[i]| == |meta.columns|
    }
  }
}
