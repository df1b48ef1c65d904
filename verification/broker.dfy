/**
 * DB2Broker: the connection held by the applet and the query loop that turns a
 * result set into rows of text. The driver's answers (whether a connection is
 * obtained, the result set of a statement, whether a close fails) are parameters;
 * the status lines the broker sends to its user interface are kept in `status`.
 */
module Broker {
  import opened Wrappers
  import opened Jdbc
  import opened DecimalText
  import opened ConnectionUrl
  import opened Projection

  const DriverClassName: string := "com.ibm.db2.jcc.DB2Driver"

  /** An open connection: the URL, user and password it was opened with. */
  datatype Connection = Connection(url: string, user: string, password: string)

  /** What loading the driver and DriverManager.getConnection end with. */
  datatype DriverOutcome =
    | Opened
    | InstantiationFailure   // InstantiationException
    | IllegalAccessFailure   // IllegalAccessException
    | DriverClassMissing     // ClassNotFoundException
    | SqlFailure             // SQLException: unreachable host, rejected credentials, ...

  /** The message connect passes to showError for a failed attempt. */
  function ConnectErrorMessage(outcome: DriverOutcome): string
    requires !outcome.Opened?
  {
    match outcome
    case InstantiationFailure => "Instantiation problem"
    case IllegalAccessFailure => "Illegal Access problem"
    case DriverClassMissing => "Class not found" + DriverClassName
    case SqlFailure => "SQL error"
  }

  /** The status lines of one connect call: "Connecting", an error line on failure,
      and "Connected" whether or not a connection was obtained. */
  function ConnectStatus(outcome: DriverOutcome): (lines: seq<string>)
    ensures |lines| >= 2
    ensures lines[0] == "Connecting" && lines[|lines| - 1] == "Connected"
    ensures |lines| == 2 <==> outcome.Opened?
    ensures !outcome.Opened? ==> |lines| == 3 && lines[1] == ErrorLine(ConnectErrorMessage(outcome))
  {
    ["Connecting"]
      + (if outcome.Opened? then [] else [ErrorLine(ConnectErrorMessage(outcome))])
      + ["Connected"]
  }

  /** What the driver answers to a statement: an SQLException, or a result set. */
  datatype QueryAnswer = StatementFailed | Answered(result: ResultSet)

  // Messages executeQuery shows.
  const ProcessingQueries: string := "Processing queries"
  const QueryFailedMessage: string := "Error executing the query."
  const ClosingStatement: string := "Closing statement."
  const ResultCloseMessage: string := "Error closing result."
  const StatementCloseMessage: string := "Error closing statement."

  /** The status lines of the two best-effort closes at the end of executeQuery. */
  function CloseReports(resultCloseFails: bool, statementCloseFails: bool): seq<string> {
    (if resultCloseFails then [ErrorLine(ResultCloseMessage)] else [])
      + (if statementCloseFails then [ErrorLine(StatementCloseMessage)] else [])
  }

  /** The copy of the ArrayList of codes into a fresh int[] at the end of columnMapping. */
  method CopyToArray(types: seq<int>) returns (ret: array<int>)
    ensures fresh(ret) && ret[..] == types
  {
    ret := new int[|types|];
    var j := 0;
    while j < |types|
      invariant 0 <= j <= |types|
      invariant forall m :: 0 <= m < j ==> ret[m] == types[m]
    {
      ret[j] := types[j];
      j := j + 1;
    }
    assert ret[..] == types;
  }

  class DB2Broker {
    /** The database connection; None until connect succeeds. */
    var conn: Option<Connection>
    /** Every line shown on the user interface's status bar, oldest first. */
    var status: seq<string>
    /** How many times the credentials window was opened. */
    var credentialPrompts: nat

    constructor ()
      ensures conn == None && status == [] && credentialPrompts == 0
    {
      conn := None;
      status := [];
      credentialPrompts := 0;
    }

    /** Shows an error on the status bar (the stack trace on the console is not modelled). */
    method ShowError(message: string)
      modifies this
      ensures status == old(status) + [ErrorLine(message)]
      ensures conn == old(conn) && credentialPrompts == old(credentialPrompts)
    {
      status := status + [ErrorLine(message)];
    }

    /** Closes the current connection, if any; the reference is kept. */
    method CloseConnection(closeFails: bool)
      modifies this
      ensures conn == old(conn) && credentialPrompts == old(credentialPrompts)
      ensures status == old(status)
        + (if old(conn).Some? && closeFails then [ErrorLine("Error closing the connection.")] else [])
    {
      if conn.Some? {
        if closeFails {
          ShowError("Error closing the connection.");
        }
      }
    }

    /**
     * The type code to use for each of the first columnQty columns: the reported code
     * when it is recognised, VARCHAR (with an error shown) otherwise. Asking for a
     * column beyond the metadata's count throws an SQLException: ret is then None.
     */
    method ColumnMapping(meta: ResultMetaData, columnQty: nat) returns (ret: Option<array<int>>)
      modifies this
      ensures conn == old(conn) && credentialPrompts == old(credentialPrompts)
      ensures ret.Some? <==> columnQty <= meta.ColumnCount()
      ensures ret.Some? ==> fresh(ret.value) && ret.value[..] == MapTypes(meta.ColumnTypes()[..columnQty])
      ensures status == old(status)
        + UnknownTypeReports(meta.ColumnTypes()[..if columnQty <= meta.ColumnCount() then columnQty else meta.ColumnCount()])
    {
      var codes := meta.ColumnTypes();
      var types: seq<int> := [];
      var i := 1;
      // getColumnType(i) throws once i passes the column count.
      while i <= columnQty && i <= |codes|
        invariant 1 <= i <= |codes| + 1 && i - 1 <= columnQty
        invariant types == MapTypes(codes[..i - 1])
        invariant status == old(status) + UnknownTypeReports(codes[..i - 1])
        invariant conn == old(conn) && credentialPrompts == old(credentialPrompts)
      {
        ColumnMappingStep(codes, i - 1);
        var dataType := codes[i - 1];
        if Recognised(dataType) {
          types := types + [dataType];
        } else {
          ShowError(UnknownTypeMessage(dataType));
          types := types + [VARCHAR];
        }
        i := i + 1;
      }
      if i <= columnQty {
        assert codes[..i - 1] == codes;
        return None;
      }
      var arr := CopyToArray(types);
      ret := Some(arr);
    }

    /**
     * Connects to jdbc:db2://server:port/database as user. The connection is kept
     * only when one is obtained; "Connected" is shown either way.
     */
    method Connect(server: string, port: string, database: string, user: string, password: string,
                   outcome: DriverOutcome) returns (ok: bool)
      modifies this
      ensures ok <==> outcome.Opened?
      ensures ok ==> conn == Some(Connection(JdbcUrl(server, port, database), user, password))
      ensures !ok ==> conn == old(conn)
      ensures status == old(status) + ConnectStatus(outcome)
      ensures credentialPrompts == old(credentialPrompts)
    {
      status := status + ["Connecting"];
      var className := DriverClassName;
      var url := JdbcUrl(server, port, database);
      ok := false;
      match outcome {
        case Opened =>
          conn := Some(Connection(url, user, password));
          ok := true;
        case InstantiationFailure =>
          ShowError("Instantiation problem");
        case IllegalAccessFailure =>
          ShowError("Illegal Access problem");
        case DriverClassMissing =>
          ShowError("Class not found" + className);
        case SqlFailure =>
          ShowError("SQL error");
      }
      status := status + ["Connected"];
    }

    /**
     * Runs a statement on the open connection and returns the table handed to the
     * viewer's createTable: the column names, then one converted row per cursor row
     * in cursor order. None when the statement throws an SQLException.
     */
    method ExecuteQuery(sentence: string, answer: QueryAnswer,
                        resultCloseFails: bool, statementCloseFails: bool)
      returns (shown: Option<ResultTable>)
      requires conn.Some?
      requires answer.Answered? ==> answer.result.Rectangular()
      modifies this
      ensures conn == old(conn) && credentialPrompts == old(credentialPrompts)
      ensures answer.StatementFailed? ==>
        && shown == None
        && status == old(status) + [ProcessingQueries, ErrorLine(QueryFailedMessage)]
      ensures answer.Answered? ==>
        && shown == Some(QueryTable(answer.result))
        && status == old(status) + [ProcessingQueries]
             + UnknownTypeReports(answer.result.meta.ColumnTypes())
             + [ClosingStatement] + CloseReports(resultCloseFails, statementCloseFails)
    {
      status := status + [ProcessingQueries];
      ghost var started := status;
      if answer.StatementFailed? {
        ShowError(QueryFailedMessage);
        return None;
      }
      var rs := answer.result;
      var meta := rs.meta;
      var columnQty := meta.ColumnCount();
      var names := GetColumnNames(meta);
      var mapped := ColumnMapping(meta, columnQty);
      assert meta.ColumnTypes()[..columnQty] == meta.ColumnTypes();
      var columnType := mapped.value;
      ghost var codes := MapTypes(meta.ColumnTypes());
      ghost var afterMapping := status;
      assert afterMapping == started + UnknownTypeReports(meta.ColumnTypes());
      ClassifiedColumnsNotReported(meta.ColumnTypes());
      var data: seq<seq<Option<string>>> := [];
      var i := 0;
      while i < |rs.rows|
        invariant 0 <= i <= |rs.rows|
        invariant columnType[..] == codes && columnType.Length == columnQty
        invariant data == ProjectRows(codes, rs.rows[..i])
        invariant status == afterMapping
        invariant conn == old(conn) && credentialPrompts == old(credentialPrompts)
      {
        var row := MappingAndFilling(rs.rows[i], columnQty, columnType);
        assert rs.rows[i][..columnQty] == rs.rows[i];
        assert columnType[..columnQty] == codes;
        ProjectRowsAppend(codes, rs.rows, i);
        data := data + [row];
        i := i + 1;
      }
      assert rs.rows[..i] == rs.rows;
      QueryTableFrom(rs, names, data);
      CloseCursor(resultCloseFails, statementCloseFails);
      shown := Some(ResultTable(names, data));
    }

    /** The end of a successful executeQuery: closes the result set, then the statement;
        a failure to close is shown and does not stop the query. */
    method CloseCursor(resultCloseFails: bool, statementCloseFails: bool)
      modifies this
      ensures status == old(status) + [ClosingStatement] + CloseReports(resultCloseFails, statementCloseFails)
      ensures conn == old(conn) && credentialPrompts == old(credentialPrompts)
    {
      status := status + [ClosingStatement];
      if resultCloseFails {
        ShowError(ResultCloseMessage);
      }
      if statementCloseFails {
        ShowError(StatementCloseMessage);
      }
    }

    /** The names of the result's columns, in column order. */
    method GetColumnNames(meta: ResultMetaData) returns (names: seq<string>)
      ensures |names| == meta.ColumnCount()
      ensures forall i :: 0 <= i < |names| ==> names[i] == meta.columns[i].name
    {
      names := [];
      var size := meta.ColumnCount();
      var i := 0;
      while i < size
        invariant 0 <= i <= size
        invariant |names| == i
        invariant forall j :: 0 <= j < i ==> names[j] == meta.columns[j].name
      {
        names := names + [meta.columns[i].name];
        i := i + 1;
      }
    }

    /** Opens the credentials window. */
    method GetCredentials()
      modifies this
      ensures credentialPrompts == old(credentialPrompts) + 1
      ensures conn == old(conn) && status == old(status)
    {
      credentialPrompts := credentialPrompts + 1;
    }

    /**
     * The texts of the first columnQty cells of the current row. `value` is carried
     * from one column to the next: a non-null REAL cell leaves it unchanged.
     */
    method MappingAndFilling(cells: seq<Cell>, columnQty: nat, columnType: array<int>)
      returns (row: seq<Option<string>>)
      requires columnQty <= |cells| && columnQty <= columnType.Length
      modifies this
      ensures row == ProjectRow(columnType[..columnQty], cells[..columnQty])
      ensures status == old(status) + UnknownCellReports(columnType[..columnQty])
      ensures conn == old(conn) && credentialPrompts == old(credentialPrompts)
    {
      row := [];
      var value: Option<string> := None;
      var k := 1;
      while k <= columnQty
        invariant 1 <= k <= columnQty + 1
        invariant row == ProjectRow(columnType[..k - 1], cells[..k - 1])
        invariant value == Carried(row)
        invariant status == old(status) + UnknownCellReports(columnType[..k - 1])
        invariant conn == old(conn) && credentialPrompts == old(credentialPrompts)
      {
        var code := columnType[k - 1];
        value := FillCell(code, cells[k - 1], value);
        MappingAndFillingStep(columnType[..], cells, k - 1);
        assert columnType[..k] == columnType[..][..k];
        assert columnType[..k - 1] == columnType[..][..k - 1];
        row := row + [value];
        k := k + 1;
      }
    }

    /** One pass of mappingAndFilling's switch: the text of one cell, given the value the
        previous column left behind; an unrecognised code is shown as an error. */
    method FillCell(code: int, cell: Cell, value: Option<string>) returns (next: Option<string>)
      modifies this
      ensures next == CellText(code, cell, value)
      ensures status == old(status) + (if Recognised(code) then [] else [ErrorLine(UnknownCellMessage)])
      ensures conn == old(conn) && credentialPrompts == old(credentialPrompts)
    {
      next := value;
      if code == BIGINT {
        next := if cell.wasNull then Some(NullText) else Some(cell.objectText);
      } else if code == BOOLEAN {
        next := if cell.wasNull then Some(NullText)
                 else Some(BooleanText(cell.booleanValue));
      } else if code == DECIMAL {
        next := if cell.wasNull then Some(NullText) else Some(IntegerText(cell.longValue));
      } else if code == DOUBLE {
        next := if cell.wasNull then Some(NullText) else Some(cell.objectText);
      } else if code == FLOAT {
        next := if cell.wasNull then Some(NullText) else Some(cell.objectText);
      } else if code == INTEGER {
        next := if cell.wasNull then Some(NullText) else Some(IntegerText(cell.intValue));
      } else if code == NUMERIC {
        next := if cell.wasNull then Some(NullText) else Some(IntegerText(cell.longValue));
      } else if code == REAL {
        // The non-null branch of the source assigns nothing.
        if cell.wasNull {
          next := Some(NullText);
        }
      } else if code == SMALLINT {
        next := if cell.wasNull then Some(NullText) else Some(IntegerText(cell.intValue));
      } else if code == DATE || code == TIME || code == TIMESTAMP {
        next := if cell.wasNull then Some(NullText) else Some(cell.objectText);
      } else if code == LONGVARCHAR || code == VARCHAR || code == CHAR {
        next := if cell.wasNull then Some(NullText) else Some(cell.stringValue);
      } else if code == CLOB {
        next := if cell.wasNull then Some(NullText) else Some(ClobText);
      } else {
        ShowError(UnknownCellMessage);
        next := Some(UnknownText);
      }
    }
  }
}
