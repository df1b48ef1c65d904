# DB2 query applet: result-set projection, in Dafny

This project models the logic core of a small Java applet that runs SQL queries against
a DB2 database over JDBC and shows the results in a table. The model covers two classes:

- **`DB2Broker`**: it holds the connection. It classifies the column types a result
  reports (`columnMapping`) and turns each cursor row into a row of display strings
  (`mappingAndFilling`). It collects the header and the rows of a query (`executeQuery`,
  `getColumnNames`) and builds the JDBC URL it connects with (`connect`).
- **`DB2Viewer`**: it copies the query result into the arrays the table widget is built
  from (`convertArray`, `createTable`). At start-up (`init`) it either connects with the
  page's five parameters or asks for credentials.

The driver is not modelled. A result set is a value: its metadata, a list of columns
with name and `java.sql.Types` code, and its rows in cursor order. Each cell holds what
the typed getters and `wasNull` report. Whether a connection is obtained, whether a
statement fails and whether a close fails are parameters of the methods. The status bar
is a `seq<string>` of every line shown. `showError` appends `"Error: " + message`.

A Java `String` that may be `null` is an `Option<string>`. This matters because the
REAL branch of `mappingAndFilling` never assigns `value`:

- a non-null REAL cell repeats the text of the column before it;
- in the first column it yields a null reference.

The model keeps this behaviour, and lemmas state it exactly.

Modules:

- `Wrappers`: the `Option` type.
- `Jdbc`: the type codes, cells, metadata and result sets.
- `DecimalText`: `Integer.toString`/`Long.toString` and a parser they are proved against.
- `ConnectionUrl`: the URL and a parser for it.
- `Projection`: the pure definitions of classification, row conversion and the query
  table, with their lemmas.
- `Broker`: the class `DB2Broker`, whose loops are proved against `Projection`.
- `Viewer`: the class `DB2Viewer`.

## Model

| member | source | states |
|---|---|---|
| DecimalText.IntegerText | src/DB2Broker.java:335-342 | The decimal text of an int or long is non-empty. It starts with '-' exactly when the number is negative, and is digits otherwise. Zero is exactly "0", and no other number's digits start with a zero, so there is no leading zero and no "-0". |
| DecimalText.NaturalRoundTrip | src/DB2Broker.java:311-349 | Reading back the digits written for a natural number gives that number. |
| DecimalText.IntegerRoundTrip | src/DB2Broker.java:311-349 | Reading back the text `Integer.toString`/`Long.toString` writes gives the integer, sign included. |
| DecimalText.IntegerTextInjective | src/DB2Broker.java:311-349 | Different integers are shown as different texts. |
| ConnectionUrl.AddressRoundTrip | src/DB2Broker.java:182 | The part after the scheme, `server:port/database`, splits back into its three parts when the server has no ':' and the port no '/'. |
| ConnectionUrl.JdbcUrlRoundTrip | src/DB2Broker.java:182 | Splitting `jdbc:db2://server:port/database` at the scheme, the first ':' and the next '/' gives back server, port and database when the server has no ':' and the port no '/'. |
| ConnectionUrl.JdbcUrlAmbiguous | src/DB2Broker.java:182 | Each half of that condition is needed: a ':' in the server, or a '/' in the port, lets two different endpoints concatenate to the same URL. |
| Projection.MapTypes | src/DB2Broker.java:92-149 | The classified codes hold one entry per column. |
| Projection.MapTypesAt | src/DB2Broker.java:94-148 | Entry i equals column i's reported code when that code is one of the 16 recognised ones, and is VARCHAR otherwise. Every entry is a recognised code. |
| Projection.MapTypesIdempotent | src/DB2Broker.java:94-148 | Classifying already-classified codes changes nothing. |
| Projection.ColumnMappingStep | src/DB2Broker.java:92-148 | One more column appends its classified code. It appends one error line naming the code exactly when the code is unrecognised. |
| Projection.UnknownTypeReportsCount | src/DB2Broker.java:143-147 | Classification shows exactly as many errors as there are columns with unrecognised codes. |
| Projection.UnrecognisedColumnsStep | src/DB2Broker.java:143-147 | A new last column joins the unrecognised positions exactly when its code is unrecognised. |
| Projection.ProjectRow | src/DB2Broker.java:288-429 | A converted row has one text per column. |
| Projection.MappingAndFillingStep | src/DB2Broker.java:292-427 | Converting one more column appends the text computed from its type, its cell and the value left by the previous column. It adds one error line when the type is unrecognised. |
| Projection.ProjectRowAt | src/DB2Broker.java:292-427 | Text k is computed from column k's type and cell and from text k-1, or from null for the first column. |
| Projection.NullCellGivesNull | src/DB2Broker.java:295-421 | A null cell of any recognised type gives exactly "NULL". |
| Projection.UnknownColumnGivesUnknown | src/DB2Broker.java:422-424 | A column of unrecognised type gives "UNKNOWN" whatever its cell holds, null or not. |
| Projection.BooleanColumnText | src/DB2Broker.java:303-310 | A non-null BOOLEAN cell gives "true" exactly when its value is true and "false" exactly when it is false. |
| Projection.IntegerColumnText | src/DB2Broker.java:311-365 | A non-null INTEGER or SMALLINT cell gives text that reads back as the `getInt` value. A non-null DECIMAL or NUMERIC cell gives text that reads back as the `getLong` value. |
| Projection.TextColumnText | src/DB2Broker.java:390-413 | A non-null CHAR, VARCHAR or LONGVARCHAR cell gives its string unchanged. |
| Projection.ClobColumnText | src/DB2Broker.java:414-421 | A non-null CLOB cell gives "CLOB" whatever its content. |
| Projection.ObjectColumnText | src/DB2Broker.java:295-389 | A non-null BIGINT, DOUBLE, FLOAT, DATE, TIME or TIMESTAMP cell gives the text of the object its getter returned. |
| Projection.RealColumnRepeatsPrevious | src/DB2Broker.java:351-357 | A non-null REAL cell gives the text of the column before it, or null in the first column. |
| Projection.NullSentinelExact | src/DB2Broker.java:303-421 | For BOOLEAN, INTEGER, SMALLINT, DECIMAL, NUMERIC and CLOB, the text is "NULL" if and only if the cell was null. |
| Projection.NullReferenceOnlyInLeadingReals | src/DB2Broker.java:291-357 | Text k is a null reference if and only if columns 0..k are all non-null REAL cells. |
| Projection.RecognisedColumnsNotReported | src/DB2Broker.java:422-424 | Converting a row whose types are all recognised shows no error. |
| Projection.ClassifiedColumnsNotReported | src/DB2Broker.java:222-226 | With the types `columnMapping` produced, converting a row never reaches the "UNKNOWN" branch and shows no error. |
| Projection.RealDefectExample | src/DB2Broker.java:351-357 | The row [INTEGER 5, REAL non-null] shows ["5", "5"]. A lone non-null REAL column shows a null reference. |
| Projection.ColumnNames | src/DB2Broker.java:255-263 | The header has `getColumnCount()` names. Position i holds column i+1's name. |
| Projection.ProjectRows | src/DB2Broker.java:223-228 | One converted row per cursor row. |
| Projection.ProjectRowsAt | src/DB2Broker.java:224-228 | Collected row i is cursor row i converted, so rows keep cursor order. |
| Projection.ProjectRowsAppend | src/DB2Broker.java:224-228 | Fetching one more cursor row appends its converted row. |
| Projection.QueryTableShape | src/DB2Broker.java:217-228 | The query table has one name per column and one row per cursor row. Row i has one text per column and is cursor row i converted with the classified types. |
| Projection.QueryTableFrom | src/DB2Broker.java:220-240 | The names in column order plus the converted rows make up the query table. |
| Projection.SelectOneAsX | src/DB2Broker.java:210-240 | A one-column INTEGER result "X" holding 1 shows header ["X"] and the single row ["1"]. |
| Broker.ConnectStatus | src/DB2Broker.java:178-200 | A connect call shows "Connecting" first and "Connected" last, even on failure. A successful attempt shows only those two lines. A failed attempt shows exactly one line between them: "Error: " followed by the message for that failure. |
| Broker.CopyToArray | src/DB2Broker.java:151-156 | The int[] is a new array with the list's codes in order. |
| Broker.DB2Broker.constructor | src/DB2Broker.java:60-62 | A new broker has no connection and has shown nothing. |
| Broker.DB2Broker.ShowError | src/DB2Broker.java:442-446 | Appends "Error: " + message to the status bar and changes nothing else. |
| Broker.DB2Broker.CloseConnection | src/DB2Broker.java:67-75 | Shows an error exactly when a connection exists and closing it fails. The connection field is kept. |
| Broker.DB2Broker.ColumnMapping | src/DB2Broker.java:89-159 | Returns a new array equal to the classified codes of the first columnQty columns. It shows one error per unrecognised column, in column order. If columnQty exceeds the column count it fails (SQLException) after showing the errors for the existing columns. |
| Broker.DB2Broker.Connect | src/DB2Broker.java:176-202 | Returns true if and only if a connection is obtained. On success conn holds the URL `jdbc:db2://server:port/database`, the user and the password. On failure conn is unchanged. The status lines follow ConnectStatus. |
| Broker.DB2Broker.ExecuteQuery | src/DB2Broker.java:210-244 | When the statement fails, it shows "Error executing the query." and builds no table. Otherwise the table passed to `createTable` is the query table of the result. The status shows the classification errors, "Closing statement." and the close errors, in that order. The connection is unchanged. |
| Broker.DB2Broker.CloseCursor | src/DB2Broker.java:229-239 | Shows "Closing statement.", then one error for each failed close, result set first. |
| Broker.DB2Broker.GetColumnNames | src/DB2Broker.java:255-263 | Returns `getColumnCount()` names, position i holding column i+1's name. |
| Broker.DB2Broker.GetCredentials | src/DB2Broker.java:268-271 | Opens the credentials window once. Connection and status are unchanged. |
| Broker.DB2Broker.MappingAndFilling | src/DB2Broker.java:286-431 | The row returned equals the converted row of the first columnQty cells, with `value` carried across columns. The status gains one "Unknown data type" error per column of unrecognised type. |
| Broker.DB2Broker.FillCell | src/DB2Broker.java:294-425 | One pass of the type switch yields the cell's text, given the value left by the previous column. It shows an error exactly when the type is unrecognised. |
| Viewer.ParametersComplete | src/DB2Viewer.java:163-166 | The start-up test holds if and only if each of the five parameters is present and non-empty. |
| Viewer.DB2Viewer.constructor | src/DB2Viewer.java:77-79 | A new viewer has no broker and has shown nothing. |
| Viewer.DB2Viewer.ConvertArray | src/DB2Viewer.java:99-105 | A newly allocated array with the list's length, whose element i is the list's element i. |
| Viewer.DB2Viewer.CreateTable | src/DB2Viewer.java:115-121 | A newly allocated 2-D array with one row per data row. Each row is its own newly allocated array, no two rows are the same array, and row i equals data row i element by element. The header is a newly allocated array equal to the column names. |
| Viewer.DB2Viewer.Init | src/DB2Viewer.java:152-177 | Creates a new broker and shows "Establishing connection...". The broker attempts a connection if and only if all five parameters are complete, using those parameters. The credentials window opens exactly once when the parameters are incomplete or the connection fails, and not at all otherwise. |

## Left out

- `src/Frame.java` (the Swing credentials form) and `src/DB2Browser.java` (an older AWT applet) are not part of this model.
- `DB2Viewer.initialize`, `actionPerformed`, `stop` and the widget and layout half of `createTable` (`src/DB2Viewer.java:123-143`) are GUI wiring and are not modelled.
- `Broker.DB2Broker.CloseConnection` models `closeConnection`, which `stop` calls. The "Closing connetion." status line of `stop` itself is not modelled.
- The JDBC driver is not modelled: `Class.forName`, `DriverManager.getConnection`, `createStatement`, `executeQuery`, `next` and the typed getters. Their results are inputs: a `DriverOutcome`, a `QueryAnswer`, the cells of a `ResultSet` and close-failure flags.
- Broker.DB2Broker.ExecuteQuery: an `SQLException` is modelled only when the statement itself fails. Exceptions from `getMetaData`, `next` or a getter in the middle of the row loop are not modelled.
- Broker.DB2Broker.ExecuteQuery requires the rows to have one cell per column. This is the driver's guarantee.
- Broker.DB2Broker.ExecuteQuery requires an open connection. The source dereferences `conn` and would throw a `NullPointerException` without one, which is not modelled.
- The `stmt` and `result` fields of `DB2Broker` are local to the model's `ExecuteQuery`. The `System.out` echo of the statement is not modelled.
- Broker.DB2Broker.MappingAndFilling requires the row to have at least `columnQty` cells and `columnType` at least `columnQty` entries. Beyond that the source's getter or array access would throw. Its only caller passes the column count and the array `columnMapping` built for it.
- Broker.DB2Broker.ColumnMapping and Broker.DB2Broker.MappingAndFilling take `columnQty` as a natural number. A negative `int` would make the source's loop run zero times; the only caller passes `getColumnCount()`.
- `ColumnMapping`'s final copy into `int[]` is the separate method `CopyToArray`. The type switch of `mappingAndFilling` is the separate method `FillCell`. The two closes at the end of `executeQuery` are the separate method `CloseCursor`. Each has the same statements as the source.
- Floating-point and object text (`Double.toString`, `Float.toString`, `BigDecimal.toEngineeringString` and the `toString` of `Date`, `Time` and `Timestamp`) is an opaque given string per cell (`objectText`). The value read for a REAL cell is never used, so it is not modelled.
- How the driver narrows a DECIMAL or NUMERIC value to `long` is not modelled: `longValue` is the `getLong` result.
- `showError` writes the message to standard error and prints a stack trace. Neither is modelled; only the status-bar line is.
- The broker shows its status lines on the viewer's status bar. In the model, `DB2Broker` and `DB2Viewer` each keep their own log of lines. A single log would need a reference cycle between the two classes and their modules.
- The credentials window is a counter of how often it was opened. What the user types into it is not modelled.
