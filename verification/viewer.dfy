/**
 * DB2Viewer: the applet window. Modelled here are the copies of the query result
 * into the arrays the table widget is built from, and the start-up decision between
 * connecting with the page's parameters and asking for credentials. Layout and
 * widgets are not modelled.
 */
module Viewer {
  import opened Wrappers
  import opened ConnectionUrl
  import opened Broker

  /** init's test: all five applet parameters are present and non-empty. */
  predicate ParametersComplete(server: Option<string>, port: Option<string>, database: Option<string>,
                               user: Option<string>, password: Option<string>)
    ensures ParametersComplete(server, port, database, user, password)
        <==> forall p :: p in [server, port, database, user, password] ==> p.Some? && p.value != ""
  {
    !(|| server == None || server.value == ""
      || port == None || port.value == ""
      || database == None || database.value == ""
      || user == None || user.value == ""
      || password == None || password.value == "")
  }

  class DB2Viewer {
    /** The broker created by init. */
    var db2: DB2Broker?
    /** Every line the applet itself showed on the status bar, oldest first. */
    var status: seq<string>

    constructor ()
      ensures db2 == null && status == []
    {
      db2 := null;
      status := [];
    }

    /** A new array holding the elements of data, in order. */
    method ConvertArray<T(0)>(data: seq<T>) returns (ret: array<T>)
      ensures fresh(ret) && ret[..] == data
    {
      ret := new T[|data|];
      var i := 0;
      while i < |data|
        invariant 0 <= i <= |data|
        invariant forall j :: 0 <= j < i ==> ret[j] == data[j]
      {
        ret[i] := data[i];
        i := i + 1;
      }
      assert ret[..] == data;
    }

    /** The arrays createTable builds its table widget from: one array per row of data,
        holding that row's texts, and the array of column names. */
    method CreateTable(columnNames: seq<string>, data: seq<seq<Option<string>>>)
      returns (dataConverted: array<array?<Option<string>>>, columnsConverted: array<string>)
      ensures fresh(dataConverted) && fresh(columnsConverted)
      ensures dataConverted.Length == |data|
      ensures forall i :: 0 <= i < |data| ==> dataConverted[i] != null && fresh(dataConverted[i])
      ensures forall i, j :: 0 <= i < j < |data| ==> dataConverted[i] != dataConverted[j]
      ensures forall i :: 0 <= i < |data| ==> dataConverted[i] != null && dataConverted[i][..] == data[i]
      ensures columnsConverted[..] == columnNames
    {
      dataConverted := new array?<Option<string>>[|data|];
      var i := 0;
      while i < |data|
        invariant 0 <= i <= |data|
        invariant forall j :: 0 <= j < i ==> dataConverted[j] != null && dataConverted[j][..] == data[j]
        invariant forall j :: 0 <= j < i ==> fresh(dataConverted[j])
        invariant forall j, m :: 0 <= j < m < i ==> dataConverted[j] != dataConverted[m]
      {
        var converted := ConvertArray(data[i]);
        dataConverted[i] := converted;
        i := i + 1;
      }
      columnsConverted := ConvertArray(columnNames);
    }

    /**
     * Creates the broker, then connects with the page's parameters when all five are
     * given, and opens the credentials window when they are not or when the
     * connection fails.
     */
    method Init(server: Option<string>, port: Option<string>, database: Option<string>,
                user: Option<string>, password: Option<string>, outcome: DriverOutcome)
      modifies this
      ensures db2 != null && fresh(db2)
      ensures status == old(status) + ["Establishing connection..."]
      ensures db2.status != [] <==> ParametersComplete(server, port, database, user, password)
      ensures ParametersComplete(server, port, database, user, password) ==>
        && db2.status == ConnectStatus(outcome)
        && (outcome.Opened? ==>
              db2.conn == Some(Connection(JdbcUrl(server.value, port.value, database.value),
                                          user.value, password.value)))
      ensures db2.conn.Some? <==> ParametersComplete(server, port, database, user, password) && outcome.Opened?
      ensures db2.credentialPrompts
           == if ParametersComplete(server, port, database, user, password) && outcome.Opened? then 0 else 1
    {
      var broker := new DB2Broker();
      db2 := broker;
      status := status + ["Establishing connection..."];
      if server == None || server.value == "" || port == None
         || port.value == "" || database == None || database.value == ""
         || user == None || user.value == "" || password == None
         || password.value == "" {
        broker.GetCredentials();
      } else {
        var ret := broker.Connect(server.value, port.value, database.value, user.value, password.value, outcome);
        if !ret {
          broker.GetCredentials();
        }
      }
    }
  }
}
