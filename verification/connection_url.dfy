/**
 * The JDBC URL DB2Broker.connect builds for the DB2 universal driver, and a reading
 * of such a URL back into its parts.
 */
module ConnectionUrl {
  import opened Wrappers

  const Scheme: string := "jdbc:db2://"

  /** The three parts a URL names. */
  datatype Endpoint = Endpoint(server: string, port: string, database: string)

  /** The URL connect opens: the scheme, the server, a colon, the port, a slash and the
      database name. */
  function JdbcUrl(server: string, port: string, database: string): string {
    Scheme + server + ":" + port + "/" + database
  }

  /** Index of the first c in s, or -1 when s has none. */
  function IndexOf(s: string, c: char): (r: int)
    ensures -1 <= r < |s|
    ensures r == -1 <==> c !in s
    ensures r >= 0 ==> s[r] == c && c !in s[..r]
  {
    if s == [] then -1
    else if s[0] == c then 0
    else
      var r := IndexOf(s[1..], c);
      if r < 0 then -1
      else
        assert s[..r + 1] == [s[0]] + s[1..][..r];
        r + 1
  }

  /** Splits a URL at the scheme, then reads the address after it. */
  function ParseJdbcUrl(url: string): Option<Endpoint> {
    if |url| < |Scheme| || url[..|Scheme|] != Scheme then None
    else ParseAddress(url[|Scheme|..])
  }

  /** Splits "server:port/database" at the first ':' and the next '/'. */
  function ParseAddress(rest: string): Option<Endpoint> {
    var colon := IndexOf(rest, ':');
    if colon < 0 then None
    else
      var after := rest[colon + 1..];
      var slash := IndexOf(after, '/');
      if slash < 0 then None
      else Some(Endpoint(rest[..colon], after[..slash], after[slash + 1..]))
  }

  /** The first c after a prefix without c is at the prefix's length. */
  lemma {:induction false} IndexOfAfter(a: string, c: char, b: string)
    requires c !in a
    ensures IndexOf(a + [c] + b, c) == |a|
  {
    if a != [] {
      assert (a + [c] + b)[1..] == a[1..] + [c] + b;
      IndexOfAfter(a[1..], c, b);
    }
  }

  /** The address determines its parts when the server has no ':' and the port no '/'. */
  lemma AddressRoundTrip(server: string, port: string, database: string)
    requires ':' !in server && '/' !in port
    ensures ParseAddress(server + [':'] + (port + ['/'] + database)) == Some(Endpoint(server, port, database))
  {
    var after := port + ['/'] + database;
    var rest := server + [':'] + after;
    IndexOfAfter(server, ':', after);
    assert rest[..|server|] == server && rest[|server| + 1..] == after;
    IndexOfAfter(port, '/', database);
    assert after[..|port|] == port && after[|port| + 1..] == database;
  }

  /** The URL determines its parts when the server has no ':' and the port no '/'. */
  lemma JdbcUrlRoundTrip(server: string, port: string, database: string)
    requires ':' !in server && '/' !in port
    ensures ParseJdbcUrl(JdbcUrl(server, port, database)) == Some(Endpoint(server, port, database))
  {
    var rest := server + [':'] + (port + ['/'] + database);
    var url := JdbcUrl(server, port, database);
    assert url == Scheme + rest;
    assert url[..|Scheme|] == Scheme && url[|Scheme|..] == rest;
    AddressRoundTrip(server, port, database);
  }

  /** Without either half of that condition two endpoints can share one URL. */
  lemma JdbcUrlAmbiguous()
    ensures JdbcUrl("db:1", "50000", "SAMPLE") == JdbcUrl("db", "1:50000", "SAMPLE")
    ensures JdbcUrl("db", "5/0", "SAMPLE") == JdbcUrl("db", "5", "0/SAMPLE")
  {
  }
}
