/**
 * The PostgreSQL connection string assembled from the database settings.
 */
module Config {
  import opened Decimal

  /** A 16-bit port number. */
  type U16 = x: int | 0 <= x < 0x1_0000

  datatype DatabaseSettings = DatabaseSettings(
    username: string,
    password: string,
    host: string,
    port: U16,
    databaseName: string,
    requireSsl: bool)

  const Scheme := "postgres://"
  const SslSuffix := "?sslmode=require"

  /** Where each field begins inside the connection string. */
  function UserStart(d: DatabaseSettings): nat { |Scheme| }
  function PasswordStart(d: DatabaseSettings): nat { UserStart(d) + |d.username| + 1 }
  function HostStart(d: DatabaseSettings): nat { PasswordStart(d) + |d.password| + 1 }
  function PortStart(d: DatabaseSettings): nat { HostStart(d) + |d.host| + 1 }
  function NameStart(d: DatabaseSettings): nat { PortStart(d) + |DecimalString(d.port)| + 1 }
  function NameEnd(d: DatabaseSettings): nat { NameStart(d) + |d.databaseName| }

  function ConnectionString(d: DatabaseSettings): (r: string)
    ensures |r| == NameEnd(d) + (if d.requireSsl then |SslSuffix| else 0)
    ensures r[..|Scheme|] == Scheme
    ensures d.requireSsl ==> r[NameEnd(d)..] == SslSuffix
    ensures !d.requireSsl ==> r[|r| - |d.databaseName|..] == d.databaseName
  {
    Scheme + d.username + ":" + d.password + "@" + d.host + ":" + DecimalString(d.port) + "/"
      + d.databaseName + (if d.requireSsl then SslSuffix else "")
  }

  /** The connection string up to and including each field. */
  function UpToUser(d: DatabaseSettings): string { Scheme + d.username }
  function UpToPassword(d: DatabaseSettings): string { UpToUser(d) + ":" + d.password }
  function UpToHost(d: DatabaseSettings): string { UpToPassword(d) + "@" + d.host }
  function UpToPort(d: DatabaseSettings): string { UpToHost(d) + ":" + DecimalString(d.port) }
  function UpToName(d: DatabaseSettings): string { UpToPort(d) + "/" + d.databaseName }

  lemma ConnectionStringPrefixes(d: DatabaseSettings)
    ensures var r := ConnectionString(d);
      && r[..|UpToName(d)|] == UpToName(d)
      && r[..|UpToPort(d)|] == UpToPort(d)
      && r[..|UpToHost(d)|] == UpToHost(d)
      && r[..|UpToPassword(d)|] == UpToPassword(d)
      && r[..|UpToUser(d)|] == UpToUser(d)
  {
    var r := ConnectionString(d);
    assert r == UpToName(d) + (if d.requireSsl then SslSuffix else "");
    assert UpToName(d)[..|UpToPort(d)|] == UpToPort(d);
    assert UpToPort(d)[..|UpToHost(d)|] == UpToHost(d);
    assert UpToHost(d)[..|UpToPassword(d)|] == UpToPassword(d);
    assert UpToPassword(d)[..|UpToUser(d)|] == UpToUser(d);
  }

  /**
   * Every field can be read back at its position, in the order username,
   * password, host, port, database name, with the separators between them.
   */
  lemma ConnectionStringFields(d: DatabaseSettings)
    ensures var r := ConnectionString(d);
      && r[UserStart(d)..PasswordStart(d) - 1] == d.username
      && r[PasswordStart(d) - 1] == ':'
      && r[PasswordStart(d)..HostStart(d) - 1] == d.password
      && r[HostStart(d) - 1] == '@'
      && r[HostStart(d)..PortStart(d) - 1] == d.host
      && r[PortStart(d) - 1] == ':'
      && AllDigits(r[PortStart(d)..NameStart(d) - 1])
      && ParseDecimal(r[PortStart(d)..NameStart(d) - 1]) == d.port
      && r[NameStart(d) - 1] == '/'
      && r[NameStart(d)..NameEnd(d)] == d.databaseName
  {
    ConnectionStringPrefixes(d);
    var r := ConnectionString(d);
    assert r[UserStart(d)..PasswordStart(d) - 1] == UpToUser(d)[|Scheme|..] == d.username;
    assert r[PasswordStart(d)..HostStart(d) - 1] == UpToPassword(d)[PasswordStart(d)..] == d.password;
    assert r[HostStart(d)..PortStart(d) - 1] == UpToHost(d)[HostStart(d)..] == d.host;
    assert r[PortStart(d)..NameStart(d) - 1] == UpToPort(d)[PortStart(d)..] == DecimalString(d.port);
    assert r[NameStart(d)..NameEnd(d)] == UpToName(d)[NameStart(d)..] == d.databaseName;
    assert r[PasswordStart(d) - 1] == UpToPassword(d)[PasswordStart(d) - 1];
    assert r[HostStart(d) - 1] == UpToHost(d)[HostStart(d) - 1];
    assert r[PortStart(d) - 1] == UpToPort(d)[PortStart(d) - 1];
    assert r[NameStart(d) - 1] == UpToName(d)[NameStart(d) - 1];
    ParseDecimalString(d.port);
  }
}
