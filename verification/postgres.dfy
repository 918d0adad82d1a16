/** pkg/postgres: the connection settings, the DSN built from them, and the
    pool options. */
module Postgres {
  import opened Wrappers

  type Duration = int
  const Second: Duration := 1_000_000_000

  datatype ConnectionConfig = ConnectionConfig(
    host: string, port: string, dbname: string, username: string, password: string, sslmode: string)

  /** `NewConnectionConfig`: note that the argument order (host, port, dbname,
      username, password, sslmode) is not the DSN's order. */
  function NewConnectionConfig(host: string, port: string, dbname: string,
                               username: string, password: string, sslmode: string): (cc: ConnectionConfig)
    ensures cc.host == host && cc.port == port && cc.dbname == dbname
    ensures cc.username == username && cc.password == password && cc.sslmode == sslmode
  {
    ConnectionConfig(host, port, dbname, username, password, sslmode)
  }

  const Scheme := "postgres://"
  const SslParam := "?sslmode="

  /** `getDSN`: the fields spliced in verbatim, without escaping. */
  function GetDsn(cc: ConnectionConfig): (dsn: string)
    ensures Scheme <= dsn
    ensures |dsn| == |Scheme| + |cc.username| + 1 + |cc.password| + 1 + |cc.host| + 1 + |cc.port| + 1
                     + |cc.dbname| + |SslParam| + |cc.sslmode|
    ensures dsn[|dsn| - |cc.sslmode| - |SslParam|..] == SslParam + cc.sslmode
  {
    Scheme + (cc.username + ([':'] + (cc.password + (['@'] + (cc.host + ([':'] + (cc.port + (['/']
      + (cc.dbname + (SslParam + cc.sslmode))))))))))
  }

  /** Cuts `s` at the first `c`: what comes before it and what comes after. */
  function CutAt(s: string, c: char): (r: Option<(string, string)>)
    ensures r.None? <==> c !in s
    ensures r.Some? ==> c !in r.value.0 && s == r.value.0 + ([c] + r.value.1)
  {
    if s == [] then None
    else if s[0] == c then Some(([], s[1..]))
    else match CutAt(s[1..], c)
      case None => None
      case Some((before, after)) => Some(([s[0]] + before, after))
  }

  lemma {:induction false} CutAtOf(a: string, c: char, b: string)
    requires c !in a
    ensures CutAt(a + ([c] + b), c) == Some((a, b))
  {
    var s := a + ([c] + b);
    if a == [] {
      assert s == [c] + b;
    } else {
      assert s[0] == a[0] && s[1..] == a[1..] + ([c] + b);
      CutAtOf(a[1..], c, b);
      assert [a[0]] + a[1..] == a;
    }
  }

  /** Reads a DSN of `GetDsn`'s shape back, cutting at the first separator of
      each kind; an independent description of the layout. */
  function ParseDsn(dsn: string): Option<ConnectionConfig>
  {
    if !(Scheme <= dsn) then None
    else
      match CutAt(dsn[|Scheme|..], ':')
      case None => None
      case Some((username, r1)) =>
        match CutAt(r1, '@')
        case None => None
        case Some((password, r2)) =>
          match CutAt(r2, ':')
          case None => None
          case Some((host, r3)) =>
            match CutAt(r3, '/')
            case None => None
            case Some((port, r4)) =>
              match CutAt(r4, '?')
              case None => None
              case Some((dbname, r5)) =>
                if "sslmode=" <= r5 then Some(ConnectionConfig(host, port, dbname, username, password, r5[8..]))
                else None
  }

  /** The DSN determines the settings whenever no field holds the separator
      that ends it. */
  lemma DsnRoundTrip(cc: ConnectionConfig)
    requires ':' !in cc.username && '@' !in cc.password && ':' !in cc.host
    requires '/' !in cc.port && '?' !in cc.dbname
    ensures ParseDsn(GetDsn(cc)) == Some(cc)
  {
    var dsn := GetDsn(cc);
    var tail := SslParam + cc.sslmode;
    assert tail == ['?'] + ("sslmode=" + cc.sslmode);
    var r4 := cc.dbname + tail;
    var r3 := cc.port + (['/'] + r4);
    var r2 := cc.host + ([':'] + r3);
    var r1 := cc.password + (['@'] + r2);
    assert dsn[|Scheme|..] == cc.username + ([':'] + r1);
    CutAtOf(cc.username, ':', r1);
    CutAtOf(cc.password, '@', r2);
    CutAtOf(cc.host, ':', r3);
    CutAtOf(cc.port, '/', r4);
    CutAtOf(cc.dbname, '?', "sslmode=" + cc.sslmode);
    assert ("sslmode=" + cc.sslmode)[8..] == cc.sslmode;
  }

  /** Without escaping, an `@` in the password and one in the host are
      indistinguishable: two settings, one DSN. */
  lemma DsnAmbiguous(port: string, dbname: string, sslmode: string)
    ensures var one := NewConnectionConfig("c@d", port, dbname, "a", "b", sslmode);
      var two := NewConnectionConfig("d", port, dbname, "a", "b@c", sslmode);
      one != two && GetDsn(one) == GetDsn(two)
  {
    var rest := [':'] + (port + (['/'] + (dbname + (SslParam + sslmode))));
    assert "b" + (['@'] + ("c@d" + rest)) == "b@c" + (['@'] + ("d" + rest));
  }

  /** The pool settings the options adjust. */
  datatype Postgres = Postgres(maxPoolSize: int, connAttempts: int, connTimeout: Duration)

  const DefaultMaxPoolSize := 1
  const DefaultConnAttempts := 10
  const DefaultConnTimeout: Duration := Second

  datatype PoolOption = WithMaxPoolSize(maxPoolSize: int) | WithConnAttempts(connAttempts: int) | WithConnTimeout(connTimeout: Duration)

  /** Each option sets its own field and no other. */
  function Apply(o: PoolOption, p: Postgres): (r: Postgres)
    ensures o.WithMaxPoolSize? ==> r == p.(maxPoolSize := o.maxPoolSize)
    ensures o.WithConnAttempts? ==> r == p.(connAttempts := o.connAttempts)
    ensures o.WithConnTimeout? ==> r == p.(connTimeout := o.connTimeout)
  {
    match o
    case WithMaxPoolSize(n) => Postgres(n, p.connAttempts, p.connTimeout)
    case WithConnAttempts(n) => Postgres(p.maxPoolSize, n, p.connTimeout)
    case WithConnTimeout(d) => Postgres(p.maxPoolSize, p.connAttempts, d)
  }

  function ApplyAll(opts: seq<PoolOption>, p: Postgres): Postgres
    decreases |opts|
  {
    if opts == [] then p else ApplyAll(opts[1..], Apply(opts[0], p))
  }

  /** The settings `New` starts from before applying the options. */
  function Configure(opts: seq<PoolOption>): (p: Postgres)
    ensures opts == [] ==> p == Postgres(DefaultMaxPoolSize, DefaultConnAttempts, DefaultConnTimeout)
  {
    ApplyAll(opts, Postgres(DefaultMaxPoolSize, DefaultConnAttempts, DefaultConnTimeout))
  }

  /** Which field an option sets. */
  function Field(o: PoolOption): nat
  {
    match o
    case WithMaxPoolSize(_) => 0
    case WithConnAttempts(_) => 1
    case WithConnTimeout(_) => 2
  }

  /** Options setting different fields commute; of two setting the same
      field, the later one wins. */
  lemma OptionsCommute(a: PoolOption, b: PoolOption, p: Postgres)
    ensures Field(a) != Field(b) ==> Apply(b, Apply(a, p)) == Apply(a, Apply(b, p))
    ensures Field(a) == Field(b) ==> Apply(b, Apply(a, p)) == Apply(b, p)
  {
  }
}
