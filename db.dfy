/**
 * The connection provisioner of the users service (package `db`): the
 * connection parameters and their defaults, the provider-specific connection
 * string and dialect, the setup steps of `getConnection`, and the once-only
 * initialiser that hands every caller the same handle.
 *
 * The driver steps (`gorm.Open`, `DB()`, `Ping`) are abstract: a `Driver`
 * value says how each of them turns out. `log.Fatalf` ends the process
 * (`Exited`); `log.Panicf` and Go runtime panics unwind to the caller
 * (`Panicked`).
 */
module Db {
  import opened Wrappers
  import opened Text
  import Config

  /** `DBProvider` is a Go `int`; only the first two values name a provider. */
  type DBProvider = int

  const Postgresql: DBProvider := 0
  const SQLLite3: DBProvider := 1
  const DBProviderNames: seq<string> := ["postgres", "sqlite3"]

  /** `maxIdle`, used as a `time.Duration`: one nanosecond. */
  const MaxIdle: int := 1
  const LogQuery: bool := true
  const Singular: bool := true

  /** `time.Second`, in nanoseconds. */
  const Second: int := 1_000_000_000
  const MaxIdleSec: int := 60
  const DefaultPoolSize: int := 10

  const Unsupported: string := "db provider unsupported"

  predicate Supported(p: DBProvider)
  {
    p == Postgresql || p == SQLLite3
  }

  /**
   * `DBProvider.String`: the provider's name, or, outside the table of
   * names, the message of Go's index-out-of-range panic (which gives no
   * length for a negative index).
   */
  function ProviderString(p: DBProvider): (r: Result<string, string>)
    ensures r.Success? <==> Supported(p)
    ensures p == Postgresql ==> r == Success("postgres")
    ensures p == SQLLite3 ==> r == Success("sqlite3")
  {
    if 0 <= p < |DBProviderNames| then Success(DBProviderNames[p])
    else if p < 0 then Failure("runtime error: index out of range [" + FormatInt(p) + "]")
    else Failure("runtime error: index out of range [" + FormatInt(p) + "] with length 2")
  }

  /** The name of a provider in a log message; an unnamed provider shows its number. */
  function ProviderLabel(p: DBProvider): (shown: string)
    ensures Supported(p) ==> shown == ProviderString(p).value
  {
    match ProviderString(p)
    case Success(name) => name
    case Failure(_) => "DBProvider(" + FormatInt(p) + ")"
  }

  // ---------------------------------------------------------------------------
  // Connection parameters

  /** A `Connection` value; `maxIdleTime` is a `time.Duration` in nanoseconds. */
  datatype Connection = Connection(
    user: string,
    password: string,
    host: string,
    port: int,
    dbName: string,
    sslMode: bool,
    provider: DBProvider,
    poolSize: int,
    maxIdleTime: int)

  datatype AdditionalConfig = AdditionalConfig(logQuery: bool, singularTable: bool)

  /**
   * The parameters after `SetDefaultValues`: a zero pool size becomes 10, a
   * zero idle time becomes 60 s, and nothing else changes.
   */
  function WithDefaults(c: Connection): (r: Connection)
    ensures r.poolSize != 0 && r.maxIdleTime != 0
    ensures c.poolSize != 0 ==> r.poolSize == c.poolSize
    ensures c.poolSize == 0 ==> r.poolSize == DefaultPoolSize
    ensures c.maxIdleTime != 0 ==> r.maxIdleTime == c.maxIdleTime
    ensures c.maxIdleTime == 0 ==> r.maxIdleTime == 60_000_000_000
    ensures r.(poolSize := c.poolSize, maxIdleTime := c.maxIdleTime) == c
  {
    c.(poolSize := if c.poolSize == 0 then DefaultPoolSize else c.poolSize,
       maxIdleTime := if c.maxIdleTime == 0 then MaxIdleSec * Second else c.maxIdleTime)
  }

  /** Defaulting twice is defaulting once. */
  lemma DefaultsIdempotent(c: Connection)
    ensures WithDefaults(WithDefaults(c)) == WithDefaults(c)
  {
  }

  /**
   * An addressable `Connection` variable, such as `connectionParams` in
   * `getConnection`, whose fields `SetDefaultValues` updates in place.
   */
  class ConnectionParams {
    var user: string
    var password: string
    var host: string
    var port: int
    var dbName: string
    var sslMode: bool
    var provider: DBProvider
    var poolSize: int
    var maxIdleTime: int

    constructor (c: Connection)
      ensures Value() == c
    {
      user, password, host, port, dbName := c.user, c.password, c.host, c.port, c.dbName;
      sslMode, provider, poolSize, maxIdleTime := c.sslMode, c.provider, c.poolSize, c.maxIdleTime;
    }

    /** The value the variable holds. */
    function Value(): Connection
      reads this
    {
      Connection(user, password, host, port, dbName, sslMode, provider, poolSize, maxIdleTime)
    }

    /** `SetDefaultValues`: fill in the pool size and the idle time when they are zero. */
    method SetDefaultValues()
      modifies this
      ensures Value() == WithDefaults(old(Value()))
    {
      if poolSize == 0 {
        poolSize := DefaultPoolSize;
      }
      if maxIdleTime == 0 {
        maxIdleTime := MaxIdleSec * Second;
      }
    }
  }

  // ---------------------------------------------------------------------------
  // Connection string and dialect

  /** `validateSSLMode`: the `sslmode` setting for the SSL flag. */
  function ValidateSSLMode(c: Connection): (mode: string)
    ensures mode == "enable" <==> c.sslMode
    ensures mode == "disable" <==> !c.sslMode
  {
    if c.sslMode then "enable" else "disable"
  }

  /** The settings of a Postgres connection string, in the order they are written. */
  function PostgresSettings(c: Connection): seq<(string, string)>
  {
    [("user", c.user), ("password", c.password), ("host", c.host),
     ("port", FormatInt(c.port)), ("dbname", c.dbName), ("sslmode", ValidateSSLMode(c))]
  }

  /** Each setting written as `key=value`. */
  function Words(settings: seq<(string, string)>): (words: seq<string>)
    ensures |words| == |settings|
    ensures forall i :: 0 <= i < |settings| ==> words[i] == settings[i].0 + "=" + settings[i].1
  {
    if |settings| == 0 then [] else [settings[0].0 + "=" + settings[0].1] + Words(settings[1..])
  }

  /**
   * `BuildURLConnection`: for Postgres, the six settings of the format string
   * separated by single spaces; for SQLite, an in-memory database named after
   * `dbName`; for any other provider, an error and no string.
   */
  function BuildURLConnection(c: Connection): (r: Result<string, string>)
    ensures r.Failure? <==> !Supported(c.provider)
    ensures r.Failure? ==> r.error == Unsupported
    ensures c.provider == SQLLite3 ==> r == Success(c.dbName + ":memory:")
  {
    var sslMode := ValidateSSLMode(c);
    if c.provider == Postgresql then
      Success(Join(["user=" + c.user, "password=" + c.password, "host=" + c.host,
                    "port=" + FormatInt(c.port), "dbname=" + c.dbName, "sslmode=" + sslMode], " "))
    else if c.provider == SQLLite3 then
      Success(c.dbName + ":memory:")
    else
      Failure(Unsupported)
  }

  /** The Postgres connection string is the `key=value` words of its settings, joined by spaces. */
  lemma PostgresURLSettings(c: Connection)
    requires c.provider == Postgresql
    ensures BuildURLConnection(c) == Success(Join(Words(PostgresSettings(c)), " "))
  {
    var w := Words(PostgresSettings(c));
    assert "user" + "=" == "user=";
    assert "password" + "=" == "password=";
    assert "host" + "=" == "host=";
    assert "port" + "=" == "port=";
    assert "dbname" + "=" == "dbname=";
    assert "sslmode" + "=" == "sslmode=";
    assert w == ["user=" + c.user, "password=" + c.password, "host=" + c.host,
                 "port=" + FormatInt(c.port), "dbname=" + c.dbName, "sslmode=" + ValidateSSLMode(c)];
  }

  /** Reads a connection string back into its settings: space-separated `key=value` words. */
  function ParseSettings(url: string): Option<seq<(string, string)>>
  {
    ParseWords(Split(url, ' '))
  }

  function ParseWords(words: seq<string>): Option<seq<(string, string)>>
  {
    if |words| == 0 then Some([])
    else
      var kv := Split(words[0], '=');
      match ParseWords(words[1..])
      case Some(rest) => if |kv| == 2 then Some([(kv[0], kv[1])] + rest) else None
      case None => None
  }

  /** The value can be written in a connection string without quoting. */
  predicate Plain(s: string)
  {
    ' ' !in s && '=' !in s
  }

  /**
   * For Postgres, the connection string carries every field verbatim under
   * its key, the port as a decimal that reads back as the port, and the SSL
   * flag as `enable` or `disable`, as long as no text field holds a space or
   * an '='.
   */
  lemma PostgresURLRoundTrip(c: Connection)
    requires c.provider == Postgresql
    requires Plain(c.user) && Plain(c.password) && Plain(c.host) && Plain(c.dbName)
    ensures ParseSettings(BuildURLConnection(c).value) ==
      Some([("user", c.user), ("password", c.password), ("host", c.host),
            ("port", FormatInt(c.port)), ("dbname", c.dbName),
            ("sslmode", if c.sslMode then "enable" else "disable")])
    ensures ParseInt(FormatInt(c.port)) == Some(c.port)
  {
    var settings := PostgresSettings(c);
    PostgresURLSettings(c);
    assert Plain(ValidateSSLMode(c));
    assert forall i :: 0 <= i < |settings| ==> Plain(settings[i].0) && Plain(settings[i].1);
    ParseJoinedSettings(settings);
    FormatIntRoundTrip(c.port);
  }

  /** Settings whose keys and values need no quoting read back from their joined words. */
  lemma ParseJoinedSettings(settings: seq<(string, string)>)
    requires forall i :: 0 <= i < |settings| ==> Plain(settings[i].0) && Plain(settings[i].1)
    ensures |settings| >= 1 ==> ParseSettings(Join(Words(settings), " ")) == Some(settings)
  {
    if |settings| >= 1 {
      var words := Words(settings);
      forall i | 0 <= i < |words|
        ensures ' ' !in words[i]
      {
        assert Plain(settings[i].0) && Plain(settings[i].1);
      }
      SplitJoin(words, ' ');
      ParseWordsOfSettings(settings);
    }
  }

  lemma {:induction false} ParseWordsOfSettings(settings: seq<(string, string)>)
    requires forall i :: 0 <= i < |settings| ==> '=' !in settings[i].0 && '=' !in settings[i].1
    ensures ParseWords(Words(settings)) == Some(settings)
  {
    if |settings| > 0 {
      var (k, v) := settings[0];
      SplitJoin([k, v], '=');
      assert Join([k, v], "=") == k + "=" + v;
      assert Words(settings)[1..] == Words(settings[1..]);
      ParseWordsOfSettings(settings[1..]);
      assert [(k, v)] + settings[1..] == settings;
    }
  }

  /** For SQLite, the connection string depends on the database name alone. */
  lemma SqliteURLIgnoresCredentials(c: Connection, d: Connection)
    requires c.provider == SQLLite3 && d.provider == SQLLite3
    requires c.dbName == d.dbName
    ensures BuildURLConnection(c) == BuildURLConnection(d)
    ensures BuildURLConnection(c).value[..|c.dbName|] == c.dbName
    ensures BuildURLConnection(c).value[|c.dbName|..] == ":memory:"
  {
  }

  /** The ORM dialect, opened on the connection string. */
  datatype Dialect = PostgresDialect(dsn: string) | SqliteDialect(dsn: string)

  /** `getDialect`: the dialect of the provider, opened on `url`; otherwise an error. */
  function GetDialect(c: Connection, url: string): (r: Result<Dialect, string>)
    ensures r.Failure? <==> !Supported(c.provider)
    ensures r.Failure? ==> r.error == Unsupported
    ensures r.Success? ==> r.value.dsn == url && (r.value.PostgresDialect? <==> c.provider == Postgresql)
  {
    if c.provider == Postgresql then Success(PostgresDialect(url))
    else if c.provider == SQLLite3 then Success(SqliteDialect(url))
    else Failure(Unsupported)
  }

  /**
   * `getDialect` and `BuildURLConnection` accept exactly the same providers,
   * so the dialect can only fail where the connection string already has.
   */
  lemma DialectAgreesWithURL(c: Connection, url: string)
    ensures GetDialect(c, url).Success? <==> BuildURLConnection(c).Success?
    ensures GetDialect(c, url).Success? <==> ProviderString(c.provider).Success?
  {
  }

  // ---------------------------------------------------------------------------
  // Setup steps of getConnection

  /** How the driver steps turn out on one run: `gorm.Open`, `DB()` and `Ping`. */
  datatype Driver = Driver(open: Result<nat, string>, poolHandleError: Option<string>, pingError: Option<string>)

  /** The ORM options: an `Info` query logger, and a naming strategy with singular table names. */
  datatype GormConfig = GormConfig(infoLogger: bool, singularTables: bool)

  /** An open `*gorm.DB`, with the pool settings applied to it. */
  datatype GormDB = GormDB(session: nat, dialect: Dialect, config: GormConfig, maxIdleTime: int, maxOpenConns: int)

  /**
   * What a call leaves its caller with: a handle (`None` is Go's nil), the end
   * of the process through `log.Fatalf`, or a panic unwinding out of the call.
   */
  datatype Outcome = Returned(db: Option<GormDB>) | Exited(message: string) | Panicked(message: string)

  /**
   * The fatal call made when the connection string cannot be built, as
   * written: its message argument calls `DBProvider.String`, which panics
   * before `log.Fatalf` runs when the provider has no name.
   */
  function UrlErrorOutcomeAsWritten(p: DBProvider, err: string): (o: Outcome)
    ensures o.Panicked? <==> !Supported(p)
    ensures o.Panicked? ==> o.message == ProviderString(p).error
    ensures Supported(p) ==> o == Exited("error creating urlConnection for  " + DBProviderNames[p] + " database " + err)
  {
    match ProviderString(p)
    case Failure(panic) => Panicked(panic)
    case Success(name) => Exited("error creating urlConnection for  " + name + " database " + err)
  }

  /** The connection string fails only for unnamed providers, so as written that fatal log is never reached. */
  lemma UrlErrorNeverExits(c: Connection)
    requires BuildURLConnection(c).Failure?
    ensures UrlErrorOutcomeAsWritten(c.provider, BuildURLConnection(c).error).Panicked?
  {
  }

  /** The provider value 2: a panic instead of the intended fatal log message. */
  lemma UrlErrorPanicsForProviderTwo(c: Connection)
    requires c.provider == 2
    ensures UrlErrorOutcomeAsWritten(c.provider, BuildURLConnection(c).error)
      == Panicked("runtime error: index out of range [2] with length 2")
  {
    assert FormatInt(2) == "2";
  }

  /** A negative provider value: Go's panic message for a negative index carries no length. */
  lemma UrlErrorPanicsForNegativeProvider(c: Connection)
    requires c.provider == -1
    ensures UrlErrorOutcomeAsWritten(c.provider, BuildURLConnection(c).error)
      == Panicked("runtime error: index out of range [-1]")
  {
    assert FormatInt(-1) == "-1";
  }

  /** The fatal call, corrected: the process exits with a message that names the provider. */
  function UrlErrorOutcome(p: DBProvider, err: string): (o: Outcome)
    ensures o.Exited?
    ensures Supported(p) ==> o == UrlErrorOutcomeAsWritten(p, err)
  {
    Exited("error creating urlConnection for  " + ProviderLabel(p) + " database " + err)
  }

  /** `getConnection`, as written: the outcome of the setup steps, in the order the source takes them. */
  function Setup(params: Connection, additional: AdditionalConfig, driver: Driver): Outcome
  {
    var c := WithDefaults(params);
    match BuildURLConnection(c)
    case Failure(e) => UrlErrorOutcomeAsWritten(c.provider, e)
    case Success(url) => Connect(c, url, additional, driver)
  }

  /** `getConnection` with the corrected fatal call for a connection string that cannot be built. */
  function SetupCorrected(params: Connection, additional: AdditionalConfig, driver: Driver): Outcome
  {
    var c := WithDefaults(params);
    match BuildURLConnection(c)
    case Failure(e) => UrlErrorOutcome(c.provider, e)
    case Success(url) => Connect(c, url, additional, driver)
  }

  /** The steps of `getConnection` after the connection string is built. */
  function Connect(c: Connection, url: string, additional: AdditionalConfig, driver: Driver): Outcome
  {
    var config := GormConfig(additional.logQuery, additional.singularTable);
    var name := ProviderLabel(c.provider);
    match GetDialect(c, url)
    case Failure(e) => Exited("error creating dialector for  " + name + " database " + e)
    case Success(dialect) =>
      match driver.open
      case Failure(e) => Exited("error on " + name + " connection: " + e)
      case Success(session) =>
        if driver.poolHandleError.Some? then
          Panicked("error on " + name + " connection: " + driver.poolHandleError.value)
        else if driver.pingError.Some? then
          Panicked("error on " + name + " connection: " + driver.pingError.value)
        else
          Returned(Some(GormDB(session, dialect, config, c.maxIdleTime, c.poolSize)))
  }

  /**
   * The corrected setup differs from the written one only for an unsupported
   * provider, where it ends the process instead of panicking.
   */
  lemma SetupCorrectedExits(params: Connection, additional: AdditionalConfig, driver: Driver)
    ensures Supported(params.provider) ==>
      SetupCorrected(params, additional, driver) == Setup(params, additional, driver)
    ensures !Supported(params.provider) ==>
      && Setup(params, additional, driver) == Panicked(ProviderString(params.provider).error)
      && SetupCorrected(params, additional, driver) ==
           Exited("error creating urlConnection for  " + ProviderLabel(params.provider) + " database " + Unsupported)
  {
  }

  /**
   * Setup hands back a handle exactly when the provider is supported and every
   * driver step succeeds; the handle is opened on the connection string built
   * from the defaulted parameters, and its pool gets the defaulted idle time
   * and pool size.
   */
  lemma SetupConnects(params: Connection, additional: AdditionalConfig, driver: Driver)
    ensures Setup(params, additional, driver).Returned? <==>
      Supported(params.provider) && driver.open.Success? && driver.poolHandleError.None? && driver.pingError.None?
    ensures Setup(params, additional, driver).Returned? ==>
      var db := Setup(params, additional, driver).db.value;
      var c := WithDefaults(params);
      && db.session == driver.open.value
      && db.dialect.dsn == BuildURLConnection(c).value
      && (db.dialect.PostgresDialect? <==> params.provider == Postgresql)
      && db.maxIdleTime == c.maxIdleTime
      && db.maxOpenConns == c.poolSize
      && db.config == GormConfig(additional.logQuery, additional.singularTable)
  {
  }

  /**
   * The failure tiers, as written: an unsupported provider panics inside
   * `String`; a failed open ends the process; a failed pool-handle retrieval
   * or ping panics.
   */
  lemma SetupFailures(params: Connection, additional: AdditionalConfig, driver: Driver)
    ensures !Supported(params.provider) ==>
      Setup(params, additional, driver) == Panicked(ProviderString(params.provider).error)
    ensures Supported(params.provider) && driver.open.Failure? ==>
      Setup(params, additional, driver) ==
        Exited("error on " + ProviderLabel(params.provider) + " connection: " + driver.open.error)
    ensures Supported(params.provider) && driver.open.Success? &&
            (driver.poolHandleError.Some? || driver.pingError.Some?) ==>
      Setup(params, additional, driver).Panicked?
  {
  }

  /** `getConnection`, step by step on a local copy of the parameters. */
  method GetConnection(params: Connection, additional: AdditionalConfig, driver: Driver) returns (o: Outcome)
    ensures o == Setup(params, additional, driver)
  {
    var connectionParams := new ConnectionParams(params);
    connectionParams.SetDefaultValues();
    var c := connectionParams.Value();
    var url := BuildURLConnection(c);
    if url.Failure? {
      return UrlErrorOutcomeAsWritten(c.provider, url.error);
    }
    var config := GormConfig(false, false);
    if additional.logQuery {
      config := config.(infoLogger := true);
    }
    if additional.singularTable {
      config := config.(singularTables := true);
    }
    var name := ProviderLabel(c.provider);
    var dialect := GetDialect(c, url.value);
    if dialect.Failure? {
      // `getDialect` accepts exactly the providers `BuildURLConnection` does.
      assert false;
    }
    if driver.open.Failure? {
      return Exited("error on " + name + " connection: " + driver.open.error);
    }
    if driver.poolHandleError.Some? {
      return Panicked("error on " + name + " connection: " + driver.poolHandleError.value);
    }
    var db := GormDB(driver.open.value, dialect.value, config, 0, 0);
    db := db.(maxIdleTime := c.maxIdleTime);
    db := db.(maxOpenConns := c.poolSize);
    if driver.pingError.Some? {
      return Panicked("error on " + name + " connection: " + driver.pingError.value);
    }
    o := Returned(Some(db));
  }

  // ---------------------------------------------------------------------------
  // Once-only initialisation

  /**
   * The package state: whether `onceElement` has run its function, the
   * `DBInstance` handle, and how many times setup has run.
   */
  datatype OnceState = OnceState(done: bool, instance: Option<GormDB>, setups: nat)

  const Initial: OnceState := OnceState(false, None, 0)

  /** Setup has run once if the once-flag is set and never otherwise; before that there is no handle. */
  predicate OnceInvariant(s: OnceState)
  {
    && s.setups == (if s.done then 1 else 0)
    && (!s.done ==> s.instance.None?)
  }

  datatype Request = Request(params: Connection, additional: AdditionalConfig, driver: Driver)

  /**
   * `CreateDataBaseConnection`: the first call runs setup and stores its
   * handle (a panic leaves the handle nil); every call after it returns the
   * stored handle.
   */
  function Call(s: OnceState, req: Request): (r: (OnceState, Outcome))
    ensures OnceInvariant(s) ==> OnceInvariant(r.0)
    ensures r.0.done
    ensures !s.done ==> r.1 == Setup(req.params, req.additional, req.driver)
  {
    if s.done then (s, Returned(s.instance))
    else
      var o := Setup(req.params, req.additional, req.driver);
      var instance := if o.Returned? then o.db else s.instance;
      (OnceState(true, instance, s.setups + 1), o)
  }

  /** The calls a process makes, in order; an exit ends the process, so no call follows it. */
  function Run(s: OnceState, reqs: seq<Request>): (r: (OnceState, seq<Outcome>))
    ensures |r.1| <= |reqs|
    decreases |reqs|
  {
    if |reqs| == 0 then (s, [])
    else
      var (s1, o) := Call(s, reqs[0]);
      if o.Exited? then (s1, [o])
      else
        var (s2, os) := Run(s1, reqs[1..]);
        (s2, [o] + os)
  }

  /** Once initialised, every call returns the stored handle and changes nothing. */
  lemma {:induction false} RunWhenDone(s: OnceState, reqs: seq<Request>)
    requires s.done
    ensures Run(s, reqs).0 == s
    ensures |Run(s, reqs).1| == |reqs|
    ensures forall i :: 0 <= i < |reqs| ==> Run(s, reqs).1[i] == Returned(s.instance)
    decreases |reqs|
  {
    if |reqs| > 0 {
      RunWhenDone(s, reqs[1..]);
    }
  }

  /**
   * Over any sequence of calls, setup runs exactly once, for the first call;
   * every later call, whatever its parameters, gets the handle the first
   * call stored (nil after a panic), and after an exit there is no later call.
   */
  lemma OnceOnly(reqs: seq<Request>)
    requires |reqs| >= 1
    ensures var (s, outs) := Run(Initial, reqs);
      var first := Setup(reqs[0].params, reqs[0].additional, reqs[0].driver);
      && s.setups == 1
      && outs[0] == first
      && s.instance == (if first.Returned? then first.db else None)
      && (first.Exited? ==> |outs| == 1)
      && (!first.Exited? ==> |outs| == |reqs|)
      && forall i :: 1 <= i < |outs| ==> outs[i] == Returned(s.instance)
  {
    var (s1, o) := Call(Initial, reqs[0]);
    if !o.Exited? {
      RunWhenDone(s1, reqs[1..]);
    }
  }

  /**
   * As written, a first call with an unsupported provider panics, and every
   * later call, whatever its parameters, gets a nil handle.
   */
  lemma UnsupportedFirstCallLeavesNil(reqs: seq<Request>)
    requires |reqs| >= 1 && !Supported(reqs[0].params.provider)
    ensures var outs := Run(Initial, reqs).1;
      && |outs| == |reqs|
      && outs[0] == Panicked(ProviderString(reqs[0].params.provider).error)
      && forall i :: 1 <= i < |outs| ==> outs[i] == Returned(None)
  {
    SetupFailures(reqs[0].params, reqs[0].additional, reqs[0].driver);
    OnceOnly(reqs);
  }

  /** The package-level `DBInstance` and `onceElement`, with a count of setup runs. */
  class Registry {
    var done: bool
    var instance: Option<GormDB>
    ghost var setups: nat

    ghost function State(): OnceState
      reads this
    {
      OnceState(done, instance, setups)
    }

    constructor ()
      ensures State() == Initial
    {
      done := false;
      instance := None;
      setups := 0;
    }

    /** `CreateDataBaseConnection`: run setup under the once-flag, then return the stored handle. */
    method CreateDataBaseConnection(params: Connection, additional: AdditionalConfig, driver: Driver)
      returns (o: Outcome)
      requires OnceInvariant(State())
      modifies this
      ensures (State(), o) == Call(old(State()), Request(params, additional, driver))
      ensures OnceInvariant(State())
    {
      if !done {
        o := GetConnection(params, additional, driver);
        done := true;
        setups := setups + 1;
        if o.Returned? {
          instance := o.db;
        } else {
          return;
        }
      }
      o := Returned(instance);
    }
  }

  // ---------------------------------------------------------------------------
  // NewPostgresConnection

  /** The parameters `NewPostgresConnection` passes on, built from the `db` section of the configuration. */
  function PostgresParams(db: Config.DB): (c: Connection)
    ensures c.provider == Postgresql && !c.sslMode && c.maxIdleTime == MaxIdle
    ensures c.user == db.user && c.password == db.password && c.host == db.host
    ensures c.port == db.port && c.dbName == db.name && c.poolSize == db.poolSize
  {
    Connection(db.user, db.password, db.host, db.port, db.name, false, Postgresql, db.poolSize, MaxIdle)
  }

  const PostgresAdditional: AdditionalConfig := AdditionalConfig(LogQuery, Singular)

  /**
   * On the `NewPostgresConnection` path the idle time stays at one
   * nanosecond (the 60 s default never applies), a zero pool size becomes 10,
   * and the connection string disables SSL.
   */
  lemma NewPostgresDefaults(db: Config.DB)
    ensures var c := WithDefaults(PostgresParams(db));
      && c.maxIdleTime == 1
      && c.poolSize == (if db.poolSize == 0 then 10 else db.poolSize)
      && BuildURLConnection(c) == Success(Join(["user=" + db.user, "password=" + db.password, "host=" + db.host,
                                                "port=" + FormatInt(db.port), "dbname=" + db.name,
                                                "sslmode=disable"], " "))
  {
    assert "sslmode=" + "disable" == "sslmode=disable";
  }

  /** The connection string for `localhost:5432`, user `u`, password `p`, database `mydb`. */
  lemma NewPostgresExample()
    ensures BuildURLConnection(WithDefaults(PostgresParams(Config.DB("localhost", 5432, "u", "p", "mydb", 0))))
      == Success(Join(["user=u", "password=p", "host=localhost", "port=5432", "dbname=mydb", "sslmode=disable"], " "))
  {
    var db := Config.DB("localhost", 5432, "u", "p", "mydb", 0);
    NewPostgresDefaults(db);
    Port5432();
    assert "user=" + "u" == "user=u";
    assert "password=" + "p" == "password=p";
    assert "host=" + "localhost" == "host=localhost";
    assert "port=" + "5432" == "port=5432";
    assert "dbname=" + "mydb" == "dbname=mydb";
  }

  lemma Port5432()
    ensures FormatInt(5432) == "5432"
  {
    assert FormatNat(5) == "5";
    assert FormatNat(54) == "54";
    assert FormatNat(543) == "543";
  }

  /**
   * `NewPostgresConnection`: connect with the `db` section of the stored
   * configuration, query logging and singular table names.
   */
  method NewPostgresConnection(process: Config.Process, registry: Registry, driver: Driver) returns (o: Outcome)
    requires OnceInvariant(registry.State())
    modifies registry
    ensures (registry.State(), o) ==
      Call(old(registry.State()), Request(PostgresParams(process.Config().db), PostgresAdditional, driver))
    ensures OnceInvariant(registry.State())
  {
    var postgresCfg := process.Config().db;
    o := registry.CreateDataBaseConnection(PostgresParams(postgresCfg), PostgresAdditional, driver);
  }
}
