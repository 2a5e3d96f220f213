# Configuration loading and database provisioning of the users service

This project models the two core pieces of the `users` service:

- **Configuration loader** (`users/src/config/config.go`). The `ENVIRONMENT` variable selects an environment file (`local`, `dev` or `prod`). Each `KEY=VALUE` line of that file sets a process environment variable. Every tagged leaf of the configuration schema is bound under its dotted key, such as `db.pool_size`. The configuration is then decoded and stored in the package-level variable that `Config()` returns.
- **Connection provisioner** (`users/src/infra/db/postgres_conection.go`). Parameters get their defaults: a zero pool size becomes 10, and a zero idle time becomes 60 s. A provider-specific connection string and ORM dialect are built from them. `getConnection` then runs its setup steps in order. `CreateDataBaseConnection` runs that setup once per process and gives every caller the same handle.

The project has four modules:

- `Wrappers` holds `Option` and `Result`.
- `Text` models `strings.Index`, `strings.Split` and `strings.Join` with a one-character separator, and the `%d` verb. Each comes with its inverse.
- `Config` models `config.go`. The process is a class whose environment map and stored configuration are updated in place. `GenEnvsFromFile` is a loop proved against the function `ApplyLines`. `bindEnvs` walks an explicit schema tree (`Field`/`Shape`) instead of using reflection.
- `Db` models `postgres_conection.go`. `SetDefaultValues` is a method on a class holding the `Connection` fields. The once-only initialiser is a class over the `DBInstance` handle and the once-flag. Its step function `Call` and its run over a sequence of calls, `Run`, are what the lemmas are about.

Environment and values:

- The environment is a `map<string, string>`.
- An environment file is its sequence of lines. Files are looked up by path (`<cwd>/<fileName>`) in a read-only map; a path that is not in the map cannot be opened.
- `time.Duration` values are integers of nanoseconds. So `maxIdle = 1` is one nanosecond, and the default idle time is 60 000 000 000.
- `DBProvider` is an `int`. Only 0 (`Postgresql`) and 1 (`SQLLite3`) have names.

Parameters stand in for what the modelled code cannot decide itself:

- The decoding library (`viper.Unmarshal`) is a function parameter. It receives the bound keys and the environment.
- The driver steps (`gorm.Open`, `DB()`, `Ping`) are a `Driver` value that says how each of them turns out.
- `log.Fatalf` ends the process (`Exited`). `log.Panicf` and Go runtime panics unwind to the caller (`Panicked`).

Points where the code behaves differently than its names and messages suggest:

- A line `A=B=C` sets `A` to `B`. `strings.Split` splits at every `=`, and only the first two pieces are used.
- The fatal "error creating dialector" branch of `getConnection` can never be reached, because `getDialect` accepts exactly the providers `BuildURLConnection` accepts (`Db.DialectAgreesWithURL`).
- A connection-string failure is meant to end the process through `log.Fatalf`. As written, it panics inside `DBProvider.String` instead, and every later call gets a nil handle. `Setup` models the code as written; `SetupCorrected` models the intended exit (see Findings).
- `os.Setenv` fails, on Unix, for an empty key, a key holding `=` or NUL, or a value holding NUL. A line such as `=x` therefore stops loading with an error.
- For Postgres, the connection string reads back into its settings (`Db.PostgresURLRoundTrip`) only when user, password, host and database name hold no space and no `=`. The code does not quote them.

## Model

| member | source | states |
|---|---|---|
| `Text.Split` | users/src/config/config.go:84 | `strings.Split` gives at least one piece; no piece holds the separator; a string without it is a single piece |
| `Text.JoinSplit` | users/src/config/config.go:84 | joining the pieces of a split with the separator gives the line back, so splitting loses nothing |
| `Text.SplitJoin` | users/src/config/config.go:84 | splitting a join of separator-free pieces gives the same pieces back |
| `Text.FormatIntRoundTrip` | users/src/infra/db/postgres_conection.go:178-182 | the `%d` rendering of every integer port reads back as that integer |
| `Config.BindEnvsSound` | users/src/config/config.go:114-136 | every key `bindEnvs` binds is the dot-joined tag path, below the given prefix, that leads through tagged nested structs to a tagged leaf field |
| `Config.BindEnvsComplete` | users/src/config/config.go:114-136 | every such tag path to a tagged leaf is bound; untagged fields, and everything below them, are never reached |
| `Config.ConfigurationBindsTwelveKeys` | users/src/config/config.go:13-42 | for `Configuration`, the bound keys are exactly `server.{port,host,base_path}`, `app.{service_name,postfix,logger_debug_mode}`, `db.{host,port,user,password,name,pool_size}`, in that order, and none is bound twice |
| `Config.ReadConfigFromEnv` | users/src/config/config.go:104-112 | succeeds exactly when decoding the twelve bound keys from the environment succeeds, and then gives the decoded configuration; a decoding failure is reported as an unmarshal error |
| `Config.ParseLine` | users/src/config/config.go:84-89 | a line yields a key and a value exactly when it holds an `=`; neither of them holds `=` |
| `Config.LineKeyValue` | users/src/config/config.go:84-91 | the key is the text before the first `=`, and the value is the text between the first and the second `=` (`A=B=C` sets `A` to `B`) |
| `Config.ApplyLine` | users/src/config/config.go:86-93 | a line without `=` is skipped and changes nothing; a line fails exactly when `os.Setenv` refuses its key or value, and then reports that key and value and leaves the environment unchanged; otherwise the key is set to the value |
| `Config.ApplyLinesConcat` | users/src/config/config.go:83-94 | applying `a + b` is applying `a` and then, unless that failed, `b`; loading a second file after a first is the same as loading their lines in sequence |
| `Config.StopsAtFirstError` | users/src/config/config.go:91-93 | at the first line whose variable cannot be set, loading returns that error; the environment keeps what the earlier lines set, and no later line is applied |
| `Config.UntouchedKey` | users/src/config/config.go:83-94 | lines that do not set a key leave its value, or its absence, unchanged |
| `Config.LastWriteWins` | users/src/config/config.go:83-94 | after a successful load, a key holds the value of the last line that sets it |
| `Config.LoadEnvFile` | users/src/config/config.go:73-78 | a file that cannot be opened gives the open error and leaves the environment unchanged |
| `Config.EnvFileFor` | users/src/config/config.go:51-64 | a stage selects a file exactly when it is `local`, `dev` or `prod`, and then the file is `.env.<stage>` |
| `Config.UnknownStageLoadsNoFile` | users/src/config/config.go:50-71 | with an unset (read as `""`), empty or unknown stage, no file is loaded, the environment is untouched, and the result is the decoding of the environment |
| `Config.FileErrorSkipsDecoding` | users/src/config/config.go:53-63 | when the selected file fails to load, the error is wrapped as "error reading config file" and the stored configuration is not changed |
| `Config.Process.Config` | users/src/config/config.go:44-48 | the getter returns the stored package-level configuration |
| `Config.Process.GenEnvsFromFile` | users/src/config/config.go:73-97 | the loop leaves the environment and the error exactly as `LoadEnvFile` gives them, and does not touch the configuration |
| `Config.Process.Environments` | users/src/config/config.go:50-71 | selects and loads the stage file, then binds the keys and decodes, with the file error and the decode error each wrapped; on success `Config()` returns the decoded configuration |
| `Db.ProviderString` | users/src/infra/db/postgres_conection.go:25-39 | `String` names provider 0 `postgres` and provider 1 `sqlite3`; for every other value the index is out of range and it panics, with Go's message for a negative or a too-large index |
| `Db.WithDefaults` | users/src/infra/db/postgres_conection.go:58-68 | a zero pool size becomes 10 and a zero idle time 60 s; non-zero values are kept, and every other field is unchanged |
| `Db.DefaultsIdempotent` | users/src/infra/db/postgres_conection.go:58-68 | applying the defaults twice gives the same parameters as applying them once |
| `Db.ConnectionParams.SetDefaultValues` | users/src/infra/db/postgres_conection.go:58-68 | the receiver's fields are updated in place to the defaulted parameters |
| `Db.ValidateSSLMode` | users/src/infra/db/postgres_conection.go:192-198 | the mode is `enable` exactly when SSL is on and `disable` exactly when it is off |
| `Db.BuildURLConnection` | users/src/infra/db/postgres_conection.go:173-190 | fails, with "db provider unsupported", exactly for providers other than Postgres and SQLite; for SQLite the string is `<dbName>:memory:` |
| `Db.PostgresURLSettings` | users/src/infra/db/postgres_conection.go:177-184 | the Postgres string is the settings `user`, `password`, `host`, `port`, `dbname`, `sslmode`, written as `key=value` and separated by single spaces |
| `Db.PostgresURLRoundTrip` | users/src/infra/db/postgres_conection.go:173-198 | when user, password, host and database name hold no space and no `=`, the Postgres string reads back into exactly those six settings, with every field verbatim, the port as a decimal that parses back to the port, and `sslmode` set to `enable` or `disable` by the SSL flag |
| `Db.SqliteURLIgnoresCredentials` | users/src/infra/db/postgres_conection.go:185-186 | the SQLite string depends only on the database name, not on user, password, host, port or SSL flag, and is that name followed by `:memory:` |
| `Db.GetDialect` | users/src/infra/db/postgres_conection.go:162-171 | fails, with "db provider unsupported", exactly for unsupported providers; otherwise the Postgres or SQLite dialect is opened on the given string |
| `Db.DialectAgreesWithURL` | users/src/infra/db/postgres_conection.go:162-190 | `getDialect`, `BuildURLConnection` and `String` accept exactly the same providers |
| `Db.UrlErrorOutcomeAsWritten` | users/src/infra/db/postgres_conection.go:105-107 | as written, the fatal call panics exactly for providers without a name, with the panic of `String`; for a named provider it exits with the source's message |
| `Db.UrlErrorNeverExits` | users/src/infra/db/postgres_conection.go:103-108 | as written, every connection-string failure panics inside `String` before `log.Fatalf` can run |
| `Db.UrlErrorPanicsForProviderTwo` | users/src/infra/db/postgres_conection.go:105-107 | for provider value 2, the outcome is the panic "index out of range [2] with length 2" |
| `Db.UrlErrorPanicsForNegativeProvider` | users/src/infra/db/postgres_conection.go:37-39 | for provider value -1, the panic message is "index out of range [-1]", with no length |
| `Db.UrlErrorOutcome` | users/src/infra/db/postgres_conection.go:105-107 | corrected: a connection-string failure always ends the process with its message; for a named provider this is the as-written outcome |
| `Db.SetupConnects` | users/src/infra/db/postgres_conection.go:101-160 | setup returns a handle exactly when the provider is supported and open, pool-handle retrieval and ping all succeed; the handle is opened on the string built from the defaulted parameters, and its pool gets the defaulted idle time and pool size |
| `Db.SetupFailures` | users/src/infra/db/postgres_conection.go:101-155 | as written, an unsupported provider panics with the message of `String`; a failed open ends the process with the source's message; a failed pool-handle retrieval or ping panics |
| `Db.SetupCorrectedExits` | users/src/infra/db/postgres_conection.go:101-160 | the corrected setup ends the process with a message naming the provider where the written one panics for an unsupported provider, and agrees with it for every supported provider |
| `Db.GetConnection` | users/src/infra/db/postgres_conection.go:101-160 | step by step on a local copy of the parameters (defaults, string, ORM options, dialect, open, pool, ping), it gives exactly the outcome `Setup` specifies, including the panic inside `String` when the connection string cannot be built |
| `Db.Call` | users/src/infra/db/postgres_conection.go:88-99 | the first call runs setup and gives its outcome; afterwards the once-flag is set; the invariant "setup has run once exactly when the flag is set, and there is no handle before that" is kept |
| `Db.RunWhenDone` | users/src/infra/db/postgres_conection.go:93-99 | once initialised, every call returns the stored handle and changes nothing |
| `Db.UnsupportedFirstCallLeavesNil` | users/src/infra/db/postgres_conection.go:88-108 | as written, a first call with an unsupported provider panics, and every later call gets a nil handle whatever its parameters |
| `Db.OnceOnly` | users/src/infra/db/postgres_conection.go:88-99 | over any sequence of calls, setup runs exactly once, with the first call's parameters; every later call returns that same handle (nil after a panic) whatever its own parameters; after an exit, no call follows |
| `Db.Registry.CreateDataBaseConnection` | users/src/infra/db/postgres_conection.go:93-99 | the package state and the result change exactly as `Call` says, and the once invariant is kept |
| `Db.PostgresParams` | users/src/infra/db/postgres_conection.go:70-86 | `NewPostgresConnection` passes the `db` section's credentials, host, port, name and pool size on, with provider Postgres, SSL off and idle time `maxIdle` |
| `Db.NewPostgresDefaults` | users/src/infra/db/postgres_conection.go:58-86 | on this path the idle time stays 1 ns, so the 60 s default never applies; a zero pool size becomes 10; the string ends in `sslmode=disable` |
| `Db.NewPostgresExample` | users/src/infra/db/postgres_conection.go:70-86 | `localhost`, 5432, `u`, `p`, `mydb` give `user=u password=p host=localhost port=5432 dbname=mydb sslmode=disable` |
| `Db.NewPostgresConnection` | users/src/infra/db/postgres_conection.go:70-86 | connects through the once-only initialiser, with the stored configuration's `db` section, query logging and singular table names |

## Left out

- Concurrency of `sync.Once`: the model is sequential. That racing first callers block until the single setup completes is the Go runtime's guarantee.
- The log lines ("enabling query log", "enabling singular tables", the success message) are not modelled. The ORM logger and naming strategy are reduced to two flags in `GormConfig`.
- `gorm.Open`, `DB()`, `SetConnMaxIdleTime`, `SetMaxOpenConns` and `Ping` belong to the ORM and the driver. They are the abstract `Driver`; the pool settings are recorded on the handle.
- `os.Getwd` and its ignored error are not modelled: the working directory is a parameter. `file.Close` is not modelled either.
- `bufio.Scanner` line splitting is not modelled: a file is already its lines. Also left out are the stripping of `\r` and the 64 KiB line limit. The source never checks `scanner.Err()`, so an over-long line silently ends the loop; the model has no such line.
- `viper.BindEnv` internals, the environment-variable names viper derives, and `viper.Unmarshal` conversions are left out. The decoder is a parameter; only the list of bound keys is modelled.
- `Config.Process.Environments`: when decoding fails, the model leaves the stored configuration unchanged. The decoding library may already have written part of it, and that partial write is not modelled.
- Error values are a `ConfigError` datatype (`Wrapped(context, cause)` for `%w`). Their rendered text is not modelled.
- `os.Setenv` follows the Unix rules. Windows rules are not modelled.
- The `required` tags and `BillsApi` are not modelled: no code reads the tags, and nothing uses `BillsApi`.
- Strings are sequences of Unicode characters, while Go strings are bytes. Splitting at `=` and the NUL checks of `os.Setenv` give the same result either way; only text that is not valid UTF-8 cannot be represented.
- `Db.UrlErrorOutcome`: for a provider without a name, the corrected message shows `DBProvider(<number>)`. The source gives no text for that case.

## Findings

| source | as written | input that shows it | evidently intended | confidence | as-written member | corrected member |
|---|---|---|---|---|---|---|
| users/src/infra/db/postgres_conection.go:105-107 | when `BuildURLConnection` fails, the arguments of `log.Fatalf` call `connectionParams.DBProvider.String()`. That indexes `DBProviderNames` out of range, so the process panics before the fatal message is written. The once-flag is then set and `DBInstance` stays nil, so a caller that recovers gets nil from every later call | a `Connection` with `DBProvider` 2 (`Db.UrlErrorPanicsForProviderTwo`; `Db.UrlErrorNeverExits` shows every failing provider does this) | the process exits through `log.Fatalf`, with a message naming the provider | high, not executed | `Db.UrlErrorOutcomeAsWritten` (used by `Db.Setup`; `Db.UnsupportedFirstCallLeavesNil` shows the nil handle) | `Db.UrlErrorOutcome` (used by `Db.SetupCorrected`, related by `Db.SetupCorrectedExits`) |
