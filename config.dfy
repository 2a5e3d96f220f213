/**
 * The configuration loader of the users service (package `config`): the
 * typed configuration, the schema walk that binds every configuration key,
 * the parsing of `KEY=VALUE` environment files into the process environment,
 * and the stage-driven load that stores the process-wide configuration.
 *
 * The process environment is a map; an environment file is the sequence of
 * its lines, looked up by path in a read-only map of files (a path that is not
 * there cannot be opened). The decoding library is a function parameter that
 * is given the bound keys and the environment.
 */
module Config {
  import opened Wrappers
  import opened Text

  datatype Server = Server(port: int, host: string, basePath: string)

  datatype App = App(serviceName: string, postfix: string, loggerDebugMode: bool)

  datatype DB = DB(host: string, port: int, user: string, password: string, name: string, poolSize: int)

  datatype Configuration = Configuration(server: Server, app: App, db: DB)

  /** Go's zero value of `Configuration`: what the package variable holds before any load. */
  const ZeroConfiguration := Configuration(Server(0, "", ""), App("", "", false), DB("", 0, "", "", "", 0))

  // ---------------------------------------------------------------------------
  // Schema tree and key binding

  /** The kind of a struct field: a plain value, or a nested struct with its own fields. */
  datatype Shape = Leaf | Struct(fields: seq<Field>)

  /** A struct field with its `mapstructure` tag, if it has one. */
  datatype Field = Field(tag: Option<string>, shape: Shape)

  /** The fields of `Configuration`, in declaration order, with their tags. */
  const ConfigurationSchema: seq<Field> := [
    Field(Some("server"), Struct(Leaves(["port", "host", "base_path"]))),
    Field(Some("app"), Struct(Leaves(["service_name", "postfix", "logger_debug_mode"]))),
    Field(Some("db"), Struct(Leaves(["host", "port", "user", "password", "name", "pool_size"])))
  ]

  /**
   * `bindEnvs`: the keys it binds, in the order it binds them, for the fields
   * of a struct reached through the tags in `parts`.
   */
  function BindEnvs(fields: seq<Field>, parts: seq<string>): seq<string>
    decreases fields
  {
    if |fields| == 0 then [] else BindField(fields[0], parts) + BindEnvs(fields[1..], parts)
  }

  /** One iteration of the loop of `bindEnvs`. */
  function BindField(f: Field, parts: seq<string>): seq<string>
    decreases f
  {
    match f.tag
    case None => []
    case Some(tv) =>
      match f.shape
      case Struct(sub) => BindEnvs(sub, parts + [tv])
      case Leaf => [Join(parts + [tv], ".")]
  }

  /**
   * The tag path `path` leads, through tagged struct fields, to a tagged leaf
   * field among `fields`.
   */
  ghost predicate LeadsToLeaf(fields: seq<Field>, path: seq<string>)
    decreases fields
  {
    exists i :: 0 <= i < |fields| && FieldLeadsToLeaf(fields[i], path)
  }

  ghost predicate FieldLeadsToLeaf(f: Field, path: seq<string>)
    decreases f
  {
    && |path| >= 1
    && f.tag == Some(path[0])
    && match f.shape
       case Leaf => |path| == 1
       case Struct(sub) => LeadsToLeaf(sub, path[1..])
  }

  /** Every bound key is the dotted tag path of a tagged leaf field. */
  lemma {:induction false} BindEnvsSound(fields: seq<Field>, parts: seq<string>, key: string)
    requires key in BindEnvs(fields, parts)
    ensures exists path :: LeadsToLeaf(fields, path) && key == Join(parts + path, ".")
    decreases fields
  {
    if key in BindField(fields[0], parts) {
      var path := BindFieldSound(fields[0], parts, key);
      assert FieldLeadsToLeaf(fields[0], path);
    } else {
      assert key in BindEnvs(fields[1..], parts);
      BindEnvsSound(fields[1..], parts, key);
      var path :| LeadsToLeaf(fields[1..], path) && key == Join(parts + path, ".");
      var i :| 0 <= i < |fields[1..]| && FieldLeadsToLeaf(fields[1..][i], path);
      assert FieldLeadsToLeaf(fields[i + 1], path);
    }
  }

  lemma {:induction false} BindFieldSound(f: Field, parts: seq<string>, key: string) returns (path: seq<string>)
    requires key in BindField(f, parts)
    ensures FieldLeadsToLeaf(f, path) && key == Join(parts + path, ".")
    decreases f
  {
    var tv := f.tag.value;
    match f.shape
    case Leaf =>
      path := [tv];
    case Struct(sub) =>
      BindEnvsSound(sub, parts + [tv], key);
      var rest :| LeadsToLeaf(sub, rest) && key == Join(parts + [tv] + rest, ".");
      path := [tv] + rest;
      assert path[1..] == rest;
      assert parts + path == parts + [tv] + rest;
  }

  /** Every dotted tag path of a tagged leaf field is bound. */
  lemma {:induction false} BindEnvsComplete(fields: seq<Field>, parts: seq<string>, path: seq<string>)
    requires LeadsToLeaf(fields, path)
    ensures Join(parts + path, ".") in BindEnvs(fields, parts)
    decreases fields
  {
    var i :| 0 <= i < |fields| && FieldLeadsToLeaf(fields[i], path);
    if i == 0 {
      BindFieldComplete(fields[0], parts, path);
    } else {
      assert FieldLeadsToLeaf(fields[1..][i - 1], path);
      BindEnvsComplete(fields[1..], parts, path);
    }
  }

  lemma {:induction false} BindFieldComplete(f: Field, parts: seq<string>, path: seq<string>)
    requires FieldLeadsToLeaf(f, path)
    ensures Join(parts + path, ".") in BindField(f, parts)
    decreases f
  {
    match f.shape
    case Leaf =>
      assert path == [path[0]];
    case Struct(sub) =>
      BindEnvsComplete(sub, parts + [path[0]], path[1..]);
      assert parts + [path[0]] + path[1..] == parts + path;
  }

  /** The keys bound for `Configuration`, in binding order. */
  const ConfigurationKeys: seq<string> := [
    "server.port", "server.host", "server.base_path",
    "app.service_name", "app.postfix", "app.logger_debug_mode",
    "db.host", "db.port", "db.user", "db.password", "db.name", "db.pool_size"
  ]

  /** For `Configuration`, `bindEnvs` binds exactly these twelve keys, none of them twice. */
  lemma ConfigurationBindsTwelveKeys()
    ensures BindEnvs(ConfigurationSchema, []) == ConfigurationKeys
    ensures forall i, j :: 0 <= i < j < |BindEnvs(ConfigurationSchema, [])| ==>
      BindEnvs(ConfigurationSchema, [])[i] != BindEnvs(ConfigurationSchema, [])[j]
  {
    var server := ServerKeys();
    var app := AppKeys();
    var db := DbKeys();
    var schema := ConfigurationSchema;
    assert BindEnvs(schema[2..], []) == db by {
      assert schema[2..][1..] == [];
    }
    assert BindEnvs(schema[1..], []) == app + db by {
      assert schema[1..][1..] == schema[2..];
    }
    assert server + app + db == ConfigurationKeys;
  }

  lemma ServerKeys() returns (keys: seq<string>)
    ensures keys == ["server.port", "server.host", "server.base_path"]
    ensures BindField(ConfigurationSchema[0], []) == keys
  {
    keys := ["server.port", "server.host", "server.base_path"];
    assert keys[0] == "server" + "." + "port";
    assert keys[1] == "server" + "." + "host";
    assert keys[2] == "server" + "." + "base_path";
    BindLeavesExact(["port", "host", "base_path"], "server", keys);
  }

  lemma AppKeys() returns (keys: seq<string>)
    ensures keys == ["app.service_name", "app.postfix", "app.logger_debug_mode"]
    ensures BindField(ConfigurationSchema[1], []) == keys
  {
    keys := ["app.service_name", "app.postfix", "app.logger_debug_mode"];
    assert keys[0] == "app" + "." + "service_name";
    assert keys[1] == "app" + "." + "postfix";
    assert keys[2] == "app" + "." + "logger_debug_mode";
    BindLeavesExact(["service_name", "postfix", "logger_debug_mode"], "app", keys);
  }

  lemma DbKeys() returns (keys: seq<string>)
    ensures keys == ["db.host", "db.port", "db.user", "db.password", "db.name", "db.pool_size"]
    ensures BindField(ConfigurationSchema[2], []) == keys
  {
    keys := ["db.host", "db.port", "db.user", "db.password", "db.name", "db.pool_size"];
    assert keys[0] == "db" + "." + "host";
    assert keys[1] == "db" + "." + "port";
    assert keys[2] == "db" + "." + "user";
    assert keys[3] == "db" + "." + "password";
    assert keys[4] == "db" + "." + "name";
    assert keys[5] == "db" + "." + "pool_size";
    BindLeavesExact(["host", "port", "user", "password", "name", "pool_size"], "db", keys);
  }

  lemma BindLeavesExact(tags: seq<string>, p: string, keys: seq<string>)
    requires |keys| == |tags|
    requires forall i :: 0 <= i < |tags| ==> keys[i] == p + "." + tags[i]
    ensures BindEnvs(Leaves(tags), [p]) == keys
  {
    BindLeaves(tags, p);
  }

  /** The fields of a struct reached by tag `p` whose fields are the tagged leaves `tags`. */
  function Leaves(tags: seq<string>): (fields: seq<Field>)
    ensures |fields| == |tags|
    ensures forall i :: 0 <= i < |tags| ==> fields[i] == Field(Some(tags[i]), Leaf)
  {
    if |tags| == 0 then [] else [Field(Some(tags[0]), Leaf)] + Leaves(tags[1..])
  }

  lemma {:induction false} BindLeaves(tags: seq<string>, p: string)
    ensures |BindEnvs(Leaves(tags), [p])| == |tags|
    ensures forall i :: 0 <= i < |tags| ==> BindEnvs(Leaves(tags), [p])[i] == p + "." + tags[i]
  {
    if |tags| > 0 {
      BindLeaves(tags[1..], p);
      assert Leaves(tags)[1..] == Leaves(tags[1..]);
      assert Join([p, tags[0]], ".") == p + "." + tags[0];
    }
  }

  // ---------------------------------------------------------------------------
  // Environment files

  /** `os.Getenv`: an unset variable reads as "". */
  function Getenv(env: map<string, string>, key: string): (v: string)
    ensures key in env ==> v == env[key]
    ensures key !in env ==> v == ""
  {
    if key in env then env[key] else ""
  }

  datatype ConfigError =
    | OpenFailed(path: string)
    | SetenvFailed(key: string, value: string)
    | UnmarshalFailed(reason: string)
    | Wrapped(context: string, cause: ConfigError)

  /**
   * When `os.Setenv` succeeds on Unix: the key is non-empty and holds no '='
   * and no NUL, and the value holds no NUL.
   */
  predicate SetenvAccepts(key: string, value: string)
  {
    |key| > 0 && '=' !in key && '\0' !in key && '\0' !in value
  }

  /**
   * The key and value of one line: the first two pieces of the line split at
   * every '=', or nothing when the line has fewer than two pieces.
   */
  function ParseLine(line: string): (kv: Option<(string, string)>)
    ensures kv.None? <==> '=' !in line
    ensures kv.Some? ==> '=' !in kv.value.0 && '=' !in kv.value.1
  {
    var wrt := Split(line, '=');
    if |wrt| < 2 then None else Some((wrt[0], wrt[1]))
  }

  /**
   * The key of a line is all of it before the first '=', and the value is what
   * lies between the first '=' and the second one (or the end of the line).
   */
  lemma LineKeyValue(key: string, value: string, rest: string)
    requires '=' !in key && '=' !in value
    requires rest == "" || rest[0] == '='
    ensures ParseLine(key + "=" + value + rest) == Some((key, value))
  {
    var line := key + "=" + value + rest;
    assert line == key + ['='] + (value + rest);
    SplitAtFirst(key, '=', value + rest);
    FirstPiece(value, rest);
  }

  /** The first piece of `value + rest` is `value` when `rest` is empty or starts a new piece. */
  lemma FirstPiece(value: string, rest: string)
    requires '=' !in value
    requires rest == "" || rest[0] == '='
    ensures Split(value + rest, '=')[0] == value
  {
    if rest == "" {
      assert value + rest == value;
    } else {
      assert value + rest == value + ['='] + rest[1..];
      SplitAtFirst(value, '=', rest[1..]);
    }
  }

  /** What loading lines has done to the environment, and the error that stopped it, if any. */
  datatype LoadResult = LoadResult(env: map<string, string>, err: Option<ConfigError>)

  /** One iteration of the scanning loop of `GenEnvsFromFile`. */
  function ApplyLine(env: map<string, string>, line: string): (r: LoadResult)
    ensures '=' !in line ==> r == LoadResult(env, None)
    ensures r.err.Some? ==> r.env == env
    ensures r.err.Some? <==> ParseLine(line).Some? && !SetenvAccepts(ParseLine(line).value.0, ParseLine(line).value.1)
    ensures r.err.Some? ==> r.err.value == SetenvFailed(ParseLine(line).value.0, ParseLine(line).value.1)
    ensures ParseLine(line).Some? && r.err.None? ==> r.env == env[ParseLine(line).value.0 := ParseLine(line).value.1]
  {
    match ParseLine(line)
    case None => LoadResult(env, None)
    case Some((key, value)) =>
      if SetenvAccepts(key, value) then LoadResult(env[key := value], None)
      else LoadResult(env, Some(SetenvFailed(key, value)))
  }

  /** The lines applied in order, stopping at the first one whose variable cannot be set. */
  function ApplyLines(env: map<string, string>, lines: seq<string>): LoadResult
    decreases |lines|
  {
    if |lines| == 0 then LoadResult(env, None)
    else
      var r := ApplyLines(env, lines[..|lines| - 1]);
      if r.err.Some? then r else ApplyLine(r.env, lines[|lines| - 1])
  }

  /** Applying `a + b` is applying `a`, then, unless that failed, applying `b`. */
  lemma {:induction false} ApplyLinesConcat(env: map<string, string>, a: seq<string>, b: seq<string>)
    ensures ApplyLines(env, a + b) ==
      var r := ApplyLines(env, a);
      if r.err.Some? then r else ApplyLines(r.env, b)
    decreases |b|
  {
    if |b| == 0 {
      assert a + b == a;
    } else {
      var b' := b[..|b| - 1];
      assert (a + b)[..|a + b| - 1] == a + b';
      assert (a + b)[|a + b| - 1] == b[|b| - 1];
      ApplyLinesConcat(env, a, b');
    }
  }

  /**
   * When line `i` is the first whose variable cannot be set, loading stops
   * there: the environment holds what the lines before it set, and no later
   * line is applied.
   */
  lemma StopsAtFirstError(env: map<string, string>, lines: seq<string>, i: nat)
    requires i < |lines|
    requires ApplyLines(env, lines[..i]).err.None?
    requires ApplyLine(ApplyLines(env, lines[..i]).env, lines[i]).err.Some?
    ensures ApplyLines(env, lines) ==
      LoadResult(ApplyLines(env, lines[..i]).env, ApplyLine(ApplyLines(env, lines[..i]).env, lines[i]).err)
  {
    assert lines[..i + 1][..i] == lines[..i];
    assert lines == lines[..i + 1] + lines[i + 1..];
    ApplyLinesConcat(env, lines[..i + 1], lines[i + 1..]);
  }

  /** The line sets `key`. */
  predicate Sets(line: string, key: string)
  {
    ParseLine(line).Some? && ParseLine(line).value.0 == key
  }

  /** Lines that do not set `key` leave its value, or its absence, as it was. */
  lemma {:induction false} UntouchedKey(env: map<string, string>, lines: seq<string>, key: string)
    requires forall j :: 0 <= j < |lines| ==> !Sets(lines[j], key)
    ensures key in ApplyLines(env, lines).env <==> key in env
    ensures key in env ==> ApplyLines(env, lines).env[key] == env[key]
    decreases |lines|
  {
    if |lines| > 0 {
      UntouchedKey(env, lines[..|lines| - 1], key);
      assert !Sets(lines[|lines| - 1], key);
    }
  }

  /**
   * Last write wins: when loading succeeds, a key takes the value of the last
   * line that sets it.
   */
  lemma LastWriteWins(env: map<string, string>, before: seq<string>, line: string, after: seq<string>,
                      key: string, value: string)
    requires ParseLine(line) == Some((key, value))
    requires forall j :: 0 <= j < |after| ==> !Sets(after[j], key)
    requires ApplyLines(env, before + [line] + after).err.None?
    ensures key in ApplyLines(env, before + [line] + after).env
    ensures ApplyLines(env, before + [line] + after).env[key] == value
  {
    var r := ApplyLines(env, before + [line]);
    ApplyLinesConcat(env, before + [line], after);
    assert (before + [line])[..|before|] == before;
    if r.err.None? {
      UntouchedKey(r.env, after, key);
    }
  }

  /** The path `GenEnvsFromFile` opens: the file name under the working directory. */
  function EnvFilePath(cwd: string, fileName: string): string
  {
    cwd + "/" + fileName
  }

  /** `GenEnvsFromFile` as a function of the environment before it. */
  function LoadEnvFile(env: map<string, string>, files: map<string, seq<string>>,
                       cwd: string, fileName: string): (r: LoadResult)
    ensures EnvFilePath(cwd, fileName) !in files ==>
      r == LoadResult(env, Some(OpenFailed(EnvFilePath(cwd, fileName))))
  {
    var path := EnvFilePath(cwd, fileName);
    if path !in files then LoadResult(env, Some(OpenFailed(path))) else ApplyLines(env, files[path])
  }

  /** The environment file a deployment stage selects; other stages, and "", select none. */
  function EnvFileFor(stage: string): (file: Option<string>)
    ensures file.Some? <==> stage == "local" || stage == "dev" || stage == "prod"
    ensures file.Some? ==> file.value == ".env." + stage
  {
    if stage == "local" then Some(".env.local")
    else if stage == "dev" then Some(".env.dev")
    else if stage == "prod" then Some(".env.prod")
    else None
  }

  /** A decoder of the bound keys from the environment, standing for `viper.Unmarshal`. */
  type Unmarshal = (seq<string>, map<string, string>) -> Result<Configuration, string>

  /** `ReadConfigFromEnv`: bind the schema's keys, then decode them from the environment. */
  function ReadConfigFromEnv(env: map<string, string>, unmarshal: Unmarshal): (r: Result<Configuration, ConfigError>)
    ensures r.Success? <==> unmarshal(ConfigurationKeys, env).Success?
    ensures r.Success? ==> r.value == unmarshal(ConfigurationKeys, env).value
    ensures r.Failure? ==> r.error == UnmarshalFailed(unmarshal(ConfigurationKeys, env).error)
  {
    ConfigurationBindsTwelveKeys();
    match unmarshal(BindEnvs(ConfigurationSchema, []), env)
    case Success(c) => Success(c)
    case Failure(reason) => Failure(UnmarshalFailed(reason))
  }

  /** The state `Environments` leaves behind, and what it returns. */
  datatype Loaded = Loaded(env: map<string, string>, configuration: Configuration, err: Option<ConfigError>)

  /** The loading of the file the `ENVIRONMENT` variable selects; nothing when it selects none. */
  function LoadStageFile(env: map<string, string>, files: map<string, seq<string>>, cwd: string): LoadResult
  {
    match EnvFileFor(Getenv(env, "ENVIRONMENT"))
    case None => LoadResult(env, None)
    case Some(file) => LoadEnvFile(env, files, cwd, file)
  }

  /** `Environments` as a function of the state before it. */
  function LoadEnvironment(env: map<string, string>, configuration: Configuration,
                           files: map<string, seq<string>>, cwd: string, unmarshal: Unmarshal): Loaded
  {
    var loaded := LoadStageFile(env, files, cwd);
    if loaded.err.Some? then
      Loaded(loaded.env, configuration, Some(Wrapped("error reading config file", loaded.err.value)))
    else
      match ReadConfigFromEnv(loaded.env, unmarshal)
      case Success(c) => Loaded(loaded.env, c, None)
      case Failure(e) => Loaded(loaded.env, configuration, Some(Wrapped("error getting configurations from env", e)))
  }

  /**
   * An unset or unknown stage loads no file: the environment is not touched
   * and the configuration is decoded straight from it.
   */
  lemma UnknownStageLoadsNoFile(env: map<string, string>, configuration: Configuration,
                                files: map<string, seq<string>>, cwd: string, unmarshal: Unmarshal)
    requires Getenv(env, "ENVIRONMENT") !in {"local", "dev", "prod"}
    ensures var r := LoadEnvironment(env, configuration, files, cwd, unmarshal);
      && r.env == env
      && (r.err.None? <==> ReadConfigFromEnv(env, unmarshal).Success?)
      && (r.err.None? ==> r.configuration == ReadConfigFromEnv(env, unmarshal).value)
  {
    var stage := Getenv(env, "ENVIRONMENT");
    assert stage != "local" && stage != "dev" && stage != "prod";
    assert EnvFileFor(stage).None?;
    assert LoadStageFile(env, files, cwd) == LoadResult(env, None);
  }

  /**
   * A file that cannot be loaded makes `Environments` fail with the file's
   * error wrapped, without decoding: the stored configuration stays as it was.
   */
  lemma FileErrorSkipsDecoding(env: map<string, string>, configuration: Configuration,
                               files: map<string, seq<string>>, cwd: string, unmarshal: Unmarshal)
    requires EnvFileFor(Getenv(env, "ENVIRONMENT")).Some?
    requires LoadEnvFile(env, files, cwd, EnvFileFor(Getenv(env, "ENVIRONMENT")).value).err.Some?
    ensures var r := LoadEnvironment(env, configuration, files, cwd, unmarshal);
      && r.configuration == configuration
      && r.err == Some(Wrapped("error reading config file",
                               LoadEnvFile(env, files, cwd, ".env." + Getenv(env, "ENVIRONMENT")).err.value))
  {
  }

  /**
   * The process: its environment and the package-level configuration that
   * `Environments` stores and `Config` returns.
   */
  class Process {
    var env: map<string, string>
    var configuration: Configuration

    constructor (env0: map<string, string>)
      ensures env == env0 && configuration == ZeroConfiguration
    {
      env := env0;
      configuration := ZeroConfiguration;
    }

    /** `Config`: the configuration most recently stored. */
    function Config(): (c: Configuration)
      reads this
      ensures c == configuration
    {
      configuration
    }

    /** `GenEnvsFromFile`: set a variable for each `KEY=VALUE` line of the file, in order. */
    method GenEnvsFromFile(fileName: string, cwd: string, files: map<string, seq<string>>)
      returns (err: Option<ConfigError>)
      modifies this
      ensures LoadResult(env, err) == LoadEnvFile(old(env), files, cwd, fileName)
      ensures configuration == old(configuration)
    {
      var path := cwd + "/" + fileName;
      if path !in files {
        return Some(OpenFailed(path));
      }
      var lines := files[path];
      var i := 0;
      while i < |lines|
        invariant 0 <= i <= |lines|
        invariant ApplyLines(old(env), lines[..i]) == LoadResult(env, None)
        invariant configuration == old(configuration)
      {
        assert lines[..i + 1][..i] == lines[..i];
        var wrt := Split(lines[i], '=');
        if |wrt| < 2 {
          i := i + 1;
          continue;
        }
        if !SetenvAccepts(wrt[0], wrt[1]) {
          StopsAtFirstError(old(env), lines, i);
          return Some(SetenvFailed(wrt[0], wrt[1]));
        }
        env := env[wrt[0] := wrt[1]];
        i := i + 1;
      }
      assert lines[..i] == lines;
      err := None;
    }

    /**
     * `Environments`: load the file the `ENVIRONMENT` variable selects, if
     * any, then decode and store the configuration.
     */
    method Environments(files: map<string, seq<string>>, cwd: string, unmarshal: Unmarshal)
      returns (err: Option<ConfigError>)
      modifies this
      ensures Loaded(env, configuration, err) == LoadEnvironment(old(env), old(configuration), files, cwd, unmarshal)
      ensures err.None? ==> Config() == ReadConfigFromEnv(env, unmarshal).value
    {
      var stage := Getenv(env, "ENVIRONMENT");
      var file := EnvFileFor(stage);
      if file.Some? {
        var loadErr := GenEnvsFromFile(file.value, cwd, files);
        if loadErr.Some? {
          return Some(Wrapped("error reading config file", loadErr.value));
        }
      }
      var decoded := ReadConfigFromEnv(env, unmarshal);
      if decoded.Failure? {
        return Some(Wrapped("error getting configurations from env", decoded.error));
      }
      configuration := decoded.value;
      err := None;
    }
  }
}
