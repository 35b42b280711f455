/**
 * The two configuration providers of pkg/config/config.go. LocalConfigProvider.Load rebuilds the
 * store from the defaults, the environment and the configuration file, decodes it into the schema
 * and validates the result; RemoteConfigProvider.Load races a remote fetch against a deadline.
 *
 * The file system and the process environment are parameters: a FileState says what os.Stat and
 * ReadInConfig find at the configured path, an Environment holds the variables.
 */
module Provider {
  import opened Wrappers
  import opened Errors
  import opened Settings
  import opened Schema
  import opened Binder

  /** What reading and parsing an existing configuration file yields. */
  datatype ReadOutcome = Parsed(values: map<Key, Value>) | Unreadable(reason: string)

  /** What the file system reports for the configured path. */
  datatype FileState =
    | Present(read: ReadOutcome)  // os.Stat succeeded; ReadInConfig then gives `read`
    | Missing                     // os.Stat failed with a "does not exist" error
    | StatError(reason: string)   // os.Stat failed for any other reason

  /** filepath.Ext with '/' as separator: the suffix of the last path element starting at its last
      '.', or "" when that element has no '.'. */
  function Ext(path: string): (ext: string)
    ensures |ext| <= |path| && ext == path[|path| - |ext|..]
    ensures ext != "" ==> ext[0] == '.' && forall i :: 1 <= i < |ext| ==> ext[i] != '.' && ext[i] != '/'
    decreases |path|
  {
    if path == [] || path[|path| - 1] == '/' then ""
    else if path[|path| - 1] == '.' then "."
    else
      var e := Ext(path[..|path| - 1]);
      if e == "" then "" else e + [path[|path| - 1]]
  }

  /** Ext finds no extension only when every '.' of the path lies before its last '/'. */
  lemma {:induction false} ExtEmpty(path: string)
    requires Ext(path) == ""
    ensures forall i :: 0 <= i < |path| && path[i] == '.' ==> '/' in path[i..]
    decreases |path|
  {
    if path != [] && path[|path| - 1] != '/' {
      var front := path[..|path| - 1];
      ExtEmpty(front);
      forall i | 0 <= i < |path| && path[i] == '.'
        ensures '/' in path[i..]
      {
        assert i < |front| && front[i] == '.';
        var j :| 0 <= j < |front[i..]| && front[i..][j] == '/';
        assert path[i..][j] == '/';
      }
    }
  }

  /** What Load does after asking the file system about the path. */
  datatype FileStep = ReadFile | SkipFile | Abort(err: Error)

  /** The file decision of LocalConfigProvider.Load: read an existing file, carry on without one when
      defaults exist, otherwise fail. */
  function DecideFile(file: FileState, path: string, defaults: map<Key, Value>): (step: FileStep)
    ensures step == ReadFile <==> file.Present?
    ensures step == SkipFile <==> file.Missing? && |defaults| > 0
    ensures step == Abort(NoConfigFile(path)) <==> file.Missing? && |defaults| == 0
    ensures step.Abort? && step.err.StatFailed? <==> file.StatError?
    ensures file.StatError? ==> step == Abort(StatFailed(file.reason))
  {
    match file
    case Present(_) => ReadFile
    case Missing => if |defaults| == 0 then Abort(NoConfigFile(path)) else SkipFile
    case StatError(reason) => Abort(StatFailed(reason))
  }

  /** validateConfig: nothing to check without a schema or a validator; otherwise the first field that
      breaks a rule is reported with the rule's name. */
  function ValidateConfig(schema: Option<AppConfig>, validate: Option<Validator>): (err: Option<Error>)
    ensures err.None? <==> schema.None? || validate.None? || ValidAppConfig(schema.value, validate.value.isURL)
    ensures err.Some? ==> err.value.ValidationFailed?
  {
    if schema.None? || validate.None? then None
    else
      ValidIffNoViolation(schema.value, validate.value);
      match Validate(schema.value, validate.value)
      case None => None
      case Some(fe) => Some(ValidationFailed(fe.namespace, fe.tag))
  }

  /** Field i is the first one of `fields` to fail, and `err` names it and the first rule it broke. */
  ghost predicate FirstViolationAt(fields: seq<TaggedField>, isURL: string -> bool, i: int, err: Error)
    requires 0 <= i < |fields|
  {
    && (forall j :: 0 <= j < i ==> Passes(fields[j], isURL))
    && FirstFailingTag(fields[i].value, fields[i].tags, isURL).Some?
    && err == ValidationFailed(fields[i].namespace, TagName(FirstFailingTag(fields[i].value, fields[i].tags, isURL).value))
  }

  /** A validation error reports exactly one field: the first, in declaration order, whose rules fail,
      together with the first of its rules that fails. */
  lemma ValidationReportsFirstFailure(c: AppConfig, v: Validator)
    requires ValidateConfig(Some(c), Some(v)).Some?
    ensures exists i :: 0 <= i < |TaggedFields(c)| && FirstViolationAt(TaggedFields(c), v.isURL, i, ValidateConfig(Some(c), Some(v)).value)
  {
    var fs := TaggedFields(c);
    FirstViolationIsFirst(fs, v.isURL);
    var i :| 0 <= i < |fs|
      && FirstFailingTag(fs[i].value, fs[i].tags, v.isURL).Some?
      && FirstViolation(fs, v.isURL).value == FieldError(fs[i].namespace, TagName(FirstFailingTag(fs[i].value, fs[i].tags, v.isURL).value))
      && forall j :: 0 <= j < i ==> Passes(fs[j], v.isURL);
    assert FirstViolationAt(fs, v.isURL, i, ValidateConfig(Some(c), Some(v)).value);
  }

  /** The constructor-time settings of a local provider. */
  datatype LocalParams = LocalParams(path: string, defaults: map<Key, Value>, envPrefix: string, validate: Option<Validator>)

  /** The store once the steps before the file check have run. The clear loop records a nil override
      for every key AllKeys lists, which leaves the file and default layers as they were; SetDefault
      then adds the provider's defaults; the environment overlay is enabled when a prefix is
      configured; the config type is taken from the file extension. */
  function Prepared(p: LocalParams, st: StoreState): (s: StoreState)
    ensures s.config == st.config
    ensures AllKeys(s) == AllKeys(st) + p.defaults.Keys
    ensures forall k :: k in p.defaults ==> k in s.defaults && s.defaults[k] == p.defaults[k]
  {
    var envOn := p.envPrefix != "";
    var ext := Ext(p.path);
    StoreState(
      config := st.config,
      defaults := st.defaults + p.defaults,
      envPrefix := if envOn then p.envPrefix else st.envPrefix,
      envKeyReplacer := envOn || st.envKeyReplacer,
      automaticEnv := envOn || st.automaticEnv,
      configType := if |ext| > 1 then ext[1..] else st.configType,
      configFile := st.configFile,
      overrides := AllKeys(st))
  }

  /** The file layer a load leaves: the file's values when it was read, otherwise the layer an earlier
      load put there. */
  function FileLayer(st: StoreState, file: FileState): map<Key, Value>
  {
    if file.Present? && file.read.Parsed? then file.read.values else st.config
  }

  /** The store a load leaves on every path: prepared, then pointed at the file when it exists, then
      holding the file's values when it could be read. */
  function LoadedStore(p: LocalParams, st: StoreState, file: FileState): (s: StoreState)
    ensures s.config == FileLayer(st, file)
    ensures s.defaults == st.defaults + p.defaults
    ensures s.overrides == AllKeys(st)
  {
    var prepared := Prepared(p, st);
    match file
    case Present(read) =>
      if read.Parsed? then prepared.(configFile := p.path, config := read.values) else prepared.(configFile := p.path)
    case _ => prepared
  }

  /** The schema contents and the error a load ends with. */
  datatype SchemaOutcome = SchemaOutcome(schema: Option<AppConfig>, err: Option<Error>)

  /** The schema step over the merged settings: decode into the schema; a decoding error is returned at
      once, otherwise the decoded schema is validated. */
  function SchemaStep(validate: Option<Validator>, settings: map<Key, Value>, schema: Option<AppConfig>): (o: SchemaOutcome)
    ensures o.schema.None? <==> schema.None?
    ensures schema.None? ==> o.err.None?
    ensures o.err.Some? ==> o.err.value.DecodeFailed? || o.err.value.ValidationFailed?
    ensures o.err.Some? && o.err.value.DecodeFailed? ==> forall k :: k in o.err.value.keys ==> k in settings
  {
    if schema.None? then SchemaOutcome(None, None)
    else
      var decoded := Unmarshal(settings, schema.value);
      if decoded.failed != [] then SchemaOutcome(Some(decoded.value), Some(DecodeFailed(decoded.failed)))
      else SchemaOutcome(Some(decoded.value), ValidateConfig(Some(decoded.value), validate))
  }

  /** The outcome of a load: the store it leaves, the schema contents it leaves (None when there is no
      schema) and the error it returns. */
  datatype LoadResult = LoadResult(store: StoreState, schema: Option<AppConfig>, err: Option<Error>)

  /** LocalConfigProvider.Load as a function of the previous store, the previous schema contents, the
      file system and the environment. */
  function LocalLoad(p: LocalParams, st: StoreState, schema: Option<AppConfig>, file: FileState, env: Environment): (r: LoadResult)
    ensures r.store == LoadedStore(p, st, file)
    ensures r.err.None? ==> FileAccepted(p, file)
  {
    var store := LoadedStore(p, st, file);
    var outcome :=
      match DecideFile(file, p.path, p.defaults)
      case Abort(err) => SchemaOutcome(schema, Some(err))
      case SkipFile => SchemaStep(p.validate, AllSettings(store, env), schema)
      case ReadFile =>
        if file.read.Unreadable? then SchemaOutcome(schema, Some(ReadFailed(file.read.reason)))
        else SchemaStep(p.validate, AllSettings(store, env), schema);
    LoadResult(store, outcome.schema, outcome.err)
  }

  /** The values of a file that was read, none otherwise. */
  function FileValues(file: FileState): map<Key, Value>
  {
    if file.Present? && file.read.Parsed? then file.read.values else map[]
  }

  /** A load gets past the file check: the file was parsed, or it is missing and defaults exist. */
  predicate FileAccepted(p: LocalParams, file: FileState)
  {
    (file.Present? && file.read.Parsed?) || (file.Missing? && |p.defaults| > 0)
  }

  /** The store holds only what this provider installs: without a prefix the environment overlay was
      never switched on, and every default is one of the provider's (the manager's store starts
      empty and only the provider sets defaults). */
  predicate Installed(p: LocalParams, st: StoreState)
  {
    && (p.envPrefix == "" ==> !st.automaticEnv)
    && st.defaults.Keys <= p.defaults.Keys
  }

  /** The environment variable that overrides `key` for a provider with this prefix. */
  function EnvVariable(prefix: string, key: Key): string
  {
    ReplaceDots(ToUpper(prefix + "_" + key))
  }

  /** Reference resolution after a load: a non-empty environment variable (only with a prefix) beats
      the file layer, which beats the default. */
  function Resolved(p: LocalParams, fileLayer: map<Key, Value>, key: Key, env: Environment): Option<Value>
  {
    var name := EnvVariable(p.envPrefix, key);
    if p.envPrefix != "" && name in env && env[name] != "" then Some(Str(env[name]))
    else if key in fileLayer then Some(fileLayer[key])
    else if key in p.defaults then Some(p.defaults[key])
    else None
  }

  /** The layers and the overlay of the store a load leaves. */
  lemma LoadStoreLayers(p: LocalParams, st: StoreState, file: FileState)
    ensures var s := LoadedStore(p, st, file);
      && (Installed(p, st) ==> s.defaults == p.defaults)
      && AllKeys(s) == AllKeys(st) + FileLayer(st, file).Keys + p.defaults.Keys
      && (p.envPrefix != "" ==> s.envPrefix == p.envPrefix && s.envKeyReplacer && s.automaticEnv)
      && (p.envPrefix == "" ==> s.automaticEnv == st.automaticEnv && s.envPrefix == st.envPrefix
                                && s.envKeyReplacer == st.envKeyReplacer)
  {
    var s := LoadedStore(p, st, file);
    if Installed(p, st) {
      assert s.defaults.Keys == p.defaults.Keys;
    }
  }

  /** After a load that gets past the file check, every key resolves as the reference says, whether or
      not the schema step then failed. The file layer is the new file's when it was read; a load
      that skips the file keeps the earlier file's layer (see StaleFileOutlivesSkippedFile). */
  lemma LoadResolvesKeys(p: LocalParams, st: StoreState, schema: Option<AppConfig>, file: FileState, env: Environment, key: Key)
    requires Installed(p, st)
    requires FileAccepted(p, file)
    ensures Lookup(LocalLoad(p, st, schema, file, env).store, key, env) == Resolved(p, FileLayer(st, file), key, env)
  {
    LoadedStoreResolves(p, st, file, env, key);
  }

  lemma LoadedStoreResolves(p: LocalParams, st: StoreState, file: FileState, env: Environment, key: Key)
    requires Installed(p, st)
    ensures Lookup(LoadedStore(p, st, file), key, env) == Resolved(p, FileLayer(st, file), key, env)
  {
    var s := LoadedStore(p, st, file);
    LoadStoreLayers(p, st, file);
    if p.envPrefix != "" {
      assert EnvName(s, key) == EnvVariable(p.envPrefix, key);
    } else {
      assert EnvValue(s, key, env).None?;
    }
  }

  /** A load keeps the store installed by the provider. */
  lemma LoadKeepsInstalled(p: LocalParams, st: StoreState, schema: Option<AppConfig>, file: FileState, env: Environment)
    requires Installed(p, st)
    ensures Installed(p, LocalLoad(p, st, schema, file, env).store)
  {
    LoadStoreLayers(p, st, file);
  }

  /** The fresh store of New is installed by any provider. */
  lemma FreshStoreInstalled(p: LocalParams)
    ensures Installed(p, EmptyState)
  {
  }

  /** Every default key is set after a load that gets past the file check. */
  lemma DefaultsAreSet(p: LocalParams, st: StoreState, schema: Option<AppConfig>, file: FileState, env: Environment, key: Key)
    requires FileAccepted(p, file)
    requires key in p.defaults
    ensures IsSet(LocalLoad(p, st, schema, file, env).store, key, env)
  {
  }

  /** Without an overriding variable, a value of the file read beats a default, and a default fills a
      key the file lacks. */
  lemma FileBeatsDefaults(p: LocalParams, st: StoreState, schema: Option<AppConfig>, values: map<Key, Value>, env: Environment, key: Key)
    requires Installed(p, st)
    requires p.envPrefix == "" || EnvVariable(p.envPrefix, key) !in env || env[EnvVariable(p.envPrefix, key)] == ""
    ensures var s := LocalLoad(p, st, schema, Present(Parsed(values)), env).store;
      && (key in values ==> Lookup(s, key, env) == Some(values[key]))
      && (key !in values && key in p.defaults ==> Lookup(s, key, env) == Some(p.defaults[key]))
  {
    LoadResolvesKeys(p, st, schema, Present(Parsed(values)), env, key);
  }

  /** With a prefix configured, a non-empty variable PREFIX_KEY (dots as underscores, upper case) beats
      the file and the defaults. */
  lemma EnvBeatsFile(p: LocalParams, st: StoreState, schema: Option<AppConfig>, file: FileState, env: Environment, key: Key)
    requires Installed(p, st) && FileAccepted(p, file)
    requires p.envPrefix != ""
    requires EnvVariable(p.envPrefix, key) in env && env[EnvVariable(p.envPrefix, key)] != ""
    ensures Lookup(LocalLoad(p, st, schema, file, env).store, key, env) == Some(Str(env[EnvVariable(p.envPrefix, key)]))
  {
    LoadResolvesKeys(p, st, schema, file, env, key);
  }

  /** Reloading from a file read: a key that neither the new file, the defaults nor the environment
      supplies is no longer set, whatever earlier files held. */
  lemma StaleKeysGone(p: LocalParams, st: StoreState, schema: Option<AppConfig>, values: map<Key, Value>, env: Environment, key: Key)
    requires Installed(p, st)
    requires key !in values && key !in p.defaults
    requires p.envPrefix == "" || EnvVariable(p.envPrefix, key) !in env || env[EnvVariable(p.envPrefix, key)] == ""
    ensures !IsSet(LocalLoad(p, st, schema, Present(Parsed(values)), env).store, key, env)
  {
    LoadResolvesKeys(p, st, schema, Present(Parsed(values)), env, key);
  }

  /** The load as written, when the file is skipped or unreadable: every key of the earlier file
      layer keeps its value, since Set(key, nil) only records a nil override. */
  lemma StaleFileOutlivesSkippedFile(p: LocalParams, st: StoreState, schema: Option<AppConfig>, file: FileState, env: Environment, key: Key)
    requires !(file.Present? && file.read.Parsed?)
    requires key in st.config
    requires EnvValue(LoadedStore(p, st, file), key, env).None?
    ensures IsSet(LocalLoad(p, st, schema, file, env).store, key, env)
    ensures Lookup(LocalLoad(p, st, schema, file, env).store, key, env) == Some(st.config[key])
  {
  }

  /** The case that shows it: a load read server.port from a file; the file is then removed and a
      reload falls back on a default for server.host. The reload succeeds, and server.port is still
      set to the removed file's value; the clearing load forgets it. */
  lemma StalePortAfterFileRemoved(env: Environment)
    ensures var p := LocalParams("config.yaml", map["server.host" := Str("localhost")], "", None);
      var st := LocalLoad(p, EmptyState, None, Present(Parsed(map["server.port" := Int(8080)])), env).store;
      var r := LocalLoad(p, st, None, Missing, env);
      && r.err.None?
      && Lookup(r.store, "server.port", env) == Some(Int(8080))
      && !IsSet(ClearingLoadedStore(p, st, Missing), "server.port", env)
  {
    var p := LocalParams("config.yaml", map["server.host" := Str("localhost")], "", None);
    var st := LocalLoad(p, EmptyState, None, Present(Parsed(map["server.port" := Int(8080)])), env).store;
    assert !st.automaticEnv;
    StaleFileOutlivesSkippedFile(p, st, None, Missing, env, "server.port");
    ClearingLoadResolvesKeys(p, st, Missing, env, "server.port");
  }

  /** The clearing the load's first loop is evidently meant to do ("clear all settings but keep the
      instance"): the file and default layers are emptied before the defaults are set again. */
  function ClearingLoadedStore(p: LocalParams, st: StoreState, file: FileState): (s: StoreState)
    ensures s.config == FileValues(file) && s.defaults == p.defaults
  {
    LoadedStore(p, st.(config := map[], defaults := map[]), file)
  }

  /** With clearing, a load past the file check resolves every key from the new file, the defaults and
      the environment alone, whatever the store held before. */
  lemma ClearingLoadResolvesKeys(p: LocalParams, st: StoreState, file: FileState, env: Environment, key: Key)
    requires p.envPrefix == "" ==> !st.automaticEnv
    requires FileAccepted(p, file)
    ensures Lookup(ClearingLoadedStore(p, st, file), key, env) == Resolved(p, FileValues(file), key, env)
  {
    var cleared := st.(config := map[], defaults := map[]);
    assert Installed(p, cleared);
    LoadResolvesKeys(p, cleared, None, file, env, key);
    assert FileLayer(cleared, file) == FileValues(file);
  }

  /** The two loads agree on every lookup whenever the file is read. */
  lemma ClearingAgreesWhenFileRead(p: LocalParams, st: StoreState, values: map<Key, Value>, env: Environment, key: Key)
    requires Installed(p, st)
    ensures Lookup(ClearingLoadedStore(p, st, Present(Parsed(values))), key, env)
         == Lookup(LoadedStore(p, st, Present(Parsed(values))), key, env)
  {
    LoadResolvesKeys(p, st, None, Present(Parsed(values)), env, key);
    ClearingLoadResolvesKeys(p, st, Present(Parsed(values)), env, key);
  }

  /** The file step decides the error before anything is decoded: a missing file without defaults, a
      failed stat and an unreadable file each end the load with their own error. */
  lemma FileErrors(p: LocalParams, st: StoreState, schema: Option<AppConfig>, file: FileState, env: Environment)
    ensures var r := LocalLoad(p, st, schema, file, env);
      && (file.Missing? && |p.defaults| == 0 ==> r.err == Some(NoConfigFile(p.path)))
      && (file.StatError? ==> r.err == Some(StatFailed(file.reason)))
      && (file.Present? && file.read.Unreadable? ==> r.err == Some(ReadFailed(file.read.reason)))
      && (!FileAccepted(p, file) ==> r.schema == schema && r.err.Some?)
  {
  }

  /** Without a schema, a load that gets past the file check succeeds: nothing is decoded or validated. */
  lemma NoSchemaNoValidation(p: LocalParams, st: StoreState, file: FileState, env: Environment)
    ensures var r := LocalLoad(p, st, None, file, env);
      r.schema.None? && (r.err.None? <==> FileAccepted(p, file))
  {
  }

  /** A decoding error is returned before validation runs, whatever the decoded contents. */
  lemma DecodeErrorBeforeValidation(p: LocalParams, st: StoreState, c: AppConfig, file: FileState, env: Environment)
    requires FileAccepted(p, file)
    requires Unmarshal(AllSettings(LoadedStore(p, st, file), env), c).failed != []
    ensures LocalLoad(p, st, Some(c), file, env).err.Some?
    ensures LocalLoad(p, st, Some(c), file, env).err.value.DecodeFailed?
  {
  }

  /** A load with a schema and a validator succeeds exactly when the file check passes, decoding
      succeeds and the decoded schema satisfies every rule of schema.go; the schema then holds what
      was decoded. */
  lemma LoadSucceedsIffValid(p: LocalParams, st: StoreState, c: AppConfig, file: FileState, env: Environment)
    requires p.validate.Some?
    ensures var r := LocalLoad(p, st, Some(c), file, env);
      r.err.None? <==>
        && FileAccepted(p, file)
        && Unmarshal(AllSettings(r.store, env), c).failed == []
        && ValidAppConfig(r.schema.value, p.validate.value.isURL)
    ensures var r := LocalLoad(p, st, Some(c), file, env);
      FileAccepted(p, file) ==> r.schema == Some(Unmarshal(AllSettings(r.store, env), c).value)
  {
  }

  /** The store is rebuilt before the schema step, so it is published even when decoding or
      validation fails: it does not depend on the schema at all. */
  lemma StoreIndependentOfSchema(p: LocalParams, st: StoreState, s1: Option<AppConfig>, s2: Option<AppConfig>, file: FileState, env: Environment)
    ensures LocalLoad(p, st, s1, file, env).store == LocalLoad(p, st, s2, file, env).store
  {
  }

  /** Decoding the same settings again into what the schema step left changes nothing. */
  lemma SchemaStepIdempotent(validate: Option<Validator>, settings: map<Key, Value>, schema: Option<AppConfig>)
    ensures var o := SchemaStep(validate, settings, schema);
      SchemaStep(validate, settings, o.schema) == o
  {
    if schema.Some? {
      UnmarshalIdempotent(settings, schema.value);
    }
  }

  /** Recording the listed keys as nil overrides changes neither AllKeys nor AllSettings. */
  lemma OverrideRecordInvisible(s: StoreState, env: Environment)
    ensures AllKeys(s.(overrides := AllKeys(s))) == AllKeys(s)
    ensures AllSettings(s.(overrides := AllKeys(s)), env) == AllSettings(s, env)
  {
    var t := s.(overrides := AllKeys(s));
    forall k
      ensures Lookup(t, k, env) == Lookup(s, k, env)
    {
      NilOverridesInvisible(s, AllKeys(s), k, env);
    }
  }

  /** A second load over the store a load left rebuilds the same layers; only the record of nil
      overrides grows, to the keys AllKeys already listed. */
  lemma LoadedStoreIdempotent(p: LocalParams, st: StoreState, file: FileState)
    ensures var s := LoadedStore(p, st, file);
      LoadedStore(p, s, file) == s.(overrides := AllKeys(s))
  {
    var s := LoadedStore(p, st, file);
    assert (st.defaults + p.defaults) + p.defaults == st.defaults + p.defaults;
  }

  /** Loading again from what a load left, with the same file and environment, leaves the same
      layers, the same AllKeys and AllSettings, the same schema and the same error. */
  lemma LoadIdempotent(p: LocalParams, st: StoreState, schema: Option<AppConfig>, file: FileState, env: Environment)
    ensures var r := LocalLoad(p, st, schema, file, env);
      var r2 := LocalLoad(p, r.store, r.schema, file, env);
      && r2.store == r.store.(overrides := AllKeys(r.store))
      && AllKeys(r2.store) == AllKeys(r.store)
      && AllSettings(r2.store, env) == AllSettings(r.store, env)
      && r2.schema == r.schema && r2.err == r.err
  {
    var r := LocalLoad(p, st, schema, file, env);
    LoadedStoreIdempotent(p, st, file);
    OverrideRecordInvisible(r.store, env);
    if FileAccepted(p, file) {
      SchemaStepIdempotent(p.validate, AllSettings(r.store, env), schema);
    }
  }

  /** The defaults-only case: a fresh store, no file at the path, two defaults, no schema. */
  lemma DefaultsOnlyScenario(env: Environment)
    ensures var p := LocalParams("/tmp/definitely-does-not-exist/config.yaml",
                                 map["server.port" := Int(8080), "server.host" := Str("localhost")], "", None);
      var r := LocalLoad(p, EmptyState, None, Missing, env);
      && r.err == None
      && Lookup(r.store, "server.port", env) == Some(Int(8080))
      && Lookup(r.store, "server.host", env) == Some(Str("localhost"))
  {
    var p := LocalParams("/tmp/definitely-does-not-exist/config.yaml",
                         map["server.port" := Int(8080), "server.host" := Str("localhost")], "", None);
    LoadResolvesKeys(p, EmptyState, None, Missing, env, "server.port");
    LoadResolvesKeys(p, EmptyState, None, Missing, env, "server.host");
  }

  /** The environment-override case: with prefix "APP" and a file holding server.port, the variable
      APP_SERVER_PORT=9090 beats the file's value, and the weakly typed decoder reads the setting
      as the integer 9090. */
  lemma EnvOverrideScenario(values: map<Key, Value>)
    requires "server.port" in values
    ensures var p := LocalParams("config.yaml", map[], "APP", None);
      var env := map["APP_SERVER_PORT" := "9090"];
      var r := LocalLoad(p, EmptyState, None, Present(Parsed(values)), env);
      && r.err == None
      && Lookup(r.store, "server.port", env) == Some(Str("9090"))
      && DecodeInt(AllSettings(r.store, env), "server.port", 0) == Decoded(9090, [])
  {
    var p := LocalParams("config.yaml", map[], "APP", None);
    var env := map["APP_SERVER_PORT" := "9090"];
    AppServerPort();
    Parse9090();
    LoadResolvesKeys(p, EmptyState, None, Present(Parsed(values)), env, "server.port");
  }

  lemma AppServerPort()
    ensures EnvVariable("APP", "server.port") == "APP_SERVER_PORT"
  {
    assert "APP" + "_" + "server.port" == "APP_server.port";
    assert ToUpper("APP_server.port") == "APP_SERVER.PORT";
  }

  lemma Parse9090()
    ensures ParseInt("9090") == Some(9090)
  {
    assert BasePrefix("9090") == (10, "9090");
    assert DigitsValue("9090", 10) == 9090 by {
      assert "9090"[..3] == "909" && "909"[..2] == "90" && "90"[..1] == "9";
    }
  }

  /** The entries of `m` under the keys in `ks`. */
  function Restrict(m: map<Key, Value>, ks: set<Key>): (r: map<Key, Value>)
    ensures r.Keys == m.Keys * ks
    ensures forall k :: k in r ==> r[k] == m[k]
  {
    map k | k in m.Keys * ks :: m[k]
  }

  /** Setting one more default extends the merged layer by that entry. */
  lemma RestrictGrows(base: map<Key, Value>, m: map<Key, Value>, done: set<Key>, key: Key)
    requires key in m
    ensures (base + Restrict(m, done))[key := m[key]] == base + Restrict(m, done + {key})
  {
  }

  /** A local provider; it shares its store and its schema object with the manager that created it. */
  class LocalConfigProvider {
    const store: Store
    const path: string
    const defaults: map<Key, Value>
    const envPrefix: string
    const validate: Option<Validator>
    const schema: AppConfigRef?

    function Params(): LocalParams
    {
      LocalParams(path, defaults, envPrefix, validate)
    }

    /** The objects a load may change: the store and the schema object, when there is one. */
    function Repr(): set<object>
    {
      if schema == null then {store} else {store as object, schema as object}
    }

    /** The schema object's contents, None without a schema. */
    function SchemaValue(): Option<AppConfig>
      reads schema
    {
      if schema == null then None else Some(schema.value)
    }

    constructor (store: Store, path: string, defaults: map<Key, Value>, envPrefix: string,
                 validate: Option<Validator>, schema: AppConfigRef?)
      ensures this.store == store && this.schema == schema
      ensures Params() == LocalParams(path, defaults, envPrefix, validate)
    {
      this.store := store;
      this.path := path;
      this.defaults := defaults;
      this.envPrefix := envPrefix;
      this.validate := validate;
      this.schema := schema;
    }

    /** Load: rebuild the store, then decode and validate. The store and the schema are left exactly as
        LocalLoad says, including on every error path. */
    method Load(file: FileState, env: Environment) returns (err: Option<Error>)
      modifies store, schema
      ensures var r := LocalLoad(Params(), old(store.State()), old(SchemaValue()), file, env);
        store.State() == r.store && SchemaValue() == r.schema && err == r.err
    {
      Prepare();
      match DecideFile(file, path, defaults) {
        case Abort(e) =>
          return Some(e);
        case SkipFile =>
        case ReadFile =>
          store.SetConfigFile(path);
          match file.read {
            case Unreadable(reason) =>
              return Some(ReadFailed(reason));
            case Parsed(values) =>
              store.ReadInConfig(values);
          }
      }
      assert store.State() == LoadedStore(Params(), old(store.State()), file);
      err := DecodeAndValidate(env);
    }

    /** The steps before the file check: Set(key, nil) for every listed key, set the defaults entry
        by entry, enable the environment overlay when a prefix is configured, and take
        the config type from the file extension. */
    method Prepare()
      modifies store
      ensures store.State() == Prepared(Params(), old(store.State()))
    {
      SetNilListed();
      SetDefaults();
      if envPrefix != "" {
        store.SetEnvPrefix(envPrefix);
        store.SetEnvKeyReplacer();
        store.AutomaticEnv();
      }
      var ext := Ext(path);
      if ext != "" {
        store.SetConfigType(ext[1..]);
      }
    }

    /** The clear loop: Set(key, nil) for every key AllKeys listed when the loop began. */
    method SetNilListed()
      modifies store
      ensures store.State() == old(store.State()).(overrides := AllKeys(old(store.State())))
    {
      var keys := AllKeys(store.State());
      ghost var listed := keys;
      while keys != {}
        invariant keys <= listed
        invariant store.State() == old(store.State()).(overrides := old(store.overrides) + (listed - keys))
        decreases keys
      {
        var key :| key in keys;
        store.SetNil(key);
        keys := keys - {key};
      }
    }

    /** The defaults loop: SetDefault for every entry of the provider's defaults. */
    method SetDefaults()
      modifies store
      ensures store.State() == old(store.State()).(defaults := old(store.defaults) + defaults)
    {
      var pending := defaults.Keys;
      ghost var done: set<Key> := {};
      while pending != {}
        invariant done + pending == defaults.Keys && done !! pending
        invariant store.State() == old(store.State()).(defaults := old(store.defaults) + Restrict(defaults, done))
        decreases pending
      {
        var key :| key in pending;
        RestrictGrows(old(store.defaults), defaults, done, key);
        store.SetDefault(key, defaults[key]);
        pending := pending - {key};
        done := done + {key};
      }
      assert Restrict(defaults, done) == defaults;
    }

    /** The schema step over the current store. */
    method DecodeAndValidate(env: Environment) returns (err: Option<Error>)
      modifies schema
      ensures var o := SchemaStep(validate, AllSettings(store.State(), env), old(SchemaValue()));
        SchemaValue() == o.schema && err == o.err
    {
      if schema == null {
        return None;
      }
      var decoded := Unmarshal(AllSettings(store.State(), env), schema.value);
      schema.value := decoded.value;
      if decoded.failed != [] {
        return Some(DecodeFailed(decoded.failed));
      }
      if validate.Some? {
        return ValidateConfig(Some(schema.value), validate);
      }
      return None;
    }
  }

  /** A remote source descriptor, e.g. an etcd endpoint and key path. */
  datatype RemoteProvider = RemoteProvider(providerType: string, endpoint: string, path: string)

  /** The provider types the remote backend accepts. */
  const SupportedRemoteProviders: set<string> := {"etcd", "etcd3", "consul", "firestore", "nats"}

  /** How the fetch goroutine and the 30-second deadline raced: the fetch finished first, with the
      failure it met if any, or the deadline passed first. */
  datatype RemoteRace = Finished(failure: Option<string>) | DeadlineFirst

  /** The constructor-time settings of a remote provider. */
  datatype RemoteConfigProvider = RemoteConfigProvider(
    provider: RemoteProvider, defaults: map<Key, Value>, envPrefix: string,
    validate: Option<Validator>, schema: AppConfigRef?)

  /** RemoteConfigProvider.Load, as an outcome: the deadline wins with ErrTimeout; an unsupported
      provider type is refused; any other failure of the fetch is passed on. */
  function RemoteLoad(r: RemoteConfigProvider, race: RemoteRace): (err: Option<Error>)
    ensures race.DeadlineFirst? ==> err == Some(Timeout)
    ensures race.Finished? && r.provider.providerType !in SupportedRemoteProviders ==>
      err == Some(UnsupportedRemoteProvider(r.provider.providerType))
    ensures err.None? <==> race.Finished? && race.failure.None? && r.provider.providerType in SupportedRemoteProviders
  {
    match race
    case DeadlineFirst => Some(Timeout)
    case Finished(failure) =>
      if r.provider.providerType !in SupportedRemoteProviders then Some(UnsupportedRemoteProvider(r.provider.providerType))
      else if failure.Some? then Some(RemoteFailed(failure.value))
      else None
  }
}
