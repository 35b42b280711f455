# gobits `pkg/config` in Dafny

A verified model of the configuration package of hugomatus/gobits (`pkg/config`). The package is a
facade over a settings store (viper), a struct validator and a file watcher. This model covers:

- **The `ConfigManager` lifecycle.** `Close` is idempotent and always returns nil. `closed` only ever
  goes from false to true. `Load` returns `ErrClosed` once the manager is closed and then never
  reaches the provider. `Watch` returns nil when no watcher is installed. Otherwise it wraps the
  caller's callback: reload through the provider, drop any reload error, then notify. That wrapped
  callback does not check `closed`, and `Close` does not stop a watcher. The model keeps both
  behaviours of the code.
- **Construction in `New`.** The functional options are applied first to last, so the last option
  for a field wins. A remote descriptor then selects the remote provider, and a remote watcher only
  when watching is enabled. Otherwise the local provider and a local watcher are always installed.
- **`LocalConfigProvider.Load`.** It calls `Set(key, nil)` for every key the store lists, sets
  the defaults, and turns on the environment overlay when a prefix is configured. It sets the
  config type from the file extension. Then it decides between reading the file, going on without
  one (defaults exist) and failing. Finally it decodes the store into the schema and validates it,
  reporting only the first failing field. `Set(key, nil)` only records a nil override, which
  lookups skip and `AllKeys` goes on listing. So the file layer changes only when a file is read,
  and a reload that skips the file still sees the earlier file's values (see "## Findings").
- **The store as layers.** Lookup order is environment, then file, then defaults; nil overrides
  are skipped. With a prefix, key `server.port` is overridden by the variable `PREFIX_SERVER_PORT`.
- **Weakly typed decoding.** A string becomes an int through `strconv.ParseInt(s, 0, 64)`, so a
  leading `0` means octal and `0x`, `0o` and `0b` select their bases.
- **The `validate` tags of `AppConfig` (schema.go).** They are written as a validity predicate. A
  separate first-failure check stands in for the validator, and the model proves the two agree.

The file system, the process environment, the remote fetch and the watcher's context are
parameters: `FileState`, `Environment`, `RemoteRace` and `Option<Context>`.

Modules, one per file:

- `Wrappers`: `Option`.
- `Errors`: the error values and the texts the package chooses.
- `Settings`: the layered store, as the `StoreState` value and the `Store` class.
- `Schema`: `AppConfig` and its validation.
- `Binder`: decoding the store into an `AppConfig` (viper.Unmarshal with weak typing).
- `Provider`: both providers.
- `Manager`: options, watchers, the lifecycle, the `ConfigManager` class and `New`.

Each method that changes state is tied to a function. For example, `LocalConfigProvider.Load`
leaves the store and the schema exactly as `LocalLoad` says, on every path. The properties are
proved about those functions. The load follows the code as written. The clearing its comment
describes is given beside it as `ClearingLoadedStore`.

## Model

| member | source | states |
|---|---|---|
| Errors.Message | pkg/config/config.go:94-95 | the package chooses the text of every error except decoding failures and the remote provider's |
| Settings.EnvName | pkg/config/config.go:311-315 | the variable for a key is the prefix, "_" and the key, each character upper-cased ('a'..'z' to 'A'..'Z', others kept) and, with the replacer, '.' turned into '_' |
| Settings.EnvNameIsMapped | pkg/config/config.go:311-315 | the variable name equals the reference built one character at a time: mapped prefix, "_", mapped key |
| Settings.Lookup | pkg/config/config.go:180-184 | Get: the key is set exactly when the environment (when enabled), the file layer or the defaults supply it, in that order of precedence |
| Settings.NilOverridesInvisible | pkg/config/config.go:298-300 | recording nil overrides changes no lookup |
| Settings.AllSettings | pkg/config/config.go:276-281 | every listed key whose lookup is not nil, with that value; the file and default keys are always there |
| Settings.Store.constructor | pkg/config/config.go:101 | a fresh store holds no values, no overrides and no environment settings |
| Settings.Store.SetNil | pkg/config/config.go:298-300 | Set(key, nil): the key joins the override record, and the file and default layers are untouched |
| Settings.Store.SetDefault | pkg/config/config.go:303-304 | only the default for that key changes |
| Settings.Store.SetEnvPrefix | pkg/config/config.go:312 | only the prefix changes |
| Settings.Store.SetEnvKeyReplacer | pkg/config/config.go:313 | only the dots-to-underscores replacer is switched on |
| Settings.Store.AutomaticEnv | pkg/config/config.go:314 | only the environment overlay is switched on |
| Settings.Store.SetConfigType | pkg/config/config.go:319 | only the config type changes; an empty type is ignored, as viper's SetConfigType ignores it |
| Settings.Store.SetConfigFile | pkg/config/config.go:324 | only the config file path changes |
| Settings.Store.ReadInConfig | pkg/config/config.go:325 | the file layer is replaced as a whole by the parsed values |
| Schema.TaggedFields | pkg/config/schema.go:3-47 | the twelve tagged fields in declaration order, each of them `required` first |
| Schema.FirstViolation | pkg/config/config.go:363-366 | a reported failure names a rule the tags use, and only a non-empty field list reports one |
| Schema.Validate | pkg/config/config.go:360-366 | validate.StructCtx reduced to its first error; the rule it names is one of the tags' rules |
| Schema.ValidAppConfig | pkg/config/schema.go:3-47 | the reference: the conjunction of the `validate` tags, field by field |
| Schema.NumericExamples | pkg/config/schema.go:5 | `numeric` accepts "8080", "-12", "+3.25" and refuses "", "-", "1.", ".5", "1.2.3", "80a" |
| Schema.FirstFailingTag | pkg/config/schema.go:5 | the rule a field's chain reports is one of its rules, and it fails |
| Schema.FirstFailingTagNone | pkg/config/schema.go:5 | a field's rule chain reports no failure exactly when every rule in it holds |
| Schema.FirstViolationNone | pkg/config/config.go:363-366 | validation reports nothing exactly when every tagged field passes |
| Schema.FirstViolationAppend | pkg/config/config.go:363-366 | fields are checked in order: a failure in an earlier group hides every later one |
| Schema.FirstViolationIsFirst | pkg/config/config.go:363-366 | a reported failure names the first failing field and its first failing rule, and every earlier field passes |
| Schema.SecondsPasses | pkg/config/schema.go:6 | `required,endswith=s` accepts exactly the non-empty strings ending in 's' |
| Schema.ServerFieldsPass | pkg/config/schema.go:4-10 | the Server fields pass exactly when the port is a non-empty number and the four timeouts end in 's' |
| Schema.CrawlerLoggingFieldsPass | pkg/config/schema.go:15-25 | Crawler.Timeout, Logging.Level and Logging.Output pass exactly when their constraints hold |
| Schema.StorageFieldsPass | pkg/config/schema.go:27-34 | the Elasticsearch fields pass exactly when endpoint, index, timeout and retry limit meet their constraints |
| Schema.ValidIffNoViolation | pkg/config/schema.go:3-47 | validation finds nothing exactly when ValidAppConfig holds, the conjunction of all the tags |
| Schema.EmptyPortReportedFirst | pkg/config/schema.go:5 | an empty port is the first failure, reported as `required` on AppConfig.Server.Port |
| Schema.NonNumericPortReported | pkg/config/schema.go:5 | a non-empty port that is not a number fails `numeric` |
| Schema.RetryLimitOutOfRange | pkg/config/schema.go:32 | otherwise valid, retry limit 0 fails `required`, below 1 fails `min` and above 10 fails `max` |
| Schema.UntaggedFieldsIrrelevant | pkg/config/schema.go:11-46 | changing untagged Crawler fields, Checkpoint, Redis or Metrics changes neither the report nor validity |
| Binder.NatToDigits | pkg/config/config.go:340 | the decimal digits of n, with a leading '0' only for 0 |
| Binder.FormatInt | pkg/config/config.go:340 | strconv.FormatInt(i, 10): decimal digits, with a leading '-' exactly for a negative i |
| Binder.ParseBool | pkg/config/config.go:340 | strconv.ParseBool: an accepted spelling has one to five characters, and it means true exactly when it starts with '1', 't' or 'T' |
| Binder.BasePrefix | pkg/config/config.go:340 | base 0: "0x"/"0X", "0o"/"0O" and "0b"/"0B" with at least one character after them pick 16, 8 and 2 and strip two characters; any other leading "0" picks 8 and strips one; anything else stays decimal and keeps every digit |
| Binder.ParseInt | pkg/config/config.go:340 | strconv.ParseInt(s, 0, 64): sign, base prefix, digits of that base; a result is always within the 64-bit range, and the empty string is refused |
| Binder.DigitsRoundTrip | pkg/config/config.go:340 | reading back the decimal digits of n gives n |
| Binder.ParseFormatRoundTrip | pkg/config/config.go:340 | an int formatted in decimal parses back to itself: no leading zero, so the parse stays decimal |
| Binder.LeadingZeroIsOctal | pkg/config/config.go:340 | "011" is 9, "09" is refused, "-010" is -8, "0x1F" is 31, "0b101" is 5, "0o17" is 15 |
| Binder.DecodeString | pkg/config/config.go:340 | an absent key keeps the previous value; a value of the field's own type is taken as is; a failure keeps it too and reports that key, which is present |
| Binder.DecodeInt | pkg/config/config.go:340 | an absent key keeps the previous value; a value of the field's own type is taken as is; a failure keeps it too and reports that key, which is present |
| Binder.DecodeBool | pkg/config/config.go:340 | an absent key keeps the previous value; a value of the field's own type is taken as is; a failure keeps it too and reports that key, which is present |
| Binder.DecodeServer | pkg/config/schema.go:4-10 | each Server field comes from its mapstructure key (server.port, server.read_timeout, ...): kept when absent, taken from a string; only those keys can fail |
| Binder.DecodeCrawler | pkg/config/schema.go:11-17 | each Crawler field comes from its key (crawler.maxDepth, crawler.userAgent, crawler.async, crawler.timeout, crawler.num_workers); only those keys can fail |
| Binder.DecodeCheckpoint | pkg/config/schema.go:18-22 | each Checkpoint field comes from its key (checkpoint.enabled, checkpoint.type, checkpoint.filePath); only those keys can fail |
| Binder.DecodeLogging | pkg/config/schema.go:23-26 | Level and Output come from logging.level and logging.output; only those keys can fail |
| Binder.DecodeStorage | pkg/config/schema.go:27-34 | each Elasticsearch field comes from its storage.elasticsearch.* key; only those keys can fail |
| Binder.DecodeRedis | pkg/config/schema.go:35-42 | each Redis field comes from its redis.* key; only those keys can fail |
| Binder.DecodeMetrics | pkg/config/schema.go:43-46 | Host and Port come from metrics.host and metrics.port; only those keys can fail |
| Binder.Unmarshal | pkg/config/config.go:340 | every key reported as failing is present in the settings; no settings decode to the schema unchanged with no error |
| Binder.UnmarshalEncodeRoundTrip | pkg/config/schema.go:3-47 | decoding the settings holding each field of a config under its mapstructure key recovers that config, with no error |
| Binder.UnmarshalIdempotent | pkg/config/config.go:340 | decoding the same settings a second time changes neither the schema nor the error |
| Provider.Ext | pkg/config/config.go:318-320 | the extension is a suffix of the path, begins with '.', and holds no further '.' or '/' |
| Provider.ExtEmpty | pkg/config/config.go:318-320 | no extension means every '.' of the path lies before a '/' |
| Provider.DecideFile | pkg/config/config.go:323-332 | read an existing file; a missing file is an error without defaults and skipped with them; other stat errors fail |
| Provider.ValidateConfig | pkg/config/config.go:354-372 | no error exactly when there is no schema, no validator, or the schema satisfies ValidAppConfig; any error is a field failure |
| Provider.ValidationReportsFirstFailure | pkg/config/config.go:363-366 | the reported error names the first failing field in declaration order and its first failing rule |
| Provider.Prepared | pkg/config/config.go:296-320 | the steps before the file check keep the file layer, add the provider's defaults, and list the same keys plus the defaults' |
| Provider.LoadedStore | pkg/config/config.go:296-327 | the file layer is the file read, else the earlier one; the defaults are merged in; every earlier key is recorded as a nil override |
| Provider.SchemaStep | pkg/config/config.go:338-349 | a schema stays present exactly when there was one; its error is a decoding failure on keys of the settings or a validation failure |
| Provider.LocalLoad | pkg/config/config.go:294-352 | leaves LoadedStore on every path, and succeeds only past the file check |
| Provider.LoadStoreLayers | pkg/config/config.go:298-327 | for a store the provider installed the defaults layer is its defaults; AllKeys gains the file's and the defaults' keys; the overlay follows the prefix |
| Provider.LoadedStoreResolves | pkg/config/config.go:298-327 | on the loaded store every key resolves env > file layer > defaults |
| Provider.LoadResolvesKeys | pkg/config/config.go:298-332 | after a load past the file check every key resolves env > file layer > defaults, the file layer being the new file's when it was read and the earlier one otherwise |
| Provider.LoadKeepsInstalled | pkg/config/config.go:298-315 | a load keeps the overlay consistent with the prefix and every default one of the provider's |
| Provider.FreshStoreInstalled | pkg/config/config.go:101 | the fresh store New creates holds nothing the provider did not install |
| Provider.DefaultsAreSet | pkg/config/config_test.go:222-224 | every default key is set after a load past the file check |
| Provider.FileBeatsDefaults | pkg/config/config_test.go:237-244 | a value of the file read beats a default, and a default fills a key the file lacks |
| Provider.EnvBeatsFile | pkg/config/config.go:311-315 | with a prefix, a non-empty PREFIX_KEY variable beats the file and the defaults |
| Provider.StaleKeysGone | pkg/config/config_test.go:380-397 | reloading from a file read, a key that neither the new file, the defaults nor the environment supply is no longer set |
| Provider.StaleFileOutlivesSkippedFile | pkg/config/config.go:298-332 | a load that skips the file or cannot read it keeps every value of the earlier file layer visible |
| Provider.StalePortAfterFileRemoved | pkg/config/config.go:298-332 | a reload after the file was removed succeeds with server.port still the removed file's 8080; the clearing load forgets it |
| Provider.ClearingLoadedStore | pkg/config/config.go:295-300 | the intended clearing: the file layer holds only the file read and the defaults layer only the provider's defaults |
| Provider.ClearingLoadResolvesKeys | pkg/config/config.go:295-332 | with clearing, every key resolves from the new file, the defaults and the environment alone, whatever the store held before |
| Provider.ClearingAgreesWhenFileRead | pkg/config/config.go:295-327 | when the file is read, the load as written and the clearing load agree on every lookup |
| Provider.FileErrors | pkg/config/config.go:323-332 | a missing file without defaults, a failed stat and an unreadable file each end the load with their own error, schema untouched |
| Provider.NoSchemaNoValidation | pkg/config/config.go:339 | without a schema nothing is decoded or validated, and the load succeeds exactly when it gets past the file check |
| Provider.DecodeErrorBeforeValidation | pkg/config/config.go:340-342 | a decoding error is returned before validation runs |
| Provider.LoadSucceedsIffValid | pkg/config/config.go:339-349 | with schema and validator, a load succeeds exactly when the file check passes, decoding succeeds and the decoded schema is valid |
| Provider.StoreIndependentOfSchema | pkg/config/config.go:323-349 | the store is published even when decoding or validation fails |
| Provider.SchemaStepIdempotent | pkg/config/config.go:339-349 | repeating the schema step on the same settings changes nothing |
| Provider.OverrideRecordInvisible | pkg/config/config.go:298-300 | recording the listed keys as nil overrides changes neither AllKeys nor AllSettings |
| Provider.LoadedStoreIdempotent | pkg/config/config.go:298-327 | rebuilding the store from the one a load left gives the same layers; only the override record grows, to keys already listed |
| Provider.LoadIdempotent | pkg/config/config.go:294-352 | loading again with the same file and environment gives the same layers, AllKeys, AllSettings, schema and error |
| Provider.DefaultsOnlyScenario | pkg/config/config_test.go:210-225 | a fresh store, no file and two defaults: the load succeeds and both defaults are returned |
| Provider.EnvOverrideScenario | pkg/config/config_test.go:114-129 | with prefix APP, APP_SERVER_PORT=9090 beats the file's server.port, and the decoder reads it as 9090 |
| Provider.LocalConfigProvider.constructor | pkg/config/config.go:136-144 | the provider shares the manager's store and schema object and keeps its path, defaults, prefix and validator |
| Provider.LocalConfigProvider.Load | pkg/config/config.go:294-352 | leaves the store, the schema contents and the error exactly as LocalLoad says, on every path |
| Provider.LocalConfigProvider.Prepare | pkg/config/config.go:296-320 | after the clear loop, the defaults loop, the environment calls and the config type, the store is Prepared of the old store |
| Provider.LocalConfigProvider.SetNilListed | pkg/config/config.go:298-300 | the clear loop only adds every listed key to the override record |
| Provider.LocalConfigProvider.SetDefaults | pkg/config/config.go:302-308 | the defaults loop merges the provider's defaults into the defaults layer |
| Provider.LocalConfigProvider.DecodeAndValidate | pkg/config/config.go:339-349 | the schema and the error are those of the schema step over the store's merged settings |
| Provider.RemoteLoad | pkg/config/config.go:385-456 | the deadline wins with ErrTimeout; an unsupported provider type is refused; no error exactly when the fetch finished without failure |
| Manager.ApplyOptions | pkg/config/config.go:112-114 | options apply front to back: each of poll interval, defaults, remote provider, schema and prefix keeps its value when no option assigns it, and the watch flag is never switched off (last-wins for every field: OptionsLastWinsWatchRemoteSchema, OptionsLastWinsDefaultsPrefixPoll) |
| Manager.LastSetter | pkg/config/config.go:112-114 | finds the last option assigning a field, and none when no option does |
| Manager.LastSetterSkips | pkg/config/config.go:112-114 | an appended option for another field does not move a field's last setter |
| Manager.OptionsLastWinsWatchRemoteSchema | pkg/config/config.go:533-549 | watch flag, remote descriptor and schema take the value of the last option assigning them, else keep their earlier value |
| Manager.OptionsLastWinsDefaultsPrefixPoll | pkg/config/config.go:551-567 | defaults, prefix and poll interval take the value of the last option assigning them, else keep their earlier value |
| Manager.InitialValuesKept | pkg/config/config.go:104-105 | without WithPollInterval and WithDefaults the interval is 10s and the defaults are empty |
| Manager.SelectWatcher | pkg/config/config.go:117-149 | with no remote descriptor the local watcher, always; with one, a remote watcher exactly when watching is enabled |
| Manager.WatcherWatch | pkg/config/config.go:464-467 | both watchers refuse exactly the nil context, with "context cannot be nil" |
| Manager.CloseStep | pkg/config/config.go:155-166 | Close panics exactly when `done` is closed but `closed` is not; otherwise it ends closed, and a closed manager is unchanged |
| Manager.Run | pkg/config/config.go:155-177 | a run without panic answers every call, leaves a closed manager as it was, and ends closed once a Close was among the calls |
| Manager.RunNeverPanics | pkg/config/config.go:155-166 | no sequence of Close and Load calls panics, and `closed` never returns to false |
| Manager.LoadRefusedAfterClose | pkg/config/config.go:169-177 | after a Close, every later Load returns ErrClosed and every later Close returns nil |
| Manager.ClosedStaysClosed | pkg/config/config.go:169-177 | from a closed manager every Load is refused and every Close returns nil |
| Manager.CloseIdempotent | pkg/config/config.go:155-166 | a second Close changes nothing, and both return nil |
| Manager.ConfigManager.constructor | pkg/config/config.go:100-109 | a fresh store, empty defaults, 10s poll interval, watching off, no provider yet, not closed |
| Manager.ConfigManager.Apply | pkg/config/config.go:533-567 | before a provider is installed, an option assigns its one field and nothing else |
| Manager.ConfigManager.Close | pkg/config/config.go:155-166 | returns nil; the flags make the close step and end closed; nothing else changes |
| Manager.ConfigManager.ReloadProvider | pkg/config/config.go:176 | the installed provider's Load: LocalLoad on the local store and schema, or the remote outcome |
| Manager.ConfigManager.Load | pkg/config/config.go:169-177 | once closed: ErrClosed, nothing changed; otherwise exactly the provider's Load; the manager stays valid, its store still installed for the local provider |
| Manager.ConfigManager.Watch | pkg/config/config.go:257-267 | nil without a watcher, whatever the context; otherwise the watcher's answer |
| Manager.ConfigManager.OnChange | pkg/config/config.go:259-264 | reloads through the provider without the closed check, then notifies, even when the reload failed |
| Manager.ConfigManager.Get | pkg/config/config.go:180-184 | the value the layered store resolves |
| Manager.ConfigManager.IsSet | pkg/config/config.go:243-247 | whether some layer supplies the key |
| Manager.ConfigManager.AllKeys | pkg/config/config.go:270-274 | the keys of the file, default and override layers, nil overrides included |
| Manager.ConfigManager.AllSettings | pkg/config/config.go:277-281 | every listed key whose lookup is not nil, with its resolved value |
| Manager.ConfigManager.GetSchema | pkg/config/config.go:250-254 | the schema object given with WithSchema, which loading decodes into |
| Manager.New | pkg/config/config.go:99-152 | the fields are the options applied in order; remote provider exactly when a descriptor was given; the watcher is SelectWatcher's; a local provider shares the store and schema |

## Findings

| source | as written | input that shows it | evidently intended | confidence | as-written member | corrected member |
|---|---|---|---|---|---|---|
| pkg/config/config.go:295-300 | the loop under "Clear all settings" calls Set(key, nil), which records nil overrides and leaves the file layer; only a successful ReadInConfig replaces it | a load reads a file with server.port 8080, the file is removed, and a reload with the default server.host succeeds with server.port still 8080 | a reload forgets what earlier files supplied | not executed; high | Provider.StalePortAfterFileRemoved | Provider.ClearingLoadResolvesKeys |

The rest of the model keeps the load as written, because that is what a ConfigManager runs:
`LoadResolvesKeys` states its resolution, with the earlier file layer in place when the file is
skipped. `ClearingLoadedStore` is the corrected store, and `ClearingLoadResolvesKeys` proves what
it promises. `ClearingAgreesWhenFileRead` shows the two differ only when no file is read.

## Left out

- Settings.Lookup and Binder.Unmarshal: keys are used as given. Viper lower-cases keys and the decoder matches field names regardless of case; this is not modelled.
- Settings.Lookup: settings are flat dotted keys. Nested maps, and GetStringMap on a key prefix, are not modelled.
- Settings.ToUpper: upper-cases ASCII letters only; strings.ToUpper also maps other Unicode letters.
- Settings.Value has no null. A file key whose value is null is listed by viper's AllKeys while Get returns nil for it; the model can only drop such a key when the file is parsed, so it is missing from AllKeys.
- Library semantics taken as given, written from the libraries' documented behaviour (their code is not part of this model): the validator's rules (Schema.TagHolds, with `numeric` as Schema.IsNumeric), strconv.ParseBool and strconv.FormatInt (Binder.ParseBool, Binder.FormatInt), and mapstructure's weak conversions (Binder.DecodeString, Binder.DecodeInt, Binder.DecodeBool).
- An empty environment variable counts as unset, as in viper's default. AllowEmptyEnv is not modelled.
- The typed getters (GetString, GetInt, GetFloat64, GetBool, GetStringSlice, GetStringMap, GetDuration, GetTime) are left out. Their conversions belong to the store library; Get covers the lookup itself.
- Parsing the file in its format (YAML, JSON, ...) is left out. A parsed file is a map of values, or a read failure with its reason (`ReadOutcome`).
- Binder.ParseInt: underscores between digits, which Go accepts with base 0 ("1_000"), are refused.
- Binder.DecodeInt: Int values are not range-checked against 64 bits.
- Binder.DecodeString, Binder.DecodeInt, Binder.DecodeBool: float values, the duration and string-slice decode hooks are not modelled. A list value fails to decode.
- Provider.RemoteLoad: the outcome only. Not modelled are the goroutine and its 30-second timer, and the fetch itself. Also left out are its effects on the store (config type "json", defaults, prefix) and the decoding and validation of the remote schema, which surface only as a failure reason.
- The watchers' background work is left out: the fsnotify callback, the polling ticker and context cancellation. Only the nil-context check and the wrapped reload callback are modelled.
- The read/write mutex is left out. Everything is sequential, including the callback's reload, which in the code runs without the lock.
- Logging is left out. So are the calls with no effect at config.go:296-297 and the value lookup inside validateConfig's error loop.
- The `url` format is the validator's own grammar. It stays abstract as `Validator.isURL`.
- The non-ValidationErrors path of validateConfig is left out. It cannot happen for an AppConfig schema.
- The logger parameter of New is left out.
- The example program run_config.go is not part of this model. It is process wiring: flags, logger set-up, and blocking forever.
