/**
 * The settings store a ConfigManager owns (a viper instance in the Go code), reduced to what the
 * package relies on: three layers looked up in a fixed order (environment, configuration file,
 * defaults), the environment-name mapping, and the setters LocalConfigProvider.Load calls.
 */
module Settings {
  import opened Wrappers

  /** A dotted hierarchical key such as "server.port". */
  type Key = string

  /** A dynamically typed setting, as a decoded configuration file or the environment supplies it. */
  datatype Value = Str(s: string) | Int(i: int) | Bool(b: bool) | List(items: seq<string>)

  /** The process environment: variable name to value. */
  type Environment = map<string, string>

  /** Everything the store holds. */
  datatype StoreState = StoreState(
    config: map<Key, Value>,    // the layer ReadInConfig fills from the configuration file
    defaults: map<Key, Value>,  // the layer SetDefault fills
    envPrefix: string,          // SetEnvPrefix
    envKeyReplacer: bool,       // SetEnvKeyReplacer(strings.NewReplacer(".", "_"))
    automaticEnv: bool,         // AutomaticEnv: lookups consult the environment first
    configType: string,         // SetConfigType
    configFile: string,         // SetConfigFile
    overrides: set<Key>)        // the keys Set(key, nil) recorded in the override layer

  /** A freshly created store. */
  const EmptyState: StoreState := StoreState(map[], map[], "", false, false, "", "", {})

  /** strings.ToUpper on ASCII letters. */
  function UpperChar(c: char): (u: char)
    ensures !('a' <= u <= 'z')
    ensures 'a' <= c <= 'z' ==> u as int == c as int - 32
    ensures !('a' <= c <= 'z') ==> u == c
  {
    if 'a' <= c <= 'z' then (c as int - 'a' as int + 'A' as int) as char else c
  }

  function ToUpper(s: string): (u: string)
    ensures |u| == |s|
    ensures forall i :: 0 <= i < |s| ==> u[i] == UpperChar(s[i])
  {
    seq(|s|, i requires 0 <= i < |s| => UpperChar(s[i]))
  }

  /** strings.NewReplacer(".", "_") applied to s. */
  function ReplaceDots(s: string): (r: string)
    ensures |r| == |s|
    ensures forall i :: 0 <= i < |s| ==> r[i] == if s[i] == '.' then '_' else s[i]
  {
    seq(|s|, i requires 0 <= i < |s| => if s[i] == '.' then '_' else s[i])
  }

  /** What one character of the prefix or the key becomes in the variable name. */
  function EnvChar(st: StoreState, c: char): char
  {
    if st.envKeyReplacer && c == '.' then '_' else UpperChar(c)
  }

  /** The environment variable that overrides `key`: prefix and key joined by "_", upper-cased,
      then (when the replacer is installed) every "." turned into "_". */
  function EnvName(st: StoreState, key: Key): (name: string)
    ensures |name| == if st.envPrefix != "" then |st.envPrefix| + 1 + |key| else |key|
    ensures forall i :: 0 <= i < |name| ==> !('a' <= name[i] <= 'z')
    ensures st.envKeyReplacer ==> forall i :: 0 <= i < |name| ==> name[i] != '.'
    ensures st.envPrefix != "" ==> name[|st.envPrefix|] == '_'
    ensures st.envPrefix != "" ==> forall i :: 0 <= i < |st.envPrefix| ==> name[i] == EnvChar(st, st.envPrefix[i])
    ensures forall i {:trigger EnvChar(st, key[i])} :: 0 <= i < |key| ==> name[|name| - |key| + i] == EnvChar(st, key[i])
  {
    var merged := if st.envPrefix != "" then ToUpper(st.envPrefix + "_" + key) else ToUpper(key);
    if st.envKeyReplacer then ReplaceDots(merged) else merged
  }

  /** Reference for EnvName, one character at a time from the front. */
  function EnvMapped(st: StoreState, s: string): string
    decreases |s|
  {
    if s == [] then [] else [EnvChar(st, s[0])] + EnvMapped(st, s[1..])
  }

  lemma {:induction false} EnvMappedAt(st: StoreState, s: string)
    ensures |EnvMapped(st, s)| == |s|
    ensures forall i :: 0 <= i < |s| ==> EnvMapped(st, s)[i] == EnvChar(st, s[i])
    decreases |s|
  {
    if s != [] {
      EnvMappedAt(st, s[1..]);
      forall i | 0 <= i < |s|
        ensures EnvMapped(st, s)[i] == EnvChar(st, s[i])
      {
        if i > 0 {
          assert EnvMapped(st, s)[i] == EnvMapped(st, s[1..])[i - 1];
        }
      }
    }
  }

  /** Any string laid out as EnvName's contract says is the mapped prefix, "_" and the mapped key. */
  lemma {:induction false} LaidOutIsMapped(st: StoreState, key: Key, name: string)
    requires |name| == if st.envPrefix != "" then |st.envPrefix| + 1 + |key| else |key|
    requires st.envPrefix != "" ==> name[|st.envPrefix|] == '_'
    requires st.envPrefix != "" ==> forall i :: 0 <= i < |st.envPrefix| ==> name[i] == EnvChar(st, st.envPrefix[i])
    requires forall i {:trigger EnvChar(st, key[i])} :: 0 <= i < |key| ==> name[|name| - |key| + i] == EnvChar(st, key[i])
    ensures name == (if st.envPrefix != "" then EnvMapped(st, st.envPrefix) + "_" else "") + EnvMapped(st, key)
  {
    EnvMappedAt(st, st.envPrefix);
    EnvMappedAt(st, key);
    var head := if st.envPrefix != "" then EnvMapped(st, st.envPrefix) + "_" else "";
    var whole := head + EnvMapped(st, key);
    forall i | 0 <= i < |name|
      ensures name[i] == whole[i]
    {
      if i >= |head| {
        var j := i - |head|;
        assert name[|name| - |key| + j] == EnvChar(st, key[j]);
      } else if i < |st.envPrefix| {
        assert head[i] == EnvMapped(st, st.envPrefix)[i];
      }
    }
  }

  /** The variable name is the mapped prefix and "_" (when there is a prefix) followed by the mapped key. */
  lemma EnvNameIsMapped(st: StoreState, key: Key)
    ensures EnvName(st, key) == (if st.envPrefix != "" then EnvMapped(st, st.envPrefix) + "_" else "") + EnvMapped(st, key)
  {
    LaidOutIsMapped(st, key, EnvName(st, key));
  }

  /** The environment variable overriding `key` when AutomaticEnv is on; an empty variable counts as unset. */
  function EnvValue(st: StoreState, key: Key, env: Environment): Option<string>
  {
    var name := EnvName(st, key);
    if st.automaticEnv && name in env && env[name] != "" then Some(env[name]) else None
  }

  /** Get: the environment (when enabled) beats the file, which beats the defaults. A nil override
      is skipped, so the override layer never supplies a value. */
  function Lookup(st: StoreState, key: Key, env: Environment): (v: Option<Value>)
    ensures v.Some? <==> EnvValue(st, key, env).Some? || key in st.config || key in st.defaults
    ensures EnvValue(st, key, env).Some? ==> v == Some(Str(EnvValue(st, key, env).value))
    ensures EnvValue(st, key, env).None? && key in st.config ==> v == Some(st.config[key])
    ensures EnvValue(st, key, env).None? && key !in st.config && key in st.defaults ==> v == Some(st.defaults[key])
  {
    if EnvValue(st, key, env).Some? then Some(Str(EnvValue(st, key, env).value))
    else if key in st.config then Some(st.config[key])
    else if key in st.defaults then Some(st.defaults[key])
    else None
  }

  /** IsSet: some layer supplies a value for the key. */
  predicate IsSet(st: StoreState, key: Key, env: Environment)
  {
    Lookup(st, key, env).Some?
  }

  /** Recording nil overrides changes no lookup. */
  lemma NilOverridesInvisible(st: StoreState, keys: set<Key>, key: Key, env: Environment)
    ensures Lookup(st.(overrides := st.overrides + keys), key, env) == Lookup(st, key, env)
  {
  }

  /** AllKeys: the keys held by the file, default and override layers, nil overrides included (the
      environment is only consulted). */
  function AllKeys(st: StoreState): set<Key>
  {
    st.config.Keys + st.defaults.Keys + st.overrides
  }

  /** AllSettings, flattened: every key AllKeys lists whose lookup is not nil, with that value. */
  function AllSettings(st: StoreState, env: Environment): (m: map<Key, Value>)
    ensures m.Keys <= AllKeys(st)
    ensures st.config.Keys + st.defaults.Keys <= m.Keys
    ensures forall k :: k in AllKeys(st) ==> (k in m <==> IsSet(st, k, env))
    ensures forall k :: k in m ==> Lookup(st, k, env) == Some(m[k])
  {
    map k | k in AllKeys(st) && IsSet(st, k, env) :: Lookup(st, k, env).value
  }

  /** The store object; the manager and its provider share one. */
  class Store {
    var config: map<Key, Value>
    var defaults: map<Key, Value>
    var envPrefix: string
    var envKeyReplacer: bool
    var automaticEnv: bool
    var configType: string
    var configFile: string
    var overrides: set<Key>

    function State(): StoreState
      reads this
    {
      StoreState(config, defaults, envPrefix, envKeyReplacer, automaticEnv, configType, configFile, overrides)
    }

    /** viper.New() */
    constructor ()
      ensures State() == EmptyState
    {
      config, defaults := map[], map[];
      envPrefix, envKeyReplacer, automaticEnv := "", false, false;
      configType, configFile := "", "";
      overrides := {};
    }

    /** Set(key, nil): a nil entry in the override layer. The file and default layers keep the key,
        and lookups skip the nil (NilOverridesInvisible); AllKeys goes on listing the key. */
    method SetNil(key: Key)
      modifies this
      ensures State() == old(State()).(overrides := old(overrides) + {key})
    {
      overrides := overrides + {key};
    }

    method SetDefault(key: Key, value: Value)
      modifies this
      ensures State() == old(State()).(defaults := old(defaults)[key := value])
    {
      defaults := defaults[key := value];
    }

    method SetEnvPrefix(prefix: string)
      modifies this
      ensures State() == old(State()).(envPrefix := prefix)
    {
      envPrefix := prefix;
    }

    /** SetEnvKeyReplacer(strings.NewReplacer(".", "_")) */
    method SetEnvKeyReplacer()
      modifies this
      ensures State() == old(State()).(envKeyReplacer := true)
    {
      envKeyReplacer := true;
    }

    method AutomaticEnv()
      modifies this
      ensures State() == old(State()).(automaticEnv := true)
    {
      automaticEnv := true;
    }

    /** An empty type is ignored and the earlier one kept. */
    method SetConfigType(configType: string)
      modifies this
      ensures State() == old(State()).(configType := if configType != "" then configType else old(this.configType))
    {
      if configType != "" {
        this.configType := configType;
      }
    }

    method SetConfigFile(path: string)
      modifies this
      ensures State() == old(State()).(configFile := path)
    {
      configFile := path;
    }

    /** ReadInConfig after the file was parsed into `values`: the file layer is replaced as a whole. */
    method ReadInConfig(values: map<Key, Value>)
      modifies this
      ensures State() == old(State()).(config := values)
    {
      config := values;
    }
  }
}
