/**
 * ConfigManager (pkg/config/config.go): construction with functional options, the choice between
 * the local and the remote provider and watcher, the Close/Load lifecycle, Watch with its composed
 * reload callback, and the read-only getters over the shared store.
 */
module Manager {
  import opened Wrappers
  import opened Errors
  import opened Settings
  import opened Schema
  import opened Provider

  /** One second as a time.Duration, in nanoseconds. */
  const Second: int := 1_000_000_000

  /** The poll interval a manager starts with. */
  const DefaultPollInterval: int := 10 * Second

  /** The WithX options; each one assigns a single manager field. */
  datatype ConfigOption =
    | WithWatcher
    | WithRemoteProvider(remote: Option<RemoteProvider>)  // None is a nil *RemoteProvider
    | WithSchema(schema: AppConfigRef?)
    | WithDefaults(defaults: map<Key, Value>)
    | WithEnvPrefix(prefix: string)
    | WithPollInterval(interval: int)

  /** The manager fields the options assign. */
  datatype Options = Options(
    schema: AppConfigRef?,
    defaults: map<Key, Value>,
    envPrefix: string,
    remoteProvider: Option<RemoteProvider>,
    pollInterval: int,
    watchEnabled: bool)

  /** The fields as New initialises them before applying any option. */
  const InitialOptions: Options := Options(null, map[], "", None, DefaultPollInterval, false)

  /** What one option does to the fields. */
  function ApplyOption(o: Options, opt: ConfigOption): Options
  {
    match opt
    case WithWatcher => o.(watchEnabled := true)
    case WithRemoteProvider(rp) => o.(remoteProvider := rp)
    case WithSchema(s) => o.(schema := s)
    case WithDefaults(d) => o.(defaults := d)
    case WithEnvPrefix(prefix) => o.(envPrefix := prefix)
    case WithPollInterval(interval) => o.(pollInterval := interval)
  }

  /** The options applied in order, first to last. */
  function ApplyOptions(o: Options, opts: seq<ConfigOption>): (r: Options)
    ensures (forall j :: 0 <= j < |opts| ==> !opts[j].WithPollInterval?) ==> r.pollInterval == o.pollInterval
    ensures (forall j :: 0 <= j < |opts| ==> !opts[j].WithDefaults?) ==> r.defaults == o.defaults
    ensures (forall j :: 0 <= j < |opts| ==> !opts[j].WithRemoteProvider?) ==> r.remoteProvider == o.remoteProvider
    ensures (forall j :: 0 <= j < |opts| ==> !opts[j].WithSchema?) ==> r.schema == o.schema
    ensures (forall j :: 0 <= j < |opts| ==> !opts[j].WithEnvPrefix?) ==> r.envPrefix == o.envPrefix
    ensures o.watchEnabled ==> r.watchEnabled
    decreases |opts|
  {
    if opts == [] then o else ApplyOption(ApplyOptions(o, opts[..|opts| - 1]), opts[|opts| - 1])
  }

  /** The manager fields, one per kind of option. */
  datatype Field = WatchField | RemoteField | SchemaField | DefaultsField | PrefixField | PollField

  /** The field an option assigns. */
  function Assigns(opt: ConfigOption): Field
  {
    match opt
    case WithWatcher => WatchField
    case WithRemoteProvider(_) => RemoteField
    case WithSchema(_) => SchemaField
    case WithDefaults(_) => DefaultsField
    case WithEnvPrefix(_) => PrefixField
    case WithPollInterval(_) => PollField
  }

  /** The position of the last option in `opts` that assigns field f, if any. */
  function LastSetter(opts: seq<ConfigOption>, f: Field): (r: Option<nat>)
    ensures r.Some? ==> r.value < |opts| && Assigns(opts[r.value]) == f
                        && forall j :: r.value < j < |opts| ==> Assigns(opts[j]) != f
    ensures r.None? ==> forall j :: 0 <= j < |opts| ==> Assigns(opts[j]) != f
    decreases |opts|
  {
    if opts == [] then None
    else if Assigns(opts[|opts| - 1]) == f then Some(|opts| - 1)
    else LastSetter(opts[..|opts| - 1], f)
  }

  /** Appending an option that does not assign f leaves f's last setter where it was. */
  lemma LastSetterSkips(opts: seq<ConfigOption>, f: Field)
    requires opts != [] && Assigns(opts[|opts| - 1]) != f
    ensures LastSetter(opts, f) == LastSetter(opts[..|opts| - 1], f)
    ensures LastSetter(opts, f).Some? ==> opts[LastSetter(opts, f).value] == opts[..|opts| - 1][LastSetter(opts, f).value]
  {
  }

  /** Applying options in order leaves the watch flag, the remote descriptor and the schema with the
      value of the last option that assigns them, and with their earlier value when none does. */
  lemma {:induction false} OptionsLastWinsWatchRemoteSchema(o: Options, opts: seq<ConfigOption>)
    ensures var r := ApplyOptions(o, opts);
      && r.watchEnabled == (o.watchEnabled || LastSetter(opts, WatchField).Some?)
      && r.remoteProvider == (if LastSetter(opts, RemoteField).Some? then opts[LastSetter(opts, RemoteField).value].remote else o.remoteProvider)
      && r.schema == (if LastSetter(opts, SchemaField).Some? then opts[LastSetter(opts, SchemaField).value].schema else o.schema)
    decreases |opts|
  {
    if opts != [] {
      var front, last := opts[..|opts| - 1], opts[|opts| - 1];
      OptionsLastWinsWatchRemoteSchema(o, front);
      if last.WithWatcher? {
        LastSetterSkips(opts, RemoteField);
        LastSetterSkips(opts, SchemaField);
      } else if last.WithRemoteProvider? {
        LastSetterSkips(opts, WatchField);
        LastSetterSkips(opts, SchemaField);
      } else if last.WithSchema? {
        LastSetterSkips(opts, WatchField);
        LastSetterSkips(opts, RemoteField);
      } else {
        LastSetterSkips(opts, WatchField);
        LastSetterSkips(opts, RemoteField);
        LastSetterSkips(opts, SchemaField);
      }
    }
  }

  /** Applying options in order leaves the defaults, the environment prefix and the poll interval with
      the value of the last option that assigns them, and with their earlier value when none does. */
  lemma {:induction false} OptionsLastWinsDefaultsPrefixPoll(o: Options, opts: seq<ConfigOption>)
    ensures var r := ApplyOptions(o, opts);
      && r.defaults == (if LastSetter(opts, DefaultsField).Some? then opts[LastSetter(opts, DefaultsField).value].defaults else o.defaults)
      && r.envPrefix == (if LastSetter(opts, PrefixField).Some? then opts[LastSetter(opts, PrefixField).value].prefix else o.envPrefix)
      && r.pollInterval == (if LastSetter(opts, PollField).Some? then opts[LastSetter(opts, PollField).value].interval else o.pollInterval)
    decreases |opts|
  {
    if opts != [] {
      var front, last := opts[..|opts| - 1], opts[|opts| - 1];
      OptionsLastWinsDefaultsPrefixPoll(o, front);
      if last.WithDefaults? {
        LastSetterSkips(opts, PrefixField);
        LastSetterSkips(opts, PollField);
      } else if last.WithEnvPrefix? {
        LastSetterSkips(opts, DefaultsField);
        LastSetterSkips(opts, PollField);
      } else if last.WithPollInterval? {
        LastSetterSkips(opts, DefaultsField);
        LastSetterSkips(opts, PrefixField);
      } else {
        LastSetterSkips(opts, DefaultsField);
        LastSetterSkips(opts, PrefixField);
        LastSetterSkips(opts, PollField);
      }
    }
  }

  /** Without a WithPollInterval or WithDefaults option the poll interval is ten seconds and the
      defaults are empty. */
  lemma InitialValuesKept(opts: seq<ConfigOption>)
    requires forall j :: 0 <= j < |opts| ==> !opts[j].WithPollInterval? && !opts[j].WithDefaults?
    ensures ApplyOptions(InitialOptions, opts).pollInterval == 10 * Second
    ensures ApplyOptions(InitialOptions, opts).defaults == map[]
  {
    OptionsLastWinsDefaultsPrefixPoll(InitialOptions, opts);
  }

  /** The two watchers. */
  datatype Watcher =
    | LocalConfigWatcher
    | RemoteConfigWatcher(pollInterval: int, provider: RemoteProvider)

  /** The watcher New installs: the local watcher whenever there is no remote descriptor, whatever
      WithWatcher says; with a remote descriptor, the remote watcher only when watching is enabled. */
  function SelectWatcher(o: Options): (w: Option<Watcher>)
    ensures o.remoteProvider.None? ==> w == Some(LocalConfigWatcher)
    ensures o.remoteProvider.Some? ==> (w.Some? <==> o.watchEnabled)
    ensures w.Some? && w.value.RemoteConfigWatcher? ==>
      o.remoteProvider.Some? && w.value == RemoteConfigWatcher(o.pollInterval, o.remoteProvider.value)
  {
    if o.remoteProvider.Some? then
      if o.watchEnabled then Some(RemoteConfigWatcher(o.pollInterval, o.remoteProvider.value)) else None
    else Some(LocalConfigWatcher)
  }

  /** A non-nil context; only whether the context is nil matters to the model. */
  datatype Context = Context

  /** Watch on either watcher: a nil context is refused; otherwise the background watching starts. */
  function WatcherWatch(w: Watcher, ctx: Option<Context>): (err: Option<Error>)
    ensures err.Some? <==> ctx.None?
    ensures err.Some? ==> err.value == NilContext && Message(err.value) == Some("context cannot be nil")
  {
    if ctx.None? then Some(NilContext) else None
  }

  /** The lifecycle flags: whether the manager is closed and whether its `done` channel is closed. */
  datatype Lifecycle = Lifecycle(closed: bool, doneClosed: bool)

  /** The two flags agree, as they do from construction on. */
  predicate Consistent(l: Lifecycle)
  {
    l.closed == l.doneClosed
  }

  /** Close: nothing once closed; otherwise mark closed and close `done`. None is the panic that closing
      an already closed channel raises. */
  function CloseStep(l: Lifecycle): (next: Option<Lifecycle>)
    ensures next.None? <==> !l.closed && l.doneClosed
    ensures next.Some? ==> next.value.closed && (l.closed ==> next.value == l)
    ensures Consistent(l) ==> next == Some(Lifecycle(true, true))
  {
    if l.closed then Some(l)
    else if l.doneClosed then None
    else Some(Lifecycle(true, true))
  }

  /** The calls the lifecycle distinguishes. */
  datatype Call = CloseCall | LoadCall

  /** What a call gives back: an error or nil, or (for Load) the provider's answer. */
  datatype Response = Returned(err: Option<Error>) | Delegated

  /** Close always returns nil; Load returns ErrClosed once closed and otherwise hands over. */
  function Respond(l: Lifecycle, c: Call): Response
  {
    match c
    case CloseCall => Returned(None)
    case LoadCall => if l.closed then Returned(Some(Closed)) else Delegated
  }

  /** Runs a sequence of calls; None when some call panics. */
  function Run(l: Lifecycle, calls: seq<Call>): (r: Option<(Lifecycle, seq<Response>)>)
    ensures r.Some? ==> |r.value.1| == |calls|
    ensures r.Some? && l.closed ==> r.value.0 == l
    ensures r.Some? && CloseCall in calls ==> r.value.0.closed
    decreases |calls|
  {
    if calls == [] then Some((l, []))
    else
      var next := if calls[0] == CloseCall then CloseStep(l) else Some(l);
      if next.None? then None
      else
        match Run(next.value, calls[1..])
        case None => None
        case Some(rest) => Some((rest.0, [Respond(l, calls[0])] + rest.1))
  }

  /** From consistent flags no sequence of calls panics, every call gets an answer, the flags stay
      consistent and `closed` never goes back to false. */
  lemma {:induction false} RunNeverPanics(l: Lifecycle, calls: seq<Call>)
    requires Consistent(l)
    ensures Run(l, calls).Some?
    ensures |Run(l, calls).value.1| == |calls|
    ensures Consistent(Run(l, calls).value.0)
    ensures l.closed ==> Run(l, calls).value.0.closed
    ensures CloseCall in calls ==> Run(l, calls).value.0.closed
    decreases |calls|
  {
    if calls != [] {
      var next := if calls[0] == CloseCall then CloseStep(l).value else l;
      RunNeverPanics(next, calls[1..]);
      if CloseCall in calls && calls[0] != CloseCall {
        assert CloseCall in calls[1..];
      }
    }
  }

  /** Once Close has been called, every later Load returns ErrClosed without reaching the provider,
      and every Close returns nil. */
  lemma {:induction false} LoadRefusedAfterClose(l: Lifecycle, calls: seq<Call>, i: nat, j: nat)
    requires Consistent(l)
    requires i < j < |calls| && calls[i] == CloseCall
    ensures Run(l, calls).Some? && |Run(l, calls).value.1| == |calls|
    ensures calls[j] == LoadCall ==> Run(l, calls).value.1[j] == Returned(Some(Closed))
    ensures calls[j] == CloseCall ==> Run(l, calls).value.1[j] == Returned(None)
    decreases |calls|
  {
    RunNeverPanics(l, calls);
    var next := if calls[0] == CloseCall then CloseStep(l).value else l;
    RunNeverPanics(next, calls[1..]);
    if i == 0 {
      ClosedStaysClosed(next, calls[1..], j - 1);
    } else {
      LoadRefusedAfterClose(next, calls[1..], i - 1, j - 1);
    }
  }

  /** From a closed manager, every Load is refused and every Close returns nil. */
  lemma {:induction false} ClosedStaysClosed(l: Lifecycle, calls: seq<Call>, j: nat)
    requires Consistent(l) && l.closed
    requires j < |calls|
    ensures Run(l, calls).Some? && |Run(l, calls).value.1| == |calls|
    ensures Run(l, calls).value.1[j] == (if calls[j] == LoadCall then Returned(Some(Closed)) else Returned(None))
    decreases |calls|
  {
    RunNeverPanics(l, calls);
    if j > 0 {
      ClosedStaysClosed(l, calls[1..], j - 1);
    }
  }

  /** Close is idempotent: a second Close changes nothing, and neither panics. */
  lemma CloseIdempotent(l: Lifecycle)
    requires Consistent(l)
    ensures CloseStep(l).Some? && CloseStep(l).value.closed
    ensures CloseStep(CloseStep(l).value) == CloseStep(l)
    ensures Run(l, [CloseCall, CloseCall]) == Some((CloseStep(l).value, [Returned(None), Returned(None)]))
  {
    var once := CloseStep(l).value;
    var one: seq<Call> := [CloseCall];
    var two: seq<Call> := [CloseCall, CloseCall];
    assert one[0] == CloseCall && one[1..] == [];
    assert two[0] == CloseCall && two[1..] == one;
    assert CloseStep(once) == Some(once);
    assert Run(once, one) == Some((once, [Returned(None)] + []));
    assert [Returned(None)] + [] == [Returned(None)];
    assert Run(l, two) == Some((once, [Respond(l, CloseCall)] + [Returned(None)]));
    assert [Returned(None)] + [Returned(None)] == [Returned(None), Returned(None)];
  }

  /** The provider New installs. */
  datatype ActiveProvider = Local(local: LocalConfigProvider) | Remote(remote: RemoteConfigProvider)

  /** The file system, the environment and the remote race a reload meets. */
  datatype World = World(file: FileState, env: Environment, race: RemoteRace)

  /** What the composed watch callback does, in order. */
  datatype CallbackEvent = Reloaded(err: Option<Error>) | Notified

  class ConfigManager {
    const store: Store
    const path: string
    const validate: Validator
    var provider: Option<ActiveProvider>
    var watcher: Option<Watcher>
    var schema: AppConfigRef?
    var defaults: map<Key, Value>
    var envPrefix: string
    var remoteProvider: Option<RemoteProvider>
    var pollInterval: int
    var watchEnabled: bool
    var closed: bool
    var doneClosed: bool

    function CurrentOptions(): Options
      reads this
    {
      Options(schema, defaults, envPrefix, remoteProvider, pollInterval, watchEnabled)
    }

    function Flags(): Lifecycle
      reads this
    {
      Lifecycle(closed, doneClosed)
    }

    /** A constructed manager: the flags agree, a provider is installed, and it was built from the
        manager's own options: a local provider shares the manager's store and schema object and
        holds its path, defaults, prefix and validator, and the store stays installed for it. */
    ghost predicate Valid()
      reads this, store
    {
      && Consistent(Flags())
      && provider.Some?
      && (provider.value.Local? ==>
            && provider.value.local.store == store
            && provider.value.local.schema == schema
            && provider.value.local.Params() == LocalParams(path, defaults, envPrefix, Some(validate))
            && Installed(provider.value.local.Params(), store.State()))
      && (provider.value.Remote? ==>
            && remoteProvider.Some?
            && provider.value.remote == RemoteConfigProvider(remoteProvider.value, defaults, envPrefix, Some(validate), schema))
    }

    /** What a reload may change: a local provider's store and schema object. */
    function LoadFrame(): set<object>
      reads this
    {
      if provider.Some? && provider.value.Local? then provider.value.local.Repr() else {}
    }

    /** The struct literal at the start of New. */
    constructor (path: string, validate: Validator)
      ensures fresh(store) && store.State() == EmptyState
      ensures this.path == path && this.validate == validate
      ensures CurrentOptions() == InitialOptions
      ensures provider.None? && watcher.None?
      ensures Flags() == Lifecycle(false, false)
    {
      store := new Store();
      this.path := path;
      this.validate := validate;
      provider, watcher := None, None;
      schema, defaults, envPrefix, remoteProvider := null, map[], "", None;
      pollInterval, watchEnabled := DefaultPollInterval, false;
      closed, doneClosed := false, false;
    }

    /** opt(cm), as New applies it before any provider exists. */
    method Apply(opt: ConfigOption)
      requires provider.None?
      modifies this
      ensures CurrentOptions() == ApplyOption(old(CurrentOptions()), opt)
      ensures provider == old(provider) && watcher == old(watcher) && Flags() == old(Flags())
    {
      match opt {
        case WithWatcher => watchEnabled := true;
        case WithRemoteProvider(rp) => remoteProvider := rp;
        case WithSchema(s) => schema := s;
        case WithDefaults(d) => defaults := d;
        case WithEnvPrefix(prefix) => envPrefix := prefix;
        case WithPollInterval(interval) => pollInterval := interval;
      }
    }

    /** Close: idempotent, always nil. */
    method Close() returns (err: Option<Error>)
      requires Valid()
      modifies this
      ensures Valid()
      ensures err.None?
      ensures CloseStep(old(Flags())) == Some(Flags())
      ensures closed
      ensures CurrentOptions() == old(CurrentOptions()) && provider == old(provider) && watcher == old(watcher)
    {
      if closed {
        return None;
      }
      closed := true;
      doneClosed := true;
      return None;
    }

    /** The provider's Load. */
    method ReloadProvider(world: World) returns (err: Option<Error>)
      requires Valid()
      modifies LoadFrame()
      ensures Valid()
      ensures provider.value.Remote? ==> err == RemoteLoad(provider.value.remote, world.race)
      ensures provider.value.Local? ==>
        var lp := provider.value.local;
        var r := LocalLoad(lp.Params(), old(lp.store.State()), old(lp.SchemaValue()), world.file, world.env);
        lp.store.State() == r.store && lp.SchemaValue() == r.schema && err == r.err
    {
      match provider.value {
        case Local(lp) =>
          LoadKeepsInstalled(lp.Params(), lp.store.State(), lp.SchemaValue(), world.file, world.env);
          err := lp.Load(world.file, world.env);
        case Remote(rp) =>
          err := RemoteLoad(rp, world.race);
      }
    }

    /** Load: ErrClosed once closed, without reaching the provider; otherwise the provider's Load. */
    method Load(world: World) returns (err: Option<Error>)
      requires Valid()
      modifies LoadFrame()
      ensures Valid()
      ensures closed ==> err == Some(Closed) && unchanged(LoadFrame())
      ensures !closed && provider.value.Remote? ==> err == RemoteLoad(provider.value.remote, world.race)
      ensures !closed && provider.value.Local? ==>
        var lp := provider.value.local;
        var r := LocalLoad(lp.Params(), old(lp.store.State()), old(lp.SchemaValue()), world.file, world.env);
        lp.store.State() == r.store && lp.SchemaValue() == r.schema && err == r.err
    {
      if closed {
        return Some(Closed);
      }
      err := ReloadProvider(world);
    }

    /** Watch: nil when no watcher is installed (whatever the context); otherwise the watcher's answer,
        which refuses a nil context. */
    method Watch(ctx: Option<Context>) returns (err: Option<Error>)
      ensures watcher.None? ==> err.None?
      ensures watcher.Some? ==> err == WatcherWatch(watcher.value, ctx)
    {
      if watcher.Some? {
        return WatcherWatch(watcher.value, ctx);
      }
      return None;
    }

    /** The callback Watch hands to the watcher: reload through the provider, without the closed check,
        drop the reload error, then call the caller's onChange, which runs even when the reload
        failed. */
    method OnChange(world: World) returns (trace: seq<CallbackEvent>)
      requires Valid()
      modifies LoadFrame()
      ensures Valid()
      ensures |trace| == 2 && trace[0].Reloaded? && trace[1] == Notified
      ensures provider.value.Remote? ==> trace[0].err == RemoteLoad(provider.value.remote, world.race)
      ensures provider.value.Local? ==>
        var lp := provider.value.local;
        var r := LocalLoad(lp.Params(), old(lp.store.State()), old(lp.SchemaValue()), world.file, world.env);
        lp.store.State() == r.store && lp.SchemaValue() == r.schema && trace[0].err == r.err
    {
      var err := ReloadProvider(world);
      trace := [Reloaded(err), Notified];
    }

    /** Get: the value the layered store resolves, None for nil. */
    method Get(key: Key, env: Environment) returns (v: Option<Value>)
      ensures v == Lookup(store.State(), key, env)
    {
      v := Lookup(store.State(), key, env);
    }

    method IsSet(key: Key, env: Environment) returns (b: bool)
      ensures b == Settings.IsSet(store.State(), key, env)
    {
      b := Settings.IsSet(store.State(), key, env);
    }

    method AllKeys() returns (keys: set<Key>)
      ensures keys == Settings.AllKeys(store.State())
    {
      keys := Settings.AllKeys(store.State());
    }

    method AllSettings(env: Environment) returns (m: map<Key, Value>)
      ensures m == Settings.AllSettings(store.State(), env)
    {
      m := Settings.AllSettings(store.State(), env);
    }

    /** GetSchema: the schema object given with WithSchema, which loading decodes into. */
    method GetSchema() returns (s: AppConfigRef?)
      ensures s == schema
    {
      s := schema;
    }
  }

  /** New: apply the options in order, then install the provider and the watcher they select. */
  method New(path: string, validate: Validator, opts: seq<ConfigOption>) returns (cm: ConfigManager)
    ensures fresh(cm) && fresh(cm.store)
    ensures cm.Valid() && !cm.closed
    ensures cm.store.State() == EmptyState
    ensures cm.path == path && cm.validate == validate
    ensures cm.CurrentOptions() == ApplyOptions(InitialOptions, opts)
    ensures cm.watcher == SelectWatcher(cm.CurrentOptions())
    ensures cm.provider.value.Remote? <==> cm.remoteProvider.Some?
    ensures cm.remoteProvider.Some? ==>
      cm.provider.value.remote == RemoteConfigProvider(cm.remoteProvider.value, cm.defaults, cm.envPrefix, Some(validate), cm.schema)
    ensures cm.remoteProvider.None? ==>
      var lp := cm.provider.value.local;
      && fresh(lp)
      && lp.schema == cm.schema
      && lp.Params() == LocalParams(path, cm.defaults, cm.envPrefix, Some(validate))
  {
    cm := new ConfigManager(path, validate);
    var i := 0;
    while i < |opts|
      invariant 0 <= i <= |opts|
      invariant fresh(cm) && fresh(cm.store) && cm.store.State() == EmptyState
      invariant cm.path == path && cm.validate == validate
      invariant cm.provider.None? && cm.watcher.None? && cm.Flags() == Lifecycle(false, false)
      invariant cm.CurrentOptions() == ApplyOptions(InitialOptions, opts[..i])
    {
      cm.Apply(opts[i]);
      assert opts[..i + 1][..i] == opts[..i];
      i := i + 1;
    }
    assert opts[..i] == opts;

    if cm.remoteProvider.Some? {
      cm.provider := Some(Remote(RemoteConfigProvider(cm.remoteProvider.value, cm.defaults, cm.envPrefix, Some(cm.validate), cm.schema)));
      if cm.watchEnabled {
        cm.watcher := Some(RemoteConfigWatcher(cm.pollInterval, cm.remoteProvider.value));
      }
    } else {
      var lp := new LocalConfigProvider(cm.store, cm.path, cm.defaults, cm.envPrefix, Some(cm.validate), cm.schema);
      cm.provider := Some(Local(lp));
      cm.watcher := Some(LocalConfigWatcher);
      FreshStoreInstalled(lp.Params());
    }
  }
}
