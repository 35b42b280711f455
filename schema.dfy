/**
 * The application schema of pkg/config/schema.go and the field validation that
 * go-playground/validator performs on it, under the package's first-error policy.
 */
module Schema {
  import opened Wrappers

  datatype ServerSection = ServerSection(
    port: string, readTimeout: string, writeTimeout: string, idleTimeout: string, shutdownTimeout: string)

  datatype CrawlerSection = CrawlerSection(
    maxDepth: int, userAgent: string, async: bool, timeout: string, numWorkers: int)

  /** `storeType` is the Go field `Type`. */
  datatype CheckpointSection = CheckpointSection(enabled: bool, storeType: string, filePath: string)

  datatype LoggingSection = LoggingSection(level: string, output: string)

  datatype ElasticsearchSection = ElasticsearchSection(
    endpoint: string, index: string, timeout: string, retryLimit: int)

  datatype StorageSection = StorageSection(elasticsearch: ElasticsearchSection)

  datatype RedisSection = RedisSection(
    endpoint: string, db: int, password: string, queueKey: string, visitedKey: string, retryLimit: int)

  datatype MetricsSection = MetricsSection(host: string, port: int)

  datatype AppConfig = AppConfig(
    server: ServerSection,
    crawler: CrawlerSection,
    checkpoint: CheckpointSection,
    logging: LoggingSection,
    storage: StorageSection,
    redis: RedisSection,
    metrics: MetricsSection)

  /** `&AppConfig{}`: every field at its zero value. */
  const ZeroConfig: AppConfig := AppConfig(
    ServerSection("", "", "", "", ""),
    CrawlerSection(0, "", false, "", 0),
    CheckpointSection(false, "", ""),
    LoggingSection("", ""),
    StorageSection(ElasticsearchSection("", "", "", 0)),
    RedisSection("", 0, "", "", "", 0),
    MetricsSection("", 0))

  /** A caller-owned schema object (`schema := &AppConfig{}`), which loading decodes into. */
  class AppConfigRef {
    var value: AppConfig

    constructor (initial: AppConfig)
      ensures value == initial
    {
      value := initial;
    }
  }

  /** A validator instance; the `url` format is the library's own grammar and stays abstract. */
  datatype Validator = Validator(isURL: string -> bool)

  /** The validation rules the struct tags use. */
  datatype Tag = Required | Numeric | EndsWith(suffix: string) | OneOf(words: seq<string>) | Url | Min(bound: int) | Max(bound: int)

  /** The value of a tagged field: AppConfig's tagged fields are strings or ints. */
  datatype FieldValue = Text(s: string) | Number(n: int)

  /** A tagged field, its namespace as the validator reports it, and its rule chain. */
  datatype TaggedField = TaggedField(namespace: string, value: FieldValue, tags: seq<Tag>)

  /** The field and rule a validation failure reports. */
  datatype FieldError = FieldError(namespace: string, tag: string)

  /** The rule names a failure can report. */
  const RuleNames: set<string> := {"required", "numeric", "endswith", "oneof", "url", "min", "max"}

  /** The rule name a failure reports (the tag without its parameter). */
  function TagName(t: Tag): (name: string)
    ensures name in RuleNames
  {
    match t
    case Required => "required"
    case Numeric => "numeric"
    case EndsWith(_) => "endswith"
    case OneOf(_) => "oneof"
    case Url => "url"
    case Min(_) => "min"
    case Max(_) => "max"
  }

  predicate IsDigit(c: char)
  {
    '0' <= c <= '9'
  }

  predicate AllDigits(s: string)
  {
    forall i :: 0 <= i < |s| ==> IsDigit(s[i])
  }

  /** What may follow the first digit of a number: more digits, or "." and at least one digit to the end. */
  predicate DigitsThenFraction(t: string)
    decreases |t|
  {
    t == "" || (IsDigit(t[0]) && DigitsThenFraction(t[1..])) || (t[0] == '.' && |t| > 1 && AllDigits(t[1..]))
  }

  /** The validator's `numeric` rule on strings: ^[-+]?[0-9]+(?:\.[0-9]+)?$ */
  predicate IsNumeric(s: string)
  {
    var unsigned := if |s| > 0 && (s[0] == '-' || s[0] == '+') then s[1..] else s;
    |unsigned| > 0 && IsDigit(unsigned[0]) && DigitsThenFraction(unsigned[1..])
  }

  /** The `numeric` rule on sample strings: an optional sign, digits, and an optional fraction with
      digits on both sides of the point. */
  lemma NumericExamples()
    ensures IsNumeric("8080") && IsNumeric("-12") && IsNumeric("+3.25")
    ensures !IsNumeric("") && !IsNumeric("-") && !IsNumeric("1.") && !IsNumeric(".5")
    ensures !IsNumeric("1.2.3") && !IsNumeric("80a")
  {
    assert DigitsThenFraction("080") by { assert "080"[1..] == "80" && "80"[1..] == "0" && "0"[1..] == ""; }
    assert "-12"[1..] == "12" && "12"[1..] == "2" && DigitsThenFraction("2") by { assert "2"[1..] == ""; }
    assert "+3.25"[1..] == "3.25" && "3.25"[1..] == ".25" && ".25"[1..] == "25";
    assert !DigitsThenFraction(".") ;
    assert "1."[1..] == ".";
    assert !DigitsThenFraction(".2.3") by { assert !AllDigits(".2.3"[1..]) by { assert ".2.3"[1..][1] == '.'; } }
    assert "1.2.3"[1..] == ".2.3";
    assert !DigitsThenFraction("0a") by {
      assert "0a"[1..] == "a";
      assert !DigitsThenFraction("a");
    }
    assert "80a"[1..] == "0a";
  }

  /** Whether one rule accepts a value. `numeric`, `endswith`, `oneof` and `url` stand only on string
      fields in AppConfig, `min` and `max` only on an int field. */
  predicate TagHolds(v: FieldValue, t: Tag, isURL: string -> bool)
  {
    match t
    case Required => v != Text("") && v != Number(0)
    case Numeric => v.Text? && IsNumeric(v.s)
    case EndsWith(suffix) => v.Text? && |suffix| <= |v.s| && v.s[|v.s| - |suffix|..] == suffix
    case OneOf(words) => v.Text? && v.s in words
    case Url => v.Text? && isURL(v.s)
    case Min(bound) => v.Number? && v.n >= bound
    case Max(bound) => v.Number? && v.n <= bound
  }

  /** The validator stops at the first rule of a field's chain that fails. */
  function FirstFailingTag(v: FieldValue, tags: seq<Tag>, isURL: string -> bool): (r: Option<Tag>)
    ensures r.Some? ==> r.value in tags && !TagHolds(v, r.value, isURL)
    decreases |tags|
  {
    if tags == [] then None
    else if !TagHolds(v, tags[0], isURL) then Some(tags[0])
    else FirstFailingTag(v, tags[1..], isURL)
  }

  /** The first failing field in declaration order, with its first failing rule. */
  function FirstViolation(fields: seq<TaggedField>, isURL: string -> bool): (r: Option<FieldError>)
    ensures r.Some? ==> r.value.tag in RuleNames && fields != []
    decreases |fields|
  {
    if fields == [] then None
    else match FirstFailingTag(fields[0].value, fields[0].tags, isURL)
      case Some(t) => Some(FieldError(fields[0].namespace, TagName(t)))
      case None => FirstViolation(fields[1..], isURL)
  }

  /** The `validate` struct tags of schema.go, in declaration order. Untagged fields are absent. */
  function TaggedFields(c: AppConfig): (fs: seq<TaggedField>)
    ensures |fs| == 12
    ensures forall i :: 0 <= i < |fs| ==> |fs[i].tags| > 0 && fs[i].tags[0] == Required
  {
    [ TaggedField("AppConfig.Server.Port", Text(c.server.port), [Required, Numeric]),
      TaggedField("AppConfig.Server.ReadTimeout", Text(c.server.readTimeout), [Required, EndsWith("s")]),
      TaggedField("AppConfig.Server.WriteTimeout", Text(c.server.writeTimeout), [Required, EndsWith("s")]),
      TaggedField("AppConfig.Server.IdleTimeout", Text(c.server.idleTimeout), [Required, EndsWith("s")]),
      TaggedField("AppConfig.Server.ShutdownTimeout", Text(c.server.shutdownTimeout), [Required, EndsWith("s")]),
      TaggedField("AppConfig.Crawler.Timeout", Text(c.crawler.timeout), [Required, EndsWith("s")]),
      TaggedField("AppConfig.Logging.Level", Text(c.logging.level), [Required, OneOf(["debug", "info", "warn", "error"])]),
      TaggedField("AppConfig.Logging.Output", Text(c.logging.output), [Required]),
      TaggedField("AppConfig.Storage.Elasticsearch.Endpoint", Text(c.storage.elasticsearch.endpoint), [Required, Url]),
      TaggedField("AppConfig.Storage.Elasticsearch.Index", Text(c.storage.elasticsearch.index), [Required]),
      TaggedField("AppConfig.Storage.Elasticsearch.Timeout", Text(c.storage.elasticsearch.timeout), [Required, EndsWith("s")]),
      TaggedField("AppConfig.Storage.Elasticsearch.RetryLimit", Number(c.storage.elasticsearch.retryLimit), [Required, Min(1), Max(10)]) ]
  }

  /** validate.StructCtx on an AppConfig, reduced to its first error. */
  function Validate(c: AppConfig, v: Validator): (r: Option<FieldError>)
    ensures r.Some? ==> r.value.tag in RuleNames
  {
    FirstViolation(TaggedFields(c), v.isURL)
  }

  /** A duration-like string: non-empty and ending in 's'. */
  predicate SecondsString(s: string)
  {
    s != "" && s[|s| - 1] == 's'
  }

  /** The constraints of schema.go, field by field. */
  predicate ValidAppConfig(c: AppConfig, isURL: string -> bool)
  {
    // Server.Port: required,numeric
    && c.server.port != "" && IsNumeric(c.server.port)
    // Server.ReadTimeout, WriteTimeout, IdleTimeout, ShutdownTimeout: required,endswith=s
    && SecondsString(c.server.readTimeout)
    && SecondsString(c.server.writeTimeout)
    && SecondsString(c.server.idleTimeout)
    && SecondsString(c.server.shutdownTimeout)
    // Crawler.Timeout: required,endswith=s
    && SecondsString(c.crawler.timeout)
    // Logging.Level: required,oneof=debug info warn error
    && c.logging.level in {"debug", "info", "warn", "error"}
    // Logging.Output: required
    && c.logging.output != ""
    // Storage.Elasticsearch.Endpoint: required,url
    && c.storage.elasticsearch.endpoint != "" && isURL(c.storage.elasticsearch.endpoint)
    // Storage.Elasticsearch.Index: required
    && c.storage.elasticsearch.index != ""
    // Storage.Elasticsearch.Timeout: required,endswith=s
    && SecondsString(c.storage.elasticsearch.timeout)
    // Storage.Elasticsearch.RetryLimit: required,min=1,max=10
    && 1 <= c.storage.elasticsearch.retryLimit <= 10
  }

  /** A field passes when no rule of its chain fails. */
  predicate Passes(f: TaggedField, isURL: string -> bool)
  {
    FirstFailingTag(f.value, f.tags, isURL).None?
  }

  lemma {:induction false} FirstFailingTagNone(v: FieldValue, tags: seq<Tag>, isURL: string -> bool)
    ensures FirstFailingTag(v, tags, isURL).None? <==> forall i :: 0 <= i < |tags| ==> TagHolds(v, tags[i], isURL)
    decreases |tags|
  {
    if tags != [] {
      FirstFailingTagNone(v, tags[1..], isURL);
      assert forall i :: 1 <= i < |tags| ==> tags[i] == tags[1..][i - 1];
    }
  }

  lemma {:induction false} FirstViolationNone(fields: seq<TaggedField>, isURL: string -> bool)
    ensures FirstViolation(fields, isURL).None? <==> forall i :: 0 <= i < |fields| ==> Passes(fields[i], isURL)
    decreases |fields|
  {
    if fields != [] {
      FirstViolationNone(fields[1..], isURL);
      assert forall i :: 1 <= i < |fields| ==> fields[i] == fields[1..][i - 1];
    }
  }

  /** Fields are checked in order: a failure in an earlier group hides every later one. */
  lemma {:induction false} FirstViolationAppend(a: seq<TaggedField>, b: seq<TaggedField>, isURL: string -> bool)
    ensures FirstViolation(a + b, isURL)
            == if FirstViolation(a, isURL).Some? then FirstViolation(a, isURL) else FirstViolation(b, isURL)
    decreases |a|
  {
    if a != [] {
      assert (a + b)[0] == a[0] && (a + b)[1..] == a[1..] + b;
      FirstViolationAppend(a[1..], b, isURL);
    } else {
      assert a + b == b;
    }
  }

  /** A reported failure names the first field whose rule chain fails, and that chain's first failing
      rule; every field declared before it passes all its rules. */
  lemma {:induction false} FirstViolationIsFirst(fields: seq<TaggedField>, isURL: string -> bool)
    requires FirstViolation(fields, isURL).Some?
    ensures exists i :: (0 <= i < |fields|
      && FirstFailingTag(fields[i].value, fields[i].tags, isURL).Some?
      && FirstViolation(fields, isURL).value
         == FieldError(fields[i].namespace, TagName(FirstFailingTag(fields[i].value, fields[i].tags, isURL).value))
      && forall j :: 0 <= j < i ==> Passes(fields[j], isURL))
    decreases |fields|
  {
    if Passes(fields[0], isURL) {
      FirstViolationIsFirst(fields[1..], isURL);
      var i :| 0 <= i < |fields[1..]|
        && FirstFailingTag(fields[1..][i].value, fields[1..][i].tags, isURL).Some?
        && FirstViolation(fields[1..], isURL).value
           == FieldError(fields[1..][i].namespace, TagName(FirstFailingTag(fields[1..][i].value, fields[1..][i].tags, isURL).value))
        && forall j :: 0 <= j < i ==> Passes(fields[1..][j], isURL);
      assert forall j :: 1 <= j <= i + 1 ==> fields[j] == fields[1..][j - 1];
      assert fields[i + 1] == fields[1..][i];
    }
  }

  /** `required,endswith=s` on a string is exactly SecondsString. */
  lemma SecondsPasses(ns: string, s: string, isURL: string -> bool)
    ensures Passes(TaggedField(ns, Text(s), [Required, EndsWith("s")]), isURL) <==> SecondsString(s)
  {
    FirstFailingTagNone(Text(s), [Required, EndsWith("s")], isURL);
  }

  /** The Server fields pass exactly when their constraints hold. */
  lemma ServerFieldsPass(c: AppConfig, u: string -> bool)
    ensures var fs := TaggedFields(c);
      && (Passes(fs[0], u) <==> c.server.port != "" && IsNumeric(c.server.port))
      && (Passes(fs[1], u) <==> SecondsString(c.server.readTimeout))
      && (Passes(fs[2], u) <==> SecondsString(c.server.writeTimeout))
      && (Passes(fs[3], u) <==> SecondsString(c.server.idleTimeout))
      && (Passes(fs[4], u) <==> SecondsString(c.server.shutdownTimeout))
  {
    var fs := TaggedFields(c);
    FirstFailingTagNone(fs[0].value, fs[0].tags, u);
    SecondsPasses(fs[1].namespace, c.server.readTimeout, u);
    SecondsPasses(fs[2].namespace, c.server.writeTimeout, u);
    SecondsPasses(fs[3].namespace, c.server.idleTimeout, u);
    SecondsPasses(fs[4].namespace, c.server.shutdownTimeout, u);
  }

  /** The Crawler and Logging fields pass exactly when their constraints hold. */
  lemma CrawlerLoggingFieldsPass(c: AppConfig, u: string -> bool)
    ensures var fs := TaggedFields(c);
      && (Passes(fs[5], u) <==> SecondsString(c.crawler.timeout))
      && (Passes(fs[6], u) <==> c.logging.level in {"debug", "info", "warn", "error"})
      && (Passes(fs[7], u) <==> c.logging.output != "")
  {
    var fs := TaggedFields(c);
    SecondsPasses(fs[5].namespace, c.crawler.timeout, u);
    FirstFailingTagNone(fs[6].value, fs[6].tags, u);
    FirstFailingTagNone(fs[7].value, fs[7].tags, u);
  }

  /** The Storage fields pass exactly when their constraints hold. */
  lemma StorageFieldsPass(c: AppConfig, u: string -> bool)
    ensures var fs, es := TaggedFields(c), c.storage.elasticsearch;
      && (Passes(fs[8], u) <==> es.endpoint != "" && u(es.endpoint))
      && (Passes(fs[9], u) <==> es.index != "")
      && (Passes(fs[10], u) <==> SecondsString(es.timeout))
      && (Passes(fs[11], u) <==> 1 <= es.retryLimit <= 10)
  {
    var fs := TaggedFields(c);
    FirstFailingTagNone(fs[8].value, fs[8].tags, u);
    FirstFailingTagNone(fs[9].value, fs[9].tags, u);
    SecondsPasses(fs[10].namespace, c.storage.elasticsearch.timeout, u);
    FirstFailingTagNone(fs[11].value, fs[11].tags, u);
  }

  /** Validation passes exactly when every constraint of schema.go holds. */
  lemma ValidIffNoViolation(c: AppConfig, v: Validator)
    ensures Validate(c, v).None? <==> ValidAppConfig(c, v.isURL)
  {
    var fs, u := TaggedFields(c), v.isURL;
    FirstViolationNone(fs, u);
    ServerFieldsPass(c, u);
    CrawlerLoggingFieldsPass(c, u);
    StorageFieldsPass(c, u);
    assert (forall i :: 0 <= i < |fs| ==> Passes(fs[i], u)) <==>
      Passes(fs[0], u) && Passes(fs[1], u) && Passes(fs[2], u) && Passes(fs[3], u) && Passes(fs[4], u) && Passes(fs[5], u)
      && Passes(fs[6], u) && Passes(fs[7], u) && Passes(fs[8], u) && Passes(fs[9], u) && Passes(fs[10], u) && Passes(fs[11], u);
  }

  /** An empty port is reported before anything else, as a `required` failure of Server.Port. */
  lemma EmptyPortReportedFirst(c: AppConfig, v: Validator)
    requires c.server.port == ""
    ensures Validate(c, v) == Some(FieldError("AppConfig.Server.Port", "required"))
  {
  }

  /** A non-empty port that is not a number fails `numeric`. */
  lemma NonNumericPortReported(c: AppConfig, v: Validator)
    requires c.server.port != "" && !IsNumeric(c.server.port)
    ensures Validate(c, v) == Some(FieldError("AppConfig.Server.Port", "numeric"))
  {
  }

  /** With every other field valid, retry limits outside [1, 10] are rejected: zero by `required`,
      below 1 by `min`, above 10 by `max`. */
  lemma RetryLimitOutOfRange(c: AppConfig, v: Validator)
    requires Validate(c.(storage := StorageSection(c.storage.elasticsearch.(retryLimit := 5))), v).None?
    ensures c.storage.elasticsearch.retryLimit == 0 ==>
      Validate(c, v) == Some(FieldError("AppConfig.Storage.Elasticsearch.RetryLimit", "required"))
    ensures c.storage.elasticsearch.retryLimit < 0 ==>
      Validate(c, v) == Some(FieldError("AppConfig.Storage.Elasticsearch.RetryLimit", "min"))
    ensures c.storage.elasticsearch.retryLimit > 10 ==>
      Validate(c, v) == Some(FieldError("AppConfig.Storage.Elasticsearch.RetryLimit", "max"))
  {
    var d := c.(storage := StorageSection(c.storage.elasticsearch.(retryLimit := 5)));
    var fc, fd := TaggedFields(c), TaggedFields(d);
    assert fc == fc[..11] + [fc[11]];
    assert fd == fd[..11] + [fd[11]];
    assert fc[..11] == fd[..11];
    FirstViolationAppend(fc[..11], [fc[11]], v.isURL);
    FirstViolationAppend(fd[..11], [fd[11]], v.isURL);
  }

  /** Fields without a `validate` tag never change the verdict. */
  lemma UntaggedFieldsIrrelevant(c: AppConfig, v: Validator, maxDepth: int, userAgent: string, async: bool,
                                 numWorkers: int, checkpoint: CheckpointSection, redis: RedisSection, metrics: MetricsSection)
    ensures var d := c.(crawler := CrawlerSection(maxDepth, userAgent, async, c.crawler.timeout, numWorkers),
                        checkpoint := checkpoint, redis := redis, metrics := metrics);
            Validate(d, v) == Validate(c, v) && (ValidAppConfig(d, v.isURL) <==> ValidAppConfig(c, v.isURL))
  {
  }
}
