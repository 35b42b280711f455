/**
 * viper.Unmarshal into an AppConfig (pkg/config/config.go, the schema step of a load): each schema
 * field is looked up under its mapstructure key and converted with weak typing (numbers and booleans
 * become strings, numeric strings become ints, and so on). A field whose key is absent keeps its
 * previous value; a field whose value cannot be converted also keeps it, and its key is reported.
 */
module Binder {
  import opened Wrappers
  import opened Settings
  import opened Schema

  const MinInt64: int := -0x8000_0000_0000_0000
  const MaxInt64: int := 0x7fff_ffff_ffff_ffff

  function DigitChar(d: nat): char
    requires d < 10
  {
    ('0' as int + d) as char
  }

  /** The value of `c` as a digit of `base` (2, 8, 10 or 16; hexadecimal letters in either case),
      None when it is not one. */
  function DigitIn(c: char, base: nat): Option<nat>
  {
    var v: nat :=
      if '0' <= c <= '9' then c as int - '0' as int
      else if 'a' <= c <= 'f' then c as int - 'a' as int + 10
      else if 'A' <= c <= 'F' then c as int - 'A' as int + 10
      else 16;
    if v < base then Some(v) else None
  }

  predicate AllIn(s: string, base: nat)
  {
    forall i :: 0 <= i < |s| ==> DigitIn(s[i], base).Some?
  }

  /** The number the digits of `s` denote in `base`, most significant first. */
  function DigitsValue(s: string, base: nat): nat
    requires AllIn(s, base)
    decreases |s|
  {
    if s == [] then 0 else DigitsValue(s[..|s| - 1], base) * base + DigitIn(s[|s| - 1], base).value
  }

  /** The decimal digits of n, most significant first; a leading '0' only for n == 0. */
  function NatToDigits(n: nat): (s: string)
    ensures |s| > 0 && AllIn(s, 10)
    ensures s[0] == '0' <==> n == 0
    decreases n
  {
    if n < 10 then [DigitChar(n)] else NatToDigits(n / 10) + [DigitChar(n % 10)]
  }

  /** strconv.FormatInt(i, 10) */
  function FormatInt(i: int): (s: string)
    ensures |s| > 0 && (s[0] == '-' <==> i < 0)
    ensures i >= 0 ==> AllIn(s, 10)
    ensures i < 0 ==> AllIn(s[1..], 10)
  {
    if i < 0 then "-" + NatToDigits(-i) else NatToDigits(i)
  }

  /** The base strconv.ParseUint chooses when asked for base 0, and the digits that follow the prefix:
      "0x", "0o" and "0b" (either case, with at least one character after them) select 16, 8 and 2,
      any other leading '0' selects octal, and everything else is decimal. */
  function BasePrefix(body: string): (r: (nat, string))
    ensures r.0 in {2, 8, 10, 16} && |r.1| <= |body|
    ensures r.0 == 10 <==> body == [] || body[0] != '0'
    ensures r.0 == 10 ==> r.1 == body
    ensures |body| >= 3 && body[0] == '0' && body[1] in {'x', 'X'} ==> r == (16, body[2..])
    ensures |body| >= 3 && body[0] == '0' && body[1] in {'o', 'O'} ==> r == (8, body[2..])
    ensures |body| >= 3 && body[0] == '0' && body[1] in {'b', 'B'} ==> r == (2, body[2..])
    ensures |body| >= 1 && body[0] == '0' && !(|body| >= 3 && body[1] in {'x', 'X', 'o', 'O', 'b', 'B'}) ==> r == (8, body[1..])
  {
    if |body| >= 3 && body[0] == '0' && (body[1] == 'x' || body[1] == 'X') then (16, body[2..])
    else if |body| >= 3 && body[0] == '0' && (body[1] == 'o' || body[1] == 'O') then (8, body[2..])
    else if |body| >= 3 && body[0] == '0' && (body[1] == 'b' || body[1] == 'B') then (2, body[2..])
    else if |body| >= 1 && body[0] == '0' then (8, body[1..])
    else (10, body)
  }

  /** strconv.ParseInt(s, 0, 64), as the weakly typed decoder calls it: an optional sign, then a
      non-empty body whose prefix picks the base, digits of that base, and a result within 64 bits. */
  function ParseInt(s: string): (r: Option<int>)
    ensures r.Some? ==> MinInt64 <= r.value <= MaxInt64
    ensures s == "" ==> r.None?
  {
    var signed := |s| > 0 && (s[0] == '-' || s[0] == '+');
    var body := if signed then s[1..] else s;
    var split := BasePrefix(body);
    if body == [] || !AllIn(split.1, split.0) then None
    else
      var magnitude := DigitsValue(split.1, split.0);
      var n: int := if signed && s[0] == '-' then -(magnitude as int) else magnitude;
      if MinInt64 <= n <= MaxInt64 then Some(n) else None
  }

  /** strconv.ParseBool */
  function ParseBool(s: string): (r: Option<bool>)
    ensures r.Some? ==> 1 <= |s| <= 5
    ensures r.Some? ==> (r.value <==> s[0] in {'1', 't', 'T'})
  {
    if s in {"1", "t", "T", "TRUE", "true", "True"} then Some(true)
    else if s in {"0", "f", "F", "FALSE", "false", "False"} then Some(false)
    else None
  }

  lemma {:induction false} DigitsRoundTrip(n: nat)
    ensures DigitsValue(NatToDigits(n), 10) == n
    decreases n
  {
    if n >= 10 {
      DigitsRoundTrip(n / 10);
      var s := NatToDigits(n);
      assert s[..|s| - 1] == NatToDigits(n / 10);
    }
  }

  /** Formatting a 64-bit integer in decimal and parsing it back gives the integer: FormatInt never
      writes a leading zero, so the parse stays decimal. */
  lemma ParseFormatRoundTrip(i: int)
    requires MinInt64 <= i <= MaxInt64
    ensures ParseInt(FormatInt(i)) == Some(i)
  {
    var s := FormatInt(i);
    if i < 0 {
      DigitsRoundTrip(-i);
      assert s[1..] == NatToDigits(-i);
    } else if i == 0 {
      assert s == "0";
      assert BasePrefix(s) == (8, "");
    } else {
      DigitsRoundTrip(i);
      assert DigitIn(s[0], 10).Some?;
    }
  }

  /** A leading zero makes the rest octal, as with Go's base 0: "011" is 9, "09" is refused, and the
      letter prefixes select their bases ("0x1F" is 31, "0b101" is 5). */
  lemma LeadingZeroIsOctal()
    ensures ParseInt("011") == Some(9)
    ensures ParseInt("09") == None
    ensures ParseInt("-010") == Some(-8)
    ensures ParseInt("0x1F") == Some(31)
    ensures ParseInt("0b101") == Some(5)
    ensures ParseInt("0o17") == Some(15)
  {
    assert BasePrefix("011") == (8, "11");
    assert DigitsValue("11", 8) == 9 by { assert "11"[..1] == "1"; }
    assert BasePrefix("09") == (8, "9");
    assert !AllIn("9", 8) by { assert DigitIn("9"[0], 8).None?; }
    assert "-010"[1..] == "010";
    assert BasePrefix("010") == (8, "10");
    assert DigitsValue("10", 8) == 8 by { assert "10"[..1] == "1"; }
    assert BasePrefix("0x1F") == (16, "1F");
    assert DigitsValue("1F", 16) == 31 by { assert "1F"[..1] == "1"; }
    assert BasePrefix("0b101") == (2, "101");
    assert BasePrefix("0o17") == (8, "17");
    assert DigitsValue("17", 8) == 15 by { assert "17"[..1] == "1"; }
    assert DigitsValue("101", 2) == 5 by { assert "101"[..2] == "10" && "10"[..1] == "1"; }
  }

  /** A decoded value and the keys whose values could not be converted. */
  datatype Decoded<T> = Decoded(value: T, failed: seq<Key>)

  /** Every key of `keys` has a setting. */
  predicate AllPresent(st: map<Key, Value>, keys: seq<Key>)
  {
    forall k :: k in keys ==> k in st
  }

  lemma AllPresentConcat(st: map<Key, Value>, a: seq<Key>, b: seq<Key>)
    requires AllPresent(st, a) && AllPresent(st, b)
    ensures AllPresent(st, a + b)
  {
  }

  function DecodeString(settings: map<Key, Value>, key: Key, prev: string): (d: Decoded<string>)
    ensures key !in settings ==> d == Decoded(prev, [])
    ensures key in settings && settings[key].Str? ==> d == Decoded(settings[key].s, [])
    ensures d.failed != [] ==> d == Decoded(prev, [key]) && key in settings
    ensures AllPresent(settings, d.failed)
  {
    if key !in settings then Decoded(prev, [])
    else match settings[key]
      case Str(s) => Decoded(s, [])
      case Int(i) => Decoded(FormatInt(i), [])
      case Bool(b) => Decoded(if b then "1" else "0", [])
      case List(_) => Decoded(prev, [key])
  }

  function DecodeInt(settings: map<Key, Value>, key: Key, prev: int): (d: Decoded<int>)
    ensures key !in settings ==> d == Decoded(prev, [])
    ensures key in settings && settings[key].Int? ==> d == Decoded(settings[key].i, [])
    ensures d.failed != [] ==> d == Decoded(prev, [key]) && key in settings
    ensures AllPresent(settings, d.failed)
  {
    if key !in settings then Decoded(prev, [])
    else match settings[key]
      case Str(s) =>
        if s == "" then Decoded(0, [])
        else if ParseInt(s).Some? then Decoded(ParseInt(s).value, [])
        else Decoded(prev, [key])
      case Int(i) => Decoded(i, [])
      case Bool(b) => Decoded(if b then 1 else 0, [])
      case List(_) => Decoded(prev, [key])
  }

  function DecodeBool(settings: map<Key, Value>, key: Key, prev: bool): (d: Decoded<bool>)
    ensures key !in settings ==> d == Decoded(prev, [])
    ensures key in settings && settings[key].Bool? ==> d == Decoded(settings[key].b, [])
    ensures d.failed != [] ==> d == Decoded(prev, [key]) && key in settings
    ensures AllPresent(settings, d.failed)
  {
    if key !in settings then Decoded(prev, [])
    else match settings[key]
      case Str(s) =>
        if ParseBool(s).Some? then Decoded(ParseBool(s).value, [])
        else if s == "" then Decoded(false, [])
        else Decoded(prev, [key])
      case Int(i) => Decoded(i != 0, [])
      case Bool(b) => Decoded(b, [])
      case List(_) => Decoded(prev, [key])
  }

  /** A string field decoded from `key`: kept when the key is absent, taken as is from a string value. */
  predicate StringFrom(st: map<Key, Value>, key: Key, prev: string, v: string)
  {
    (key !in st ==> v == prev) && (key in st && st[key].Str? ==> v == st[key].s)
  }

  /** An int field decoded from `key`: kept when the key is absent, taken as is from an int value. */
  predicate IntFrom(st: map<Key, Value>, key: Key, prev: int, v: int)
  {
    (key !in st ==> v == prev) && (key in st && st[key].Int? ==> v == st[key].i)
  }

  /** A bool field decoded from `key`: kept when the key is absent, taken as is from a bool value. */
  predicate BoolFrom(st: map<Key, Value>, key: Key, prev: bool, v: bool)
  {
    (key !in st ==> v == prev) && (key in st && st[key].Bool? ==> v == st[key].b)
  }

  function DecodeServer(st: map<Key, Value>, prev: ServerSection): (d: Decoded<ServerSection>)
    ensures AllPresent(st, d.failed)
    ensures StringFrom(st, "server.port", prev.port, d.value.port)
    ensures StringFrom(st, "server.read_timeout", prev.readTimeout, d.value.readTimeout)
    ensures StringFrom(st, "server.write_timeout", prev.writeTimeout, d.value.writeTimeout)
    ensures StringFrom(st, "server.idle_timeout", prev.idleTimeout, d.value.idleTimeout)
    ensures StringFrom(st, "server.shutdown_timeout", prev.shutdownTimeout, d.value.shutdownTimeout)
    ensures forall k :: k in d.failed ==> k in ["server.port", "server.read_timeout", "server.write_timeout", "server.idle_timeout", "server.shutdown_timeout"]
  {
    var port := DecodeString(st, "server.port", prev.port);
    var read := DecodeString(st, "server.read_timeout", prev.readTimeout);
    var write := DecodeString(st, "server.write_timeout", prev.writeTimeout);
    var idle := DecodeString(st, "server.idle_timeout", prev.idleTimeout);
    var shutdown := DecodeString(st, "server.shutdown_timeout", prev.shutdownTimeout);
    AllPresentConcat(st, port.failed, read.failed);
    AllPresentConcat(st, port.failed + read.failed, write.failed);
    AllPresentConcat(st, port.failed + read.failed + write.failed, idle.failed);
    AllPresentConcat(st, port.failed + read.failed + write.failed + idle.failed, shutdown.failed);
    Decoded(ServerSection(port.value, read.value, write.value, idle.value, shutdown.value),
            port.failed + read.failed + write.failed + idle.failed + shutdown.failed)
  }

  function DecodeCrawler(st: map<Key, Value>, prev: CrawlerSection): (d: Decoded<CrawlerSection>)
    ensures AllPresent(st, d.failed)
    ensures IntFrom(st, "crawler.maxDepth", prev.maxDepth, d.value.maxDepth)
    ensures StringFrom(st, "crawler.userAgent", prev.userAgent, d.value.userAgent)
    ensures BoolFrom(st, "crawler.async", prev.async, d.value.async)
    ensures StringFrom(st, "crawler.timeout", prev.timeout, d.value.timeout)
    ensures IntFrom(st, "crawler.num_workers", prev.numWorkers, d.value.numWorkers)
    ensures forall k :: k in d.failed ==> k in ["crawler.maxDepth", "crawler.userAgent", "crawler.async", "crawler.timeout", "crawler.num_workers"]
  {
    var maxDepth := DecodeInt(st, "crawler.maxDepth", prev.maxDepth);
    var userAgent := DecodeString(st, "crawler.userAgent", prev.userAgent);
    var async := DecodeBool(st, "crawler.async", prev.async);
    var timeout := DecodeString(st, "crawler.timeout", prev.timeout);
    var workers := DecodeInt(st, "crawler.num_workers", prev.numWorkers);
    AllPresentConcat(st, maxDepth.failed, userAgent.failed);
    AllPresentConcat(st, maxDepth.failed + userAgent.failed, async.failed);
    AllPresentConcat(st, maxDepth.failed + userAgent.failed + async.failed, timeout.failed);
    AllPresentConcat(st, maxDepth.failed + userAgent.failed + async.failed + timeout.failed, workers.failed);
    Decoded(CrawlerSection(maxDepth.value, userAgent.value, async.value, timeout.value, workers.value),
            maxDepth.failed + userAgent.failed + async.failed + timeout.failed + workers.failed)
  }

  function DecodeCheckpoint(st: map<Key, Value>, prev: CheckpointSection): (d: Decoded<CheckpointSection>)
    ensures AllPresent(st, d.failed)
    ensures BoolFrom(st, "checkpoint.enabled", prev.enabled, d.value.enabled)
    ensures StringFrom(st, "checkpoint.type", prev.storeType, d.value.storeType)
    ensures StringFrom(st, "checkpoint.filePath", prev.filePath, d.value.filePath)
    ensures forall k :: k in d.failed ==> k in ["checkpoint.enabled", "checkpoint.type", "checkpoint.filePath"]
  {
    var enabled := DecodeBool(st, "checkpoint.enabled", prev.enabled);
    var storeType := DecodeString(st, "checkpoint.type", prev.storeType);
    var filePath := DecodeString(st, "checkpoint.filePath", prev.filePath);
    Decoded(CheckpointSection(enabled.value, storeType.value, filePath.value),
            enabled.failed + storeType.failed + filePath.failed)
  }

  function DecodeLogging(st: map<Key, Value>, prev: LoggingSection): (d: Decoded<LoggingSection>)
    ensures AllPresent(st, d.failed)
    ensures StringFrom(st, "logging.level", prev.level, d.value.level)
    ensures StringFrom(st, "logging.output", prev.output, d.value.output)
    ensures forall k :: k in d.failed ==> k in ["logging.level", "logging.output"]
  {
    var level := DecodeString(st, "logging.level", prev.level);
    var output := DecodeString(st, "logging.output", prev.output);
    Decoded(LoggingSection(level.value, output.value), level.failed + output.failed)
  }

  function DecodeStorage(st: map<Key, Value>, prev: StorageSection): (d: Decoded<StorageSection>)
    ensures AllPresent(st, d.failed)
    ensures StringFrom(st, "storage.elasticsearch.endpoint", prev.elasticsearch.endpoint, d.value.elasticsearch.endpoint)
    ensures StringFrom(st, "storage.elasticsearch.index", prev.elasticsearch.index, d.value.elasticsearch.index)
    ensures StringFrom(st, "storage.elasticsearch.timeout", prev.elasticsearch.timeout, d.value.elasticsearch.timeout)
    ensures IntFrom(st, "storage.elasticsearch.retryLimit", prev.elasticsearch.retryLimit, d.value.elasticsearch.retryLimit)
    ensures forall k :: k in d.failed ==> k in ["storage.elasticsearch.endpoint", "storage.elasticsearch.index", "storage.elasticsearch.timeout", "storage.elasticsearch.retryLimit"]
  {
    var es := prev.elasticsearch;
    var endpoint := DecodeString(st, "storage.elasticsearch.endpoint", es.endpoint);
    var index := DecodeString(st, "storage.elasticsearch.index", es.index);
    var timeout := DecodeString(st, "storage.elasticsearch.timeout", es.timeout);
    var retry := DecodeInt(st, "storage.elasticsearch.retryLimit", es.retryLimit);
    AllPresentConcat(st, endpoint.failed, index.failed);
    AllPresentConcat(st, endpoint.failed + index.failed, timeout.failed);
    AllPresentConcat(st, endpoint.failed + index.failed + timeout.failed, retry.failed);
    Decoded(StorageSection(ElasticsearchSection(endpoint.value, index.value, timeout.value, retry.value)),
            endpoint.failed + index.failed + timeout.failed + retry.failed)
  }

  function DecodeRedis(st: map<Key, Value>, prev: RedisSection): (d: Decoded<RedisSection>)
    ensures AllPresent(st, d.failed)
    ensures StringFrom(st, "redis.endpoint", prev.endpoint, d.value.endpoint)
    ensures IntFrom(st, "redis.db", prev.db, d.value.db)
    ensures StringFrom(st, "redis.password", prev.password, d.value.password)
    ensures StringFrom(st, "redis.queueKey", prev.queueKey, d.value.queueKey)
    ensures StringFrom(st, "redis.visitedKey", prev.visitedKey, d.value.visitedKey)
    ensures IntFrom(st, "redis.retryLimit", prev.retryLimit, d.value.retryLimit)
    ensures forall k :: k in d.failed ==> k in ["redis.endpoint", "redis.db", "redis.password", "redis.queueKey", "redis.visitedKey", "redis.retryLimit"]
  {
    var endpoint := DecodeString(st, "redis.endpoint", prev.endpoint);
    var db := DecodeInt(st, "redis.db", prev.db);
    var password := DecodeString(st, "redis.password", prev.password);
    var queueKey := DecodeString(st, "redis.queueKey", prev.queueKey);
    var visitedKey := DecodeString(st, "redis.visitedKey", prev.visitedKey);
    var retry := DecodeInt(st, "redis.retryLimit", prev.retryLimit);
    AllPresentConcat(st, endpoint.failed, db.failed);
    AllPresentConcat(st, endpoint.failed + db.failed, password.failed);
    AllPresentConcat(st, endpoint.failed + db.failed + password.failed, queueKey.failed);
    AllPresentConcat(st, endpoint.failed + db.failed + password.failed + queueKey.failed, visitedKey.failed);
    AllPresentConcat(st, endpoint.failed + db.failed + password.failed + queueKey.failed + visitedKey.failed, retry.failed);
    Decoded(RedisSection(endpoint.value, db.value, password.value, queueKey.value, visitedKey.value, retry.value),
            endpoint.failed + db.failed + password.failed + queueKey.failed + visitedKey.failed + retry.failed)
  }

  function DecodeMetrics(st: map<Key, Value>, prev: MetricsSection): (d: Decoded<MetricsSection>)
    ensures AllPresent(st, d.failed)
    ensures StringFrom(st, "metrics.host", prev.host, d.value.host)
    ensures IntFrom(st, "metrics.port", prev.port, d.value.port)
    ensures forall k :: k in d.failed ==> k in ["metrics.host", "metrics.port"]
  {
    var host := DecodeString(st, "metrics.host", prev.host);
    var port := DecodeInt(st, "metrics.port", prev.port);
    Decoded(MetricsSection(host.value, port.value), host.failed + port.failed)
  }

  /** viper.Unmarshal(schema): decode every section; the error lists every key that failed. */
  function Unmarshal(st: map<Key, Value>, prev: AppConfig): (d: Decoded<AppConfig>)
    ensures AllPresent(st, d.failed)
    ensures st == map[] ==> d == Decoded(prev, [])
  {
    var server := DecodeServer(st, prev.server);
    var crawler := DecodeCrawler(st, prev.crawler);
    var checkpoint := DecodeCheckpoint(st, prev.checkpoint);
    var logging := DecodeLogging(st, prev.logging);
    var storage := DecodeStorage(st, prev.storage);
    var redis := DecodeRedis(st, prev.redis);
    var metrics := DecodeMetrics(st, prev.metrics);
    AllPresentConcat(st, server.failed, crawler.failed);
    AllPresentConcat(st, server.failed + crawler.failed, checkpoint.failed);
    AllPresentConcat(st, server.failed + crawler.failed + checkpoint.failed, logging.failed);
    AllPresentConcat(st, server.failed + crawler.failed + checkpoint.failed + logging.failed, storage.failed);
    AllPresentConcat(st, server.failed + crawler.failed + checkpoint.failed + logging.failed + storage.failed, redis.failed);
    AllPresentConcat(st, server.failed + crawler.failed + checkpoint.failed + logging.failed + storage.failed + redis.failed, metrics.failed);
    Decoded(AppConfig(server.value, crawler.value, checkpoint.value, logging.value, storage.value, redis.value, metrics.value),
            server.failed + crawler.failed + checkpoint.failed + logging.failed + storage.failed + redis.failed + metrics.failed)
  }

  /** The settings a file holding exactly the fields of `c`, each with its own type, yields. */
  function Encode(c: AppConfig): map<Key, Value>
  {
    map[
      "server.port" := Str(c.server.port),
      "server.read_timeout" := Str(c.server.readTimeout),
      "server.write_timeout" := Str(c.server.writeTimeout),
      "server.idle_timeout" := Str(c.server.idleTimeout),
      "server.shutdown_timeout" := Str(c.server.shutdownTimeout),
      "crawler.maxDepth" := Int(c.crawler.maxDepth),
      "crawler.userAgent" := Str(c.crawler.userAgent),
      "crawler.async" := Bool(c.crawler.async),
      "crawler.timeout" := Str(c.crawler.timeout),
      "crawler.num_workers" := Int(c.crawler.numWorkers),
      "checkpoint.enabled" := Bool(c.checkpoint.enabled),
      "checkpoint.type" := Str(c.checkpoint.storeType),
      "checkpoint.filePath" := Str(c.checkpoint.filePath),
      "logging.level" := Str(c.logging.level),
      "logging.output" := Str(c.logging.output),
      "storage.elasticsearch.endpoint" := Str(c.storage.elasticsearch.endpoint),
      "storage.elasticsearch.index" := Str(c.storage.elasticsearch.index),
      "storage.elasticsearch.timeout" := Str(c.storage.elasticsearch.timeout),
      "storage.elasticsearch.retryLimit" := Int(c.storage.elasticsearch.retryLimit),
      "redis.endpoint" := Str(c.redis.endpoint),
      "redis.db" := Int(c.redis.db),
      "redis.password" := Str(c.redis.password),
      "redis.queueKey" := Str(c.redis.queueKey),
      "redis.visitedKey" := Str(c.redis.visitedKey),
      "redis.retryLimit" := Int(c.redis.retryLimit),
      "metrics.host" := Str(c.metrics.host),
      "metrics.port" := Int(c.metrics.port)]
  }

  lemma EncodeServer(c: AppConfig, prev: ServerSection)
    ensures DecodeServer(Encode(c), prev) == Decoded(c.server, [])
  {
    var e := Encode(c);
    assert e["server.port"] == Str(c.server.port);
    assert e["server.read_timeout"] == Str(c.server.readTimeout);
    assert e["server.write_timeout"] == Str(c.server.writeTimeout);
    assert e["server.idle_timeout"] == Str(c.server.idleTimeout);
    assert e["server.shutdown_timeout"] == Str(c.server.shutdownTimeout);
  }

  lemma EncodeCrawler(c: AppConfig, prev: CrawlerSection)
    ensures DecodeCrawler(Encode(c), prev) == Decoded(c.crawler, [])
  {
    var e := Encode(c);
    assert e["crawler.maxDepth"] == Int(c.crawler.maxDepth);
    assert e["crawler.userAgent"] == Str(c.crawler.userAgent);
    assert e["crawler.async"] == Bool(c.crawler.async);
    assert e["crawler.timeout"] == Str(c.crawler.timeout);
    assert e["crawler.num_workers"] == Int(c.crawler.numWorkers);
  }

  lemma EncodeCheckpointLogging(c: AppConfig, prev: AppConfig)
    ensures DecodeCheckpoint(Encode(c), prev.checkpoint) == Decoded(c.checkpoint, [])
    ensures DecodeLogging(Encode(c), prev.logging) == Decoded(c.logging, [])
  {
    var e := Encode(c);
    assert e["checkpoint.enabled"] == Bool(c.checkpoint.enabled);
    assert e["checkpoint.type"] == Str(c.checkpoint.storeType);
    assert e["checkpoint.filePath"] == Str(c.checkpoint.filePath);
    assert e["logging.level"] == Str(c.logging.level);
    assert e["logging.output"] == Str(c.logging.output);
  }

  lemma EncodeStorage(c: AppConfig, prev: StorageSection)
    ensures DecodeStorage(Encode(c), prev) == Decoded(c.storage, [])
  {
    var e := Encode(c);
    assert e["storage.elasticsearch.endpoint"] == Str(c.storage.elasticsearch.endpoint);
    assert e["storage.elasticsearch.index"] == Str(c.storage.elasticsearch.index);
    assert e["storage.elasticsearch.timeout"] == Str(c.storage.elasticsearch.timeout);
    assert e["storage.elasticsearch.retryLimit"] == Int(c.storage.elasticsearch.retryLimit);
  }

  lemma EncodeRedisMetrics(c: AppConfig, prev: AppConfig)
    ensures DecodeRedis(Encode(c), prev.redis) == Decoded(c.redis, [])
    ensures DecodeMetrics(Encode(c), prev.metrics) == Decoded(c.metrics, [])
  {
    var e := Encode(c);
    assert e["redis.endpoint"] == Str(c.redis.endpoint);
    assert e["redis.db"] == Int(c.redis.db);
    assert e["redis.password"] == Str(c.redis.password);
    assert e["redis.queueKey"] == Str(c.redis.queueKey);
    assert e["redis.visitedKey"] == Str(c.redis.visitedKey);
    assert e["redis.retryLimit"] == Int(c.redis.retryLimit);
    assert e["metrics.host"] == Str(c.metrics.host);
    assert e["metrics.port"] == Int(c.metrics.port);
  }

  /** Decoding the settings of a configuration recovers it exactly, whatever the schema held before,
      and reports no error. */
  lemma UnmarshalEncodeRoundTrip(c: AppConfig, prev: AppConfig)
    ensures Unmarshal(Encode(c), prev) == Decoded(c, [])
  {
    EncodeServer(c, prev.server);
    EncodeCrawler(c, prev.crawler);
    EncodeCheckpointLogging(c, prev);
    EncodeStorage(c, prev.storage);
    EncodeRedisMetrics(c, prev);
  }

  lemma DecodeStringIdempotent(st: map<Key, Value>, key: Key, prev: string)
    ensures DecodeString(st, key, DecodeString(st, key, prev).value) == DecodeString(st, key, prev)
  {
  }

  lemma DecodeIntIdempotent(st: map<Key, Value>, key: Key, prev: int)
    ensures DecodeInt(st, key, DecodeInt(st, key, prev).value) == DecodeInt(st, key, prev)
  {
  }

  lemma DecodeBoolIdempotent(st: map<Key, Value>, key: Key, prev: bool)
    ensures DecodeBool(st, key, DecodeBool(st, key, prev).value) == DecodeBool(st, key, prev)
  {
  }

  lemma ServerIdempotent(st: map<Key, Value>, prev: AppConfig)
    ensures DecodeServer(st, DecodeServer(st, prev.server).value) == DecodeServer(st, prev.server)
  {
    DecodeStringIdempotent(st, "server.port", prev.server.port);
    DecodeStringIdempotent(st, "server.read_timeout", prev.server.readTimeout);
    DecodeStringIdempotent(st, "server.write_timeout", prev.server.writeTimeout);
    DecodeStringIdempotent(st, "server.idle_timeout", prev.server.idleTimeout);
    DecodeStringIdempotent(st, "server.shutdown_timeout", prev.server.shutdownTimeout);
  }

  lemma CrawlerIdempotent(st: map<Key, Value>, prev: AppConfig)
    ensures DecodeCrawler(st, DecodeCrawler(st, prev.crawler).value) == DecodeCrawler(st, prev.crawler)
  {
    DecodeIntIdempotent(st, "crawler.maxDepth", prev.crawler.maxDepth);
    DecodeStringIdempotent(st, "crawler.userAgent", prev.crawler.userAgent);
    DecodeBoolIdempotent(st, "crawler.async", prev.crawler.async);
    DecodeStringIdempotent(st, "crawler.timeout", prev.crawler.timeout);
    DecodeIntIdempotent(st, "crawler.num_workers", prev.crawler.numWorkers);
  }

  lemma CheckpointIdempotent(st: map<Key, Value>, prev: AppConfig)
    ensures DecodeCheckpoint(st, DecodeCheckpoint(st, prev.checkpoint).value) == DecodeCheckpoint(st, prev.checkpoint)
  {
    DecodeBoolIdempotent(st, "checkpoint.enabled", prev.checkpoint.enabled);
    DecodeStringIdempotent(st, "checkpoint.type", prev.checkpoint.storeType);
    DecodeStringIdempotent(st, "checkpoint.filePath", prev.checkpoint.filePath);
  }

  lemma LoggingIdempotent(st: map<Key, Value>, prev: AppConfig)
    ensures DecodeLogging(st, DecodeLogging(st, prev.logging).value) == DecodeLogging(st, prev.logging)
  {
    DecodeStringIdempotent(st, "logging.level", prev.logging.level);
    DecodeStringIdempotent(st, "logging.output", prev.logging.output);
  }

  lemma StorageIdempotent(st: map<Key, Value>, prev: AppConfig)
    ensures DecodeStorage(st, DecodeStorage(st, prev.storage).value) == DecodeStorage(st, prev.storage)
  {
    DecodeStringIdempotent(st, "storage.elasticsearch.endpoint", prev.storage.elasticsearch.endpoint);
    DecodeStringIdempotent(st, "storage.elasticsearch.index", prev.storage.elasticsearch.index);
    DecodeStringIdempotent(st, "storage.elasticsearch.timeout", prev.storage.elasticsearch.timeout);
    DecodeIntIdempotent(st, "storage.elasticsearch.retryLimit", prev.storage.elasticsearch.retryLimit);
  }

  lemma RedisIdempotent(st: map<Key, Value>, prev: AppConfig)
    ensures DecodeRedis(st, DecodeRedis(st, prev.redis).value) == DecodeRedis(st, prev.redis)
  {
    DecodeStringIdempotent(st, "redis.endpoint", prev.redis.endpoint);
    DecodeIntIdempotent(st, "redis.db", prev.redis.db);
    DecodeStringIdempotent(st, "redis.password", prev.redis.password);
    DecodeStringIdempotent(st, "redis.queueKey", prev.redis.queueKey);
    DecodeStringIdempotent(st, "redis.visitedKey", prev.redis.visitedKey);
    DecodeIntIdempotent(st, "redis.retryLimit", prev.redis.retryLimit);
  }

  lemma MetricsIdempotent(st: map<Key, Value>, prev: AppConfig)
    ensures DecodeMetrics(st, DecodeMetrics(st, prev.metrics).value) == DecodeMetrics(st, prev.metrics)
  {
    DecodeStringIdempotent(st, "metrics.host", prev.metrics.host);
    DecodeIntIdempotent(st, "metrics.port", prev.metrics.port);
  }

  /** Decoding the same settings twice changes nothing the second time: every field that converted is
      overwritten with the same value, every other field keeps what the first pass left. */
  lemma UnmarshalIdempotent(st: map<Key, Value>, prev: AppConfig)
    ensures Unmarshal(st, Unmarshal(st, prev).value) == Unmarshal(st, prev)
  {
    ServerIdempotent(st, prev);
    CrawlerIdempotent(st, prev);
    CheckpointIdempotent(st, prev);
    LoggingIdempotent(st, prev);
    StorageIdempotent(st, prev);
    RedisIdempotent(st, prev);
    MetricsIdempotent(st, prev);
  }
}
