/**
 * The store connector (redis.js): how `init` derives the client configuration
 * from the environment, the reconnect back-off it hands to the client, and the
 * module-level `redisClient` / `isConnected` bindings that `init` and the
 * client's event handlers assign.
 */
module Redis {
  import opened Options
  import opened ParseInt

  const DefaultHost := "localhost"
  const DefaultPort := 6379
  const DefaultDatabase := 0

  /** `parseEnvInt(value, fallback)`: an unset or empty variable, or one whose
      text has no leading integer (parseInt gives NaN), yields `fallback`. */
  function ParseEnvInt(value: Option<string>, fallback: int): (r: int)
    ensures value.None? || value == Some("") ==> r == fallback
    ensures r != fallback ==> value.Some? && ParseInt10(value.value) == Some(r)
  {
    var n := if value.Some? && value.value != "" then ParseInt10(value.value) else None;
    if n.None? then fallback else n.value
  }

  /** The `value ?` guard is redundant: parseInt of the empty string is NaN anyway,
      so the fallback is taken exactly when the variable is unset or parses to NaN. */
  lemma ParseEnvIntFallback(value: Option<string>, fallback: int)
    ensures ParseEnvInt(value, fallback) == (if value.None? then fallback else ParseInt10(value.value).GetOr(fallback))
  {
    if value == Some("") {
      assert TrimStart("") == "";
    }
  }

  /** A variable holding an optionally signed decimal integer, possibly surrounded by
      white space before and non-digit text after, yields that integer. */
  lemma ParseEnvIntDecimal(w: string, sign: string, n: nat, rest: string, fallback: int)
    requires AllWhiteSpace(w)
    requires sign == "" || sign == "+" || sign == "-"
    requires rest == [] || !IsDecimalDigit(rest[0])
    ensures ParseEnvInt(Some(w + sign + Decimal(n) + rest), fallback) == (if sign == "-" then -(n as int) else n)
  {
    ParseDecimal(w, sign, n, rest);
  }

  /** A variable holding an optionally signed run of digits, leading zeros included
      (`"06379"`), possibly with white space before and non-digit text after, yields
      the value of those digits. */
  lemma ParseEnvIntDigits(w: string, sign: string, d: string, rest: string, fallback: int)
    requires AllWhiteSpace(w)
    requires sign == "" || sign == "+" || sign == "-"
    requires d != [] && AllDigits(d)
    requires rest == [] || !IsDecimalDigit(rest[0])
    ensures ParseEnvInt(Some(w + sign + d + rest), fallback) == (if sign == "-" then -(DigitsValue(d) as int) else DigitsValue(d))
  {
    ParseDigits(w, sign, d, rest);
  }

  /** Zero padding in front of a number is ignored: `"06379"` configures port 6379. */
  lemma ParseEnvIntZeroPadded(zeros: string, n: nat, fallback: int)
    requires AllZeros(zeros)
    ensures ParseEnvInt(Some(zeros + Decimal(n)), fallback) == n
  {
    LeadingZerosValue(zeros, Decimal(n));
    DigitsValueOfDecimal(n);
    assert "" + "" + (zeros + Decimal(n)) + "" == zeros + Decimal(n);
    ParseEnvIntDigits("", "", zeros + Decimal(n), "", fallback);
  }

  /** A variable with no leading integer yields the fallback. */
  lemma ParseEnvIntNoDigits(w: string, sign: string, rest: string, fallback: int)
    requires AllWhiteSpace(w)
    requires sign == "" || sign == "+" || sign == "-"
    requires rest == [] || !IsDecimalDigit(rest[0])
    requires sign == "" && rest != [] ==> !IsStrWhiteSpace(rest[0]) && rest[0] != '+' && rest[0] != '-'
    ensures ParseEnvInt(Some(w + sign + rest), fallback) == fallback
  {
    ParseNoDigits(w, sign, rest);
  }

  /** The three variables `init` reads; `None` is an unset variable. */
  datatype Env = Env(redisHost: Option<string>, redisPort: Option<string>, redisDb: Option<string>)

  /** The parts of `clientConfig` that come from the environment. */
  datatype ClientConfig = ClientConfig(host: string, port: int, database: int)

  /** `process.env.REDIS_HOST || 'localhost'`: only a set, non-empty value is used. */
  function Host(value: Option<string>): (h: string)
    ensures h != ""
    ensures value.Some? && value.value != "" ==> h == value.value
    ensures value.None? || value.value == "" ==> h == DefaultHost
  {
    if value.Some? && value.value != "" then value.value else DefaultHost
  }

  /** The configuration `init` passes to `createClient`.  Each variable falls back
      to its own default independently of the others. */
  function Configure(env: Env): (c: ClientConfig)
    ensures env.redisHost.None? || env.redisHost == Some("") ==> c.host == DefaultHost
    ensures env.redisHost.Some? && env.redisHost.value != "" ==> c.host == env.redisHost.value
    ensures c.port == (if env.redisPort.None? then DefaultPort else ParseInt10(env.redisPort.value).GetOr(DefaultPort))
    ensures c.database == (if env.redisDb.None? then DefaultDatabase else ParseInt10(env.redisDb.value).GetOr(DefaultDatabase))
  {
    ParseEnvIntFallback(env.redisPort, DefaultPort);
    ParseEnvIntFallback(env.redisDb, DefaultDatabase);
    ClientConfig(Host(env.redisHost), ParseEnvInt(env.redisPort, DefaultPort), ParseEnvInt(env.redisDb, DefaultDatabase))
  }

  /** Every unset variable takes its default, whatever the others hold: host
      'localhost', port 6379, database 0. */
  lemma ConfigureDefaults(env: Env)
    ensures env.redisHost.None? ==> Configure(env).host == "localhost"
    ensures env.redisPort.None? ==> Configure(env).port == 6379
    ensures env.redisDb.None? ==> Configure(env).database == 0
    ensures env == Env(None, None, None) ==> Configure(env) == ClientConfig("localhost", 6379, 0)
  {
  }

  const MaxRetries := 10
  const RetryStepMs := 100
  const MaxDelayMs := 3000
  const GiveUpMessage := "Redis connection failed"

  /** What `reconnectStrategy` tells the client: wait and retry, or stop with an error. */
  datatype Reconnect = Retry(delayMs: int) | GiveUp(message: string)

  function Min(a: int, b: int): int {
    if a < b then a else b
  }

  /** `reconnectStrategy(retries)`. */
  function ReconnectStrategy(retries: int): (r: Reconnect)
    ensures r.GiveUp? <==> retries > MaxRetries
    ensures r.GiveUp? ==> r.message == GiveUpMessage
    ensures r.Retry? ==> r.delayMs <= MaxDelayMs
    ensures 0 <= retries <= MaxRetries ==> r == Retry(retries * RetryStepMs) && 0 <= r.delayMs <= 1000
  {
    if retries > MaxRetries then GiveUp(GiveUpMessage) else Retry(Min(retries * RetryStepMs, MaxDelayMs))
  }

  /** The delay never shrinks as the retry count grows, over the range that retries. */
  lemma ReconnectDelayMonotone(a: int, b: int)
    requires a <= b <= MaxRetries
    ensures ReconnectStrategy(a).delayMs <= ReconnectStrategy(b).delayMs
  {
  }

  /** Signals that reach the `isConnected` binding: the five client events `init`
      subscribes to, and the exception its `catch` block handles. */
  datatype Signal = Connect | Ready | Error | End | Reconnecting | InitFailed

  /** Signals whose handler sets `isConnected` to false. */
  predicate Clears(s: Signal) {
    s == Error || s == End || s == InitFailed
  }

  /** The flag after one handler has run. */
  function Apply(connected: bool, s: Signal): (r: bool)
    ensures s == Ready ==> r
    ensures Clears(s) ==> !r
    ensures s == Connect || s == Reconnecting ==> r == connected
  {
    match s
    case Ready => true
    case Error | End | InitFailed => false
    case Connect | Reconnecting => connected
  }

  /** The flag after a sequence of signals, in delivery order; `connect` and
      `reconnecting` alone never change it. */
  function Replay(connected: bool, signals: seq<Signal>): (r: bool)
    ensures (forall i :: 0 <= i < |signals| ==> signals[i] == Connect || signals[i] == Reconnecting) ==> r == connected
    decreases |signals|
  {
    if signals == [] then connected else Replay(Apply(connected, signals[0]), signals[1..])
  }

  /** Delivering one more signal applies its handler to the replayed flag. */
  lemma {:induction false} ReplaySnoc(connected: bool, signals: seq<Signal>, s: Signal)
    ensures Replay(connected, signals + [s]) == Apply(Replay(connected, signals), s)
    decreases |signals|
  {
    if signals != [] {
      assert (signals + [s])[1..] == signals[1..] + [s];
      ReplaySnoc(Apply(connected, signals[0]), signals[1..], s);
    } else {
      assert [] + [s] == [s];
    }
  }

  /** `signals[i]` is a `ready` that no later error, end or init failure undoes. */
  predicate ReadyUndisturbedFrom(signals: seq<Signal>, i: int)
    requires 0 <= i < |signals|
  {
    signals[i] == Ready && forall j :: i < j < |signals| ==> !Clears(signals[j])
  }

  /** Starting from `isConnected = false`, the flag is true exactly when some `ready`
      has arrived and no `error`, `end` or init failure came after it. */
  lemma {:induction false} ConnectedIffReadyLast(signals: seq<Signal>)
    ensures Replay(false, signals) <==> exists i :: 0 <= i < |signals| && ReadyUndisturbedFrom(signals, i)
    decreases |signals|
  {
    if signals != [] {
      var init := signals[..|signals| - 1];
      var last := signals[|signals| - 1];
      assert signals == init + [last];
      ReplaySnoc(false, init, last);
      ConnectedIffReadyLast(init);
      if last == Ready {
        assert ReadyUndisturbedFrom(signals, |signals| - 1);
      } else if Clears(last) {
        forall i | 0 <= i < |signals| ensures !ReadyUndisturbedFrom(signals, i) {
          if i < |signals| - 1 {
            assert Clears(signals[|signals| - 1]);
          }
        }
      } else {
        forall i | 0 <= i < |init| ensures ReadyUndisturbedFrom(signals, i) == ReadyUndisturbedFrom(init, i) {
        }
        if Replay(false, signals) {
          var i :| 0 <= i < |init| && ReadyUndisturbedFrom(init, i);
          assert ReadyUndisturbedFrom(signals, i);
        }
      }
    }
  }

  /** The module-level bindings of redis.js: `redisClient` (here, the configuration
      it was created with, `None` while it is still null) and `isConnected`. */
  class Connector {
    var client: Option<ClientConfig>
    var isConnected: bool

    /** Module load: `redisClient = null`, `isConnected = false`. */
    constructor ()
      ensures client == None && !isConnected
    {
      client := None;
      isConnected := false;
    }

    /** Runs the handler registered for signal `s`. */
    method OnSignal(s: Signal)
      modifies this`isConnected
      ensures isConnected == Apply(old(isConnected), s)
      ensures isConnected == (s == Ready || (old(isConnected) && !Clears(s)))
    {
      match s {
        case Ready => isConnected := true;
        case Error => isConnected := false;
        case End => isConnected := false;
        case InitFailed => isConnected := false;
        case Connect =>
        case Reconnecting =>
      }
    }

    /** `init()`: builds the configuration and creates the client; when `connect()`
        rejects, the `catch` block records the failure and `init` still returns normally. */
    method Init(env: Env, connectRejected: bool)
      modifies this
      ensures client == Some(Configure(env))
      ensures isConnected == (!connectRejected && old(isConnected))
    {
      client := Some(Configure(env));
      if connectRejected {
        OnSignal(InitFailed);
      }
    }
  }
}
