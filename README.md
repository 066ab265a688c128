# simple-redis-implementation, modelled in Dafny

The system is a small Express server with one route, `GET /`. The route proxies an
upstream list of todos through Redis. The payload is cached under the key `todos`
for ten seconds. A counter `count` records how many cache hits have happened
since the last refresh. A connector module (`redis.js`) builds the Redis client
configuration from the environment, supplies the reconnect back-off, and keeps an
`isConnected` flag up to date from the client's events.

The model has four modules:

- `Options` (options.dfy): the optional values used throughout. `None` stands for an absent key, an unset variable or NaN.
- `ParseInt` (parse_int.dfy): JavaScript `parseInt(s, 10)` as section 19.2.5 of ECMA-262 defines it. It strips leading white space, reads an optional sign, then takes the longest run of decimal digits. No digits gives NaN. `Decimal` is an independent reference spelling of a number, and the lemmas prove that parsing reads it back.
- `Redis` (redis.dfy): `parseEnvInt`, the host/port/database defaults, `reconnectStrategy`, and the `redisClient`/`isConnected` bindings. The bindings are a `Connector` class whose methods run `init` and the event handlers. `Replay` folds the handlers over a signal sequence.
- `Server` (server.dfy): the request handler. `Keys` is the value of the two keys. `Serve` is the specification of one request. `Store` is a class whose methods are the Redis commands the handler issues. `Store.HandleGet` runs those commands step by step, and its contract says it performs exactly `Serve`. `Run` serves a sequence of requests, and the lemmas about `Run` give the cache-window behaviour.

Time is an explicit integer `now`, in seconds. `todos` is found by a GET at `now`
exactly when it is stored and either has no TTL or `now` is before its deadline.
A plain `SET` drops any TTL. `EXPIRE` gives a TTL only to a key that exists.
The upstream is a parameter, `Fetched(data)` or `FetchFailed`. The payload is an
opaque type parameter, and it is stored and served unchanged.

Two consequences of the code are worth stating:

- A failed fetch leaves `count` at the value the lazy initialisation gave it (server.js:11-14). So a request that finds `count` absent and then fails still creates `count = 0`.
- The handler never looks at the HTTP status of the upstream response (server.js:26-28). Any JSON body, including an error document, is cached and served with status 200. Among the upstream's outcomes, only a rejected `fetch` or a body that does not parse gives the 500 response. A store command inside the `try` that fails (server.js:28-30) also gives the 500; that case is not modelled (see Left out).

## Model

| member | source | states |
|---|---|---|
| ParseInt.IsStrWhiteSpace | redis.js:10 | the ECMA-262 WhiteSpace and LineTerminator characters that parseInt skips; none of them is a digit or a sign |
| ParseInt.TrimStart | redis.js:10 | parseInt's TrimString: the result is a suffix of the input, everything removed is ECMA-262 white space or a line terminator, and the result does not start with one |
| ParseInt.Unsigned | redis.js:10 | one leading '+' or '-' is removed and nothing else; text without a sign is unchanged |
| ParseInt.DigitPrefixLength | redis.js:10 | the length of the longest prefix of decimal digits: all of that prefix are digits and the next character (if any) is not |
| ParseInt.ParseTrimmed | redis.js:10 | on trimmed text, NaN exactly when no digit follows the optional sign |
| ParseInt.ParseInt10 | redis.js:10 | parseInt(s, 10) is NaN exactly when, after white space and an optional sign, the text does not start with a decimal digit |
| ParseInt.DigitsValue | redis.js:10 | the value parseInt computes from the digit prefix; it is 0 exactly when every digit is '0' (DigitsValueOfDecimal and LeadingZerosValue state the rest) |
| ParseInt.Decimal | redis.js:10 | the reference decimal spelling of a natural number is non-empty and all digits |
| ParseInt.DigitsValueOfDecimal | redis.js:10 | the value of the digits of the decimal spelling of n is n |
| ParseInt.LeadingZerosValue | redis.js:10 | leading zeros do not change the value of a digit string |
| ParseInt.TrimWhiteSpacePrefix | redis.js:10 | trimming white space followed by text that does not start with white space gives that text |
| ParseInt.DigitPrefixOfDigits | redis.js:10 | the digit prefix of digits followed by a non-digit is exactly those digits |
| ParseInt.ParseSkipsWhiteSpace | redis.js:10 | leading white space does not change what parseInt returns |
| ParseInt.UnsignedOfSigned | redis.js:10 | an optional sign before a digit is exactly what is removed, and the number is negative exactly when that sign is '-' |
| ParseInt.ParseTrimmedDigits | redis.js:10 | trimmed text whose unsigned part is digits followed by a non-digit reads the value of those digits, negated after '-' |
| ParseInt.ParseDigits | redis.js:10 | white space, an optional sign, any non-empty run of digits (leading zeros allowed) and any non-digit tail parse to the value of the digits, negated after '-' |
| ParseInt.ParseDecimal | redis.js:10 | white space, an optional sign, the decimal spelling of n and any non-digit tail parse to n or -n |
| ParseInt.TrimmedNoDigits | redis.js:10 | text that does not start with white space and has no digit after its optional sign parses to NaN |
| ParseInt.ParseNoDigits | redis.js:10 | white space and an optional sign followed by no decimal digit parse to NaN |
| Redis.ParseEnvInt | redis.js:9-12 | an unset or empty variable yields the fallback, and any other result is what parseInt read from the variable |
| Redis.ParseEnvIntFallback | redis.js:10-11 | the fallback is taken exactly when the variable is unset or parseInt gives NaN; the empty-string guard changes nothing |
| Redis.ParseEnvIntDecimal | redis.js:10-11 | a variable holding an optionally signed decimal integer with any non-digit tail yields that integer |
| Redis.ParseEnvIntDigits | redis.js:10-11 | a variable holding white space, an optional sign, digits with or without leading zeros and a non-digit tail yields the value of the digits |
| Redis.ParseEnvIntZeroPadded | redis.js:10-11 | zero padding is ignored: '06379' yields 6379 |
| Redis.ParseEnvIntNoDigits | redis.js:10-11 | a variable with no leading integer yields the fallback |
| Redis.Host | redis.js:16 | the host is the variable when it is set and non-empty, otherwise 'localhost'; it is never empty |
| Redis.Configure | redis.js:14-27 | each variable falls back independently: the host is REDIS_HOST when set and non-empty, otherwise 'localhost'; the port is what parseInt reads from REDIS_PORT, or 6379 when it is unset or NaN; the database likewise from REDIS_DB with 0 |
| Redis.ConfigureDefaults | redis.js:16-26 | whatever the other variables hold, an unset REDIS_HOST gives 'localhost', an unset REDIS_PORT 6379 and an unset REDIS_DB 0; with nothing set the client targets localhost:6379, database 0 |
| Redis.ReconnectStrategy | redis.js:18-24 | gives up with 'Redis connection failed' exactly when retries > 10; any delay is at most 3000 ms; for 0..10 retries the delay is retries*100, at most 1000, so the 3000 cap never binds |
| Redis.ReconnectDelayMonotone | redis.js:23 | the delay does not decrease as the retry count grows over the range that retries |
| Redis.Apply | redis.js:32-53 | 'ready' sets the flag, 'error', 'end' and an init failure clear it, 'connect' and 'reconnecting' leave it |
| Redis.Replay | redis.js:32-61 | the flag after the handlers of a signal sequence run in order; 'connect' and 'reconnecting' alone never change it (ReplaySnoc and ConnectedIffReadyLast state the rest) |
| Redis.ReplaySnoc | redis.js:32-61 | handling one more signal applies its handler to the flag the earlier signals left |
| Redis.ConnectedIffReadyLast | redis.js:4-61 | starting from false, the flag is true exactly when some 'ready' arrived and no error, end or init failure came after it |
| Redis.Connector.constructor | redis.js:3-4 | at module load there is no client and the flag is false |
| Redis.Connector.OnSignal | redis.js:32-53 | the flag after a handler is Apply of the flag before it |
| Redis.Connector.Init | redis.js:6-64 | init always assigns the client built from the environment's configuration; a rejected connect clears the flag and is not rethrown |
| Server.EnsureCount | server.js:11-14 | an absent count becomes 0; a present count, whatever its value, and the todos key are left unchanged |
| Server.Serve | server.js:6-37 | one request as a single step: count exists afterwards, a hit leaves todos and its deadline alone, and the status is 200 exactly on a hit or a successful fetch and 500 otherwise (ServeHit, ServeMissFetched and ServeMissFailed state each branch) |
| Server.ServeHit | server.js:17-22 | on a hit, count rises by exactly 1, todos and its deadline are unchanged, and the cached payload is served with 200 |
| Server.HitIgnoresUpstream | server.js:19-26 | on a hit the outcome is the same for every upstream answer, so no fetch is made |
| Server.ServeMissFetched | server.js:25-32 | on a miss with a successful fetch, todos holds the data with deadline now+10, count is 0, and the data is served with 200 |
| Server.ServeMissFailed | server.js:25-35 | on a miss with a failed fetch, the response is 500 with error 'Failed to fetch data', todos stays absent and count keeps its post-initialisation value |
| Server.ServeStatus | server.js:19-35 | the status is 200 exactly when the request hits or the fetch succeeds, 200 always carries a payload, and the only other status is 500 |
| Server.ServeKeepsCountValid | server.js:11-30 | if count is not negative before a request it is present and not negative after it |
| Server.Run | server.js:6-37 | requests served one after another: one response per request, each 200 or 500, and count exists after any non-empty run (RunKeepsCountValid, HitsWhileLive and RefreshThenWindow state the rest) |
| Server.RunKeepsCountValid | server.js:11-30 | over any sequence of requests count never becomes negative |
| Server.HitsWhileLive | server.js:17-22 | while todos is live every request is a hit that serves the same payload; after n such requests count has grown by n and todos and its deadline are unchanged |
| Server.HitsAfterRefresh | server.js:17-22 | from the keys a refresh at t leaves, requests before t+10 all hit the fetched data and count ends at their number |
| Server.RefreshThenWindow | server.js:19-32 | after a refresh at t, requests in [t, t+10) all hit the fetched data and count them; a request at t+10 or later misses, refetches and resets count to 0 |
| Server.Store.GetCount | server.js:11 | GET count returns the stored count |
| Server.Store.SetCount | server.js:13 | SET count stores the given value |
| Server.Store.IncrCount | server.js:20 | INCR count adds one, an absent key counting as 0 |
| Server.Store.GetTodos | server.js:17 | GET todos finds the key exactly when it is live at now, and then returns the stored payload |
| Server.Store.SetTodos | server.js:28 | SET todos stores the payload and drops any TTL |
| Server.Store.ExpireTodos | server.js:29 | EXPIRE gives a live todos the deadline now+seconds and leaves an absent key alone |
| Server.Store.HandleGet | server.js:6-37 | the command sequence of the handler leaves the store in, and answers with, exactly what Serve specifies |

## Left out

- The Redis client library, Express routing, `app.listen` on port 3000 and the network `fetch` are foreign code and I/O. They are replaced by the `Store` class, an explicit clock and the `Upstream` parameter.
- `JSON.stringify` / `JSON.parse` of the payload: the payload is an opaque value stored and returned as is.
- Concurrent requests: each request is one atomic step. Interleavings that race on `count` and `todos` are not modelled.
- `Run` does not require request times to be non-decreasing, although real requests arrive in time order. Redis deletes an expired `todos`; the model keeps it with its past deadline. A request with an earlier `now` that follows a failed refetch would therefore find it live again, which Redis never does. The lemmas about `Run` hold for any order of times.
- The null-client path (server.js:8-10) and store commands that fail. `Store.HandleGet` assumes an initialised client whose commands succeed.
- A store command that fails inside the `try` (server.js:28-30) is not modelled. In the code it yields the 500 response, possibly after a partial update such as `set` succeeding and `expire` failing.
- The extra `GET count` used only for the log line after a hit (server.js:21) and all `console` logging are left out, because neither affects the store or the response.
- `count` is an unbounded integer. Redis INCR fails at the 64-bit signed limit, and that overflow is not modelled.
- The model reads a stored `count` as truthy whenever it is present. The handler only ever writes "0" or INCR results, never an empty string.
- ParseInt.ParseInt10: returns the exact integer. JavaScript returns a double, so digit strings beyond 2^53 are rounded and very long ones give Infinity. -0 is read as 0. The input is treated as a sequence of code points rather than UTF-16 code units, which makes no difference to the white-space set.
- Redis.Connector.Init: the events the client emits while `connect()` is pending are delivered separately through `OnSignal`. The actual timing of reconnect attempts, and the retry counter that the client library keeps, are not modelled.
