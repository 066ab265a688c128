/**
 * The `GET /` handler of server.js: a cache-or-fetch step over two store keys,
 * `count` (hits since the last refresh) and `todos` (the last fetched payload,
 * kept for ten seconds).  The store is the client's view of Redis at one
 * instant `now`; the upstream `fetch` is a parameter giving its outcome.
 */
module Server {
  import opened Options

  const CacheTtlSeconds := 10
  const StatusOk := 200
  const StatusServerError := 500
  const FetchErrorMessage := "Failed to fetch data"

  /** What `fetch(...)` followed by `response.json()` produced: a parsed body, or a
      rejection from either call.  The HTTP status is never looked at. */
  datatype Upstream<P> = Fetched(data: P) | FetchFailed

  datatype Body<P> = Payload(data: P) | ErrorBody(error: string)

  datatype Response<P> = Response(status: int, body: Body<P>)

  /** The two keys as the store holds them.  `todosDeadline` is the instant at which
      the TTL of `todos` runs out; `None` means the key carries no TTL. */
  datatype Keys<P> = Keys(count: Option<int>, todos: Option<P>, todosDeadline: Option<int>)

  /** Whether a GET of `todos` at instant `now` finds it. */
  predicate Live<P>(k: Keys<P>, now: int) {
    k.todos.Some? && (k.todosDeadline.None? || now < k.todosDeadline.value)
  }

  /** `count` is never negative. */
  predicate CountValid<P>(k: Keys<P>) {
    k.count.Some? ==> k.count.value >= 0
  }

  /** Lines 11-14: create `count` as 0 when the key is absent; any stored value,
      including 0, is truthy as a string and is left alone. */
  function EnsureCount<P>(k: Keys<P>): (r: Keys<P>)
    ensures r.count.Some?
    ensures k.count.None? ==> r.count == Some(0)
    ensures k.count.Some? ==> r == k
    ensures r.todos == k.todos && r.todosDeadline == k.todosDeadline
  {
    if k.count.None? then k.(count := Some(0)) else k
  }

  /** The keys after one request and the response sent. */
  datatype Outcome<P> = Outcome(after: Keys<P>, response: Response<P>)

  /** One `GET /` at instant `now`, as a single atomic step.  Afterwards `count`
      exists; a hit leaves `todos` and its deadline as they were; the status is 200
      exactly when the request hits or the fetch succeeds, and 500 otherwise. */
  function Serve<P>(k: Keys<P>, now: int, upstream: Upstream<P>): (r: Outcome<P>)
    ensures r.after.count.Some?
    ensures Live(k, now) ==> r.after.todos == k.todos && r.after.todosDeadline == k.todosDeadline
    ensures r.response.status == StatusOk <==> Live(k, now) || upstream.Fetched?
    ensures r.response.status == StatusOk || r.response.status == StatusServerError
  {
    var k1 := EnsureCount(k);
    if Live(k1, now) then
      Outcome(k1.(count := Some(k1.count.value + 1)), Response(StatusOk, Payload(k1.todos.value)))
    else
      match upstream
      case Fetched(data) =>
        Outcome(Keys(Some(0), Some(data), Some(now + CacheTtlSeconds)), Response(StatusOk, Payload(data)))
      case FetchFailed =>
        Outcome(k1, Response(StatusServerError, ErrorBody(FetchErrorMessage)))
  }

  /** A hit adds exactly one to `count`, leaves `todos` and its TTL alone, and serves
      the cached payload with status 200. */
  lemma ServeHit<P>(k: Keys<P>, now: int, upstream: Upstream<P>)
    requires Live(k, now)
    ensures Serve(k, now, upstream).after
         == Keys(Some(EnsureCount(k).count.value + 1), k.todos, k.todosDeadline)
    ensures Serve(k, now, upstream).response == Response(StatusOk, Payload(k.todos.value))
  {
  }

  /** A hit does not depend on the upstream at all: no fetch happens. */
  lemma HitIgnoresUpstream<P>(k: Keys<P>, now: int, u1: Upstream<P>, u2: Upstream<P>)
    requires Live(k, now)
    ensures Serve(k, now, u1) == Serve(k, now, u2)
  {
  }

  /** A miss whose fetch succeeds caches the data for ten seconds, resets `count` to 0
      and serves the data with status 200. */
  lemma ServeMissFetched<P>(k: Keys<P>, now: int, data: P)
    requires !Live(k, now)
    ensures Serve(k, now, Fetched(data)).after == Keys(Some(0), Some(data), Some(now + 10))
    ensures Serve(k, now, Fetched(data)).response == Response(200, Payload(data))
  {
  }

  /** A miss whose fetch fails answers 500 with the fixed error body; `todos` stays
      absent and `count` keeps the value the lazy initialisation left. */
  lemma ServeMissFailed<P>(k: Keys<P>, now: int)
    requires !Live(k, now)
    ensures Serve(k, now, FetchFailed).response == Response(500, ErrorBody("Failed to fetch data"))
    ensures Serve(k, now, FetchFailed).after == EnsureCount(k)
    ensures !Live(Serve(k, now, FetchFailed).after, now)
  {
  }

  /** The status is 200 exactly when the request hits or the fetch succeeds; every
      200 response carries a payload and every 500 the error body. */
  lemma ServeStatus<P>(k: Keys<P>, now: int, upstream: Upstream<P>)
    ensures var r := Serve(k, now, upstream).response;
      (r.status == StatusOk <==> Live(k, now) || upstream.Fetched?)
      && (r.status == StatusOk <==> r.body.Payload?)
      && (r.status == StatusOk || r.status == StatusServerError)
  {
  }

  /** `count` only ever moves by +1 (hit), to 0 (refresh), or stays (failed fetch):
      it is never negative. */
  lemma ServeKeepsCountValid<P>(k: Keys<P>, now: int, upstream: Upstream<P>)
    requires CountValid(k)
    ensures CountValid(Serve(k, now, upstream).after)
    ensures Serve(k, now, upstream).after.count.Some?
  {
  }

  /** A request: the instant it is served at and what the upstream would answer. */
  datatype Request<P> = Request(time: int, upstream: Upstream<P>)

  /** The keys after a sequence of requests served one after another, and the responses. */
  datatype Trace<P> = Trace(after: Keys<P>, responses: seq<Response<P>>)

  function Run<P>(k: Keys<P>, requests: seq<Request<P>>): (t: Trace<P>)
    ensures |t.responses| == |requests|
    ensures requests != [] ==> t.after.count.Some?
    ensures forall i :: 0 <= i < |t.responses| ==>
      t.responses[i].status == StatusOk || t.responses[i].status == StatusServerError
    decreases |requests|
  {
    if requests == [] then Trace(k, [])
    else
      var o := Serve(k, requests[0].time, requests[0].upstream);
      var t := Run(o.after, requests[1..]);
      Trace(t.after, [o.response] + t.responses)
  }

  /** Over any sequence of requests, `count` is never negative. */
  lemma {:induction false} RunKeepsCountValid<P>(k: Keys<P>, requests: seq<Request<P>>)
    requires CountValid(k)
    ensures CountValid(Run(k, requests).after)
    decreases |requests|
  {
    if requests != [] {
      ServeKeepsCountValid(k, requests[0].time, requests[0].upstream);
      RunKeepsCountValid(Serve(k, requests[0].time, requests[0].upstream).after, requests[1..]);
    }
  }

  /** While `todos` is live, every request is a hit: each one serves the same cached
      payload, adds one to `count` and leaves `todos` and its deadline untouched, so
      repeated hits are idempotent on the cache. */
  lemma {:induction false} HitsWhileLive<P>(k: Keys<P>, requests: seq<Request<P>>)
    requires k.count.Some?
    requires forall i :: 0 <= i < |requests| ==> Live(k, requests[i].time)
    ensures Run(k, requests).after == k.(count := Some(k.count.value + |requests|))
    ensures forall i :: 0 <= i < |requests| ==>
      Run(k, requests).responses[i] == Response(StatusOk, Payload(k.todos.value))
    decreases |requests|
  {
    if requests != [] {
      var k1 := k.(count := Some(k.count.value + 1));
      assert Serve(k, requests[0].time, requests[0].upstream).after == k1;
      HitsWhileLive(k1, requests[1..]);
      assert forall i :: 1 <= i < |requests| ==> requests[1..][i - 1] == requests[i];
    }
  }

  /** From the keys a refresh at `t` leaves, requests before `t + 10` are all hits on
      `data`, and `count` ends up counting them. */
  lemma HitsAfterRefresh<P>(k1: Keys<P>, t: int, data: P, hits: seq<Request<P>>)
    requires k1 == Keys(Some(0), Some(data), Some(t + 10))
    requires forall i :: 0 <= i < |hits| ==> hits[i].time < t + 10
    ensures Run(k1, hits).after == Keys(Some(|hits|), Some(data), Some(t + 10))
    ensures forall i :: 0 <= i < |hits| ==> Run(k1, hits).responses[i] == Response(StatusOk, Payload(data))
  {
    forall i | 0 <= i < |hits| ensures Live(k1, hits[i].time) {
    }
    HitsWhileLive(k1, hits);
  }

  /** After a refresh at instant `t`, every later request before `t + 10` is a hit on
      the fetched data, with `count` counting them; the first request at `t + 10` or
      later misses, fetches again and resets `count` to 0. */
  lemma RefreshThenWindow<P>(k: Keys<P>, t: int, data: P, hits: seq<Request<P>>, later: int, newer: P)
    requires !Live(k, t)
    requires forall i :: 0 <= i < |hits| ==> t <= hits[i].time < t + 10
    requires later >= t + 10
    ensures var k1 := Serve(k, t, Fetched(data)).after;
      var tr := Run(k1, hits);
      && tr.after == Keys(Some(|hits|), Some(data), Some(t + 10))
      && (forall i :: 0 <= i < |hits| ==> tr.responses[i] == Response(200, Payload(data)))
      && Serve(tr.after, later, Fetched(newer))
         == Outcome(Keys(Some(0), Some(newer), Some(later + 10)), Response(200, Payload(newer)))
  {
    ServeMissFetched(k, t, data);
    var k1 := Serve(k, t, Fetched(data)).after;
    assert k1 == Keys(Some(0), Some(data), Some(t + 10));
    HitsAfterRefresh(k1, t, data, hits);
    var after := Run(k1, hits).after;
    assert !Live(after, later);
    ServeMissFetched(after, later, newer);
  }

  /**
   * The Redis client as the handler sees it at one instant: the two keys, each
   * command a method.  `todos` expiring is the store's business; a GET at `now`
   * simply does not find a key whose deadline has passed.
   */
  class Store<P> {
    var count: Option<int>
    var todos: Option<P>
    var todosDeadline: Option<int>

    function View(): Keys<P>
      reads this
    {
      Keys(count, todos, todosDeadline)
    }

    constructor (initial: Keys<P>)
      ensures View() == initial
    {
      count, todos, todosDeadline := initial.count, initial.todos, initial.todosDeadline;
    }

    /** `GET count`. */
    method GetCount() returns (c: Option<int>)
      ensures c == count
    {
      c := count;
    }

    /** `SET count v`. */
    method SetCount(v: int)
      modifies this`count
      ensures count == Some(v)
    {
      count := Some(v);
    }

    /** `INCR count`: an absent key counts as 0. */
    method IncrCount()
      modifies this`count
      ensures count == Some(old(count).GetOr(0) + 1)
    {
      count := Some(count.GetOr(0) + 1);
    }

    /** `GET todos` at instant `now`. */
    method GetTodos(now: int) returns (t: Option<P>)
      ensures t.Some? <==> Live(View(), now)
      ensures t.Some? ==> t == todos
    {
      t := if Live(View(), now) then todos else None;
    }

    /** `SET todos p`: a plain SET drops any TTL the key had. */
    method SetTodos(p: P)
      modifies this`todos, this`todosDeadline
      ensures todos == Some(p) && todosDeadline == None
    {
      todos, todosDeadline := Some(p), None;
    }

    /** `EXPIRE todos seconds` at instant `now`: only a key that exists gets a TTL. */
    method ExpireTodos(now: int, seconds: int)
      modifies this`todosDeadline
      ensures todosDeadline == if Live(old(View()), now) then Some(now + seconds) else old(todosDeadline)
    {
      if Live(View(), now) {
        todosDeadline := Some(now + seconds);
      }
    }

    /** `app.get('/')`: one request at instant `now`, with the client initialised and
        every store command succeeding. */
    method HandleGet(now: int, upstream: Upstream<P>) returns (response: Response<P>)
      modifies this
      ensures View() == Serve(old(View()), now, upstream).after
      ensures response == Serve(old(View()), now, upstream).response
    {
      var c := GetCount();
      if c.None? {
        SetCount(0);
      }
      var cached := GetTodos(now);
      if cached.Some? {
        IncrCount();
        return Response(StatusOk, Payload(cached.value));
      }
      match upstream {
        case Fetched(data) =>
          SetTodos(data);
          ExpireTodos(now, CacheTtlSeconds);
          SetCount(0);
          response := Response(StatusOk, Payload(data));
        case FetchFailed =>
          response := Response(StatusServerError, ErrorBody(FetchErrorMessage));
      }
    }
  }
}
