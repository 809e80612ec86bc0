/** The values the request manager moves around: requests, their contexts, the handlers and
    batches that run them, and the callbacks delivered to the user. */
module Requests {
  import opened Wrappers
  import opened RateLimiter

  datatype Request = Request(
    requestId: nat, groupId: nat, route: Route,
    retryAttempts: int, retryDelayMs: int, streaming: bool, validStatuses: set<int>)

  /** `req` is the owned request pointer, which may be null. `armed` says that the release callback
      is set, that is, the context passed the limiter and has not been released. `chunks` counts the
      body chunks delivered so far. */
  datatype Context = Context(
    token: nat, req: Option<Request>, hasCallback: bool, attempt: nat, start: nat, armed: bool, chunks: nat)

  /** A handler owns its context until the context is moved out for a retry; after the final or the
      retry callback `called` is set. `inMulti` says that libcurl may still report on it. */
  datatype Handler = Handler(ctx: Option<Context>, called: bool, hasChunk: bool, inMulti: bool)

  datatype Batch = Batch(multi: bool, handlers: seq<Handler>, failed: seq<Context>)

  /** A call of the user's response callback, with the attempt number of its response;
      only `Final` carries a response marked ready. */
  datatype Delivery = Retry(attempt: nat) | Chunk(attempt: nat) | Final(attempt: nat)

  const NO_ROUTE := Route(0, "", 0, "")

  function RouteOf(req: Option<Request>): Route {
    if req.Some? then req.value.route else NO_ROUTE
  }

  function GroupOf(req: Option<Request>): nat {
    if req.Some? then req.value.groupId else 0
  }

  /** The handler's context is still waiting for its callback. */
  predicate Running(h: Handler) {
    h.ctx.Some? && !h.called
  }

  /** The retry decision at the end of a transfer, `attempt` already counting it. */
  predicate ShouldRetry(req: Request, attempt: nat, curlError: bool, status: int, hasChunk: bool) {
    && req.retryAttempts != 0
    && (curlError || status !in req.validStatuses)
    && attempt < req.retryAttempts
    && !hasChunk
  }

  predicate Matches(req: Option<Request>, ids: set<nat>, groups: set<nat>) {
    && req.Some?
    && ((req.value.requestId != 0 && req.value.requestId in ids) || (req.value.groupId != 0 && req.value.groupId in groups))
  }

  predicate HandlerMatches(h: Handler, ids: set<nat>, groups: set<nat>) {
    h.ctx.Some? && Matches(h.ctx.value.req, ids, groups)
  }

  // ----- The mutex-protected maps

  function CountOf(counts: map<nat, nat>, group: nat): nat {
    if group != 0 && group in counts then counts[group] else 0
  }

  function CountUp(counts: map<nat, nat>, group: nat): map<nat, nat> {
    if group == 0 then counts
    else counts[group := (if group in counts then counts[group] else 0) + 1]
  }

  function CountDown(counts: map<nat, nat>, group: nat): map<nat, nat> {
    if group == 0 || group !in counts then counts
    else if counts[group] > 1 then counts[group := counts[group] - 1]
    else counts - {group}
  }

  /** The waiters taken for notification when a group's count is dropped. */
  function TakenBy(counts: map<nat, nat>, waiters: map<nat, seq<nat>>, group: nat): seq<nat> {
    if group != 0 && group in counts && counts[group] <= 1 && group in waiters then waiters[group] else []
  }

  function WaitersLeft(counts: map<nat, nat>, waiters: map<nat, seq<nat>>, group: nat): map<nat, seq<nat>> {
    if group != 0 && group in counts && counts[group] <= 1 then waiters - {group} else waiters
  }

  function AddWaiter(waiters: map<nat, seq<nat>>, group: nat, id: nat): map<nat, seq<nat>> {
    waiters[group := (if group in waiters then waiters[group] else []) + [id]]
  }

  function Without<T>(s: seq<T>, i: nat): (r: seq<T>)
    requires i < |s|
    ensures multiset(s) == multiset(r) + multiset{s[i]}
    ensures forall k :: 0 <= k < |r| ==> r[k] == s[if k < i then k else k + 1]
  {
    assert s == s[..i] + [s[i]] + s[i + 1..];
    s[..i] + s[i + 1..]
  }

  function DropWaiter(waiters: map<nat, seq<nat>>, group: nat, i: nat): map<nat, seq<nat>>
    requires group in waiters && i < |waiters[group]|
  {
    var rest := Without(waiters[group], i);
    if rest == [] then waiters - {group} else waiters[group := rest]
  }

  /** The waiters of groups that still have requests, and of groups that have none. */
  function Busy(counts: map<nat, nat>, waiters: map<nat, seq<nat>>): map<nat, seq<nat>> {
    map g | g in waiters && CountOf(counts, g) != 0 :: waiters[g]
  }

  function Idling(counts: map<nat, nat>, waiters: map<nat, seq<nat>>): map<nat, seq<nat>> {
    map g | g in waiters && CountOf(counts, g) == 0 :: waiters[g]
  }

  /** Every stored waiter, with multiplicity. */
  ghost function AllWaiters(waiters: map<nat, seq<nat>>): multiset<nat>
    decreases |waiters|
  {
    if waiters == map[] then multiset{}
    else
      var g :| g in waiters;
      multiset(waiters[g]) + AllWaiters(waiters - {g})
  }

  /** The total does not depend on the order in which groups are visited. */
  lemma {:induction false} AllWaitersFrom(waiters: map<nat, seq<nat>>, g: nat)
    requires g in waiters
    ensures AllWaiters(waiters) == multiset(waiters[g]) + AllWaiters(waiters - {g})
    decreases |waiters|
  {
    var g0 :| g0 in waiters && AllWaiters(waiters) == multiset(waiters[g0]) + AllWaiters(waiters - {g0});
    if g != g0 {
      AllWaitersFrom(waiters - {g0}, g);
      AllWaitersFrom(waiters - {g}, g0);
      assert waiters - {g0} - {g} == waiters - {g} - {g0};
    }
  }

  /** Contexts of `cs` matched by a cancellation, in order, and the others, in order. */
  function Cancelled(cs: seq<Context>, ids: set<nat>, groups: set<nat>): seq<Context> {
    if cs == [] then []
    else if Matches(cs[0].req, ids, groups) then [cs[0]] + Cancelled(cs[1..], ids, groups)
    else Cancelled(cs[1..], ids, groups)
  }

  function Spared(cs: seq<Context>, ids: set<nat>, groups: set<nat>): seq<Context> {
    if cs == [] then []
    else if Matches(cs[0].req, ids, groups) then Spared(cs[1..], ids, groups)
    else [cs[0]] + Spared(cs[1..], ids, groups)
  }

  /** `a` is what is left of `b` when some elements are dropped, in the same order. */
  predicate Subsequence<T(==)>(a: seq<T>, b: seq<T>)
    decreases |b|
  {
    a == [] || (b != [] && ((a[0] == b[0] && Subsequence(a[1..], b[1..])) || Subsequence(a, b[1..])))
  }

  lemma {:induction false} CancelKeepsOrder(cs: seq<Context>, ids: set<nat>, groups: set<nat>)
    ensures Subsequence(Cancelled(cs, ids, groups), cs) && Subsequence(Spared(cs, ids, groups), cs)
  {
    if cs == [] {
    } else {
      CancelKeepsOrder(cs[1..], ids, groups);
      var c, s := Cancelled(cs[1..], ids, groups), Spared(cs[1..], ids, groups);
      assert ([cs[0]] + c)[1..] == c && ([cs[0]] + s)[1..] == s;
    }
  }

  lemma {:induction false} CancelPartitions(cs: seq<Context>, ids: set<nat>, groups: set<nat>)
    ensures multiset(Cancelled(cs, ids, groups)) + multiset(Spared(cs, ids, groups)) == multiset(cs)
    ensures forall c :: c in Cancelled(cs, ids, groups) <==> c in cs && Matches(c.req, ids, groups)
    ensures forall c :: c in Spared(cs, ids, groups) <==> c in cs && !Matches(c.req, ids, groups)
  {
    if cs == [] {
    } else {
      CancelPartitions(cs[1..], ids, groups);
      assert cs == [cs[0]] + cs[1..];
    }
  }
}
