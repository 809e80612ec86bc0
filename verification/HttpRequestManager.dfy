/** The manager's critical sections and the handler's callbacks as methods on mutable objects, each
    proved against the functions the transition system is built from. */
module HttpRequestManagerObject {
  import opened RateWindow
  import opened RateLimiter
  import opened HttpRateLimiterObject
  import opened Wrappers
  import opened Requests
  import opened ManagerSteps
  import opened ManagerConservation
  import opened ManagerRetries

  datatype SubmitResult = Accepted | ShuttingDown | QueueLimitExceeded

  /** The pending loop over a list: the limiter afterwards, and the contexts kept, failed and admitted. */
  datatype Scan = Scan(limiter: Limiter, kept: seq<Context>, doomed: seq<Context>, ready: seq<Context>)

  /** One turn of the pending loop at clock reading `now`. */
  function ScanTurn(x: Scan, c: Context, now: nat): Scan {
    if c.req.None? then x.(doomed := x.doomed + [c])
    else if Allowed(x.limiter, c.req.value.route, c.token, now) then
      x.(limiter := Allow(x.limiter, c.req.value.route, c.token, now), ready := x.ready + [c.(armed := true)])
    else x.(kept := x.kept + [c])
  }

  function ScanList(x: Scan, cs: seq<Context>, nows: seq<nat>): Scan
    requires |nows| == |cs|
  {
    if cs == [] then x
    else
      var n := |cs| - 1;
      ScanTurn(ScanList(x, cs[..n], nows[..n]), cs[n], nows[n])
  }

  lemma {:induction false} ScanListFront(x: Scan, cs: seq<Context>, nows: seq<nat>)
    requires |nows| == |cs| && cs != []
    ensures ScanList(x, cs, nows) == ScanList(ScanTurn(x, cs[0], nows[0]), cs[1..], nows[1..])
    decreases |cs|
  {
    var n := |cs| - 1;
    if n == 0 {
    } else {
      ScanListFront(x, cs[..n], nows[..n]);
      assert cs[..n][1..] == cs[1..][..n - 1] && nows[..n][1..] == nows[1..][..n - 1];
    }
  }

  lemma {:induction false} SubsequenceOn(a: seq<Context>, b: seq<Context>, c: Context)
    requires Subsequence(a, b)
    ensures Subsequence(a + [c], b + [c]) && Subsequence(a, b + [c])
    decreases |b|
  {
    if b == [] {
      assert a + [c] == [c] && b + [c] == [c] && [c][1..] == [];
    } else {
      assert (b + [c])[1..] == b[1..] + [c] && (b + [c])[0] == b[0];
      if a == [] {
        SubsequenceOn(a, b[1..], c);
      } else if a[0] == b[0] && Subsequence(a[1..], b[1..]) {
        assert (a + [c])[1..] == a[1..] + [c] && (a + [c])[0] == a[0];
        SubsequenceOn(a[1..], b[1..], c);
      } else {
        SubsequenceOn(a, b[1..], c);
      }
    }
  }

  /** The pending pass keeps the order of the requests it keeps and of those it fails. */
  lemma {:induction false} ScanKeepsOrder(l: Limiter, cs: seq<Context>, nows: seq<nat>)
    requires |nows| == |cs|
    ensures var x := ScanList(Scan(l, [], [], []), cs, nows); Subsequence(x.kept, cs) && Subsequence(x.doomed, cs)
    decreases |cs|
  {
    if cs == [] {
    } else {
      var n := |cs| - 1;
      ScanKeepsOrder(l, cs[..n], nows[..n]);
      var x := ScanList(Scan(l, [], [], []), cs[..n], nows[..n]);
      SubsequenceOn(x.kept, cs[..n], cs[n]);
      SubsequenceOn(x.doomed, cs[..n], cs[n]);
      assert cs == cs[..n] + [cs[n]];
    }
  }

  /** The clock moves on to each of `nows` before the turn that reads it. */
  predicate Onward(clock: nat, nows: seq<nat>)
    decreases |nows|
  {
    nows == [] || (nows[0] >= clock && Onward(nows[0], nows[1..]))
  }

  /** A whole pass of the pending loop, one clock reading per request. */
  function ScanAll(s: State, nows: seq<nat>): State
    requires s.work.pc.Scanning? && |nows| == |s.work.pending| && Onward(s.limits.clock, nows)
    decreases |nows|
  {
    if nows == [] then s
    else ScanAll(DoScan(ApplyClient(s, Tick(nows[0]))), nows[1..])
  }

  /** The loop over the list is the whole pass of the transition system. */
  lemma {:induction false} ScanListIsPass(s: State, nows: seq<nat>)
    requires s.work.pc.Scanning? && |nows| == |s.work.pending| && Onward(s.limits.clock, nows)
    ensures var x := ScanList(Scan(s.limits.limiter, s.work.pc.kept, s.work.doomed, s.work.pc.ready), s.work.pending, nows);
      var s' := ScanAll(s, nows);
      && s'.work.pc == Scanning(x.kept, x.ready) && s'.work.doomed == x.doomed && s'.work.pending == []
      && s'.limits.limiter == x.limiter
    decreases |nows|
  {
    if nows == [] {
    } else {
      ScanListFront(Scan(s.limits.limiter, s.work.pc.kept, s.work.doomed, s.work.pc.ready), s.work.pending, nows);
      ScanListIsPass(DoScan(ApplyClient(s, Tick(nows[0]))), nows[1..]);
    }
  }

  predicate Withdrawn(waiters: map<nat, seq<nat>>, left: map<nat, seq<nat>>, group: nat, id: nat, i: nat) {
    group in waiters && i < |waiters[group]| && waiters[group][i] == id && left == DropWaiter(waiters, group, i)
  }

  predicate IsDue(c: Context, now: nat) {
    c.req.Some? && ToMs(now - c.start) >= c.req.value.retryDelayMs
  }

  /** The contexts the retry pass moves to the pending list, and those it keeps; a null request is dropped. */
  function Due(cs: seq<Context>, nows: seq<nat>): seq<Context>
    requires |nows| == |cs|
  {
    if cs == [] then []
    else if IsDue(cs[0], nows[0]) then [cs[0]] + Due(cs[1..], nows[1..])
    else Due(cs[1..], nows[1..])
  }

  function Undue(cs: seq<Context>, nows: seq<nat>): seq<Context>
    requires |nows| == |cs|
  {
    if cs == [] then []
    else if cs[0].req.Some? && !IsDue(cs[0], nows[0]) then [cs[0]] + Undue(cs[1..], nows[1..])
    else Undue(cs[1..], nows[1..])
  }

  /** The retry pass moves exactly the contexts whose delay has passed since their start, and keeps exactly
      the others. */
  lemma {:induction false} DueIs(cs: seq<Context>, nows: seq<nat>, c: Context)
    requires |nows| == |cs| && forall i :: 0 <= i < |cs| ==> cs[i].start <= nows[i]
    ensures c in Due(cs, nows) <==> exists i :: 0 <= i < |cs| && cs[i] == c && c.req.Some? && nows[i] >= DueTime(c)
    ensures c in Undue(cs, nows) <==> exists i :: 0 <= i < |cs| && cs[i] == c && c.req.Some? && nows[i] < DueTime(c)
  {
    if cs == [] {
    } else {
      DueIs(cs[1..], nows[1..], c);
      assert forall i :: 0 < i < |cs| ==> cs[i] == cs[1..][i - 1] && nows[i] == nows[1..][i - 1];
      assert forall i :: 0 <= i < |cs[1..]| ==> cs[1..][i] == cs[i + 1] && nows[1..][i] == nows[i + 1];
      if cs[0].req.Some? { DelayInMs(nows[0] - cs[0].start, cs[0].req.value.retryDelayMs); }
    }
  }

  lemma {:induction false} RetryKeepsOrder(cs: seq<Context>, nows: seq<nat>)
    requires |nows| == |cs|
    ensures Subsequence(Due(cs, nows), cs) && Subsequence(Undue(cs, nows), cs)
  {
    if cs == [] {
    } else {
      RetryKeepsOrder(cs[1..], nows[1..]);
      var d, u := Due(cs[1..], nows[1..]), Undue(cs[1..], nows[1..]);
      assert ([cs[0]] + d)[1..] == d && ([cs[0]] + u)[1..] == u;
    }
  }

  /** The retry pass loses and repeats nothing: without null requests, which the retry list never holds,
      the moved and the kept contexts are a permutation of the list. */
  lemma {:induction false} RetryPassConserves(cs: seq<Context>, nows: seq<nat>)
    requires |nows| == |cs| && forall i :: 0 <= i < |cs| ==> cs[i].req.Some?
    ensures multiset(Due(cs, nows)) + multiset(Undue(cs, nows)) == multiset(cs)
  {
    if cs == [] {
    } else {
      RetryPassConserves(cs[1..], nows[1..]);
      assert cs == [cs[0]] + cs[1..];
    }
  }

  /** The batches the active pass keeps, and the contexts it collects from the finished ones. */
  function Unfinished(bs: seq<Batch>, done: seq<bool>): seq<Batch>
    requires |done| == |bs|
  {
    if bs == [] then []
    else if done[0] then Unfinished(bs[1..], done[1..])
    else [bs[0]] + Unfinished(bs[1..], done[1..])
  }

  function Extracted(bs: seq<Batch>, done: seq<bool>): seq<Context>
    requires |done| == |bs|
  {
    if bs == [] then []
    else if done[0] then bs[0].failed + Extracted(bs[1..], done[1..])
    else Extracted(bs[1..], done[1..])
  }

  /** The active pass loses and repeats nothing, finished batches having no handler left. */
  lemma {:induction false} ActivePassConserves(bs: seq<Batch>, done: seq<bool>, x: Context)
    requires |done| == |bs| && forall i :: 0 <= i < |bs| && done[i] ==> bs[i].handlers == []
    ensures InBatches(Unfinished(bs, done), x) + InList(Extracted(bs, done), x) == InBatches(bs, x)
  {
    if bs == [] {
    } else {
      var rest := Unfinished(bs[1..], done[1..]);
      ActivePassConserves(bs[1..], done[1..], x);
      if done[0] {
        ListsIn(bs[0].failed, Extracted(bs[1..], done[1..]), x);
      } else {
        assert ([bs[0]] + rest)[1..] == rest;
      }
    }
  }

  class HttpRequestManager {
    var pending: seq<Context>
    var failed: seq<Context>
    var batches: seq<Batch>
    var cancelIds: set<nat>
    var cancelGroups: set<nat>
    var counts: map<nat, nat>
    var waiters: map<nat, seq<nat>>
    var nextToken: nat
    var nextWaiter: nat
    var maxPending: nat
    var shutdown: bool
    const limiter: HttpRateLimiter

    constructor ()
      ensures pending == [] && failed == [] && batches == [] && counts == map[] && waiters == map[] && !shutdown
      ensures cancelIds == {} && cancelGroups == {} && nextToken == 1 && nextWaiter == 1 && maxPending == 0
      ensures fresh(limiter) && limiter.View() == EMPTY
    {
      pending, failed, batches, cancelIds, cancelGroups := [], [], [], {}, {};
      counts, waiters, nextToken, nextWaiter := map[], map[], 1, 1;
      maxPending, shutdown := 0, false;
      limiter := new HttpRateLimiter();
    }

    method SubmitRequest(req: Option<Request>, hasCallback: bool) returns (result: SubmitResult)
      modifies this`pending, this`counts, this`nextToken
      ensures result.ShuttingDown? <==> shutdown
      ensures result.QueueLimitExceeded? <==> !shutdown && maxPending != 0 && |old(pending)| >= maxPending
      ensures if result.Accepted?
        then pending == old(pending) + [Submitted(old(nextToken), req, hasCallback)]
          && counts == CountUp(old(counts), GroupOf(req)) && nextToken == old(nextToken) + 1
        else unchanged(this)
    {
      if shutdown { return ShuttingDown; }
      if maxPending != 0 && |pending| >= maxPending { return QueueLimitExceeded; }
      var token := nextToken;
      nextToken := nextToken + 1;
      var groupId := if req.Some? then req.value.groupId else 0;
      if groupId != 0 {
        counts := counts[groupId := (if groupId in counts then counts[groupId] else 0) + 1];
      }
      pending := pending + [Context(token, req, hasCallback, 0, 0, false, 0)];
      return Accepted;
    }

    /** Returns the waiter id, or zero when the callback must be invoked immediately. */
    method WaitRequestsByGroupId(group: nat) returns (id: nat)
      modifies this`waiters, this`nextWaiter
      ensures if shutdown || CountOf(counts, group) == 0
        then id == 0 && unchanged(this)
        else id == old(nextWaiter) && nextWaiter == id + 1 && waiters == AddWaiter(old(waiters), group, id)
    {
      if shutdown || group == 0 || CountOf(counts, group) == 0 { return 0; }
      id := nextWaiter;
      nextWaiter := nextWaiter + 1;
      waiters := waiters[group := (if group in waiters then waiters[group] else []) + [id]];
    }

    method CancelWait(group: nat, id: nat) returns (found: bool)
      modifies this`waiters
      ensures found <==> group != 0 && id != 0 && group in old(waiters) && id in old(waiters)[group]
      ensures !found ==> unchanged(this)
      ensures found ==> exists i: nat :: Withdrawn(old(waiters), waiters, group, id, i)
    {
      if group == 0 || id == 0 || group !in waiters { return false; }
      var list, i := waiters[group], 0;
      while i < |list|
        invariant 0 <= i <= |list| && waiters == old(waiters)
        invariant forall k :: 0 <= k < i ==> list[k] != id
      {
        if list[i] == id {
          var rest := list[..i] + list[i + 1..];
          waiters := if rest == [] then waiters - {group} else waiters[group := rest];
          assert Withdrawn(old(waiters), waiters, group, id, i);
          return true;
        }
        i := i + 1;
      }
      return false;
    }

    /** The pending loop, with the clock reading each admission check makes. */
    method ScanPending(nows: seq<nat>) returns (doomed: seq<Context>, ready: seq<Context>)
      requires |nows| == |pending|
      modifies this`pending, limiter
      ensures var x := ScanList(Scan(old(limiter.View()), [], [], []), old(pending), nows);
        pending == x.kept && doomed == x.doomed && ready == x.ready && limiter.View() == x.limiter
    {
      var kept, i := [], 0;
      doomed, ready := [], [];
      ghost var start := Scan(limiter.View(), [], [], []);
      while i < |pending|
        invariant 0 <= i <= |pending| && pending == old(pending)
        invariant Scan(limiter.View(), kept, doomed, ready) == ScanList(start, pending[..i], nows[..i])
      {
        var context := pending[i];
        if context.req.None? {
          doomed := doomed + [context];
        } else {
          var allowed := limiter.AllowRequest(context.req.value.route, context.token, nows[i]);
          if allowed {
            ready := ready + [context.(armed := true)];
          } else {
            kept := kept + [context];
          }
        }
        assert pending[..i + 1][..i] == pending[..i] && nows[..i + 1][..i] == nows[..i];
        i := i + 1;
      }
      assert pending[..i] == pending && nows[..i] == nows;
      pending := kept;
    }

    /** The head of a cancellation pass: the orders are taken and the matching pending requests extracted. */
    method TakeCancelled() returns (ids: set<nat>, groups: set<nat>, cancelled: seq<Context>)
      modifies this`pending, this`cancelIds, this`cancelGroups
      ensures ids == old(cancelIds) && groups == old(cancelGroups) && cancelIds == {} && cancelGroups == {}
      ensures cancelled == Cancelled(old(pending), ids, groups) && pending == Spared(old(pending), ids, groups)
    {
      ids, groups := cancelIds, cancelGroups;
      cancelIds, cancelGroups := {}, {};
      var spared, i := [], 0;
      cancelled := [];
      while i < |pending|
        invariant 0 <= i <= |pending| && pending == old(pending)
        invariant cancelled + Cancelled(pending[i..], ids, groups) == Cancelled(pending, ids, groups)
        invariant spared + Spared(pending[i..], ids, groups) == Spared(pending, ids, groups)
      {
        assert pending[i..][1..] == pending[i + 1..];
        if Matches(pending[i].req, ids, groups) {
          cancelled := cancelled + [pending[i]];
        } else {
          spared := spared + [pending[i]];
        }
        i := i + 1;
      }
      pending := spared;
    }

    /** The middle of a cancellation pass: matching requests leave the retry list. */
    method CancelFailedRequests(ids: set<nat>, groups: set<nat>) returns (cancelled: seq<Context>)
      modifies this`failed
      ensures cancelled == Cancelled(old(failed), ids, groups) && failed == Spared(old(failed), ids, groups)
    {
      var spared, i := [], 0;
      cancelled := [];
      while i < |failed|
        invariant 0 <= i <= |failed| && failed == old(failed)
        invariant cancelled + Cancelled(failed[i..], ids, groups) == Cancelled(failed, ids, groups)
        invariant spared + Spared(failed[i..], ids, groups) == Spared(failed, ids, groups)
      {
        assert failed[i..][1..] == failed[i + 1..];
        if Matches(failed[i].req, ids, groups) {
          cancelled := cancelled + [failed[i]];
        } else {
          spared := spared + [failed[i]];
        }
        i := i + 1;
      }
      failed := spared;
    }

    /** The retry pass, with the clock reading each check makes. */
    method ProcessRetryFailedRequests(nows: seq<nat>)
      requires |nows| == |failed|
      modifies this`pending, this`failed
      ensures pending == old(pending) + Due(old(failed), nows) && failed == Undue(old(failed), nows)
    {
      var kept, i := [], 0;
      ghost var moved := [];
      while i < |failed|
        invariant 0 <= i <= |failed| && failed == old(failed) && pending == old(pending) + moved
        invariant moved + Due(failed[i..], nows[i..]) == Due(failed, nows)
        invariant kept + Undue(failed[i..], nows[i..]) == Undue(failed, nows)
      {
        assert failed[i..][1..] == failed[i + 1..] && nows[i..][1..] == nows[i + 1..];
        var context := failed[i];
        if context.req.Some? {
          if ToMs(nows[i] - context.start) >= context.req.value.retryDelayMs {
            pending := pending + [context];
            moved := moved + [context];
          } else {
            kept := kept + [context];
          }
        }
        i := i + 1;
      }
      failed := kept;
    }

    /** The pass over the active batches, with what each one's processing left of it and answered: a
        finished batch leaves the list and hands over its own retry list. */
    method ProcessActiveRequests(results: seq<Batch>, done: seq<bool>)
      requires |results| == |done| == |batches|
      modifies this`batches, this`failed
      ensures batches == Unfinished(results, done) && failed == old(failed) + Extracted(results, done)
    {
      var kept, i := [], 0;
      while i < |batches|
        invariant 0 <= i <= |batches| && batches == old(batches)
        invariant kept + Unfinished(results[i..], done[i..]) == Unfinished(results, done)
        invariant failed + Extracted(results[i..], done[i..]) == old(failed) + Extracted(results, done)
      {
        assert results[i..][1..] == results[i + 1..] && done[i..][1..] == done[i + 1..];
        if done[i] {
          failed := failed + results[i].failed;
        } else {
          kept := kept + [results[i]];
        }
        i := i + 1;
      }
      batches := kept;
    }

    method CompleteGroupRequest(group: nat) returns (ready: seq<nat>)
      modifies this`counts, this`waiters
      ensures counts == CountDown(old(counts), group) && waiters == WaitersLeft(old(counts), old(waiters), group)
      ensures ready == TakenBy(old(counts), old(waiters), group)
    {
      ready := [];
      if group == 0 || group !in counts { return; }
      if counts[group] > 1 {
        counts := counts[group := counts[group] - 1];
      } else {
        counts := counts - {group};
        if group in waiters {
          ready := waiters[group];
        }
        waiters := waiters - {group};
      }
    }

    /** The idle sweep: waiters of groups without requests are taken. */
    method TakeIdleWaiters() returns (ready: map<nat, seq<nat>>)
      modifies this`waiters
      ensures waiters == Busy(counts, old(waiters)) && ready == Idling(counts, old(waiters))
    {
      ready := map[];
      var todo := waiters.Keys;
      while todo != {}
        invariant todo <= old(waiters).Keys
        invariant waiters == map g | g in old(waiters) && (g in todo || CountOf(counts, g) != 0) :: old(waiters)[g]
        invariant ready == map g | g in old(waiters) && g !in todo && CountOf(counts, g) == 0 :: old(waiters)[g]
        decreases |todo|
      {
        var g :| g in todo;
        if CountOf(counts, g) == 0 {
          ready := ready[g := waiters[g]];
          waiters := waiters - {g};
        }
        todo := todo - {g};
      }
    }

    /** All waiters are taken and their callbacks run, group by group. */
    method NotifyAllGroupWaiters() returns (fired: seq<nat>)
      modifies this`waiters
      ensures waiters == map[] && multiset(fired) == AllWaiters(old(waiters))
    {
      var todo := waiters;
      waiters := map[];
      fired := [];
      while todo != map[]
        invariant waiters == map[]
        invariant multiset(fired) + AllWaiters(todo) == AllWaiters(old(waiters))
        decreases |todo|
      {
        var g :| g in todo.Keys;
        AllWaitersFrom(todo, g);
        fired := fired + todo[g];
        todo := todo - {g};
      }
    }

    method CleanupPendingRequests() returns (doomed: seq<Context>)
      modifies this`pending, this`failed
      ensures doomed == old(pending) + old(failed) && pending == [] && failed == []
    {
      doomed := pending + failed;
      pending, failed := [], [];
    }
  }

  predicate Streaming(h: Handler) {
    h.ctx.Some? && h.ctx.value.req.Some? && h.ctx.value.req.value.streaming && h.ctx.value.hasCallback
  }

  function Streamed(h: Handler): Handler
    requires h.ctx.Some?
  {
    h.(ctx := Some(h.ctx.value.(chunks := h.ctx.value.chunks + 1)), hasChunk := true)
  }

  /** One running request: its context and the flags that guard its callback. */
  class HttpRequestHandler {
    var ctx: Option<Context>
    var called: bool
    var hasChunk: bool
    var inMulti: bool

    ghost function View(): Handler
      reads this
    {
      Handler(ctx, called, hasChunk, inMulti)
    }

    constructor (context: Context)
      ensures View() == Handler(Some(context), false, false, true)
    {
      ctx, called, hasChunk, inMulti := Some(context), false, false, true;
    }

    /** A DONE message: the delivery made, and the context given up when the request is to be retried. */
    method HandleCurlMessage(curlError: bool, status: int, now: nat) returns (delivery: Delivery, parked: Option<Context>)
      requires ctx.Some? && ctx.value.req.Some?
      modifies this
      ensures var c := old(ctx).value.(attempt := old(ctx).value.attempt + 1);
        var retry := ShouldRetry(c.req.value, c.attempt, curlError, status, old(hasChunk));
        && delivery == (if retry then Retry(c.attempt) else Final(c.attempt))
        && parked == (if retry then Some(c.(start := now)) else None)
        && View() == old(View()).(ctx := if retry then None else Some(c), called := true, inMulti := false)
    {
      var context := ctx.value.(attempt := ctx.value.attempt + 1);
      var request := context.req.value;
      var shouldRetry :=
        request.retryAttempts != 0 && (curlError || status !in request.validStatuses)
        && context.attempt < request.retryAttempts && !hasChunk;
      called, inMulti := true, false;
      if !shouldRetry {
        ctx := Some(context);
        return Final(context.attempt), None;
      }
      ctx := None;
      return Retry(context.attempt), Some(context.(start := now));
    }

    /** Body data of non-zero size: a chunk is delivered only to a streaming request with a callback. */
    method EmitStreamChunk() returns (delivery: Option<Delivery>)
      modifies this
      ensures var h := old(View());
        if Streaming(h)
        then delivery == Some(Chunk(h.ctx.value.attempt + 1)) && View() == Streamed(h)
        else delivery == None && View() == h
    {
      if ctx.None? || ctx.value.req.None? || !ctx.value.req.value.streaming || !ctx.value.hasCallback { return None; }
      hasChunk := true;
      delivery := Some(Chunk(ctx.value.attempt + 1));
      ctx := Some(ctx.value.(chunks := ctx.value.chunks + 1));
    }

    /** Cancellation and destruction deliver the final callback only if no callback was made before. */
    method Conclude() returns (delivery: Option<Delivery>)
      modifies this`called
      ensures delivery == if Running(old(View())) then Some(Final(0)) else None
      ensures View() == old(View()).(called := true)
    {
      delivery := None;
      if !called {
        called := true;
        if ctx.Some? { delivery := Some(Final(0)); }
      }
    }
  }
}
