/** What every reachable state of the request manager guarantees. */
module ManagerTheorems {
  import opened RateLimiter
  import opened Wrappers
  import opened Requests
  import opened ManagerSteps
  import opened ManagerConservation
  import opened ManagerPlaces
  import opened ManagerEffects
  import opened ManagerTraces
  import opened ManagerGroups
  import opened ManagerLimits

  ghost predicate Shape(s: State) {
    Kept(s) && Placed(s.work) && Phased(s) && Tokens(s.ledger)
  }

  ghost predicate Books(s: State) {
    && Traced(s.ledger, s.work.slot) && Counted(s.ledger.live, s.groups.counts) && Waited(s.groups)
    && Serialized(s) && InService(s) && Dated(s.limits)
  }

  ghost predicate Inv(s: State) {
    Shape(s) && Books(s)
  }

  lemma InitInv()
    ensures Inv(INIT)
  {
    forall x ensures Occurs(INIT.work, x) == Once(INIT.ledger.live, x) {}
    forall g ensures CountOk(map[], map[], g) {
      assert Members(map[], g) == {};
    }
  }

  lemma ShapeStep(s: State, a: Action)
    requires Shape(s) && Enabled(s, a)
    ensures Shape(Apply(s, a)) && Sound(s, EffectOf(s, a))
  {
    PlacedReports(s.work);
    assert s.ledger.nextToken !in s.ledger.live;
    StepKeeps(s, a);
    PlacedStep(s, a);
    PhasedStep(s, a);
    EffectsAreSound(s, a);
    EffectsHappen(s, a);
    TokensAfter(s, EffectOf(s, a));
  }

  lemma BooksStep(s: State, a: Action)
    requires Inv(s) && Enabled(s, a) && Sound(s, EffectOf(s, a))
    ensures Books(Apply(s, a))
  {
    EffectsHappen(s, a);
    TracedAfter(s, EffectOf(s, a));
    CountsHappen(s, a);
    CountedAfter(s, EffectOf(s, a));
    WaitedStep(s, a);
    SerializedStep(s, a);
    InServiceStep(s, a);
    DatedStep(s, a);
  }

  /** Every step of the worker, of any client and of shutdown keeps the invariant. */
  lemma StepInv(s: State, a: Action)
    requires Inv(s) && Enabled(s, a)
    ensures Inv(Apply(s, a))
  {
    ShapeStep(s, a);
    BooksStep(s, a);
  }

  lemma {:induction false} RunInv(s: State, acts: seq<Action>)
    requires Inv(s) && Legal(s, acts)
    ensures Inv(Exec(s, acts))
    decreases |acts|
  {
    if acts == [] {
    } else {
      StepInv(s, acts[0]);
      RunInv(Apply(s, acts[0]), acts[1..]);
    }
  }

  lemma ReachableInv(s: State)
    requires Reachable(s)
    ensures Inv(s)
  {
    var acts :| Legal(INIT, acts) && Exec(INIT, acts) == s;
    InitInv();
    RunInv(INIT, acts);
  }

  // ----- Conservation

  /** The four places a request can be in between two worker passes. */
  function InLists(w: Work, x: Context): nat {
    InList(w.pending, x) + InList(w.failed, x) + InBatches(w.batches, x)
  }

  /** Whenever the worker is between passes before shutdown, each submitted and uncompleted request is in
      exactly one of pending list, live handler, batch-local retry list and manager retry list, and these
      places hold nothing else. */
  lemma RequestsAreConserved(s: State, x: Context)
    requires Reachable(s) && AtRest(s)
    ensures InLists(s.work, x) == Once(s.ledger.live, x)
  {
    ReachableInv(s);
    assert Occurs(s.work, x) == Once(s.ledger.live, x);
  }

  predicate Reorders(a: Action) {
    a == Worker(ScanOne) || (a.Worker? && a.w.ScanEnd?) || a == End(CancelBegin) || a == End(ShutdownTake)
  }

  /** The pending list is a queue: outside the pending pass, cancellation and shutdown it only grows, at its
      end. */
  lemma PendingIsQueue(s: State, a: Action)
    requires Enabled(s, a) && !Reorders(a)
    ensures s.work.pending <= Apply(s, a).work.pending
  {
    match a
    case Client(c) =>
    case Worker(w) => PendingWorker(s, w);
    case End(e) =>
  }

  lemma PendingWorker(s: State, a: WorkerAction)
    requires WorkerEnabled(s, a) && !a.ScanOne? && !a.ScanEnd?
    ensures s.work.pending <= ApplyWorker(s, a).work.pending
  {
  }

  predicate NoCommit(acts: seq<Action>) {
    forall i :: 0 <= i < |acts| ==> acts[i] != Client(SubmitCommit)
  }

  predicate SubmittingNow(s: State) {
    s.desk.lock.Some? && s.desk.lock.value.Submitting?
  }

  /** While a submission holds the mutex nobody else reaches the pending list. */
  lemma LockGuardsPending(s: State, a: Action)
    requires Phased(s) && Enabled(s, a) && SubmittingNow(s) && a != Client(SubmitCommit)
    ensures SubmittingNow(Apply(s, a)) && Apply(s, a).work.pending == s.work.pending
  {
    match a
    case Client(c) =>
    case Worker(w) => LockGuardsWorker(s, w);
    case End(e) =>
  }

  lemma LockGuardsWorker(s: State, a: WorkerAction)
    requires Phased(s) && WorkerEnabled(s, a) && SubmittingNow(s)
    ensures SubmittingNow(ApplyWorker(s, a)) && ApplyWorker(s, a).work.pending == s.work.pending
  {
  }

  lemma {:induction false} LockGuardsRun(s: State, acts: seq<Action>)
    requires Phased(s) && Legal(s, acts) && SubmittingNow(s) && NoCommit(acts)
    ensures Exec(s, acts).work.pending == s.work.pending
    decreases |acts|
  {
    if acts == [] {
    } else {
      LockGuardsPending(s, acts[0]);
      PhasedStep(s, acts[0]);
      LockGuardsRun(Apply(s, acts[0]), acts[1..]);
    }
  }

  /** The queue limit holds: whatever is interleaved, a submission leaves the pending list no longer than the
      limit that was set when it was accepted. */
  lemma SubmissionsKeepLimit(s: State, req: Option<Request>, hasCallback: bool, acts: seq<Action>)
    requires Reachable(s) && Enabled(s, Client(SubmitEnter(req, hasCallback))) && s.desk.maxPending != 0
    requires Legal(Apply(s, Client(SubmitEnter(req, hasCallback))), acts) && NoCommit(acts)
    requires Enabled(Exec(Apply(s, Client(SubmitEnter(req, hasCallback))), acts), Client(SubmitCommit))
    ensures var u := Exec(Apply(s, Client(SubmitEnter(req, hasCallback))), acts);
      |Apply(u, Client(SubmitCommit)).work.pending| <= s.desk.maxPending
  {
    ReachableInv(s);
    PhasedStep(s, Client(SubmitEnter(req, hasCallback)));
    LockGuardsRun(Apply(s, Client(SubmitEnter(req, hasCallback))), acts);
  }

  predicate IsLoaded(s: State) {
    || s.work.pending != [] || s.work.failed != [] || s.work.batches != []
    || s.groups.counts != map[] || s.desk.cancelIds != {} || s.desk.cancelGroups != {}
  }

  /** When the manager reports no load between passes, every submitted request has had its final callback. */
  lemma UnloadedMeansDone(s: State)
    requires Reachable(s) && AtRest(s) && !IsLoaded(s)
    ensures s.ledger.live == map[] && forall t :: t in s.ledger.records ==> Closed(s.ledger.records[t])
  {
    ReachableInv(s);
    forall t ensures t !in s.ledger.live {
      if t in s.ledger.live { RequestsAreConserved(s, s.ledger.live[t]); }
    }
    forall t | t in s.ledger.records ensures Closed(s.ledger.records[t]) {
      assert TraceOk(s.ledger, s.work.slot, t);
    }
  }

  /** And the load is exact: between passes the manager reports none if and only if no request is live, no
      batch is kept and no cancel order waits. */
  lemma LoadIsExact(s: State)
    requires Reachable(s) && AtRest(s)
    ensures IsLoaded(s) <==> s.ledger.live != map[] || s.work.batches != [] || s.desk.cancelIds != {} || s.desk.cancelGroups != {}
  {
    ReachableInv(s);
    if !IsLoaded(s) { UnloadedMeansDone(s); }
    if s.work.pending != [] {
      assert s.work.pending[0] in multiset(s.work.pending);
      PlacedIsLive(s, s.work.pending[0]);
    }
    if s.work.failed != [] {
      assert s.work.failed[0] in multiset(s.work.failed);
      PlacedIsLive(s, s.work.failed[0]);
    }
    if g :| g in s.groups.counts {
      assert CountOk(s.ledger.live, s.groups.counts, g);
      var t :| t in Members(s.ledger.live, g);
    }
  }

  /** Stored group counts are exact in every reachable state, and no zero count is stored. */
  lemma GroupCountsAreExact(s: State, g: nat)
    requires Reachable(s) && g != 0
    ensures CountOf(s.groups.counts, g) == |Members(s.ledger.live, g)|
    ensures g in s.groups.counts <==> Members(s.ledger.live, g) != {}
  {
    ReachableInv(s);
    assert CountOk(s.ledger.live, s.groups.counts, g);
  }

  // ----- Sequential limits

  /** A sequential token set holds at most one token, and holds `t` exactly while t's request has been
      admitted through that limit and key and not completed. */
  lemma SequentialTokensAreExact(s: State, id: nat, key: string)
    requires Reachable(s) && Sequential(s.limits.limiter, id)
    ensures |TokensAt(s.limits.limiter, id, key)| <= 1
    ensures forall t :: t in TokensAt(s.limits.limiter, id, key) <==> Owns(s.ledger.live, t, id, key)
  {
    ReachableInv(s);
    var tokens := TokensAt(s.limits.limiter, id, key);
    if t :| t in tokens {
      assert tokens == {t};
    }
  }

  /** While a request owns a sequential (limit, key), no other request naming it is admitted, at any time. */
  lemma OwnersExcludeOthers(s: State, owner: nat, id: nat, key: string, c: Context, now: nat)
    requires Reachable(s) && Sequential(s.limits.limiter, id) && Owns(s.ledger.live, owner, id, key)
    requires c.req.Some? && Names(c.req.value.route, id, key) && c.token != owner && c.token != 0
    ensures !Allowed(s.limits.limiter, c.req.value.route, c.token, now)
  {
    SequentialTokensAreExact(s, id, key);
    ReachableInv(s);
    assert owner in TokensAt(s.limits.limiter, id, key) && c.token !in TokensAt(s.limits.limiter, id, key);
    assert ServesRoute(s.limits.limiter, RouteOf(s.ledger.live[owner].req));
    assert !CanPass(s.limits.limiter.limits[id], key, c.token, now);
  }

  /** Ownership lasts over retries, denied retries and cancellation: only the completion that follows
      the request's own final callback gives it up. */
  lemma OwnershipLasts(s: State, a: Action, t: nat, id: nat, key: string)
    requires Reachable(s) && Enabled(s, a) && Owns(s.ledger.live, t, id, key)
    ensures Owns(Apply(s, a).ledger.live, t, id, key) ||
      (a == Worker(ReleaseTokens) && s.work.slot.value.ctx.token == t && t in s.ledger.records && Closed(s.ledger.records[t]))
  {
    ReachableInv(s);
    ShapeStep(s, a);
    EffectsHappen(s, a);
    OwnershipAfter(s, EffectOf(s, a), t, id, key);
    if EffectOf(s, a) == Disarms(s.ledger.live[t]) {
      assert TraceOk(s.ledger, s.work.slot, t);
      OnlyReleaseDisarms(s, a);
    }
  }

  lemma OwnershipAfter(s: State, e: Effect, t: nat, id: nat, key: string)
    requires Tokens(s.ledger) && Sound(s, e) && Owns(s.ledger.live, t, id, key)
    ensures Owns(LedgerAfter(s.ledger, e).live, t, id, key) || e == Disarms(s.ledger.live[t])
  {
  }

  lemma OnlyReleaseDisarms(s: State, a: Action)
    requires Enabled(s, a) && EffectOf(s, a).Disarms?
    ensures a == Worker(ReleaseTokens)
  {
  }

  /** No two transfers in flight share a sequential (limit, key). */
  lemma TransfersAreExclusive(s: State, b1: nat, h1: nat, b2: nat, h2: nat, id: nat, key: string)
    requires Reachable(s) && Sequential(s.limits.limiter, id)
    requires HandlerAt(s.work, b1, h1) && HandlerAt(s.work, b2, h2) && (b1 != b2 || h1 != h2)
    requires Running(s.work.batches[b1].handlers[h1]) && Running(s.work.batches[b2].handlers[h2])
    ensures var c1, c2 := s.work.batches[b1].handlers[h1].ctx.value, s.work.batches[b2].handlers[h2].ctx.value;
      !(Names(RouteOf(c1.req), id, key) && Names(RouteOf(c2.req), id, key))
  {
    var c1, c2 := s.work.batches[b1].handlers[h1].ctx.value, s.work.batches[b2].handlers[h2].ctx.value;
    ReachableInv(s);
    TransferOwns(s, b1, h1);
    TransferOwns(s, b2, h2);
    if Names(RouteOf(c1.req), id, key) && Names(RouteOf(c2.req), id, key) {
      assert Owns(s.ledger.live, c1.token, id, key) && Owns(s.ledger.live, c2.token, id, key);
      assert c1.token in TokensAt(s.limits.limiter, id, key) && c2.token in TokensAt(s.limits.limiter, id, key);
      assert c1 == c2;
      var dead := Handler(None, true, false, false);
      HandlerChanges(s.work, b1, h1, dead, c1);
      RunningOccurs(SetHandler(s.work, b1, h1, dead), b2, h2);
    }
  }

  lemma TransferOwns(s: State, b: nat, h: nat)
    requires Kept(s) && Placed(s.work) && HandlerAt(s.work, b, h) && Running(s.work.batches[b].handlers[h])
    ensures var c := s.work.batches[b].handlers[h].ctx.value; IsLive(s.ledger, c) && c.armed
  {
    HandlerIsOk(s.work, b, h);
    RunningOccurs(s.work, b, h);
    PlacedIsLive(s, s.work.batches[b].handlers[h].ctx.value);
  }

  // ----- Group waiters

  /** Every waiter ever registered is stored, fired or withdrawn, exactly once in all; while stored, its
      group has outstanding requests; and the idle sweep is without effect. */
  lemma WaitersResolveOnce(s: State, w: nat)
    requires Reachable(s)
    ensures w in s.groups.homes <==> 1 <= w < s.groups.nextWaiter
    ensures w in s.groups.homes ==>
      Stored(s.groups.waiters, s.groups.homes[w], w) + s.groups.fired[w] + s.groups.withdrawn[w] == 1
    ensures w in s.groups.homes && Stored(s.groups.waiters, s.groups.homes[w], w) > 0 ==>
      Members(s.ledger.live, s.groups.homes[w]) != {}
    ensures Sweep(s.groups) == s.groups
  {
    ReachableInv(s);
    SweepFindsNothing(s.groups);
    assert w in s.groups.homes ==> WaiterOk(s.groups, w) && CountOk(s.ledger.live, s.groups.counts, s.groups.homes[w]);
  }

  /** Waiting for a group with outstanding requests stores exactly one new waiter, under that group; waiting
      for any other group stores none. */
  lemma WaitingIsStored(s: State, w: nat, h: nat)
    requires Reachable(s) && Enabled(s, Client(WaitCommit))
    ensures var g, g' := s.groups, Apply(s, Client(WaitCommit)).groups;
      var group, busy := s.desk.lock.value.group, Members(s.ledger.live, s.desk.lock.value.group) != {} && s.desk.lock.value.group != 0;
      && Stored(g'.waiters, h, w) == Stored(g.waiters, h, w) + (if busy && h == group && w == g.nextWaiter then 1 else 0)
      && g'.nextWaiter == g.nextWaiter + (if busy then 1 else 0)
  {
    ReachableInv(s);
    var group := s.desk.lock.value.group;
    assert CountOk(s.ledger.live, s.groups.counts, group);
    StoredAdd(s.groups.waiters, group, s.groups.nextWaiter, h, w);
  }

  /** Before shutdown a waiter is fired only by a step that leaves its group without requests. */
  lemma WaitersFireWhenIdle(s: State, a: Action, w: nat)
    requires Reachable(s) && Enabled(s, a) && !s.desk.shutdown
    requires Apply(s, a).groups.fired[w] > s.groups.fired[w]
    ensures w in s.groups.homes && Members(Apply(s, a).ledger.live, s.groups.homes[w]) == {}
  {
    ReachableInv(s);
    FiredByCompletion(s, a, w);
    StepInv(s, a);
    assert CountOk(Apply(s, a).ledger.live, Apply(s, a).groups.counts, s.groups.homes[w]);
  }

  lemma FiredByCompletion(s: State, a: Action, w: nat)
    requires Waited(s.groups) && Phased(s) && Enabled(s, a) && !s.desk.shutdown
    ensures Apply(s, a).groups.fired[w] > s.groups.fired[w] ==>
      w in s.groups.homes && s.groups.homes[w] != 0 && s.groups.homes[w] !in Apply(s, a).groups.counts
  {
    OnlyCompletionFires(s, a);
    SweepFindsNothing(s.groups);
    if Apply(s, a).groups.fired[w] > s.groups.fired[w] {
      CompletionFires(s.groups, GroupOf(s.work.slot.value.ctx.req), w);
    }
  }

  lemma CompletionFires(g: Groups, group: nat, w: nat)
    requires Waited(g) && CompleteOne(g, group).fired[w] > g.fired[w]
    ensures w in g.homes && g.homes[w] == group && group != 0 && group !in CompleteOne(g, group).counts
  {
    StoredLeft(g, group, group, w);
    assert Stored(g.waiters, group, w) > 0;
  }

  lemma OnlyCompletionFires(s: State, a: Action)
    requires Enabled(s, a) && Phased(s) && !s.desk.shutdown
    ensures a == Worker(CompleteGroup) || Apply(s, a).groups.fired == s.groups.fired || Apply(s, a).groups == Sweep(s.groups)
  {
    match a
    case Client(c) =>
    case Worker(w) => if !w.CompleteGroup? && !w.IdleSweep? { GroupsUntouched(s, w); }
    case End(e) =>
  }

  lemma GroupsUntouched(s: State, a: WorkerAction)
    requires WorkerEnabled(s, a) && !a.CompleteGroup? && !a.IdleSweep?
    ensures ApplyWorker(s, a).groups == s.groups
  {
  }

  // ----- Callbacks

  /** The trace of `t` has `k` retries and `m` chunks, and a final callback iff none is awaited. */
  predicate Follows(s: State, t: nat, k: nat, m: nat)
    requires t in s.ledger.records
  {
    && Bounded(s.ledger.records[t].req, k)
    && (if Awaits(s.ledger, s.work.slot, t) then Open(s.ledger.records[t].trace, k, m)
        else ClosedAt(s.ledger.records[t], k, m))
  }

  /** The callbacks of any submitted request are a prefix of Retry^k Chunk* Final: k retries numbered in
      order, at most max(0, retryAttempts - 1) of them, chunks of attempt k + 1, and nothing after Final.
      Final has been delivered exactly when the request no longer awaits completion. */
  lemma CallbacksFollowGrammar(s: State, t: nat)
    requires Reachable(s) && t in s.ledger.records
    ensures exists k: nat, m: nat :: Follows(s, t, k, m)
  {
    ReachableInv(s);
    assert TraceOk(s.ledger, s.work.slot, t);
    if Awaits(s.ledger, s.work.slot, t) {
      assert Follows(s, t, s.ledger.live[t].attempt, s.ledger.live[t].chunks);
    } else {
      var k: nat, m: nat :| ClosedAt(s.ledger.records[t], k, m);
      assert Follows(s, t, k, m);
    }
  }

  // ----- Shutdown

  predicate IsLost(w: Work, t: nat) {
    exists i :: 0 <= i < |w.lost| && w.lost[i].token == t
  }

  /** When shutdown has returned, nothing is left in any list, no waiter is stored, and a submitted request
      has had its one final callback if and only if it was not lost. */
  lemma ShutdownStrandsNothing(s: State, t: nat)
    requires Reachable(s) && s.work.pc.Down?
    ensures s.work.pending == [] && s.work.failed == [] && s.work.batches == [] && WorkerFree(s.work)
    ensures s.groups.waiters == map[]
    ensures t in s.ledger.records && !IsLost(s.work, t) ==> Closed(s.ledger.records[t])
    ensures t in s.ledger.records && IsLost(s.work, t) ==> !Closed(s.ledger.records[t])
  {
    ReachableInv(s);
    if t in s.ledger.records {
      assert TraceOk(s.ledger, s.work.slot, t);
      LiveAreLost(s, t);
      if t in s.ledger.live {
        OpenIsNotClosed(s.ledger.records[t], s.ledger.live[t].attempt, s.ledger.live[t].chunks);
      }
    }
  }

  /** Once the manager is down, the live requests are the lost ones. */
  lemma LiveAreLost(s: State, t: nat)
    requires Inv(s) && s.work.pc.Down?
    ensures t in s.ledger.live <==> IsLost(s.work, t)
  {
    if t in s.ledger.live {
      var x := s.ledger.live[t];
      assert Occurs(s.work, x) == Once(s.ledger.live, x);
      assert x in s.work.lost;
    }
    if i :| 0 <= i < |s.work.lost| && s.work.lost[i].token == t {
      assert s.work.lost[i] in multiset(s.work.lost);
      PlacedIsLive(s, s.work.lost[i]);
    }
  }

  lemma OpenIsNotClosed(r: Record, k: nat, m: nat)
    requires Open(r.trace, k, m)
    ensures !Closed(r)
  {
    assert |r.trace| > 0 ==> !r.trace[|r.trace| - 1].Final?;
    forall k': nat, m': nat ensures !ClosedAt(r, k', m') {}
  }

  /** After shutdown every further step leaves the manager down, so its lists stay empty and no callback
      is delivered any more. */
  lemma DownIsFinal(s: State, a: Action)
    requires Reachable(s) && s.work.pc.Down? && Enabled(s, a)
    ensures Apply(s, a).work == s.work && Apply(s, a).ledger == s.ledger && Apply(s, a).groups.waiters == map[]
  {
    ReachableInv(s);
  }

  /** Contexts are lost only when shutdown destroys the batch in whose retry list they are parked. */
  lemma LostUnchanged(s: State, a: Action)
    requires Enabled(s, a) && a != End(ClearBatch)
    ensures Apply(s, a).work.lost == s.work.lost
  {
    match a
    case Client(c) =>
    case Worker(w) => LostWorker(s, w);
    case End(e) =>
  }

  lemma LostWorker(s: State, a: WorkerAction)
    requires WorkerEnabled(s, a)
    ensures ApplyWorker(s, a).work.lost == s.work.lost
  {
  }

  // ----- Streaming

  predicate Streams(r: Record) {
    forall i :: 0 <= i < |r.trace| && r.trace[i].Chunk? ==> r.req.Some? && r.req.value.streaming
  }

  lemma OnlyStreamingStreams(s: State, a: Action)
    requires Enabled(s, a)
    ensures EffectOf(s, a).Streams? ==> EffectOf(s, a).c.req.Some? && EffectOf(s, a).c.req.value.streaming && EffectOf(s, a).c.hasCallback
  {
  }

  lemma StreamsEffect(s: State, e: Effect, t: nat)
    requires Tokens(s.ledger) && Sound(s, e) && t in LedgerAfter(s.ledger, e).records
    requires t in s.ledger.records ==> Streams(s.ledger.records[t])
    requires e.Streams? ==> e.c.req.Some? && e.c.req.value.streaming
    ensures Streams(LedgerAfter(s.ledger, e).records[t])
  {
  }

  lemma StreamsStep(s: State, a: Action, t: nat)
    requires Shape(s) && Enabled(s, a) && t in Apply(s, a).ledger.records
    requires t in s.ledger.records ==> Streams(s.ledger.records[t])
    ensures Streams(Apply(s, a).ledger.records[t])
  {
    EffectsAreSound(s, a);
    EffectsHappen(s, a);
    OnlyStreamingStreams(s, a);
    StreamsEffect(s, EffectOf(s, a), t);
  }

  lemma {:induction false} StreamsRun(s: State, acts: seq<Action>, t: nat)
    requires Shape(s) && Legal(s, acts) && (t in s.ledger.records ==> Streams(s.ledger.records[t]))
    ensures t in Exec(s, acts).ledger.records ==> Streams(Exec(s, acts).ledger.records[t])
    decreases |acts|
  {
    if acts == [] {
    } else {
      if t in Apply(s, acts[0]).ledger.records { StreamsStep(s, acts[0], t); }
      ShapeStep(s, acts[0]);
      StreamsRun(Apply(s, acts[0]), acts[1..], t);
    }
  }

  /** Chunks are delivered to streaming requests only. */
  lemma ChunksAreStreamed(acts: seq<Action>, t: nat, i: nat)
    requires Legal(INIT, acts) && t in Exec(INIT, acts).ledger.records && i < |Exec(INIT, acts).ledger.records[t].trace|
    requires Exec(INIT, acts).ledger.records[t].trace[i].Chunk?
    ensures var req := Exec(INIT, acts).ledger.records[t].req; req.Some? && req.value.streaming
  {
    InitInv();
    StreamsRun(INIT, acts, t);
  }
}
