/** Progress: atomic two-limit admission cannot deadlock the pending list. */
module ManagerProgress {
  import opened RateWindow
  import opened RateLimiter
  import opened Requests
  import opened ManagerSteps
  import opened ManagerConservation
  import opened ManagerPlaces
  import opened ManagerEffects
  import opened ManagerLimits
  import opened ManagerTheorems

  /** Some request was admitted or failed. */
  predicate Progressed(s: State) {
    s.work.doomed != [] || (s.work.pc.Scanning? && s.work.pc.ready != [])
  }

  /** A pass in the making: turns of the loop, and between them whatever clients can do meanwhile. */
  predicate OfPass(acts: seq<Action>) {
    forall i :: 0 <= i < |acts| ==> acts[i].Client? || acts[i] == Worker(ScanOne)
  }

  /** Every turn reads a clock of at least `since`. */
  ghost predicate TurnsFrom(s: State, acts: seq<Action>, since: nat)
    requires Legal(s, acts)
    decreases |acts|
  {
    acts != [] ==>
      && (acts[0] == Worker(ScanOne) ==> s.limits.clock >= since)
      && TurnsFrom(Apply(s, acts[0]), acts[1..], since)
  }

  lemma {:induction false} ProgressLasts(s: State, acts: seq<Action>)
    requires Phased(s) && s.work.pc.Scanning? && Legal(s, acts) && OfPass(acts) && Progressed(s)
    ensures Progressed(Exec(s, acts))
    decreases |acts|
  {
    if acts == [] {
    } else {
      PassStep(s, acts[0]);
      PhasedStep(s, acts[0]);
      ProgressLasts(Apply(s, acts[0]), acts[1..]);
    }
  }

  /** During the pass clients reach none of the lists. */
  lemma PassStep(s: State, a: Action)
    requires Phased(s) && s.work.pc.Scanning? && Enabled(s, a) && (a.Client? || a == Worker(ScanOne))
    ensures Apply(s, a).work.pc.Scanning? && (Progressed(s) ==> Progressed(Apply(s, a)))
    ensures a.Client? ==> Apply(s, a).work == s.work && Apply(s, a).ledger == s.ledger
  {
  }

  /** The request would be handled by this limiter at every time from `since` on. */
  ghost predicate Eligible(l: Limiter, c: Context, since: nat) {
    c.req.Some? ==> forall now: nat :: now >= since ==> Allowed(l, c.req.value.route, c.token, now)
  }

  /** Creating limits, dropping handles and reaping unreferenced limits leave a live request eligible. */
  lemma EligibleLasts(s: State, a: ClientAction, c: Context, since: nat)
    requires Kept(s) && InService(s) && Phased(s) && s.work.pc.Scanning? && ClientEnabled(s, a) && IsLive(s.ledger, c)
    requires Eligible(s.limits.limiter, c, since)
    ensures Eligible(ApplyClient(s, a).limits.limiter, c, since)
  {
    var l, l' := s.limits.limiter, ApplyClient(s, a).limits.limiter;
    if c.req.Some? {
      var r := c.req.value.route;
      assert ServesRoute(l, RouteOf(s.ledger.live[c.token].req));
      assert a.ReapLimit? ==> !Mentions(s.ledger.live[c.token].req, a.id);
      assert r.general != 0 ==> l'.limits[r.general] == l.limits[r.general];
      assert r.specific != 0 ==> l'.limits[r.specific] == l.limits[r.specific];
      forall now: nat | now >= since ensures Allowed(l', r, c.token, now) {
        assert Allowed(l, r, c.token, now);
      }
    }
  }

  lemma PendingIsLive(s: State, i: nat)
    requires Kept(s) && i < |s.work.pending|
    ensures IsLive(s.ledger, s.work.pending[i])
  {
    assert s.work.pending[i] in multiset(s.work.pending);
    PlacedIsLive(s, s.work.pending[i]);
  }

  /** A denied request leaves the limiter alone: each step of the pass handles some request or leaves the
      eligible one pending and eligible. */
  lemma EligibleMoves(s: State, a: Action, i: nat, since: nat) returns (j: nat)
    requires Kept(s) && InService(s) && Phased(s) && s.work.pc.Scanning? && Enabled(s, a) && (a.Client? || a == Worker(ScanOne))
    requires i < |s.work.pending| && Eligible(s.limits.limiter, s.work.pending[i], since)
    requires a == Worker(ScanOne) ==> s.limits.clock >= since
    ensures var s' := Apply(s, a);
      Progressed(s') || (j < |s'.work.pending| && Eligible(s'.limits.limiter, s'.work.pending[j], since))
  {
    j := i;
    if a.Client? {
      PassStep(s, a);
      PendingIsLive(s, i);
      EligibleLasts(s, a.c, s.work.pending[i], since);
    } else if s.work.pending[0].req.Some? && !Admitted(s.limits, s.work.pending[0]) {
      assert i > 0;
      j := i - 1;
    }
  }

  /** So an eligible request is reached and handled. */
  lemma {:induction false} EligibleIsHandled(s: State, acts: seq<Action>, i: nat, since: nat)
    requires Inv(s) && s.work.pc.Scanning? && Legal(s, acts) && OfPass(acts) && TurnsFrom(s, acts, since)
    requires i < |s.work.pending| && Eligible(s.limits.limiter, s.work.pending[i], since)
    requires Exec(s, acts).work.pending == []
    ensures Progressed(Exec(s, acts))
    decreases |acts|
  {
    var s' := Apply(s, acts[0]);
    var j := EligibleMoves(s, acts[0], i, since);
    PassStep(s, acts[0]);
    StepInv(s, acts[0]);
    if Progressed(s') {
      ProgressLasts(s', acts[1..]);
    } else {
      EligibleIsHandled(s', acts[1..], j, since);
    }
  }

  /** No live handler and no request parked for retry. */
  predicate NothingInFlight(w: Work) {
    && w.failed == []
    && forall b :: 0 <= b < |w.batches| ==>
         w.batches[b].failed == [] && forall h :: 0 <= h < |w.batches[b].handlers| ==> !Running(w.batches[b].handlers[h])
  }

  lemma {:induction false} NoneRunning(hs: seq<Handler>, x: Context)
    requires forall h :: 0 <= h < |hs| ==> !Running(hs[h])
    ensures InHandlers(hs, x) == 0
  {
    if hs == [] {
    } else {
      NoneRunning(hs[1..], x);
    }
  }

  lemma {:induction false} NoneInBatches(bs: seq<Batch>, x: Context)
    requires forall b :: 0 <= b < |bs| ==>
      bs[b].failed == [] && forall h :: 0 <= h < |bs[b].handlers| ==> !Running(bs[b].handlers[h])
    ensures InBatches(bs, x) == 0
  {
    if bs == [] {
    } else {
      NoneRunning(bs[0].handlers, x);
      NoneInBatches(bs[1..], x);
    }
  }

  /** Then every live request is in the pending list. */
  lemma LiveArePending(s: State, t: nat)
    requires Reachable(s) && AtRest(s) && NothingInFlight(s.work) && t in s.ledger.live
    ensures s.ledger.live[t] in s.work.pending
  {
    var x := s.ledger.live[t];
    ReachableInv(s);
    RequestsAreConserved(s, x);
    NoneInBatches(s.work.batches, x);
    assert x in multiset(s.work.pending);
  }

  /** From `since` on, every window of every limit has expired. */
  predicate AllExpired(l: Limits, since: nat) {
    forall id :: id in l.limiter.limits ==> since >= l.clock + PeriodNs(l.limiter.limits[id].cfg)
  }

  lemma ExpiredPasses(l: Limits, id: nat, key: string, token: nat, since: nat, now: nat)
    requires Dated(l) && AllExpired(l, since) && now >= since
    requires Sequential(l.limiter, id) && token != 0 ==> TokensAt(l.limiter, id, key) <= {token}
    ensures Admits(l.limiter, id, key, token, now)
  {
  }

  /** A request whose sequential token sets are empty or its own is eligible once all windows expired. */
  lemma UnblockedIsEligible(l: Limits, c: Context, since: nat)
    requires Dated(l) && AllExpired(l, since)
    requires forall id, key :: Names(RouteOf(c.req), id, key) && Sequential(l.limiter, id) ==>
      TokensAt(l.limiter, id, key) <= {c.token}
    ensures Eligible(l.limiter, c, since)
  {
    if c.req.Some? {
      var r := c.req.value.route;
      forall now: nat | now >= since ensures Allowed(l.limiter, r, c.token, now) {
        if r.general != 0 {
          assert Names(r, r.general, r.generalKey);
          ExpiredPasses(l, r.general, r.generalKey, c.token, since, now);
        }
        if r.specific != 0 {
          assert Names(r, r.specific, r.specificKey);
          ExpiredPasses(l, r.specific, r.specificKey, c.token, since, now);
        }
      }
    }
  }

  /** Either some pending request owns all the tokens it needs, or no token is held at all. */
  lemma SomeoneIsEligible(s: State, since: nat) returns (i: nat)
    requires Reachable(s) && AtRest(s) && NothingInFlight(s.work) && s.work.pending != []
    requires AllExpired(s.limits, since)
    ensures i < |s.work.pending| && Eligible(s.limits.limiter, s.work.pending[i], since)
  {
    ReachableInv(s);
    var l, live := s.limits.limiter, s.ledger.live;
    if t :| t in live && live[t].armed {
      LiveArePending(s, t);
      i :| 0 <= i < |s.work.pending| && s.work.pending[i] == live[t];
      forall id, key | Names(RouteOf(live[t].req), id, key) && Sequential(l, id) ensures TokensAt(l, id, key) <= {t} {
        assert Owns(live, t, id, key);
      }
    } else {
      i := 0;
      forall id, key ensures TokensAt(l, id, key) == {} {
        forall t ensures t !in TokensAt(l, id, key) { assert !Owns(live, t, id, key); }
      }
    }
    UnblockedIsEligible(s.limits, s.work.pending[i], since);
  }

  /** Deadlock freedom: with requests pending, nothing in flight and nothing parked for retry, once the
      longest configured period has passed the next pending pass admits or fails at least one request,
      however general and specific, sequential and shared limits are combined, and whatever clients do to
      limits and handles between the turns of the pass. */
  lemma PendingPassProgresses(s: State, acts: seq<Action>, since: nat)
    requires Reachable(s) && Enabled(s, Worker(ScanBegin)) && NothingInFlight(s.work) && AllExpired(s.limits, since)
    requires var s1 := Apply(s, Worker(ScanBegin));
      Legal(s1, acts) && OfPass(acts) && TurnsFrom(s1, acts, since) && Exec(s1, acts).work.pending == []
    ensures Progressed(Exec(Apply(s, Worker(ScanBegin)), acts))
  {
    var i := SomeoneIsEligible(s, since);
    ReachableInv(s);
    StepInv(s, Worker(ScanBegin));
    EligibleIsHandled(Apply(s, Worker(ScanBegin)), acts, i, since);
  }

  // ----- Shutdown ends

  predicate Submits(s: State) {
    s.desk.lock.Some? && s.desk.lock.value.Submitting?
  }

  function HandlersLeft(bs: seq<Batch>): nat {
    if bs == [] then 0 else 3 + 4 * |bs[0].handlers| + HandlersLeft(bs[1..])
  }

  function PcLeft(pc: Pc): nat {
    match pc
    case Closing => 8
    case Cleaning => 7
    case Cancelling(_, _) => 6
    case Clearing => 5
    case Draining(b) => 6 + 4 * |b.handlers|
    case Notifying => 1
    case _ => 0
  }

  /** Work the shutting worker has left: each context costs its callback and its completion. */
  function Remaining(s: State): nat {
    var w := s.work;
    PcLeft(w.pc) + HandlersLeft(w.batches) + 4 * (|w.pending| + |w.failed| + |w.doomed|)
    + (if w.slot.None? then 0 else if w.slot.value.released then 1 else 2)
    + (if Submits(s) then 4 else 0)
  }

  lemma {:induction false} HandlersLeftAt(bs: seq<Batch>, b: nat, y: Batch)
    requires b < |bs|
    ensures HandlersLeft(bs[b := y]) + 4 * |bs[b].handlers| == HandlersLeft(bs) + 4 * |y.handlers|
  {
    if b > 0 {
      assert bs[b := y][1..] == bs[1..][b - 1 := y];
      HandlersLeftAt(bs[1..], b - 1, y);
    } else {
      assert bs[b := y][1..] == bs[1..];
    }
  }

  lemma CancelNothing(ids: set<nat>, groups: set<nat>)
    ensures Cancelled([], ids, groups) == [] && Spared([], ids, groups) == []
  {
  }

  /** While shutting down, every worker step uses up remaining work and no client step adds any. */
  lemma ShutdownAdvances(s: State, a: Action)
    requires Phased(s) && s.desk.shutdown && !s.work.pc.Down? && Enabled(s, a)
    ensures Apply(s, a).desk.shutdown
    ensures if a.Client? then Remaining(Apply(s, a)) <= Remaining(s) else Remaining(Apply(s, a)) < Remaining(s)
  {
    match a
    case Client(c) => ClientsDoNotDelay(s, c);
    case Worker(w) => ShutdownWorker(s, w);
    case End(e) => ShutdownEnd(s, e);
  }

  lemma ShutdownWorker(s: State, a: WorkerAction)
    requires Phased(s) && s.desk.shutdown && !s.work.pc.Down? && WorkerEnabled(s, a)
    ensures ApplyWorker(s, a).desk.shutdown && Remaining(ApplyWorker(s, a)) < Remaining(s)
  {
  }

  lemma ShutdownEnd(s: State, a: EndAction)
    requires Phased(s) && s.desk.shutdown && !s.work.pc.Down? && EndEnabled(s, a)
    ensures ApplyEnd(s, a).desk.shutdown && Remaining(ApplyEnd(s, a)) < Remaining(s)
  {
    if a.CancelBegin? {
      CancelNothing(s.desk.cancelIds, s.desk.cancelGroups);
    } else if a.CancelHandler? {
      DropAdvances(s, a.b, a.h);
    }
  }

  lemma DropAdvances(s: State, b: nat, h: nat)
    requires EndEnabled(s, CancelHandler(b, h))
    ensures Remaining(ApplyEnd(s, CancelHandler(b, h))) < Remaining(s)
  {
    var y := s.work.batches[b].(handlers := Without(s.work.batches[b].handlers, h));
    assert |y.handlers| == |s.work.batches[b].handlers| - 1;
    HandlersLeftAt(s.work.batches, b, y);
  }

  lemma ClientsDoNotDelay(s: State, a: ClientAction)
    requires Phased(s) && s.desk.shutdown && ClientEnabled(s, a)
    ensures ApplyClient(s, a).desk.shutdown && Remaining(ApplyClient(s, a)) <= Remaining(s)
  {
    if !a.SubmitCommit? {
      assert ApplyClient(s, a).work == s.work;
    }
  }

  function WorkerSteps(acts: seq<Action>): nat {
    if acts == [] then 0 else (if acts[0].Client? then 0 else 1) + WorkerSteps(acts[1..])
  }

  lemma {:induction false} DownLasts(s: State, acts: seq<Action>)
    requires Phased(s) && s.work.pc.Down? && Legal(s, acts)
    ensures Exec(s, acts).work.pc.Down?
    decreases |acts|
  {
    if acts == [] {
    } else {
      PhasedStep(s, acts[0]);
      DownLasts(Apply(s, acts[0]), acts[1..]);
    }
  }

  /** Shutdown ends: however clients interleave, a run from a shutting state that has not brought the
      manager down has at most `Remaining` worker steps. */
  lemma {:induction false} ShutdownIsBounded(s: State, acts: seq<Action>)
    requires Phased(s) && s.desk.shutdown && Legal(s, acts) && !Exec(s, acts).work.pc.Down?
    ensures WorkerSteps(acts) <= Remaining(s)
    decreases |acts|
  {
    if s.work.pc.Down? {
      DownLasts(s, acts);
    } else if acts == [] {
    } else {
      ShutdownAdvances(s, acts[0]);
      PhasedStep(s, acts[0]);
      ShutdownIsBounded(Apply(s, acts[0]), acts[1..]);
    }
  }

  lemma ShutdownReturns(s: State, acts: seq<Action>)
    requires Reachable(s) && s.desk.shutdown && Legal(s, acts) && WorkerSteps(acts) > Remaining(s)
    ensures Exec(s, acts).work.pc.Down?
  {
    ReachableInv(s);
    if !Exec(s, acts).work.pc.Down? { ShutdownIsBounded(s, acts); }
  }

  /** While shutting down and the mutex is free, the worker can always move: shutdown never blocks. */
  lemma ShutdownNeverBlocks(s: State) returns (a: Action)
    requires Phased(s) && s.desk.shutdown && !s.work.pc.Down? && LockFree(s)
    ensures !a.Client? && Enabled(s, a)
  {
    var w := s.work;
    if w.slot.Some? {
      a := if w.slot.value.released then Worker(CompleteGroup) else Worker(ReleaseTokens);
    } else if w.doomed != [] {
      a := Worker(FinishDoomed);
    } else {
      match w.pc
      case Closing => a := End(ShutdownTake);
      case Cleaning => a := End(CancelBegin);
      case Cancelling(ids, groups) => a := CancelNext(s);
      case Clearing => a := if w.batches == [] then End(ClearEnd) else End(ClearBatch);
      case Draining(b) => a := if b.handlers == [] then Worker(DrainEnd) else Worker(DrainOne);
      case _ => a := End(NotifyAll);
    }
  }

  lemma CancelNext(s: State) returns (a: Action)
    requires s.work.pc.Cancelling? && WorkerFree(s.work)
    ensures !a.Client? && Enabled(s, a)
  {
    var w, ids, groups := s.work, s.work.pc.ids, s.work.pc.groups;
    if i :| 0 <= i < |w.failed| && Matches(w.failed[i].req, ids, groups) {
      a := End(CancelFailed(i));
    } else if b: nat, h: nat :| HandlerAt(w, b, h) && HandlerMatches(w.batches[b].handlers[h], ids, groups) {
      a := End(CancelHandler(b, h));
    } else {
      a := End(CancelEnd);
    }
  }
}
