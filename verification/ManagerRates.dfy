/** The manager drives its rate limiter through a legal limiter run, so the limiter's results hold for
    every run of the manager: here the rate bound, over attempts of all requests, retries included. */
module ManagerRates {
  import opened RateWindow
  import opened RateLimiter
  import opened Requests
  import opened ManagerSteps
  import opened ManagerConservation
  import opened ManagerEffects
  import opened ManagerLimits
  import opened ManagerTheorems
  import LR = LimiterRuns

  // ----- The limiter run behind a manager run

  function Serving(l: Limiter): set<nat> {
    set id | id in l.limits && !l.limits[id].removed
  }

  /** The limiter with one handle for every limit in service. */
  function WorldOf(l: Limiter): LR.World {
    LR.World(l, {}, multiset(Serving(l)))
  }

  /** What one step asks of the limiter, at the manager's clock. */
  function OpsOf(s: State, a: Action): seq<LR.Timed>
    requires Enabled(s, a)
  {
    var now := s.limits.clock;
    match a
    case Client(CreateLimit(cfg)) =>
      [LR.Timed(now, LR.CreateLimit(cfg)), LR.Timed(now, LR.RemoveLimit(s.limits.limiter.nextId))]
    case Client(ReapLimit(id)) => [LR.Timed(now, LR.DropHandle(id))]
    case Worker(ScanOne) =>
      var c := s.work.pending[0];
      if c.req.Some? then [LR.Timed(now, LR.AllowRequest(c.req.value.route, c.token))] else []
    case Worker(ReleaseTokens) =>
      var c := s.work.slot.value.ctx;
      if c.armed then [LR.Timed(now, LR.ReleaseRequest(RouteOf(c.req), c.token))] else []
    case _ => []
  }

  ghost function OpsRun(s: State, acts: seq<Action>): seq<LR.Timed>
    requires Legal(s, acts)
    decreases |acts|
  {
    if acts == [] then [] else OpsOf(s, acts[0]) + OpsRun(Apply(s, acts[0]), acts[1..])
  }

  // ----- Limiter runs in one piece

  lemma {:induction false} CommitsJoin(w: LR.World, a: seq<LR.Timed>, b: seq<LR.Timed>, id: nat, key: string)
    ensures LR.Commits(w, a + b, id, key) == LR.Commits(w, a, id, key) + LR.Commits(LR.Run(w, a), b, id, key)
    decreases |a|
  {
    if a == [] {
      assert a + b == b;
    } else {
      assert (a + b)[1..] == a[1..] + b && (a + b)[0] == a[0];
      CommitsJoin(LR.Step(w, a[0]), a[1..], b, id, key);
    }
  }

  lemma RunOne(w: LR.World, t: LR.Timed, since: nat, id: nat, key: string)
    requires since <= t.now && LR.Enabled(w, t.op)
    ensures LR.Legal(w, since, [t]) && LR.Run(w, [t]) == LR.Step(w, t) && LR.EndOf(since, [t]) == t.now
    ensures LR.Commits(w, [t], id, key) == if LR.CommitsVia(w, t, id, key) then [t.now] else []
  {
    assert [t][1..] == [];
    assert LR.Run(LR.Step(w, t), []) == LR.Step(w, t) && LR.Legal(LR.Step(w, t), t.now, []);
    assert LR.Commits(LR.Step(w, t), [], id, key) == [];
  }

  // ----- One step

  lemma AllowServes(l: Limiter, r: Route, token: nat, now: nat)
    ensures Serving(Allow(l, r, token, now)) == Serving(l)
  {
    var l1 := CommitRoute(l, r, token, now);
    assert Serving(l1) == Serving(l);
    GcServes(l1.(gcCounter := l1.gcCounter + 1), now);
  }

  lemma GcServes(l: Limiter, now: nat)
    ensures Serving(Gc(l, now)) == Serving(l)
  {
  }

  lemma ReleaseServes(l: Limiter, r: Route, token: nat)
    ensures Serving(Release(l, r, token)) == Serving(l)
  {
  }

  lemma ServedIsHeld(l: Limiter, r: Route)
    requires ServesRoute(l, r)
    ensures LR.HoldsRoute(WorldOf(l), r)
  {
  }

  /** The steps of `ops` are legal from `l` at `now`, lead to `l'` and commit `made` through (id, key). */
  ghost predicate Drives(l: Limiter, now: nat, ops: seq<LR.Timed>, l': Limiter, id: nat, key: string, made: seq<nat>) {
    && LR.Legal(WorldOf(l), now, ops) && LR.Run(WorldOf(l), ops) == WorldOf(l') && LR.EndOf(now, ops) == now
    && LR.Commits(WorldOf(l), ops, id, key) == made
  }

  /** The attempt a step admits through (id, key), if any. */
  function AttemptOf(s: State, a: Action, id: nat, key: string): seq<nat>
    requires Enabled(s, a)
  {
    if a == Worker(ScanOne) && Admitted(s.limits, s.work.pending[0]) && Names(s.work.pending[0].req.value.route, id, key)
    then [s.limits.clock] else []
  }

  lemma AllowDrives(l: Limiter, r: Route, token: nat, now: nat, id: nat, key: string)
    requires ServesRoute(l, r)
    ensures Drives(l, now, [LR.Timed(now, LR.AllowRequest(r, token))], Allow(l, r, token, now), id, key,
                   if Allowed(l, r, token, now) && Names(r, id, key) then [now] else [])
  {
    ServedIsHeld(l, r);
    AllowServes(l, r, token, now);
    RunOne(WorldOf(l), LR.Timed(now, LR.AllowRequest(r, token)), now, id, key);
  }

  lemma NothingDrives(l: Limiter, now: nat, id: nat, key: string)
    ensures Drives(l, now, [], l, id, key, [])
  {
    assert LR.Run(WorldOf(l), []) == WorldOf(l);
  }

  lemma ScanDrives(s: State, id: nat, key: string)
    requires Kept(s) && InService(s) && WorkerEnabled(s, ScanOne)
    ensures Drives(s.limits.limiter, s.limits.clock, OpsOf(s, Worker(ScanOne)), DoScan(s).limits.limiter, id, key,
                   AttemptOf(s, Worker(ScanOne), id, key))
  {
    var c, l, now := s.work.pending[0], s.limits.limiter, s.limits.clock;
    if c.req.Some? {
      PendingIsServed(s, c);
      AllowDrives(l, c.req.value.route, c.token, now, id, key);
      assert !Admitted(s.limits, c) ==> Allow(l, c.req.value.route, c.token, now) == l;
    } else {
      NothingDrives(l, now, id, key);
    }
  }

  lemma PendingIsServed(s: State, c: Context)
    requires Kept(s) && InService(s) && s.work.pending != [] && c == s.work.pending[0]
    ensures ServesRoute(s.limits.limiter, RouteOf(c.req))
  {
    assert c in multiset(s.work.pending);
    PlacedIsLive(s, c);
  }

  lemma ReleasesDrive(l: Limiter, r: Route, token: nat, now: nat, id: nat, key: string)
    requires ServesRoute(l, r)
    ensures Drives(l, now, [LR.Timed(now, LR.ReleaseRequest(r, token))], Release(l, r, token), id, key, [])
  {
    ServedIsHeld(l, r);
    ReleaseServes(l, r, token);
    RunOne(WorldOf(l), LR.Timed(now, LR.ReleaseRequest(r, token)), now, id, key);
  }

  lemma ReleaseDrives(s: State, id: nat, key: string)
    requires Kept(s) && InService(s) && WorkerEnabled(s, ReleaseTokens)
    ensures Drives(s.limits.limiter, s.limits.clock, OpsOf(s, Worker(ReleaseTokens)), DoRelease(s).limits.limiter, id, key, [])
  {
    var c := s.work.slot.value.ctx;
    if c.armed {
      PlacedIsLive(s, c);
      ReleasesDrive(s.limits.limiter, RouteOf(c.req), c.token, s.limits.clock, id, key);
    } else {
      NothingDrives(s.limits.limiter, s.limits.clock, id, key);
    }
  }

  /** After creation the manager's model keeps one handle, the caller's. */
  lemma CreateSteps(l: Limiter, cfg: Config, now: nat)
    requires l.nextId !in l.limits
    ensures var w1 := LR.Step(WorldOf(l), LR.Timed(now, LR.CreateLimit(cfg)));
      LR.Step(w1, LR.Timed(now, LR.RemoveLimit(l.nextId))) == WorldOf(Create(l, cfg))
  {
    assert Serving(Create(l, cfg)) == Serving(l) + {l.nextId};
    assert multiset(Serving(l) + {l.nextId}) == multiset(Serving(l)) + multiset{l.nextId};
    var w1 := LR.Step(WorldOf(l), LR.Timed(now, LR.CreateLimit(cfg)));
    assert l.nextId in w1.copies;
    assert w1.owned - {l.nextId} == {};
  }

  lemma CreateDrives(l: Limiter, cfg: Config, now: nat, id: nat, key: string)
    requires l.nextId !in l.limits
    ensures Drives(l, now, [LR.Timed(now, LR.CreateLimit(cfg)), LR.Timed(now, LR.RemoveLimit(l.nextId))], Create(l, cfg), id, key, [])
  {
    var w, t1, t2 := WorldOf(l), LR.Timed(now, LR.CreateLimit(cfg)), LR.Timed(now, LR.RemoveLimit(l.nextId));
    CreateSteps(l, cfg, now);
    RunOne(w, t1, now, id, key);
    RunOne(LR.Step(w, t1), t2, now, id, key);
    LR.RunsJoin(w, now, now, [t1], [t2]);
    CommitsJoin(w, [t1], [t2], id, key);
    assert [t1] + [t2] == [t1, t2];
  }

  lemma ReapDrives(s: State, gone: nat, id: nat, key: string)
    requires ClientEnabled(s, ReapLimit(gone))
    ensures Drives(s.limits.limiter, s.limits.clock, OpsOf(s, Client(ReapLimit(gone))), RemoveInternal(s.limits.limiter, gone), id, key, [])
  {
    var l, l' := s.limits.limiter, RemoveInternal(s.limits.limiter, gone);
    assert gone in Serving(l);
    assert Serving(l') == Serving(l) - {gone};
    assert multiset(Serving(l)) - multiset{gone} == multiset(Serving(l'));
    assert gone !in multiset(Serving(l'));
    RunOne(WorldOf(l), LR.Timed(s.limits.clock, LR.DropHandle(gone)), s.limits.clock, id, key);
  }

  /** Every step of the manager is a piece of a limiter run. */
  lemma StepDrives(s: State, a: Action, id: nat, key: string)
    requires Inv(s) && Enabled(s, a)
    ensures Drives(s.limits.limiter, s.limits.clock, OpsOf(s, a), Apply(s, a).limits.limiter, id, key, AttemptOf(s, a, id, key))
    ensures s.limits.clock <= Apply(s, a).limits.clock
  {
    ClockMoves(s, a);
    if a == Worker(ScanOne) {
      ScanDrives(s, id, key);
    } else if a == Worker(ReleaseTokens) {
      ReleaseDrives(s, id, key);
    } else if a.Client? && a.c.CreateLimit? {
      CreateDrives(s.limits.limiter, a.c.cfg, s.limits.clock, id, key);
    } else if a.Client? && a.c.ReapLimit? {
      ReapDrives(s, a.c.id, id, key);
    } else {
      LimiterRests(s, a);
      NothingDrives(s.limits.limiter, s.limits.clock, id, key);
    }
  }

  lemma LimiterRests(s: State, a: Action)
    requires Enabled(s, a) && a != Worker(ScanOne) && a != Worker(ReleaseTokens)
    requires !(a.Client? && (a.c.CreateLimit? || a.c.ReapLimit?))
    ensures Apply(s, a).limits.limiter == s.limits.limiter && OpsOf(s, a) == []
  {
    if !TouchesLimits(a) {
      LimitsHappen(s, a);
      assert !EffectOf(s, a).Arms? && !EffectOf(s, a).Disarms?;
    }
  }

  // ----- Whole runs

  /** The clock readings at which requests were admitted through (id, key), retries included. */
  ghost function Attempts(s: State, acts: seq<Action>, id: nat, key: string): seq<nat>
    requires Legal(s, acts)
    decreases |acts|
  {
    if acts == [] then [] else AttemptOf(s, acts[0], id, key) + Attempts(Apply(s, acts[0]), acts[1..], id, key)
  }

  /** The limiter goes through a legal limiter run in every run of the manager, and the attempts admitted
      are that run's commits. */
  lemma {:induction false} RunDrives(s: State, acts: seq<Action>, id: nat, key: string)
    requires Inv(s) && Legal(s, acts)
    ensures var w, ops := WorldOf(s.limits.limiter), OpsRun(s, acts);
      && LR.Legal(w, s.limits.clock, ops) && LR.Run(w, ops) == WorldOf(Exec(s, acts).limits.limiter)
      && LR.Commits(w, ops, id, key) == Attempts(s, acts, id, key)
    decreases |acts|
  {
    if acts == [] {
      assert LR.Run(WorldOf(s.limits.limiter), []) == WorldOf(s.limits.limiter);
    } else {
      var s', w := Apply(s, acts[0]), WorldOf(s.limits.limiter);
      StepDrives(s, acts[0], id, key);
      StepInv(s, acts[0]);
      RunDrives(s', acts[1..], id, key);
      LR.RunsJoin(w, s.limits.clock, s'.limits.clock, OpsOf(s, acts[0]), OpsRun(s', acts[1..]));
      CommitsJoin(w, OpsOf(s, acts[0]), OpsRun(s', acts[1..]), id, key);
    }
  }

  /** What the limiter's run says about a state of the manager: some product of immortal automata
      answers exactly like the manager's limiter. */
  lemma LimiterIsProduct(acts: seq<Action>) returns (p: LR.Product, since: nat)
    requires Legal(INIT, acts)
    ensures var s := Exec(INIT, acts); since <= s.limits.clock && LR.Sim(WorldOf(s.limits.limiter), p, since)
  {
    InitInv();
    StartWorld();
    RunDrives(INIT, acts, 0, "");
    OpsEnd(INIT, acts);
    p, since := StartsSimilar(OpsRun(INIT, acts));
  }

  lemma StartWorld()
    ensures WorldOf(INIT.limits.limiter) == LR.START
  {
    assert Serving(EMPTY) == {};
  }

  lemma StartsSimilar(ops: seq<LR.Timed>) returns (p: LR.Product, since: nat)
    requires LR.Legal(LR.START, 0, ops)
    ensures since == LR.EndOf(0, ops) && LR.Sim(LR.Run(LR.START, ops), p, since)
  {
    LR.CollectionIsUnobservable(LR.START, LR.BLANK, 0, ops);
    p, since := LR.PRun(LR.BLANK, ops), LR.EndOf(0, ops);
  }

  lemma EndJoin(since: nat, a: seq<LR.Timed>, b: seq<LR.Timed>)
    ensures LR.EndOf(since, a + b) == LR.EndOf(LR.EndOf(since, a), b)
  {
    if b == [] { assert a + b == a; }
  }

  lemma OpsNow(s: State, a: Action)
    requires Enabled(s, a)
    ensures LR.EndOf(s.limits.clock, OpsOf(s, a)) == s.limits.clock
  {
  }

  lemma {:induction false} OpsEnd(s: State, acts: seq<Action>)
    requires Legal(s, acts)
    ensures LR.EndOf(s.limits.clock, OpsRun(s, acts)) <= Exec(s, acts).limits.clock
    ensures s.limits.clock <= Exec(s, acts).limits.clock
    decreases |acts|
  {
    if acts == [] {
    } else {
      ClockMoves(s, acts[0]);
      OpsNow(s, acts[0]);
      EndJoin(s.limits.clock, OpsOf(s, acts[0]), OpsRun(Apply(s, acts[0]), acts[1..]));
      OpsEnd(Apply(s, acts[0]), acts[1..]);
    }
  }

  lemma {:induction false} ExecSplit(s: State, a: seq<Action>, b: seq<Action>)
    requires Legal(s, a + b)
    ensures Legal(s, a) && Legal(Exec(s, a), b)
    decreases |a|
  {
    if a == [] {
      assert a + b == b;
    } else {
      assert (a + b)[1..] == a[1..] + b && (a + b)[0] == a[0];
      ExecSplit(Apply(s, a[0]), a[1..], b);
    }
  }

  /** The rate bound for the manager: whatever is submitted, retried, cancelled, shut down or collected,
      any half-open interval of `n` periods holds at most `(n + 1) * perPeriod` attempts admitted through
      one key of a limit with `perPeriod > 0`. */
  lemma AttemptRateIsBounded(pre: seq<Action>, cfg: Config, post: seq<Action>, key: string, from: nat, n: nat)
    requires cfg.perPeriod > 0 && Legal(INIT, pre + ([Client(CreateLimit(cfg))] + post))
    ensures Legal(INIT, pre) && Legal(Apply(Exec(INIT, pre), Client(CreateLimit(cfg))), post)
    ensures var s := Exec(INIT, pre);
      |Within(Attempts(Apply(s, Client(CreateLimit(cfg))), post, s.limits.limiter.nextId, key), from, from + n * PeriodNs(cfg))|
        <= (n + 1) * cfg.perPeriod
  {
    ExecSplit(INIT, pre, [Client(CreateLimit(cfg))] + post);
    assert ([Client(CreateLimit(cfg))] + post)[1..] == post;
    InitInv();
    RunInv(INIT, pre);
    var p, since := LimiterIsProduct(pre);
    AttemptsFromCreation(Exec(INIT, pre), p, since, cfg, post, key);
    RateBound(cfg, Attempts(Apply(Exec(INIT, pre), Client(CreateLimit(cfg))), post, Exec(INIT, pre).limits.limiter.nextId, key), from, n);
  }

  lemma AttemptsFromCreation(s: State, p: LR.Product, since: nat, cfg: Config, post: seq<Action>, key: string)
    requires Inv(s) && since <= s.limits.clock && LR.Sim(WorldOf(s.limits.limiter), p, since)
    requires Legal(Apply(s, Client(CreateLimit(cfg))), post)
    ensures Admissible(cfg, Attempts(Apply(s, Client(CreateLimit(cfg))), post, s.limits.limiter.nextId, key))
  {
    var s', w, now, id := Apply(s, Client(CreateLimit(cfg))), WorldOf(s.limits.limiter), s.limits.clock, s.limits.limiter.nextId;
    var t1, t2 := LR.Timed(now, LR.CreateLimit(cfg)), LR.Timed(now, LR.RemoveLimit(id));
    StepInv(s, Client(CreateLimit(cfg)));
    RunDrives(s', post, id, key);
    CreateSteps(s.limits.limiter, cfg, now);
    var ops := OpsRun(s', post);
    RunOne(LR.Step(w, t1), t2, now, id, key);
    LR.RunsJoin(LR.Step(w, t1), now, now, [t2], ops);
    CommitsJoin(LR.Step(w, t1), [t2], ops, id, key);
    LR.CommitsFromCreation(w, p, since, t1, [t2] + ops, key);
    assert [] + Attempts(s', post, id, key) == Attempts(s', post, id, key);
  }
}
