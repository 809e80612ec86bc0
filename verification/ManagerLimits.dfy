/** Sequential limits give mutual exclusion over whole retry chains. */
module ManagerLimits {
  import opened RateWindow
  import opened RateLimiter
  import opened Requests
  import opened ManagerSteps
  import opened ManagerEffects
  import opened ManagerTraces

  // ----- What the limiter's operations do to token sets

  function TokensAt(l: Limiter, id: nat, key: string): set<nat> {
    if id in l.limits && key in l.limits[id].keys then l.limits[id].keys[key].tokens else {}
  }

  predicate Sequential(l: Limiter, id: nat) {
    id in l.limits && l.limits[id].cfg.sequential
  }

  predicate Serves(l: Limiter, id: nat) {
    id in l.limits && !l.limits[id].removed
  }

  predicate ServesRoute(l: Limiter, r: Route) {
    (r.general != 0 ==> Serves(l, r.general)) && (r.specific != 0 ==> Serves(l, r.specific))
  }

  /** Limits in service stay in service with their configuration, and no token set changes. */
  ghost predicate Frames(l: Limiter, l': Limiter) {
    && l'.nextId == l.nextId
    && (forall id :: id in l'.limits ==> id in l.limits)
    && (forall id :: Serves(l, id) ==> Serves(l', id) && l'.limits[id].cfg == l.limits[id].cfg)
  }

  lemma CommitTokens(l: Limiter, id0: nat, key0: string, token: nat, now: nat, id: nat, key: string)
    requires token != 0
    ensures TokensAt(CommitId(l, id0, key0, token, now), id, key) ==
      if id == id0 && key == key0 && id != 0 && Serves(l, id) && Sequential(l, id)
      then TokensAt(l, id, key) + {token} else TokensAt(l, id, key)
  {
  }

  lemma GcTokens(l: Limiter, now: nat, id: nat, key: string)
    ensures TokensAt(Gc(l, now), id, key) == TokensAt(l, id, key)
  {
    if id in l.limits && key in l.limits[id].keys && l.limits[id].keys[key].tokens != {} {
      assert key in GcLimit(l.limits[id], now).keys;
    }
  }

  lemma ReleaseTokensAt(l: Limiter, id0: nat, key0: string, token: nat, id: nat, key: string)
    ensures TokensAt(ReleaseId(l, id0, key0, token), id, key) ==
      if id == id0 && key == key0 && id != 0 && Sequential(l, id) then TokensAt(l, id, key) - {token}
      else TokensAt(l, id, key)
  {
  }

  /** Admission adds the token to exactly the sequential token sets the route names. */
  lemma AllowTokens(l: Limiter, r: Route, token: nat, now: nat, id: nat, key: string)
    requires ServesRoute(l, r) && Allowed(l, r, token, now) && token != 0
    ensures TokensAt(Allow(l, r, token, now), id, key) ==
      if Names(r, id, key) && Sequential(l, id) then TokensAt(l, id, key) + {token} else TokensAt(l, id, key)
  {
    var l1 := CommitId(l, r.general, r.generalKey, token, now);
    CommitTokens(l, r.general, r.generalKey, token, now, id, key);
    CommitTokens(l1, r.specific, r.specificKey, token, now, id, key);
    var l2 := CommitRoute(l, r, token, now);
    GcTokens(l2.(gcCounter := l2.gcCounter + 1), now, id, key);
  }

  lemma ReleaseRouteTokens(l: Limiter, r: Route, token: nat, id: nat, key: string)
    requires token != 0
    ensures TokensAt(Release(l, r, token), id, key) ==
      if Names(r, id, key) && Sequential(l, id) then TokensAt(l, id, key) - {token} else TokensAt(l, id, key)
  {
    ReleaseTokensAt(l, r.general, r.generalKey, token, id, key);
    ReleaseTokensAt(ReleaseId(l, r.general, r.generalKey, token), r.specific, r.specificKey, token, id, key);
  }

  lemma GcFrames(l: Limiter, now: nat)
    ensures Frames(l, Gc(l, now))
  {
  }

  lemma AllowFrames(l: Limiter, r: Route, token: nat, now: nat)
    ensures Frames(l, Allow(l, r, token, now))
  {
    var l1 := CommitRoute(l, r, token, now);
    assert Frames(l, l1);
    GcFrames(l1.(gcCounter := l1.gcCounter + 1), now);
  }

  lemma ReleaseFrames(l: Limiter, r: Route, token: nat)
    ensures Frames(l, Release(l, r, token))
  {
  }

  // ----- The invariant

  /** `t`'s request passed the limiter naming (id, key) and has not been released. */
  predicate Owns(live: map<nat, Context>, t: nat, id: nat, key: string) {
    t in live && live[t].armed && Names(RouteOf(live[t].req), id, key)
  }

  ghost predicate Exact(live: map<nat, Context>, l: Limiter) {
    forall id, key, t :: t in TokensAt(l, id, key) <==> Owns(live, t, id, key) && Sequential(l, id)
  }

  ghost predicate Exclusive(l: Limiter) {
    forall id, key, t, u :: t in TokensAt(l, id, key) && u in TokensAt(l, id, key) ==> t == u
  }

  /** Every limit a handle, a live request or a submission refers to is in service. */
  predicate InService(s: State) {
    var l := s.limits.limiter;
    && l.nextId >= 1 && 0 !in l.limits && (forall id :: id in l.limits ==> id < l.nextId)
    && (forall id :: id in s.limits.handles ==> Serves(l, id))
    && (forall t :: t in s.ledger.live ==> ServesRoute(l, RouteOf(s.ledger.live[t].req)))
    && (s.desk.lock.Some? && s.desk.lock.value.Submitting? ==> ServesRoute(l, RouteOf(s.desk.lock.value.req)))
  }

  /** No window starts in the future. */
  predicate Dated(l: Limits) {
    forall id, key :: id in l.limiter.limits && key in l.limiter.limits[id].keys ==>
      l.limiter.limits[id].keys[key].start <= l.clock
  }

  // ----- Effects

  function LimitsAfter(l: Limits, e: Effect): Limits {
    match e
    case Arms(c) => l.(limiter := Allow(l.limiter, RouteOf(c.req), c.token, l.clock))
    case Disarms(c) => l.(limiter := if c.armed then Release(l.limiter, RouteOf(c.req), c.token) else l.limiter)
    case _ => l
  }

  predicate TouchesLimits(a: Action) {
    a.Client? && (a.c.CreateLimit? || a.c.DropHandle? || a.c.ReapLimit? || a.c.Tick?)
  }

  lemma LimitsWorker(s: State, a: WorkerAction)
    requires WorkerEnabled(s, a)
    ensures ApplyWorker(s, a).limits == LimitsAfter(s.limits, EffectOf(s, Worker(a)))
  {
  }

  lemma LimitsHappen(s: State, a: Action)
    requires Enabled(s, a) && !TouchesLimits(a)
    ensures Apply(s, a).limits == LimitsAfter(s.limits, EffectOf(s, a))
  {
    match a
    case Client(c) =>
    case Worker(w) => LimitsWorker(s, w);
    case End(e) =>
  }

  /** Replacing a live context by one with the same request and the same arming changes no ownership. */
  lemma SameOwners(live: map<nat, Context>, l: Limiter, c: Context)
    requires Exact(live, l) && c.token in live && live[c.token].req == c.req && live[c.token].armed == c.armed
    ensures Exact(live[c.token := c], l)
  {
    var live' := live[c.token := c];
    forall id, key, t ensures t in TokensAt(l, id, key) <==> Owns(live', t, id, key) && Sequential(l, id) {
      assert Owns(live', t, id, key) == Owns(live, t, id, key);
    }
  }

  lemma ArmExact(live: map<nat, Context>, l: Limiter, c: Context, now: nat)
    requires Exact(live, l) && c.token in live && live[c.token] == c && c.token != 0 && c.req.Some?
    requires forall t :: t in live ==> ServesRoute(l, RouteOf(live[t].req))
    requires Allowed(l, c.req.value.route, c.token, now)
    ensures Exact(live[c.token := c.(armed := true)], Allow(l, c.req.value.route, c.token, now))
  {
    var r, live', l' := c.req.value.route, live[c.token := c.(armed := true)], Allow(l, c.req.value.route, c.token, now);
    AllowFrames(l, r, c.token, now);
    forall id, key, t ensures t in TokensAt(l', id, key) <==> Owns(live', t, id, key) && Sequential(l', id) {
      AllowTokens(l, r, c.token, now, id, key);
      assert Owns(live', t, id, key) ==> Serves(l, id);
      assert t != c.token ==> Owns(live', t, id, key) == Owns(live, t, id, key);
    }
  }

  /** An admitted request finds each sequential token set it names empty or its own. */
  lemma ArmExclusive(l: Limiter, r: Route, token: nat, now: nat)
    requires Exclusive(l) && ServesRoute(l, r) && token != 0 && Allowed(l, r, token, now)
    ensures Exclusive(Allow(l, r, token, now))
  {
    var l' := Allow(l, r, token, now);
    forall id, key, t, u | t in TokensAt(l', id, key) && u in TokensAt(l', id, key) ensures t == u {
      AllowTokens(l, r, token, now, id, key);
      if Names(r, id, key) && Sequential(l, id) {
        assert CanPass(l.limits[id], key, token, now);
        assert TokensAt(l, id, key) == {} || token in TokensAt(l, id, key);
      }
    }
  }

  lemma DisarmExact(live: map<nat, Context>, l: Limiter, c: Context)
    requires Exact(live, l) && c.token in live && live[c.token] == c && c.token != 0 && c.armed
    requires forall t :: t in live ==> ServesRoute(l, RouteOf(live[t].req))
    ensures Exact(live[c.token := c.(armed := false)], Release(l, RouteOf(c.req), c.token))
  {
    var r, live', l' := RouteOf(c.req), live[c.token := c.(armed := false)], Release(l, RouteOf(c.req), c.token);
    ReleaseFrames(l, r, c.token);
    forall id, key, t ensures t in TokensAt(l', id, key) <==> Owns(live', t, id, key) && Sequential(l', id) {
      ReleaseRouteTokens(l, r, c.token, id, key);
      assert Owns(live', t, id, key) ==> Serves(l, id);
      assert t != c.token ==> Owns(live', t, id, key) == Owns(live, t, id, key);
    }
  }

  lemma DisarmExclusive(l: Limiter, r: Route, token: nat)
    requires Exclusive(l) && token != 0
    ensures Exclusive(Release(l, r, token))
  {
    var l' := Release(l, r, token);
    forall id, key, t, u | t in TokensAt(l', id, key) && u in TokensAt(l', id, key) ensures t == u {
      ReleaseRouteTokens(l, r, token, id, key);
    }
  }

  lemma AddExact(live: map<nat, Context>, l: Limiter, c: Context)
    requires Exact(live, l) && c.token !in live && !c.armed
    ensures Exact(live[c.token := c], l)
  {
    var live' := live[c.token := c];
    forall id, key, t ensures t in TokensAt(l, id, key) <==> Owns(live', t, id, key) && Sequential(l, id) {
      assert Owns(live', t, id, key) == Owns(live, t, id, key);
    }
  }

  lemma DropExact(live: map<nat, Context>, l: Limiter, c: Context)
    requires Exact(live, l) && c.token in live && live[c.token] == c && !c.armed
    ensures Exact(live - {c.token}, l)
  {
    var live' := live - {c.token};
    forall id, key, t ensures t in TokensAt(l, id, key) <==> Owns(live', t, id, key) && Sequential(l, id) {
      assert Owns(live', t, id, key) == Owns(live, t, id, key);
    }
  }

  ghost predicate Serialized(s: State) {
    Exact(s.ledger.live, s.limits.limiter) && Exclusive(s.limits.limiter)
  }

  lemma SerializedAfter(s: State, e: Effect)
    requires Serialized(s) && InService(s) && Tokens(s.ledger) && Sound(s, e)
    ensures Exact(LedgerAfter(s.ledger, e).live, LimitsAfter(s.limits, e).limiter)
    ensures Exclusive(LimitsAfter(s.limits, e).limiter)
  {
    var live, l := s.ledger.live, s.limits.limiter;
    match e
    case Still =>
    case Adds(c) =>
      assert c.token !in s.ledger.records;
      AddExact(live, l, c);
    case Arms(c) =>
      ArmExact(live, l, c, s.limits.clock);
      ArmExclusive(l, RouteOf(c.req), c.token, s.limits.clock);
    case Streams(c) => SameOwners(live, l, c.(chunks := c.chunks + 1));
    case Retries(_, next) => SameOwners(live, l, next);
    case Finals(_, next, _) => SameOwners(live, l, next);
    case Disarms(c) =>
      if c.armed {
        DisarmExact(live, l, c);
        DisarmExclusive(l, RouteOf(c.req), c.token);
      } else {
        SameOwners(live, l, c.(armed := false));
      }
    case Drops(c) => DropExact(live, l, c);
  }

  // ----- Limits come and go

  lemma SerializedCreate(s: State, cfg: Config)
    requires Serialized(s) && InService(s)
    ensures Serialized(ApplyClient(s, CreateLimit(cfg)))
  {
    var l, l' := s.limits.limiter, Create(s.limits.limiter, cfg);
    forall id, key, t ensures t in TokensAt(l', id, key) <==> Owns(s.ledger.live, t, id, key) && Sequential(l', id) {
      assert TokensAt(l', id, key) == TokensAt(l, id, key);
      assert Owns(s.ledger.live, t, id, key) ==> Serves(l, id);
    }
    forall id, key, t, u | t in TokensAt(l', id, key) && u in TokensAt(l', id, key) ensures t == u {
      assert TokensAt(l', id, key) == TokensAt(l, id, key);
    }
  }

  lemma SerializedReap(s: State, id0: nat)
    requires Serialized(s) && ClientEnabled(s, ReapLimit(id0))
    ensures Serialized(ApplyClient(s, ReapLimit(id0)))
  {
    var l, l' := s.limits.limiter, RemoveInternal(s.limits.limiter, id0);
    forall id, key ensures TokensAt(l', id, key) == TokensAt(l, id, key) {}
    forall id, key, t ensures t in TokensAt(l', id, key) <==> Owns(s.ledger.live, t, id, key) && Sequential(l', id) {
      assert Owns(s.ledger.live, t, id, key) ==> id != id0;
      assert t in TokensAt(l, id, key) <==> Owns(s.ledger.live, t, id, key) && Sequential(l, id);
    }
    forall id, key, t, u | t in TokensAt(l', id, key) && u in TokensAt(l', id, key) ensures t == u {
      assert t in TokensAt(l, id, key) && u in TokensAt(l, id, key);
    }
  }

  /** Mutual exclusion is kept by every step. */
  lemma SerializedStep(s: State, a: Action)
    requires Serialized(s) && InService(s) && Tokens(s.ledger) && Enabled(s, a) && Sound(s, EffectOf(s, a))
    ensures Serialized(Apply(s, a))
  {
    if TouchesLimits(a) {
      match a.c
      case CreateLimit(cfg) => SerializedCreate(s, cfg);
      case ReapLimit(id) => SerializedReap(s, id);
      case _ =>
    } else {
      EffectsHappen(s, a);
      LimitsHappen(s, a);
      SerializedAfter(s, EffectOf(s, a));
    }
  }

  // ----- Service

  lemma ServesFramed(l: Limiter, l': Limiter, r: Route)
    requires Frames(l, l') && ServesRoute(l, r)
    ensures ServesRoute(l', r)
  {
  }

  lemma LimitsFrame(l: Limits, e: Effect)
    ensures Frames(l.limiter, LimitsAfter(l, e).limiter)
    ensures LimitsAfter(l, e).handles == l.handles && LimitsAfter(l, e).clock == l.clock
  {
    match e
    case Arms(c) => AllowFrames(l.limiter, RouteOf(c.req), c.token, l.clock);
    case Disarms(c) => ReleaseFrames(l.limiter, RouteOf(c.req), c.token);
    case _ =>
  }

  lemma ClockMoves(s: State, a: Action)
    requires Enabled(s, a)
    ensures s.limits.clock <= Apply(s, a).limits.clock
  {
    if !TouchesLimits(a) {
      LimitsHappen(s, a);
      LimitsFrame(s.limits, EffectOf(s, a));
    }
  }

  lemma LiveRoutes(s: State, e: Effect, t: nat)
    requires Tokens(s.ledger) && Sound(s, e) && t in LedgerAfter(s.ledger, e).live
    ensures (e.Adds? && t == e.c.token) || (t in s.ledger.live && s.ledger.live[t].req == LedgerAfter(s.ledger, e).live[t].req)
    ensures e.Adds? && t == e.c.token ==> LedgerAfter(s.ledger, e).live[t].req == e.c.req
  {
  }

  lemma InServiceKept(s: State, s': State, e: Effect)
    requires InService(s) && Tokens(s.ledger) && Sound(s, e)
    requires s'.ledger == LedgerAfter(s.ledger, e) && s'.limits == LimitsAfter(s.limits, e)
    requires e.Adds? ==> ServesRoute(s.limits.limiter, RouteOf(e.c.req))
    requires s'.desk.lock.Some? && s'.desk.lock.value.Submitting? ==>
      ServesRoute(s.limits.limiter, RouteOf(s'.desk.lock.value.req))
    ensures InService(s')
  {
    var l, l' := s.limits.limiter, s'.limits.limiter;
    LimitsFrame(s.limits, e);
    forall t | t in s'.ledger.live ensures ServesRoute(l', RouteOf(s'.ledger.live[t].req)) {
      LiveRoutes(s, e, t);
      ServesFramed(l, l', RouteOf(s'.ledger.live[t].req));
    }
    if s'.desk.lock.Some? && s'.desk.lock.value.Submitting? {
      ServesFramed(l, l', RouteOf(s'.desk.lock.value.req));
    }
  }

  lemma LockAfter(s: State, a: Action)
    requires Enabled(s, a)
    ensures Apply(s, a).desk.lock == s.desk.lock || Apply(s, a).desk.lock.None? ||
      (a.Client? && (a.c.SubmitEnter? || a.c.WaitEnter?))
  {
  }

  lemma InServiceStep(s: State, a: Action)
    requires InService(s) && Tokens(s.ledger) && Enabled(s, a) && Sound(s, EffectOf(s, a))
    ensures InService(Apply(s, a))
  {
    if TouchesLimits(a) {
      InServiceLimits(s, a.c);
    } else {
      EffectsHappen(s, a);
      LimitsHappen(s, a);
      LockAfter(s, a);
      InServiceKept(s, Apply(s, a), EffectOf(s, a));
    }
  }

  lemma InServiceLimits(s: State, a: ClientAction)
    requires InService(s) && ClientEnabled(s, a) && TouchesLimits(Client(a))
    ensures InService(ApplyClient(s, a))
  {
    var s' := ApplyClient(s, a);
    forall t | t in s'.ledger.live ensures ServesRoute(s'.limits.limiter, RouteOf(s'.ledger.live[t].req)) {
      assert ServesRoute(s.limits.limiter, RouteOf(s.ledger.live[t].req));
      assert a.ReapLimit? ==> !Mentions(s.ledger.live[t].req, a.id);
    }
  }

  // ----- Windows

  lemma GcDated(l: Limits, l': Limiter)
    requires Dated(l) && l' == Gc(l.limiter, l.clock)
    ensures Dated(l.(limiter := l'))
  {
  }

  lemma CommitDated(l: Limits, id: nat, key: string, token: nat)
    requires Dated(l)
    ensures Dated(l.(limiter := CommitId(l.limiter, id, key, token, l.clock)))
  {
  }

  lemma AllowDated(l: Limits, r: Route, token: nat)
    requires Dated(l)
    ensures Dated(l.(limiter := Allow(l.limiter, r, token, l.clock)))
  {
    CommitDated(l, r.general, r.generalKey, token);
    CommitDated(l.(limiter := CommitId(l.limiter, r.general, r.generalKey, token, l.clock)), r.specific, r.specificKey, token);
    var l1 := CommitRoute(l.limiter, r, token, l.clock);
    GcDated(l.(limiter := l1.(gcCounter := l1.gcCounter + 1)), Gc(l1.(gcCounter := l1.gcCounter + 1), l.clock));
  }

  lemma ReleaseDated(l: Limits, r: Route, token: nat)
    requires Dated(l)
    ensures Dated(l.(limiter := Release(l.limiter, r, token)))
  {
  }

  lemma DatedStep(s: State, a: Action)
    requires Dated(s.limits) && Enabled(s, a)
    ensures Dated(Apply(s, a).limits)
  {
    if !TouchesLimits(a) {
      LimitsHappen(s, a);
      match EffectOf(s, a)
      case Arms(c) => AllowDated(s.limits, RouteOf(c.req), c.token);
      case Disarms(c) => ReleaseDated(s.limits, RouteOf(c.req), c.token);
      case _ =>
    }
  }
}
