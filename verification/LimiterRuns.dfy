/** Whole runs of the rate limiter: handle lifetimes, and the proof that lazily created,
    garbage-collected key state behaves exactly like a product of window automata that are
    never erased. */
module LimiterRuns {
  import opened Arithmetic
  import opened RateWindow
  import opened RateLimiter

  type Unit = u: nat | u > 0 witness 1

  datatype Op =
    | CreateLimit(cfg: Config)
    | CopyHandle(id: nat)
    | DropHandle(id: nat)
    | RemoveLimit(id: nat)
    | AllowRequest(route: Route, token: nat)
    | ReleaseRequest(route: Route, token: nat)
    | QueryDelay(route: Route, unit: Unit)
    | QueryAny(unit: Unit)

  datatype Timed = Timed(now: nat, op: Op)

  datatype Answer = Silent | NewId(id: nat) | Verdict(ok: bool) | DelayIs(delay: Delay)

  /** The limiter with its handles: ids the manager owns, and every other live copy. */
  datatype World = World(lim: Limiter, owned: set<nat>, copies: multiset<nat>)

  const START := World(EMPTY, {}, multiset{})

  predicate Alive(w: World, id: nat) {
    id in w.owned || id in w.copies
  }

  predicate HoldsRoute(w: World, r: Route) {
    (r.general != 0 ==> Alive(w, r.general)) && (r.specific != 0 ==> Alive(w, r.specific))
  }

  /** A caller can only copy, drop or name a handle that exists. */
  predicate Enabled(w: World, op: Op) {
    match op
    case CreateLimit(_) => true
    case CopyHandle(id) => Alive(w, id)
    case DropHandle(id) => id in w.copies
    case RemoveLimit(_) => true
    case AllowRequest(r, _) => HoldsRoute(w, r)
    case ReleaseRequest(r, _) => HoldsRoute(w, r)
    case QueryDelay(r, _) => HoldsRoute(w, r)
    case QueryAny(_) => true
  }

  /** The last copy's destructor removes the limit. */
  function Reap(w: World, id: nat): World {
    if Alive(w, id) then w else w.(lim := RemoveInternal(w.lim, id))
  }

  function Step(w: World, t: Timed): World {
    match t.op
    case CreateLimit(cfg) =>
      World(Create(w.lim, cfg), w.owned + {w.lim.nextId}, w.copies + multiset{w.lim.nextId})
    case CopyHandle(id) => w.(copies := w.copies + multiset{id})
    case DropHandle(id) => Reap(w.(copies := w.copies - multiset{id}), id)
    case RemoveLimit(id) => if id in w.owned then Reap(w.(owned := w.owned - {id}), id) else w
    case AllowRequest(r, token) => w.(lim := Allow(w.lim, r, token, t.now))
    case ReleaseRequest(r, token) => w.(lim := Release(w.lim, r, token))
    case QueryDelay(_, _) => w
    case QueryAny(_) => w
  }

  function Reply(w: World, t: Timed): Answer {
    match t.op
    case CreateLimit(_) => NewId(w.lim.nextId)
    case RemoveLimit(id) => Verdict(id in w.owned)
    case AllowRequest(r, token) => Verdict(Allowed(w.lim, r, token, t.now))
    case QueryDelay(r, unit) => DelayIs(TimeUntilAllowed(w.lim, r, t.now, unit))
    case QueryAny(unit) => DelayIs(Shortest(Delays(w.lim, t.now, unit)))
    case _ => Silent
  }

  predicate Legal(w: World, since: nat, ops: seq<Timed>)
    decreases |ops|
  {
    ops == [] || (since <= ops[0].now && Enabled(w, ops[0].op) && Legal(Step(w, ops[0]), ops[0].now, ops[1..]))
  }

  function Run(w: World, ops: seq<Timed>): World
    decreases |ops|
  {
    if ops == [] then w else Run(Step(w, ops[0]), ops[1..])
  }

  function Replies(w: World, ops: seq<Timed>): seq<Answer>
    decreases |ops|
  {
    if ops == [] then [] else [Reply(w, ops[0])] + Replies(Step(w, ops[0]), ops[1..])
  }

  function EndOf(since: nat, ops: seq<Timed>): nat {
    if ops == [] then since else ops[|ops| - 1].now
  }

  // ----- The reference: one immortal window automaton per (limit, key)

  datatype Product = Product(
    cfgs: map<nat, Config>, windows: map<(nat, string), KeyState>, nextId: nat, owned: set<nat>)

  const BLANK := Product(map[], map[], 1, {})

  function Window(p: Product, id: nat, key: string): KeyState {
    if (id, key) in p.windows then p.windows[(id, key)] else FRESH
  }

  predicate PAdmits(p: Product, id: nat, key: string, token: nat, now: nat) {
    id !in p.cfgs || Passes(p.cfgs[id], Window(p, id, key), token, now)
  }

  predicate PAllowed(p: Product, r: Route, token: nat, now: nat) {
    PAdmits(p, r.general, r.generalKey, token, now) && PAdmits(p, r.specific, r.specificKey, token, now)
  }

  function PCommit(p: Product, id: nat, key: string, token: nat, now: nat): Product {
    if id in p.cfgs
    then p.(windows := p.windows[(id, key) := Commit(p.cfgs[id], Window(p, id, key), token, now)])
    else p
  }

  function PCommitRoute(p: Product, r: Route, token: nat, now: nat): Product {
    var p1 := PCommit(p, r.general, r.generalKey, token, now);
    if SameLimit(r) then p1 else PCommit(p1, r.specific, r.specificKey, token, now)
  }

  function PRelease(p: Product, id: nat, key: string, token: nat): Product {
    if id in p.cfgs && p.cfgs[id].sequential
    then p.(windows := p.windows[(id, key) := Window(p, id, key).(tokens := Window(p, id, key).tokens - {token})])
    else p
  }

  function PDelay(p: Product, id: nat, key: string, now: nat, unit: Unit): Delay {
    if id in p.cfgs then KeyDelay(p.cfgs[id], Window(p, id, key), now, unit) else Wait(0)
  }

  /** The delays of all automata, those of removed limits included. */
  function PDelays(p: Product, now: nat, unit: Unit): set<Delay> {
    set q | q in p.windows && q.0 in p.cfgs :: KeyDelay(p.cfgs[q.0], p.windows[q], now, unit)
  }

  function PStep(p: Product, t: Timed): Product {
    match t.op
    case CreateLimit(cfg) => p.(cfgs := p.cfgs[p.nextId := cfg], nextId := p.nextId + 1, owned := p.owned + {p.nextId})
    case RemoveLimit(id) => p.(owned := p.owned - {id})
    case AllowRequest(r, token) =>
      if PAllowed(p, r, token, t.now) then PCommitRoute(p, r, token, t.now) else p
    case ReleaseRequest(r, token) =>
      if token == 0 then p
      else PRelease(PRelease(p, r.general, r.generalKey, token), r.specific, r.specificKey, token)
    case _ => p
  }

  function PReply(p: Product, t: Timed): Answer {
    match t.op
    case CreateLimit(_) => NewId(p.nextId)
    case RemoveLimit(id) => Verdict(id in p.owned)
    case AllowRequest(r, token) => Verdict(PAllowed(p, r, token, t.now))
    case QueryDelay(r, unit) =>
      DelayIs(MaxDelay(PDelay(p, r.general, r.generalKey, t.now, unit),
                       PDelay(p, r.specific, r.specificKey, t.now, unit)))
    case QueryAny(unit) => DelayIs(Shortest(PDelays(p, t.now, unit)))
    case _ => Silent
  }

  function PRun(p: Product, ops: seq<Timed>): Product
    decreases |ops|
  {
    if ops == [] then p else PRun(PStep(p, ops[0]), ops[1..])
  }

  function PReplies(p: Product, ops: seq<Timed>): seq<Answer>
    decreases |ops|
  {
    if ops == [] then [] else [PReply(p, ops[0])] + PReplies(PStep(p, ops[0]), ops[1..])
  }

  // ----- The simulation relation

  /** What a stored or erased key says about its immortal window. */
  predicate KeySim(ld: LimitData, key: string, win: KeyState, now: nat) {
    && (if key in ld.keys then ld.keys[key] == win
        else win.tokens == {} && (win.count == 0 || win.start + PeriodNs(ld.cfg) <= now))
    && (win.count == 0 ==> win.start == 0)
    && (ld.cfg.perPeriod == 0 ==> win.count == 0)
    && win.start <= now
  }

  ghost predicate LimitSim(ld: LimitData, p: Product, id: nat, now: nat) {
    && id in p.cfgs && p.cfgs[id] == ld.cfg
    && forall key :: KeySim(ld, key, Window(p, id, key), now)
  }

  /** What is left of a limit ever created: its data, or nothing once it is erased. */
  function Remains(l: Limiter, p: Product, id: nat): LimitData
    requires id in p.cfgs
  {
    if id in l.limits then l.limits[id] else LimitData(p.cfgs[id], true, map[])
  }

  /** Every limit ever created, alive, removed or erased, agrees with its automata. */
  ghost predicate LimitsSim(l: Limiter, p: Product, now: nat) {
    forall id :: id in p.cfgs ==> LimitSim(Remains(l, p, id), p, id, now)
  }

  ghost predicate Sim(w: World, p: Product, now: nat) {
    && w.lim.nextId == p.nextId && w.owned == p.owned
    && 0 !in p.cfgs && p.nextId > 0
    && (forall id :: id in p.cfgs ==> id < p.nextId)
    && (forall id, key :: (id, key) in p.windows ==> id in p.cfgs)
    && (forall id :: id in w.lim.limits ==> id in p.cfgs)
    && (forall id :: Alive(w, id) ==> id in w.lim.limits)
    && (forall id :: id in w.lim.limits ==> (w.lim.limits[id].removed <==> !Alive(w, id)))
    && LimitsSim(w.lim, p, now)
  }

  lemma AliveSim(w: World, p: Product, id: nat, now: nat)
    requires Sim(w, p, now) && Alive(w, id)
    ensures id in w.lim.limits && !w.lim.limits[id].removed && LimitSim(w.lim.limits[id], p, id, now)
  {
    assert Remains(w.lim, p, id) == w.lim.limits[id];
  }

  // ----- Steps of a single limit preserve the relation

  lemma KeySimAges(ld: LimitData, key: string, win: KeyState, t: nat, now: nat)
    requires KeySim(ld, key, win, t) && t <= now
    ensures KeySim(ld, key, win, now)
  {
  }

  lemma SimAges(w: World, p: Product, t: nat, now: nat)
    requires Sim(w, p, t) && t <= now
    ensures Sim(w, p, now)
  {
    forall id | id in p.cfgs ensures LimitSim(Remains(w.lim, p, id), p, id, now) {
      forall key ensures KeySim(Remains(w.lim, p, id), key, Window(p, id, key), now) {
        KeySimAges(Remains(w.lim, p, id), key, Window(p, id, key), t, now);
      }
    }
  }

  /** Expiry in whole milliseconds is expiry in nanoseconds. */
  lemma ExpiredIsElapsed(cfg: Config, ks: KeyState, now: nat)
    requires ks.start <= now
    ensures Expired(cfg, ks, now) <==> ks.start + PeriodNs(cfg) <= now
  {
  }

  lemma KeyDecides(ld: LimitData, key: string, win: KeyState, token: nat, now: nat)
    requires KeySim(ld, key, win, now)
    ensures CanPass(ld, key, token, now) <==> Passes(ld.cfg, win, token, now)
  {
    ExpiredIsElapsed(ld.cfg, win, now);
  }

  lemma KeyCommits(ld: LimitData, key: string, win: KeyState, token: nat, now: nat)
    requires KeySim(ld, key, win, now)
    ensures KeySim(CommitLimit(ld, key, token, now), key, Commit(ld.cfg, win, token, now), now)
  {
    ExpiredIsElapsed(ld.cfg, win, now);
    ExpiredIsElapsed(ld.cfg, FRESH, now);
  }

  lemma KeyDelays(ld: LimitData, key: string, win: KeyState, now: nat, unit: Unit)
    requires KeySim(ld, key, win, now)
    ensures (if key in ld.keys then KeyDelay(ld.cfg, ld.keys[key], now, unit) else Wait(0))
         == KeyDelay(ld.cfg, win, now, unit)
  {
    if key !in ld.keys && win.count > 0 {
      CastMonotone(PeriodNs(ld.cfg), now - win.start, unit);
    }
  }

  lemma CastMonotone(a: int, b: int, unit: Unit)
    requires 0 <= a <= b
    ensures Cast(a, unit) <= Cast(b, unit)
  {
    var qa, qb := a / unit, b / unit;
    assert a == qa * unit + a % unit && b == qb * unit + b % unit;
    if qa > qb {
      MulLeq(qb + 1, qa, unit);
    }
  }

  lemma KeyReleases(ld: LimitData, key: string, win: KeyState, token: nat, now: nat)
    requires KeySim(ld, key, win, now)
    ensures KeySim(ReleaseKey(ld, key, token), key, win.(tokens := win.tokens - {token}), now)
  {
  }

  lemma KeySweeps(ld: LimitData, key: string, win: KeyState, now: nat)
    requires KeySim(ld, key, win, now)
    ensures KeySim(GcLimit(ld, now), key, win, now)
  {
    ExpiredIsElapsed(ld.cfg, win, now);
  }

  // ----- Steps of the table preserve the relation

  lemma CommitIdSim(w: World, p: Product, id: nat, key: string, token: nat, now: nat)
    requires Sim(w, p, now) && (id != 0 ==> Alive(w, id))
    ensures Sim(w.(lim := CommitId(w.lim, id, key, token, now)), PCommit(p, id, key, token, now), now)
  {
    if id != 0 {
      AliveSim(w, p, id, now);
      var p', ld' := PCommit(p, id, key, token, now), CommitLimit(w.lim.limits[id], key, token, now);
      KeyCommits(w.lim.limits[id], key, Window(p, id, key), token, now);
      forall k ensures KeySim(ld', k, Window(p', id, k), now) {
        assert k != key ==> Window(p', id, k) == Window(p, id, k) && KeySim(w.lim.limits[id], k, Window(p, id, k), now);
      }
      OthersKeep(w, w.(lim := CommitId(w.lim, id, key, token, now)), p, p', id, now);
    }
  }

  lemma ReleaseIdSim(w: World, p: Product, id: nat, key: string, token: nat, now: nat)
    requires Sim(w, p, now) && (id != 0 ==> Alive(w, id))
    ensures Sim(w.(lim := ReleaseId(w.lim, id, key, token)), PRelease(p, id, key, token), now)
  {
    if id != 0 { AliveSim(w, p, id, now); }
    if id != 0 && w.lim.limits[id].cfg.sequential {
      var p', ld' := PRelease(p, id, key, token), ReleaseKey(w.lim.limits[id], key, token);
      KeyReleases(w.lim.limits[id], key, Window(p, id, key), token, now);
      forall k ensures KeySim(ld', k, Window(p', id, k), now) {
        assert k != key ==> Window(p', id, k) == Window(p, id, k) && KeySim(w.lim.limits[id], k, Window(p, id, k), now);
      }
      OthersKeep(w, w.(lim := ReleaseId(w.lim, id, key, token)), p, p', id, now);
    }
  }

  /** A change to one limit and its windows leaves the rest of the relation alone. */
  lemma OthersKeep(w: World, w': World, p: Product, p': Product, id: nat, now: nat)
    requires Sim(w, p, now) && Alive(w, id) && id != 0
    requires id in w'.lim.limits && LimitSim(w'.lim.limits[id], p', id, now)
    requires w.lim.limits[id].removed == w'.lim.limits[id].removed
    requires w' == w.(lim := w.lim.(limits := w.lim.limits[id := w'.lim.limits[id]]))
    requires p' == p.(windows := p'.windows) && forall q :: q in p'.windows ==> q in p.windows || q.0 == id
    requires forall other, k :: other != id ==> Window(p', other, k) == Window(p, other, k)
    ensures Sim(w', p', now)
  {
    forall other | other in p'.cfgs ensures LimitSim(Remains(w'.lim, p', other), p', other, now) {
      if other != id {
        assert LimitSim(Remains(w.lim, p, other), p, other, now) && Remains(w'.lim, p', other) == Remains(w.lim, p, other);
        forall k ensures KeySim(Remains(w'.lim, p', other), k, Window(p', other, k), now) {
          assert KeySim(Remains(w.lim, p, other), k, Window(p, other, k), now);
        }
      }
    }
    AliveKept(w, w');
  }

  /** Liveness depends on the handles alone. */
  lemma AliveKept(w: World, w': World)
    requires w'.owned == w.owned && w'.copies == w.copies
    ensures forall id :: Alive(w', id) == Alive(w, id)
  {
  }

  lemma GcSim(w: World, p: Product, now: nat)
    requires Sim(w, p, now)
    ensures Sim(w.(lim := Gc(w.lim, now)), p, now)
  {
    var w' := w.(lim := Gc(w.lim, now));
    forall id | id in p.cfgs ensures LimitSim(Remains(w'.lim, p, id), p, id, now) {
      GcRemains(w.lim, p, id, now);
    }
    AliveKept(w, w');
  }

  /** Collection leaves of a limit what agrees with its automata, even when it erases it. */
  lemma GcRemains(l: Limiter, p: Product, id: nat, now: nat)
    requires id in p.cfgs && LimitSim(Remains(l, p, id), p, id, now)
    ensures LimitSim(Remains(Gc(l, now), p, id), p, id, now)
  {
    var ld, ld' := Remains(l, p, id), Remains(Gc(l, now), p, id);
    if id in l.limits {
      assert ld'.keys == GcLimit(ld, now).keys && ld'.cfg == ld.cfg;
      forall key ensures KeySim(ld', key, Window(p, id, key), now) {
        KeySweeps(ld, key, Window(p, id, key), now);
      }
    } else {
      assert ld' == ld;
    }
  }

  lemma CounterSim(w: World, p: Product, now: nat, c: nat)
    requires Sim(w, p, now)
    ensures Sim(w.(lim := w.lim.(gcCounter := c)), p, now)
  {
    var w' := w.(lim := w.lim.(gcCounter := c));
    forall id | id in p.cfgs ensures LimitSim(Remains(w'.lim, p, id), p, id, now) {
      assert Remains(w'.lim, p, id) == Remains(w.lim, p, id);
    }
    AliveKept(w, w');
  }

  lemma RouteDecides(w: World, p: Product, id: nat, key: string, token: nat, now: nat)
    requires Sim(w, p, now) && (id != 0 ==> Alive(w, id))
    ensures Admits(w.lim, id, key, token, now) <==> PAdmits(p, id, key, token, now)
  {
    if id != 0 {
      AliveSim(w, p, id, now);
      KeyDecides(w.lim.limits[id], key, Window(p, id, key), token, now);
    }
  }

  lemma CommitRouteSim(w: World, p: Product, r: Route, token: nat, now: nat)
    requires Sim(w, p, now) && HoldsRoute(w, r)
    ensures Sim(w.(lim := CommitRoute(w.lim, r, token, now)), PCommitRoute(p, r, token, now), now)
  {
    CommitIdSim(w, p, r.general, r.generalKey, token, now);
    if !SameLimit(r) {
      var w1 := w.(lim := CommitId(w.lim, r.general, r.generalKey, token, now));
      assert r.specific != 0 ==> Alive(w1, r.specific);
      CommitIdSim(w1, PCommit(p, r.general, r.generalKey, token, now), r.specific, r.specificKey, token, now);
    }
  }

  lemma TallySim(w: World, p: Product, now: nat)
    requires Sim(w, p, now)
    ensures Sim(w.(lim := Tally(w.lim, now)), p, now)
  {
    CounterSim(w, p, now, w.lim.gcCounter + 1);
    GcSim(w.(lim := w.lim.(gcCounter := w.lim.gcCounter + 1)), p, now);
  }

  lemma AllowSim(w: World, p: Product, t: Timed)
    requires Sim(w, p, t.now) && t.op.AllowRequest? && Enabled(w, t.op)
    ensures Reply(w, t) == PReply(p, t) && Sim(Step(w, t), PStep(p, t), t.now)
  {
    var r, token, now := t.op.route, t.op.token, t.now;
    RouteDecides(w, p, r.general, r.generalKey, token, now);
    RouteDecides(w, p, r.specific, r.specificKey, token, now);
    if Allowed(w.lim, r, token, now) && (r.general != 0 || r.specific != 0) {
      CommitRouteSim(w, p, r, token, now);
      TallySim(w.(lim := CommitRoute(w.lim, r, token, now)), PStep(p, t), now);
    }
  }

  lemma ReleaseSim(w: World, p: Product, t: Timed)
    requires Sim(w, p, t.now) && t.op.ReleaseRequest? && Enabled(w, t.op)
    ensures Sim(Step(w, t), PStep(p, t), t.now)
  {
    var r, token, now := t.op.route, t.op.token, t.now;
    if token != 0 {
      ReleaseIdSim(w, p, r.general, r.generalKey, token, now);
      var w1 := w.(lim := ReleaseId(w.lim, r.general, r.generalKey, token));
      var p1 := PRelease(p, r.general, r.generalKey, token);
      if !SameLimit(r) {
        ReleaseIdSim(w1, p1, r.specific, r.specificKey, token, now);
      } else if r.general in p.cfgs && p.cfgs[r.general].sequential {
        var win := Window(p, r.general, r.generalKey);
        assert win.tokens - {token} - {token} == win.tokens - {token};
        assert PStep(p, t).windows == p1.windows;
      }
    }
  }

  lemma CreateSim(w: World, p: Product, t: Timed)
    requires Sim(w, p, t.now) && t.op.CreateLimit?
    ensures Reply(w, t) == PReply(p, t) && Sim(Step(w, t), PStep(p, t), t.now)
  {
    var w', p' := Step(w, t), PStep(p, t);
    forall id | id in p'.cfgs ensures LimitSim(Remains(w'.lim, p', id), p', id, t.now) {
      forall key ensures KeySim(Remains(w'.lim, p', id), key, Window(p', id, key), t.now) {
        assert Window(p', id, key) == Window(p, id, key);
        if id == p.nextId {
          assert (id, key) !in p.windows;
        } else {
          assert LimitSim(Remains(w.lim, p, id), p, id, t.now);
          assert KeySim(Remains(w.lim, p, id), key, Window(p, id, key), t.now);
        }
      }
    }
  }

  /** Handles come and go: a limit that lost its last one is erased or marked removed. */
  lemma ReapSim(w: World, w': World, p: Product, p': Product, gone: nat, now: nat)
    requires Sim(w, p, now) && p' == p.(owned := w'.owned)
    requires w'.lim == w.lim || (w'.lim == RemoveInternal(w.lim, gone) && !Alive(w', gone))
    requires forall id :: Alive(w', id) ==> Alive(w, id)
    requires forall id :: Alive(w, id) && !Alive(w', id) ==> id == gone && w'.lim != w.lim
    ensures Sim(w', p', now)
  {
    forall id | id in p'.cfgs ensures LimitSim(Remains(w'.lim, p', id), p', id, now) {
      var ld, ld' := Remains(w.lim, p, id), Remains(w'.lim, p', id);
      assert LimitSim(ld, p, id, now) && ld'.keys == ld.keys && ld'.cfg == ld.cfg;
      forall key ensures KeySim(ld', key, Window(p', id, key), now) {
        assert Window(p', id, key) == Window(p, id, key) && KeySim(ld, key, Window(p, id, key), now);
      }
    }
  }

  lemma HandleSim(w: World, p: Product, t: Timed)
    requires Sim(w, p, t.now) && Enabled(w, t.op)
    requires t.op.CopyHandle? || t.op.DropHandle? || t.op.RemoveLimit?
    ensures Reply(w, t) == PReply(p, t) && Sim(Step(w, t), PStep(p, t), t.now)
  {
    if t.op.RemoveLimit? && t.op.id !in w.owned {
      assert PStep(p, t) == p;
    } else {
      ReapSim(w, Step(w, t), p, PStep(p, t), t.op.id, t.now);
    }
  }

  lemma DelaySim(w: World, p: Product, id: nat, key: string, now: nat, unit: Unit)
    requires Sim(w, p, now) && (id != 0 ==> Alive(w, id))
    ensures LimitDelay(w.lim, id, key, now, unit) == PDelay(p, id, key, now, unit)
  {
    if id != 0 {
      AliveSim(w, p, id, now);
      KeyDelays(w.lim.limits[id], key, Window(p, id, key), now, unit);
    }
  }

  /** Erased keys and limits have nothing to wait for, so the query over all keys cannot tell either. */
  lemma AnySim(w: World, p: Product, now: nat, unit: Unit)
    requires Sim(w, p, now)
    ensures Shortest(Delays(w.lim, now, unit)) == Shortest(PDelays(p, now, unit))
  {
    var ds, ds' := Delays(w.lim, now, unit), PDelays(p, now, unit);
    forall d | d in ds && d != Wait(0) ensures d in ds' { StoredDelay(w, p, now, unit, d); }
    forall d | d in ds' && d != Wait(0) ensures d in ds { WindowDelay(w, p, now, unit, d); }
    ZeroIsIdle(ds, ds');
  }

  lemma ZeroIsIdle(ds: set<Delay>, ds': set<Delay>)
    requires forall d :: d != Wait(0) ==> (d in ds <==> d in ds')
    ensures Shortest(ds) == Shortest(ds')
  {
    assert Finite(ds) == Finite(ds') by {
      forall k ensures k in Finite(ds) <==> k in Finite(ds') {
        assert k > 0 ==> (Wait(k) in ds <==> Wait(k) in ds');
      }
    }
    assert Blocked in ds <==> Blocked in ds';
  }

  lemma StoredDelay(w: World, p: Product, now: nat, unit: Unit, d: Delay)
    requires Sim(w, p, now) && d in Delays(w.lim, now, unit) && d != Wait(0)
    ensures d in PDelays(p, now, unit)
  {
    var id, k :| id in w.lim.limits && k in w.lim.limits[id].keys &&
                 d == KeyDelay(w.lim.limits[id].cfg, w.lim.limits[id].keys[k], now, unit);
    assert LimitSim(Remains(w.lim, p, id), p, id, now) && KeySim(w.lim.limits[id], k, Window(p, id, k), now);
    assert (id, k) in p.windows;
  }

  lemma WindowDelay(w: World, p: Product, now: nat, unit: Unit, d: Delay)
    requires Sim(w, p, now) && d in PDelays(p, now, unit) && d != Wait(0)
    ensures d in Delays(w.lim, now, unit)
  {
    var q :| q in p.windows && q.0 in p.cfgs && d == KeyDelay(p.cfgs[q.0], p.windows[q], now, unit);
    var id, k := q.0, q.1;
    assert q == (id, k) && Window(p, id, k) == p.windows[q];
    var ld := Remains(w.lim, p, id);
    assert LimitSim(ld, p, id, now) && KeySim(ld, k, Window(p, id, k), now);
    KeyDelays(ld, k, Window(p, id, k), now, unit);
    assert k in ld.keys && id in w.lim.limits;
  }

  lemma StepSim(w: World, p: Product, since: nat, t: Timed)
    requires Sim(w, p, since) && since <= t.now && Enabled(w, t.op)
    ensures Reply(w, t) == PReply(p, t) && Sim(Step(w, t), PStep(p, t), t.now)
  {
    SimAges(w, p, since, t.now);
    match t.op
    case CreateLimit(_) => CreateSim(w, p, t);
    case AllowRequest(_, _) => AllowSim(w, p, t);
    case ReleaseRequest(_, _) => ReleaseSim(w, p, t);
    case QueryDelay(r, unit) =>
      DelaySim(w, p, r.general, r.generalKey, t.now, unit);
      DelaySim(w, p, r.specific, r.specificKey, t.now, unit);
    case QueryAny(unit) => AnySim(w, p, t.now, unit);
    case _ => HandleSim(w, p, t);
  }

  // ----- Theorems over whole runs

  /** Lazy creation, erasure on release and garbage collection are unobservable: every answer is the
      answer of the product of immortal automata. */
  lemma {:induction false} CollectionIsUnobservable(w: World, p: Product, since: nat, ops: seq<Timed>)
    requires Sim(w, p, since) && Legal(w, since, ops)
    ensures Replies(w, ops) == PReplies(p, ops)
    ensures Sim(Run(w, ops), PRun(p, ops), EndOf(since, ops))
    decreases |ops|
  {
    if ops == [] {
    } else {
      StepSim(w, p, since, ops[0]);
      CollectionIsUnobservable(Step(w, ops[0]), PStep(p, ops[0]), ops[0].now, ops[1..]);
      assert ops[1..] != [] ==> ops[1..][|ops| - 2] == ops[|ops| - 1];
    }
  }

  /** From the empty limiter, every legal run answers like the product. */
  lemma LimiterRefinesProduct(ops: seq<Timed>)
    requires Legal(START, 0, ops)
    ensures Replies(START, ops) == PReplies(BLANK, ops)
  {
    CollectionIsUnobservable(START, BLANK, 0, ops);
  }

  function NewIds(answers: seq<Answer>): seq<nat> {
    if answers == [] then []
    else (if answers[0].NewId? then [answers[0].id] else []) + NewIds(answers[1..])
  }

  predicate Increasing(ids: seq<nat>, from: nat) {
    && (forall i :: 0 <= i < |ids| ==> ids[i] >= from)
    && (forall i, j :: 0 <= i < j < |ids| ==> ids[i] < ids[j])
  }

  lemma IncreasingFrom(id: nat, ids: seq<nat>)
    requires Increasing(ids, id + 1)
    ensures Increasing([id] + ids, id)
  {
    var all := [id] + ids;
    forall i | 0 <= i < |all| ensures all[i] == if i == 0 then id else ids[i - 1] {}
  }

  /** Ids are never reused: the ids a run hands out strictly increase. */
  lemma {:induction false} IdsIncrease(w: World, ops: seq<Timed>)
    ensures Increasing(NewIds(Replies(w, ops)), w.lim.nextId)
    decreases |ops|
  {
    if ops == [] {
    } else {
      var answers, ids := Replies(w, ops), NewIds(Replies(Step(w, ops[0]), ops[1..]));
      NextIdGrows(w, ops[0]);
      IdsIncrease(Step(w, ops[0]), ops[1..]);
      assert answers[0] == Reply(w, ops[0]) && answers[1..] == Replies(Step(w, ops[0]), ops[1..]);
      if ops[0].op.CreateLimit? {
        IncreasingFrom(w.lim.nextId, ids);
        assert NewIds(answers) == [w.lim.nextId] + ids;
      } else {
        assert NewIds(answers) == [] + ids && [] + ids == ids;
      }
    }
  }

  lemma NextIdGrows(w: World, t: Timed)
    ensures Step(w, t).lim.nextId == w.lim.nextId + if t.op.CreateLimit? then 1 else 0
    ensures Reply(w, t).NewId? <==> t.op.CreateLimit?
    ensures t.op.CreateLimit? ==> Reply(w, t) == NewId(w.lim.nextId)
  {
  }

  /** Limit data is present and unmarked exactly while a handle is alive, ids are never reused,
      and the removed branch of admission is out of reach of a live handle. */
  lemma LimitLifetime(ops: seq<Timed>)
    requires Legal(START, 0, ops)
    ensures var w := Run(START, ops);
      && (forall id :: id in w.lim.limits && !w.lim.limits[id].removed <==> Alive(w, id))
      && (forall id :: id in w.lim.limits ==> 0 < id < w.lim.nextId)
      && (forall op :: Enabled(w, op) && op.AllowRequest? ==>
            && (op.route.general != 0 ==> Present(w.lim, op.route.general) && !w.lim.limits[op.route.general].removed)
            && (op.route.specific != 0 ==> Present(w.lim, op.route.specific) && !w.lim.limits[op.route.specific].removed))
  {
    CollectionIsUnobservable(START, BLANK, 0, ops);
  }

  /** A key with nothing to remember: no token, and no use or none within the period. */
  predicate Forgettable(cfg: Config, ks: KeyState, now: nat) {
    ks.tokens == {} && (ks.count == 0 || ToMs(now - ks.start) >= cfg.periodMs)
  }

  /** A collection pass erases exactly the forgettable keys, and a limit exactly when it is removed and all
      its keys are forgettable. */
  lemma GcErasesDeadLimits(l: Limiter, id: nat, now: nat)
    requires id in l.limits
    ensures id !in Gc(l, now).limits <==>
      l.limits[id].removed && forall k :: k in l.limits[id].keys ==> Forgettable(l.limits[id].cfg, l.limits[id].keys[k], now)
    ensures id in Gc(l, now).limits ==> forall k ::
      k in Gc(l, now).limits[id].keys <==> k in l.limits[id].keys && !Forgettable(l.limits[id].cfg, l.limits[id].keys[k], now)
  {
    var ld := l.limits[id];
    if k :| k in ld.keys && !Forgettable(ld.cfg, ld.keys[k], now) {
      assert k in GcLimit(ld, now).keys;
    } else {
      assert GcLimit(ld, now).keys == map[];
    }
  }

  // ----- The rate bound of whole runs

  /** Times of the admitted attempts through (id, key). */
  function Commits(w: World, ops: seq<Timed>, id: nat, key: string): seq<nat>
    decreases |ops|
  {
    if ops == [] then []
    else
      (if CommitsVia(w, ops[0], id, key) then [ops[0].now] else []) + Commits(Step(w, ops[0]), ops[1..], id, key)
  }

  predicate CommitsVia(w: World, t: Timed, id: nat, key: string) {
    t.op.AllowRequest? && Names(t.op.route, id, key) && Allowed(w.lim, t.op.route, t.op.token, t.now)
  }

  predicate PCommitsVia(p: Product, t: Timed, id: nat, key: string) {
    t.op.AllowRequest? && Names(t.op.route, id, key) && PAllowed(p, t.op.route, t.op.token, t.now)
  }

  function PCommits(p: Product, ops: seq<Timed>, id: nat, key: string): seq<nat>
    decreases |ops|
  {
    if ops == [] then []
    else
      (if PCommitsVia(p, ops[0], id, key) then [ops[0].now] else []) + PCommits(PStep(p, ops[0]), ops[1..], id, key)
  }

  predicate Clocked(since: nat, ops: seq<Timed>)
    decreases |ops|
  {
    ops == [] || (since <= ops[0].now && Clocked(ops[0].now, ops[1..]))
  }

  lemma {:induction false} CommitsAgree(w: World, p: Product, since: nat, ops: seq<Timed>, id: nat, key: string)
    requires Sim(w, p, since) && Legal(w, since, ops)
    ensures Commits(w, ops, id, key) == PCommits(p, ops, id, key) && Clocked(since, ops)
    decreases |ops|
  {
    if ops == [] {
    } else {
      StepSim(w, p, since, ops[0]);
      CommitsAgree(Step(w, ops[0]), PStep(p, ops[0]), ops[0].now, ops[1..], id, key);
    }
  }

  lemma {:induction false} CommitsAdmissible(
    p: Product, since: nat, ops: seq<Timed>, id: nat, key: string, cfg: Config, past: seq<nat>)
    requires Clocked(since, ops) && Tracks(p, id, key, cfg, past, since)
    ensures Admissible(cfg, past + PCommits(p, ops, id, key))
    decreases |ops|
  {
    if ops == [] {
      assert past + PCommits(p, ops, id, key) == past;
    } else {
      var t, rest := ops[0], PCommits(PStep(p, ops[0]), ops[1..], id, key);
      var made := if PCommitsVia(p, t, id, key) then [t.now] else [];
      TracksOn(p, t, id, key, cfg, past, since);
      CommitsAdmissible(PStep(p, t), t.now, ops[1..], id, key, cfg, past + made);
      assert past + (made + rest) == (past + made) + rest;
    }
  }

  /** The window has been through exactly the commits `past`. */
  predicate Tracks(p: Product, id: nat, key: string, cfg: Config, past: seq<nat>, since: nat) {
    && id in p.cfgs && p.cfgs[id] == cfg && id != 0 && id < p.nextId
    && Admissible(cfg, past) && (past != [] ==> past[|past| - 1] <= since)
    && Window(p, id, key).count == After(cfg, past).count && Window(p, id, key).start == After(cfg, past).start
  }

  lemma TracksOn(p: Product, t: Timed, id: nat, key: string, cfg: Config, past: seq<nat>, since: nat)
    requires Tracks(p, id, key, cfg, past, since) && since <= t.now
    ensures Tracks(PStep(p, t), id, key, cfg, past + (if PCommitsVia(p, t, id, key) then [t.now] else []), t.now)
  {
    var past' := past + [t.now];
    assert past'[..|past'| - 1] == past && past + [] == past;
    WindowCounts(p, t, id, key);
    if PCommitsVia(p, t, id, key) {
      assert PAdmits(p, id, key, t.op.token, t.now);
    }
  }

  /** A step moves the counters of one window exactly when it commits through it, once. */
  lemma WindowCounts(p: Product, t: Timed, id: nat, key: string)
    requires id in p.cfgs && id != 0 && id != p.nextId
    ensures var win, win' := Window(p, id, key), Window(PStep(p, t), id, key);
      if PCommitsVia(p, t, id, key)
      then win' == Commit(p.cfgs[id], win, t.op.token, t.now)
      else win'.count == win.count && win'.start == win.start
    ensures id in PStep(p, t).cfgs && PStep(p, t).cfgs[id] == p.cfgs[id]
  {
    if t.op.AllowRequest? { RouteWindow(p, t.op.route, t.op.token, t.now, id, key); }
  }

  lemma RouteWindow(p: Product, r: Route, token: nat, now: nat, id: nat, key: string)
    requires id in p.cfgs && id != 0
    ensures var p' := PCommitRoute(p, r, token, now);
      && p'.cfgs == p.cfgs
      && Window(p', id, key) ==
         if Names(r, id, key) then Commit(p.cfgs[id], Window(p, id, key), token, now) else Window(p, id, key)
  {
  }

  /** A success steps exactly the named automata, once when both names coincide, and a denial none. */
  lemma AdmissionStepsNamedWindows(p: Product, now: nat, r: Route, token: nat, id: nat, key: string)
    requires id in p.cfgs && 0 !in p.cfgs
    ensures var p' := PStep(p, Timed(now, AllowRequest(r, token)));
      Window(p', id, key) ==
      if Names(r, id, key) && PAllowed(p, r, token, now) then Commit(p.cfgs[id], Window(p, id, key), token, now)
      else Window(p, id, key)
    ensures !PAllowed(p, r, token, now) ==> PStep(p, Timed(now, AllowRequest(r, token))) == p
  {
  }

  lemma {:induction false} LegalSplit(w: World, since: nat, a: seq<Timed>, b: seq<Timed>)
    requires Legal(w, since, a + b)
    ensures Legal(w, since, a) && Legal(Run(w, a), EndOf(since, a), b)
    decreases |a|
  {
    if a == [] {
      assert a + b == b;
    } else {
      assert (a + b)[1..] == a[1..] + b;
      LegalSplit(Step(w, a[0]), a[0].now, a[1..], b);
      assert a[1..] != [] ==> a[1..][|a| - 2] == a[|a| - 1];
    }
  }

  lemma LegalEarlier(w: World, since: nat, later: nat, ops: seq<Timed>)
    requires since <= later && Legal(w, later, ops)
    ensures Legal(w, since, ops)
  {
  }

  lemma {:induction false} RunsJoin(w: World, since: nat, later: nat, a: seq<Timed>, b: seq<Timed>)
    requires Legal(w, since, a) && EndOf(since, a) <= later && Legal(Run(w, a), later, b)
    ensures Legal(w, since, a + b) && Run(w, a + b) == Run(Run(w, a), b)
    decreases |a|
  {
    if a == [] {
      assert a + b == b;
      LegalEarlier(w, since, later, b);
    } else {
      assert (a + b)[1..] == a[1..] + b && (a + b)[0] == a[0];
      assert a[1..] != [] ==> a[1..][|a| - 2] == a[|a| - 1];
      RunsJoin(Step(w, a[0]), a[0].now, later, a[1..], b);
    }
  }

  /** The real rate bound: whatever callers do before and after a limit with `perPeriod > 0` is created,
      any half-open interval of `n` periods holds at most `(n + 1) * perPeriod` admitted attempts of a key. */
  lemma AdmittedRateIsBounded(pre: seq<Timed>, create: Timed, post: seq<Timed>, key: string, from: nat, n: nat)
    requires create.op.CreateLimit? && create.op.cfg.perPeriod > 0
    requires Legal(START, 0, pre + ([create] + post))
    ensures var w := Run(START, pre);
      |Within(Commits(Step(w, create), post, w.lim.nextId, key), from, from + n * PeriodNs(create.op.cfg))|
        <= (n + 1) * create.op.cfg.perPeriod
  {
    LegalSplit(START, 0, pre, [create] + post);
    CollectionIsUnobservable(START, BLANK, 0, pre);
    assert ([create] + post)[1..] == post;
    FreshLimit(Run(START, pre), PRun(BLANK, pre), EndOf(0, pre), create, post, key, from, n);
  }

  /** A new limit's windows start out fresh. */
  lemma FreshWindow(w: World, p: Product, since: nat, create: Timed, key: string)
    requires create.op.CreateLimit? && Sim(w, p, since) && since <= create.now
    ensures var p', id := PStep(p, create), w.lim.nextId;
      && Sim(Step(w, create), p', create.now)
      && id in p'.cfgs && p'.cfgs[id] == create.op.cfg && Window(p', id, key) == FRESH
  {
    StepSim(w, p, since, create);
    assert (w.lim.nextId, key) !in p.windows;
  }

  lemma CommitsFromCreation(w: World, p: Product, since: nat, create: Timed, post: seq<Timed>, key: string)
    requires create.op.CreateLimit? && Sim(w, p, since) && since <= create.now
    requires Legal(Step(w, create), create.now, post)
    ensures Admissible(create.op.cfg, Commits(Step(w, create), post, w.lim.nextId, key))
  {
    var id := w.lim.nextId;
    FreshWindow(w, p, since, create, key);
    CommitsAgree(Step(w, create), PStep(p, create), create.now, post, id, key);
    CommitsAdmissible(PStep(p, create), create.now, post, id, key, create.op.cfg, []);
    assert [] + PCommits(PStep(p, create), post, id, key) == PCommits(PStep(p, create), post, id, key);
  }

  lemma FreshLimit(w: World, p: Product, since: nat, create: Timed, post: seq<Timed>, key: string,
                   from: nat, n: nat)
    requires create.op.CreateLimit? && create.op.cfg.perPeriod > 0 && Sim(w, p, since) && since <= create.now
    requires Legal(Step(w, create), create.now, post)
    ensures |Within(Commits(Step(w, create), post, w.lim.nextId, key), from, from + n * PeriodNs(create.op.cfg))|
      <= (n + 1) * create.op.cfg.perPeriod
  {
    CommitsFromCreation(w, p, since, create, post, key);
    RateBound(create.op.cfg, Commits(Step(w, create), post, w.lim.nextId, key), from, n);
  }

  // ----- Keys are independent

  /** One automaton fed only the operations that name it. */
  function Solo(cfg: Config, win: KeyState, ops: seq<Timed>, id: nat, key: string): seq<bool>
    decreases |ops|
  {
    if ops == [] then []
    else
      var t := ops[0];
      match t.op
      case AllowRequest(r, token) =>
        if !Names(r, id, key) then Solo(cfg, win, ops[1..], id, key)
        else if Passes(cfg, win, token, t.now) then [true] + Solo(cfg, Commit(cfg, win, token, t.now), ops[1..], id, key)
        else [false] + Solo(cfg, win, ops[1..], id, key)
      case ReleaseRequest(r, token) =>
        if Names(r, id, key) && token != 0 && cfg.sequential
        then Solo(cfg, win.(tokens := win.tokens - {token}), ops[1..], id, key)
        else Solo(cfg, win, ops[1..], id, key)
      case _ => Solo(cfg, win, ops[1..], id, key)
  }

  /** The limiter's verdicts on the requests that name (id, key). */
  function VerdictsAt(w: World, ops: seq<Timed>, id: nat, key: string): seq<bool>
    decreases |ops|
  {
    if ops == [] then []
    else
      var t, rest := ops[0], VerdictsAt(Step(w, ops[0]), ops[1..], id, key);
      if t.op.AllowRequest? && Names(t.op.route, id, key)
      then [Allowed(w.lim, t.op.route, t.op.token, t.now)] + rest else rest
  }

  predicate SingleLimitAt(ops: seq<Timed>, id: nat, key: string) {
    forall i :: 0 <= i < |ops| && ops[i].op.AllowRequest? && Names(ops[i].op.route, id, key) ==>
      ops[i].op.route.general == 0 || ops[i].op.route.specific == 0 || SameLimit(ops[i].op.route)
  }

  /** If requests at one key name no second limit, their verdicts depend on that key's own history alone. */
  lemma {:induction false} KeysAreIndependent(
    w: World, p: Product, since: nat, ops: seq<Timed>, id: nat, key: string)
    requires Sim(w, p, since) && Legal(w, since, ops) && id in p.cfgs
    requires SingleLimitAt(ops, id, key)
    ensures VerdictsAt(w, ops, id, key) == Solo(p.cfgs[id], Window(p, id, key), ops, id, key)
    decreases |ops|
  {
    if ops == [] {
    } else {
      var t := ops[0];
      SimAges(w, p, since, t.now);
      StepSim(w, p, since, t);
      assert SingleLimitAt(ops[1..], id, key) by {
        forall i | 0 <= i < |ops[1..]| ensures ops[1..][i] == ops[i + 1] {}
      }
      WindowCounts(p, t, id, key);
      WindowTokens(p, t, id, key);
      KeysAreIndependent(Step(w, t), PStep(p, t), t.now, ops[1..], id, key);
    }
  }

  /** For a limit's whole life: whatever else the callers do, single-limit verdicts at a key of a limit
      are those of one fresh automaton fed that key's requests and releases. */
  lemma KeyVerdictsFromCreation(pre: seq<Timed>, create: Timed, post: seq<Timed>, key: string)
    requires create.op.CreateLimit? && Legal(START, 0, pre + ([create] + post))
    requires SingleLimitAt(post, Run(START, pre).lim.nextId, key)
    ensures var w := Run(START, pre);
      VerdictsAt(Step(w, create), post, w.lim.nextId, key) == Solo(create.op.cfg, FRESH, post, w.lim.nextId, key)
  {
    LegalSplit(START, 0, pre, [create] + post);
    CollectionIsUnobservable(START, BLANK, 0, pre);
    assert ([create] + post)[1..] == post;
    FreshVerdicts(Run(START, pre), PRun(BLANK, pre), EndOf(0, pre), create, post, key);
  }

  lemma FreshVerdicts(w: World, p: Product, since: nat, create: Timed, post: seq<Timed>, key: string)
    requires create.op.CreateLimit? && Sim(w, p, since) && since <= create.now
    requires Legal(Step(w, create), create.now, post) && SingleLimitAt(post, w.lim.nextId, key)
    ensures VerdictsAt(Step(w, create), post, w.lim.nextId, key) == Solo(create.op.cfg, FRESH, post, w.lim.nextId, key)
  {
    FreshWindow(w, p, since, create, key);
    KeysAreIndependent(Step(w, create), PStep(p, create), create.now, post, w.lim.nextId, key);
  }

  lemma WindowTokens(p: Product, t: Timed, id: nat, key: string)
    requires id in p.cfgs && 0 !in p.cfgs && id != p.nextId
    ensures var win, win' := Window(p, id, key), Window(PStep(p, t), id, key);
      match t.op
      case AllowRequest(r, token) => (Names(r, id, key) && PAllowed(p, r, token, t.now)) || win' == win
      case ReleaseRequest(r, token) =>
        win' == if Names(r, id, key) && token != 0 && p.cfgs[id].sequential
                then win.(tokens := win.tokens - {token}) else win
      case _ => win' == win
  {
    if t.op.ReleaseRequest? {
      var win, token := Window(p, id, key), t.op.token;
      assert win.tokens - {token} - {token} == win.tokens - {token};
    }
  }
}
