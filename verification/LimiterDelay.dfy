/** What the delay query promises about admission. */
module LimiterDelay {
  import opened Arithmetic
  import opened RateWindow
  import opened RateLimiter
  import opened LimiterRuns

  /** The limit's period is a whole number of query ticks. */
  predicate Divides(unit: Unit, cfg: Config) {
    PeriodNs(cfg) % unit == 0
  }

  /** A caller's view of one named limit: a live handle, a clock that has not gone back,
      a token that is not in flight, and a query unit that divides the period. */
  predicate Askable(l: Limiter, id: nat, key: string, token: nat, now: nat, unit: Unit) {
    id != 0 ==>
      && id in l.limits && !l.limits[id].removed && Divides(unit, l.limits[id].cfg)
      && (key in l.limits[id].keys ==> token !in l.limits[id].keys[key].tokens && l.limits[id].keys[key].start <= now)
  }

  lemma TicksOf(x: int, k: int, unit: Unit)
    requires x >= 0 && k >= 0
    ensures Cast(x + k * unit, unit) == Cast(x, unit) + k && 0 <= k * unit
  {
    var q, rest := x / unit, x % unit;
    assert x == q * unit + rest;
    assert x + k * unit == (q + k) * unit + rest by { assert (q + k) * unit == q * unit + k * unit; }
    DivMod(q + k, rest, unit);
  }

  /** For a period of whole ticks, elapsed ticks reach the period exactly when elapsed nanoseconds do. */
  lemma TicksDecide(x: int, cfg: Config, unit: Unit)
    requires x >= 0 && Divides(unit, cfg)
    ensures Cast(x, unit) >= Cast(PeriodNs(cfg), unit) <==> x >= PeriodNs(cfg)
  {
    var period := PeriodNs(cfg);
    var q := period / unit;
    assert period == q * unit;
    assert x == (x / unit) * unit + x % unit;
    if x / unit >= q {
      MulLeq(q, x / unit, unit);
    } else {
      MulLeq(x / unit + 1, q, unit);
      assert (x / unit + 1) * unit == (x / unit) * unit + unit;
    }
  }

  /** One key, `k` ticks later: still waiting while `k` is below the delay, passing from the delay on. */
  lemma KeyDelayIsExact(cfg: Config, ks: KeyState, token: nat, now: nat, unit: Unit, k: nat)
    requires Divides(unit, cfg) && token !in ks.tokens && token != 0 && ks.start <= now
    ensures match KeyDelay(cfg, ks, now, unit)
      case Blocked => !Passes(cfg, ks, token, now + k * unit)
      case Wait(d) => Passes(cfg, ks, token, now + k * unit) <==> k >= d
  {
    TicksOf(now - ks.start, k, unit);
    TicksDecide(now - ks.start, cfg, unit);
    TicksDecide(now - ks.start + k * unit, cfg, unit);
    ExpiredIsElapsed(cfg, ks, now + k * unit);
  }

  lemma LimitDelayIsExact(l: Limiter, id: nat, key: string, token: nat, now: nat, unit: Unit, k: nat)
    requires Askable(l, id, key, token, now, unit) && token != 0
    ensures match LimitDelay(l, id, key, now, unit)
      case Blocked => !Admits(l, id, key, token, now + k * unit)
      case Wait(d) => Admits(l, id, key, token, now + k * unit) <==> k >= d
  {
    if id != 0 && key in l.limits[id].keys {
      KeyDelayIsExact(l.limits[id].cfg, l.limits[id].keys[key], token, now, unit, k);
    }
  }

  /** The query is exact: with nothing else happening, a fresh request is admitted `k` ticks from now
      if and only if the answer is a finite delay of at most `k` ticks. In particular delay zero means
      admitted now, a finite delay `d` means denied at every tick before `d` and admitted at `d`, and a
      sequential block means denied for ever. */
  lemma DelayIsExact(l: Limiter, r: Route, token: nat, now: nat, unit: Unit, k: nat)
    requires Askable(l, r.general, r.generalKey, token, now, unit) && token != 0
    requires Askable(l, r.specific, r.specificKey, token, now, unit)
    ensures var delay := TimeUntilAllowed(l, r, now, unit);
      Allowed(l, r, token, now + k * unit) <==> delay.Wait? && delay.ticks <= k
  {
    LimitDelayIsExact(l, r.general, r.generalKey, token, now, unit, k);
    LimitDelayIsExact(l, r.specific, r.specificKey, token, now, unit, k);
  }

  /** A period of whole milliseconds is a whole number of milliseconds or of any finer unit dividing one. */
  lemma MillisecondsDivide(unit: Unit, cfg: Config)
    requires MS % unit == 0
    ensures Divides(unit, cfg)
  {
    var q := MS / unit;
    assert MS == q * unit;
    assert PeriodNs(cfg) == (cfg.periodMs * q) * unit by {
      assert cfg.periodMs * (q * unit) == (cfg.periodMs * q) * unit;
    }
    WholeMultiple(cfg.periodMs * q, unit);
  }

  lemma WholeMultiple(q: nat, unit: Unit)
    ensures (q * unit) % unit == 0
  {
    DivMod(q, 0, unit);
    assert q * unit == ((q * unit) / unit) * unit + (q * unit) % unit;
  }

  /** The query about one key and the admission of a fresh request through it, at the same moment. */
  function Single(id: nat, key: string): Route {
    Route(id, key, 0, "")
  }

  /** After `ops`, a caller holding a limit configured as `cfg` asks about `key` and tries a fresh token. */
  predicate Asks(ops: seq<Timed>, id: nat, key: string, token: nat, now: nat, cfg: Config) {
    && Legal(START, 0, ops) && EndOf(0, ops) <= now && token != 0
    && var w := Run(START, ops);
       Alive(w, id) && id in w.lim.limits && w.lim.limits[id].cfg == cfg && token !in StateOf(w.lim.limits[id], key).tokens
  }

  predicate Agrees(ops: seq<Timed>, id: nat, key: string, token: nat, now: nat, unit: Unit) {
    var l := Run(START, ops).lim;
    TimeUntilAllowed(l, Single(id, key), now, unit) == Wait(0) <==> Allowed(l, Single(id, key), token, now)
  }

  /** In every legal run, zero is the answer exactly when the request is admitted at that moment. */
  ghost predicate ZeroDelayAgrees(cfg: Config, unit: Unit) {
    forall ops, id, key, token, now :: Asks(ops, id, key, token, now, cfg) ==> Agrees(ops, id, key, token, now, unit)
  }

  /** Over all runs, the query agrees with admission if and only if the limit counts nothing or its period
      is a whole number of query ticks; for any other unit some run has it report zero while the request
      is still denied. */
  lemma ExactUnits(cfg: Config, unit: Unit)
    ensures ZeroDelayAgrees(cfg, unit) <==> cfg.perPeriod == 0 || Divides(unit, cfg)
  {
    if cfg.perPeriod == 0 || Divides(unit, cfg) {
      forall ops, id, key, token, now | Asks(ops, id, key, token, now, cfg) ensures Agrees(ops, id, key, token, now, unit) {
        RunsAgree(ops, id, key, token, now, cfg, unit);
      }
    } else {
      ReportsTooEarly(cfg, unit);
    }
  }

  lemma KeyAgrees(cfg: Config, ks: KeyState, token: nat, now: nat, unit: Unit)
    requires (cfg.perPeriod == 0 || Divides(unit, cfg)) && token !in ks.tokens && token != 0 && ks.start <= now
    ensures KeyDelay(cfg, ks, now, unit) == Wait(0) <==> Passes(cfg, ks, token, now)
  {
    if cfg.perPeriod > 0 {
      KeyDelayIsExact(cfg, ks, token, now, unit, 0);
      assert now + 0 * unit == now;
    }
  }

  lemma RunsAgree(ops: seq<Timed>, id: nat, key: string, token: nat, now: nat, cfg: Config, unit: Unit)
    requires Asks(ops, id, key, token, now, cfg) && (cfg.perPeriod == 0 || Divides(unit, cfg))
    ensures Agrees(ops, id, key, token, now, unit)
  {
    var w, p := Run(START, ops), PRun(BLANK, ops);
    CollectionIsUnobservable(START, BLANK, 0, ops);
    SimAges(w, p, EndOf(0, ops), now);
    AliveSim(w, p, id, now);
    var ld := w.lim.limits[id];
    assert KeySim(ld, key, Window(p, id, key), now);
    if key in ld.keys { KeyAgrees(cfg, ld.keys[key], token, now, unit); }
  }

  // ----- Where the query reports too early

  function Fill(t: nat, n: nat): seq<Timed> {
    if n == 0 then [] else Fill(t, n - 1) + [Timed(t, AllowRequest(Single(1, ""), 0))]
  }

  /** A limit created at `t` and used up at once. */
  function UseUp(cfg: Config, t: nat, n: nat): seq<Timed> {
    [Timed(t, CreateLimit(cfg))] + Fill(t, n)
  }

  lemma {:induction false} PRunAppend(p: Product, ops: seq<Timed>, t: Timed)
    ensures PRun(p, ops + [t]) == PStep(PRun(p, ops), t)
    decreases |ops|
  {
    if ops == [] {
      assert ops + [t] == [t] && [t][1..] == [];
    } else {
      assert (ops + [t])[1..] == ops[1..] + [t] && (ops + [t])[0] == ops[0];
      PRunAppend(PStep(p, ops[0]), ops[1..], t);
    }
  }

  /** The run is legal, keeps its handle, and leaves a window of `n` uses. */
  lemma {:induction false} UseUpFills(cfg: Config, t: nat, n: nat)
    requires n <= cfg.perPeriod && cfg.periodMs > 0 && t >= PeriodNs(cfg)
    ensures Legal(START, 0, UseUp(cfg, t, n)) && EndOf(0, UseUp(cfg, t, n)) == t
    ensures Alive(Run(START, UseUp(cfg, t, n)), 1)
    ensures var p := PRun(BLANK, UseUp(cfg, t, n));
      1 in p.cfgs && p.cfgs[1] == cfg && p.nextId == 2 && 0 !in p.cfgs && Window(p, 1, "") == if n == 0 then FRESH else KeyState(n, t, {})
    decreases n
  {
    if n == 0 {
      CreateOnly(cfg, t);
    } else {
      var ops, use := UseUp(cfg, t, n - 1), Timed(t, AllowRequest(Single(1, ""), 0));
      UseUpFills(cfg, t, n - 1);
      assert UseUp(cfg, t, n) == ops + [use];
      var w := Run(START, ops);
      assert [use][1..] == [] && Legal(Step(w, use), t, []) && Run(Step(w, use), []) == Step(w, use);
      RunsJoin(START, 0, t, ops, [use]);
      PRunAppend(BLANK, ops, use);
      UseCounts(PRun(BLANK, ops), cfg, t, n - 1);
    }
  }

  lemma CreateOnly(cfg: Config, t: nat)
    ensures Legal(START, 0, UseUp(cfg, t, 0)) && EndOf(0, UseUp(cfg, t, 0)) == t && Alive(Run(START, UseUp(cfg, t, 0)), 1)
    ensures var p := PRun(BLANK, UseUp(cfg, t, 0));
      1 in p.cfgs && p.cfgs[1] == cfg && p.nextId == 2 && 0 !in p.cfgs && Window(p, 1, "") == FRESH
  {
    var op := Timed(t, CreateLimit(cfg));
    assert UseUp(cfg, t, 0) == [op] && [op][1..] == [];
    assert Legal(Step(START, op), t, []) && Run(Step(START, op), []) == Step(START, op);
    assert PRun(PStep(BLANK, op), []) == PStep(BLANK, op);
  }

  lemma UseCounts(p: Product, cfg: Config, t: nat, n: nat)
    requires n < cfg.perPeriod && cfg.periodMs > 0 && t >= PeriodNs(cfg)
    requires 1 in p.cfgs && p.cfgs[1] == cfg && p.nextId == 2 && 0 !in p.cfgs
    requires Window(p, 1, "") == if n == 0 then FRESH else KeyState(n, t, {})
    ensures var p' := PStep(p, Timed(t, AllowRequest(Single(1, ""), 0)));
      1 in p'.cfgs && p'.cfgs[1] == cfg && p'.nextId == 2 && 0 !in p'.cfgs && Window(p', 1, "") == KeyState(n + 1, t, {})
  {
    ExpiredIsElapsed(cfg, Window(p, 1, ""), t);
    assert PAllowed(p, Single(1, ""), 0, t);
    AdmissionStepsNamedWindows(p, t, Single(1, ""), 0, 1, "");
  }

  /** The last whole tick within the period, earlier than its end unless the unit divides it. */
  lemma EarlyTick(cfg: Config, unit: Unit) returns (early: nat)
    ensures early <= PeriodNs(cfg) && Cast(early, unit) == Cast(PeriodNs(cfg), unit)
    ensures early == PeriodNs(cfg) <==> Divides(unit, cfg)
  {
    var q := PeriodNs(cfg) / unit;
    assert PeriodNs(cfg) == q * unit + PeriodNs(cfg) % unit;
    MulLeq(0, q, unit);
    early := q * unit;
    DivMod(q, 0, unit);
  }

  lemma FullWindow(cfg: Config, unit: Unit, t: nat, early: nat)
    requires cfg.perPeriod > 0 && early < PeriodNs(cfg) && Cast(early, unit) == Cast(PeriodNs(cfg), unit)
    ensures var ks := KeyState(cfg.perPeriod, t, {});
      KeyDelay(cfg, ks, t + early, unit) == Wait(0) && !Passes(cfg, ks, 1, t + early)
  {
    ExpiredIsElapsed(cfg, KeyState(cfg.perPeriod, t, {}), t + early);
  }

  lemma ReportsTooEarly(cfg: Config, unit: Unit)
    requires cfg.perPeriod > 0 && !Divides(unit, cfg)
    ensures !ZeroDelayAgrees(cfg, unit)
  {
    var t := PeriodNs(cfg);
    var early := EarlyTick(cfg, unit);
    assert cfg.periodMs > 0;
    FullWindow(cfg, unit, t, early);
    UseUpFills(cfg, t, cfg.perPeriod);
    WindowAnswers(UseUp(cfg, t, cfg.perPeriod), cfg, KeyState(cfg.perPeriod, t, {}), t + early, unit);
  }

  /** A window that reports zero and does not pass is a run on which query and admission disagree. */
  lemma WindowAnswers(ops: seq<Timed>, cfg: Config, ks: KeyState, now: nat, unit: Unit)
    requires Legal(START, 0, ops) && EndOf(0, ops) <= now && Alive(Run(START, ops), 1)
    requires var p := PRun(BLANK, ops); 1 in p.cfgs && p.cfgs[1] == cfg && Window(p, 1, "") == ks
    requires ks.tokens == {} && KeyDelay(cfg, ks, now, unit) == Wait(0) && !Passes(cfg, ks, 1, now)
    ensures !ZeroDelayAgrees(cfg, unit)
  {
    var w, p := Run(START, ops), PRun(BLANK, ops);
    CollectionIsUnobservable(START, BLANK, 0, ops);
    SimAges(w, p, EndOf(0, ops), now);
    AliveSim(w, p, 1, now);
    assert KeySim(w.lim.limits[1], "", ks, now);
    KeyDecides(w.lim.limits[1], "", ks, 1, now);
    KeyDelays(w.lim.limits[1], "", ks, now, unit);
    assert Asks(ops, 1, "", 1, now, cfg) && !Agrees(ops, 1, "", 1, now, unit);
  }

  const SECOND: Unit := 1_000_000_000

  /** One request per 1500 ms: created and used at `t`, then asked in seconds and tried a second later. */
  function TooEarly(t: nat): seq<Timed> {
    var route := Route(1, "", 0, "");
    [Timed(t, CreateLimit(Config(1, 1500, false))), Timed(t, AllowRequest(route, 1)),
     Timed(t + SECOND, QueryDelay(route, SECOND)), Timed(t + SECOND, AllowRequest(route, 2))]
  }

  /** The limiter after creation, and after the first request. */
  function AfterUse(t: nat): World {
    World(Limiter(map[1 := LimitData(Config(1, 1500, false), false, map["" := KeyState(1, t, {})])], 2, 1), {1}, multiset{1})
  }

  lemma UseFills(t: nat)
    requires t >= 1500 * MS
    ensures Legal(START, 0, TooEarly(t)[..2]) && Run(START, TooEarly(t)[..2]) == AfterUse(t)
    ensures Replies(START, TooEarly(t)[..2]) == [NewId(1), Verdict(true)]
  {
    var ops := TooEarly(t)[..2];
    var w1 := Step(START, ops[0]);
    assert w1 == World(Limiter(map[1 := LimitData(Config(1, 1500, false), false, map[])], 2, 0), {1}, multiset{1});
    assert ops[1..] == [ops[1]] && ops[1..][1..] == [];
    ExpiredIsElapsed(Config(1, 1500, false), FRESH, t);
    assert Step(w1, ops[1]) == AfterUse(t);
    assert Replies(AfterUse(t), []) == [] && Run(AfterUse(t), []) == AfterUse(t);
    assert Run(w1, ops[1..]) == AfterUse(t);
  }

  lemma {:induction false} RepliesJoin(w: World, a: seq<Timed>, b: seq<Timed>)
    ensures Replies(w, a + b) == Replies(w, a) + Replies(Run(w, a), b)
    decreases |a|
  {
    if a == [] {
      assert a + b == b;
    } else {
      assert (a + b)[1..] == a[1..] + b && (a + b)[0] == a[0];
      RepliesJoin(Step(w, a[0]), a[1..], b);
    }
  }

  /** Concretely, for a caller: the delay asked in seconds is zero, and the request made at that very
      moment is denied. */
  lemma SecondsReportTooEarly(t: nat)
    requires t >= 1500 * MS
    ensures Legal(START, 0, TooEarly(t))
    ensures Replies(START, TooEarly(t)) == [NewId(1), Verdict(true), DelayIs(Wait(0)), Verdict(false)]
  {
    var ops, w := TooEarly(t), AfterUse(t);
    UseFills(t);
    assert Legal(w, t, ops[2..]);
    RunsJoin(START, 0, t, ops[..2], ops[2..]);
    RepliesJoin(START, ops[..2], ops[2..]);
    assert ops == ops[..2] + ops[2..];
    assert ops[2..][1..] == [ops[3]] && [ops[3]][1..] == [];
    assert Step(w, ops[2]) == w && Reply(w, ops[2]) == DelayIs(Wait(0));
    ExpiredIsElapsed(Config(1, 1500, false), KeyState(1, t, {}), t + SECOND);
    assert Reply(w, ops[3]) == Verdict(false);
    assert Replies(Step(w, ops[3]), []) == [];
  }
}
