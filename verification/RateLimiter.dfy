/** Value-level semantics of the HTTP rate limiter: the limit table, atomic two-limit
    admission, token release, garbage collection and the delay query. */
module RateLimiter {
  import opened RateWindow

  datatype LimitData = LimitData(cfg: Config, removed: bool, keys: map<string, KeyState>)

  datatype Limiter = Limiter(limits: map<nat, LimitData>, nextId: nat, gcCounter: nat)

  /** A request's two optional rate limits; limit id 0 stands for an empty handle. */
  datatype Route = Route(general: nat, generalKey: string, specific: nat, specificKey: string)

  predicate Names(r: Route, id: nat, key: string) {
    id != 0 && ((r.general == id && r.generalKey == key) || (r.specific == id && r.specificKey == key))
  }

  const EMPTY := Limiter(map[], 1, 0)

  // ----- One limit

  function StateOf(ld: LimitData, key: string): KeyState {
    if key in ld.keys then ld.keys[key] else FRESH
  }

  predicate CanPass(ld: LimitData, key: string, token: nat, now: nat) {
    key !in ld.keys || Passes(ld.cfg, ld.keys[key], token, now)
  }

  function CommitLimit(ld: LimitData, key: string, token: nat, now: nat): LimitData {
    ld.(keys := ld.keys[key := Commit(ld.cfg, StateOf(ld, key), token, now)])
  }

  function ReleaseKey(ld: LimitData, key: string, token: nat): LimitData {
    if key !in ld.keys then ld
    else
      var ks := ld.keys[key].(tokens := ld.keys[key].tokens - {token});
      if ks.tokens == {} && ks.count == 0 then ld.(keys := ld.keys - {key})
      else ld.(keys := ld.keys[key := ks])
  }

  /** Keys the collector erases: no token, and either never counted or expired. */
  predicate Stale(cfg: Config, ks: KeyState, now: nat) {
    ks.tokens == {} && (ks.count == 0 || Expired(cfg, ks, now))
  }

  function GcLimit(ld: LimitData, now: nat): LimitData {
    ld.(keys := map k | k in ld.keys && !Stale(ld.cfg, ld.keys[k], now) :: ld.keys[k])
  }

  predicate Dead(ld: LimitData) {
    ld.removed && ld.keys == map[]
  }

  // ----- The limit table

  predicate Present(l: Limiter, id: nat) {
    id != 0 && id in l.limits
  }

  /** The admission branch of one named limit: absent and removed limits always pass. */
  predicate Admits(l: Limiter, id: nat, key: string, token: nat, now: nat) {
    !Present(l, id) || l.limits[id].removed || CanPass(l.limits[id], key, token, now)
  }

  function CommitId(l: Limiter, id: nat, key: string, token: nat, now: nat): Limiter {
    if Present(l, id) && !l.limits[id].removed
    then l.(limits := l.limits[id := CommitLimit(l.limits[id], key, token, now)])
    else l
  }

  function ReleaseId(l: Limiter, id: nat, key: string, token: nat): Limiter {
    if Present(l, id) && l.limits[id].cfg.sequential
    then l.(limits := l.limits[id := ReleaseKey(l.limits[id], key, token)])
    else l
  }

  predicate SameLimit(r: Route) {
    r.general != 0 && r.general == r.specific && r.generalKey == r.specificKey
  }

  function CommitRoute(l: Limiter, r: Route, token: nat, now: nat): Limiter {
    var l1 := CommitId(l, r.general, r.generalKey, token, now);
    if SameLimit(r) then l1 else CommitId(l1, r.specific, r.specificKey, token, now)
  }

  function Gc(l: Limiter, now: nat): Limiter {
    l.(limits := map id | id in l.limits && !Dead(GcLimit(l.limits[id], now)) :: GcLimit(l.limits[id], now))
  }

  predicate Allowed(l: Limiter, r: Route, token: nat, now: nat) {
    && Admits(l, r.general, r.generalKey, token, now)
    && Admits(l, r.specific, r.specificKey, token, now)
  }

  /** The collector runs on every 64th admission that met a present limit. */
  function Tally(l: Limiter, now: nat): Limiter {
    var l1 := l.(gcCounter := l.gcCounter + 1);
    if l1.gcCounter % 64 == 0 then Gc(l1, now) else l1
  }

  function Allow(l: Limiter, r: Route, token: nat, now: nat): Limiter {
    if !Present(l, r.general) && !Present(l, r.specific) then l
    else if !Allowed(l, r, token, now) then l
    else Tally(CommitRoute(l, r, token, now), now)
  }

  function Release(l: Limiter, r: Route, token: nat): Limiter {
    if token == 0 then l
    else
      var l1 := ReleaseId(l, r.general, r.generalKey, token);
      if SameLimit(r) then l1 else ReleaseId(l1, r.specific, r.specificKey, token)
  }

  function Create(l: Limiter, cfg: Config): Limiter {
    l.(limits := l.limits[l.nextId := LimitData(cfg, false, map[])], nextId := l.nextId + 1)
  }

  /** `remove_limit_internal`, run when the last handle copy dies. */
  function RemoveInternal(l: Limiter, id: nat): Limiter {
    if id !in l.limits then l
    else
      var ld := l.limits[id].(removed := true);
      if ld.keys != map[] then l.(limits := l.limits[id := ld]) else l.(limits := l.limits - {id})
  }

  // ----- The delay query

  /** `Duration::max()` is `Blocked`; `Wait(d)` counts ticks of the requested unit. */
  datatype Delay = Blocked | Wait(ticks: nat)

  function MaxDelay(a: Delay, b: Delay): Delay {
    if a.Blocked? || b.Blocked? then Blocked
    else if a.ticks >= b.ticks then a else b
  }

  function Cast(ns: int, unit: nat): int
    requires unit > 0
  {
    if ns >= 0 then ns / unit else -((-ns) / unit)
  }

  function KeyDelay(cfg: Config, ks: KeyState, now: nat, unit: nat): Delay
    requires unit > 0
  {
    if cfg.sequential && ks.tokens != {} then Blocked
    else if cfg.perPeriod == 0 then Wait(0)
    else
      var elapsed, period := Cast(now - ks.start, unit), Cast(PeriodNs(cfg), unit);
      if elapsed >= period || ks.count < cfg.perPeriod then Wait(0) else Wait(period - elapsed)
  }

  function LimitDelay(l: Limiter, id: nat, key: string, now: nat, unit: nat): Delay
    requires unit > 0
  {
    if Present(l, id) && key in l.limits[id].keys
    then KeyDelay(l.limits[id].cfg, l.limits[id].keys[key], now, unit)
    else Wait(0)
  }

  function TimeUntilAllowed(l: Limiter, r: Route, now: nat, unit: nat): Delay
    requires unit > 0
  {
    MaxDelay(LimitDelay(l, r.general, r.generalKey, now, unit), LimitDelay(l, r.specific, r.specificKey, now, unit))
  }

  /** The delays of all keys of all limits, removed ones included. */
  function Delays(l: Limiter, now: nat, unit: nat): set<Delay>
    requires unit > 0
  {
    set id, k | id in l.limits && k in l.limits[id].keys :: KeyDelay(l.limits[id].cfg, l.limits[id].keys[k], now, unit)
  }

  function Finite(ds: set<Delay>): set<nat> {
    set d | d in ds && d.Wait? && d.ticks > 0 :: d.ticks
  }

  lemma {:induction false} LeastExists(s: set<nat>)
    requires s != {}
    ensures exists m :: m in s && forall k :: k in s ==> m <= k
  {
    var least := LeastOf(s);
  }

  function Least(s: set<nat>): (m: nat)
    requires s != {}
    ensures m in s && forall k :: k in s ==> m <= k
  {
    LeastExists(s);
    var m :| m in s && forall k :: k in s ==> m <= k;
    m
  }

  /** The least positive delay: a finite one if there is any, a sequential block if that is all there is,
      and zero when nothing waits. */
  function Shortest(ds: set<Delay>): Delay {
    if Finite(ds) != {} then Wait(Least(Finite(ds))) else if Blocked in ds then Blocked else Wait(0)
  }

  /** Shortest is what its name says: zero when nothing waits, else the least finite wait there is, and a
      sequential block only when nothing finite waits. */
  lemma ShortestIs(ds: set<Delay>)
    ensures var d := Shortest(ds);
      && (d != Wait(0) ==> d in ds)
      && (forall x :: x in ds && x != Wait(0) ==> d != Wait(0) && (x.Wait? ==> d.Wait? && d.ticks <= x.ticks))
  {
    forall x | x in ds && x != Wait(0) && x.Wait?
      ensures Finite(ds) != {} && Least(Finite(ds)) <= x.ticks
    {
      assert x.ticks in Finite(ds);
    }
    if Finite(ds) != {} {
      var m := Least(Finite(ds));
      assert m in Finite(ds);
      assert Wait(m) in ds;
    }
  }

  /** Every 64th admission that meets a limit collects: it leaves no stale key and no dead limit behind. */
  lemma SixtyFourthCollects(l: Limiter, r: Route, token: nat, now: nat, id: nat, key: string)
    requires Present(l, r.general) || Present(l, r.specific)
    ensures Allow(l, r, token, now).gcCounter == l.gcCounter + if Allowed(l, r, token, now) then 1 else 0
    ensures var l' := Allow(l, r, token, now);
      Allowed(l, r, token, now) && l'.gcCounter % 64 == 0 && id in l'.limits ==>
        && !(l'.limits[id].removed && l'.limits[id].keys == map[])
        && (key in l'.limits[id].keys ==>
              var ks := l'.limits[id].keys[key];
              ks.tokens != {} || (ks.count > 0 && ToMs(now - ks.start) < l'.limits[id].cfg.periodMs))
  {
  }

  /** Token zero takes no part in sequential limits: it is never blocked by one and leaves no token. */
  lemma TokenZeroIsFree(cfg: Config, ks: KeyState, now: nat)
    ensures Passes(cfg, ks, 0, now) <==> CheckKey(cfg, ks, now)
    ensures Commit(cfg, ks, 0, now).tokens == ks.tokens
  {
  }
}
