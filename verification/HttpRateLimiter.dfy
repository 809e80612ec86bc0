/** The rate limiter as the object it is: methods that update the limit table in place,
    each proved against the value-level semantics. */
module HttpRateLimiterObject {
  import opened RateWindow
  import opened RateLimiter

  class HttpRateLimiter {
    var limits: map<nat, LimitData>
    var nextId: nat
    var gcCounter: nat

    ghost function View(): Limiter
      reads this
    {
      Limiter(limits, nextId, gcCounter)
    }

    constructor ()
      ensures View() == EMPTY
    {
      limits, nextId, gcCounter := map[], 1, 0;
    }

    method CreateLimit(perPeriod: nat, periodMs: nat, sequential: bool) returns (id: nat)
      modifies this
      ensures id == old(nextId) && View() == Create(old(View()), Config(perPeriod, periodMs, sequential))
    {
      id := nextId;
      nextId := nextId + 1;
      limits := limits[id := LimitData(Config(perPeriod, periodMs, sequential), false, map[])];
    }

    method RemoveLimitInternal(id: nat) returns (erased: bool)
      modifies this
      ensures View() == RemoveInternal(old(View()), id)
      ensures erased <==> id in old(limits) && id !in limits
    {
      if id !in limits { return false; }
      limits := limits[id := limits[id].(removed := true)];
      if limits[id].keys != map[] { return false; }
      limits := limits - {id};
      assert limits == old(limits) - {id};
      return true;
    }

    method CommitLimitAt(id: nat, key: string, token: nat, now: nat)
      requires id in limits
      modifies this`limits
      ensures limits == old(limits)[id := CommitLimit(old(limits[id]), key, token, now)]
    {
      var ld := limits[id];
      var state := if key in ld.keys then ld.keys[key] else FRESH;
      if ld.cfg.sequential && token != 0 {
        state := state.(tokens := state.tokens + {token});
      }
      if ld.cfg.perPeriod != 0 {
        if ToMs(now - state.start) >= ld.cfg.periodMs {
          state := state.(start := now, count := 0);
        }
        state := state.(count := state.count + 1);
      }
      limits := limits[id := ld.(keys := ld.keys[key := state])];
    }

    method AllowRequest(r: Route, token: nat, now: nat) returns (ok: bool)
      modifies this
      ensures ok <==> Allowed(old(View()), r, token, now)
      ensures View() == Allow(old(View()), r, token, now)
    {
      var hasGeneral := r.general != 0 && r.general in limits;
      var hasSpecific := r.specific != 0 && r.specific in limits;
      if !hasGeneral && !hasSpecific { return true; }

      var generalAllowed, specificAllowed := true, true;
      if hasGeneral && !limits[r.general].removed {
        generalAllowed := CanPass(limits[r.general], r.generalKey, token, now);
      }
      if hasSpecific && !limits[r.specific].removed {
        specificAllowed := CanPass(limits[r.specific], r.specificKey, token, now);
      }
      if !generalAllowed || !specificAllowed { return false; }

      var sameLimit := r.general != 0 && r.general == r.specific && r.generalKey == r.specificKey;
      if hasGeneral && !limits[r.general].removed {
        CommitLimitAt(r.general, r.generalKey, token, now);
      }
      if !sameLimit && hasSpecific && !limits[r.specific].removed {
        CommitLimitAt(r.specific, r.specificKey, token, now);
      }
      assert View() == CommitRoute(old(View()), r, token, now);
      gcCounter := gcCounter + 1;
      if gcCounter % 64 == 0 {
        GcStaleKeys(now);
      }
      return true;
    }

    method ReleaseKeyAt(id: nat, key: string, token: nat)
      requires id in limits
      modifies this`limits
      ensures limits == old(limits)[id := ReleaseKey(old(limits[id]), key, token)]
    {
      var ld := limits[id];
      if key !in ld.keys {
        assert limits == limits[id := ld];
        return;
      }
      var state := ld.keys[key];
      state := state.(tokens := state.tokens - {token});
      if state.tokens == {} && state.count == 0 {
        limits := limits[id := ld.(keys := ld.keys - {key})];
      } else {
        limits := limits[id := ld.(keys := ld.keys[key := state])];
      }
    }

    method ReleaseRequest(r: Route, token: nat)
      modifies this
      ensures View() == Release(old(View()), r, token)
    {
      if token == 0 { return; }
      var sameLimit := r.general != 0 && r.general == r.specific && r.generalKey == r.specificKey;
      if r.general != 0 && r.general in limits && limits[r.general].cfg.sequential {
        ReleaseKeyAt(r.general, r.generalKey, token);
      }
      if !sameLimit && r.specific != 0 && r.specific in limits && limits[r.specific].cfg.sequential {
        ReleaseKeyAt(r.specific, r.specificKey, token);
      }
    }

    /** The inner loop of the collector: one limit's keys in any order. */
    method SweepKeys(ld: LimitData, now: nat) returns (swept: LimitData)
      ensures swept == GcLimit(ld, now)
    {
      var keys, todo := ld.keys, ld.keys.Keys;
      while todo != {}
        invariant todo <= ld.keys.Keys
        invariant keys == map k | k in ld.keys && (k in todo || !Stale(ld.cfg, ld.keys[k], now)) :: ld.keys[k]
        decreases |todo|
      {
        var k :| k in todo;
        var state := ld.keys[k];
        if state.tokens == {} && state.count == 0 {
          keys := keys - {k};
        } else if state.tokens == {} && ToMs(now - state.start) >= ld.cfg.periodMs {
          keys := keys - {k};
        }
        todo := todo - {k};
      }
      swept := ld.(keys := keys);
    }

    method GcStaleKeys(now: nat)
      modifies this`limits
      ensures View() == Gc(old(View()), now)
    {
      var todo := limits.Keys;
      while todo != {}
        invariant todo <= old(limits).Keys
        invariant limits == map id | id in old(limits) && (id in todo || !Dead(GcLimit(old(limits)[id], now))) ::
          if id in todo then old(limits)[id] else GcLimit(old(limits)[id], now)
        decreases |todo|
      {
        var id :| id in todo;
        var swept := SweepKeys(limits[id], now);
        if swept.removed && swept.keys == map[] {
          limits := limits - {id};
        } else {
          limits := limits[id := swept];
        }
        todo := todo - {id};
      }
    }

    /** The shortest positive delay over every key of every limit, removed ones included. */
    method TimeUntilAnyLimitAllows(now: nat, unit: nat) returns (shortest: Delay)
      requires unit > 0
      ensures shortest == Shortest(Delays(View(), now, unit))
    {
      shortest := Wait(0);
      var todo := Pairs(limits);
      while todo != {}
        invariant todo <= Pairs(limits) && shortest == Shortest(DelaysAt(limits, Pairs(limits) - todo, now, unit))
        decreases |todo|
      {
        var p :| p in todo;
        var delay := KeyDelay(limits[p.0].cfg, limits[p.0].keys[p.1], now, unit);
        OneMore(limits, Pairs(limits) - todo, p, now, unit);
        ShortestOn(DelaysAt(limits, Pairs(limits) - todo, now, unit), delay);
        if delay != Wait(0) && (shortest == Wait(0) || shortest.Blocked? || (delay.Wait? && delay.ticks < shortest.ticks)) {
          shortest := delay;
        }
        assert Pairs(limits) - (todo - {p}) == (Pairs(limits) - todo) + {p};
        todo := todo - {p};
      }
      AllDelays(View(), now, unit);
      assert Pairs(limits) - {} == Pairs(limits);
    }
  }

  /** The keys of all limits. */
  function Pairs(limits: map<nat, LimitData>): (ps: set<(nat, string)>)
    ensures forall p :: p in ps <==> p.0 in limits && p.1 in limits[p.0].keys
  {
    set id, k | id in limits && k in limits[id].keys :: (id, k)
  }

  ghost function DelaysAt(limits: map<nat, LimitData>, ps: set<(nat, string)>, now: nat, unit: nat): set<Delay>
    requires unit > 0 && ps <= Pairs(limits)
  {
    set p | p in ps :: KeyDelay(limits[p.0].cfg, limits[p.0].keys[p.1], now, unit)
  }

  lemma OneMore(limits: map<nat, LimitData>, ps: set<(nat, string)>, p: (nat, string), now: nat, unit: nat)
    requires unit > 0 && ps <= Pairs(limits) && p in Pairs(limits)
    ensures DelaysAt(limits, ps + {p}, now, unit)
         == DelaysAt(limits, ps, now, unit) + {KeyDelay(limits[p.0].cfg, limits[p.0].keys[p.1], now, unit)}
  {
  }

  lemma AllDelays(l: Limiter, now: nat, unit: nat)
    requires unit > 0
    ensures DelaysAt(l.limits, Pairs(l.limits), now, unit) == Delays(l, now, unit)
  {
    forall d | d in Delays(l, now, unit) ensures d in DelaysAt(l.limits, Pairs(l.limits), now, unit) {
      var id, k :| id in l.limits && k in l.limits[id].keys && d == KeyDelay(l.limits[id].cfg, l.limits[id].keys[k], now, unit);
      assert (id, k) in Pairs(l.limits);
    }
  }

  /** One more delay becomes the shortest exactly under the loop's test. */
  lemma ShortestOn(ds: set<Delay>, d: Delay)
    ensures var s := Shortest(ds);
      Shortest(ds + {d}) ==
      if d != Wait(0) && (s == Wait(0) || s.Blocked? || (d.Wait? && d.ticks < s.ticks)) then d else s
  {
    var ds' := ds + {d};
    if d.Wait? && d.ticks > 0 {
      assert Finite(ds') == Finite(ds) + {d.ticks};
      if Finite(ds) != {} {
        var m := if d.ticks < Least(Finite(ds)) then d.ticks else Least(Finite(ds));
        assert m in Finite(ds') && Least(Finite(ds')) == m;
      }
    } else {
      assert Finite(ds') == Finite(ds);
    }
  }
}
