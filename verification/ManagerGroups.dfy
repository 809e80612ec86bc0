/** Group counts are exact, and every waiter is fired or withdrawn exactly once. */
module ManagerGroups {
  import opened Requests
  import opened ManagerSteps
  import opened ManagerEffects
  import opened ManagerTraces

  // ----- Counts

  function Members(live: map<nat, Context>, g: nat): set<nat> {
    set t | t in live && GroupOf(live[t].req) == g
  }

  /** The stored count of each non-zero group is the number of its live requests; no zero is stored. */
  ghost predicate Counted(live: map<nat, Context>, counts: map<nat, nat>) {
    forall g :: CountOk(live, counts, g)
  }

  ghost predicate CountOk(live: map<nat, Context>, counts: map<nat, nat>, g: nat) {
    && (g in counts <==> g != 0 && Members(live, g) != {})
    && (g in counts ==> counts[g] == |Members(live, g)|)
  }

  lemma SameGroups(live: map<nat, Context>, counts: map<nat, nat>, c: Context)
    requires Counted(live, counts) && c.token in live && live[c.token].req == c.req
    ensures Counted(live[c.token := c], counts)
  {
    var live' := live[c.token := c];
    forall g ensures CountOk(live', counts, g) {
      assert CountOk(live, counts, g);
      assert Members(live', g) == Members(live, g);
    }
  }

  lemma CountsUp(live: map<nat, Context>, counts: map<nat, nat>, c: Context)
    requires Counted(live, counts) && c.token !in live
    ensures Counted(live[c.token := c], CountUp(counts, GroupOf(c.req)))
  {
    var live', counts' := live[c.token := c], CountUp(counts, GroupOf(c.req));
    forall g ensures CountOk(live', counts', g) {
      assert CountOk(live, counts, g);
      MembersUp(live, c, g);
    }
  }

  lemma MembersUp(live: map<nat, Context>, c: Context, g: nat)
    requires c.token !in live
    ensures Members(live[c.token := c], g) == Members(live, g) + (if g == GroupOf(c.req) then {c.token} else {})
    ensures |Members(live[c.token := c], g)| == |Members(live, g)| + (if g == GroupOf(c.req) then 1 else 0)
  {
    assert Members(live[c.token := c], g) == Members(live, g) + (if g == GroupOf(c.req) then {c.token} else {});
  }

  lemma CountsDown(live: map<nat, Context>, counts: map<nat, nat>, c: Context)
    requires Counted(live, counts) && c.token in live && live[c.token] == c
    ensures Counted(live - {c.token}, CountDown(counts, GroupOf(c.req)))
  {
    var live', counts' := live - {c.token}, CountDown(counts, GroupOf(c.req));
    forall g ensures CountOk(live', counts', g) {
      assert CountOk(live, counts, g);
      if g == GroupOf(c.req) {
        assert Members(live, g) == Members(live', g) + {c.token};
        assert c.token in Members(live, g);
      } else {
        assert Members(live', g) == Members(live, g);
      }
    }
  }

  function CountsAfter(counts: map<nat, nat>, e: Effect): map<nat, nat> {
    match e
    case Adds(c) => CountUp(counts, GroupOf(c.req))
    case Drops(c) => CountDown(counts, GroupOf(c.req))
    case _ => counts
  }

  lemma CountsHappen(s: State, a: Action)
    requires Enabled(s, a)
    ensures Apply(s, a).groups.counts == CountsAfter(s.groups.counts, EffectOf(s, a))
  {
    match a
    case Client(c) =>
    case Worker(w) => CountsWorker(s, w);
    case End(e) =>
  }

  lemma CountsWorker(s: State, a: WorkerAction)
    requires WorkerEnabled(s, a)
    ensures ApplyWorker(s, a).groups.counts == CountsAfter(s.groups.counts, EffectOf(s, Worker(a)))
  {
  }

  lemma CountedAfter(s: State, e: Effect)
    requires Tokens(s.ledger) && Counted(s.ledger.live, s.groups.counts) && Sound(s, e)
    ensures Counted(LedgerAfter(s.ledger, e).live, CountsAfter(s.groups.counts, e))
  {
    var live, counts := s.ledger.live, s.groups.counts;
    match e
    case Still =>
    case Adds(c) =>
      assert c.token !in s.ledger.records;
      CountsUp(live, counts, c);
    case Arms(c) => SameGroups(live, counts, c.(armed := true));
    case Streams(c) => SameGroups(live, counts, c.(chunks := c.chunks + 1));
    case Retries(_, next) => SameGroups(live, counts, next);
    case Finals(_, next, _) => SameGroups(live, counts, next);
    case Disarms(c) => SameGroups(live, counts, c.(armed := false));
    case Drops(c) => CountsDown(live, counts, c);
  }

  // ----- Waiters

  function Stored(waiters: map<nat, seq<nat>>, g: nat, w: nat): nat {
    if g in waiters then multiset(waiters[g])[w] else 0
  }

  /** A registered waiter is stored once, fired once or withdrawn once. */
  predicate WaiterOk(g: Groups, w: nat)
    requires w in g.homes
  {
    Stored(g.waiters, g.homes[w], w) + g.fired[w] + g.withdrawn[w] == 1
  }

  /** Stored waiters belong to a group with outstanding requests, and are filed under their own group. */
  ghost predicate Filed(g: Groups) {
    && (forall h :: h in g.counts ==> h != 0 && g.counts[h] > 0)
    && (forall h :: h in g.waiters ==> h in g.counts)
    && (forall h, w :: Stored(g.waiters, h, w) > 0 ==> w in g.homes && g.homes[w] == h)
  }

  ghost predicate Waited(g: Groups) {
    && Filed(g)
    && g.nextWaiter >= 1 && (forall w :: w in g.homes <==> 1 <= w < g.nextWaiter)
    && (forall w :: w in g.homes ==> WaiterOk(g, w))
    && (forall w :: w !in g.homes ==> g.fired[w] == 0 && g.withdrawn[w] == 0)
  }

  lemma WaitedUp(g: Groups, group: nat)
    requires Waited(g)
    ensures Waited(g.(counts := CountUp(g.counts, group)))
  {
    var g' := g.(counts := CountUp(g.counts, group));
    forall w | w in g'.homes ensures WaiterOk(g', w) {
      assert WaiterOk(g, w);
    }
  }

  lemma StoredAdd(waiters: map<nat, seq<nat>>, group: nat, w0: nat, h: nat, w: nat)
    ensures Stored(AddWaiter(waiters, group, w0), h, w) == Stored(waiters, h, w) + if h == group && w == w0 then 1 else 0
  {
  }

  /** One more waiter, stored once under its group. */
  lemma RegisterKeeps(g: Groups, g': Groups, group: nat)
    requires Waited(g) && group in g.counts
    requires g' == g.(waiters := g'.waiters, homes := g.homes[g.nextWaiter := group], nextWaiter := g.nextWaiter + 1)
    requires forall h :: h in g'.waiters ==> h in g.waiters || h == group
    requires forall h, w :: Stored(g'.waiters, h, w)
                         == Stored(g.waiters, h, w) + if h == group && w == g.nextWaiter then 1 else 0
    ensures Waited(g')
  {
    assert Stored(g.waiters, group, g.nextWaiter) == 0;
    forall w | w in g'.homes ensures WaiterOk(g', w) {
      assert w != g.nextWaiter ==> WaiterOk(g, w);
    }
  }

  lemma WaitedRegister(g: Groups, group: nat)
    requires Waited(g)
    ensures Waited(Register(g, group))
  {
    if CountOf(g.counts, group) != 0 {
      forall h, w ensures Stored(Register(g, group).waiters, h, w)
                       == Stored(g.waiters, h, w) + if h == group && w == g.nextWaiter then 1 else 0 {
        StoredAdd(g.waiters, group, g.nextWaiter, h, w);
      }
      RegisterKeeps(g, Register(g, group), group);
    }
  }

  lemma StoredDrop(waiters: map<nat, seq<nat>>, group: nat, i: nat, h: nat, w: nat)
    requires group in waiters && i < |waiters[group]|
    ensures Stored(waiters, h, w) == Stored(DropWaiter(waiters, group, i), h, w)
                                   + if h == group && w == waiters[group][i] then 1 else 0
  {
    var rest := Without(waiters[group], i);
    assert multiset(waiters[group])[w] == multiset(rest)[w] + multiset{waiters[group][i]}[w];
  }

  lemma WaitedWithdraw(g: Groups, group: nat, i: nat)
    requires Waited(g) && group in g.waiters && i < |g.waiters[group]|
    ensures Waited(Withdraw(g, group, i))
  {
    var g', w0 := Withdraw(g, group, i), g.waiters[group][i];
    forall h, w ensures Stored(g.waiters, h, w) == Stored(g'.waiters, h, w) + if h == group && w == w0 then 1 else 0 {
      StoredDrop(g.waiters, group, i, h, w);
    }
    assert Stored(g.waiters, group, w0) > 0;
    forall w | w in g'.homes ensures WaiterOk(g', w) {
      assert WaiterOk(g, w);
    }
  }

  /** A completion takes the waiters stored for its group, when it is the group's last. */
  lemma StoredLeft(g: Groups, group: nat, h: nat, w: nat)
    requires Filed(g)
    ensures var last := group in g.counts && g.counts[group] <= 1;
      && multiset(TakenBy(g.counts, g.waiters, group))[w] == (if last then Stored(g.waiters, group, w) else 0)
      && Stored(WaitersLeft(g.counts, g.waiters, group), h, w) == (if last && h == group then 0 else Stored(g.waiters, h, w))
  {
  }

  lemma WaitedComplete(g: Groups, group: nat)
    requires Waited(g)
    ensures Waited(CompleteOne(g, group))
  {
    var g', last := CompleteOne(g, group), group in g.counts && g.counts[group] <= 1;
    forall h, w ensures Stored(g'.waiters, h, w) == if last && h == group then 0 else Stored(g.waiters, h, w) {
      StoredLeft(g, group, h, w);
    }
    forall w ensures g'.fired[w] == g.fired[w] + if last then Stored(g.waiters, group, w) else 0 {
      StoredLeft(g, group, group, w);
    }
    forall w | w in g'.homes ensures WaiterOk(g', w) {
      assert WaiterOk(g, w);
    }
  }

  /** Taking every list fires each stored waiter once. */
  lemma {:induction false} AllWaitersCount(waiters: map<nat, seq<nat>>, homes: map<nat, nat>, w: nat)
    requires forall h, v :: Stored(waiters, h, v) > 0 ==> v in homes && homes[v] == h
    ensures AllWaiters(waiters)[w] == if w in homes then Stored(waiters, homes[w], w) else 0
    decreases |waiters|
  {
    if waiters == map[] {
    } else {
      var h: nat := if w in homes && homes[w] in waiters then homes[w] else var h :| h in waiters; h;
      AllWaitersFrom(waiters, h);
      forall k, v ensures Stored(waiters - {h}, k, v) == if k == h then 0 else Stored(waiters, k, v) {}
      AllWaitersCount(waiters - {h}, homes, w);
      assert multiset(waiters[h])[w] == Stored(waiters, h, w);
    }
  }

  lemma WaitedFireAll(g: Groups)
    requires Waited(g)
    ensures Waited(FireAll(g))
  {
    var g' := FireAll(g);
    forall w ensures g'.fired[w] == g.fired[w] + if w in g.homes then Stored(g.waiters, g.homes[w], w) else 0 {
      AllWaitersCount(g.waiters, g.homes, w);
    }
    forall w | w in g'.homes ensures WaiterOk(g', w) {
      assert WaiterOk(g, w);
    }
  }

  /** The idle sweep never finds anything to do. */
  lemma SweepFindsNothing(g: Groups)
    requires Filed(g)
    ensures Sweep(g) == g
  {
    assert Idling(g.counts, g.waiters) == map[];
    assert Busy(g.counts, g.waiters) == g.waiters;
  }

  lemma WaitedClient(s: State, a: ClientAction)
    requires Waited(s.groups) && ClientEnabled(s, a)
    ensures Waited(ApplyClient(s, a).groups)
  {
    match a
    case SubmitCommit => WaitedUp(s.groups, GroupOf(s.desk.lock.value.req));
    case WaitCommit => WaitedRegister(s.groups, s.desk.lock.value.group);
    case CancelWait(group, i) => WaitedWithdraw(s.groups, group, i);
    case _ => assert ApplyClient(s, a).groups == s.groups;
  }

  lemma WaitedWorker(s: State, a: WorkerAction)
    requires Waited(s.groups) && WorkerEnabled(s, a)
    ensures Waited(ApplyWorker(s, a).groups)
  {
    match a
    case IdleSweep => SweepFindsNothing(s.groups);
    case CompleteGroup => WaitedComplete(s.groups, GroupOf(s.work.slot.value.ctx.req));
    case _ => assert ApplyWorker(s, a).groups == s.groups;
  }

  lemma WaitedStep(s: State, a: Action)
    requires Waited(s.groups) && Enabled(s, a)
    ensures Waited(Apply(s, a).groups)
  {
    match a
    case Client(c) => WaitedClient(s, c);
    case Worker(w) => WaitedWorker(s, w);
    case End(e) =>
      if e.NotifyAll? { WaitedFireAll(s.groups); } else { assert ApplyEnd(s, e).groups == s.groups; }
  }
}
