/** What a cancellation pass does to every request, whatever is interleaved with it. */
module ManagerCancel {
  import opened Requests
  import opened ManagerSteps
  import opened ManagerConservation
  import opened ManagerPlaces
  import opened ManagerEffects
  import opened ManagerTraces
  import opened ManagerGroups
  import opened ManagerLimits
  import opened ManagerTheorems
  import opened ManagerProgress
  import opened ManagerShutdown

  // ----- What the loops over handlers and contexts leave

  /** The handlers a cancellation leaves, in order, and the contexts it concludes. */
  function SparedHandlers(hs: seq<Handler>, ids: set<nat>, groups: set<nat>): seq<Handler> {
    if hs == [] then []
    else if HandlerMatches(hs[0], ids, groups) then SparedHandlers(hs[1..], ids, groups)
    else [hs[0]] + SparedHandlers(hs[1..], ids, groups)
  }

  function Concluded(hs: seq<Handler>, ids: set<nat>, groups: set<nat>): seq<Context> {
    if hs == [] then []
    else if HandlerMatches(hs[0], ids, groups) && Running(hs[0]) then [hs[0].ctx.value] + Concluded(hs[1..], ids, groups)
    else Concluded(hs[1..], ids, groups)
  }

  lemma {:induction false} SparingKeepsOrder(hs: seq<Handler>, ids: set<nat>, groups: set<nat>)
    ensures Subsequence(SparedHandlers(hs, ids, groups), hs)
  {
    if hs == [] {
    } else {
      SparingKeepsOrder(hs[1..], ids, groups);
      var s := SparedHandlers(hs[1..], ids, groups);
      assert ([hs[0]] + s)[1..] == s;
    }
  }

  lemma {:induction false} SparedSplit(a: seq<Handler>, b: seq<Handler>, ids: set<nat>, groups: set<nat>)
    ensures SparedHandlers(a + b, ids, groups) == SparedHandlers(a, ids, groups) + SparedHandlers(b, ids, groups)
  {
    if a == [] {
      assert a + b == b;
    } else {
      assert (a + b)[1..] == a[1..] + b;
      SparedSplit(a[1..], b, ids, groups);
    }
  }

  /** Handlers may be cancelled in any order: dropping a matching one changes nothing in what the loop will
      leave, and when none is left the loop leaves all. */
  lemma CancelOrderIsFree(hs: seq<Handler>, h: nat, ids: set<nat>, groups: set<nat>)
    requires h < |hs| && HandlerMatches(hs[h], ids, groups)
    ensures SparedHandlers(Without(hs, h), ids, groups) == SparedHandlers(hs, ids, groups)
  {
    var a, b, c := hs[..h], hs[h..], hs[h + 1..];
    assert hs == a + b && b[1..] == c && b[0] == hs[h] && Without(hs, h) == a + c;
    SparedSplit(a, b, ids, groups);
    SparedSplit(a, c, ids, groups);
  }

  lemma {:induction false} NothingToCancel(hs: seq<Handler>, ids: set<nat>, groups: set<nat>)
    ensures SparedHandlers(hs, ids, groups) == hs <==> forall h :: 0 <= h < |hs| ==> !HandlerMatches(hs[h], ids, groups)
    ensures |SparedHandlers(hs, ids, groups)| <= |hs|
  {
    if hs == [] {
    } else {
      NothingToCancel(hs[1..], ids, groups);
      if !HandlerMatches(hs[0], ids, groups) {
        assert ([hs[0]] + SparedHandlers(hs[1..], ids, groups))[1..] == SparedHandlers(hs[1..], ids, groups);
        assert hs == [hs[0]] + hs[1..];
      }
    }
  }

  lemma {:induction false} SparedOf(cs: seq<Context>, i: nat, ids: set<nat>, groups: set<nat>)
    requires i < |cs| && Matches(cs[i].req, ids, groups)
    ensures Spared(Without(cs, i), ids, groups) == Spared(cs, ids, groups)
  {
    if i == 0 {
      assert Without(cs, i) == cs[1..];
    } else {
      assert Without(cs, i)[1..] == Without(cs[1..], i - 1) && Without(cs, i)[0] == cs[0];
      SparedOf(cs[1..], i - 1, ids, groups);
    }
  }

  lemma {:induction false} NothingSpared(cs: seq<Context>, ids: set<nat>, groups: set<nat>)
    requires forall i :: 0 <= i < |cs| ==> !Matches(cs[i].req, ids, groups)
    ensures Spared(cs, ids, groups) == cs
  {
    if cs == [] {
    } else {
      NothingSpared(cs[1..], ids, groups);
      assert cs == [cs[0]] + cs[1..];
    }
  }

  // ----- The pass under way

  /** Since the pass began in `s`: every taken context matches, the other pending ones are in front, only
      new submissions follow, and the loops over retry list and handlers will leave what they would have
      left at the beginning. */
  ghost predicate Underway(s: State, w: Work) {
    var ids, groups := s.desk.cancelIds, s.desk.cancelGroups;
    && w.pc == Cancelling(ids, groups)
    && (forall i :: 0 <= i < |w.doomed| ==> Matches(w.doomed[i].req, ids, groups))
    && Extends(Spared(s.work.pending, ids, groups), w.pending, s.ledger.nextToken)
    && Spared(w.failed, ids, groups) == Spared(s.work.failed, ids, groups)
    && SameBatches(s.work.batches, w.batches, ids, groups)
  }

  predicate Extends(kept: seq<Context>, pending: seq<Context>, nextToken: nat) {
    kept <= pending && forall i :: |kept| <= i < |pending| ==> pending[i].token >= nextToken
  }

  predicate SameBatches(bs: seq<Batch>, bs': seq<Batch>, ids: set<nat>, groups: set<nat>) {
    |bs'| == |bs| && forall b :: 0 <= b < |bs| ==>
      bs'[b].failed == bs[b].failed && SparedHandlers(bs'[b].handlers, ids, groups) == SparedHandlers(bs[b].handlers, ids, groups)
  }

  /** Requests the pass must leave alone still await their final callback. */
  ghost predicate Survives(s: State, u: State, t: nat) {
    && t in u.ledger.records && t in s.ledger.records && u.ledger.records[t].req == s.ledger.records[t].req
    && (!Matches(s.ledger.records[t].req, s.desk.cancelIds, s.desk.cancelGroups) ==> Awaits(u.ledger, u.work.slot, t))
  }

  lemma DropKeepsBatches(s: State, w: Work, b: nat, h: nat)
    requires Underway(s, w) && HandlerAt(w, b, h)
    requires HandlerMatches(w.batches[b].handlers[h], s.desk.cancelIds, s.desk.cancelGroups)
    ensures SameBatches(s.work.batches, DropHandler(w, b, h).batches, s.desk.cancelIds, s.desk.cancelGroups)
  {
    CancelOrderIsFree(w.batches[b].handlers, h, s.desk.cancelIds, s.desk.cancelGroups);
  }

  lemma UnderwayClient(s: State, u: State, a: ClientAction)
    requires Underway(s, u.work) && ClientEnabled(u, a) && u.ledger.nextToken >= s.ledger.nextToken
    ensures Underway(s, ApplyClient(u, a).work)
  {
    if !a.SubmitCommit? { assert ApplyClient(u, a).work == u.work; }
  }

  lemma UnderwayWorker(s: State, u: State, a: WorkerAction)
    requires Underway(s, u.work) && WorkerEnabled(u, a)
    ensures Underway(s, ApplyWorker(u, a).work)
  {
    assert a.FinishDoomed? || a.ReleaseTokens? || a.CompleteGroup?;
    if a.FinishDoomed? {
      var w, w' := u.work, ApplyWorker(u, a).work;
      assert forall i :: 0 <= i < |w'.doomed| ==> w'.doomed[i] == w.doomed[i + 1];
    }
  }

  lemma UnderwayEnd(s: State, u: State, a: EndAction)
    requires Underway(s, u.work) && EndEnabled(u, a) && a != CancelEnd
    ensures Underway(s, ApplyEnd(u, a).work)
  {
    if a.CancelFailed? {
      SparedOf(u.work.failed, a.i, s.desk.cancelIds, s.desk.cancelGroups);
    } else {
      assert a.CancelHandler?;
      DropKeepsBatches(s, u.work, a.b, a.h);
      DestroyPlaces(u, DropHandler(u.work, a.b, a.h), u.work.batches[a.b].handlers[a.h]);
    }
  }

  lemma UnderwayStep(s: State, u: State, a: Action)
    requires Underway(s, u.work) && Enabled(u, a) && a != End(CancelEnd) && u.ledger.nextToken >= s.ledger.nextToken
    ensures Underway(s, Apply(u, a).work)
  {
    match a
    case Client(c) => UnderwayClient(s, u, c);
    case Worker(w) => UnderwayWorker(s, u, w);
    case End(e) => UnderwayEnd(s, u, e);
  }

  /** The pass delivers final callbacks to matching requests only. */
  lemma FinalsMatch(s: State, u: State, a: Action)
    requires Underway(s, u.work) && Enabled(u, a) && EffectOf(u, a).Finals?
    ensures Matches(EffectOf(u, a).c.req, s.desk.cancelIds, s.desk.cancelGroups)
  {
    match a
    case Client(c) =>
    case Worker(w) => assert w.FinishDoomed?;
    case End(e) =>
  }

  lemma AwaitsOn(u: State, e: Effect, t: nat)
    requires Tokens(u.ledger) && Sound(u, e) && Awaits(u.ledger, u.work.slot, t) && !(e.Finals? && e.c.token == t)
    ensures Awaits(LedgerAfter(u.ledger, e), SlotAfter(u.work.slot, e), t)
  {
  }

  lemma SurvivesStep(s: State, u: State, a: Action, t: nat)
    requires Shape(u) && Underway(s, u.work) && Enabled(u, a) && Survives(s, u, t)
    ensures Survives(s, Apply(u, a), t)
  {
    var e := EffectOf(u, a);
    RecordsKept(u, a, t);
    ShapeStep(u, a);
    EffectsHappen(u, a);
    if !Matches(s.ledger.records[t].req, s.desk.cancelIds, s.desk.cancelGroups) {
      if e.Finals? && e.c.token == t { FinalsMatch(s, u, a); }
      AwaitsOn(u, e, t);
    }
  }

  predicate NoEnd(acts: seq<Action>) {
    forall i :: 0 <= i < |acts| ==> acts[i] != End(CancelEnd)
  }

  lemma TokensGrow(u: State, a: Action)
    requires Enabled(u, a)
    ensures Apply(u, a).ledger.nextToken >= u.ledger.nextToken
  {
    EffectsHappen(u, a);
  }

  ghost predicate Going(s: State, u: State) {
    Shape(u) && Underway(s, u.work) && u.ledger.nextToken >= s.ledger.nextToken
  }

  lemma GoesOn(s: State, u: State, a: Action)
    requires Going(s, u) && Enabled(u, a) && a != End(CancelEnd)
    ensures Going(s, Apply(u, a))
  {
    UnderwayStep(s, u, a);
    TokensGrow(u, a);
    ShapeStep(u, a);
  }

  lemma {:induction false} GoingRun(s: State, u: State, acts: seq<Action>)
    requires Going(s, u) && Legal(u, acts) && NoEnd(acts)
    ensures Going(s, Exec(u, acts))
    decreases |acts|
  {
    if acts == [] {
    } else {
      GoesOn(s, u, acts[0]);
      GoingRun(s, Apply(u, acts[0]), acts[1..]);
    }
  }

  lemma {:induction false} SurvivesRun(s: State, u: State, acts: seq<Action>, t: nat)
    requires Going(s, u) && Survives(s, u, t) && Legal(u, acts) && NoEnd(acts)
    ensures Survives(s, Exec(u, acts), t)
    decreases |acts|
  {
    if acts == [] {
    } else {
      GoesOn(s, u, acts[0]);
      SurvivesStep(s, u, acts[0], t);
      SurvivesRun(s, Apply(u, acts[0]), acts[1..], t);
    }
  }

  // ----- The end of the pass

  lemma {:induction false} WhereInHandlers(hs: seq<Handler>, x: Context)
    requires InHandlers(hs, x) > 0
    ensures exists h :: 0 <= h < |hs| && Running(hs[h]) && hs[h].ctx.value == x
  {
    if InHandler(hs[0], x) > 0 {
      assert Running(hs[0]) && hs[0].ctx.value == x;
    } else {
      WhereInHandlers(hs[1..], x);
      var h :| 0 <= h < |hs[1..]| && Running(hs[1..][h]) && hs[1..][h].ctx.value == x;
      assert hs[h + 1] == hs[1..][h];
    }
  }

  predicate InBatchOf(b: Batch, x: Context) {
    x in b.failed || exists h :: 0 <= h < |b.handlers| && Running(b.handlers[h]) && b.handlers[h].ctx.value == x
  }

  lemma {:induction false} WhereInBatches(bs: seq<Batch>, x: Context)
    requires InBatches(bs, x) > 0
    ensures exists b :: 0 <= b < |bs| && InBatchOf(bs[b], x)
  {
    if InBatch(bs[0], x) > 0 {
      if InHandlers(bs[0].handlers, x) > 0 {
        WhereInHandlers(bs[0].handlers, x);
      } else {
        assert x in multiset(bs[0].failed);
      }
      assert InBatchOf(bs[0], x);
    } else {
      WhereInBatches(bs[1..], x);
      var b :| 0 <= b < |bs[1..]| && InBatchOf(bs[1..][b], x);
      assert bs[b + 1] == bs[1..][b];
    }
  }

  /** At the end of the pass a matching request that is still live is parked. */
  lemma MatchingIsParked(s: State, u: State, t: nat)
    requires Kept(u) && Phased(u) && Tokens(u.ledger) && Underway(s, u.work) && EndEnabled(u, CancelEnd) && t in u.ledger.live && t < s.ledger.nextToken
    requires Matches(u.ledger.live[t].req, s.desk.cancelIds, s.desk.cancelGroups)
    ensures Parked(u.work, t)
  {
    var x, w, ids, groups := u.ledger.live[t], u.work, s.desk.cancelIds, s.desk.cancelGroups;
    assert x.token == t && Once(u.ledger.live, x) == 1;
    assert Occurs(w, x) == 1;
    NotPending(s, w, x);
    assert x !in w.failed;
    assert InList(w.failed, x) == 0 && InList(w.doomed, x) == 0 && InList(w.lost, x) == 0;
    WhereInBatches(w.batches, x);
    var b :| 0 <= b < |w.batches| && InBatchOf(w.batches[b], x);
    OnlyParkedLeft(w, b, x, ids, groups);
    var i :| 0 <= i < |w.batches[b].failed| && w.batches[b].failed[i] == x;
    assert w.batches[b].failed[i].token == t;
  }

  lemma OnlyParkedLeft(w: Work, b: nat, x: Context, ids: set<nat>, groups: set<nat>)
    requires NoCancelLeft(w, ids, groups) && b < |w.batches| && InBatchOf(w.batches[b], x) && Matches(x.req, ids, groups)
    ensures x in w.batches[b].failed
  {
    forall h | 0 <= h < |w.batches[b].handlers| ensures !HandlerMatches(w.batches[b].handlers[h], ids, groups) {}
  }

  lemma NotPending(s: State, w: Work, x: Context)
    requires Underway(s, w) && x.token < s.ledger.nextToken && Matches(x.req, s.desk.cancelIds, s.desk.cancelGroups)
    ensures InList(w.pending, x) == 0
  {
    var kept := Spared(s.work.pending, s.desk.cancelIds, s.desk.cancelGroups);
    CancelPartitions(s.work.pending, s.desk.cancelIds, s.desk.cancelGroups);
    forall i | 0 <= i < |w.pending| ensures w.pending[i] != x {
      assert i < |kept| ==> w.pending[i] == kept[i] && kept[i] in kept;
    }
  }

  lemma ParkedIsLive(u: State, t: nat)
    requires Kept(u) && Parked(u.work, t)
    ensures t in u.ledger.live
  {
    var b, i :| 0 <= b < |u.work.batches| && 0 <= i < |u.work.batches[b].failed| && u.work.batches[b].failed[i].token == t;
    var x := u.work.batches[b].failed[i];
    BatchesAt(u.work.batches, b, u.work.batches[b], x);
    assert x in multiset(u.work.batches[b].failed);
    PlacedIsLive(u, x);
  }

  lemma PassBegins(s: State)
    requires Enabled(s, End(CancelBegin))
    ensures Underway(s, Apply(s, End(CancelBegin)).work)
  {
    var ids, groups := s.desk.cancelIds, s.desk.cancelGroups;
    var u := Apply(s, End(CancelBegin));
    CancelPartitions(s.work.pending, ids, groups);
    forall i | 0 <= i < |u.work.doomed| ensures Matches(u.work.doomed[i].req, ids, groups) {
      assert u.work.doomed[i] in Cancelled(s.work.pending, ids, groups);
    }
  }

  /** What is open at the end is what is live. */
  lemma ClosedIffGone(u: State, t: nat)
    requires u.work.slot.None? && t in u.ledger.records && TraceOk(u.ledger, u.work.slot, t)
    ensures Closed(u.ledger.records[t]) <==> t !in u.ledger.live
  {
    if t in u.ledger.live {
      OpenIsNotClosed(u.ledger.records[t], u.ledger.live[t].attempt, u.ledger.live[t].chunks);
    }
  }

  /** Over any cancellation pass, whatever clients do meanwhile: of the requests that were live when it
      began, exactly those that match an order and are not parked in the own retry list of a batch have had
      their final callback when it ends. */
  lemma CancelPassResolves(s: State, acts: seq<Action>, t: nat)
    requires Reachable(s) && Enabled(s, End(CancelBegin)) && t in s.ledger.live
    requires Legal(Apply(s, End(CancelBegin)), acts) && NoEnd(acts)
    requires Enabled(Exec(Apply(s, End(CancelBegin)), acts), End(CancelEnd))
    ensures var e := Apply(Exec(Apply(s, End(CancelBegin)), acts), End(CancelEnd));
      && t in e.ledger.records
      && (Closed(e.ledger.records[t]) <==>
            Matches(s.ledger.live[t].req, s.desk.cancelIds, s.desk.cancelGroups) && !Parked(s.work, t))
  {
    var s1 := Apply(s, End(CancelBegin));
    var u := Exec(s1, acts);
    ReachableInv(s);
    StepInv(s, End(CancelBegin));
    PassBegins(s);
    assert Survives(s, s1, t);
    RunInv(s1, acts);
    GoingRun(s, s1, acts);
    SurvivesRun(s, s1, acts, t);
    assert TraceOk(u.ledger, u.work.slot, t);
    ClosedIffGone(u, t);
    SameParked(s, u, t);
    if Parked(s.work, t) {
      ParkedIsLive(u, t);
    } else if t in u.ledger.live && Matches(s.ledger.live[t].req, s.desk.cancelIds, s.desk.cancelGroups) {
      MatchingIsParked(s, u, t);
    }
  }

  // ----- What an order does

  /** A cancellation pass from `s`, whatever clients do meanwhile, and the state after it. */
  ghost predicate Pass(s: State, acts: seq<Action>) {
    && Reachable(s) && Enabled(s, End(CancelBegin))
    && Legal(Apply(s, End(CancelBegin)), acts) && NoEnd(acts)
    && Enabled(Exec(Apply(s, End(CancelBegin)), acts), End(CancelEnd))
  }

  ghost function AfterPass(s: State, acts: seq<Action>): State
    requires Pass(s, acts)
  {
    Apply(Exec(Apply(s, End(CancelBegin)), acts), End(CancelEnd))
  }

  predicate NoPass(acts: seq<Action>) {
    forall i :: 0 <= i < |acts| ==> acts[i] != End(CancelBegin)
  }

  /** Orders wait for the next pass. */
  lemma {:induction false} OrdersWait(s: State, acts: seq<Action>)
    requires Legal(s, acts) && NoPass(acts)
    ensures s.desk.cancelIds <= Exec(s, acts).desk.cancelIds && s.desk.cancelGroups <= Exec(s, acts).desk.cancelGroups
    decreases |acts|
  {
    if acts == [] {
    } else {
      OrderKept(s, acts[0]);
      OrdersWait(Apply(s, acts[0]), acts[1..]);
    }
  }

  lemma OrderKept(s: State, a: Action)
    requires Enabled(s, a) && a != End(CancelBegin)
    ensures s.desk.cancelIds <= Apply(s, a).desk.cancelIds && s.desk.cancelGroups <= Apply(s, a).desk.cancelGroups
  {
    match a
    case Client(c) =>
    case Worker(w) => assert ApplyWorker(s, w).desk == s.desk;
    case End(e) =>
  }

  /** Cancelling a group: by the end of the next pass, whatever happens before and during it, every live
      request of the group that is not parked in the own retry list of a batch has had its final callback. */
  lemma GroupOrderCancels(s: State, g: nat, wait: seq<Action>, pass: seq<Action>, t: nat)
    requires Reachable(s) && Enabled(s, Client(CancelGroup(g))) && Legal(Apply(s, Client(CancelGroup(g))), wait) && NoPass(wait)
    requires Pass(Exec(Apply(s, Client(CancelGroup(g))), wait), pass)
    requires var p := Exec(Apply(s, Client(CancelGroup(g))), wait); t in Members(p.ledger.live, g) && !Parked(p.work, t)
    ensures var e := AfterPass(Exec(Apply(s, Client(CancelGroup(g))), wait), pass);
      t in e.ledger.records && Closed(e.ledger.records[t])
  {
    OrdersWait(Apply(s, Client(CancelGroup(g))), wait);
    CancelPassResolves(Exec(Apply(s, Client(CancelGroup(g))), wait), pass, t);
  }

  /** Cancelling a request id: likewise for every live request with that id. */
  lemma IdOrderCancels(s: State, id: nat, wait: seq<Action>, pass: seq<Action>, t: nat)
    requires Reachable(s) && Enabled(s, Client(CancelId(id))) && Legal(Apply(s, Client(CancelId(id))), wait) && NoPass(wait)
    requires Pass(Exec(Apply(s, Client(CancelId(id))), wait), pass)
    requires var p := Exec(Apply(s, Client(CancelId(id))), wait);
      t in p.ledger.live && p.ledger.live[t].req.Some? && p.ledger.live[t].req.value.requestId == id && !Parked(p.work, t)
    ensures var e := AfterPass(Exec(Apply(s, Client(CancelId(id))), wait), pass);
      t in e.ledger.records && Closed(e.ledger.records[t])
  {
    OrdersWait(Apply(s, Client(CancelId(id))), wait);
    CancelPassResolves(Exec(Apply(s, Client(CancelId(id))), wait), pass, t);
  }

  /** A request for whose id and group no order was given is still open after the pass. */
  lemma UnorderedSurvives(s: State, pass: seq<Action>, t: nat)
    requires Pass(s, pass) && t in s.ledger.live
    requires s.ledger.live[t].req.Some? ==>
      s.ledger.live[t].req.value.requestId !in s.desk.cancelIds && s.ledger.live[t].req.value.groupId !in s.desk.cancelGroups
    ensures t in AfterPass(s, pass).ledger.records && !Closed(AfterPass(s, pass).ledger.records[t])
  {
    CancelPassResolves(s, pass, t);
  }

  lemma SameParked(s: State, u: State, t: nat)
    requires Underway(s, u.work)
    ensures Parked(u.work, t) <==> Parked(s.work, t)
  {
    assert ParkedLists(u.work.batches) == ParkedLists(s.work.batches);
    ParkedByLists(s.work, u.work, t);
  }

  /** And the pass leaves the lists its loops leave: the retry list and each batch's handlers without the
      matching ones, in order, and the batches' own retry lists untouched. */
  lemma CancelPassIsLoops(s: State, acts: seq<Action>, b: nat)
    requires Reachable(s) && Enabled(s, End(CancelBegin))
    requires Legal(Apply(s, End(CancelBegin)), acts) && NoEnd(acts)
    requires Enabled(Exec(Apply(s, End(CancelBegin)), acts), End(CancelEnd))
    ensures var e, ids, groups := Apply(Exec(Apply(s, End(CancelBegin)), acts), End(CancelEnd)).work, s.desk.cancelIds, s.desk.cancelGroups;
      && e.failed == Spared(s.work.failed, ids, groups) && |e.batches| == |s.work.batches|
      && (b < |s.work.batches| ==>
            && e.batches[b].handlers == SparedHandlers(s.work.batches[b].handlers, ids, groups)
            && e.batches[b].failed == s.work.batches[b].failed)
  {
    var s1 := Apply(s, End(CancelBegin));
    var u := Exec(s1, acts);
    ReachableInv(s);
    StepInv(s, End(CancelBegin));
    PassBegins(s);
    GoingRun(s, s1, acts);
    LoopsEnd(s, u, b);
  }

  lemma LoopsEnd(s: State, u: State, b: nat)
    requires Underway(s, u.work) && NoCancelLeft(u.work, s.desk.cancelIds, s.desk.cancelGroups)
    ensures var w, ids, groups := u.work, s.desk.cancelIds, s.desk.cancelGroups;
      && w.failed == Spared(s.work.failed, ids, groups) && |w.batches| == |s.work.batches|
      && (b < |s.work.batches| ==>
            && w.batches[b].handlers == SparedHandlers(s.work.batches[b].handlers, ids, groups)
            && w.batches[b].failed == s.work.batches[b].failed)
  {
    NothingSpared(u.work.failed, s.desk.cancelIds, s.desk.cancelGroups);
    if b < |s.work.batches| {
      NothingToCancel(u.work.batches[b].handlers, s.desk.cancelIds, s.desk.cancelGroups);
    }
  }

  // ----- The pass ends

  /** Each worker step of the pass uses up work. */
  lemma CancelAdvances(u: State, a: Action)
    requires u.work.pc.Cancelling? && Enabled(u, a) && !a.Client? && a != End(CancelEnd)
    ensures Remaining(Apply(u, a)) < Remaining(u)
  {
    if a.Worker? {
      assert a.w.FinishDoomed? || a.w.ReleaseTokens? || a.w.CompleteGroup?;
    } else if a.e.CancelHandler? {
      DropAdvances(u, a.e.b, a.e.h);
    }
  }

  /** While the pass is under way and the mutex is free, the worker can go on or end it. */
  lemma CancelCanMove(u: State) returns (a: Action)
    requires u.work.pc.Cancelling? && LockFree(u)
    ensures !a.Client? && Enabled(u, a)
  {
    var w := u.work;
    if w.slot.Some? {
      a := if w.slot.value.released then Worker(CompleteGroup) else Worker(ReleaseTokens);
    } else if w.doomed != [] {
      a := Worker(FinishDoomed);
    } else {
      a := CancelNext(u);
    }
  }

  lemma CancelStep(s: State, u: State) returns (a: Action)
    requires Going(s, u) && LockFree(u)
    ensures Enabled(u, a)
    ensures a != End(CancelEnd) ==> Going(s, Apply(u, a)) && LockFree(Apply(u, a)) && Remaining(Apply(u, a)) < Remaining(u)
  {
    a := CancelCanMove(u);
    if a != End(CancelEnd) {
      LockAfter(u, a);
      CancelAdvances(u, a);
      GoesOn(s, u, a);
    }
  }

  /** From every point of a pass with the mutex free there is a run of the worker alone to its end. */
  lemma {:induction false} CancelCompletes(s: State, u: State) returns (acts: seq<Action>)
    requires Going(s, u) && LockFree(u)
    ensures Legal(u, acts) && NoEnd(acts) && Enabled(Exec(u, acts), End(CancelEnd))
    decreases Remaining(u)
  {
    acts := [];
    var a := CancelStep(s, u);
    if a == End(CancelEnd) {
    } else {
      var rest := CancelCompletes(s, Apply(u, a));
      acts := [a] + rest;
      assert acts[1..] == rest;
      assert forall i :: 0 < i < |acts| ==> acts[i] == rest[i - 1];
    }
  }

  /** Cancellation does miss a request: of two requests in a batch with the cancelled id, one parked for
      its retry, the pass ends with the final callback of the other one only. */
  lemma CancelMissesParked() returns (acts: seq<Action>)
    ensures var s := Apply(OneParked(), Client(CancelId(7)));
      && Reachable(s) && Enabled(s, End(CancelBegin))
      && Legal(Apply(s, End(CancelBegin)), acts) && NoEnd(acts)
      && Enabled(Exec(Apply(s, End(CancelBegin)), acts), End(CancelEnd))
      && var e := Apply(Exec(Apply(s, End(CancelBegin)), acts), End(CancelEnd));
      && 1 in e.ledger.records && !Closed(e.ledger.records[1])
      && 2 in e.ledger.records && Closed(e.ledger.records[2])
  {
    ParkedIsReachable();
    ReachableStep(OneParked(), Client(CancelId(7)));
    var s := Apply(OneParked(), Client(CancelId(7)));
    assert s.work == OneParked().work && s.ledger == OneParked().ledger && 7 in s.desk.cancelIds;
    ReachableInv(s);
    StepInv(s, End(CancelBegin));
    PassBegins(s);
    acts := CancelCompletes(s, Apply(s, End(CancelBegin)));
    CancelPassResolves(s, acts, 1);
    CancelPassResolves(s, acts, 2);
  }
}
