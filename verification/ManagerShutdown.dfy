/** Which requests shutdown leaves without their final callback. */
module ManagerShutdown {
  import opened Wrappers
  import opened Requests
  import opened ManagerSteps
  import opened ManagerPlaces
  import opened ManagerEffects
  import opened ManagerTraces
  import opened ManagerLimits
  import opened ManagerTheorems
  import opened ManagerProgress

  /** Request `t` waits for its retry in the own list of a batch that still runs. */
  predicate Parked(w: Work, t: nat) {
    exists b, i :: 0 <= b < |w.batches| && 0 <= i < |w.batches[b].failed| && w.batches[b].failed[i].token == t
  }

  /** The own retry lists of the batches. */
  function ParkedLists(bs: seq<Batch>): (lists: seq<seq<Context>>)
    ensures |lists| == |bs| && forall b :: 0 <= b < |bs| ==> lists[b] == bs[b].failed
  {
    seq(|bs|, b requires 0 <= b < |bs| => bs[b].failed)
  }

  lemma ParkedByLists(w: Work, w': Work, t: nat)
    requires ParkedLists(w'.batches) == ParkedLists(w.batches)
    ensures Parked(w', t) <==> Parked(w, t)
  {
    assert |w'.batches| == |w.batches|;
    assert forall b :: 0 <= b < |w.batches| ==> w'.batches[b].failed == ParkedLists(w.batches)[b];
  }

  predicate Doomed(w: Work, t: nat) {
    Parked(w, t) || IsLost(w, t)
  }

  /** Clearing the first batch turns the requests parked in it into lost ones. */
  lemma ClearingLoses(w: Work, w': Work, t: nat)
    requires w.batches != [] && w'.batches == w.batches[1..] && w'.lost == w.lost + w.batches[0].failed
    ensures Doomed(w', t) <==> Doomed(w, t)
  {
    var n, first := |w.lost|, w.batches[0].failed;
    if b, i :| 0 <= b < |w.batches| && 0 <= i < |w.batches[b].failed| && w.batches[b].failed[i].token == t {
      if b == 0 { assert w'.lost[n + i] == first[i]; } else { assert w'.batches[b - 1] == w.batches[b]; }
    }
    if i :| 0 <= i < |w.lost| && w.lost[i].token == t { assert w'.lost[i] == w.lost[i]; }
    if i :| 0 <= i < |w'.lost| && w'.lost[i].token == t {
      if i < n { assert w.lost[i] == w'.lost[i]; } else { assert first[i - n] == w'.lost[i]; }
    }
    if b, i :| 0 <= b < |w'.batches| && 0 <= i < |w'.batches[b].failed| && w'.batches[b].failed[i].token == t {
      assert w.batches[b + 1] == w'.batches[b];
    }
  }

  lemma ListsKept(s: State, a: Action)
    requires Enabled(s, a) && Phased(s) && s.desk.shutdown && a != End(ClearBatch)
    ensures ParkedLists(Apply(s, a).work.batches) == ParkedLists(s.work.batches) && Apply(s, a).work.lost == s.work.lost
    ensures Apply(s, a).desk.shutdown
  {
    LostUnchanged(s, a);
    match a
    case Client(c) =>
    case Worker(w) => BatchesRest(s, w);
    case End(e) =>
  }

  lemma BatchesRest(s: State, a: WorkerAction)
    requires WorkerEnabled(s, a) && Phased(s) && s.desk.shutdown
    ensures ApplyWorker(s, a).work.batches == s.work.batches && ApplyWorker(s, a).desk == s.desk
  {
  }

  lemma {:induction false} DoomedLasts(s: State, acts: seq<Action>, t: nat)
    requires Phased(s) && s.desk.shutdown && Legal(s, acts)
    ensures Doomed(Exec(s, acts).work, t) <==> Doomed(s.work, t)
    decreases |acts|
  {
    if acts == [] {
    } else {
      var s' := Apply(s, acts[0]);
      if acts[0] == End(ClearBatch) {
        ClearingLoses(s.work, s'.work, t);
      } else {
        ListsKept(s, acts[0]);
        ParkedByLists(s.work, s'.work, t);
      }
      PhasedStep(s, acts[0]);
      DoomedLasts(s', acts[1..], t);
    }
  }

  /** Shutdown, whatever is interleaved with it: when it has returned, a request has had its one final
      callback if and only if it was not parked in the own retry list of a batch when shutdown was called. */
  lemma StrandedIffParked(s: State, acts: seq<Action>, t: nat)
    requires Reachable(s) && Enabled(s, End(ShutdownBegin)) && Legal(Apply(s, End(ShutdownBegin)), acts)
    requires var e := Exec(Apply(s, End(ShutdownBegin)), acts); e.work.pc.Down? && t in e.ledger.records
    ensures var e := Exec(Apply(s, End(ShutdownBegin)), acts);
      Closed(e.ledger.records[t]) <==> !Parked(s.work, t)
  {
    var s1 := Apply(s, End(ShutdownBegin));
    var e := Exec(s1, acts);
    ReachableInv(s);
    StepInv(s, End(ShutdownBegin));
    RunInv(s1, acts);
    DoomedLasts(s1, acts, t);
    ParkedByLists(s.work, s1.work, t);
    assert Parked(s.work, t) <==> Doomed(s1.work, t);
    assert !Parked(e.work, t);
    DownDecides(e, t);
  }

  lemma DownDecides(e: State, t: nat)
    requires Inv(e) && e.work.pc.Down? && t in e.ledger.records
    ensures Closed(e.ledger.records[t]) <==> !IsLost(e.work, t)
  {
    LiveAreLost(e, t);
    assert TraceOk(e.ledger, e.work.slot, t);
    if t in e.ledger.live {
      OpenIsNotClosed(e.ledger.records[t], e.ledger.live[t].attempt, e.ledger.live[t].chunks);
    }
  }

  // ----- Shutdown can always be completed

  /** From any shutting state with the mutex free there is a run of the worker alone that ends shutdown. */
  lemma {:induction false} ShutdownCompletes(s: State) returns (acts: seq<Action>)
    requires Phased(s) && s.desk.shutdown && LockFree(s)
    ensures Legal(s, acts) && Exec(s, acts).work.pc.Down?
    decreases Remaining(s)
  {
    acts := [];
    if s.work.pc.Down? {
    } else {
      var a := ShutdownNeverBlocks(s);
      LockAfter(s, a);
      ShutdownAdvances(s, a);
      PhasedStep(s, a);
      var rest := ShutdownCompletes(Apply(s, a));
      acts := [a] + rest;
      assert acts[1..] == rest;
    }
  }

  // ----- A request that is stranded

  lemma ReachableStep(s: State, a: Action)
    requires Reachable(s) && Enabled(s, a)
    ensures Reachable(Apply(s, a))
  {
    var acts :| Legal(INIT, acts) && Exec(INIT, acts) == s;
    ExecAppend(INIT, acts, a);
  }

  lemma {:induction false} ExecAppend(s: State, acts: seq<Action>, a: Action)
    requires Legal(s, acts) && Enabled(Exec(s, acts), a)
    ensures Legal(s, acts + [a]) && Exec(s, acts + [a]) == Apply(Exec(s, acts), a)
    decreases |acts|
  {
    if acts == [] {
      assert [a][1..] == [] && acts + [a] == [a];
    } else {
      assert (acts + [a])[1..] == acts[1..] + [a] && (acts + [a])[0] == acts[0];
      ExecAppend(Apply(s, acts[0]), acts[1..], a);
    }
  }

  /** A request with id 7 and without limits, to be tried twice. */
  const PLAIN := Request(7, 0, NO_ROUTE, 2, 0, false, {})

  function Plain(t: nat, attempt: nat, armed: bool): Context {
    Context(t, Some(PLAIN), true, attempt, 0, armed, 0)
  }

  function Carrying(w: Work, live: map<nat, Context>, records: map<nat, Record>): State {
    INIT.(work := w, ledger := Ledger(3, live, records))
  }

  /** Two requests pending, then both running in one batch, then the first parked for its retry. */
  function TwoPending(): State {
    Carrying(INIT.work.(pending := [Plain(1, 0, false), Plain(2, 0, false)]),
             map[1 := Plain(1, 0, false), 2 := Plain(2, 0, false)],
             map[1 := Record(Some(PLAIN), []), 2 := Record(Some(PLAIN), [])])
  }

  function TwoAdmitted(): State {
    Carrying(INIT.work.(pc := Building([Plain(1, 0, true), Plain(2, 0, true)], Batch(true, [], []))),
             map[1 := Plain(1, 0, true), 2 := Plain(2, 0, true)],
             map[1 := Record(Some(PLAIN), []), 2 := Record(Some(PLAIN), [])])
  }

  function Live(c: Context): Handler {
    Handler(Some(c), false, false, true)
  }

  function TwoRunning(): State {
    TwoAdmitted().(work := INIT.work.(batches := [Batch(true, [Live(Plain(1, 0, true)), Live(Plain(2, 0, true))], [])]))
  }

  function OneParked(): State {
    Carrying(INIT.work.(batches := [Batch(true, [Handler(None, true, false, false), Live(Plain(2, 0, true))], [Plain(1, 1, true)])]),
             map[1 := Plain(1, 1, true), 2 := Plain(2, 0, true)],
             map[1 := Record(Some(PLAIN), [Retry(1)]), 2 := Record(Some(PLAIN), [])])
  }

  lemma PendingIsReachable()
    ensures Reachable(TwoPending())
  {
    assert Legal(INIT, []) && Exec(INIT, []) == INIT;
    var enter := Client(SubmitEnter(Some(PLAIN), true));
    ReachableStep(INIT, enter);
    var s1 := Apply(INIT, enter);
    ReachableStep(s1, Client(SubmitCommit));
    var s2 := Apply(s1, Client(SubmitCommit));
    ReachableStep(s2, enter);
    var s3 := Apply(s2, enter);
    ReachableStep(s3, Client(SubmitCommit));
    assert Apply(s3, Client(SubmitCommit)) == TwoPending();
  }

  lemma ScanAdmits(s: State, c: Context)
    requires s.work.pc.Scanning? && s.work.pending != [] && s.work.pending[0] == c && c.req == Some(PLAIN)
    ensures DoScan(s) == s.(work := s.work.(pending := s.work.pending[1..],
                                            pc := s.work.pc.(ready := s.work.pc.ready + [c.(armed := true)])),
                            ledger := Update(s.ledger, c.(armed := true)))
  {
  }

  function OneScanned(): State {
    Carrying(INIT.work.(pending := [Plain(2, 0, false)], pc := Scanning([], [Plain(1, 0, true)])),
             map[1 := Plain(1, 0, true), 2 := Plain(2, 0, false)],
             map[1 := Record(Some(PLAIN), []), 2 := Record(Some(PLAIN), [])])
  }

  lemma ScannedIsReachable()
    ensures Reachable(OneScanned())
  {
    PendingIsReachable();
    var s0 := TwoPending();
    ReachableStep(s0, Worker(ScanBegin));
    var s1 := Apply(s0, Worker(ScanBegin));
    ReachableStep(s1, Worker(ScanOne));
    ScanAdmits(s1, Plain(1, 0, false));
    var s2 := Apply(s1, Worker(ScanOne));
    assert s2.work.pending == [Plain(2, 0, false)] && s2.work.pc.ready == [Plain(1, 0, true)];
    assert s2.work == OneScanned().work && s2.ledger.live == OneScanned().ledger.live;
  }

  lemma AdmittedIsReachable()
    ensures Reachable(TwoAdmitted())
  {
    ScannedIsReachable();
    var s2 := OneScanned();
    ReachableStep(s2, Worker(ScanOne));
    ScanAdmits(s2, Plain(2, 0, false));
    var s3 := Apply(s2, Worker(ScanOne));
    assert s3.work.pc.ready == [Plain(1, 0, true), Plain(2, 0, true)] && s3.work.pending == [];
    assert s3.ledger.live == TwoAdmitted().ledger.live;
    ReachableStep(s3, Worker(ScanEnd(true)));
    var s4 := Apply(s3, Worker(ScanEnd(true)));
    assert s4.work == TwoAdmitted().work && s4.ledger == TwoAdmitted().ledger;
  }

  lemma RunningIsReachable()
    ensures Reachable(TwoRunning())
  {
    AdmittedIsReachable();
    var s0 := TwoAdmitted();
    ReachableStep(s0, Worker(BuildOne(true)));
    var s1 := Apply(s0, Worker(BuildOne(true)));
    assert s1.work.pc == Building([Plain(2, 0, true)], Batch(true, [Live(Plain(1, 0, true))], []));
    ReachableStep(s1, Worker(BuildOne(true)));
    var s2 := Apply(s1, Worker(BuildOne(true)));
    assert s2.work.pc == Building([], TwoRunning().work.batches[0]);
    ReachableStep(s2, Worker(BuildEnd));
    assert Apply(s2, Worker(BuildEnd)).work == TwoRunning().work;
  }

  lemma ParkedIsReachable()
    ensures Reachable(OneParked()) && Enabled(OneParked(), End(ShutdownBegin)) && Parked(OneParked().work, 1)
    ensures !Parked(OneParked().work, 2)
  {
    RunningIsReachable();
    var s0 := TwoRunning();
    ReachableStep(s0, Worker(TransferDone(0, 0, true, 0)));
    var s1 := Apply(s0, Worker(TransferDone(0, 0, true, 0)));
    assert s1.work.batches[0] == OneParked().work.batches[0];
    assert s1.work == OneParked().work && s1.ledger.live == OneParked().ledger.live;
    assert s1.ledger.records[1].trace == [Retry(1)];
    assert s1.ledger.records == OneParked().ledger.records;
    assert OneParked().work.batches[0].failed[0].token == 1;
  }

  /** Shutdown does strand a request: with one of two transfers of a batch parked for its retry, shutdown
      returns with the final callback of the other one only. */
  lemma ShutdownStrandsParked() returns (acts: seq<Action>)
    ensures Reachable(OneParked()) && Enabled(OneParked(), End(ShutdownBegin))
    ensures var s := Apply(OneParked(), End(ShutdownBegin));
      && Legal(s, acts) && Exec(s, acts).work.pc.Down?
      && 1 in Exec(s, acts).ledger.records && !Closed(Exec(s, acts).ledger.records[1])
      && 2 in Exec(s, acts).ledger.records && Closed(Exec(s, acts).ledger.records[2])
  {
    ParkedIsReachable();
    ReachableInv(OneParked());
    var s := Apply(OneParked(), End(ShutdownBegin));
    StepInv(OneParked(), End(ShutdownBegin));
    acts := ShutdownCompletes(s);
    RecordsLast(s, acts, 1);
    RecordsLast(s, acts, 2);
    StrandedIffParked(OneParked(), acts, 1);
    StrandedIffParked(OneParked(), acts, 2);
  }

  lemma {:induction false} RecordsLast(s: State, acts: seq<Action>, t: nat)
    requires Shape(s) && Legal(s, acts) && t in s.ledger.records
    ensures t in Exec(s, acts).ledger.records
    decreases |acts|
  {
    if acts == [] {
    } else {
      RecordsKept(s, acts[0], t);
      ShapeStep(s, acts[0]);
      RecordsLast(Apply(s, acts[0]), acts[1..], t);
    }
  }

  lemma RecordsKept(s: State, a: Action, t: nat)
    requires Shape(s) && Enabled(s, a) && t in s.ledger.records
    ensures t in Apply(s, a).ledger.records && Apply(s, a).ledger.records[t].req == s.ledger.records[t].req
  {
    ShapeStep(s, a);
    EffectsHappen(s, a);
    LedgerKeeps(s, EffectOf(s, a), t);
  }

  lemma LedgerKeeps(s: State, e: Effect, t: nat)
    requires Tokens(s.ledger) && Sound(s, e) && t in s.ledger.records
    ensures t in LedgerAfter(s.ledger, e).records && LedgerAfter(s.ledger, e).records[t].req == s.ledger.records[t].req
  {
  }
}
