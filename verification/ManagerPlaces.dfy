/** What is true of the contexts in each place, and of the phases of the worker and of shutdown. */
module ManagerPlaces {
  import opened Wrappers
  import opened Requests
  import opened ManagerSteps
  import opened ManagerConservation

  predicate Fresh(c: Context) {
    c.chunks == 0
  }

  /** Admitted, with a request, and not yet streaming: ready to be handed to libcurl again. */
  predicate Ready(c: Context) {
    c.req.Some? && c.armed && c.chunks == 0
  }

  predicate HandlerOk(h: Handler) {
    && (h.inMulti ==> Running(h))
    && (Running(h) ==> h.ctx.value.req.Some? && h.ctx.value.armed && (h.ctx.value.chunks > 0 <==> h.hasChunk))
  }

  predicate AllFresh(cs: seq<Context>) {
    forall i :: 0 <= i < |cs| ==> Fresh(cs[i])
  }

  predicate AllReady(cs: seq<Context>) {
    forall i :: 0 <= i < |cs| ==> Ready(cs[i])
  }

  predicate BatchOk(b: Batch) {
    AllReady(b.failed) && forall h :: 0 <= h < |b.handlers| ==> HandlerOk(b.handlers[h])
  }

  predicate PcOk(pc: Pc) {
    match pc
    case Scanning(kept, ready) => AllFresh(kept) && AllReady(ready)
    case Building(toBuild, batch) => AllReady(toBuild) && BatchOk(batch)
    case Draining(batch) => BatchOk(batch)
    case _ => true
  }

  predicate Placed(w: Work) {
    && AllFresh(w.pending) && AllReady(w.failed) && PcOk(w.pc)
    && forall b :: 0 <= b < |w.batches| ==> BatchOk(w.batches[b])
  }

  predicate Quiet(w: Work) {
    w.batches == [] && WorkerFree(w)
  }

  predicate Working(pc: Pc) {
    pc.Idle? || pc.Scanning? || pc.Building? || pc.Draining? || pc.Cancelling?
  }

  /** The mutex, the shutdown flag and the worker's phase agree. */
  predicate Phased(s: State) {
    var w, d := s.work, s.desk;
    && (d.lock.Some? ==> !w.pc.Scanning?)
    && (w.pc.Scanning? ==> w.slot.None?)
    && (w.slot.Some? && w.slot.value.released ==> !w.slot.value.ctx.armed)
    && (!d.shutdown ==> w.lost == [] && Working(w.pc))
    && (d.shutdown ==> !w.pc.Idle? && !w.pc.Scanning? && !w.pc.Building?)
    && (d.shutdown && !w.pc.Closing? ==> w.pending == [] && w.failed == [] && d.lock.None?)
    && (d.shutdown && w.pc.Draining? ==> w.pc.drained.failed == [])
    && (d.shutdown && w.pc.Cancelling? ==> w.doomed == [])
    && (w.pc.Closing? || w.pc.Cleaning? || w.pc.Cancelling? ==> w.lost == [])
    && (w.pc.Notifying? || w.pc.Down? ==> Quiet(w))
    && (w.pc.Down? ==> s.groups.waiters == map[])
  }

  lemma PlacedReports(w: Work)
    requires Placed(w)
    ensures ReportsRunning(w)
  {
    forall b: nat, h: nat | Reporting(w, b, h) ensures Running(w.batches[b].handlers[h]) {
      assert BatchOk(w.batches[b]) && HandlerOk(w.batches[b].handlers[h]);
    }
  }

  // ----- Places

  lemma PlacedScan(s: State)
    requires Placed(s.work) && s.work.pc.Scanning? && s.work.pending != []
    ensures Placed(DoScan(s).work)
  {
    assert Fresh(s.work.pending[0]);
  }

  lemma SetHandlerPlaced(w: Work, b: nat, h: nat, y: Handler)
    requires Placed(w) && HandlerAt(w, b, h) && HandlerOk(y)
    ensures Placed(SetHandler(w, b, h, y))
  {
    assert BatchOk(w.batches[b]);
    assert BatchOk(w.batches[b].(handlers := w.batches[b].handlers[h := y]));
  }

  lemma ParkPlaced(w: Work, b: nat, h: nat, c: Context)
    requires Placed(w) && HandlerAt(w, b, h) && Ready(c)
    ensures Placed(Park(w, b, h, c))
  {
    assert BatchOk(w.batches[b]);
    var batch, y := w.batches[b], w.batches[b].handlers[h].(ctx := None, called := true, inMulti := false);
    assert BatchOk(batch.(handlers := batch.handlers[h := y], failed := batch.failed + [c]));
  }

  lemma HandlerIsOk(w: Work, b: nat, h: nat)
    requires Placed(w) && HandlerAt(w, b, h)
    ensures HandlerOk(w.batches[b].handlers[h])
  {
    assert BatchOk(w.batches[b]);
  }

  lemma PlacedChunk(s: State, b: nat, h: nat)
    requires Placed(s.work) && Reporting(s.work, b, h)
    ensures Placed(DoChunk(s, b, h).work)
  {
    HandlerIsOk(s.work, b, h);
    var handler := s.work.batches[b].handlers[h];
    var c := handler.ctx.value.(chunks := handler.ctx.value.chunks + 1);
    SetHandlerPlaced(s.work, b, h, handler.(ctx := Some(c), hasChunk := true));
  }

  lemma PlacedDone(s: State, b: nat, h: nat, curlError: bool, status: int)
    requires Placed(s.work) && Reporting(s.work, b, h)
    ensures Placed(DoDone(s, b, h, curlError, status).work)
  {
    HandlerIsOk(s.work, b, h);
    var handler := s.work.batches[b].handlers[h];
    var c := handler.ctx.value.(attempt := handler.ctx.value.attempt + 1);
    if ShouldRetry(c.req.value, c.attempt, curlError, status, handler.hasChunk) {
      ParkPlaced(s.work, b, h, c.(start := s.limits.clock));
    } else {
      SetHandlerPlaced(s.work, b, h, handler.(ctx := Some(c), called := true, inMulti := false));
    }
  }

  lemma PlacedBuild(s: State, easyOk: bool)
    requires Placed(s.work) && s.work.pc.Building? && s.work.pc.toBuild != []
    ensures Placed(DoBuild(s, easyOk).work)
  {
    var c := s.work.pc.toBuild[0];
    assert Ready(c);
    assert HandlerOk(Handler(Some(c), false, false, true));
  }

  lemma PlacedDrop(w: Work, b: nat, h: nat)
    requires Placed(w) && HandlerAt(w, b, h)
    ensures Placed(DropHandler(w, b, h))
  {
    assert BatchOk(w.batches[b]);
    var y := w.batches[b].(handlers := Without(w.batches[b].handlers, h));
    assert BatchOk(y);
  }

  lemma DestroyPlaces(s: State, w: Work, h: Handler)
    ensures Destroy(s, w, h).work == w.(slot := Destroy(s, w, h).work.slot)
  {
  }

  lemma {:induction false} SparedFresh(cs: seq<Context>, ids: set<nat>, groups: set<nat>)
    requires AllFresh(cs)
    ensures AllFresh(Spared(cs, ids, groups))
  {
    if cs == [] {
    } else {
      assert Fresh(cs[0]);
      assert AllFresh(cs[1..]) by {
        forall i | 0 <= i < |cs[1..]| ensures Fresh(cs[1..][i]) { assert Fresh(cs[i + 1]); }
      }
      SparedFresh(cs[1..], ids, groups);
    }
  }

  lemma PlacedWorkerMoves(s: State, a: WorkerAction)
    requires Placed(s.work) && WorkerEnabled(s, a)
    requires a.ScanBegin? || a.ScanEnd? || a.BuildEnd? || a.BatchFinished? || a.DrainEnd? || a.RetryDue?
    ensures Placed(ApplyWorker(s, a).work)
  {
    match a
    case RetryDue(i) => assert Ready(s.work.failed[i]);
    case BatchFinished(b) => assert BatchOk(s.work.batches[b]);
    case _ =>
  }

  lemma PlacedWorker(s: State, a: WorkerAction)
    requires Placed(s.work) && WorkerEnabled(s, a)
    ensures Placed(ApplyWorker(s, a).work)
  {
    match a
    case ScanOne => PlacedScan(s);
    case BuildOne(ok) => PlacedBuild(s, ok);
    case BodyChunk(b, h) => PlacedChunk(s, b, h);
    case TransferDone(b, h, e, st) => PlacedDone(s, b, h, e, st);
    case DrainOne =>
      var b := s.work.pc.drained;
      var w := s.work.(pc := Draining(b.(handlers := b.handlers[1..])));
      assert BatchOk(b.(handlers := b.handlers[1..]));
      DestroyPlaces(s, w, b.handlers[0]);
    case FinishDoomed =>
    case IdleSweep =>
    case ReleaseTokens =>
    case CompleteGroup =>
    case _ => PlacedWorkerMoves(s, a);
  }

  lemma PlacedEnd(s: State, a: EndAction)
    requires Placed(s.work) && EndEnabled(s, a)
    ensures Placed(ApplyEnd(s, a).work)
  {
    match a
    case CancelBegin => SparedFresh(s.work.pending, s.desk.cancelIds, s.desk.cancelGroups);
    case CancelHandler(b, h) =>
      PlacedDrop(s.work, b, h);
      DestroyPlaces(s, DropHandler(s.work, b, h), s.work.batches[b].handlers[h]);
    case ClearBatch => assert BatchOk(s.work.batches[0]);
    case _ =>
  }

  lemma PlacedClient(s: State, a: ClientAction)
    requires Placed(s.work) && ClientEnabled(s, a)
    ensures Placed(ApplyClient(s, a).work)
  {
    if a.SubmitCommit? {
      var s' := ApplyClient(s, a);
      assert AllFresh(s'.work.pending);
    } else {
      assert ApplyClient(s, a).work == s.work;
    }
  }

  lemma PlacedStep(s: State, a: Action)
    requires Placed(s.work) && Enabled(s, a)
    ensures Placed(Apply(s, a).work)
  {
    match a
    case Client(c) => PlacedClient(s, c);
    case Worker(w) => PlacedWorker(s, w);
    case End(e) => PlacedEnd(s, e);
  }

  // ----- Phases

  lemma PhasedClient(s: State, a: ClientAction)
    requires Phased(s) && ClientEnabled(s, a)
    ensures Phased(ApplyClient(s, a))
  {
    var s' := ApplyClient(s, a);
    if a.SubmitCommit? {
    } else {
      assert s'.work == s.work && s'.desk.shutdown == s.desk.shutdown;
    }
  }

  lemma PhasedWorker(s: State, a: WorkerAction)
    requires Phased(s) && WorkerEnabled(s, a)
    ensures Phased(ApplyWorker(s, a))
  {
    if a.BuildOne? || a.BodyChunk? || a.TransferDone? || a.DrainOne? { PhasedTransfer(s, a); }
  }

  lemma PhasedTransfer(s: State, a: WorkerAction)
    requires Phased(s) && WorkerEnabled(s, a) && (a.BuildOne? || a.BodyChunk? || a.TransferDone? || a.DrainOne?)
    ensures Phased(ApplyWorker(s, a))
  {
  }

  lemma PhasedEnd(s: State, a: EndAction)
    requires Phased(s) && EndEnabled(s, a)
    ensures Phased(ApplyEnd(s, a))
  {
  }

  lemma PhasedStep(s: State, a: Action)
    requires Phased(s) && Enabled(s, a)
    ensures Phased(Apply(s, a))
  {
    match a
    case Client(c) => PhasedClient(s, c);
    case Worker(w) => PhasedWorker(s, w);
    case End(e) => PhasedEnd(s, e);
  }
}
