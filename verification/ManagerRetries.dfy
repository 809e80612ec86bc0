/** Which outcome of a transfer is retried, and when. */
module ManagerRetries {
  import opened Wrappers
  import opened RateWindow
  import opened Requests
  import opened ManagerSteps
  import opened ManagerConservation
  import opened ManagerPlaces
  import opened ManagerEffects
  import opened ManagerTraces
  import opened ManagerLimits
  import opened ManagerTheorems
  import opened ManagerAttempts

  // ----- Outcomes

  /** How a transfer ended: whether libcurl failed, and the status of the response. */
  datatype Outcome = Outcome(curlError: bool, status: int)

  /** The response the request asked for. */
  predicate Accepted(req: Request, o: Outcome) {
    !o.curlError && o.status in req.validStatuses
  }

  /** Attempt number `n` ended badly and another attempt is allowed. */
  predicate Refused(req: Option<Request>, o: Outcome, n: nat) {
    req.Some? && !Accepted(req.value, o) && n < req.value.retryAttempts
  }

  function OutcomeOf(s: State, a: Action, t: nat): seq<Outcome>
    requires Enabled(s, a)
  {
    if a.Worker? && a.w.TransferDone? && s.work.batches[a.w.b].handlers[a.w.h].ctx.value.token == t
    then [Outcome(a.w.curlError, a.w.status)] else []
  }

  /** The outcomes of the transfers of `t` that libcurl reported in a run, in order, after those in `outs`. */
  ghost function OutcomesOn(s: State, acts: seq<Action>, t: nat, outs: seq<Outcome>): seq<Outcome>
    requires Legal(s, acts)
    decreases |acts|
  {
    if acts == [] then outs else OutcomesOn(Apply(s, acts[0]), acts[1..], t, outs + OutcomeOf(s, acts[0], t))
  }

  ghost function Outcomes(acts: seq<Action>, t: nat): seq<Outcome>
    requires Legal(INIT, acts)
  {
    OutcomesOn(INIT, acts, t, [])
  }

  /** The first `k` outcomes were refused, each with an attempt left. */
  predicate AllRefused(req: Option<Request>, outs: seq<Outcome>, k: nat)
    requires k <= |outs|
  {
    forall i :: 0 <= i < k ==> Refused(req, outs[i], i + 1)
  }

  /** What a closed trace says: every retry answered a refused outcome, and a final response to a transfer
      answered an accepted outcome, the last allowed attempt, or one that had delivered a chunk. */
  predicate ExplainedAt(r: Record, outs: seq<Outcome>, k: nat, m: nat) {
    && ClosedAt(r, k, m) && k <= |outs| && AllRefused(r.req, outs, k)
    && (r.trace[k + m] == Final(0) ==> |outs| == k)
    && (r.trace[k + m] != Final(0) ==>
          && |outs| == k + 1 && r.req.Some?
          && (Accepted(r.req.value, outs[k]) || k + 1 >= r.req.value.retryAttempts || m > 0))
  }

  ghost predicate Explained(r: Record, outs: seq<Outcome>) {
    exists k: nat, m: nat :: ExplainedAt(r, outs, k, m)
  }

  /** While the final callback is awaited every outcome so far was refused and answered by a retry. */
  ghost predicate Answers(s: State, t: nat, outs: seq<Outcome>) {
    if t !in s.ledger.records then outs == []
    else if Awaits(s.ledger, s.work.slot, t)
    then |outs| == s.ledger.live[t].attempt && AllRefused(s.ledger.records[t].req, outs, |outs|)
    else Explained(s.ledger.records[t], outs)
  }

  /** The retry decision at the end of a transfer. */
  lemma DecisionIs(s: State, b: nat, h: nat, curlError: bool, status: int)
    requires Kept(s) && Placed(s.work) && WorkerEnabled(s, TransferDone(b, h, curlError, status))
    ensures var e, c := EffectOf(s, Worker(TransferDone(b, h, curlError, status))), s.work.batches[b].handlers[h].ctx.value;
      var refused := Refused(c.req, Outcome(curlError, status), c.attempt + 1) && c.chunks == 0;
      && IsLive(s.ledger, c) && (if refused then e.Retries? else e.Finals? && e.attempt == c.attempt + 1)
      && e.c == c && (e.Retries? ==> e.next.start == s.limits.clock)
  {
    HandlerIsOk(s.work, b, h);
    RunningOccurs(s.work, b, h);
    PlacedIsLive(s, s.work.batches[b].handlers[h].ctx.value);
  }

  lemma OnlyDoneTells(s: State, a: Action)
    requires Enabled(s, a) && !(a.Worker? && a.w.TransferDone?)
    ensures !EffectOf(s, a).Retries? && (EffectOf(s, a).Finals? ==> EffectOf(s, a).attempt == 0 && EffectOf(s, a).next == EffectOf(s, a).c)
  {
    match a
    case Client(c) =>
    case Worker(w) => OnlyDoneTellsWorker(s, w);
    case End(e) =>
  }

  lemma OnlyDoneTellsWorker(s: State, a: WorkerAction)
    requires WorkerEnabled(s, a) && !a.TransferDone?
    ensures var e := EffectOf(s, Worker(a)); !e.Retries? && (e.Finals? ==> e.attempt == 0 && e.next == e.c)
  {
  }

  /** A step that ends no transfer of `t`. */
  lemma QuietAnswers(s: State, e: Effect, t: nat, outs: seq<Outcome>, s': State)
    requires Tokens(s.ledger) && Sound(s, e) && Answers(s, t, outs)
    requires s'.ledger == LedgerAfter(s.ledger, e) && s'.work.slot == SlotAfter(s.work.slot, e)
    requires (e.Retries? || (e.Finals? && e.attempt > 0)) ==> e.c.token != t
    requires e.Finals? && e.c.token == t ==> TraceOk(s.ledger, s.work.slot, t)
    ensures Answers(s', t, outs)
  {
    if e.Finals? && e.c.token == t {
      var k, m, r, r' := e.c.attempt, e.c.chunks, s.ledger.records[t], s'.ledger.records[t];
      assert r'.trace == r.trace + [Final(0)] && r'.trace[..k + m] == r.trace;
      assert ExplainedAt(r', outs, k, m);
    } else if e.Still? || e.c.token != t {
      OtherStays(s, e, t);
    }
  }

  /** A step that ends a transfer of `t`. */
  lemma DoneAnswers(s: State, b: nat, h: nat, curlError: bool, status: int, outs: seq<Outcome>, s': State)
    requires Kept(s) && Placed(s.work) && Tokens(s.ledger) && WorkerEnabled(s, TransferDone(b, h, curlError, status))
    requires var e, t := EffectOf(s, Worker(TransferDone(b, h, curlError, status))), s.work.batches[b].handlers[h].ctx.value.token;
      && Sound(s, e) && Answers(s, t, outs) && t in s.ledger.records && TraceOk(s.ledger, s.work.slot, t)
      && s'.ledger == LedgerAfter(s.ledger, e) && s'.work.slot == SlotAfter(s.work.slot, e)
    ensures Answers(s', s.work.batches[b].handlers[h].ctx.value.token, outs + [Outcome(curlError, status)])
  {
    var e, c := EffectOf(s, Worker(TransferDone(b, h, curlError, status))), s.work.batches[b].handlers[h].ctx.value;
    DecisionIs(s, b, h, curlError, status);
    assert Awaits(s.ledger, s.work.slot, c.token);
    if e.Finals? {
      var k, m, r, r' := c.attempt, c.chunks, s.ledger.records[c.token], s'.ledger.records[c.token];
      assert r'.trace == r.trace + [Final(k + 1)] && r'.trace[..k + m] == r.trace;
      assert ExplainedAt(r', outs + [Outcome(curlError, status)], k, m);
    }
  }

  lemma AnswersStep(s: State, a: Action, t: nat, outs: seq<Outcome>)
    requires Inv(s) && Enabled(s, a) && Answers(s, t, outs)
    ensures Answers(Apply(s, a), t, outs + OutcomeOf(s, a, t))
  {
    ShapeStep(s, a);
    EffectsHappen(s, a);
    var e := EffectOf(s, a);
    if a.Worker? && a.w.TransferDone? {
      DecisionIs(s, a.w.b, a.w.h, a.w.curlError, a.w.status);
      if e.c.token == t {
        assert TraceOk(s.ledger, s.work.slot, t);
        DoneAnswers(s, a.w.b, a.w.h, a.w.curlError, a.w.status, outs, Apply(s, a));
        return;
      }
    } else {
      OnlyDoneTells(s, a);
    }
    assert e.Finals? && e.c.token == t ==> TraceOk(s.ledger, s.work.slot, t);
    QuietAnswers(s, e, t, outs, Apply(s, a));
    assert outs + [] == outs;
  }

  lemma {:induction false} AnswersRun(s: State, acts: seq<Action>, t: nat, outs: seq<Outcome>)
    requires Inv(s) && Legal(s, acts) && Answers(s, t, outs)
    ensures Answers(Exec(s, acts), t, OutcomesOn(s, acts, t, outs))
    decreases |acts|
  {
    if acts == [] {
    } else {
      AnswersStep(s, acts[0], t, outs);
      StepInv(s, acts[0]);
      AnswersRun(Apply(s, acts[0]), acts[1..], t, outs + OutcomeOf(s, acts[0], t));
    }
  }

  /** Over every run: as long as the final callback of a request is awaited, each reported outcome was a curl
      error or a status outside the valid ones, an attempt was left, and a retry answered it; and when the
      final callback has been delivered, the same holds of all but the last outcome, which, if it was
      answered by the final callback, was accepted, or of the last allowed attempt, or came after a chunk. */
  lemma OutcomesAreAnswered(acts: seq<Action>, t: nat)
    requires Legal(INIT, acts) && t in Exec(INIT, acts).ledger.records
    ensures var s, outs := Exec(INIT, acts), Outcomes(acts, t);
      if Awaits(s.ledger, s.work.slot, t)
      then Open(s.ledger.records[t].trace, |outs|, s.ledger.live[t].chunks) && AllRefused(s.ledger.records[t].req, outs, |outs|)
      else Explained(s.ledger.records[t], outs)
  {
    InitInv();
    RunInv(INIT, acts);
    AnswersRun(INIT, acts, t, []);
    assert TraceOk(Exec(INIT, acts).ledger, Exec(INIT, acts).work.slot, t);
  }

  /** An accepted outcome always ends in the final callback: it is the last one reported, and the trace is
      closed by the response of its attempt. */
  lemma AcceptedIsFinal(acts: seq<Action>, t: nat, i: nat)
    requires Legal(INIT, acts) && t in Exec(INIT, acts).ledger.records && i < |Outcomes(acts, t)|
    requires var req := Exec(INIT, acts).ledger.records[t].req; req.Some? && Accepted(req.value, Outcomes(acts, t)[i])
    ensures var trace := Exec(INIT, acts).ledger.records[t].trace;
      i == |Outcomes(acts, t)| - 1 && trace != [] && trace[|trace| - 1] == Final(i + 1)
  {
    OutcomesAreAnswered(acts, t);
    var s, outs := Exec(INIT, acts), Outcomes(acts, t);
    assert !Refused(s.ledger.records[t].req, outs[i], i + 1);
  }

  // ----- The retry delay

  /** The clock reading from which a parked context may be tried again. */
  function DueTime(c: Context): int {
    c.start + (if c.req.Some? then c.req.value.retryDelayMs * MS else 0)
  }

  /** A first attempt may be made at once. */
  predicate Ripe(c: Context, clock: nat) {
    c.attempt > 0 ==> DueTime(c) <= clock
  }

  predicate AllRipe(cs: seq<Context>, clock: nat) {
    forall i :: 0 <= i < |cs| ==> Ripe(cs[i], clock)
  }

  /** Every context on its way to libcurl has waited out its delay. */
  predicate Ripened(w: Work, clock: nat) {
    && AllRipe(w.pending, clock)
    && (w.pc.Scanning? ==> AllRipe(w.pc.kept, clock) && AllRipe(w.pc.ready, clock))
    && (w.pc.Building? ==> AllRipe(w.pc.toBuild, clock))
  }

  /** No context has a start time in the future. */
  predicate NotAhead(l: Ledger, clock: nat) {
    forall t :: t in l.live ==> l.live[t].start <= clock
  }

  lemma DelayInMs(elapsed: int, delay: int)
    requires elapsed >= 0
    ensures ToMs(elapsed) >= delay <==> elapsed >= delay * MS
  {
  }

  /** A retry is told at the current clock reading, by the end of a transfer. */
  lemma RetriesNow(s: State, a: Action)
    requires Kept(s) && Placed(s.work) && Enabled(s, a) && EffectOf(s, a).Retries?
    ensures a.Worker? && a.w.TransferDone? && EffectOf(s, a).next.start == s.limits.clock
  {
    if a.Worker? && a.w.TransferDone? {
      DecisionIs(s, a.w.b, a.w.h, a.w.curlError, a.w.status);
    } else {
      OnlyDoneTells(s, a);
    }
  }

  lemma NotAheadEffect(s: State, e: Effect, clock: nat)
    requires Tokens(s.ledger) && Sound(s, e) && NotAhead(s.ledger, s.limits.clock) && s.limits.clock <= clock
    requires e.Retries? ==> e.next.start == s.limits.clock
    requires e.Adds? ==> e.c.start == 0
    ensures NotAhead(LedgerAfter(s.ledger, e), clock)
  {
  }

  lemma NotAheadAfter(s: State, a: Action)
    requires Shape(s) && Enabled(s, a) && NotAhead(s.ledger, s.limits.clock)
    ensures NotAhead(Apply(s, a).ledger, Apply(s, a).limits.clock)
  {
    EffectsAreSound(s, a);
    EffectsHappen(s, a);
    ClockMoves(s, a);
    if EffectOf(s, a).Retries? { RetriesNow(s, a); }
    NotAheadEffect(s, EffectOf(s, a), Apply(s, a).limits.clock);
  }

  lemma FailedIsPast(s: State, i: nat)
    requires Kept(s) && NotAhead(s.ledger, s.limits.clock) && i < |s.work.failed|
    ensures s.work.failed[i].start <= s.limits.clock
  {
    assert s.work.failed[i] in multiset(s.work.failed);
    PlacedIsLive(s, s.work.failed[i]);
  }

  lemma RipenedClient(s: State, a: ClientAction)
    requires Ripened(s.work, s.limits.clock) && ClientEnabled(s, a)
    ensures Ripened(ApplyClient(s, a).work, ApplyClient(s, a).limits.clock)
  {
    if !a.SubmitCommit? { assert ApplyClient(s, a).work == s.work; }
  }

  lemma RipenedWorker(s: State, a: WorkerAction)
    requires Kept(s) && NotAhead(s.ledger, s.limits.clock) && Ripened(s.work, s.limits.clock) && WorkerEnabled(s, a)
    ensures Ripened(ApplyWorker(s, a).work, s.limits.clock)
  {
    var w := s.work;
    if a.RetryDue? {
      FailedIsPast(s, a.i);
      DelayInMs(s.limits.clock - w.failed[a.i].start, w.failed[a.i].req.value.retryDelayMs);
    } else if a.ScanOne? {
      assert Ripe(w.pending[0], s.limits.clock);
    } else if a.BuildOne? || a.ScanEnd? || a.ScanBegin? {
    } else {
      RipenedRest(s, a);
    }
  }

  lemma RipenedRest(s: State, a: WorkerAction)
    requires Ripened(s.work, s.limits.clock) && WorkerEnabled(s, a)
    requires !a.RetryDue? && !a.ScanOne? && !a.BuildOne? && !a.ScanEnd? && !a.ScanBegin?
    ensures Ripened(ApplyWorker(s, a).work, s.limits.clock)
  {
  }

  lemma RipenedEnd(s: State, a: EndAction)
    requires Ripened(s.work, s.limits.clock) && EndEnabled(s, a)
    ensures Ripened(ApplyEnd(s, a).work, s.limits.clock)
  {
    if a.CancelBegin? {
      var w, ids, groups := s.work, s.desk.cancelIds, s.desk.cancelGroups;
      CancelPartitions(w.pending, ids, groups);
      forall i | 0 <= i < |Spared(w.pending, ids, groups)| ensures Ripe(Spared(w.pending, ids, groups)[i], s.limits.clock) {
        assert Spared(w.pending, ids, groups)[i] in w.pending;
      }
    }
  }

  ghost predicate Timely(s: State) {
    NotAhead(s.ledger, s.limits.clock) && Ripened(s.work, s.limits.clock)
  }

  lemma TimelyStep(s: State, a: Action)
    requires Shape(s) && Timely(s) && Enabled(s, a)
    ensures Timely(Apply(s, a))
  {
    NotAheadAfter(s, a);
    match a
    case Client(c) => RipenedClient(s, c);
    case Worker(w) =>
      RipenedWorker(s, w);
      LimitsHappen(s, a);
      LimitsFrame(s.limits, EffectOf(s, a));
    case End(e) => RipenedEnd(s, e);
  }

  lemma {:induction false} TimelyRun(s: State, acts: seq<Action>)
    requires Shape(s) && Timely(s) && Legal(s, acts)
    ensures Timely(Exec(s, acts))
    decreases |acts|
  {
    if acts == [] {
    } else {
      TimelyStep(s, acts[0]);
      ShapeStep(s, acts[0]);
      TimelyRun(Apply(s, acts[0]), acts[1..]);
    }
  }

  lemma ReachableTimely(s: State)
    requires Reachable(s)
    ensures Timely(s)
  {
    var acts :| Legal(INIT, acts) && Exec(INIT, acts) == s;
    InitInv();
    TimelyRun(INIT, acts);
  }

  /** Between passes, a request of the retry list may be moved to the pending list if and only if its retry
      delay has passed since its retry callback. */
  lemma RetryIsDue(s: State, i: nat)
    requires Reachable(s) && AtRest(s) && LockFree(s) && i < |s.work.failed|
    ensures Enabled(s, Worker(RetryDue(i))) <==> s.limits.clock >= DueTime(s.work.failed[i])
  {
    ReachableInv(s);
    ReachableTimely(s);
    assert Ready(s.work.failed[i]);
    FailedIsPast(s, i);
    DelayInMs(s.limits.clock - s.work.failed[i].start, s.work.failed[i].req.value.retryDelayMs);
  }

  // ----- From a retry to the next start

  /** Since its retry at clock reading `at`, request `t` has not been started again. */
  ghost predicate Pausing(s: State, t: nat, n: nat, at: nat) {
    && t in s.ledger.records && Counts(s, t, n)
    && (Awaits(s.ledger, s.work.slot, t) ==> s.ledger.live[t].start == at && s.ledger.live[t].attempt == n)
  }

  lemma PauseAfter(s: State, e: Effect, t: nat)
    requires Tokens(s.ledger) && Sound(s, e) && t in s.ledger.records
    ensures var l', slot' := LedgerAfter(s.ledger, e), SlotAfter(s.work.slot, e);
      && t in l'.records && l'.records[t].req == s.ledger.records[t].req
      && (Awaits(l', slot', t) ==>
            && Awaits(s.ledger, s.work.slot, t)
            && (l'.live[t].attempt > s.ledger.live[t].attempt
                || (l'.live[t].attempt == s.ledger.live[t].attempt && l'.live[t].start == s.ledger.live[t].start)))
  {
  }

  lemma PauseStep(s: State, a: Action, t: nat, n: nat, at: nat)
    requires Inv(s) && Enabled(s, a) && Pausing(s, t, n, at) && StartOf(s, a, t) == 0
    ensures Pausing(Apply(s, a), t, n, at)
  {
    CountsStep(s, a, t, n);
    ShapeStep(s, a);
    EffectsHappen(s, a);
    PauseAfter(s, EffectOf(s, a), t);
  }

  lemma {:induction false} PauseRun(s: State, acts: seq<Action>, t: nat, n: nat, at: nat)
    requires Inv(s) && Legal(s, acts) && Pausing(s, t, n, at) && Starts(s, acts, t) == 0
    ensures Pausing(Exec(s, acts), t, n, at)
    decreases |acts|
  {
    if acts == [] {
    } else {
      PauseStep(s, acts[0], t, n, at);
      StepInv(s, acts[0]);
      PauseRun(Apply(s, acts[0]), acts[1..], t, n, at);
    }
  }

  lemma RetryLands(s: State, a: Action)
    requires Kept(s) && ReportsRunning(s.work) && Enabled(s, a) && EffectOf(s, a).Retries? && Sound(s, EffectOf(s, a))
    ensures Flying(Apply(s, a).work, EffectOf(s, a).next) == 0
  {
    var e := EffectOf(s, a);
    FlightEffects(s, a);
    StepFlies(s, a, e.next);
    FlyingIsLive(s, e.next);
  }

  lemma RetryPauses(s: State, a: Action, t: nat)
    requires Shape(s) && Enabled(s, a) && EffectOf(s, a).Retries? && EffectOf(s, a).c.token == t
    ensures var s' := Apply(s, a);
      t in s'.ledger.live && s'.ledger.live[t].attempt > 0 && Pausing(s', t, s'.ledger.live[t].attempt, s.limits.clock)
  {
    RetriesNow(s, a);
    PlacedReports(s.work);
    EffectsAreSound(s, a);
    EffectsHappen(s, a);
    RetryLands(s, a);
  }

  /** The retry delay is kept: over every run, from the retry callback of a request to its next transfer the
      clock moves on by at least the request's retry delay. */
  lemma RetriesWait(s: State, a: Action, acts: seq<Action>, next: Action, t: nat)
    requires Reachable(s) && Enabled(s, a) && EffectOf(s, a).Retries? && EffectOf(s, a).c.token == t
    requires Legal(Apply(s, a), acts) && Starts(Apply(s, a), acts, t) == 0
    requires var u := Exec(Apply(s, a), acts); Enabled(u, next) && StartOf(u, next, t) == 1
    ensures var u := Exec(Apply(s, a), acts);
      && t in u.ledger.records && u.ledger.records[t].req.Some?
      && u.limits.clock >= s.limits.clock + u.ledger.records[t].req.value.retryDelayMs * MS
  {
    var s1 := Apply(s, a);
    var u := Exec(s1, acts);
    ReachableInv(s);
    ReachableTimely(s);
    StepInv(s, a);
    TimelyStep(s, a);
    RetryPauses(s, a, t);
    PauseRun(s1, acts, t, s1.ledger.live[t].attempt, s.limits.clock);
    RunInv(s1, acts);
    TimelyRun(s1, acts);
    StartIsRipe(u, next, t, s1.ledger.live[t].attempt, s.limits.clock);
  }

  lemma StartIsRipe(u: State, next: Action, t: nat, n: nat, at: nat)
    requires Shape(u) && Timely(u) && Enabled(u, next) && StartOf(u, next, t) == 1 && Pausing(u, t, n, at) && n > 0
    ensures u.ledger.records[t].req.Some? && u.limits.clock >= at + u.ledger.records[t].req.value.retryDelayMs * MS
  {
    var c := u.work.pc.toBuild[0];
    StartedIsLive(u, next);
    assert Ripe(c, u.limits.clock) && Ready(c) && u.ledger.live[t] == c;
  }
}
