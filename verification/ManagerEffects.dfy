/** Every step has one of eight effects on the ledger; invariants of the ledger are proved per effect. */
module ManagerEffects {
  import opened Wrappers
  import opened Requests
  import opened ManagerSteps
  import opened ManagerConservation
  import opened ManagerPlaces

  datatype Effect =
    | Still
    | Adds(c: Context)
    | Arms(c: Context)
    | Streams(c: Context)
    | Retries(c: Context, next: Context)
    | Finals(c: Context, next: Context, attempt: nat)
    | Disarms(c: Context)
    | Drops(c: Context)

  function DoneEffect(s: State, h: Handler, curlError: bool, status: int): Effect
    requires h.ctx.Some? && h.ctx.value.req.Some?
  {
    var c := h.ctx.value.(attempt := h.ctx.value.attempt + 1);
    if ShouldRetry(c.req.value, c.attempt, curlError, status, h.hasChunk)
    then Retries(h.ctx.value, c.(start := s.limits.clock))
    else Finals(h.ctx.value, c, c.attempt)
  }

  function DestroyEffect(h: Handler): Effect {
    if Running(h) then Finals(h.ctx.value, h.ctx.value, 0) else Still
  }

  function EffectOf(s: State, a: Action): Effect
    requires Enabled(s, a)
  {
    var w := s.work;
    match a
    case Client(SubmitCommit) => Adds(Submitted(s.ledger.nextToken, s.desk.lock.value.req, s.desk.lock.value.hasCallback))
    case Worker(ScanOne) => if Admitted(s.limits, w.pending[0]) then Arms(w.pending[0]) else Still
    case Worker(FinishDoomed) => Finals(w.doomed[0], w.doomed[0], 0)
    case Worker(BuildOne(ok)) =>
      if w.pc.batch.multi && ok then Still else Finals(w.pc.toBuild[0], w.pc.toBuild[0], 0)
    case Worker(BodyChunk(b, h)) => Streams(w.batches[b].handlers[h].ctx.value)
    case Worker(TransferDone(b, h, e, st)) => DoneEffect(s, w.batches[b].handlers[h], e, st)
    case Worker(DrainOne) => DestroyEffect(w.pc.drained.handlers[0])
    case Worker(ReleaseTokens) => Disarms(w.slot.value.ctx)
    case Worker(CompleteGroup) => Drops(w.slot.value.ctx)
    case End(CancelFailed(i)) => Finals(w.failed[i], w.failed[i], 0)
    case End(CancelHandler(b, h)) => DestroyEffect(w.batches[b].handlers[h])
    case _ => Still
  }

  function LedgerAfter(l: Ledger, e: Effect): Ledger {
    match e
    case Still => l
    case Adds(c) => Ledger(l.nextToken + 1, l.live[c.token := c], l.records[c.token := Record(c.req, [])])
    case Arms(c) => Update(l, c.(armed := true))
    case Streams(c) => Deliver(Update(l, c.(chunks := c.chunks + 1)), c.token, Chunk(c.attempt + 1))
    case Retries(c, next) => Deliver(Update(l, next), next.token, Retry(next.attempt))
    case Finals(c, next, n) => Deliver(Update(l, next), next.token, Final(n))
    case Disarms(c) => Update(l, c.(armed := false))
    case Drops(c) => l.(live := l.live - {c.token})
  }

  function SlotAfter(slot: Option<Completion>, e: Effect): Option<Completion> {
    match e
    case Finals(_, next, _) => Some(Completion(next, false))
    case Disarms(c) => Some(Completion(c.(armed := false), true))
    case Drops(_) => None
    case _ => slot
  }

  predicate AtTransfer(a: WorkerAction) {
    a.BuildOne? || a.BodyChunk? || a.TransferDone? || a.DrainOne?
  }

  lemma EffectsTransfer(s: State, a: WorkerAction)
    requires WorkerEnabled(s, a) && AtTransfer(a)
    ensures ApplyWorker(s, a).ledger == LedgerAfter(s.ledger, EffectOf(s, Worker(a)))
    ensures ApplyWorker(s, a).work.slot == SlotAfter(s.work.slot, EffectOf(s, Worker(a)))
  {
  }

  lemma EffectsWorker(s: State, a: WorkerAction)
    requires WorkerEnabled(s, a)
    ensures ApplyWorker(s, a).ledger == LedgerAfter(s.ledger, EffectOf(s, Worker(a)))
    ensures ApplyWorker(s, a).work.slot == SlotAfter(s.work.slot, EffectOf(s, Worker(a)))
  {
    if AtTransfer(a) { EffectsTransfer(s, a); }
  }

  /** The effect tells what a step does to the ledger and to the completion slot. */
  lemma EffectsHappen(s: State, a: Action)
    requires Enabled(s, a)
    ensures Apply(s, a).ledger == LedgerAfter(s.ledger, EffectOf(s, a))
    ensures Apply(s, a).work.slot == SlotAfter(s.work.slot, EffectOf(s, a))
  {
    match a
    case Client(c) =>
    case Worker(w) => EffectsWorker(s, w);
    case End(e) =>
  }

  // ----- When an effect can happen

  predicate IsLive(l: Ledger, c: Context) {
    c.token in l.live && l.live[c.token] == c
  }

  ghost predicate Sound(s: State, e: Effect) {
    var l, slot := s.ledger, s.work.slot;
    match e
    case Still => true
    case Adds(c) =>
      && c.token == l.nextToken && !c.armed && c.attempt == 0 && c.chunks == 0
      && (slot.Some? ==> IsLive(l, slot.value.ctx))
    case Arms(c) => IsLive(l, c) && slot.None? && Admitted(s.limits, c)
    case Streams(c) => IsLive(l, c) && slot.None? && c.armed
    case Retries(c, next) =>
      && IsLive(l, c) && slot.None? && c.armed && c.chunks == 0
      && next == c.(attempt := c.attempt + 1, start := next.start)
      && next.req.Some? && next.attempt < next.req.value.retryAttempts
    case Finals(c, next, n) =>
      && IsLive(l, c) && slot.None? && next == c.(attempt := next.attempt) && (n == 0 || n == c.attempt + 1)
    case Disarms(c) => IsLive(l, c) && slot.Some? && slot.value.ctx == c
    case Drops(c) => IsLive(l, c) && slot.Some? && slot.value.ctx == c && !c.armed
  }

  lemma PlacedIsLive(s: State, c: Context)
    requires Kept(s) && Occurs(s.work, c) > 0
    ensures IsLive(s.ledger, c)
  {
    assert Once(s.ledger.live, c) == 1;
  }

  lemma DestroySound(s: State, h: Handler)
    requires Kept(s) && s.work.slot.None? && (Running(h) ==> Occurs(s.work, h.ctx.value) > 0)
    ensures Sound(s, DestroyEffect(h))
  {
    if Running(h) { PlacedIsLive(s, h.ctx.value); }
  }

  lemma DoneSound(s: State, b: nat, h: nat, curlError: bool, status: int)
    requires Kept(s) && Placed(s.work) && s.work.slot.None? && Reporting(s.work, b, h)
    ensures Sound(s, DoneEffect(s, s.work.batches[b].handlers[h], curlError, status))
  {
    HandlerIsOk(s.work, b, h);
    RunningOccurs(s.work, b, h);
    PlacedIsLive(s, s.work.batches[b].handlers[h].ctx.value);
  }

  lemma ScanIsSound(s: State, a: WorkerAction)
    requires Kept(s) && Phased(s) && WorkerEnabled(s, a) && (a.ScanOne? || a.FinishDoomed? || a.BuildOne?)
    ensures Sound(s, EffectOf(s, Worker(a)))
  {
    var w := s.work;
    var cs := if a.ScanOne? then w.pending else if a.FinishDoomed? then w.doomed else w.pc.toBuild;
    HeadIn(cs, cs[0]);
    PlacedIsLive(s, cs[0]);
  }

  lemma TransferIsSound(s: State, a: WorkerAction)
    requires Kept(s) && Placed(s.work) && WorkerEnabled(s, a) && (a.BodyChunk? || a.TransferDone? || a.DrainOne?)
    ensures Sound(s, EffectOf(s, Worker(a)))
  {
    match a
    case BodyChunk(b, h) =>
      HandlerIsOk(s.work, b, h);
      RunningOccurs(s.work, b, h);
      PlacedIsLive(s, s.work.batches[b].handlers[h].ctx.value);
    case TransferDone(b, h, e, st) => DoneSound(s, b, h, e, st);
    case DrainOne => DestroySound(s, s.work.pc.drained.handlers[0]);
  }

  lemma WorkerIsSound(s: State, a: WorkerAction)
    requires Kept(s) && Placed(s.work) && Phased(s) && WorkerEnabled(s, a)
    ensures Sound(s, EffectOf(s, Worker(a)))
  {
    if a.ScanOne? || a.FinishDoomed? || a.BuildOne? {
      ScanIsSound(s, a);
    } else if a.BodyChunk? || a.TransferDone? || a.DrainOne? {
      TransferIsSound(s, a);
    } else if a.ReleaseTokens? || a.CompleteGroup? {
      PlacedIsLive(s, s.work.slot.value.ctx);
    }
  }

  lemma EndIsSound(s: State, a: EndAction)
    requires Kept(s) && Placed(s.work) && EndEnabled(s, a)
    ensures Sound(s, EffectOf(s, End(a)))
  {
    var w := s.work;
    if a.CancelFailed? {
      WithoutIn(w.failed, a.i, w.failed[a.i]);
      PlacedIsLive(s, w.failed[a.i]);
    } else if a.CancelHandler? {
      if Running(w.batches[a.b].handlers[a.h]) { RunningOccurs(w, a.b, a.h); }
      DestroySound(s, w.batches[a.b].handlers[a.h]);
    }
  }

  lemma EffectsAreSound(s: State, a: Action)
    requires Kept(s) && Placed(s.work) && Phased(s) && Enabled(s, a)
    ensures Sound(s, EffectOf(s, a))
  {
    match a
    case Client(c) => if c.SubmitCommit? && s.work.slot.Some? { PlacedIsLive(s, s.work.slot.value.ctx); }
    case Worker(w) => WorkerIsSound(s, w);
    case End(e) => EndIsSound(s, e);
  }
}
