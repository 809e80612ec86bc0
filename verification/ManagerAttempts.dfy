/** How often a request is put on the wire. */
module ManagerAttempts {
  import opened Wrappers
  import opened Requests
  import opened ManagerSteps
  import opened ManagerConservation
  import opened ManagerPlaces
  import opened ManagerEffects
  import opened ManagerTraces
  import opened ManagerTheorems

  /** A step hands request `t` to libcurl: its easy handle exists and is added to the multi handle. */
  function StartOf(s: State, a: Action, t: nat): nat
    requires Enabled(s, a)
  {
    if a.Worker? && a.w.BuildOne? && s.work.pc.batch.multi && a.w.easyOk && s.work.pc.toBuild[0].token == t then 1 else 0
  }

  /** Transfers of `t` started in a run, however they end. */
  ghost function Starts(s: State, acts: seq<Action>, t: nat): nat
    requires Legal(s, acts)
    decreases |acts|
  {
    if acts == [] then 0 else StartOf(s, acts[0], t) + Starts(Apply(s, acts[0]), acts[1..], t)
  }

  // ----- Transfers in flight

  function InFlight(bs: seq<Batch>, x: Context): nat {
    if bs == [] then 0 else InHandlers(bs[0].handlers, x) + InFlight(bs[1..], x)
  }

  /** Running handlers that hold `x`: in the batches, and in the batch the worker builds or drains. */
  function Flying(w: Work, x: Context): nat {
    InFlight(w.batches, x) +
    match w.pc
    case Building(_, batch) => InHandlers(batch.handlers, x)
    case Draining(batch) => InHandlers(batch.handlers, x)
    case _ => 0
  }

  lemma {:induction false} FlightsSplit(a: seq<Batch>, b: seq<Batch>, x: Context)
    ensures InFlight(a + b, x) == InFlight(a, x) + InFlight(b, x)
  {
    if a == [] {
      assert a + b == b;
    } else {
      assert (a + b)[1..] == a[1..] + b;
      FlightsSplit(a[1..], b, x);
    }
  }

  lemma FlightsAt(bs: seq<Batch>, b: nat, y: Batch, x: Context)
    requires b < |bs|
    ensures InFlight(bs, x) == InFlight(Without(bs, b), x) + InHandlers(bs[b].handlers, x)
    ensures InFlight(bs[b := y], x) == InFlight(Without(bs, b), x) + InHandlers(y.handlers, x)
  {
    var a, c := bs[..b], bs[b + 1..];
    FlightsSplit(a, c, x);
    FlightsSplit(a, bs[b..], x);
    assert bs == a + bs[b..] && bs[b..][1..] == c;
    FlightsSplit(a, bs[b := y][b..], x);
    assert bs[b := y] == a + bs[b := y][b..] && bs[b := y][b..][1..] == c;
  }

  lemma {:induction false} FlightsAreIn(bs: seq<Batch>, x: Context)
    ensures InFlight(bs, x) <= InBatches(bs, x)
  {
    if bs == [] {
    } else {
      FlightsAreIn(bs[1..], x);
    }
  }

  /** A context in flight is nowhere else. */
  lemma FlyingOccurs(w: Work, x: Context)
    ensures Flying(w, x) + InList(w.pending, x) <= Occurs(w, x)
  {
    FlightsAreIn(w.batches, x);
  }

  // ----- What a step does to the transfers in flight

  function Landing(h: Handler): Option<Context> {
    if Running(h) then h.ctx else None
  }

  /** The context that leaves a running handler, and the one that enters one. */
  function Leaves(s: State, a: Action): Option<Context>
    requires Enabled(s, a)
  {
    var w := s.work;
    match a
    case Worker(BodyChunk(b, h)) => w.batches[b].handlers[h].ctx
    case Worker(TransferDone(b, h, _, _)) => w.batches[b].handlers[h].ctx
    case Worker(DrainOne) => Landing(w.pc.drained.handlers[0])
    case End(CancelHandler(b, h)) => Landing(w.batches[b].handlers[h])
    case _ => None
  }

  function Enters(s: State, a: Action): Option<Context>
    requires Enabled(s, a)
  {
    var w := s.work;
    match a
    case Worker(BuildOne(ok)) => if w.pc.batch.multi && ok then Some(w.pc.toBuild[0]) else None
    case Worker(BodyChunk(b, h)) =>
      var c := w.batches[b].handlers[h].ctx.value;
      Some(c.(chunks := c.chunks + 1))
    case _ => None
  }

  function IsIt(o: Option<Context>, x: Context): nat {
    if o.Some? then Is(o.value, x) else 0
  }

  ghost predicate Flies(s: State, a: Action, x: Context)
    requires Enabled(s, a)
  {
    Flying(Apply(s, a).work, x) + IsIt(Leaves(s, a), x) == Flying(s.work, x) + IsIt(Enters(s, a), x)
  }

  lemma HandlerFlies(w: Work, b: nat, h: nat, y: Handler, batch: Batch, x: Context)
    requires HandlerAt(w, b, h) && batch.handlers == w.batches[b].handlers[h := y]
    ensures Flying(w.(batches := w.batches[b := batch]), x) + InHandler(w.batches[b].handlers[h], x)
         == Flying(w, x) + InHandler(y, x)
  {
    HandlersAt(w.batches[b].handlers, h, y, x);
    FlightsAt(w.batches, b, batch, x);
  }

  lemma ChunkFlies(s: State, b: nat, h: nat, x: Context)
    requires WorkerEnabled(s, BodyChunk(b, h)) && ReportsRunning(s.work)
    ensures Flies(s, Worker(BodyChunk(b, h)), x)
  {
    var handler := s.work.batches[b].handlers[h];
    var c := handler.ctx.value.(chunks := handler.ctx.value.chunks + 1);
    var y := handler.(ctx := Some(c), hasChunk := true);
    HandlerFlies(s.work, b, h, y, s.work.batches[b].(handlers := s.work.batches[b].handlers[h := y]), x);
  }

  lemma DoneFlies(s: State, b: nat, h: nat, curlError: bool, status: int, x: Context)
    requires WorkerEnabled(s, TransferDone(b, h, curlError, status)) && ReportsRunning(s.work)
    ensures Flies(s, Worker(TransferDone(b, h, curlError, status)), x)
  {
    var w, w' := s.work, DoDone(s, b, h, curlError, status).work;
    var batch := w'.batches[b];
    assert batch.handlers == w.batches[b].handlers[h := batch.handlers[h]] && !Running(batch.handlers[h]);
    assert w'.batches == w.batches[b := batch] && w'.pc == w.pc;
    HandlerFlies(w, b, h, batch.handlers[h], batch, x);
  }

  lemma BuildFlies(s: State, easyOk: bool, x: Context)
    requires WorkerEnabled(s, BuildOne(easyOk))
    ensures Flies(s, Worker(BuildOne(easyOk)), x)
  {
    var c, b := s.work.pc.toBuild[0], s.work.pc.batch;
    var h := Handler(Some(c), false, false, true);
    HandlersSplit(b.handlers, [h], x);
    assert InHandlers([h], x) == Is(c, x);
  }

  lemma WorkerFlies(s: State, a: WorkerAction, x: Context)
    requires WorkerEnabled(s, a) && ReportsRunning(s.work)
    ensures Flies(s, Worker(a), x)
  {
    if a.BuildOne? {
      BuildFlies(s, a.easyOk, x);
    } else if a.BodyChunk? {
      ChunkFlies(s, a.b, a.h, x);
    } else if a.TransferDone? {
      DoneFlies(s, a.b, a.h, a.curlError, a.status, x);
    } else {
      OthersFly(s, a, x);
    }
  }

  lemma OthersFly(s: State, a: WorkerAction, x: Context)
    requires WorkerEnabled(s, a) && !a.BuildOne? && !a.BodyChunk? && !a.TransferDone?
    ensures Flies(s, Worker(a), x)
  {
    if a.BatchFinished? {
      FlightsAt(s.work.batches, a.b, s.work.batches[a.b], x);
    } else if a.BuildEnd? {
      FlightsSplit(s.work.batches, [s.work.pc.batch], x);
      assert InFlight([s.work.pc.batch], x) == InHandlers(s.work.pc.batch.handlers, x);
    } else if a.DrainOne? {
      DrainFlies(s, x);
    }
  }

  lemma DrainFlies(s: State, x: Context)
    requires WorkerEnabled(s, DrainOne)
    ensures Flies(s, Worker(DrainOne), x)
  {
    var b := s.work.pc.drained;
    var w := s.work.(pc := Draining(b.(handlers := b.handlers[1..])));
    DestroyPlaces(s, w, b.handlers[0]);
  }

  lemma HandlerLands(w: Work, b: nat, h: nat, x: Context)
    requires HandlerAt(w, b, h)
    ensures Flying(DropHandler(w, b, h), x) + InHandler(w.batches[b].handlers[h], x) == Flying(w, x)
  {
    var handlers := w.batches[b].handlers;
    HandlersAt(handlers, h, handlers[h], x);
    FlightsAt(w.batches, b, w.batches[b].(handlers := Without(handlers, h)), x);
  }

  lemma DropFlies(s: State, b: nat, h: nat, x: Context)
    requires EndEnabled(s, CancelHandler(b, h))
    ensures Flies(s, End(CancelHandler(b, h)), x)
  {
    var w, handler := DropHandler(s.work, b, h), s.work.batches[b].handlers[h];
    HandlerLands(s.work, b, h, x);
    DestroyPlaces(s, w, handler);
    assert Apply(s, End(CancelHandler(b, h))) == Destroy(s, w, handler);
    assert Flying(Destroy(s, w, handler).work, x) == Flying(w, x);
  }

  lemma EndFlies(s: State, a: EndAction, x: Context)
    requires EndEnabled(s, a)
    ensures Flies(s, End(a), x)
  {
    if a.CancelHandler? { DropFlies(s, a.b, a.h, x); }
  }

  lemma StepFlies(s: State, a: Action, x: Context)
    requires Enabled(s, a) && ReportsRunning(s.work)
    ensures Flies(s, a, x)
  {
    match a
    case Client(c) => assert Apply(s, a).work.batches == s.work.batches && Apply(s, a).work.pc == s.work.pc;
    case Worker(w) => WorkerFlies(s, w, x);
    case End(e) => EndFlies(s, e, x);
  }

  // ----- The count of starts

  predicate WithinAttempts(req: Option<Request>, n: nat) {
    n <= 1 || (req.Some? && n <= req.value.retryAttempts)
  }

  /** While `t` awaits its final callback, the starts are the attempts that ended in a retry and the
      transfer in flight, if any. */
  ghost predicate Counts(s: State, t: nat, n: nat) {
    if t !in s.ledger.records then n == 0
    else if Awaits(s.ledger, s.work.slot, t) then n == s.ledger.live[t].attempt + Flying(s.work, s.ledger.live[t])
    else WithinAttempts(s.ledger.records[t].req, n)
  }

  /** A context that is not live is not in flight, and a live one at most once. */
  lemma FlyingIsLive(s: State, x: Context)
    requires Kept(s)
    ensures Flying(s.work, x) <= if IsLive(s.ledger, x) then 1 else 0
  {
    FlyingOccurs(s.work, x);
    assert Occurs(s.work, x) == Once(s.ledger.live, x);
  }

  predicate Starting(s: State, a: Action)
    requires Enabled(s, a)
  {
    a.Worker? && a.w.BuildOne? && s.work.pc.batch.multi && a.w.easyOk
  }

  /** Contexts enter and leave flight with the effect they cause, or by being started. */
  predicate FlightEffect(s: State, a: Action)
    requires Enabled(s, a)
  {
    var e, out, into := EffectOf(s, a), Leaves(s, a), Enters(s, a);
    && (out.Some? ==> (e.Streams? || e.Retries? || e.Finals?) && e.c == out.value)
    && (e.Streams? ==> out == Some(e.c) && into == Some(e.c.(chunks := e.c.chunks + 1)))
    && (e.Retries? ==> out == Some(e.c))
    && (into.Some? ==> e.Streams? || Starting(s, a))
    && (Starting(s, a) ==> e.Still? && into == Some(s.work.pc.toBuild[0]))
  }

  lemma FlightEffects(s: State, a: Action)
    requires Enabled(s, a) && ReportsRunning(s.work)
    ensures FlightEffect(s, a)
  {
    match a
    case Client(c) =>
    case Worker(w) => WorkerEffects(s, w);
    case End(e) =>
  }

  lemma WorkerEffects(s: State, a: WorkerAction)
    requires WorkerEnabled(s, a) && ReportsRunning(s.work)
    ensures FlightEffect(s, Worker(a))
  {
  }

  lemma StartedIsLive(s: State, a: Action)
    requires Kept(s) && Enabled(s, a) && Starting(s, a)
    ensures IsLive(s.ledger, s.work.pc.toBuild[0]) && s.work.slot.None?
  {
    HeadIn(s.work.pc.toBuild, s.work.pc.toBuild[0]);
    PlacedIsLive(s, s.work.pc.toBuild[0]);
  }

  /** What the proof of one step knows: the effect, its soundness and the transfers in flight. */
  ghost predicate Stepping(s: State, a: Action, e: Effect)
    requires Enabled(s, a)
  {
    && Kept(s) && Tokens(s.ledger) && e == EffectOf(s, a) && Sound(s, e)
    && Apply(s, a).ledger == LedgerAfter(s.ledger, e) && Apply(s, a).work.slot == SlotAfter(s.work.slot, e)
  }

  lemma StepsSo(s: State, a: Action)
    requires Inv(s) && Enabled(s, a)
    ensures Stepping(s, a, EffectOf(s, a)) && ReportsRunning(s.work)
  {
    PlacedReports(s.work);
    ShapeStep(s, a);
    EffectsHappen(s, a);
  }

  /** A step about another request changes the count only by starting `t`. */
  lemma OtherCounts(s: State, a: Action, e: Effect, t: nat, n: nat)
    requires Enabled(s, a) && Stepping(s, a, e) && ReportsRunning(s.work) && Counts(s, t, n)
    requires e.Still? || e.c.token != t
    ensures Counts(Apply(s, a), t, n + StartOf(s, a, t))
  {
    FlightEffects(s, a);
    if Starting(s, a) { StartedIsLive(s, a); }
    OtherStays(s, e, t);
    if Awaits(s.ledger, s.work.slot, t) {
      var x := s.ledger.live[t];
      StepFlies(s, a, x);
      assert IsIt(Leaves(s, a), x) == 0;
      assert IsIt(Enters(s, a), x) == StartOf(s, a, t);
    } else {
      assert StartOf(s, a, t) == 0;
    }
  }

  lemma OtherStays(s: State, e: Effect, t: nat)
    requires Tokens(s.ledger) && Sound(s, e) && (e.Still? || e.c.token != t)
    ensures var l', slot' := LedgerAfter(s.ledger, e), SlotAfter(s.work.slot, e);
      && (t in l'.records <==> t in s.ledger.records) && (t in l'.records ==> l'.records[t] == s.ledger.records[t])
      && (Awaits(l', slot', t) <==> Awaits(s.ledger, s.work.slot, t))
      && (t in s.ledger.live ==> t in l'.live && l'.live[t] == s.ledger.live[t])
  {
  }

  lemma StartsAfresh(s: State, a: Action, e: Effect, n: nat)
    requires Enabled(s, a) && Stepping(s, a, e) && ReportsRunning(s.work) && e.Adds? && Counts(s, e.c.token, n)
    ensures Counts(Apply(s, a), e.c.token, n)
  {
    FlightEffects(s, a);
    StepFlies(s, a, e.c);
    assert e.c.token !in s.ledger.records && !IsLive(s.ledger, e.c);
    FlyingIsLive(s, e.c);
  }

  lemma ArmingCounts(s: State, a: Action, e: Effect, n: nat)
    requires Enabled(s, a) && Stepping(s, a, e) && ReportsRunning(s.work) && e.Arms? && Counts(s, e.c.token, n)
    ensures Counts(Apply(s, a), e.c.token, n)
  {
    var c, c' := e.c, e.c.(armed := true);
    FlightEffects(s, a);
    assert a == Worker(ScanOne) && c == s.work.pending[0];
    HeadIn(s.work.pending, c);
    FlyingOccurs(s.work, c);
    assert Occurs(s.work, c) == Once(s.ledger.live, c);
    StepFlies(s, a, c');
    FlyingIsLive(s, c');
  }

  lemma TransferCounts(s: State, a: Action, e: Effect, n: nat)
    requires Enabled(s, a) && Stepping(s, a, e) && ReportsRunning(s.work) && (e.Streams? || e.Retries?)
    requires Counts(s, e.c.token, n)
    ensures Counts(Apply(s, a), e.c.token, n)
  {
    var c' := if e.Streams? then e.c.(chunks := e.c.chunks + 1) else e.next;
    FlightEffects(s, a);
    assert c' != e.c && !IsLive(s.ledger, c');
    StepFlies(s, a, e.c);
    StepFlies(s, a, c');
    FlyingIsLive(s, e.c);
    FlyingIsLive(s, c');
  }

  lemma FinalCounts(s: State, a: Action, e: Effect, n: nat)
    requires Enabled(s, a) && Stepping(s, a, e) && e.Finals? && Counts(s, e.c.token, n)
    requires e.c.token in s.ledger.records && TraceOk(s.ledger, s.work.slot, e.c.token)
    ensures Counts(Apply(s, a), e.c.token, n)
  {
    FlyingIsLive(s, e.c);
  }

  lemma CountsStep(s: State, a: Action, t: nat, n: nat)
    requires Inv(s) && Enabled(s, a) && Counts(s, t, n)
    ensures Counts(Apply(s, a), t, n + StartOf(s, a, t))
  {
    var e := EffectOf(s, a);
    StepsSo(s, a);
    FlightEffects(s, a);
    if e.Still? || e.c.token != t {
      OtherCounts(s, a, e, t, n);
    } else if e.Adds? {
      StartsAfresh(s, a, e, n);
    } else if e.Arms? {
      ArmingCounts(s, a, e, n);
    } else if e.Streams? || e.Retries? {
      TransferCounts(s, a, e, n);
    } else if e.Finals? {
      assert t in s.ledger.records && TraceOk(s.ledger, s.work.slot, t);
      FinalCounts(s, a, e, n);
    }
  }

  lemma {:induction false} CountsRun(s: State, acts: seq<Action>, t: nat, n: nat)
    requires Inv(s) && Legal(s, acts) && Counts(s, t, n)
    ensures Counts(Exec(s, acts), t, n + Starts(s, acts, t))
    decreases |acts|
  {
    if acts == [] {
    } else {
      CountsStep(s, acts[0], t, n);
      StepInv(s, acts[0]);
      CountsRun(Apply(s, acts[0]), acts[1..], t, n + StartOf(s, acts[0], t));
    }
  }

  /** In any run of the manager the transfers started for a request are exactly its attempts that ended in
      a retry and the one in flight, if any, as long as its final callback is awaited. */
  lemma StartsAreAttempts(acts: seq<Action>, t: nat)
    requires Legal(INIT, acts) && Awaits(Exec(INIT, acts).ledger, Exec(INIT, acts).work.slot, t)
    ensures var s := Exec(INIT, acts);
      Starts(INIT, acts, t) == s.ledger.live[t].attempt + Flying(s.work, s.ledger.live[t])
  {
    InitInv();
    RunInv(INIT, acts);
    CountsRun(INIT, acts, t, 0);
  }

  /** In any run of the manager a request is put on the wire at most max(1, retry_attempts) times, whether
      its transfers finish, are cancelled or are destroyed with their batch. */
  lemma AttemptsAreBounded(acts: seq<Action>, t: nat)
    requires Legal(INIT, acts) && t in Exec(INIT, acts).ledger.records
    ensures WithinAttempts(Exec(INIT, acts).ledger.records[t].req, Starts(INIT, acts, t))
  {
    InitInv();
    RunInv(INIT, acts);
    CountsRun(INIT, acts, t, 0);
    assert TraceOk(Exec(INIT, acts).ledger, Exec(INIT, acts).work.slot, t);
    CountsBound(Exec(INIT, acts), t, Starts(INIT, acts, t));
  }

  lemma CountsBound(s: State, t: nat, n: nat)
    requires Kept(s) && Tokens(s.ledger) && t in s.ledger.records && TraceOk(s.ledger, s.work.slot, t) && Counts(s, t, n)
    ensures WithinAttempts(s.ledger.records[t].req, n)
  {
    if Awaits(s.ledger, s.work.slot, t) { FlyingIsLive(s, s.ledger.live[t]); }
  }
}
