/** Conservation: every submitted, uncompleted request is in exactly one of the manager's lists. */
module ManagerConservation {
  import opened Wrappers
  import opened Requests
  import opened ManagerSteps

  // ----- How often a context occurs in each place

  function Is(c: Context, x: Context): nat {
    if c == x then 1 else 0
  }

  function InList(cs: seq<Context>, x: Context): nat {
    multiset(cs)[x]
  }

  function InHandler(h: Handler, x: Context): nat {
    if Running(h) then Is(h.ctx.value, x) else 0
  }

  function InHandlers(hs: seq<Handler>, x: Context): nat {
    if hs == [] then 0 else InHandler(hs[0], x) + InHandlers(hs[1..], x)
  }

  function InBatch(b: Batch, x: Context): nat {
    InHandlers(b.handlers, x) + InList(b.failed, x)
  }

  function InBatches(bs: seq<Batch>, x: Context): nat {
    if bs == [] then 0 else InBatch(bs[0], x) + InBatches(bs[1..], x)
  }

  function InPc(pc: Pc, x: Context): nat {
    match pc
    case Scanning(kept, ready) => InList(kept, x) + InList(ready, x)
    case Building(toBuild, batch) => InList(toBuild, x) + InBatch(batch, x)
    case Draining(batch) => InBatch(batch, x)
    case _ => 0
  }

  function InSlot(slot: Option<Completion>, x: Context): nat {
    if slot.Some? then Is(slot.value.ctx, x) else 0
  }

  /** Occurrences over pending list, retry list, live handlers, batch-local retry lists and the
      worker's own hands. */
  function Occurs(w: Work, x: Context): nat {
    InList(w.pending, x) + InList(w.failed, x) + InList(w.doomed, x) + InList(w.lost, x)
    + InPc(w.pc, x) + InSlot(w.slot, x) + InBatches(w.batches, x)
  }

  function Once(live: map<nat, Context>, x: Context): nat {
    if x.token in live && live[x.token] == x then 1 else 0
  }

  /** Each live request occupies exactly one place, and nothing else occupies any. */
  ghost predicate Conserved(w: Work, live: map<nat, Context>) {
    forall x :: Occurs(w, x) == Once(live, x)
  }

  // ----- Ledger arithmetic: contexts only move, or one is swapped for its next version

  ghost predicate Moves(w: Work, w': Work) {
    forall x :: Occurs(w', x) == Occurs(w, x)
  }

  /** `c` leaves its place. */
  ghost predicate Takes(w: Work, w': Work, c: Context) {
    forall x :: Occurs(w, x) == Occurs(w', x) + Is(c, x)
  }

  /** `c` leaves its place and `c'` enters some place. */
  ghost predicate Swaps(w: Work, w': Work, c: Context, c': Context) {
    forall x :: Occurs(w', x) + Is(c, x) == Occurs(w, x) + Is(c', x)
  }

  lemma SwapsConserve(w: Work, w': Work, live: map<nat, Context>, c: Context, c': Context)
    requires Conserved(w, live) && Swaps(w, w', c, c') && c'.token == c.token && Occurs(w, c) > 0
    ensures Conserved(w', live[c.token := c'])
  {
    assert Once(live, c) == 1;
    forall x ensures Occurs(w', x) == Once(live[c.token := c'], x) {
      assert Occurs(w, x) == Once(live, x);
    }
  }

  // ----- Lists of handlers and batches

  lemma {:induction false} HandlersSplit(a: seq<Handler>, b: seq<Handler>, x: Context)
    ensures InHandlers(a + b, x) == InHandlers(a, x) + InHandlers(b, x)
  {
    if a == [] {
      assert a + b == b;
    } else {
      assert (a + b)[1..] == a[1..] + b;
      HandlersSplit(a[1..], b, x);
    }
  }

  lemma HandlersAt(hs: seq<Handler>, h: nat, y: Handler, x: Context)
    requires h < |hs|
    ensures InHandlers(hs, x) == InHandlers(Without(hs, h), x) + InHandler(hs[h], x)
    ensures InHandlers(hs[h := y], x) == InHandlers(Without(hs, h), x) + InHandler(y, x)
  {
    var a, b := hs[..h], hs[h + 1..];
    HandlersSplit(a, b, x);
    HandlersSplit(a, hs[h..], x);
    assert hs == a + hs[h..] && hs[h..][1..] == b;
    HandlersSplit(a, hs[h := y][h..], x);
    assert hs[h := y] == a + hs[h := y][h..] && hs[h := y][h..][1..] == b;
  }

  lemma {:induction false} BatchesSplit(a: seq<Batch>, b: seq<Batch>, x: Context)
    ensures InBatches(a + b, x) == InBatches(a, x) + InBatches(b, x)
  {
    if a == [] {
      assert a + b == b;
    } else {
      assert (a + b)[1..] == a[1..] + b;
      BatchesSplit(a[1..], b, x);
    }
  }

  lemma BatchesAt(bs: seq<Batch>, b: nat, y: Batch, x: Context)
    requires b < |bs|
    ensures InBatches(bs, x) == InBatches(Without(bs, b), x) + InBatch(bs[b], x)
    ensures InBatches(bs[b := y], x) == InBatches(Without(bs, b), x) + InBatch(y, x)
  {
    var a, c := bs[..b], bs[b + 1..];
    BatchesSplit(a, c, x);
    BatchesSplit(a, bs[b..], x);
    assert bs == a + bs[b..] && bs[b..][1..] == c;
    BatchesSplit(a, bs[b := y][b..], x);
    assert bs[b := y] == a + bs[b := y][b..] && bs[b := y][b..][1..] == c;
  }

  lemma HeadIn(cs: seq<Context>, x: Context)
    requires cs != []
    ensures InList(cs, x) == InList(cs[1..], x) + Is(cs[0], x)
  {
    assert cs == [cs[0]] + cs[1..];
  }

  lemma TailIn(cs: seq<Context>, c: Context, x: Context)
    ensures InList(cs + [c], x) == InList(cs, x) + Is(c, x)
  {
  }

  lemma ListsIn(a: seq<Context>, b: seq<Context>, x: Context)
    ensures InList(a + b, x) == InList(a, x) + InList(b, x)
  {
  }

  lemma WithoutIn(cs: seq<Context>, i: nat, x: Context)
    requires i < |cs|
    ensures InList(cs, x) == InList(Without(cs, i), x) + Is(cs[i], x)
  {
  }

  lemma HandlerChanges(w: Work, b: nat, h: nat, y: Handler, x: Context)
    requires HandlerAt(w, b, h)
    ensures Occurs(SetHandler(w, b, h, y), x) + InHandler(w.batches[b].handlers[h], x) == Occurs(w, x) + InHandler(y, x)
  {
    HandlersAt(w.batches[b].handlers, h, y, x);
    BatchesAt(w.batches, b, w.batches[b].(handlers := w.batches[b].handlers[h := y]), x);
  }

  lemma RunningOccurs(w: Work, b: nat, h: nat)
    requires HandlerAt(w, b, h) && Running(w.batches[b].handlers[h])
    ensures Occurs(w, w.batches[b].handlers[h].ctx.value) > 0
  {
    var handler := w.batches[b].handlers[h];
    HandlersAt(w.batches[b].handlers, h, handler, handler.ctx.value);
    BatchesAt(w.batches, b, w.batches[b], handler.ctx.value);
  }

  // ----- What each move of the worker does to the places

  lemma AdmitSwaps(w: Work, c': Context)
    requires w.pc.Scanning? && w.pending != []
    ensures Swaps(w, w.(pending := w.pending[1..], pc := w.pc.(ready := w.pc.ready + [c'])), w.pending[0], c')
    ensures Occurs(w, w.pending[0]) > 0
  {
    var c, w' := w.pending[0], w.(pending := w.pending[1..], pc := w.pc.(ready := w.pc.ready + [c']));
    forall x ensures Occurs(w', x) + Is(c, x) == Occurs(w, x) + Is(c', x) {
      HeadIn(w.pending, x);
      TailIn(w.pc.ready, c', x);
    }
    HeadIn(w.pending, c);
  }

  lemma KeepMoves(w: Work)
    requires w.pc.Scanning? && w.pending != []
    ensures Moves(w, w.(pending := w.pending[1..], pc := w.pc.(kept := w.pc.kept + [w.pending[0]])))
  {
    var c, w' := w.pending[0], w.(pending := w.pending[1..], pc := w.pc.(kept := w.pc.kept + [w.pending[0]]));
    forall x ensures Occurs(w', x) == Occurs(w, x) {
      HeadIn(w.pending, x);
      TailIn(w.pc.kept, c, x);
    }
  }

  lemma DoomMoves(w: Work)
    requires w.pending != []
    ensures Moves(w, w.(pending := w.pending[1..], doomed := w.doomed + [w.pending[0]]))
  {
    var c, w' := w.pending[0], w.(pending := w.pending[1..], doomed := w.doomed + [w.pending[0]]);
    forall x ensures Occurs(w', x) == Occurs(w, x) {
      HeadIn(w.pending, x);
      TailIn(w.doomed, c, x);
    }
  }

  lemma ScanEndMoves(w: Work, multiOk: bool)
    requires w.pc.Scanning? && w.pending == []
    ensures Moves(w, ScanEnded(w, multiOk))
  {
    forall x ensures Occurs(ScanEnded(w, multiOk), x) == Occurs(w, x) {}
  }

  lemma DoomedTakes(w: Work)
    requires w.doomed != []
    ensures Takes(w, w.(doomed := w.doomed[1..]), w.doomed[0])
  {
    forall x ensures Occurs(w, x) == Occurs(w.(doomed := w.doomed[1..]), x) + Is(w.doomed[0], x) {
      HeadIn(w.doomed, x);
    }
  }

  lemma BuildMoves(w: Work)
    requires w.pc.Building? && w.pc.toBuild != []
    ensures var c, b, rest := w.pc.toBuild[0], w.pc.batch, w.pc.toBuild[1..];
      && Takes(w, w.(pc := Building(rest, b)), c)
      && Moves(w, w.(pc := Building(rest, b.(handlers := b.handlers + [Handler(Some(c), false, false, true)]))))
  {
    var c, b, rest := w.pc.toBuild[0], w.pc.batch, w.pc.toBuild[1..];
    var h := Handler(Some(c), false, false, true);
    var w1, w2 := w.(pc := Building(rest, b)), w.(pc := Building(rest, b.(handlers := b.handlers + [h])));
    forall x ensures Occurs(w, x) == Occurs(w1, x) + Is(c, x) && Occurs(w2, x) == Occurs(w, x) {
      HeadIn(w.pc.toBuild, x);
      HandlersSplit(b.handlers, [h], x);
      assert InHandlers([h], x) == Is(c, x);
    }
  }

  lemma BuildEndMoves(w: Work)
    requires w.pc.Building? && w.pc.toBuild == []
    ensures Moves(w, w.(batches := w.batches + [w.pc.batch], pc := Idle))
  {
    forall x ensures Occurs(w.(batches := w.batches + [w.pc.batch], pc := Idle), x) == Occurs(w, x) {
      BatchesSplit(w.batches, [w.pc.batch], x);
      assert InBatches([w.pc.batch], x) == InBatch(w.pc.batch, x);
    }
  }

  /** A handler's context is replaced in place. */
  lemma HandlerSwaps(w: Work, b: nat, h: nat, y: Handler)
    requires HandlerAt(w, b, h) && Running(w.batches[b].handlers[h]) && Running(y)
    ensures Swaps(w, SetHandler(w, b, h, y), w.batches[b].handlers[h].ctx.value, y.ctx.value)
  {
    forall x ensures Occurs(SetHandler(w, b, h, y), x) + Is(w.batches[b].handlers[h].ctx.value, x)
                  == Occurs(w, x) + Is(y.ctx.value, x) {
      HandlerChanges(w, b, h, y, x);
    }
  }

  /** A handler gives up its context. */
  lemma HandlerTakes(w: Work, b: nat, h: nat, y: Handler)
    requires HandlerAt(w, b, h) && Running(w.batches[b].handlers[h]) && !Running(y)
    ensures Takes(w, SetHandler(w, b, h, y), w.batches[b].handlers[h].ctx.value)
  {
    forall x ensures Occurs(w, x) == Occurs(SetHandler(w, b, h, y), x) + Is(w.batches[b].handlers[h].ctx.value, x) {
      HandlerChanges(w, b, h, y, x);
    }
  }

  lemma ParkSwaps(w: Work, b: nat, h: nat, c': Context)
    requires HandlerAt(w, b, h) && Running(w.batches[b].handlers[h])
    ensures Swaps(w, Park(w, b, h, c'), w.batches[b].handlers[h].ctx.value, c')
  {
    var batch, handler := w.batches[b], w.batches[b].handlers[h];
    var y := handler.(ctx := None, called := true, inMulti := false);
    forall x ensures Occurs(Park(w, b, h, c'), x) + Is(handler.ctx.value, x) == Occurs(w, x) + Is(c', x) {
      HandlersAt(batch.handlers, h, y, x);
      TailIn(batch.failed, c', x);
      BatchesAt(w.batches, b, batch.(handlers := batch.handlers[h := y], failed := batch.failed + [c']), x);
    }
  }

  lemma BatchFinishedMoves(w: Work, b: nat)
    requires w.pc.Idle? && b < |w.batches|
    ensures Moves(w, w.(batches := Without(w.batches, b), pc := Draining(w.batches[b])))
  {
    forall x ensures Occurs(w.(batches := Without(w.batches, b), pc := Draining(w.batches[b])), x) == Occurs(w, x) {
      BatchesAt(w.batches, b, w.batches[b], x);
    }
  }

  /** The first handler of a draining batch is destroyed. */
  lemma DrainTakes(w: Work)
    requires w.pc.Draining? && w.pc.drained.handlers != []
    ensures var h, w' := w.pc.drained.handlers[0], w.(pc := Draining(w.pc.drained.(handlers := w.pc.drained.handlers[1..])));
      if Running(h) then Takes(w, w', h.ctx.value) else Moves(w, w')
  {
    var h, w' := w.pc.drained.handlers[0], w.(pc := Draining(w.pc.drained.(handlers := w.pc.drained.handlers[1..])));
    forall x ensures Occurs(w, x) == Occurs(w', x) + InHandler(h, x) {}
  }

  lemma DrainEndMoves(w: Work, pc: Pc)
    requires w.pc.Draining? && w.pc.drained.handlers == [] && (pc.Idle? || pc.Clearing?)
    ensures Moves(w, w.(failed := w.failed + w.pc.drained.failed, pc := pc))
  {
    forall x ensures Occurs(w.(failed := w.failed + w.pc.drained.failed, pc := pc), x) == Occurs(w, x) {
      ListsIn(w.failed, w.pc.drained.failed, x);
    }
  }

  lemma RetryMoves(w: Work, i: nat)
    requires i < |w.failed|
    ensures Moves(w, w.(pending := w.pending + [w.failed[i]], failed := Without(w.failed, i)))
  {
    forall x ensures Occurs(w.(pending := w.pending + [w.failed[i]], failed := Without(w.failed, i)), x) == Occurs(w, x) {
      WithoutIn(w.failed, i, x);
      TailIn(w.pending, w.failed[i], x);
    }
  }

  lemma SlotSwaps(w: Work, c': Context)
    requires w.slot.Some?
    ensures Swaps(w, w.(slot := Some(Completion(c', true))), w.slot.value.ctx, c') && Occurs(w, w.slot.value.ctx) > 0
  {
    forall x ensures Occurs(w.(slot := Some(Completion(c', true))), x) + Is(w.slot.value.ctx, x)
                  == Occurs(w, x) + Is(c', x) {}
  }

  lemma CancelMoves(w: Work, ids: set<nat>, groups: set<nat>)
    requires w.doomed == [] && (w.pc.Idle? || w.pc.Cleaning?)
    ensures Moves(w, w.(pending := Spared(w.pending, ids, groups), doomed := Cancelled(w.pending, ids, groups),
                        pc := Cancelling(ids, groups)))
  {
    var w' := w.(pending := Spared(w.pending, ids, groups), doomed := Cancelled(w.pending, ids, groups),
                 pc := Cancelling(ids, groups));
    CancelPartitions(w.pending, ids, groups);
    forall x ensures Occurs(w', x) == Occurs(w, x) {
      assert InList(w.pending, x) == InList(w'.doomed, x) + InList(w'.pending, x);
    }
  }

  lemma FailedTakes(w: Work, i: nat)
    requires i < |w.failed|
    ensures Takes(w, w.(failed := Without(w.failed, i)), w.failed[i])
  {
    forall x ensures Occurs(w, x) == Occurs(w.(failed := Without(w.failed, i)), x) + Is(w.failed[i], x) {
      WithoutIn(w.failed, i, x);
    }
  }

  lemma DropTakes(w: Work, b: nat, h: nat)
    requires HandlerAt(w, b, h)
    ensures var handler := w.batches[b].handlers[h];
      if Running(handler) then Takes(w, DropHandler(w, b, h), handler.ctx.value) else Moves(w, DropHandler(w, b, h))
  {
    var handler, y := w.batches[b].handlers[h], w.batches[b].(handlers := Without(w.batches[b].handlers, h));
    forall x ensures Occurs(w, x) == Occurs(DropHandler(w, b, h), x) + InHandler(handler, x) {
      HandlersAt(w.batches[b].handlers, h, handler, x);
      BatchesAt(w.batches, b, y, x);
    }
  }

  lemma TakeMoves(w: Work)
    requires w.pc.Closing?
    ensures Moves(w, w.(pending := [], failed := [], doomed := w.doomed + w.pending + w.failed, pc := Cleaning))
  {
    var w' := w.(pending := [], failed := [], doomed := w.doomed + w.pending + w.failed, pc := Cleaning);
    forall x ensures Occurs(w', x) == Occurs(w, x) {
      ListsIn(w.doomed, w.pending, x);
      ListsIn(w.doomed + w.pending, w.failed, x);
    }
  }

  lemma ClearMoves(w: Work)
    requires w.pc.Clearing? && w.batches != []
    ensures Moves(w, w.(batches := w.batches[1..], lost := w.lost + w.batches[0].failed,
                        pc := Draining(w.batches[0].(failed := []))))
  {
    var b := w.batches[0];
    var w' := w.(batches := w.batches[1..], lost := w.lost + b.failed, pc := Draining(b.(failed := [])));
    forall x ensures Occurs(w', x) == Occurs(w, x) {
      ListsIn(w.lost, b.failed, x);
      assert InBatch(b, x) == InBatch(b.(failed := []), x) + InList(b.failed, x);
    }
  }

  predicate Holdsless(pc: Pc) {
    !pc.Scanning? && !pc.Building? && !pc.Draining?
  }

  lemma PhaseMoves(w: Work, pc: Pc)
    requires Holdsless(w.pc) && Holdsless(pc)
    ensures Moves(w, w.(pc := pc))
  {
    forall x ensures Occurs(w.(pc := pc), x) == Occurs(w, x) {}
  }

  // ----- Each step keeps the requests

  ghost predicate Kept(s: State) {
    Conserved(s.work, s.ledger.live)
  }

  lemma MovedIsKept(s: State, s': State)
    requires Kept(s) && Moves(s.work, s'.work) && s'.ledger.live == s.ledger.live
    ensures Kept(s')
  {
  }

  /** The final callback of a context just taken out of its place. */
  lemma FinishKeeps(s: State, w: Work, c: Context, c': Context, attempt: nat)
    requires Kept(s) && w.slot.None? && Takes(s.work, w, c) && c'.token == c.token
    ensures Kept(Finish(s, w, c', attempt))
  {
    var w' := w.(slot := Some(Completion(c', false)));
    forall x ensures Occurs(w', x) + Is(c, x) == Occurs(s.work, x) + Is(c', x) {
      assert Occurs(w', x) == Occurs(w, x) + Is(c', x);
    }
    assert Occurs(s.work, c) == Occurs(w, c) + Is(c, c);
    SwapsConserve(s.work, w', s.ledger.live, c, c');
  }

  lemma DestroyKeeps(s: State, w: Work, h: Handler)
    requires Kept(s) && w.slot.None?
    requires if Running(h) then Takes(s.work, w, h.ctx.value) else Moves(s.work, w)
    ensures Kept(Destroy(s, w, h))
  {
    if Running(h) {
      FinishKeeps(s, w, h.ctx.value, h.ctx.value, 0);
    } else {
      MovedIsKept(s, s.(work := w));
    }
  }

  lemma ScanKeeps(s: State)
    requires Kept(s) && s.work.pc.Scanning? && s.work.pending != []
    ensures Kept(DoScan(s))
  {
    var w, c := s.work, s.work.pending[0];
    if c.req.None? {
      DoomMoves(w);
    } else if Admitted(s.limits, c) {
      AdmitSwaps(w, c.(armed := true));
      SwapsConserve(w, DoScan(s).work, s.ledger.live, c, c.(armed := true));
    } else {
      KeepMoves(w);
    }
  }

  lemma BuildKeeps(s: State, easyOk: bool)
    requires Kept(s) && WorkerEnabled(s, BuildOne(easyOk))
    ensures Kept(DoBuild(s, easyOk))
  {
    var w, c := s.work, s.work.pc.toBuild[0];
    BuildMoves(w);
    if !w.pc.batch.multi || !easyOk {
      FinishKeeps(s, w.(pc := Building(w.pc.toBuild[1..], w.pc.batch)), c, c, 0);
    }
  }

  lemma ChunkKeeps(s: State, b: nat, h: nat)
    requires Kept(s) && Reporting(s.work, b, h) && Running(s.work.batches[b].handlers[h])
    ensures Kept(DoChunk(s, b, h))
  {
    var handler := s.work.batches[b].handlers[h];
    var c := handler.ctx.value;
    var y := handler.(ctx := Some(c.(chunks := c.chunks + 1)), hasChunk := true);
    HandlerSwaps(s.work, b, h, y);
    RunningOccurs(s.work, b, h);
    SwapsConserve(s.work, SetHandler(s.work, b, h, y), s.ledger.live, c, y.ctx.value);
  }

  lemma ParkConserves(w: Work, live: map<nat, Context>, b: nat, h: nat, c': Context)
    requires Conserved(w, live) && HandlerAt(w, b, h) && Running(w.batches[b].handlers[h])
    requires c'.token == w.batches[b].handlers[h].ctx.value.token
    ensures Conserved(Park(w, b, h, c'), live[c'.token := c'])
  {
    ParkSwaps(w, b, h, c');
    RunningOccurs(w, b, h);
    SwapsConserve(w, Park(w, b, h, c'), live, w.batches[b].handlers[h].ctx.value, c');
  }

  lemma DoneKeeps(s: State, b: nat, h: nat, curlError: bool, status: int)
    requires Kept(s) && s.work.slot.None? && Reporting(s.work, b, h) && Running(s.work.batches[b].handlers[h])
    ensures Kept(DoDone(s, b, h, curlError, status))
  {
    var handler := s.work.batches[b].handlers[h];
    var c := handler.ctx.value;
    var c1 := c.(attempt := c.attempt + 1);
    if ShouldRetry(c1.req.value, c1.attempt, curlError, status, handler.hasChunk) {
      ParkConserves(s.work, s.ledger.live, b, h, c1.(start := s.limits.clock));
    } else {
      var y := handler.(ctx := Some(c1), called := true, inMulti := false);
      HandlerTakes(s.work, b, h, y);
      FinishKeeps(s, SetHandler(s.work, b, h, y), c, c1, c1.attempt);
    }
  }

  lemma ReleaseKeeps(s: State)
    requires Kept(s) && s.work.slot.Some?
    ensures Kept(DoRelease(s))
  {
    var c := s.work.slot.value.ctx;
    SlotSwaps(s.work, c.(armed := false));
    SwapsConserve(s.work, DoRelease(s).work, s.ledger.live, c, c.(armed := false));
  }

  lemma CompleteKeeps(s: State)
    requires Kept(s) && s.work.slot.Some?
    ensures Kept(DoComplete(s))
  {
    var c, s' := s.work.slot.value.ctx, DoComplete(s);
    assert Occurs(s.work, c) > 0 && Once(s.ledger.live, c) == 1;
    forall x ensures Occurs(s'.work, x) == Once(s'.ledger.live, x) {
      assert Occurs(s.work, x) == Once(s.ledger.live, x) && Occurs(s'.work, x) + Is(c, x) == Occurs(s.work, x);
    }
  }

  lemma SubmitKeeps(s: State, req: Option<Request>, hasCallback: bool)
    requires Kept(s) && s.ledger.nextToken !in s.ledger.live
    ensures Kept(DoSubmit(s, req, hasCallback))
  {
    var s', c := DoSubmit(s, req, hasCallback), Submitted(s.ledger.nextToken, req, hasCallback);
    forall x ensures Occurs(s'.work, x) == Once(s'.ledger.live, x) {
      TailIn(s.work.pending, c, x);
      assert Occurs(s.work, x) == Once(s.ledger.live, x);
    }
  }

  /** libcurl reports only on handlers whose context still awaits its callback. */
  ghost predicate ReportsRunning(w: Work) {
    forall b: nat, h: nat :: Reporting(w, b, h) ==> Running(w.batches[b].handlers[h])
  }

  lemma WorkerKeeps(s: State, a: WorkerAction)
    requires Kept(s) && WorkerEnabled(s, a) && ReportsRunning(s.work)
    ensures Kept(ApplyWorker(s, a))
  {
    var w := s.work;
    match a
    case ScanBegin => forall x ensures Occurs(w.(pc := Scanning([], [])), x) == Occurs(w, x) {}
    case ScanOne => ScanKeeps(s);
    case ScanEnd(ok) => ScanEndMoves(w, ok);
    case FinishDoomed =>
      DoomedTakes(w);
      FinishKeeps(s, w.(doomed := w.doomed[1..]), w.doomed[0], w.doomed[0], 0);
    case BuildOne(ok) => BuildKeeps(s, ok);
    case BuildEnd => BuildEndMoves(w);
    case BodyChunk(b, h) => ChunkKeeps(s, b, h);
    case TransferDone(b, h, e, st) => DoneKeeps(s, b, h, e, st);
    case BatchFinished(b) => BatchFinishedMoves(w, b);
    case DrainOne =>
      DrainTakes(w);
      DestroyKeeps(s, w.(pc := Draining(w.pc.drained.(handlers := w.pc.drained.handlers[1..]))), w.pc.drained.handlers[0]);
    case DrainEnd => DrainEndMoves(w, if s.desk.shutdown then Clearing else Idle);
    case RetryDue(i) => RetryMoves(w, i);
    case IdleSweep =>
    case ReleaseTokens => ReleaseKeeps(s);
    case CompleteGroup => CompleteKeeps(s);
  }

  lemma EndKeeps(s: State, a: EndAction)
    requires Kept(s) && EndEnabled(s, a)
    ensures Kept(ApplyEnd(s, a))
  {
    var w := s.work;
    match a
    case CancelBegin => CancelMoves(w, s.desk.cancelIds, s.desk.cancelGroups);
    case CancelFailed(i) =>
      FailedTakes(w, i);
      FinishKeeps(s, w.(failed := Without(w.failed, i)), w.failed[i], w.failed[i], 0);
    case CancelHandler(b, h) =>
      DropTakes(w, b, h);
      DestroyKeeps(s, DropHandler(w, b, h), w.batches[b].handlers[h]);
    case ShutdownTake => TakeMoves(w);
    case ClearBatch => ClearMoves(w);
    case _ => PhaseMoves(w, ApplyEnd(s, a).work.pc);
  }

  lemma ClientKeeps(s: State, a: ClientAction)
    requires Kept(s) && ClientEnabled(s, a) && s.ledger.nextToken !in s.ledger.live
    ensures Kept(ApplyClient(s, a))
  {
    if a.SubmitCommit? {
      SubmitKeeps(s, s.desk.lock.value.req, s.desk.lock.value.hasCallback);
    } else {
      var s' := ApplyClient(s, a);
      assert s'.work == s.work && s'.ledger == s.ledger;
    }
  }

  /** Conservation is kept by every step. */
  lemma StepKeeps(s: State, a: Action)
    requires Kept(s) && Enabled(s, a) && ReportsRunning(s.work) && s.ledger.nextToken !in s.ledger.live
    ensures Kept(Apply(s, a))
  {
    match a
    case Client(c) => ClientKeeps(s, c);
    case Worker(w) => WorkerKeeps(s, w);
    case End(e) => EndKeeps(s, e);
  }
}
