/** The request manager as a transition system. A step is one mutex-protected critical section, one
    callback delivery, or one move of worker-private data; client steps interleave with every other. */
module ManagerSteps {
  import opened RateWindow
  import opened RateLimiter
  import opened Wrappers
  import opened Requests

  /** A client between its check of the shutdown flag and the end of its critical section. */
  datatype ClientOp = Submitting(req: Option<Request>, hasCallback: bool) | Waiting(group: nat)

  /** A context whose final callback was delivered and whose completion is under way. */
  datatype Completion = Completion(ctx: Context, released: bool)

  /** Where the worker thread is, with the lists its local variables hold. */
  datatype Pc =
    | Idle
    | Scanning(kept: seq<Context>, ready: seq<Context>)
    | Building(toBuild: seq<Context>, batch: Batch)
    | Draining(drained: Batch)
    | Cancelling(ids: set<nat>, groups: set<nat>)
    | Closing
    | Cleaning
    | Clearing
    | Notifying
    | Down

  /** Where the contexts are. `doomed` is the worker's local list of contexts awaiting their final
      callback; `lost` collects contexts destroyed without one. */
  datatype Work = Work(
    pending: seq<Context>, failed: seq<Context>, batches: seq<Batch>,
    doomed: seq<Context>, pc: Pc, slot: Option<Completion>, lost: seq<Context>)

  /** What is remembered of every submitted request: its request and its callbacks so far. */
  datatype Record = Record(req: Option<Request>, trace: seq<Delivery>)

  /** `live` holds the submitted and not yet completed contexts by token. */
  datatype Ledger = Ledger(nextToken: nat, live: map<nat, Context>, records: map<nat, Record>)

  /** Group counts and waiters; `homes` remembers the group of every waiter ever registered. */
  datatype Groups = Groups(
    counts: map<nat, nat>, waiters: map<nat, seq<nat>>, nextWaiter: nat,
    homes: map<nat, nat>, fired: multiset<nat>, withdrawn: multiset<nat>)

  /** The rate limiter, the clock, and the limits with a handle outside the manager's contexts. */
  datatype Limits = Limits(limiter: Limiter, clock: nat, handles: set<nat>)

  /** `lock` is the client holding the manager mutex. */
  datatype Desk = Desk(
    lock: Option<ClientOp>, shutdown: bool, maxPending: nat, cancelIds: set<nat>, cancelGroups: set<nat>)

  datatype State = State(work: Work, ledger: Ledger, groups: Groups, limits: Limits, desk: Desk)

  const INIT := State(
    Work([], [], [], [], Idle, None, []), Ledger(1, map[], map[]),
    Groups(map[], map[], 1, map[], multiset{}, multiset{}), Limits(EMPTY, 0, {}), Desk(None, false, 0, {}, {}))

  datatype ClientAction =
    | SubmitEnter(req: Option<Request>, hasCallback: bool)
    | SubmitCommit
    | WaitEnter(group: nat)
    | WaitCommit
    | CancelWait(group: nat, index: nat)
    | CancelId(id: nat)
    | CancelGroup(group: nat)
    | SetMaxPending(limit: nat)
    | CreateLimit(cfg: Config)
    | DropHandle(id: nat)
    | ReapLimit(id: nat)
    | Tick(now: nat)

  datatype WorkerAction =
    | ScanBegin
    | ScanOne
    | ScanEnd(multiOk: bool)
    | FinishDoomed
    | BuildOne(easyOk: bool)
    | BuildEnd
    | BodyChunk(b: nat, h: nat)
    | TransferDone(b: nat, h: nat, curlError: bool, status: int)
    | BatchFinished(b: nat)
    | DrainOne
    | DrainEnd
    | RetryDue(i: nat)
    | IdleSweep
    | ReleaseTokens
    | CompleteGroup

  datatype EndAction =
    | CancelBegin
    | CancelFailed(i: nat)
    | CancelHandler(b: nat, h: nat)
    | CancelEnd
    | ShutdownBegin
    | ShutdownTake
    | ClearBatch
    | ClearEnd
    | NotifyAll

  datatype Action = Client(c: ClientAction) | Worker(w: WorkerAction) | End(e: EndAction)

  // ----- Guards

  predicate LockFree(s: State) {
    s.desk.lock.None? && !s.work.pc.Scanning?
  }

  predicate WorkerFree(w: Work) {
    w.slot.None? && w.doomed == []
  }

  predicate AtRest(s: State) {
    s.work.pc.Idle? && WorkerFree(s.work) && !s.desk.shutdown
  }

  predicate HandlerAt(w: Work, b: nat, h: nat) {
    b < |w.batches| && h < |w.batches[b].handlers|
  }

  /** libcurl may still report on this handler, whose context and request exist. */
  predicate Reporting(w: Work, b: nat, h: nat) {
    && HandlerAt(w, b, h) && w.batches[b].handlers[h].inMulti
    && w.batches[b].handlers[h].ctx.Some? && w.batches[b].handlers[h].ctx.value.req.Some?
  }

  predicate HoldsRoute(handles: set<nat>, r: Route) {
    (r.general != 0 ==> r.general in handles) && (r.specific != 0 ==> r.specific in handles)
  }

  predicate Mentions(req: Option<Request>, id: nat) {
    RouteOf(req).general == id || RouteOf(req).specific == id
  }

  /** No handle copy of the limit is left: outside, in a context, or in a request being submitted. */
  predicate Unreferenced(s: State, id: nat) {
    && id != 0 && id !in s.limits.handles
    && (forall t :: t in s.ledger.live ==> !Mentions(s.ledger.live[t].req, id))
    && (s.desk.lock.Some? && s.desk.lock.value.Submitting? ==> !Mentions(s.desk.lock.value.req, id))
  }

  predicate NoCancelLeft(w: Work, ids: set<nat>, groups: set<nat>) {
    && (forall i :: 0 <= i < |w.failed| ==> !Matches(w.failed[i].req, ids, groups))
    && (forall b, h :: 0 <= b < |w.batches| && 0 <= h < |w.batches[b].handlers| ==>
          !HandlerMatches(w.batches[b].handlers[h], ids, groups))
  }

  predicate ClientEnabled(s: State, a: ClientAction) {
    match a
    case SubmitEnter(req, _) =>
      && LockFree(s) && !s.desk.shutdown && HoldsRoute(s.limits.handles, RouteOf(req))
      && (s.desk.maxPending != 0 ==> |s.work.pending| < s.desk.maxPending)
    case SubmitCommit => s.desk.lock.Some? && s.desk.lock.value.Submitting?
    case WaitEnter(group) => LockFree(s) && !s.desk.shutdown && group != 0
    case WaitCommit => s.desk.lock.Some? && s.desk.lock.value.Waiting?
    case CancelWait(group, i) => LockFree(s) && group in s.groups.waiters && i < |s.groups.waiters[group]|
    case CancelId(id) => LockFree(s) && id != 0
    case CancelGroup(group) => LockFree(s) && CountOf(s.groups.counts, group) != 0
    case SetMaxPending(_) => true
    case CreateLimit(_) => true
    case DropHandle(_) => true
    case ReapLimit(id) => Unreferenced(s, id) && id in s.limits.limiter.limits && !s.limits.limiter.limits[id].removed
    case Tick(now) => now >= s.limits.clock
  }

  predicate WorkerEnabled(s: State, a: WorkerAction) {
    var w := s.work;
    match a
    case ScanBegin => AtRest(s) && LockFree(s) && w.pending != []
    case ScanOne => w.pc.Scanning? && w.pending != []
    case ScanEnd(_) => w.pc.Scanning? && w.pending == []
    case FinishDoomed => w.slot.None? && w.doomed != [] && !w.pc.Scanning?
    case BuildOne(_) => w.pc.Building? && WorkerFree(w) && w.pc.toBuild != []
    case BuildEnd => w.pc.Building? && WorkerFree(w) && w.pc.toBuild == []
    case BodyChunk(b, h) =>
      && AtRest(s) && Reporting(w, b, h)
      && w.batches[b].handlers[h].ctx.value.hasCallback && w.batches[b].handlers[h].ctx.value.req.value.streaming
    case TransferDone(b, h, _, _) => AtRest(s) && Reporting(w, b, h)
    case BatchFinished(b) => AtRest(s) && b < |w.batches|
    case DrainOne => w.pc.Draining? && WorkerFree(w) && w.pc.drained.handlers != []
    case DrainEnd => w.pc.Draining? && WorkerFree(w) && w.pc.drained.handlers == []
    case RetryDue(i) =>
      && AtRest(s) && LockFree(s) && i < |w.failed| && w.failed[i].req.Some?
      && ToMs(s.limits.clock - w.failed[i].start) >= w.failed[i].req.value.retryDelayMs
    case IdleSweep => AtRest(s) && LockFree(s)
    case ReleaseTokens => w.slot.Some? && !w.slot.value.released
    case CompleteGroup => w.slot.Some? && w.slot.value.released && (GroupOf(w.slot.value.ctx.req) != 0 ==> LockFree(s))
  }

  predicate EndEnabled(s: State, a: EndAction) {
    var w := s.work;
    match a
    case CancelBegin => WorkerFree(w) && LockFree(s) && ((w.pc.Idle? && !s.desk.shutdown) || w.pc.Cleaning?)
    case CancelFailed(i) =>
      w.pc.Cancelling? && WorkerFree(w) && i < |w.failed| && Matches(w.failed[i].req, w.pc.ids, w.pc.groups)
    case CancelHandler(b, h) =>
      && w.pc.Cancelling? && WorkerFree(w) && HandlerAt(w, b, h)
      && HandlerMatches(w.batches[b].handlers[h], w.pc.ids, w.pc.groups)
    case CancelEnd => w.pc.Cancelling? && WorkerFree(w) && NoCancelLeft(w, w.pc.ids, w.pc.groups)
    case ShutdownBegin => AtRest(s)
    case ShutdownTake => w.pc.Closing? && LockFree(s)
    case ClearBatch => w.pc.Clearing? && WorkerFree(w) && w.batches != []
    case ClearEnd => w.pc.Clearing? && WorkerFree(w) && w.batches == []
    case NotifyAll => (w.pc.Notifying? || w.pc.Down?) && LockFree(s)
  }

  predicate Enabled(s: State, a: Action) {
    match a
    case Client(c) => ClientEnabled(s, c)
    case Worker(w) => WorkerEnabled(s, w)
    case End(e) => EndEnabled(s, e)
  }

  // ----- Effects on the parts

  function Deliver(l: Ledger, token: nat, d: Delivery): Ledger {
    if token in l.records
    then l.(records := l.records[token := l.records[token].(trace := l.records[token].trace + [d])])
    else l
  }

  function Update(l: Ledger, c: Context): Ledger {
    l.(live := l.live[c.token := c])
  }

  /** The final callback of `c`, already out of its place; `attempt` is its response's attempt number. */
  function Finish(s: State, w: Work, c: Context, attempt: nat): State {
    s.(work := w.(slot := Some(Completion(c, false))), ledger := Deliver(Update(s.ledger, c), c.token, Final(attempt)))
  }

  function Submitted(token: nat, req: Option<Request>, hasCallback: bool): Context {
    Context(token, req, hasCallback, 0, 0, false, 0)
  }

  function DoSubmit(s: State, req: Option<Request>, hasCallback: bool): State {
    var t := s.ledger.nextToken;
    var c := Submitted(t, req, hasCallback);
    s.(work := s.work.(pending := s.work.pending + [c]),
       ledger := Ledger(t + 1, s.ledger.live[t := c], s.ledger.records[t := Record(req, [])]),
       groups := s.groups.(counts := CountUp(s.groups.counts, GroupOf(req))),
       desk := s.desk.(lock := None))
  }

  function Register(g: Groups, group: nat): Groups {
    if CountOf(g.counts, group) == 0 then g
    else g.(waiters := AddWaiter(g.waiters, group, g.nextWaiter), homes := g.homes[g.nextWaiter := group],
            nextWaiter := g.nextWaiter + 1)
  }

  function Withdraw(g: Groups, group: nat, i: nat): Groups
    requires group in g.waiters && i < |g.waiters[group]|
  {
    g.(waiters := DropWaiter(g.waiters, group, i), withdrawn := g.withdrawn + multiset{g.waiters[group][i]})
  }

  function CompleteOne(g: Groups, group: nat): Groups {
    g.(counts := CountDown(g.counts, group), waiters := WaitersLeft(g.counts, g.waiters, group),
       fired := g.fired + multiset(TakenBy(g.counts, g.waiters, group)))
  }

  ghost function Sweep(g: Groups): Groups {
    g.(waiters := Busy(g.counts, g.waiters), fired := g.fired + AllWaiters(Idling(g.counts, g.waiters)))
  }

  ghost function FireAll(g: Groups): Groups {
    g.(waiters := map[], fired := g.fired + AllWaiters(g.waiters))
  }

  function ApplyClient(s: State, a: ClientAction): State
    requires ClientEnabled(s, a)
  {
    match a
    case SubmitEnter(req, cb) => s.(desk := s.desk.(lock := Some(Submitting(req, cb))))
    case SubmitCommit => DoSubmit(s, s.desk.lock.value.req, s.desk.lock.value.hasCallback)
    case WaitEnter(group) => s.(desk := s.desk.(lock := Some(Waiting(group))))
    case WaitCommit => s.(groups := Register(s.groups, s.desk.lock.value.group), desk := s.desk.(lock := None))
    case CancelWait(group, i) => s.(groups := Withdraw(s.groups, group, i))
    case CancelId(id) => s.(desk := s.desk.(cancelIds := s.desk.cancelIds + {id}))
    case CancelGroup(group) => s.(desk := s.desk.(cancelGroups := s.desk.cancelGroups + {group}))
    case SetMaxPending(limit) => s.(desk := s.desk.(maxPending := limit))
    case CreateLimit(cfg) =>
      s.(limits := s.limits.(limiter := Create(s.limits.limiter, cfg), handles := s.limits.handles + {s.limits.limiter.nextId}))
    case DropHandle(id) => s.(limits := s.limits.(handles := s.limits.handles - {id}))
    case ReapLimit(id) => s.(limits := s.limits.(limiter := RemoveInternal(s.limits.limiter, id)))
    case Tick(now) => s.(limits := s.limits.(clock := now))
  }

  // ----- The worker

  predicate Admitted(l: Limits, c: Context) {
    c.req.Some? && Allowed(l.limiter, c.req.value.route, c.token, l.clock)
  }

  /** One turn of the pending loop: a null request is doomed, an allowed one is armed, a denied one kept. */
  function DoScan(s: State): State
    requires s.work.pc.Scanning? && s.work.pending != []
  {
    var w, c := s.work.(pending := s.work.pending[1..]), s.work.pending[0];
    if c.req.None? then s.(work := w.(doomed := w.doomed + [c]))
    else if Admitted(s.limits, c) then
      var armed := c.(armed := true);
      s.(work := w.(pc := w.pc.(ready := w.pc.ready + [armed])), ledger := Update(s.ledger, armed),
         limits := s.limits.(limiter := Allow(s.limits.limiter, c.req.value.route, c.token, s.limits.clock)))
    else s.(work := w.(pc := w.pc.(kept := w.pc.kept + [c])))
  }

  function ScanEnded(w: Work, multiOk: bool): Work
    requires w.pc.Scanning?
  {
    w.(pending := w.pc.kept, pc := if w.pc.ready == [] then Idle else Building(w.pc.ready, Batch(multiOk, [], [])))
  }

  function DoBuild(s: State, easyOk: bool): State
    requires s.work.pc.Building? && s.work.pc.toBuild != []
  {
    var c, b, rest := s.work.pc.toBuild[0], s.work.pc.batch, s.work.pc.toBuild[1..];
    if b.multi && easyOk then
      s.(work := s.work.(pc := Building(rest, b.(handlers := b.handlers + [Handler(Some(c), false, false, true)]))))
    else Finish(s, s.work.(pc := Building(rest, b)), c, 0)
  }

  function SetHandler(w: Work, b: nat, h: nat, handler: Handler): Work
    requires HandlerAt(w, b, h)
  {
    w.(batches := w.batches[b := w.batches[b].(handlers := w.batches[b].handlers[h := handler])])
  }

  /** The handler's context moves to its batch's own retry list. */
  function Park(w: Work, b: nat, h: nat, c: Context): Work
    requires HandlerAt(w, b, h)
  {
    var batch, handler := w.batches[b], w.batches[b].handlers[h].(ctx := None, called := true, inMulti := false);
    w.(batches := w.batches[b := batch.(handlers := batch.handlers[h := handler], failed := batch.failed + [c])])
  }

  function DoChunk(s: State, b: nat, h: nat): State
    requires Reporting(s.work, b, h)
  {
    var handler := s.work.batches[b].handlers[h];
    var c := handler.ctx.value.(chunks := handler.ctx.value.chunks + 1);
    s.(work := SetHandler(s.work, b, h, handler.(ctx := Some(c), hasChunk := true)),
       ledger := Deliver(Update(s.ledger, c), c.token, Chunk(c.attempt + 1)))
  }

  /** A DONE message: either the final callback, or the retry callback and a move to the batch's own list. */
  function DoDone(s: State, b: nat, h: nat, curlError: bool, status: int): State
    requires Reporting(s.work, b, h)
  {
    var handler := s.work.batches[b].handlers[h];
    var c := handler.ctx.value.(attempt := handler.ctx.value.attempt + 1);
    if ShouldRetry(c.req.value, c.attempt, curlError, status, handler.hasChunk) then
      var c' := c.(start := s.limits.clock);
      s.(work := Park(s.work, b, h, c'), ledger := Deliver(Update(s.ledger, c'), c'.token, Retry(c'.attempt)))
    else
      Finish(s, SetHandler(s.work, b, h, handler.(ctx := Some(c), called := true, inMulti := false)), c, c.attempt)
  }

  /** Destroying a handler delivers the final callback it still owes. */
  function Destroy(s: State, w: Work, handler: Handler): State {
    if Running(handler) then Finish(s, w, handler.ctx.value, 0) else s.(work := w)
  }

  function DoRelease(s: State): State
    requires s.work.slot.Some?
  {
    var c := s.work.slot.value.ctx;
    var c' := c.(armed := false);
    s.(work := s.work.(slot := Some(Completion(c', true))), ledger := Update(s.ledger, c'),
       limits := s.limits.(limiter :=
         if c.armed then Release(s.limits.limiter, RouteOf(c.req), c.token) else s.limits.limiter))
  }

  function DoComplete(s: State): State
    requires s.work.slot.Some?
  {
    var c := s.work.slot.value.ctx;
    s.(work := s.work.(slot := None), ledger := s.ledger.(live := s.ledger.live - {c.token}),
       groups := CompleteOne(s.groups, GroupOf(c.req)))
  }

  ghost function ApplyWorker(s: State, a: WorkerAction): State
    requires WorkerEnabled(s, a)
  {
    var w := s.work;
    match a
    case ScanBegin => s.(work := w.(pc := Scanning([], [])))
    case ScanOne => DoScan(s)
    case ScanEnd(multiOk) => s.(work := ScanEnded(w, multiOk))
    case FinishDoomed => Finish(s, w.(doomed := w.doomed[1..]), w.doomed[0], 0)
    case BuildOne(easyOk) => DoBuild(s, easyOk)
    case BuildEnd => s.(work := w.(batches := w.batches + [w.pc.batch], pc := Idle))
    case BodyChunk(b, h) => DoChunk(s, b, h)
    case TransferDone(b, h, curlError, status) => DoDone(s, b, h, curlError, status)
    case BatchFinished(b) => s.(work := w.(batches := Without(w.batches, b), pc := Draining(w.batches[b])))
    case DrainOne =>
      Destroy(s, w.(pc := Draining(w.pc.drained.(handlers := w.pc.drained.handlers[1..]))), w.pc.drained.handlers[0])
    case DrainEnd =>
      s.(work := w.(failed := w.failed + w.pc.drained.failed, pc := if s.desk.shutdown then Clearing else Idle))
    case RetryDue(i) => s.(work := w.(pending := w.pending + [w.failed[i]], failed := Without(w.failed, i)))
    case IdleSweep => s.(groups := Sweep(s.groups))
    case ReleaseTokens => DoRelease(s)
    case CompleteGroup => DoComplete(s)
  }

  // ----- Cancellation and shutdown

  function DropHandler(w: Work, b: nat, h: nat): Work
    requires HandlerAt(w, b, h)
  {
    w.(batches := w.batches[b := w.batches[b].(handlers := Without(w.batches[b].handlers, h))])
  }

  ghost function ApplyEnd(s: State, a: EndAction): State
    requires EndEnabled(s, a)
  {
    var w := s.work;
    match a
    case CancelBegin =>
      var ids, groups := s.desk.cancelIds, s.desk.cancelGroups;
      s.(desk := s.desk.(cancelIds := {}, cancelGroups := {}),
         work := w.(pending := Spared(w.pending, ids, groups), doomed := Cancelled(w.pending, ids, groups),
                    pc := Cancelling(ids, groups)))
    case CancelFailed(i) => Finish(s, w.(failed := Without(w.failed, i)), w.failed[i], 0)
    case CancelHandler(b, h) => Destroy(s, DropHandler(w, b, h), w.batches[b].handlers[h])
    case CancelEnd => s.(work := w.(pc := if s.desk.shutdown then Clearing else Idle))
    case ShutdownBegin => s.(work := w.(pc := Closing), desk := s.desk.(shutdown := true))
    case ShutdownTake =>
      s.(work := w.(pending := [], failed := [], doomed := w.doomed + w.pending + w.failed, pc := Cleaning))
    case ClearBatch =>
      s.(work := w.(batches := w.batches[1..], lost := w.lost + w.batches[0].failed,
                    pc := Draining(w.batches[0].(failed := []))))
    case ClearEnd => s.(work := w.(pc := Notifying))
    case NotifyAll => s.(groups := FireAll(s.groups), work := w.(pc := Down))
  }

  ghost function Apply(s: State, a: Action): State
    requires Enabled(s, a)
  {
    match a
    case Client(c) => ApplyClient(s, c)
    case Worker(w) => ApplyWorker(s, w)
    case End(e) => ApplyEnd(s, e)
  }

  // ----- Runs

  ghost predicate Legal(s: State, acts: seq<Action>)
    decreases |acts|
  {
    acts == [] || (Enabled(s, acts[0]) && Legal(Apply(s, acts[0]), acts[1..]))
  }

  ghost function Exec(s: State, acts: seq<Action>): State
    requires Legal(s, acts)
    decreases |acts|
  {
    if acts == [] then s else Exec(Apply(s, acts[0]), acts[1..])
  }

  /** A state some run of the system reaches. */
  ghost predicate Reachable(s: State) {
    exists acts :: Legal(INIT, acts) && Exec(INIT, acts) == s
  }
}
