/** The worker thread's wake-up protocol: a notify flag under a mutex, a task list, the managers'
    load, and any number of concurrent callers. A step is one critical section or one atomic access. */
module WorkerProtocol {
  import opened Wrappers

  /** Where the worker is in its loop. `Parked` is the outer wait; `Probing(i)` is about to ask manager i
      whether it is loaded; `Ending(i, k)` has made k turns of manager i's shutdown, and it and what follows
      belong to shutdown. */
  datatype Pc =
    | Parked
    | Woken
    | Probing(i: nat)
    | ProbingTasks
    | Unloaded
    | Processing(i: nat)
    | Taking
    | Executing
    | Processed
    | Dozing
    | Roused
    | Ending(i: nat, k: nat)
    | EndTaking
    | EndExecuting
    | Exited

  /** What the threads share: flags, the task list, and the work each manager holds. */
  datatype Shared = Shared(notify: bool, shutdown: bool, tasks: seq<nat>, managers: seq<set<nat>>)

  /** What the callers have done: every task pushed so far in order, ids whose caller has not notified
      yet, stop calls between setting the flag and notifying, whether some stop call has notified, how
      many tasks had been pushed when stop was first called, and how many at the worker's last look. */
  datatype Calls = Calls(
    nextId: nat, pushed: seq<nat>, silent: set<nat>, stopping: nat, stopNotified: bool, before: nat, swept: Option<nat>)

  /** `running` is the worker's local task list; `executed` the tasks it has run, in order. `turns` says
      how many turns each manager's shutdown takes, None when it never ends; nothing changes it. */
  datatype State = State(
    sh: Shared, calls: Calls, pc: Pc, running: seq<nat>, executed: seq<nat>, turns: seq<Option<nat>>)

  ghost predicate Initial(s: State) {
    && s.sh == Shared(false, false, [], s.sh.managers) && (forall m :: 0 <= m < |s.sh.managers| ==> s.sh.managers[m] == {})
    && s.calls == Calls(0, [], {}, 0, false, 0, None) && s.pc == Parked && s.running == [] && s.executed == []
    && |s.turns| == |s.sh.managers|
  }

  datatype Action =
    | PushTask
    | AddWork(m: nat)
    | Notify(id: nat)
    | StopFlag
    | StopNotify
    | Work(finished: set<nat>)

  /** The worker waits only in `Parked`; the inner wait also ends by its timeout. */
  predicate Enabled(s: State, a: Action) {
    match a
    case PushTask => true
    case AddWork(m) => m < |s.sh.managers|
    case Notify(id) => id in s.calls.silent
    case StopFlag => true
    case StopNotify => s.calls.stopping > 0
    case Work(_) => !s.pc.Exited? && (s.pc.Parked? ==> s.sh.notify)
  }

  function Call(s: State, a: Action): State
    requires !a.Work? && Enabled(s, a)
  {
    var id := s.calls.nextId;
    match a
    case PushTask =>
      s.(sh := s.sh.(tasks := s.sh.tasks + [id]),
         calls := s.calls.(nextId := id + 1, pushed := s.calls.pushed + [id], silent := s.calls.silent + {id}))
    case AddWork(m) =>
      s.(sh := s.sh.(managers := s.sh.managers[m := s.sh.managers[m] + {id}]),
         calls := s.calls.(nextId := id + 1, silent := s.calls.silent + {id}))
    case Notify(caller) =>
      s.(sh := s.sh.(notify := true), calls := s.calls.(silent := s.calls.silent - {caller}))
    case StopFlag =>
      s.(sh := s.sh.(shutdown := true),
         calls := s.calls.(stopping := s.calls.stopping + 1,
                           before := if s.sh.shutdown then s.calls.before else |s.calls.pushed|))
    case StopNotify =>
      s.(sh := s.sh.(notify := true), calls := s.calls.(stopping := s.calls.stopping - 1, stopNotified := true))
  }

  /** A read of the shutdown flag. */
  function Checked(s: State, onward: Pc): Pc {
    if s.sh.shutdown then Ending(0, 0) else onward
  }

  function Serve(s: State, i: nat, finished: set<nat>): Shared {
    if i < |s.sh.managers| then s.sh.(managers := s.sh.managers[i := s.sh.managers[i] - finished]) else s.sh
  }

  /** One step of the worker; `finished` is what the manager being processed gets done. */
  function Advance(s: State, finished: set<nat>): State
    requires Enabled(s, Work(finished))
  {
    match s.pc
    case Parked => s.(sh := s.sh.(notify := false), pc := Woken)
    case Woken => s.(pc := Checked(s, Probing(0)))
    case Probing(i) =>
      if i >= |s.sh.managers| then s.(pc := ProbingTasks)
      else if s.sh.managers[i] != {} then s.(pc := Processing(0))
      else s.(pc := Probing(i + 1))
    case ProbingTasks => s.(pc := if s.sh.tasks != [] then Processing(0) else Unloaded)
    case Unloaded => s.(pc := Checked(s, Parked))
    case Processing(i) =>
      if i >= |s.sh.managers| then s.(pc := Taking) else s.(sh := Serve(s, i, finished), pc := Processing(i + 1))
    case Taking => s.(sh := s.sh.(tasks := []), running := s.sh.tasks, pc := Executing)
    case Executing =>
      if s.running == [] then s.(pc := Processed)
      else s.(running := s.running[1..], executed := s.executed + [s.running[0]])
    case Processed => s.(pc := Checked(s, Dozing))
    case Dozing => s.(sh := s.sh.(notify := false), pc := Roused)
    case Roused => s.(pc := Checked(s, Probing(0)))
    case Ending(i, k) =>
      if i >= |s.sh.managers| then s.(pc := EndTaking)
      else if i < |s.turns| && s.turns[i] == Some(k) then
        s.(sh := s.sh.(managers := s.sh.managers[i := {}]), pc := Ending(i + 1, 0))
      else s.(pc := Ending(i, k + 1))
    case EndTaking =>
      s.(sh := s.sh.(tasks := []), running := s.sh.tasks, pc := EndExecuting,
         calls := s.calls.(swept := Some(|s.calls.pushed|)))
    case EndExecuting =>
      if s.running == [] then s.(pc := Exited)
      else s.(running := s.running[1..], executed := s.executed + [s.running[0]])
  }

  function Apply(s: State, a: Action): State
    requires Enabled(s, a)
  {
    if a.Work? then Advance(s, a.finished) else Call(s, a)
  }

  predicate Legal(s: State, acts: seq<Action>)
    decreases |acts|
  {
    acts == [] || (Enabled(s, acts[0]) && Legal(Apply(s, acts[0]), acts[1..]))
  }

  function Exec(s: State, acts: seq<Action>): State
    requires Legal(s, acts)
    decreases |acts|
  {
    if acts == [] then s else Exec(Apply(s, acts[0]), acts[1..])
  }

  ghost predicate Reachable(s: State) {
    exists s0, acts :: Initial(s0) && Legal(s0, acts) && Exec(s0, acts) == s
  }

  // ----- The invariant

  predicate InShutdown(pc: Pc) {
    pc.Ending? || pc.EndTaking? || pc.EndExecuting? || pc.Exited?
  }

  /** The worker has made its last look at the task list before parking. */
  predicate PastTasks(pc: Pc) {
    pc.Unloaded? || pc.Parked?
  }

  predicate PastManager(pc: Pc, m: nat) {
    PastTasks(pc) || pc.ProbingTasks? || (pc.Probing? && m < pc.i)
  }

  /** Work overlooked so far belongs to a caller that will still notify, or the flag is set. */
  ghost predicate Heeded(s: State) {
    && (PastTasks(s.pc) && !s.sh.notify ==> forall t :: t in s.sh.tasks ==> t in s.calls.silent)
    && (forall m :: 0 <= m < |s.sh.managers| && PastManager(s.pc, m) && !s.sh.notify ==>
          s.sh.managers[m] <= s.calls.silent)
  }

  /** A finished stop call is still flagged, or the worker is about to read the shutdown flag. */
  predicate StopHeeded(s: State) {
    && (s.calls.stopping > 0 || s.calls.stopNotified || InShutdown(s.pc) ==> s.sh.shutdown)
    && (s.calls.stopNotified ==> s.sh.notify || s.pc.Woken? || s.pc.Roused? || InShutdown(s.pc))
  }

  predicate Ordered(s: State) {
    && s.executed + s.running + s.sh.tasks == s.calls.pushed
    && (s.running != [] ==> s.pc.Executing? || s.pc.EndExecuting?)
    && s.calls.before <= |s.calls.pushed|
    && (s.pc.EndExecuting? || s.pc.Exited? ==> s.calls.swept == Some(|s.executed| + |s.running|))
    && (s.calls.swept.Some? ==> s.calls.before <= s.calls.swept.value && (s.pc.EndExecuting? || s.pc.Exited?))
  }

  /** Task ids are handed out in increasing order. */
  ghost predicate Numbered(c: Calls) {
    && (forall j :: 0 <= j < |c.pushed| ==> c.pushed[j] < c.nextId)
    && (forall j, k :: 0 <= j < k < |c.pushed| ==> c.pushed[j] < c.pushed[k])
  }

  predicate AllEnd(turns: seq<Option<nat>>) {
    forall m :: 0 <= m < |turns| ==> turns[m].Some?
  }

  /** The worker gets past a manager only when that manager's shutdown has ended. */
  predicate Turned(s: State) {
    && |s.turns| == |s.sh.managers|
    && (s.pc.EndTaking? || s.pc.EndExecuting? || s.pc.Exited? ==> AllEnd(s.turns))
    && (s.pc.Ending? ==>
          && s.pc.i <= |s.turns|
          && (forall m :: 0 <= m < s.pc.i ==> s.turns[m].Some?)
          && (s.pc.i < |s.turns| && s.turns[s.pc.i].Some? ==> s.pc.k <= s.turns[s.pc.i].value))
  }

  ghost predicate Inv(s: State) {
    Heeded(s) && StopHeeded(s) && Ordered(s) && Numbered(s.calls) && Turned(s)
  }

  lemma HeededStep(s: State, a: Action)
    requires Heeded(s) && Enabled(s, a)
    ensures Heeded(Apply(s, a))
  {
    var s' := Apply(s, a);
    forall m | 0 <= m < |s'.sh.managers| && PastManager(s'.pc, m) && !s'.sh.notify
      ensures s'.sh.managers[m] <= s'.calls.silent
    {
      assert s.pc.Probing? && s.pc.i == m && a.Work? ==> s.sh.managers[m] == {};
    }
  }

  lemma StopHeededStep(s: State, a: Action)
    requires StopHeeded(s) && Enabled(s, a)
    ensures StopHeeded(Apply(s, a))
  {
  }

  lemma OrderedCall(s: State, a: Action)
    requires Ordered(s) && StopHeeded(s) && Enabled(s, a) && !a.Work?
    ensures Ordered(Call(s, a))
  {
    var s' := Call(s, a);
    if a.PushTask? {
      assert s'.executed + s'.running + s'.sh.tasks == s.executed + s.running + s.sh.tasks + [s.calls.nextId];
    }
  }

  lemma OrderedWork(s: State, finished: set<nat>)
    requires Ordered(s) && Enabled(s, Work(finished))
    ensures Ordered(Advance(s, finished))
  {
    if s.running != [] {
      assert s.running == [s.running[0]] + s.running[1..];
    }
  }

  lemma NumberedStep(s: State, a: Action)
    requires Numbered(s.calls) && Enabled(s, a)
    ensures Numbered(Apply(s, a).calls)
  {
    if a.Work? {
      assert Advance(s, a.finished).calls.pushed == s.calls.pushed;
    }
  }

  lemma TurnedStep(s: State, a: Action)
    requires Turned(s) && Enabled(s, a)
    ensures Turned(Apply(s, a)) && Apply(s, a).turns == s.turns
  {
  }

  lemma StepInv(s: State, a: Action)
    requires Inv(s) && Enabled(s, a)
    ensures Inv(Apply(s, a)) && Apply(s, a).turns == s.turns
  {
    HeededStep(s, a);
    StopHeededStep(s, a);
    NumberedStep(s, a);
    TurnedStep(s, a);
    if a.Work? { OrderedWork(s, a.finished); } else { OrderedCall(s, a); }
  }

  lemma {:induction false} RunInv(s: State, acts: seq<Action>)
    requires Inv(s) && Legal(s, acts)
    ensures Inv(Exec(s, acts)) && Exec(s, acts).turns == s.turns
    decreases |acts|
  {
    if acts == [] {
    } else {
      StepInv(s, acts[0]);
      RunInv(Apply(s, acts[0]), acts[1..]);
    }
  }

  lemma ReachableInv(s: State)
    requires Reachable(s)
    ensures Inv(s)
  {
    var s0, acts :| Initial(s0) && Legal(s0, acts) && Exec(s0, acts) == s;
    RunInv(s0, acts);
  }

  // ----- Theorems

  /** No lost wake-up: while the worker is parked with the flag clear, every queued task and every
      manager's work belongs to a caller that has pushed but not yet notified. */
  lemma NoLostWakeup(s: State, id: nat)
    requires Reachable(s) && s.pc.Parked? && !s.sh.notify
    ensures id in s.sh.tasks ==> id in s.calls.silent
    ensures forall m :: 0 <= m < |s.sh.managers| && id in s.sh.managers[m] ==> id in s.calls.silent
  {
    ReachableInv(s);
  }

  /** A stop request whose notify has finished is never slept through. */
  lemma StopIsHeard(s: State)
    requires Reachable(s) && s.calls.stopNotified && s.pc.Parked?
    ensures s.sh.notify && s.sh.shutdown
  {
    ReachableInv(s);
  }

  /** Tasks run in the order they were pushed, none twice and none skipped. */
  lemma TasksRunInOrder(s: State)
    requires Reachable(s)
    ensures s.executed + s.running + s.sh.tasks == s.calls.pushed
  {
    ReachableInv(s);
  }

  /** When the worker has exited, the pushed tasks are split at its last look: those pushed before it, all
      tasks pushed before stop was called among them, have been executed in order, and a task is left
      behind if and only if it was pushed after it. */
  lemma StopLeavesLaterTasks(s: State)
    requires Reachable(s) && s.pc.Exited?
    ensures s.calls.swept.Some? && s.calls.before <= s.calls.swept.value <= |s.calls.pushed|
    ensures s.executed == s.calls.pushed[..s.calls.swept.value]
    ensures forall j :: 0 <= j < |s.calls.pushed| ==> (s.calls.pushed[j] in s.sh.tasks <==> j >= s.calls.swept.value)
  {
    ReachableInv(s);
    var n := s.calls.swept.value;
    assert s.executed + s.running == s.executed;
    assert s.sh.tasks == s.calls.pushed[n..];
    forall j | 0 <= j < |s.calls.pushed| ensures s.calls.pushed[j] in s.sh.tasks <==> j >= n {
      if j >= n { assert s.sh.tasks[j - n] == s.calls.pushed[j]; }
    }
  }

  /** Such a task exists: pushed between the worker's last look and its exit. */
  lemma TaskIsLeftBehind(s: State)
    requires Initial(s) && s.turns == []
    ensures exists s' :: Reachable(s') && s'.pc.Exited? && s'.sh.tasks == [0] && s'.executed == []
  {
    var s3 := Advance(Call(Call(s, StopFlag), StopNotify), {});
    var s6 := Advance(Advance(Advance(s3, {}), {}), {});
    assert s6.pc.EndExecuting? && s6.running == [];
    var s8 := Advance(Call(s6, PushTask), {});
    assert s8.pc.Exited? && s8.sh.tasks == [0] && s8.executed == [];
    InitialReachable(s);
    ReachableStep(s, StopFlag);
    ReachableStep(Call(s, StopFlag), StopNotify);
    ReachableStep(Call(Call(s, StopFlag), StopNotify), Work({}));
    ReachableStep(s3, Work({}));
    ReachableStep(Advance(s3, {}), Work({}));
    ReachableStep(Advance(Advance(s3, {}), {}), Work({}));
    ReachableStep(s6, PushTask);
    ReachableStep(Call(s6, PushTask), Work({}));
  }

  lemma InitialReachable(s: State)
    requires Initial(s)
    ensures Reachable(s)
  {
    assert Legal(s, []) && Exec(s, []) == s;
  }

  lemma ReachableStep(s: State, a: Action)
    requires Reachable(s) && Enabled(s, a)
    ensures Reachable(Apply(s, a))
  {
    var s0, acts :| Initial(s0) && Legal(s0, acts) && Exec(s0, acts) == s;
    ExecAppend(s0, acts, a);
  }

  lemma {:induction false} ExecAppend(s: State, acts: seq<Action>, a: Action)
    requires Legal(s, acts) && Enabled(Exec(s, acts), a)
    ensures Legal(s, acts + [a]) && Exec(s, acts + [a]) == Apply(Exec(s, acts), a)
    decreases |acts|
  {
    if acts == [] {
      assert [a][1..] == [] && acts + [a] == [a];
    } else {
      assert (acts + [a])[1..] == acts[1..] + [a] && (acts + [a])[0] == acts[0];
      ExecAppend(Apply(s, acts[0]), acts[1..], a);
    }
  }

  // ----- When stop returns

  /** The turns of the managers from `i` on, one more for each to pass to the next. */
  function TurnsFrom(turns: seq<Option<nat>>, i: nat): nat
    decreases |turns| - i
  {
    if i >= |turns| then 0 else (if turns[i].Some? then turns[i].value + 1 else 0) + TurnsFrom(turns, i + 1)
  }

  /** An upper bound on the worker's remaining steps once the shutdown flag is set, when every manager's
      shutdown ends. */
  function Left(s: State): nat {
    var n, rest := |s.sh.managers|, |s.running| + |s.sh.tasks|;
    var ending := TurnsFrom(s.turns, 0) + 4 + rest;
    match s.pc
    case Exited => 0
    case EndExecuting => 1 + |s.running|
    case EndTaking => 2 + rest
    case Ending(i, k) => (if k <= TurnsFrom(s.turns, i) then TurnsFrom(s.turns, i) - k else 0) + 3 + rest
    case Woken => ending
    case Roused => ending
    case Unloaded => ending
    case Processed => ending
    case Dozing => ending + 1
    case Executing => ending + 1 + |s.running|
    case Taking => ending + 2 + 2 * rest
    case Processing(i) => ending + 3 + 2 * rest + (if i < n then n - i else 0)
    case ProbingTasks => ending + 4 + 2 * rest + n
    case Probing(i) => ending + 5 + 2 * rest + n + (if i < n then n - i else 0)
    case Parked => ending + 1
  }

  lemma WorkAdvances(s: State, finished: set<nat>)
    requires s.sh.shutdown && Enabled(s, Work(finished)) && Ordered(s) && Turned(s) && AllEnd(s.turns)
    ensures Left(Advance(s, finished)) < Left(s)
  {
    if s.pc.Probing? || s.pc.ProbingTasks? || s.pc.Processing? || s.pc.Taking? || s.pc.Executing? {
      LoopAdvances(s, finished);
    } else if s.pc.Ending? {
      EndingAdvances(s, finished);
    }
  }

  lemma EndingAdvances(s: State, finished: set<nat>)
    requires Enabled(s, Work(finished)) && Turned(s) && AllEnd(s.turns) && s.pc.Ending?
    ensures Left(Advance(s, finished)) < Left(s)
  {
    var i := s.pc.i;
    if i < |s.turns| {
      assert TurnsFrom(s.turns, i) == s.turns[i].value + 1 + TurnsFrom(s.turns, i + 1);
    }
  }

  lemma LoopAdvances(s: State, finished: set<nat>)
    requires s.sh.shutdown && Enabled(s, Work(finished)) && Ordered(s)
    requires s.pc.Probing? || s.pc.ProbingTasks? || s.pc.Processing? || s.pc.Taking? || s.pc.Executing?
    ensures Left(Advance(s, finished)) < Left(s)
  {
  }

  lemma CallsDelay(s: State, a: Action)
    requires !a.Work? && Enabled(s, a)
    ensures Left(Call(s, a)) <= Left(s) + if a.PushTask? then 3 else 0
  {
  }

  function Steps(acts: seq<Action>): nat {
    if acts == [] then 0 else (if acts[0].Work? then 1 else 0) + Steps(acts[1..])
  }

  function Pushes(acts: seq<Action>): nat {
    if acts == [] then 0 else (if acts[0].PushTask? then 1 else 0) + Pushes(acts[1..])
  }

  lemma {:induction false} StopIsBounded(s: State, acts: seq<Action>)
    requires Inv(s) && s.sh.shutdown && AllEnd(s.turns) && Legal(s, acts)
    ensures Steps(acts) + Left(Exec(s, acts)) <= Left(s) + 3 * Pushes(acts)
    decreases |acts|
  {
    if acts == [] {
    } else {
      if acts[0].Work? { WorkAdvances(s, acts[0].finished); } else { CallsDelay(s, acts[0]); }
      StepInv(s, acts[0]);
      StopIsBounded(Apply(s, acts[0]), acts[1..]);
    }
  }

  lemma {:induction false} StopStays(s: State, acts: seq<Action>)
    requires s.calls.stopNotified && Legal(s, acts)
    ensures Exec(s, acts).calls.stopNotified
    decreases |acts|
  {
    if acts == [] {
    } else {
      StopStays(Apply(s, acts[0]), acts[1..]);
    }
  }

  /** After a stop call has notified, the worker can always move until it exits. */
  lemma StopNeverBlocks(s: State, acts: seq<Action>)
    requires Reachable(s) && s.calls.stopNotified && Legal(s, acts)
    ensures Exec(s, acts).pc.Exited? || Enabled(Exec(s, acts), Work({}))
  {
    ReachableInv(s);
    RunInv(s, acts);
    StopStays(s, acts);
  }

  /** The worker exits within some number of its own steps, three more for every task pushed meanwhile,
      whatever the callers do. */
  ghost predicate Returns(s: State) {
    exists n: nat :: ReturnsWithin(s, n)
  }

  ghost predicate ReturnsWithin(s: State, n: nat) {
    forall acts :: Legal(s, acts) && Steps(acts) >= n + 3 * Pushes(acts) ==> Exec(s, acts).pc.Exited?
  }

  /** The worker going on alone. */
  lemma {:induction false} WorkGoesOn(s: State, n: nat) returns (acts: seq<Action>)
    requires Inv(s) && s.calls.stopNotified && !AllEnd(s.turns)
    ensures Legal(s, acts) && Steps(acts) == n && Pushes(acts) == 0
    decreases n
  {
    acts := [];
    if n == 0 {
    } else {
      StepInv(s, Work({}));
      var rest := WorkGoesOn(Advance(s, {}), n - 1);
      acts := [Work({})] + rest;
      assert acts[1..] == rest;
    }
  }

  /** Stop returns if and only if the shutdown of every manager ends: after a stop call has notified, the
      worker exits within a bounded number of its own steps, or it works on for ever. */
  lemma StopReturnsIffManagersEnd(s: State)
    requires Reachable(s) && s.calls.stopNotified
    ensures Returns(s) <==> AllEnd(s.turns)
  {
    ReachableInv(s);
    if AllEnd(s.turns) {
      forall acts | Legal(s, acts) && Steps(acts) >= Left(s) + 3 * Pushes(acts) ensures Exec(s, acts).pc.Exited? {
        StopIsBounded(s, acts);
      }
      assert ReturnsWithin(s, Left(s));
    } else {
      forall n: nat ensures !ReturnsWithin(s, n) {
        var acts := WorkGoesOn(s, n);
        RunInv(s, acts);
      }
    }
  }
}
