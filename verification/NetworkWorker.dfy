/** The network worker's shared fields and the loops over them, proved against the wake-up protocol. */
module NetworkWorkerObject {
  import opened WorkerProtocol

  /** Manager `i` or a later one is loaded, or a task is queued. */
  predicate LoadedFrom(sh: Shared, i: nat) {
    sh.tasks != [] || exists m :: i <= m < |sh.managers| && sh.managers[m] != {}
  }

  class NetworkWorker {
    var notified: bool
    var shutdown: bool
    var tasks: seq<nat>
    var managers: seq<set<nat>>
    var executed: seq<nat>

    ghost function View(): Shared
      reads this
    {
      Shared(notified, shutdown, tasks, managers)
    }

    constructor (count: nat)
      ensures View() == Shared(false, false, [], managers) && |managers| == count && executed == []
      ensures forall m :: 0 <= m < count ==> managers[m] == {}
    {
      notified, shutdown, tasks, executed := false, false, [], [];
      managers := seq(count, _ => {});
    }

    method Notify()
      modifies this`notified
      ensures notified
    {
      notified := true;
    }

    /** Both critical sections of `add_task`, with no other thread in between. */
    method AddTask(task: nat)
      modifies this`tasks, this`notified
      ensures View() == old(View()).(tasks := old(tasks) + [task], notify := true)
    {
      tasks := tasks + [task];
      Notify();
    }

    method IsLoaded() returns (loaded: bool)
      ensures loaded <==> LoadedFrom(View(), 0)
    {
      var i := 0;
      while i < |managers|
        invariant 0 <= i <= |managers|
        invariant LoadedFrom(View(), 0) <==> LoadedFrom(View(), i)
      {
        if managers[i] != {} { return true; }
        i := i + 1;
      }
      return tasks != [];
    }

    method ProcessTasks()
      modifies this`tasks, this`executed
      ensures tasks == [] && executed == old(executed) + old(tasks)
    {
      if tasks == [] { return; }
      var list := tasks;
      tasks := [];
      var i := 0;
      while i < |list|
        invariant 0 <= i <= |list| && tasks == []
        invariant executed == old(executed) + list[..i]
      {
        executed := executed + [list[i]];
        i := i + 1;
      }
    }
  }

  /** `n` worker steps with no caller in between, each manager getting `finished` done when it is processed. */
  function Drive(s: State, n: nat, finished: set<nat>): State
    decreases n
  {
    if n == 0 || !Enabled(s, Work(finished)) then s else Drive(Advance(s, finished), n - 1, finished)
  }

  lemma {:induction false} DriveJoins(s: State, m: nat, n: nat, finished: set<nat>)
    ensures Drive(s, m + n, finished) == Drive(Drive(s, m, finished), n, finished)
    decreases m
  {
    if m == 0 || !Enabled(s, Work(finished)) {
      Stuck(s, n, finished);
      Stuck(s, m + n, finished);
    } else {
      DriveJoins(Advance(s, finished), m - 1, n, finished);
    }
  }

  lemma Stuck(s: State, n: nat, finished: set<nat>)
    ensures !Enabled(s, Work(finished)) ==> Drive(s, n, finished) == s
  {
  }

  /** Undisturbed, the probing steps of the protocol decide what `IsLoaded` returns. */
  lemma {:induction false} ProbingIsLoaded(s: State, finished: set<nat>) returns (n: nat)
    requires s.pc.Probing?
    ensures Drive(s, n, finished) == s.(pc := if LoadedFrom(s.sh, s.pc.i) then Processing(0) else Unloaded)
    decreases |s.sh.managers| - s.pc.i
  {
    var i, next := s.pc.i, Advance(s, finished);
    if i >= |s.sh.managers| {
      n := 2;
      assert Drive(next, 1, finished) == Drive(Advance(next, finished), 0, finished);
      assert Drive(s, 2, finished) == Drive(next, 1, finished);
    } else if s.sh.managers[i] != {} {
      n := 1;
      assert Drive(s, 1, finished) == Drive(next, 0, finished);
    } else {
      var m := ProbingIsLoaded(next, finished);
      n := m + 1;
      assert LoadedFrom(s.sh, i) <==> LoadedFrom(s.sh, i + 1);
    }
  }

  /** The executing steps of the protocol run the whole local list, in order. */
  lemma {:induction false} ExecutingRunsAll(s: State, finished: set<nat>)
    requires s.pc.Executing?
    ensures Drive(s, |s.running| + 1, finished) == s.(pc := Processed, running := [], executed := s.executed + s.running)
    decreases |s.running|
  {
    if s.running == [] {
      assert Drive(s, 1, finished) == Drive(Advance(s, finished), 0, finished);
    } else {
      ExecutingRunsAll(Advance(s, finished), finished);
      assert s.executed + [s.running[0]] + s.running[1..] == s.executed + s.running;
    }
  }

  // ----- A pass serves every manager and runs every task

  /** The managers from `i` on without what they got done. */
  function Served(managers: seq<set<nat>>, i: nat, finished: set<nat>): (ms: seq<set<nat>>)
    ensures |ms| == |managers|
    ensures forall m :: 0 <= m < |managers| ==> ms[m] == if m < i then managers[m] else managers[m] - finished
  {
    seq(|managers|, m requires 0 <= m < |managers| => if m < i then managers[m] else managers[m] - finished)
  }

  lemma {:induction false} ProcessingServes(s: State, finished: set<nat>)
    requires s.pc.Processing? && s.pc.i <= |s.sh.managers|
    ensures Drive(s, |s.sh.managers| - s.pc.i + 1, finished)
         == s.(pc := Taking, sh := s.sh.(managers := Served(s.sh.managers, s.pc.i, finished)))
    decreases |s.sh.managers| - s.pc.i
  {
    var i, next := s.pc.i, Advance(s, finished);
    if i == |s.sh.managers| {
      assert Drive(s, 1, finished) == Drive(next, 0, finished);
      assert Served(s.sh.managers, i, finished) == s.sh.managers;
    } else {
      ProcessingServes(next, finished);
      assert Served(next.sh.managers, i + 1, finished) == Served(s.sh.managers, i, finished);
    }
  }

  /** Undisturbed, a woken worker with anything to do serves every manager and then runs every queued task. */
  lemma WokenWorkerServes(s: State, finished: set<nat>) returns (n: nat)
    requires s.pc.Woken? && !s.sh.shutdown && LoadedFrom(s.sh, 0) && s.running == []
    ensures Drive(s, n, finished)
         == s.(pc := Processed, executed := s.executed + s.sh.tasks,
               sh := s.sh.(managers := Served(s.sh.managers, 0, finished), tasks := []))
  {
    var s1 := Advance(s, finished);
    assert Drive(s, 1, finished) == Drive(s1, 0, finished);
    var k := ProbingIsLoaded(s1, finished);
    var s2 := s1.(pc := Processing(0));
    DriveJoins(s, 1, k, finished);
    ProcessingServes(s2, finished);
    var m := |s.sh.managers| + 1;
    DriveJoins(s, 1 + k, m, finished);
    var s3 := Drive(s2, m, finished);
    var s4 := Advance(s3, finished);
    assert Drive(s3, 1, finished) == Drive(s4, 0, finished);
    DriveJoins(s, 1 + k + m, 1, finished);
    ExecutingRunsAll(s4, finished);
    n := 1 + k + m + 1 + (|s4.running| + 1);
    DriveJoins(s, 1 + k + m + 1, |s4.running| + 1, finished);
  }

  /** A step that processes manager `m`. */
  function ServiceOf(s: State, a: Action, m: nat): nat {
    if a.Work? && s.pc == Processing(m) then 1 else 0
  }

  function Services(s: State, acts: seq<Action>, m: nat): nat
    requires Legal(s, acts)
    decreases |acts|
  {
    if acts == [] then 0 else ServiceOf(s, acts[0], m) + Services(Apply(s, acts[0]), acts[1..], m)
  }

  predicate InPass(pc: Pc) {
    pc.Processing? || pc.Taking? || pc.Executing? || pc.Processed?
  }

  /** A run that is in the pass until its last step leaves it. */
  predicate OnePass(s: State, acts: seq<Action>)
    requires Legal(s, acts)
    decreases |acts|
  {
    if acts == [] then !InPass(s.pc) else InPass(s.pc) && OnePass(Apply(s, acts[0]), acts[1..])
  }

  /** Whatever callers do meanwhile, the worker processes every manager exactly once between finding
      something to do and its next doze or its end. */
  lemma {:induction false} EveryManagerIsServed(s: State, acts: seq<Action>, m: nat)
    requires Legal(s, acts) && OnePass(s, acts) && m < |s.sh.managers|
    ensures Services(s, acts, m) == if s.pc.Processing? && s.pc.i <= m then 1 else 0
    decreases |acts|
  {
    if acts == [] {
    } else {
      EveryManagerIsServed(Apply(s, acts[0]), acts[1..], m);
    }
  }

  /** Undisturbed, the worker's shutdown runs the shutdown of every manager to its end, then the tasks that
      are left, and exits. */
  lemma ShutdownServesAll(s: State) returns (n: nat)
    requires s.pc == Ending(0, 0) && Turned(s) && AllEnd(s.turns) && s.running == []
    ensures var s' := Drive(s, n, {});
      && s'.pc.Exited? && s'.executed == s.executed + s.sh.tasks && s'.sh.tasks == []
      && |s'.sh.managers| == |s.sh.managers| && forall m :: 0 <= m < |s.sh.managers| ==> s'.sh.managers[m] == {}
  {
    var k := EndingClears(s);
    var s1 := Drive(s, k, {});
    var s2 := Advance(s1, {});
    assert Drive(s1, 1, {}) == Drive(s2, 0, {});
    DriveJoins(s, k, 1, {});
    EndExecutingRunsAll(s2);
    n := k + 1 + (|s2.running| + 1);
    DriveJoins(s, k + 1, |s2.running| + 1, {});
  }

  lemma {:induction false} EndExecutingRunsAll(s: State)
    requires s.pc.EndExecuting?
    ensures Drive(s, |s.running| + 1, {}) == s.(pc := Exited, running := [], executed := s.executed + s.running)
    decreases |s.running|
  {
    if s.running == [] {
      assert Drive(s, 1, {}) == Drive(Advance(s, {}), 0, {});
    } else {
      EndExecutingRunsAll(Advance(s, {}));
      assert s.executed + [s.running[0]] + s.running[1..] == s.executed + s.running;
    }
  }

  /** From manager `i` on, each manager's shutdown takes its turns and leaves it without work. */
  lemma {:induction false} EndingClears(s: State) returns (n: nat)
    requires s.pc.Ending? && Turned(s) && AllEnd(s.turns)
    requires forall m :: 0 <= m < s.pc.i && m < |s.sh.managers| ==> s.sh.managers[m] == {}
    ensures var s' := Drive(s, n, {});
      && s' == s.(pc := EndTaking, sh := s.sh.(managers := s'.sh.managers))
      && |s'.sh.managers| == |s.sh.managers| && forall m :: 0 <= m < |s.sh.managers| ==> s'.sh.managers[m] == {}
    decreases Left(s)
  {
    EndingAdvances(s, {});
    TurnedStep(s, Work({}));
    var next := Advance(s, {});
    if next.pc.EndTaking? {
      n := 1;
      assert Drive(s, 1, {}) == Drive(next, 0, {});
    } else {
      var k := EndingClears(next);
      n := k + 1;
      assert Drive(s, n, {}) == Drive(next, k, {});
    }
  }
}
