/** When shutdown drains the WebSocket client, when it cannot, and how often it redials by itself. */
module WebSocketLiveness {
  import opened Wrappers
  import opened WebSocketFsm

  // ----- Shutdown

  predicate IsRunning(c: Client) {
    c.body.running || c.queue != []
  }

  /** The shutdown loop, as many turns as there are environments. */
  function Drain(c: Client, envs: seq<Env>): Client
    decreases |envs|
  {
    if !IsRunning(c) || envs == [] then c else Drain(Process(c, envs[0]), envs[1..])
  }

  predicate NoUpdates(queue: seq<Event>) {
    forall i :: 0 <= i < |queue| ==> !queue[i].UpdateConfig?
  }

  /** No reconnecting configuration, and not stopped with the running flag still set. */
  predicate CanDrain(b: Body) {
    && (b.config.Some? ==> !b.config.value.reconnect)
    && !(b.state.Stopped? && b.running)
  }

  predicate AtRest(b: Body) {
    (b.state.Init? || b.state.Stopped?) && !b.running && !b.connected
  }

  /** The loop invariant: the queue ends with a disconnect request or is empty with the client at rest. */
  predicate Closing(c: Client) {
    && Mode(c.body) && CanDrain(c.body) && NoUpdates(c.queue)
    && (if c.queue == [] then AtRest(c.body) else c.queue[|c.queue| - 1].RequestDisconnect?)
  }

  lemma EventCloses(b: Body, e: Event, env: Env)
    requires Mode(b) && CanDrain(b) && !e.UpdateConfig?
    ensures var b' := if b.state.Reconnecting? then Redial(OnEvent(b, e, env), env) else OnEvent(b, e, env);
      Mode(b') && CanDrain(b') && (e.RequestDisconnect? ==> AtRest(b'))
  {
  }

  lemma {:induction false} WorkingCloses(c: Client, env: Env)
    requires Closing(c) && c.body.state.Working?
    ensures Closing(ProcessWorking(c, env)) && |ProcessWorking(c, env).queue| < |c.queue|
    decreases |c.queue|
  {
    EventCloses(c.body, c.queue[0], env);
    if c.queue[0].MessageReceived? {
      WorkingCloses(Take(c, env), env);
    }
  }

  /** One turn of the loop consumes at least one event. */
  lemma TurnCloses(c: Client, env: Env)
    requires Closing(c) && c.queue != []
    ensures Closing(Process(c, env)) && |Process(c, env).queue| < |c.queue|
  {
    if c.body.state.Working? {
      WorkingCloses(c, env);
    } else {
      EventCloses(c.body, c.queue[0], env);
    }
  }

  lemma {:induction false} LoopDrains(c: Client, envs: seq<Env>)
    requires Closing(c) && |envs| >= |c.queue|
    ensures var c' := Drain(c, envs); c'.queue == [] && AtRest(c'.body)
    decreases |envs|
  {
    if c.queue == [] {
    } else {
      TurnCloses(c, envs[0]);
      LoopDrains(Process(c, envs[0]), envs[1..]);
    }
  }

  /** The loop consumes the queue in order and acknowledges what it consumes. */
  lemma {:induction false} LoopKeeps(c: Client, envs: seq<Env>)
    requires Inv(c)
    ensures var c' := Drain(c, envs); Inv(c') && c'.consumed + c'.queue == c.consumed + c.queue
    decreases |envs|
  {
    if !IsRunning(c) || envs == [] {
    } else {
      ProcessKeeps(c, envs[0]);
      ProcessTakesPrefix(c, envs[0]);
      LoopKeeps(Process(c, envs[0]), envs[1..]);
    }
  }

  /** Shutdown of a reachable client with no queued configuration update, no reconnecting configuration
      and not stopped while marked running: whatever the environment does, the loop ends within as many
      turns as events are queued, its own disconnect included, with the queue empty and the client at
      rest; every queued event was consumed, and every request acknowledged exactly once in queue order. */
  lemma ShutdownDrains(acts: seq<Action>, envs: seq<Env>)
    requires var c := Run(START, acts); NoUpdates(c.queue) && CanDrain(c.body) && |envs| >= |c.queue| + 1
    ensures var c := Run(START, acts + [Enqueue(RequestDisconnect(None))]);
      var c' := Drain(c, envs);
      && c'.queue == [] && AtRest(c'.body)
      && c'.consumed == c.consumed + c.queue && Acked(c'.body.acks) == Due(c'.consumed)
  {
    var c := Run(START, acts + [Enqueue(RequestDisconnect(None))]);
    RunKeeps(START, acts);
    RunAppend(START, acts, Enqueue(RequestDisconnect(None)));
    LoopDrains(c, envs);
    LoopKeeps(c, envs);
  }

  lemma {:induction false} RunAppend(c: Client, acts: seq<Action>, a: Action)
    ensures Run(c, acts + [a]) == Act(Run(c, acts), a)
    decreases |acts|
  {
    if acts == [] {
    } else {
      assert (acts + [a])[1..] == acts[1..] + [a];
      RunAppend(Act(c, acts[0]), acts[1..], a);
    }
  }

  lemma RunTwo(c: Client, e: Event, env: Env, rest: seq<Action>)
    ensures Run(c, [Enqueue(e), Step(env)] + rest) == Run(Process(Act(c, Enqueue(e)), env), rest)
  {
    var acts := [Enqueue(e), Step(env)] + rest;
    assert acts[1..] == [Step(env)] + rest && acts[1..][1..] == rest;
  }

  // ----- A disconnect while reconnecting

  /** The reconnect logic would dial now. */
  predicate RedialDue(b: Body, now: nat)
    requires b.config.Some?
  {
    && b.config.value.reconnect && (b.config.value.attempts == 0 || b.attempt < b.config.value.attempts)
    && ToSeconds(now - b.closeTime) >= b.config.value.delay
  }

  /** RECONNECTING falls through into the reconnect logic after acknowledging a disconnect, so the client
      ends up disconnected exactly when no redial is due at that moment. */
  lemma DisconnectHoldsIffNoRedialDue(c: Client, env: Env)
    requires Inv(c) && c.body.state.Reconnecting? && c.queue != [] && c.queue[0].RequestDisconnect?
    ensures var c' := Process(c, env);
      && (c.queue[0].ack.Some? ==> c'.body.acks == c.body.acks + [Ack(c.queue[0].ack.value, true)])
      && (AtRest(c'.body) && c'.body.state.Init? <==> !RedialDue(c.body, env.now))
  {
  }

  const EAGER := Config(true, 0, 0)

  /** A client that lost its connection while connecting, with zero delay and unbounded attempts. */
  function LostClient(now: nat): Client {
    Client(Body(Reconnecting, true, false, 1, now, Some(EAGER), [], [], 0), [],
           [UpdateConfig(Some(EAGER), None), RequestConnect(None), ConnectionClosed])
  }

  lemma LostIsReachable(now: nat)
    ensures var turn := Step(Env(now, true, true));
      Run(START, [Enqueue(UpdateConfig(Some(EAGER), None)), turn, Enqueue(RequestConnect(None)), turn,
                  Enqueue(ConnectionClosed), turn]) == LostClient(now)
  {
    var env := Env(now, true, true);
    var e1, e2, e3 := UpdateConfig(Some(EAGER), None), RequestConnect(None), ConnectionClosed;
    RunTwo(START, e1, env, [Enqueue(e2), Step(env), Enqueue(e3), Step(env)]);
    var c1 := Client(START.body.(config := e1.config), [], [e1]);
    assert Process(Act(START, Enqueue(e1)), env) == c1;
    RunTwo(c1, e2, env, [Enqueue(e3), Step(env)]);
    var c2 := Client(c1.body.(state := Connecting, running := true), [], [e1, e2]);
    assert Process(Act(c1, Enqueue(e2)), env) == c2;
    RunTwo(c2, e3, env, []);
  }

  /** Concretely: that client acknowledges a disconnect and is connecting again. */
  lemma DisconnectIsUndone(now: nat)
    ensures var c := Run(LostClient(now), [Enqueue(RequestDisconnect(Some(7))), Step(Env(now, true, true))]);
      c.body.state.Connecting? && c.body.running && c.body.acks == [Ack(7, true)] && c.body.autos == 1
  {
    var c, e, env := LostClient(now), RequestDisconnect(Some(7)), Env(now, true, true);
    RunTwo(c, e, env, []);
    assert [Enqueue(e), Step(env)] + [] == [Enqueue(e), Step(env)];
    assert Process(Act(c, Enqueue(e)), env).body == c.body.(state := Connecting, acks := [Ack(7, true)], autos := 1);
  }

  // ----- Where shutdown never ends

  predicate NoRevival(queue: seq<Event>) {
    forall i :: 0 <= i < |queue| ==> !queue[i].UpdateConfig? && !queue[i].RequestConnect?
  }

  /** A client stopped with the running flag set ignores disconnect requests: the loop runs for ever. */
  lemma {:induction false} StoppedNeverDrains(c: Client, envs: seq<Env>)
    requires c.body.state.Stopped? && c.body.running && NoRevival(c.queue)
    ensures IsRunning(Drain(c, envs)) && Drain(c, envs).body.state.Stopped?
    decreases |envs|
  {
    if envs == [] {
    } else {
      StoppedNeverDrains(Process(c, envs[0]), envs[1..]);
    }
  }

  /** CONNECTING with nothing queued never moves, so a running client there never drains. */
  lemma {:induction false} ConnectingNeverDrains(c: Client, envs: seq<Env>)
    requires c.body.state.Connecting? && c.body.running && c.queue == []
    ensures Drain(c, envs) == c
    decreases |envs|
  {
    if envs == [] {
    } else {
      ConnectingNeverDrains(c, envs[1..]);
    }
  }

  /** What the caller of shutdown can check: the client is not stopped with the running flag set, and it
      is not about to redial with success in the very step that consumes the disconnect. */
  predicate Drainable(b: Body, env: Env) {
    && !(b.state.Stopped? && b.running)
    && !(b.state.Reconnecting? && b.config.Some? && RedialDue(b, env.now) && env.secondOk)
  }

  /** The client that shutdown's loop starts with. */
  function Shut(c: Client): Client {
    Act(c, Enqueue(RequestDisconnect(None)))
  }

  /** A queue whose last event is shutdown's disconnect. */
  predicate Disconnecting(queue: seq<Event>) {
    queue != [] && queue[|queue| - 1] == RequestDisconnect(None)
  }

  /** The client is drainable in the turn that consumes the last event of its queue, the disconnect. */
  predicate DrainsAt(c: Client, envs: seq<Env>)
    decreases |envs|
  {
    envs != [] &&
    var c' := Process(c, envs[0]);
    if c'.queue == [] then Drainable(c.body, envs[0]) else DrainsAt(c', envs[1..])
  }

  /** Every turn consumes events from the front, at least one. */
  lemma {:induction false} WorkingConsumes(c: Client, env: Env)
    requires c.body.state.Working?
    ensures var q := ProcessWorking(c, env).queue;
      |q| <= |c.queue| && q == c.queue[|c.queue| - |q|..] && (c.queue != [] ==> |q| < |c.queue|)
    decreases |c.queue|
  {
    if c.queue == [] {
    } else if c.queue[0].MessageReceived? {
      WorkingConsumes(Take(c, env), env);
    }
  }

  lemma TurnConsumes(c: Client, env: Env)
    requires c.queue != []
    ensures var q := Process(c, env).queue; |q| < |c.queue| && q == c.queue[|c.queue| - |q|..]
  {
    if c.body.state.Working? { WorkingConsumes(c, env); }
  }

  /** In WORKING the turn that reaches the disconnect hangs up. */
  lemma {:induction false} WorkingHangsUp(c: Client, env: Env)
    requires c.body.state.Working? && Disconnecting(c.queue) && ProcessWorking(c, env).queue == []
    ensures !ProcessWorking(c, env).body.running
    decreases |c.queue|
  {
    if c.queue[0].MessageReceived? {
      assert |c.queue| > 1;
      WorkingHangsUp(Take(c, env), env);
    } else {
      assert |c.queue| == 1;
    }
  }

  /** The turn that consumes shutdown's disconnect decides. */
  lemma DisconnectDecides(c: Client, env: Env)
    requires Inv(c) && Disconnecting(c.queue) && Process(c, env).queue == []
    ensures var c' := Process(c, env);
      && (Drainable(c.body, env) ==> !c'.body.running)
      && (!Drainable(c.body, env) ==> c'.body.running && (c'.body.state.Stopped? || c'.body.state.Connecting?))
  {
    if c.body.state.Working? {
      WorkingHangsUp(c, env);
    } else {
      assert |c.queue| == 1;
    }
  }

  /** Shutdown of any reachable client, whatever is queued and no event arriving meanwhile, ends if and
      only if the client is drainable in the turn that consumes the disconnect: by then it is over, or no
      number of turns is enough. */
  lemma {:induction false} ShutdownEndsIffDrainable(c: Client, envs: seq<Env>)
    requires Inv(c) && Disconnecting(c.queue) && |envs| >= |c.queue|
    ensures !IsRunning(Drain(c, envs)) <==> DrainsAt(c, envs)
    decreases |envs|
  {
    var c' := Process(c, envs[0]);
    TurnConsumes(c, envs[0]);
    ProcessKeeps(c, envs[0]);
    if c'.queue == [] {
      DisconnectDecides(c, envs[0]);
      LastTurnDecides(c', envs[1..]);
    } else {
      assert c'.queue[|c'.queue| - 1] == c.queue[|c.queue| - 1];
      ShutdownEndsIffDrainable(c', envs[1..]);
    }
  }

  /** From the turn that consumed the disconnect on nothing changes any more. */
  lemma LastTurnDecides(c: Client, envs: seq<Env>)
    requires c.queue == [] && (c.body.running ==> c.body.state.Stopped? || c.body.state.Connecting?)
    ensures IsRunning(Drain(c, envs)) <==> c.body.running
  {
    if !c.body.running {
    } else if c.body.state.Stopped? {
      StoppedNeverDrains(c, envs);
    } else {
      ConnectingNeverDrains(c, envs);
    }
  }

  /** Environments beyond the queue's length do not matter. */
  lemma {:induction false} DrainsAtOnce(c: Client, a: seq<Env>, b: seq<Env>)
    requires c.queue != [] && |a| >= |c.queue|
    ensures DrainsAt(c, a + b) <==> DrainsAt(c, a)
    decreases |a|
  {
    var c' := Process(c, a[0]);
    TurnConsumes(c, a[0]);
    assert (a + b)[0] == a[0] && (a + b)[1..] == a[1..] + b;
    if c'.queue == [] {
    } else {
      DrainsAtOnce(c', a[1..], b);
    }
  }

  /** A client that has stopped running stays so. */
  lemma {:induction false} DrainJoins(c: Client, a: seq<Env>, b: seq<Env>)
    ensures Drain(c, a + b) == Drain(Drain(c, a), b)
    decreases |a|
  {
    if !IsRunning(c) || a == [] {
      assert a == [] ==> a + b == b;
    } else {
      assert (a + b)[0] == a[0] && (a + b)[1..] == a[1..] + b;
      DrainJoins(Process(c, a[0]), a[1..], b);
    }
  }

  /** Such a client is reachable: a null configuration update while connecting. */
  lemma StoppedWhileRunning(cfg: Config, now: nat)
    ensures var ok := Step(Env(now, true, true));
      var c := Run(START, [Enqueue(UpdateConfig(Some(cfg), None)), ok, Enqueue(RequestConnect(None)), ok,
                           Enqueue(UpdateConfig(None, None)), ok]);
      c.body.state.Stopped? && c.body.running && c.queue == []
  {
    var env := Env(now, true, true);
    var e1, e2, e3 := UpdateConfig(Some(cfg), None), RequestConnect(None), UpdateConfig(None, None);
    RunTwo(START, e1, env, [Enqueue(e2), Step(env), Enqueue(e3), Step(env)]);
    var c1 := Process(Act(START, Enqueue(e1)), env);
    RunTwo(c1, e2, env, [Enqueue(e3), Step(env)]);
    var c2 := Process(Act(c1, Enqueue(e2)), env);
    RunTwo(c2, e3, env, []);
  }

  // ----- Bounded automatic reconnection

  /** Events other than an opened connection and user requests. */
  predicate Passive(e: Event) {
    e.ConnectionClosed? || e.ConnectionError? || e.MessageReceived?
  }

  predicate AllPassive(queue: seq<Event>) {
    forall i :: 0 <= i < |queue| ==> Passive(queue[i])
  }

  predicate PassiveActions(acts: seq<Action>) {
    forall i :: 0 <= i < |acts| && acts[i].Enqueue? ==> Passive(acts[i].e)
  }

  /** How many automatic dials are still possible with at most `n` attempts. */
  function Budget(b: Body, n: nat): nat {
    match b.state
    case Reconnecting => if b.attempt < n then n - b.attempt else 0
    case Connecting => if b.attempt + 1 < n then n - 1 - b.attempt else 0
    case Working => if b.attempt + 1 < n then n - 1 - b.attempt else 0
    case _ => 0
  }

  predicate Attempts(b: Body, n: nat) {
    Mode(b) && (b.config.Some? ==> b.config.value.attempts == n)
  }

  /** A passive event and the redial after it spend what they use of the budget. */
  lemma EventSpends(b: Body, e: Event, env: Env, n: nat)
    requires Attempts(b, n) && n > 0 && Passive(e) && !b.state.Reconnecting?
    ensures var b' := OnEvent(b, e, env);
      Attempts(b', n) && b'.autos == b.autos && Budget(b', n) <= Budget(b, n)
  {
  }

  lemma RedialSpends(b: Body, env: Env, n: nat)
    requires Attempts(b, n) && n > 0 && b.state.Reconnecting?
    ensures var b' := Redial(b, env);
      Attempts(b', n) && b'.autos + Budget(b', n) <= b.autos + Budget(b, n)
  {
  }

  lemma PassiveWhileReconnecting(b: Body, e: Event, env: Env)
    requires b.state.Reconnecting? && Passive(e)
    ensures OnEvent(b, e, env) == b || OnEvent(b, e, env) == Report(b, Message)
  {
  }

  ghost predicate Spends(c: Client, c': Client, n: nat) {
    && Attempts(c'.body, n) && AllPassive(c'.queue)
    && c'.body.autos + Budget(c'.body, n) <= c.body.autos + Budget(c.body, n)
  }

  lemma {:induction false} WorkingSpends(c: Client, env: Env, n: nat)
    requires Attempts(c.body, n) && n > 0 && AllPassive(c.queue) && c.body.state.Working?
    ensures Spends(c, ProcessWorking(c, env), n)
    decreases |c.queue|
  {
    if c.queue == [] {
    } else {
      EventSpends(c.body, c.queue[0], env, n);
      if c.queue[0].MessageReceived? { WorkingSpends(Take(c, env), env, n); }
    }
  }

  lemma ProcessSpends(c: Client, env: Env, n: nat)
    requires Attempts(c.body, n) && n > 0 && AllPassive(c.queue)
    ensures Spends(c, Process(c, env), n)
  {
    if c.body.state.Working? {
      WorkingSpends(c, env, n);
    } else if c.body.state.Reconnecting? {
      if c.queue != [] { PassiveWhileReconnecting(c.body, c.queue[0], env); }
      RedialSpends((if c.queue == [] then c else Take(c, env)).body, env, n);
    } else if c.queue != [] {
      EventSpends(c.body, c.queue[0], env, n);
    }
  }

  lemma {:induction false} StretchSpends(c: Client, acts: seq<Action>, n: nat)
    requires Attempts(c.body, n) && n > 0 && AllPassive(c.queue) && PassiveActions(acts)
    ensures Run(c, acts).body.autos <= c.body.autos + Budget(c.body, n)
    decreases |acts|
  {
    if acts == [] {
    } else {
      if acts[0].Step? { ProcessSpends(c, acts[0].env, n); }
      StretchSpends(Act(c, acts[0]), acts[1..], n);
    }
  }

  /** Bounded automatic reconnection: in any stretch of any run in which no connection opens and the user
      requests nothing, a client configured for `n > 0` attempts dials automatically at most n - 1 times. */
  lemma ReconnectionIsBounded(before: seq<Action>, stretch: seq<Action>, n: nat)
    requires n > 0 && PassiveActions(stretch)
    requires var c := Run(START, before);
      AllPassive(c.queue) && (c.body.config.Some? ==> c.body.config.value.attempts == n)
    ensures Run(Run(START, before), stretch).body.autos - Run(START, before).body.autos <= n - 1
  {
    RunInvariant(before);
    StretchSpends(Run(START, before), stretch, n);
  }
}
