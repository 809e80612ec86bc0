/** What the WebSocket client reports and answers for the events it consumes. */
module WebSocketReports {
  import opened Wrappers
  import opened WebSocketFsm
  import opened WebSocketLiveness

  /** An event and the state of the client that consumed it. */
  datatype Handling = Handling(state: FsmState, event: Event)

  /** The messages at the front of the queue and the event after them. */
  function Front(queue: seq<Event>): seq<Event> {
    if queue == [] then []
    else if queue[0].MessageReceived? then [queue[0]] + Front(queue[1..])
    else [queue[0]]
  }

  function InState(state: FsmState, events: seq<Event>): seq<Handling> {
    if events == [] then [] else [Handling(state, events[0])] + InState(state, events[1..])
  }

  /** What one processing step consumes: messages up to another event in WORKING, else one event. */
  function Handled(c: Client): seq<Handling> {
    if c.body.state.Working? then InState(Working, Front(c.queue))
    else if c.queue == [] then []
    else [Handling(c.body.state, c.queue[0])]
  }

  function History(c: Client, acts: seq<Action>): seq<Handling>
    decreases |acts|
  {
    if acts == [] then [] else (if acts[0].Step? then Handled(c) else []) + History(Act(c, acts[0]), acts[1..])
  }

  /** The event calls for the report: an open while connecting, the end of a connection, a message. */
  predicate Calls(h: Handling, o: Output) {
    match o
    case Opened => h.state.Connecting? && h.event.ConnectionOpened?
    case Closed =>
      h.state.Working? &&
      (h.event.RequestDisconnect? || h.event.ConnectionError? || h.event.ConnectionClosed? || h.event.UpdateConfig?)
    case Message => (h.state.Working? || h.state.Reconnecting?) && h.event.MessageReceived?
    case Errored => false
  }

  function Called(hs: seq<Handling>, o: Output): nat {
    if hs == [] then 0 else (if Calls(hs[0], o) then 1 else 0) + Called(hs[1..], o)
  }

  function Reported(outputs: seq<Output>, o: Output): nat {
    if outputs == [] then 0
    else Reported(outputs[..|outputs| - 1], o) + if outputs[|outputs| - 1] == o then 1 else 0
  }

  lemma {:induction false} ReportedJoins(a: seq<Output>, b: seq<Output>, o: Output)
    ensures Reported(a + b, o) == Reported(a, o) + Reported(b, o)
    decreases |b|
  {
    if b == [] {
      assert a + b == a;
    } else {
      var n := |b| - 1;
      ReportedJoins(a, b[..n], o);
      assert (a + b)[..|a| + n] == a + b[..n];
    }
  }

  lemma ReportedFew(x: Output, y: Output, o: Output)
    ensures Reported([], o) == 0 && Reported([x], o) == (if x == o then 1 else 0)
    ensures Reported([x, y], o) == (if x == o then 1 else 0) + (if y == o then 1 else 0)
  {
    assert [x][..0] == [] && [x, y][..1] == [x];
  }

  lemma {:induction false} CalledJoins(a: seq<Handling>, b: seq<Handling>, o: Output)
    ensures Called(a + b, o) == Called(a, o) + Called(b, o)
  {
    if a == [] {
      assert a + b == b;
    } else {
      assert (a + b)[1..] == a[1..] + b;
      CalledJoins(a[1..], b, o);
    }
  }

  // ----- One event

  /** What handling an event adds to the reports: what it calls for, and at most one error around it. */
  predicate Emits(b: Body, b': Body, h: Handling, os: seq<Output>) {
    && b'.outputs == b.outputs + os
    && (if Calls(h, Opened) then os == [Opened]
        else if Calls(h, Message) then os == [Message]
        else if Calls(h, Closed) then os == [Closed] || os == [Errored, Closed] || os == [Closed, Errored]
        else os == [] || os == [Errored])
  }

  lemma EmissionCounts(b: Body, b': Body, h: Handling, os: seq<Output>, o: Output)
    requires Emits(b, b', h, os) && o != Errored
    ensures Reported(b'.outputs, o) == Reported(b.outputs, o) + if Calls(h, o) then 1 else 0
  {
    ReportedJoins(b.outputs, os, o);
    ReportedFew(Opened, Errored, o);
    ReportedFew(Message, Errored, o);
    ReportedFew(Closed, Errored, o);
    ReportedFew(Errored, Closed, o);
  }

  /** The end of an open connection. */
  lemma LeavingEmits(b: Body, e: Event, env: Env) returns (os: seq<Output>)
    requires Mode(b) && b.state.Working? && Calls(Handling(b.state, e), Closed)
    ensures Emits(b, OnEvent(b, e, env), Handling(b.state, e), os)
  {
    var b' := OnEvent(b, e, env);
    if e.ConnectionError? {
      os := [Errored, Closed];
      assert b.outputs + [Errored] + [Closed] == b.outputs + os;
    } else if e.UpdateConfig? && (e.config.None? || !env.firstOk) {
      os := [Closed, Errored];
      assert b.outputs + [Closed] + [Errored] == b.outputs + os;
    } else {
      os := [Closed];
    }
  }

  lemma EventEmits(b: Body, e: Event, env: Env) returns (os: seq<Output>)
    requires Mode(b)
    ensures Emits(b, OnEvent(b, e, env), Handling(b.state, e), os)
  {
    var h := Handling(b.state, e);
    if Calls(h, Closed) {
      os := LeavingEmits(b, e, env);
    } else if Calls(h, Opened) {
      os := [Opened];
    } else if Calls(h, Message) {
      os := [Message];
    } else {
      os := QuietEmits(b, e, env);
    }
  }

  /** An event that calls for no report may still meet an error. */
  lemma QuietEmits(b: Body, e: Event, env: Env) returns (os: seq<Output>)
    requires Mode(b) && !Calls(Handling(b.state, e), Opened) && !Calls(Handling(b.state, e), Message)
    requires !Calls(Handling(b.state, e), Closed)
    ensures (os == [] || os == [Errored]) && OnEvent(b, e, env).outputs == b.outputs + os
  {
    os := if |OnEvent(b, e, env).outputs| == |b.outputs| then [] else [Errored];
  }

  lemma EventReports(b: Body, e: Event, env: Env, o: Output)
    requires Mode(b) && o != Errored
    ensures Reported(OnEvent(b, e, env).outputs, o) == Reported(b.outputs, o) + if Calls(Handling(b.state, e), o) then 1 else 0
  {
    var os := EventEmits(b, e, env);
    EmissionCounts(b, OnEvent(b, e, env), Handling(b.state, e), os, o);
  }

  lemma RedialReports(b: Body, env: Env, o: Output)
    requires o != Errored
    ensures Reported(Redial(b, env).outputs, o) == Reported(b.outputs, o)
  {
    ReportedJoins(b.outputs, [Errored], o);
    ReportedFew(Errored, Errored, o);
  }

  // ----- Whole runs

  lemma {:induction false} WorkingReports(c: Client, env: Env, o: Output)
    requires Inv(c) && c.body.state.Working? && o != Errored
    ensures Reported(ProcessWorking(c, env).body.outputs, o)
         == Reported(c.body.outputs, o) + Called(InState(Working, Front(c.queue)), o)
    decreases |c.queue|
  {
    if c.queue == [] {
    } else {
      EventReports(c.body, c.queue[0], env, o);
      var rest := InState(Working, Front(c.queue)[1..]);
      assert InState(Working, Front(c.queue)) == [Handling(Working, c.queue[0])] + rest;
      assert ([Handling(Working, c.queue[0])] + rest)[1..] == rest;
      if c.queue[0].MessageReceived? {
        TakeKeeps(c, env);
        assert Front(c.queue)[1..] == Front(c.queue[1..]);
        WorkingReports(Take(c, env), env, o);
      }
    }
  }

  lemma StepReports(c: Client, env: Env, o: Output)
    requires Inv(c) && o != Errored
    ensures Reported(Process(c, env).body.outputs, o) == Reported(c.body.outputs, o) + Called(Handled(c), o)
  {
    if c.body.state.Working? {
      WorkingReports(c, env, o);
    } else if c.queue != [] {
      EventReports(c.body, c.queue[0], env, o);
      RedialReports(OnEvent(c.body, c.queue[0], env), env, o);
      assert Called([Handling(c.body.state, c.queue[0])][1..], o) == 0;
    } else {
      RedialReports(c.body, env, o);
    }
  }

  lemma {:induction false} RunReports(c: Client, acts: seq<Action>, o: Output)
    requires Inv(c) && o != Errored
    ensures Reported(Run(c, acts).body.outputs, o) == Reported(c.body.outputs, o) + Called(History(c, acts), o)
    decreases |acts|
  {
    if acts == [] {
    } else {
      var c' := Act(c, acts[0]);
      if acts[0].Step? {
        StepReports(c, acts[0].env, o);
        ProcessKeeps(c, acts[0].env);
        CalledJoins(Handled(c), History(c', acts[1..]), o);
      } else {
        assert [] + History(c', acts[1..]) == History(c', acts[1..]);
      }
      RunReports(c', acts[1..], o);
    }
  }

  /** Over every run, an open is reported once for each ConnectionOpened consumed while connecting, a message
      once for each one consumed in WORKING or RECONNECTING, and a close once for each event that ended an
      open connection. */
  lemma ReportsAreDue(acts: seq<Action>, o: Output)
    requires o != Errored
    ensures Reported(Run(START, acts).body.outputs, o) == Called(History(START, acts), o)
  {
    RunReports(START, acts, o);
  }

  /** Opening: a connecting client that consumes ConnectionOpened is connected, in WORKING, has reported
      exactly one open and starts counting its reconnection attempts afresh. */
  lemma OpenedConnects(c: Client, env: Env)
    requires Inv(c) && c.body.state.Connecting? && c.queue != [] && c.queue[0].ConnectionOpened?
    ensures var b := Process(c, env).body;
      && b.state.Working? && b.connected && b.running && b.attempt == 0
      && b.outputs == c.body.outputs + [Opened] && b.acks == c.body.acks && b.config == c.body.config
  {
  }

  /** One message, then the loss of the connection, for a client with nothing else queued. */
  lemma UsedAndLost(c: Client, env: Env)
    requires Inv(c) && c.body.state.Working? && c.queue == [] && c.body.config.value.reconnect
    ensures var b := Run(c, [Enqueue(MessageReceived), Step(env), Enqueue(ConnectionClosed), Step(env)]).body;
      && b.outputs == c.body.outputs + [Message] + [Closed] && b.acks == c.body.acks
      && b.state.Reconnecting? && b.attempt == c.body.attempt + 1 && b.closeTime == env.now
  {
    var c1 := Act(c, Enqueue(MessageReceived));
    assert c1.queue == [MessageReceived] && c1.queue[1..] == [];
    var c2 := Take(c1, env);
    assert ProcessWorking(c2, env) == c2 && Process(c1, env) == c2;
    var c3 := Act(c2, Enqueue(ConnectionClosed));
    assert c3.queue == [ConnectionClosed] && c3.queue[1..] == [];
    assert Process(c3, env) == Take(c3, env);
    var rest := [Enqueue(ConnectionClosed), Step(env)];
    RunTwo(c, MessageReceived, env, rest);
    RunTwo(c2, ConnectionClosed, env, []);
    assert [Enqueue(MessageReceived), Step(env)] + rest == [Enqueue(MessageReceived), Step(env), Enqueue(ConnectionClosed), Step(env)];
    assert rest == rest + [];
  }

  /** A run that opens a connection, receives a message and loses the connection again. */
  lemma ConnectionIsUsed(cfg: Config, now: nat)
    requires cfg.reconnect
    ensures var turn := Step(Env(now, true, true));
      var c := Run(START, [Enqueue(UpdateConfig(Some(cfg), Some(1))), turn, Enqueue(RequestConnect(Some(2))), turn,
                           Enqueue(ConnectionOpened), turn] +
                          [Enqueue(MessageReceived), turn, Enqueue(ConnectionClosed), turn]);
      && c.body.outputs == [Opened, Message, Closed] && c.body.acks == [Ack(1, true), Ack(2, true)]
      && c.body.state.Reconnecting? && c.body.attempt == 1 && c.body.closeTime == now
  {
    var env := Env(now, true, true);
    RunThree(cfg, env, [Enqueue(MessageReceived), Step(env), Enqueue(ConnectionClosed), Step(env)]);
    OpeningKeeps(cfg, env);
    UsedAndLost(Opening(cfg), env);
  }

  lemma OpeningKeeps(cfg: Config, env: Env)
    requires env.firstOk
    ensures Inv(Opening(cfg))
  {
    var acts := [Enqueue(UpdateConfig(Some(cfg), Some(1))), Step(env), Enqueue(RequestConnect(Some(2))), Step(env),
                 Enqueue(ConnectionOpened), Step(env)];
    RunThree(cfg, env, []);
    assert acts + [] == acts;
    RunKeeps(START, acts);
    assert Run(Opening(cfg), []) == Opening(cfg);
  }

  /** The client of that run once its connection is open. */
  function Opening(cfg: Config): Client {
    Client(Body(Working, true, true, 0, 0, Some(cfg), [Opened], [Ack(1, true), Ack(2, true)], 0), [],
           [UpdateConfig(Some(cfg), Some(1)), RequestConnect(Some(2)), ConnectionOpened])
  }

  lemma OpensFirst(cfg: Config, env: Env)
    requires env.firstOk
    ensures Process(Act(Process(Act(Process(Act(START, Enqueue(UpdateConfig(Some(cfg), Some(1)))), env),
                    Enqueue(RequestConnect(Some(2)))), env), Enqueue(ConnectionOpened)), env) == Opening(cfg)
  {
    var e1, e2 := UpdateConfig(Some(cfg), Some(1)), RequestConnect(Some(2));
    var c1 := Client(START.body.(config := Some(cfg), acks := [Ack(1, true)]), [], [e1]);
    assert Process(Act(START, Enqueue(e1)), env) == c1;
    var c2 := Client(c1.body.(state := Connecting, running := true, acks := [Ack(1, true), Ack(2, true)]), [], [e1, e2]);
    assert Process(Act(c1, Enqueue(e2)), env) == c2;
  }

  lemma RunThree(cfg: Config, env: Env, rest: seq<Action>)
    requires env.firstOk
    ensures Run(START, [Enqueue(UpdateConfig(Some(cfg), Some(1))), Step(env), Enqueue(RequestConnect(Some(2))), Step(env),
                        Enqueue(ConnectionOpened), Step(env)] + rest) == Run(Opening(cfg), rest)
  {
    var e1, e2 := UpdateConfig(Some(cfg), Some(1)), RequestConnect(Some(2));
    OpensFirst(cfg, env);
    var two := [Enqueue(ConnectionOpened), Step(env)] + rest;
    var four := [Enqueue(e2), Step(env)] + two;
    RunTwo(START, e1, env, four);
    var c1 := Process(Act(START, Enqueue(e1)), env);
    RunTwo(c1, e2, env, two);
    RunTwo(Process(Act(c1, Enqueue(e2)), env), ConnectionOpened, env, rest);
    assert [Enqueue(e1), Step(env), Enqueue(e2), Step(env), Enqueue(ConnectionOpened), Step(env)] + rest
        == [Enqueue(e1), Step(env)] + four;
  }

  // ----- What a callback is told

  /** The request took effect: a connection is being made, a connection or attempt was given up, a valid
      configuration is in use. */
  predicate TookEffect(b: Body, e: Event, b': Body) {
    match e
    case RequestConnect(_) => (b.state.Init? || b.state.Stopped?) && b'.state.Connecting? && b'.running
    case RequestDisconnect(_) => b.running && !b.state.Stopped? && b'.state.Init? && !b'.running && !b'.connected
    case UpdateConfig(config, _) => config.Some? && b'.config == config && (b'.state.Connecting? || b.state.Init?)
    case _ => false
  }

  /** A callback is told true exactly when its request took effect. */
  lemma CallbacksTellEffect(b: Body, e: Event, env: Env)
    requires Mode(b) && AckOf(e).Some?
    ensures OnEvent(b, e, env).acks == b.acks + [Ack(AckOf(e).value, TookEffect(b, e, OnEvent(b, e, env)))]
  {
  }

  /** What becomes of the configuration and of the attempt counter: an update always replaces the
      configuration, nothing else touches it; a request that takes effect while a connection or an attempt
      exists starts the count afresh, a disconnect while reconnecting apart, and a loss adds one. */
  lemma EventsSetUp(b: Body, e: Event, env: Env)
    requires Mode(b)
    ensures var b' := OnEvent(b, e, env);
      && b'.config == (if e.UpdateConfig? then e.config else b.config)
      && ((b.state.Connecting? || b.state.Working?) && (e.RequestDisconnect? || (e.UpdateConfig? && e.config.Some?)) ==> b'.attempt == 0)
      && ((b.state.Reconnecting? || b.state.Stopped?) && e.UpdateConfig? && e.config.Some? ==> b'.attempt == 0)
      && ((b.state.Connecting? || b.state.Working?) && (e.ConnectionError? || e.ConnectionClosed?) && b.config.value.reconnect ==>
            b'.attempt == b.attempt + 1 && b'.closeTime == env.now && b'.state.Reconnecting?)
      && ((b.state.Connecting? || b.state.Working?) && (e.ConnectionError? || e.ConnectionClosed?) && !b.config.value.reconnect ==>
            b'.state.Init? && !b'.running)
  {
  }

  /** The event meets an error: trouble on a connection or attempt, or a dial that fails. */
  predicate Errs(b: Body, e: Event, b': Body) {
    || ((b.state.Connecting? || b.state.Working?) && (e.ConnectionError? || (e.UpdateConfig? && b'.state.Stopped?)))
    || ((b.state.Init? || b.state.Stopped?) && e.RequestConnect? && b'.state.Stopped?)
    || ((b.state.Reconnecting? || b.state.Stopped?) && e.UpdateConfig? && b'.state.Stopped?)
  }

  /** Errors are reported exactly when they are met: handling an event adds the reports it calls for and,
      if it errs, one error. */
  lemma ErrorsAreReported(b: Body, e: Event, env: Env)
    requires Mode(b)
    ensures var b', h := OnEvent(b, e, env), Handling(b.state, e);
      |b'.outputs| == |b.outputs| + (if Calls(h, Opened) || Calls(h, Closed) || Calls(h, Message) then 1 else 0)
                                  + (if Errs(b, e, b') then 1 else 0)
  {
  }

  /** A redial is due from the configured number of seconds after the loss on. */
  lemma RedialDelayIs(b: Body, now: nat)
    requires b.config.Some? && b.closeTime <= now
    ensures RedialDue(b, now) <==>
      && b.config.value.reconnect && (b.config.value.attempts == 0 || b.attempt < b.config.value.attempts)
      && now - b.closeTime >= b.config.value.delay * 1_000_000_000
  {
  }

  /** While reconnecting with nothing queued, the client dials exactly when a redial is due, gives up exactly
      when reconnection is off or its attempts are used up, and otherwise waits. */
  lemma ReconnectingDials(c: Client, env: Env)
    requires Inv(c) && c.body.state.Reconnecting? && c.queue == []
    ensures var b, b' := c.body, Process(c, env).body;
      && (RedialDue(b, env.now) ==> b'.autos == b.autos + 1 && (if env.secondOk then b'.state.Connecting? else b'.state.Stopped?))
      && (!RedialDue(b, env.now) ==> b'.autos == b.autos)
      && (b'.state.Init? <==> !b.config.value.reconnect || (b.config.value.attempts != 0 && b.attempt >= b.config.value.attempts))
      && (b'.state.Reconnecting? ==> b' == b)
      && b'.outputs == b.outputs + (if RedialDue(b, env.now) && !env.secondOk then [Errored] else [])
  {
  }
}
