/** The WebSocket client's state machine: five states, seven events, a queue, and reconnect logic.
    `init_websocket` is an environment that may fail. */
module WebSocketFsm {
  import opened Wrappers

  datatype FsmState = Init | Connecting | Working | Reconnecting | Stopped

  /** Delay in seconds; zero attempts mean no bound. */
  datatype Config = Config(reconnect: bool, attempts: int, delay: int)

  /** `ack` identifies the caller's completion callback, if any. */
  datatype Event =
    | RequestConnect(ack: Option<nat>)
    | RequestDisconnect(ack: Option<nat>)
    | ConnectionOpened
    | ConnectionClosed
    | ConnectionError
    | MessageReceived
    | UpdateConfig(config: Option<Config>, ack: Option<nat>)

  /** Events handed to the user. */
  datatype Output = Opened | Closed | Errored | Message

  datatype Ack = Ack(id: nat, ok: bool)

  /** The client's fields, and the history of what it reported, acknowledged and redialled. */
  datatype Body = Body(
    state: FsmState, running: bool, connected: bool, attempt: nat, closeTime: nat, config: Option<Config>,
    outputs: seq<Output>, acks: seq<Ack>, autos: nat)

  datatype Client = Client(body: Body, queue: seq<Event>, consumed: seq<Event>)

  const START := Client(Body(Init, false, false, 0, 0, None, [], [], 0), [], [])

  /** What one processing step reads: the clock in nanoseconds, and whether each of the at most two
      `init_websocket` calls succeeds. */
  datatype Env = Env(now: nat, firstOk: bool, secondOk: bool)

  const SECOND: nat := 1_000_000_000

  function ToSeconds(ns: int): int {
    if ns >= 0 then ns / SECOND else -((-ns) / SECOND)
  }

  // ----- Callbacks

  function AckOf(e: Event): Option<nat> {
    match e
    case RequestConnect(ack) => ack
    case RequestDisconnect(ack) => ack
    case UpdateConfig(_, ack) => ack
    case _ => None
  }

  function Answer(b: Body, e: Event, ok: bool): Body {
    if AckOf(e).Some? then b.(acks := b.acks + [Ack(AckOf(e).value, ok)]) else b
  }

  function Report(b: Body, o: Output): Body {
    b.(outputs := b.outputs + [o])
  }

  function HandleOpen(b: Body): Body {
    if b.connected then b else Report(b.(connected := true), Opened)
  }

  function HandleClose(b: Body): Body {
    if b.connected then Report(b.(connected := false), Closed) else b
  }

  // ----- Shared fragments of the state handlers

  /** An invalid configuration or a failed `init_websocket` while serving request `e`. */
  function Fail(b: Body, e: Event): Body {
    Answer(Report(b, Errored), e, false).(state := Stopped)
  }

  /** `init_websocket` for request `e`. */
  function Connect(b: Body, e: Event, ok: bool): Body {
    if ok then Answer(b.(running := true), e, true).(state := Connecting) else Fail(b, e)
  }

  /** A request to connect in INIT or STOPPED. */
  function Dial(b: Body, e: Event, ok: bool): Body {
    if b.config.None? then Fail(b, e) else Connect(b, e, ok)
  }

  /** A configuration update that reconnects at once. */
  function Reconfigure(b: Body, e: Event, ok: bool): Body
    requires e.UpdateConfig?
  {
    var b1 := b.(config := e.config);
    if e.config.None? then Fail(b1, e) else Connect(b1.(attempt := 0), e, ok)
  }

  /** The connection was lost: stop, or wait for a reconnection attempt. */
  function Lose(b: Body, now: nat): Body {
    var b1 := HandleClose(b);
    if b.config.None? || !b.config.value.reconnect then b1.(running := false, state := Init)
    else b1.(attempt := b.attempt + 1, closeTime := now, running := true, state := Reconnecting)
  }

  function Hangup(b: Body, e: Event): Body {
    Answer(HandleClose(b).(attempt := 0, running := false), e, true).(state := Init)
  }

  // ----- One event in each state

  function OnInit(b: Body, e: Event, env: Env): Body {
    match e
    case RequestConnect(_) => Dial(b, e, env.firstOk)
    case UpdateConfig(config, _) => Answer(b.(config := config), e, config.Some?)
    case _ => Answer(b, e, false)
  }

  function OnConnecting(b: Body, e: Event, env: Env): Body {
    match e
    case ConnectionOpened => HandleOpen(b).(attempt := 0, running := true, state := Working)
    case ConnectionError => Lose(Report(b, Errored), env.now)
    case ConnectionClosed => Lose(b, env.now)
    case RequestDisconnect(_) => Hangup(b, e)
    case UpdateConfig(_, _) => Reconfigure(HandleClose(b), e, env.firstOk)
    case _ => Answer(b, e, false)
  }

  function OnWorking(b: Body, e: Event, env: Env): Body {
    match e
    case RequestDisconnect(_) => Hangup(b, e)
    case ConnectionError => Lose(Report(b, Errored), env.now)
    case ConnectionClosed => Lose(b, env.now)
    case UpdateConfig(_, _) => Reconfigure(HandleClose(b), e, env.firstOk)
    case MessageReceived => Report(b, Message)
    case _ => Answer(b, e, false)
  }

  function OnReconnecting(b: Body, e: Event, env: Env): Body {
    match e
    case RequestDisconnect(_) => Answer(b.(running := false), e, true).(state := Init)
    case UpdateConfig(_, _) => Reconfigure(b, e, env.firstOk)
    case MessageReceived => Report(b, Message)
    case _ => Answer(b, e, false)
  }

  function OnStopped(b: Body, e: Event, env: Env): Body {
    match e
    case RequestConnect(_) => Dial(b, e, env.firstOk)
    case UpdateConfig(_, _) => Reconfigure(b, e, env.firstOk)
    case _ => Answer(b, e, false)
  }

  function OnEvent(b: Body, e: Event, env: Env): Body {
    match b.state
    case Init => OnInit(b, e, env)
    case Connecting => OnConnecting(b, e, env)
    case Working => OnWorking(b, e, env)
    case Reconnecting => OnReconnecting(b, e, env)
    case Stopped => OnStopped(b, e, env)
  }

  /** The reconnect logic of RECONNECTING, reached whatever the event before it did to the state. */
  function Redial(b: Body, env: Env): Body {
    if b.config.None? then Report(b, Errored).(state := Stopped)
    else if !b.config.value.reconnect then b.(running := false, state := Init)
    else if b.config.value.attempts != 0 && b.attempt >= b.config.value.attempts then b.(running := false, state := Init)
    else if ToSeconds(env.now - b.closeTime) < b.config.value.delay then b
    else if !env.secondOk then Report(b.(autos := b.autos + 1), Errored).(state := Stopped)
    else b.(autos := b.autos + 1, running := true, state := Connecting)
  }

  // ----- Processing steps

  /** Consume the first event. */
  function Take(c: Client, env: Env): Client
    requires c.queue != []
  {
    Client(OnEvent(c.body, c.queue[0], env), c.queue[1..], c.consumed + [c.queue[0]])
  }

  /** WORKING takes messages until the queue is empty or one other event was handled. */
  function ProcessWorking(c: Client, env: Env): Client
    requires c.body.state.Working?
    decreases |c.queue|
  {
    if c.queue == [] then c
    else if c.queue[0].MessageReceived? then ProcessWorking(Take(c, env), env)
    else Take(c, env)
  }

  function ProcessReconnecting(c: Client, env: Env): Client {
    var c1 := if c.queue == [] then c else Take(c, env);
    c1.(body := Redial(c1.body, env))
  }

  function Process(c: Client, env: Env): Client {
    if c.body.state.Working? then ProcessWorking(c, env)
    else if c.body.state.Reconnecting? then ProcessReconnecting(c, env)
    else if c.queue == [] then c
    else Take(c, env)
  }

  // ----- Runs

  datatype Action = Enqueue(e: Event) | Step(env: Env)

  function Act(c: Client, a: Action): Client {
    match a
    case Enqueue(e) => c.(queue := c.queue + [e])
    case Step(env) => Process(c, env)
  }

  function Run(c: Client, acts: seq<Action>): Client
    decreases |acts|
  {
    if acts == [] then c else Run(Act(c, acts[0]), acts[1..])
  }

  function Enqueued(acts: seq<Action>): seq<Event> {
    if acts == [] then []
    else (if acts[0].Enqueue? then [acts[0].e] else []) + Enqueued(acts[1..])
  }

  // ----- The run invariant

  /** What the user has been told about the connection: open, closed, or nonsense. */
  function Seen(outputs: seq<Output>): Option<bool> {
    if outputs == [] then Some(false)
    else
      var n := |outputs| - 1;
      Sees(Seen(outputs[..n]), outputs[n])
  }

  function Sees(before: Option<bool>, o: Output): Option<bool> {
    match o
    case Opened => if before == Some(false) then Some(true) else None
    case Closed => if before == Some(true) then Some(false) else None
    case _ => before
  }

  /** The acknowledgements due for a sequence of consumed events. */
  function Due(events: seq<Event>): seq<nat> {
    if events == [] then []
    else
      var n := |events| - 1;
      Due(events[..n]) + DueFor(events[n])
  }

  function DueFor(e: Event): seq<nat> {
    if AckOf(e).Some? then [AckOf(e).value] else []
  }

  function Acked(acks: seq<Ack>): seq<nat> {
    seq(|acks|, i requires 0 <= i < |acks| => acks[i].id)
  }

  predicate Mode(b: Body) {
    && (b.connected <==> b.state.Working?)
    && (b.state.Init? ==> !b.running)
    && (b.state.Connecting? || b.state.Working? || b.state.Reconnecting? ==> b.running && b.config.Some?)
    && (b.state.Reconnecting? ==> b.attempt >= 1)
  }

  /** The user knows whether the connection is open. */
  predicate Told(b: Body) {
    Seen(b.outputs) == Some(b.connected)
  }

  /** `b'` made exactly the acknowledgement event `e` asks for. */
  predicate Answered(b: Body, e: Event, b': Body) {
    if AckOf(e).Some?
    then |b'.acks| == |b.acks| + 1 && b'.acks[..|b.acks|] == b.acks && b'.acks[|b.acks|].id == AckOf(e).value
    else b'.acks == b.acks
  }

  lemma ReportTells(outputs: seq<Output>, o: Output)
    ensures Seen(outputs + [o]) == Sees(Seen(outputs), o)
  {
    assert (outputs + [o])[..|outputs|] == outputs;
  }

  lemma ErrorTells(b: Body)
    requires Told(b)
    ensures Told(Report(b, Errored)) && Told(Report(b, Message))
  {
    ReportTells(b.outputs, Errored);
    ReportTells(b.outputs, Message);
  }

  lemma CloseTells(b: Body)
    requires Told(b)
    ensures Told(HandleClose(b)) && !HandleClose(b).connected
  {
    ReportTells(b.outputs, Closed);
  }

  lemma OpenTells(b: Body)
    requires Told(b)
    ensures Told(HandleOpen(b)) && HandleOpen(b).connected
  {
    ReportTells(b.outputs, Opened);
  }

  lemma FailTells(b: Body, e: Event)
    requires Told(b) && !b.connected
    ensures Mode(Fail(b, e)) && Told(Fail(b, e)) && Answered(b, e, Fail(b, e))
  {
    ErrorTells(b);
  }

  lemma ConnectTells(b: Body, e: Event, ok: bool)
    requires Told(b) && !b.connected && b.config.Some?
    ensures Mode(Connect(b, e, ok)) && Told(Connect(b, e, ok)) && Answered(b, e, Connect(b, e, ok))
  {
    FailTells(b, e);
  }

  lemma DialTells(b: Body, e: Event, ok: bool)
    requires Told(b) && !b.connected
    ensures Mode(Dial(b, e, ok)) && Told(Dial(b, e, ok)) && Answered(b, e, Dial(b, e, ok))
  {
    if b.config.None? { FailTells(b, e); } else { ConnectTells(b, e, ok); }
  }

  lemma ReconfigureTells(b: Body, e: Event, ok: bool)
    requires Told(b) && !b.connected && e.UpdateConfig?
    ensures Mode(Reconfigure(b, e, ok)) && Told(Reconfigure(b, e, ok)) && Answered(b, e, Reconfigure(b, e, ok))
  {
    var b1 := b.(config := e.config);
    if e.config.None? { FailTells(b1, e); } else { ConnectTells(b1.(attempt := 0), e, ok); }
  }

  lemma LoseTells(b: Body, now: nat)
    requires Told(b) && b.config.Some?
    ensures Mode(Lose(b, now)) && Told(Lose(b, now)) && Lose(b, now).acks == b.acks
  {
    CloseTells(b);
  }

  lemma HangupTells(b: Body, e: Event)
    requires Told(b)
    ensures Mode(Hangup(b, e)) && Told(Hangup(b, e)) && Answered(b, e, Hangup(b, e))
  {
    CloseTells(b);
  }

  /** The events that end a connection or an attempt, in CONNECTING and WORKING alike. */
  lemma LeaveTells(b: Body, e: Event, env: Env, b': Body)
    requires Told(b) && b.config.Some?
    requires || (e.ConnectionError? && b' == Lose(Report(b, Errored), env.now))
             || (e.ConnectionClosed? && b' == Lose(b, env.now))
             || (e.RequestDisconnect? && b' == Hangup(b, e))
             || (e.UpdateConfig? && b' == Reconfigure(HandleClose(b), e, env.firstOk))
    ensures Mode(b') && Told(b') && Answered(b, e, b')
  {
    if e.ConnectionError? {
      ErrorTells(b);
      LoseTells(Report(b, Errored), env.now);
    } else if e.ConnectionClosed? {
      LoseTells(b, env.now);
    } else if e.RequestDisconnect? {
      HangupTells(b, e);
    } else {
      CloseTells(b);
      ReconfigureTells(HandleClose(b), e, env.firstOk);
    }
  }

  /** Handling one event, RECONNECTING's redial aside, keeps the mode and makes the acknowledgement due. */
  lemma EventTells(b: Body, e: Event, env: Env)
    requires Mode(b) && Told(b)
    ensures var b' := OnEvent(b, e, env);
      Mode(b') && Told(b') && Answered(b, e, b') && (b.state.Reconnecting? ==> !b'.connected)
  {
    match b.state
    case Init => if e.RequestConnect? { DialTells(b, e, env.firstOk); }
    case Connecting =>
      if e.ConnectionOpened? {
        OpenTells(b);
      } else if !e.RequestConnect? && !e.MessageReceived? {
        LeaveTells(b, e, env, OnConnecting(b, e, env));
      }
    case Working =>
      if e.MessageReceived? {
        ErrorTells(b);
      } else if !e.RequestConnect? && !e.ConnectionOpened? {
        LeaveTells(b, e, env, OnWorking(b, e, env));
      }
    case Reconnecting =>
      ErrorTells(b);
      if e.UpdateConfig? { ReconfigureTells(b, e, env.firstOk); }
    case Stopped =>
      if e.RequestConnect? { DialTells(b, e, env.firstOk); }
      if e.UpdateConfig? { ReconfigureTells(b, e, env.firstOk); }
  }

  lemma RedialTells(b: Body, env: Env)
    requires Mode(b) && Told(b) && !b.connected
    ensures Mode(Redial(b, env)) && Told(Redial(b, env)) && Redial(b, env).acks == b.acks
  {
    ErrorTells(b.(autos := b.autos + 1));
    ErrorTells(b);
  }

  predicate Inv(c: Client) {
    Mode(c.body) && Told(c.body) && Acked(c.body.acks) == Due(c.consumed)
  }

  lemma AnswersAreDue(acks: seq<Ack>, b: Body, e: Event, b': Body, consumed: seq<Event>)
    requires b.acks == acks && Answered(b, e, b') && Acked(acks) == Due(consumed)
    ensures Acked(b'.acks) == Due(consumed + [e])
  {
    assert (consumed + [e])[..|consumed|] == consumed;
    assert Acked(b'.acks) == Acked(acks) + DueFor(e);
  }

  lemma TakeKeeps(c: Client, env: Env)
    requires Inv(c) && c.queue != []
    ensures Inv(Take(c, env)) && (c.body.state.Reconnecting? ==> !Take(c, env).body.connected)
  {
    EventTells(c.body, c.queue[0], env);
    AnswersAreDue(c.body.acks, c.body, c.queue[0], Take(c, env).body, c.consumed);
  }

  lemma {:induction false} WorkingKeeps(c: Client, env: Env)
    requires Inv(c) && c.body.state.Working?
    ensures Inv(ProcessWorking(c, env))
    decreases |c.queue|
  {
    if c.queue == [] {
    } else {
      TakeKeeps(c, env);
      if c.queue[0].MessageReceived? { WorkingKeeps(Take(c, env), env); }
    }
  }

  lemma ProcessKeeps(c: Client, env: Env)
    requires Inv(c)
    ensures Inv(Process(c, env))
  {
    if c.body.state.Working? {
      WorkingKeeps(c, env);
    } else if c.body.state.Reconnecting? {
      if c.queue != [] { TakeKeeps(c, env); }
      RedialTells((if c.queue == [] then c else Take(c, env)).body, env);
    } else if c.queue != [] {
      TakeKeeps(c, env);
    }
  }

  lemma {:induction false} RunKeeps(c: Client, acts: seq<Action>)
    requires Inv(c)
    ensures Inv(Run(c, acts))
    decreases |acts|
  {
    if acts == [] {
    } else {
      if acts[0].Step? { ProcessKeeps(c, acts[0].env); }
      RunKeeps(Act(c, acts[0]), acts[1..]);
    }
  }

  /** For every sequence of enqueues and processing steps: connected exactly in WORKING; INIT is not
      running; CONNECTING, WORKING and RECONNECTING run with a configuration (which the handlers
      dereference); the open and close events the user sees strictly alternate, open first; and every
      consumed request with a callback was acknowledged exactly once, in queue order. */
  lemma RunInvariant(acts: seq<Action>)
    ensures var c := Run(START, acts);
      && Mode(c.body)
      && Seen(c.body.outputs) == Some(c.body.connected)
      && Acked(c.body.acks) == Due(c.consumed)
  {
    RunKeeps(START, acts);
  }

  // ----- The queue is first in, first out

  lemma {:induction false} WorkingTakesPrefix(c: Client, env: Env)
    requires c.body.state.Working?
    ensures ProcessWorking(c, env).consumed + ProcessWorking(c, env).queue == c.consumed + c.queue
    decreases |c.queue|
  {
    if c.queue == [] {
    } else {
      assert c.queue == [c.queue[0]] + c.queue[1..];
      if c.queue[0].MessageReceived? { WorkingTakesPrefix(Take(c, env), env); }
    }
  }

  lemma ProcessTakesPrefix(c: Client, env: Env)
    ensures Process(c, env).consumed + Process(c, env).queue == c.consumed + c.queue
  {
    if c.queue != [] { assert c.queue == [c.queue[0]] + c.queue[1..]; }
    if c.body.state.Working? { WorkingTakesPrefix(c, env); }
  }

  /** Events are consumed in the order they were enqueued, none lost and none repeated. */
  lemma {:induction false} EventsAreFifo(c: Client, acts: seq<Action>)
    ensures Run(c, acts).consumed + Run(c, acts).queue == c.consumed + c.queue + Enqueued(acts)
    decreases |acts|
  {
    if acts == [] {
    } else {
      EventsAreFifo(Act(c, acts[0]), acts[1..]);
      ActExtends(c, acts[0], Enqueued(acts[1..]));
    }
  }

  lemma ActExtends(c: Client, a: Action, later: seq<Event>)
    ensures Act(c, a).consumed + Act(c, a).queue + later
         == c.consumed + c.queue + ((if a.Enqueue? then [a.e] else []) + later)
  {
    if a.Step? { ProcessTakesPrefix(c, a.env); }
  }
}
