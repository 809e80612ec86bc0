/** The WebSocket client as the object it is: one method per state handler, each proved against the
    state machine. */
module WebSocketClientObject {
  import opened Wrappers
  import opened WebSocketFsm
  import opened WebSocketLiveness

  class WebSocketClient {
    var state: FsmState
    var running: bool
    var connected: bool
    var attempt: nat
    var closeTime: nat
    var config: Option<Config>
    var queue: seq<Event>
    /** Events reported, callbacks invoked and automatic dials made so far, and the events consumed. */
    var outputs: seq<Output>
    var acks: seq<Ack>
    var autos: nat
    var consumed: seq<Event>

    ghost function Fields(): Body
      reads this
    {
      Body(state, running, connected, attempt, closeTime, config, outputs, acks, autos)
    }

    ghost function View(): Client
      reads this
    {
      Client(Fields(), queue, consumed)
    }

    constructor ()
      ensures View() == START
    {
      state, running, connected, attempt, closeTime, config := Init, false, false, 0, 0, None;
      queue, outputs, acks, autos, consumed := [], [], [], 0, [];
    }

    method PushEvent(e: Event)
      modifies this`queue
      ensures queue == old(queue) + [e]
    {
      queue := queue + [e];
    }

    method PopEvent() returns (e: Event)
      requires queue != []
      modifies this`queue, this`consumed
      ensures e == old(queue)[0] && queue == old(queue)[1..] && consumed == old(consumed) + [e]
    {
      e := queue[0];
      queue, consumed := queue[1..], consumed + [e];
    }

    method Callback(e: Event, ok: bool)
      modifies this`acks
      ensures Fields() == Answer(old(Fields()), e, ok)
    {
      match e
      case RequestConnect(Some(id)) => acks := acks + [Ack(id, ok)];
      case RequestDisconnect(Some(id)) => acks := acks + [Ack(id, ok)];
      case UpdateConfig(_, Some(id)) => acks := acks + [Ack(id, ok)];
      case _ =>
    }

    method Emit(o: Output)
      modifies this`outputs
      ensures Fields() == Report(old(Fields()), o)
    {
      outputs := outputs + [o];
    }

    method HandleOpenEvent()
      modifies this`connected, this`outputs
      ensures Fields() == HandleOpen(old(Fields()))
    {
      if !connected {
        connected := true;
        Emit(Opened);
      }
    }

    method HandleCloseEvent()
      modifies this`connected, this`outputs
      ensures Fields() == HandleClose(old(Fields()))
    {
      if connected {
        connected := false;
        Emit(Closed);
      }
    }

    method InitFor(e: Event, ok: bool)
      modifies this`state, this`running, this`outputs, this`acks
      ensures Fields() == Connect(old(Fields()), e, ok)
    {
      if !ok {
        Emit(Errored);
        Callback(e, false);
        state := Stopped;
      } else {
        running := true;
        Callback(e, true);
        state := Connecting;
      }
    }

    method DialFor(e: Event, ok: bool)
      modifies this`state, this`running, this`outputs, this`acks
      ensures Fields() == Dial(old(Fields()), e, ok)
    {
      if config.None? {
        Emit(Errored);
        Callback(e, false);
        state := Stopped;
      } else {
        InitFor(e, ok);
      }
    }

    method ReconfigureFor(e: Event, ok: bool)
      requires e.UpdateConfig?
      modifies this`state, this`running, this`outputs, this`acks, this`config, this`attempt
      ensures Fields() == Reconfigure(old(Fields()), e, ok)
    {
      config := e.config;
      if config.None? {
        Emit(Errored);
        Callback(e, false);
        state := Stopped;
      } else {
        attempt := 0;
        InitFor(e, ok);
      }
    }

    /** The shared tail of an error and of a close while connecting or connected. */
    method LoseConnection(now: nat)
      requires config.Some?
      modifies this
      ensures Fields() == Lose(old(Fields()), now) && queue == old(queue) && consumed == old(consumed)
    {
      HandleCloseEvent();
      if !config.value.reconnect {
        running, state := false, Init;
      } else {
        attempt, closeTime := attempt + 1, now;
        running, state := true, Reconnecting;
      }
    }

    method HangUp(e: Event)
      modifies this`state, this`running, this`connected, this`outputs, this`acks, this`attempt
      ensures Fields() == Hangup(old(Fields()), e)
    {
      HandleCloseEvent();
      attempt, running := 0, false;
      Callback(e, true);
      state := Init;
    }

    method ProcessStateInit(env: Env)
      requires state.Init?
      modifies this
      ensures View() == Process(old(View()), env)
    {
      if queue == [] { return; }
      var event := PopEvent();
      match event {
        case RequestConnect(_) => DialFor(event, env.firstOk);
        case UpdateConfig(cfg, _) =>
          config := cfg;
          Callback(event, config.Some?);
        case _ => Callback(event, false);
      }
    }

    method ProcessStateConnecting(env: Env)
      requires state.Connecting? && config.Some?
      modifies this
      ensures View() == Process(old(View()), env)
    {
      if queue == [] { return; }
      var event := PopEvent();
      match event {
        case ConnectionOpened =>
          HandleOpenEvent();
          attempt, running, state := 0, true, Working;
        case ConnectionError =>
          Emit(Errored);
          LoseConnection(env.now);
        case ConnectionClosed => LoseConnection(env.now);
        case RequestDisconnect(_) => HangUp(event);
        case UpdateConfig(_, _) =>
          HandleCloseEvent();
          ReconfigureFor(event, env.firstOk);
        case _ => Callback(event, false);
      }
    }

    /** One turn of the WORKING loop. */
    method ProcessWorkingEvent(env: Env) returns (isMessage: bool)
      requires state.Working? && config.Some? && queue != []
      modifies this
      ensures View() == Take(old(View()), env) && (isMessage <==> old(queue)[0].MessageReceived?)
    {
      var event := PopEvent();
      isMessage := false;
      match event {
        case RequestDisconnect(_) => HangUp(event);
        case ConnectionError =>
          Emit(Errored);
          LoseConnection(env.now);
        case ConnectionClosed => LoseConnection(env.now);
        case UpdateConfig(_, _) =>
          HandleCloseEvent();
          ReconfigureFor(event, env.firstOk);
        case MessageReceived =>
          Emit(Message);
          isMessage := true;
        case _ => Callback(event, false);
      }
    }

    method ProcessStateWorking(env: Env)
      requires state.Working? && config.Some?
      modifies this
      ensures View() == Process(old(View()), env)
    {
      while queue != []
        invariant state.Working? && config.Some?
        invariant ProcessWorking(View(), env) == ProcessWorking(old(View()), env)
        decreases |queue|
      {
        var isMessage := ProcessWorkingEvent(env);
        if !isMessage { return; }
      }
    }

    /** The event switch of RECONNECTING; the reconnect logic follows it whatever it did. */
    method ProcessReconnectingEvent(env: Env)
      requires state.Reconnecting? && queue != []
      modifies this
      ensures View() == Take(old(View()), env)
    {
      var event := PopEvent();
      match event {
        case RequestDisconnect(_) =>
          running := false;
          Callback(event, true);
          state := Init;
        case UpdateConfig(_, _) => ReconfigureFor(event, env.firstOk);
        case MessageReceived => Emit(Message);
        case _ => Callback(event, false);
      }
    }

    method ProcessStateReconnecting(env: Env)
      requires state.Reconnecting?
      modifies this
      ensures View() == Process(old(View()), env)
    {
      if queue != [] {
        ProcessReconnectingEvent(env);
      }
      if config.None? {
        Emit(Errored);
        state := Stopped;
        return;
      }
      if config.value.reconnect {
        if config.value.attempts != 0 && attempt >= config.value.attempts {
          running, state := false, Init;
          return;
        }
        if ToSeconds(env.now - closeTime) >= config.value.delay {
          autos := autos + 1;
          if !env.secondOk {
            Emit(Errored);
            state := Stopped;
            return;
          }
          running, state := true, Connecting;
        }
        return;
      }
      running, state := false, Init;
    }

    method ProcessStateStopped(env: Env)
      requires state.Stopped?
      modifies this
      ensures View() == Process(old(View()), env)
    {
      if queue == [] { return; }
      var event := PopEvent();
      match event {
        case RequestConnect(_) => DialFor(event, env.firstOk);
        case UpdateConfig(_, _) => ReconfigureFor(event, env.firstOk);
        case _ => Callback(event, false);
      }
    }

    /** The handlers of CONNECTING and WORKING dereference the configuration, which the run invariant
        provides. */
    method ProcessFsmState(env: Env)
      requires Mode(Fields())
      modifies this
      ensures View() == Process(old(View()), env)
    {
      match state {
        case Init => ProcessStateInit(env);
        case Connecting => ProcessStateConnecting(env);
        case Working => ProcessStateWorking(env);
        case Reconnecting => ProcessStateReconnecting(env);
        case Stopped => ProcessStateStopped(env);
      }
    }

    /** Shutdown: a disconnect request, then the loop, for as many turns as the environment answers. */
    method Shutdown(envs: seq<Env>)
      requires Inv(View())
      modifies this
      ensures View() == Drain(Act(old(View()), Enqueue(RequestDisconnect(None))), envs) && Inv(View())
    {
      PushEvent(RequestDisconnect(None));
      var turn := 0;
      while (running || queue != []) && turn < |envs|
        invariant 0 <= turn <= |envs| && Inv(View())
        invariant Drain(View(), envs[turn..]) == Drain(Act(old(View()), Enqueue(RequestDisconnect(None))), envs)
        decreases |envs| - turn
      {
        ProcessKeeps(View(), envs[turn]);
        assert envs[turn..][1..] == envs[turn + 1..];
        ProcessFsmState(envs[turn]);
        turn := turn + 1;
      }
    }
  }
}
