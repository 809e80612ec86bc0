/** When `NetworkWorker::stop` returns, in terms of what its two managers have to shut down. */
module WorkerShutdown {
  import opened Wrappers
  import WP = WorkerProtocol
  import HM = ManagerSteps
  import HP = ManagerProgress
  import opened WebSocketFsm
  import opened WebSocketLiveness

  // ----- The HTTP manager

  /** Enough worker steps bring the manager down, whatever clients do. */
  ghost predicate HttpEnds(h: HM.State) {
    exists n: nat :: DownWithin(h, n)
  }

  ghost predicate DownWithin(h: HM.State, n: nat) {
    forall acts :: HM.Legal(h, acts) && HP.WorkerSteps(acts) >= n ==> HM.Exec(h, acts).work.pc.Down?
  }

  lemma HttpAlwaysEnds(h: HM.State)
    requires HM.Reachable(h) && h.desk.shutdown
    ensures HttpEnds(h)
  {
    var n := HP.Remaining(h) + 1;
    forall acts | HM.Legal(h, acts) && HP.WorkerSteps(acts) >= n ensures HM.Exec(h, acts).work.pc.Down? {
      HP.ShutdownReturns(h, acts);
    }
    assert DownWithin(h, n);
  }

  // ----- The WebSocket manager

  /** A client to shut down, and the environment its loop will meet, turn by turn. */
  datatype Shutting = Shutting(client: Client, env: nat -> Env)

  function Envs(x: Shutting, n: nat): (envs: seq<Env>)
    ensures |envs| == n && forall i :: 0 <= i < n ==> envs[i] == x.env(i)
  {
    seq(n, i requires 0 <= i < n => x.env(i))
  }

  ghost predicate Ends(x: Shutting) {
    exists n: nat :: EndsWithin(x, n)
  }

  predicate EndsWithin(x: Shutting, n: nat) {
    !IsRunning(Drain(Shut(x.client), Envs(x, n)))
  }

  /** The client is drainable in the turn that consumes the disconnect shutdown adds to its queue. */
  predicate Drains(x: Shutting) {
    DrainsAt(Shut(x.client), Envs(x, |x.client.queue| + 1))
  }

  lemma EnvsJoin(x: Shutting, m: nat, n: nat) returns (more: seq<Env>)
    requires m <= n
    ensures Envs(x, n) == Envs(x, m) + more
  {
    more := Envs(x, n)[m..];
  }

  /** A client can be shut down if and only if it is drainable when its disconnect is consumed. */
  lemma EndsIffDrainable(x: Shutting)
    requires Inv(x.client)
    ensures Ends(x) <==> Drains(x)
  {
    var c, m := Shut(x.client), |x.client.queue| + 1;
    ShutdownEndsIffDrainable(c, Envs(x, m));
    if Drains(x) {
      assert EndsWithin(x, m);
    } else {
      forall n: nat ensures !EndsWithin(x, n) {
        if n < m {
          var more := EnvsJoin(x, n, m);
          DrainJoins(c, Envs(x, n), more);
        } else {
          var more := EnvsJoin(x, m, n);
          DrainsAtOnce(c, Envs(x, m), more);
          ShutdownEndsIffDrainable(c, Envs(x, n));
        }
      }
    }
  }

  /** The manager shuts its clients down one after the other, so it ends when each of them does. */
  ghost predicate ClientsEnd(clients: seq<Shutting>) {
    forall i :: 0 <= i < |clients| ==> Ends(clients[i])
  }

  // ----- The worker

  /** The turns the worker spends on its managers are those of this HTTP manager and these clients. */
  ghost predicate Serves(s: WP.State, h: HM.State, clients: seq<Shutting>) {
    |s.turns| == 2 && (s.turns[0].Some? <==> HttpEnds(h)) && (s.turns[1].Some? <==> ClientsEnd(clients))
  }

  /** `stop` returns if and only if every WebSocket client is drainable in the turn that consumes its
      disconnect: the HTTP manager always comes down, and one client that is then stopped while marked
      running, or redials at that moment, holds the worker for ever. */
  lemma StopReturnsIffClientsDrain(s: WP.State, h: HM.State, clients: seq<Shutting>)
    requires WP.Reachable(s) && s.calls.stopNotified && Serves(s, h, clients)
    requires HM.Reachable(h) && h.desk.shutdown && forall i :: 0 <= i < |clients| ==> Inv(clients[i].client)
    ensures WP.Returns(s) <==> forall i :: 0 <= i < |clients| ==> Drains(clients[i])
  {
    WP.StopReturnsIffManagersEnd(s);
    HttpAlwaysEnds(h);
    forall i | 0 <= i < |clients| ensures Ends(clients[i]) <==> Drains(clients[i]) {
      EndsIffDrainable(clients[i]);
    }
    assert WP.AllEnd(s.turns) <==> s.turns[0].Some? && s.turns[1].Some?;
  }

  /** Concretely: a client that lost its connection, redials at once and reaches its server. */
  function Hanging(now: nat): Shutting {
    Shutting(LostClient(now), _ => Env(now, true, true))
  }

  function StopCalled(turns: seq<Option<nat>>): WP.State {
    WP.State(WP.Shared(true, true, [], [{}, {}]), WP.Calls(0, [], {}, 0, true, 0, None), WP.Parked, [], [], turns)
  }

  /** The client is reachable, its shutdown never ends, and neither does a stop that has to wait for it. */
  lemma StopCanHang(now: nat, h: HM.State)
    requires HM.Reachable(h) && h.desk.shutdown
    ensures var s := StopCalled([Some(0), None]);
      WP.Reachable(s) && Serves(s, h, [Hanging(now)]) && !WP.Returns(s)
    ensures exists acts :: Run(START, acts) == Hanging(now).client
  {
    var s := StopCalled([Some(0), None]);
    StopIsReachable([Some(0), None]);
    LostKeeps(now);
    HangingHangs(now);
    EndsIffDrainable(Hanging(now));
    HttpAlwaysEnds(h);
    assert !Ends([Hanging(now)][0]);
    WP.StopReturnsIffManagersEnd(s);
    assert s.turns[1].None?;
  }

  lemma LostKeeps(now: nat)
    ensures Inv(LostClient(now)) && exists acts :: Run(START, acts) == LostClient(now)
  {
    LostIsReachable(now);
    var turn := Step(Env(now, true, true));
    var acts := [Enqueue(UpdateConfig(Some(EAGER), None)), turn, Enqueue(RequestConnect(None)), turn,
                 Enqueue(ConnectionClosed), turn];
    RunKeeps(START, acts);
    assert Run(START, acts) == LostClient(now);
  }

  lemma HangingHangs(now: nat)
    ensures !Drains(Hanging(now))
  {
    var x := Hanging(now);
    var envs := Envs(x, 1);
    assert envs[0] == Env(now, true, true);
    TurnConsumes(Shut(x.client), envs[0]);
  }

  lemma StopIsReachable(turns: seq<Option<nat>>)
    requires |turns| == 2
    ensures WP.Reachable(StopCalled(turns))
  {
    var s0 := WP.State(WP.Shared(false, false, [], [{}, {}]), WP.Calls(0, [], {}, 0, false, 0, None), WP.Parked, [], [], turns);
    WP.InitialReachable(s0);
    WP.ReachableStep(s0, WP.StopFlag);
    WP.ReachableStep(WP.Call(s0, WP.StopFlag), WP.StopNotify);
    assert WP.Call(WP.Call(s0, WP.StopFlag), WP.StopNotify) == StopCalled(turns);
  }
}
