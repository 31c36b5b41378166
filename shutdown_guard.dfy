/** The process-wide shutdown coordinator. It counts live browser sockets and,
    on a termination signal, stops at once (no sockets, or a second signal) or
    drains: a countdown that broadcasts the seconds left once per tick and
    stops when it runs out or when the last socket leaves.

    `process.exit(0)` is the `stopped` flag with `exitCode`; the one-second
    interval is `intervalActive` plus an explicit `Tick` method. */
module Shutdown {
  import opened Base

  type SocketId = string

  /** A browser socket, known to the guard by its id. */
  datatype Socket = Socket(id: SocketId)

  /** The values the countdown has broadcast once it is down to `r`, starting
      from `d`: `d - 1, d - 2, ..., r`. */
  function Countdown(d: int, r: int): seq<int>
    decreases d - r
  {
    if r >= d then [] else Countdown(d, r + 1) + [r]
  }

  /** The countdown broadcasts one value per second, each one less than the
      previous, starting at `d - 1`. */
  lemma {:induction false} CountdownAt(d: int, r: int, i: int)
    requires r <= d && 0 <= i < d - r
    ensures |Countdown(d, r)| == d - r
    ensures Countdown(d, r)[i] == d - 1 - i
    decreases d - r
  {
    if i < d - r - 1 {
      CountdownAt(d, r + 1, i);
    } else if r + 1 < d {
      CountdownAt(d, r + 1, 0);
    }
  }

  /** A full countdown from `d` broadcasts `d - 1, ..., 0` and nothing else:
      exactly `d` values, strictly decreasing, the last one 0. */
  lemma FullCountdown(d: int)
    requires d >= 1
    ensures |Countdown(d, 0)| == d
    ensures Countdown(d, 0)[0] == d - 1 && Countdown(d, 0)[d - 1] == 0
    ensures forall i, j :: 0 <= i < j < d ==> Countdown(d, 0)[i] > Countdown(d, 0)[j]
  {
    CountdownAt(d, 0, 0);
    CountdownAt(d, 0, d - 1);
    forall i, j | 0 <= i < j < d
      ensures Countdown(d, 0)[i] > Countdown(d, 0)[j]
    {
      CountdownAt(d, 0, i);
      CountdownAt(d, 0, j);
    }
  }

  /** `done` lists every socket of `registry` exactly once. */
  ghost predicate EachOnce(registry: map<SocketId, Socket>, done: seq<Socket>)
  {
    && |done| == |registry.Keys|
    && (forall id :: id in registry ==> registry[id] in done)
    && (forall s :: s in done ==> s.id in registry && registry[s.id] == s)
  }

  /** `Object.values(sockets).forEach(socket => socket.disconnect(true))`:
      the sockets disconnected, in the order visited, each registered socket
      exactly once. */
  method DisconnectAll(registry: map<SocketId, Socket>) returns (done: seq<Socket>)
    requires forall id :: id in registry ==> registry[id].id == id
    ensures EachOnce(registry, done)
  {
    var pending := registry.Keys;
    ghost var sent: set<SocketId> := {};
    done := [];
    while pending != {}
      invariant pending + sent == registry.Keys && pending !! sent
      invariant |done| == |sent|
      invariant forall id :: id in sent ==> registry[id] in done
      invariant forall s :: s in done ==> s.id in sent && registry[s.id] == s
      decreases pending
    {
      var id :| id in pending;
      done := done + [registry[id]];
      pending := pending - {id};
      sent := sent + {id};
    }
  }

  /** A run of disconnections appended to the earlier ones. */
  lemma AppendedRun(registry: map<SocketId, Socket>, before: seq<Socket>, done: seq<Socket>)
    requires EachOnce(registry, done)
    ensures |before| <= |before + done|
    ensures (before + done)[..|before|] == before
    ensures EachOnce(registry, (before + done)[|before|..])
  {
    assert (before + done)[|before|..] == done;
  }

  class ShutdownGuard {
    const safeShutdownDuration: int
    var connectionCount: int
    var isShuttingDown: bool
    var sockets: map<SocketId, Socket>
    // the countdown interval and the variable its closure decrements
    var intervalActive: bool
    var remainingSeconds: int
    // what the guard has done to the outside world
    var broadcasts: seq<int>
    var disconnected: seq<Socket>
    var ioClosed: bool
    var serverClosed: bool
    var stopReason: Option<string>
    var stopped: bool
    var exitCode: Option<int>

    ghost predicate Valid()
      reads this
    {
      && (forall id :: id in sockets ==> sockets[id].id == id)
      && (stopped <==> exitCode.Some?)
      && (stopped ==> exitCode == Some(0) && ioClosed && serverClosed && !intervalActive)
      && (!stopped ==> !ioClosed && !serverClosed && disconnected == [])
      && (intervalActive ==> isShuttingDown)
      && (isShuttingDown && !stopped ==> intervalActive)
      && (!isShuttingDown ==> broadcasts == [])
      && (intervalActive ==>
            && remainingSeconds <= safeShutdownDuration
            && broadcasts == Countdown(safeShutdownDuration, remainingSeconds))
    }

    constructor(safeShutdownDuration: int)
      ensures Valid()
      ensures this.safeShutdownDuration == safeShutdownDuration
      ensures connectionCount == 0 && !isShuttingDown && sockets == map[]
      ensures !stopped && !intervalActive && broadcasts == [] && disconnected == []
    {
      this.safeShutdownDuration := safeShutdownDuration;
      connectionCount := 0;
      isShuttingDown := false;
      sockets := map[];
      intervalActive := false;
      remainingSeconds := 0;
      broadcasts := [];
      disconnected := [];
      ioClosed, serverClosed := false, false;
      stopReason := None;
      stopped := false;
      exitCode := None;
    }

    method OnConnection(socket: Socket)
      requires Valid() && !stopped
      modifies this`sockets, this`connectionCount
      ensures Valid() && !stopped
      ensures sockets == old(sockets)[socket.id := socket]
      ensures connectionCount == old(connectionCount) + 1
    {
      sockets := sockets[socket.id := socket];
      connectionCount := connectionCount + 1;
    }

    /** Unregisters the socket; the last one to leave while draining stops
        the process, and outside draining a disconnection never stops it. */
    method OnDisconnection(socket: Socket)
      requires Valid() && !stopped
      modifies this
      ensures Valid()
      ensures connectionCount == old(connectionCount) - 1
      ensures stopped <==> connectionCount <= 0 && old(isShuttingDown)
      ensures !stopped ==> sockets == old(sockets) - {socket.id} && unchanged(this`broadcasts, this`isShuttingDown)
      ensures stopped ==> StoppedFrom(old(sockets) - {socket.id}, old(disconnected), Some("All clients disconnected"))
    {
      sockets := sockets - {socket.id};
      connectionCount := connectionCount - 1;
      if connectionCount <= 0 && isShuttingDown {
        Stop(Some("All clients disconnected"));
      }
    }

    /** The signal handler: a second signal while draining force-quits; with
        live sockets it starts draining; with none it stops at once. */
    method Shutdown()
      requires Valid() && !stopped
      modifies this
      ensures Valid()
      ensures old(isShuttingDown) ==> StoppedFrom(old(sockets), old(disconnected), Some("Safe shutdown aborted, force quitting"))
      ensures !old(isShuttingDown) && old(connectionCount) > 0 ==>
                && !stopped && isShuttingDown && intervalActive
                && remainingSeconds == safeShutdownDuration && broadcasts == []
                && sockets == old(sockets) && connectionCount == old(connectionCount)
      ensures !old(isShuttingDown) && old(connectionCount) <= 0 ==> StoppedFrom(old(sockets), old(disconnected), None)
    {
      if isShuttingDown {
        Stop(Some("Safe shutdown aborted, force quitting"));
      } else if connectionCount > 0 {
        SafeShutdown();
      } else {
        Stop(None);
      }
    }

    /** Enters draining and arms the countdown at the configured duration. */
    method SafeShutdown()
      requires Valid() && !stopped && !isShuttingDown
      modifies this`remainingSeconds, this`isShuttingDown, this`intervalActive
      ensures Valid() && !stopped
      ensures isShuttingDown && intervalActive && remainingSeconds == safeShutdownDuration
    {
      remainingSeconds := safeShutdownDuration;
      isShuttingDown := true;
      intervalActive := true;
    }

    /** One firing of the countdown interval (`remainingSeconds--` is a
        post-decrement: the old value is compared, the new one broadcast). */
    method Tick()
      requires Valid() && !stopped && intervalActive
      modifies this
      ensures Valid()
      ensures remainingSeconds == old(remainingSeconds) - 1
      ensures old(remainingSeconds) <= 0 ==> StoppedFrom(old(sockets), old(disconnected), Some("Countdown is over"))
      ensures old(remainingSeconds) > 0 ==>
                && !stopped && intervalActive
                && broadcasts == old(broadcasts) + [remainingSeconds]
                && broadcasts == Countdown(safeShutdownDuration, remainingSeconds)
                && sockets == old(sockets) && connectionCount == old(connectionCount)
    {
      if remainingSeconds <= 0 {
        Stop(Some("Countdown is over"));
        remainingSeconds := remainingSeconds - 1;
      } else {
        remainingSeconds := remainingSeconds - 1;
        broadcasts := broadcasts + [remainingSeconds];
      }
    }

    /** The state right after `stop(reason)` with the given registry: the
        interval cleared, every registered socket disconnected exactly once,
        io and the server closed, and the process exited with status 0. */
    ghost predicate StoppedFrom(registry: map<SocketId, Socket>, before: seq<Socket>, reason: Option<string>)
      reads this
    {
      && stopped && exitCode == Some(0) && ioClosed && serverClosed && !intervalActive
      && stopReason == reason
      && sockets == registry
      && |before| <= |disconnected|
      && disconnected[..|before|] == before
      && EachOnce(registry, disconnected[|before|..])
    }

    method Stop(reason: Option<string>)
      requires Valid() && !stopped
      modifies this
      ensures Valid()
      ensures StoppedFrom(old(sockets), old(disconnected), reason)
      ensures broadcasts == old(broadcasts) && connectionCount == old(connectionCount)
      ensures isShuttingDown == old(isShuttingDown) && remainingSeconds == old(remainingSeconds)
    {
      var done := DisconnectAll(sockets);
      AppendedRun(sockets, disconnected, done);
      stopReason, intervalActive := reason, false;
      disconnected := disconnected + done;
      ioClosed, serverClosed := true, true;
      stopped, exitCode := true, Some(0);
    }
  }

  /** Two sockets are live when draining starts with a three-second countdown;
      both leave during the first second, and the process stops at once rather
      than waiting out the countdown. */
  method DrainScenario()
  {
    var guard := new ShutdownGuard(3);
    guard.OnConnection(Socket("a"));
    guard.OnConnection(Socket("b"));
    guard.Shutdown();
    assert guard.isShuttingDown && !guard.stopped;
    guard.Tick();
    assert guard.broadcasts == [2];
    guard.OnDisconnection(Socket("a"));
    assert !guard.stopped;
    guard.OnDisconnection(Socket("b"));
    assert guard.stopped && guard.exitCode == Some(0);
    assert guard.stopReason == Some("All clients disconnected");
  }

  /** A second signal while draining stops the process whatever is left. */
  method ForceQuitScenario()
  {
    var guard := new ShutdownGuard(300);
    guard.OnConnection(Socket("a"));
    guard.Shutdown();
    assert !guard.stopped;
    guard.Shutdown();
    assert guard.stopped && guard.stopReason == Some("Safe shutdown aborted, force quitting");
    assert guard.disconnected == [Socket("a")];
  }
}
