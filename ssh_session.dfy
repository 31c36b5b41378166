/** One browser's terminal session: the pre-flight checks on the socket, the
    SSH connection and shell, and the error handler that reports, destroys
    the express session and disconnects the socket.

    What the session does to the outside world is kept, in order, in `events`;
    the SSH server's answers to `shell` and the name service are parameters. */
module SshSessions {
  import opened Base
  import opened Sessions
  import opened SshUtils
  import opened HostCheck

  /** A side effect on the socket, the express session or the SSH client. */
  datatype Event =
    | Emit(name: string, payload: Option<string>)
    | DestroySession
    | DisconnectSocket
    | ConnConnect(options: ConnectOptions)
    | ConnEnd
    | OpenShell(term: Option<string>, cols: Option<int>, rows: Option<int>)
    | StreamWrite(data: string)
    | ForwardInput   // the socket's `data` handler, which writes to the stream, is registered

  /** The SSH server's answer to a `shell` request. */
  datatype ShellOutcome = ShellOpened | ShellFailed(error: Failure)

  /** The handlers that report through `handleError`, each with its label. */
  datatype Trigger = ConnEndedByHost | ConnClosed | ConnFailed | SocketDisconnected | SocketFailed

  function Label(t: Trigger): string
  {
    match t
    case ConnEndedByHost => "CONN END BY HOST"
    case ConnClosed => "CONN CLOSE"
    case ConnFailed => "CONN ERROR"
    case SocketDisconnected => "CLIENT SOCKET DISCONNECT"
    case SocketFailed => "SOCKET ERROR"
  }

  const AuthLevel := "client-authentication"

  // Banner text

  /** `data.replace(/\r?\n/g, '\r\n')`. */
  function NormalizeNewlines(s: string): (r: string)
    ensures r == [] || r[0] != '\n'
    ensures forall i :: 0 <= i < |r| && r[i] == '\n' ==> i > 0 && r[i - 1] == '\r'
    decreases |s|
  {
    if s == [] then []
    else if |s| >= 2 && s[0] == '\r' && s[1] == '\n' then "\r\n" + NormalizeNewlines(s[2..])
    else if s[0] == '\n' then "\r\n" + NormalizeNewlines(s[1..])
    else [s[0]] + NormalizeNewlines(s[1..])
  }

  /** Normalising banner text a second time changes nothing. */
  lemma {:induction false} NormalizeIdempotent(s: string)
    ensures NormalizeNewlines(NormalizeNewlines(s)) == NormalizeNewlines(s)
    decreases |s|
  {
    var r := NormalizeNewlines(s);
    if s == [] {
    } else if |s| >= 2 && s[0] == '\r' && s[1] == '\n' {
      NormalizeIdempotent(s[2..]);
      assert r[2..] == NormalizeNewlines(s[2..]);
    } else if s[0] == '\n' {
      NormalizeIdempotent(s[1..]);
      assert r[2..] == NormalizeNewlines(s[1..]);
    } else {
      NormalizeIdempotent(s[1..]);
      assert r[1..] == NormalizeNewlines(s[1..]);
    }
  }

  // Error reporting

  /** `session.error` after an error arrives: written only while it is null,
      so the first message, even an empty one, stays. */
  function Retained(stored: Option<string>, err: Option<Failure>): (r: Option<string>)
    ensures stored.Some? ==> r == stored
    ensures stored.None? && err.Some? ==> r == Some(err.value.message)
    ensures stored.None? && err.None? ==> r.None?
  {
    if stored.Some? then stored else if err.Some? then Some(err.value.message) else None
  }

  /** `session.error` after a run of errors. */
  function RetainedAfter(stored: Option<string>, errs: seq<Option<Failure>>): Option<string>
    decreases |errs|
  {
    if errs == [] then stored else RetainedAfter(Retained(stored, errs[0]), errs[1..])
  }

  /** Once a message is stored, no later error replaces it; before that, the
      first error that arrives decides it. */
  lemma {:induction false} FirstErrorPersists(stored: Option<string>, errs: seq<Option<Failure>>)
    ensures stored.Some? ==> RetainedAfter(stored, errs) == stored
    ensures stored.None? && errs != [] && errs[0].Some? ==> RetainedAfter(stored, errs) == Some(errs[0].value.message)
    decreases |errs|
  {
    if errs != [] {
      FirstErrorPersists(Retained(stored, errs[0]), errs[1..]);
    }
  }

  /** `': ' + session.error` when that is truthy, else nothing. */
  function StoredSuffix(stored: Option<string>): (s: string)
    ensures Truthy(stored) ==> s == ": " + stored.value
    ensures !Truthy(stored) ==> s == ""
  {
    if Truthy(stored) then ": " + stored.value else ""
  }

  /** `terminateSession`: report, then destroy the session, then disconnect. */
  function Teardown(message: string, prefix: string): (evs: seq<Event>)
    ensures |evs| == 3 && evs[0].Emit? && evs[0].name == "ssherror" && evs[0].payload == Some(prefix + message)
    ensures evs[1] == DestroySession && evs[2] == DisconnectSocket
  {
    [Emit("ssherror", Some(prefix + message)), DestroySession, DisconnectSocket]
  }

  /** What `handleError` does with a session, given the message retained in it. */
  function ErrorEvents(event: string, err: Option<Failure>, stored: Option<string>): (evs: seq<Event>)
    ensures err.Some? && err.value.level == Some(AuthLevel) <==> |evs| == 4
    ensures |evs| == 4 ==> evs[0] == Emit("reauth", None) && evs[1..] == Teardown(event + StoredSuffix(stored), "SSH ")
    ensures err.None? ==> evs == Teardown(event + StoredSuffix(stored), "SSH ")
    ensures err.Some? && err.value.level != Some(AuthLevel) ==> evs == Teardown(event + ": " + err.value.message, "SSH ")
  {
    if err.None? then Teardown(event + StoredSuffix(stored), "SSH ")
    else if err.value.level == Some(AuthLevel) then [Emit("reauth", None)] + Teardown(event + StoredSuffix(stored), "SSH ")
    else Teardown(event + ": " + err.value.message, "SSH ")
  }

  /** Every report ends the same way: `ssherror`, destroy, disconnect, in that
      order, and `reauth` comes before them exactly on authentication failure. */
  lemma ErrorEventsEndInTeardown(event: string, err: Option<Failure>, stored: Option<string>)
    ensures var evs := ErrorEvents(event, err, stored);
      && |evs| >= 3
      && evs[|evs| - 3].Emit? && evs[|evs| - 3].name == "ssherror"
      && evs[|evs| - 2] == DestroySession && evs[|evs| - 1] == DisconnectSocket
      && (Emit("reauth", None) in evs <==> err.Some? && err.value.level == Some(AuthLevel))
  {
  }

  /** An authentication failure after an earlier error reports the earlier
      message, not its own. */
  lemma AuthFailureReportsFirstError(event: string, first: string, err: Failure)
    requires first != "" && err.level == Some(AuthLevel)
    ensures ErrorEvents(event, Some(err), Retained(Some(first), Some(err)))
            == [Emit("reauth", None), Emit("ssherror", Some("SSH " + event + ": " + first)), DestroySession, DisconnectSocket]
  {
    assert "SSH " + (event + (": " + first)) == "SSH " + event + ": " + first;
  }

  /** The text of a stream's `close`: `CODE: <code>` when the code is non-zero,
      `SIGNAL: <signal>` when there is one, joined by a space. */
  function CloseMessage(code: Option<int>, signal: Option<string>): (m: string)
    ensures m == "" <==> (code.None? || code.value == 0) && !Truthy(signal)
    ensures code.Some? && code.value != 0 ==> StartsWith(m, "CODE: ")
    ensures (code.None? || code.value == 0) && Truthy(signal) ==> m == "SIGNAL: " + signal.value
  {
    var parts := (if code.Some? && code.value != 0 then ["CODE: " + IntText(code.value)] else [])
               + (if Truthy(signal) then ["SIGNAL: " + signal.value] else []);
    if |parts| == 0 then "" else if |parts| == 1 then parts[0] else parts[0] + " " + parts[1]
  }

  /** A shell that exits cleanly stores an empty message as the session's
      error; from then on no error's message is retained, and an
      authentication failure is reported without any detail. */
  lemma CleanCloseMasksLaterErrors(later: seq<Option<Failure>>, event: string, err: Failure)
    requires err.level == Some(AuthLevel)
    ensures var stored := Retained(None, Some(Plain(CloseMessage(Some(0), None))));
      && stored == Some("")
      && RetainedAfter(stored, later) == Some("")
      && ErrorEvents(event, Some(err), RetainedAfter(stored, later))[1] == Emit("ssherror", Some("SSH " + event))
  {
    FirstErrorPersists(Some(""), later);
    assert event + "" == event;
  }

  /** `cd "<cwd>"` followed by a newline. */
  function CdLine(cwd: string): (line: string)
    ensures |line| == |cwd| + 6
    ensures StartsWith(line, "cd \"") && line[|line| - 2..] == "\"\n"
    ensures line[4..|line| - 2] == cwd
  {
    "cd \"" + cwd + "\"\n"
  }

  /** What the shell callback does once the stream exists: move to the
      confirmed directory, if any, before the browser's input reaches the
      stream, then report. */
  function ShellWiring(cwd: Option<string>): (evs: seq<Event>)
    ensures |evs| >= 2
    ensures Truthy(cwd) ==> evs[0] == StreamWrite(CdLine(cwd.value)) && evs[1] == ForwardInput
    ensures !Truthy(cwd) ==> evs[0] == ForwardInput && forall e | e in evs :: !e.StreamWrite?
    ensures evs[|evs| - 1] == Emit("status", Some("SSH SHELL ESTABLISHED"))
  {
    (if Truthy(cwd) then [StreamWrite(CdLine(cwd.value))] else [])
    + [ForwardInput, Emit("status", Some("SSH SHELL ESTABLISHED"))]
  }

  /** What a failed `shell` request leaves behind as written: the error
      report and `conn.end()`, then, without a return, the use of the
      missing stream: `stream.write` when there is a directory to move to,
      otherwise `stream.on` right after the input handler is registered. */
  function StreamUndefined(property: string): Failure
  {
    Plain("Cannot read properties of undefined (reading '" + property + "')")
  }

  class SshSession {
    /** `socket.request.session`, which may be missing. */
    const session: Session?
    /** `session.ssh || {}`, read once. */
    const sshConfig: SshConfig
    var initialCols: int
    var initialRows: int
    var events: seq<Event>

    /** The constructor reading `ssh` only from a session that exists, so
        that a missing session reaches `ensureSanity`. */
    constructor(session: Session?)
      ensures this.session == session
      ensures sshConfig == if session != null && session.ssh.Some? then session.ssh.value else EmptySshConfig
      ensures initialCols == 80 && initialRows == 24 && events == []
    {
      this.session := session;
      sshConfig := if session != null && session.ssh.Some? then session.ssh.value else EmptySshConfig;
      initialCols := 80;
      initialRows := 24;
      events := [];
    }

    /** A missing express session is refused with `401 UNAUTHORIZED`. */
    method EnsureSanity() returns (ok: bool)
      modifies this`events
      ensures ok <==> session != null
      ensures ok ==> events == old(events)
      ensures !ok ==> events == old(events) + [Emit("401 UNAUTHORIZED", None), DisconnectSocket]
    {
      if session == null {
        events := events + [Emit("401 UNAUTHORIZED", None), DisconnectSocket];
        return false;
      }
      return true;
    }

    /** The allow-list gate; a host outside it is refused, and a failed
        lookup rejects the check without touching the socket. */
    method IsHostAllowed(net: Network) returns (r: Result<bool, Failure>)
      modifies this`events
      ensures r == IsAllowed(sshConfig.host, sshConfig.allowedSubnets, net)
      ensures r == Ok(false) ==> events == old(events) + [Emit("ssherror", Some("401 UNAUTHORIZED")), DisconnectSocket]
      ensures r != Ok(false) ==> events == old(events)
    {
      r := IsAllowed(sshConfig.host, sshConfig.allowedSubnets, net);
      if r == Ok(false) {
        events := events + [Emit("ssherror", Some("401 UNAUTHORIZED")), DisconnectSocket];
      }
    }

    /** `ensureSanity() && await isHostAllowed()`. */
    method PreFlightChecks(net: Network) returns (r: Result<bool, Failure>)
      modifies this`events
      ensures r == Ok(true) <==> session != null && IsAllowed(sshConfig.host, sshConfig.allowedSubnets, net) == Ok(true)
      ensures session == null ==> r == Ok(false) && events == old(events) + [Emit("401 UNAUTHORIZED", None), DisconnectSocket]
      ensures session != null ==> r == IsAllowed(sshConfig.host, sshConfig.allowedSubnets, net)
      ensures r.Ok? && r.value ==> events == old(events)
    {
      var sane := EnsureSanity();
      if !sane {
        return Ok(false);
      }
      r := IsHostAllowed(net);
    }

    /** The socket's `geometry` handler: the latest size wins. */
    method OnGeometry(cols: int, rows: int)
      modifies this`initialCols, this`initialRows
      ensures initialCols == cols && initialRows == rows
    {
      initialCols := cols;
      initialRows := rows;
    }

    /** Configures the socket, then connects when the session has a user
        name (the `sshConfig` half of that test is an object, always true);
        building the options throws when the session has no `ssh` record. */
    method Connect() returns (r: Result<(), Failure>)
      requires session != null
      modifies this`events, session`error, session`destroyed
      ensures var configured := old(events) + [Emit("status", Some("SOCKET CONFIGURED"))];
        && (Truthy(session.username) && ConnectionOptions(session.View()).Ok? ==>
              r == Ok(()) && events == configured + [ConnConnect(ConnectionOptions(session.View()).value)])
        && (Truthy(session.username) && ConnectionOptions(session.View()).Err? ==>
              r == Err(NoSshRecord) && events == configured)
        && (!Truthy(session.username) ==>
              r == Ok(()) && session.destroyed && events == configured + Teardown("WEBSOCKET ERROR", ""))
      ensures session.error == old(session.error)
    {
      events := events + [Emit("status", Some("SOCKET CONFIGURED"))];
      if Truthy(session.username) {
        var options := ConnectionOptions(session.View());
        if options.Err? {
          return Err(options.error);
        }
        events := events + [ConnConnect(options.value)];
      } else {
        TerminateSession("WEBSOCKET ERROR", "");
      }
      return Ok(());
    }

    method TerminateSession(message: string, prefix: string)
      requires session != null
      modifies this`events, session`destroyed
      ensures session.destroyed
      ensures events == old(events) + Teardown(message, prefix)
    {
      events := events + [Emit("ssherror", Some(prefix + message))];
      session.destroyed := true;
      events := events + [DestroySession, DisconnectSocket];
    }

    /** `handleError`: keeps the first error in the session, then reports. */
    method HandleError(event: string, err: Option<Failure>)
      modifies this`events, if session != null then {session} else {}
      ensures session == null ==> events == old(events) + [DisconnectSocket]
      ensures session != null ==>
                && session.error == Retained(old(session.error), err)
                && session.destroyed
                && events == old(events) + ErrorEvents(event, err, session.error)
                && unchanged(session`username, session`userpassword, session`privatekey, session`ssh)
    {
      if session == null {
        events := events + [DisconnectSocket];
        return;
      }
      if session.error.None? {
        session.error := if err.Some? then Some(err.value.message) else None;
      }
      var errMessage := StoredSuffix(session.error);
      if err.None? {
        TerminateSession(event + errMessage, "SSH ");
      } else if err.value.level == Some(AuthLevel) {
        events := events + [Emit("reauth", None)];
        TerminateSession(event + errMessage, "SSH ");
      } else {
        errMessage := ": " + err.value.message;
        assert event + errMessage == event + ": " + err.value.message;
        TerminateSession(event + errMessage, "SSH ");
      }
    }

    /** The connection and socket handlers that report an error. A socket
        disconnect passes `{message: reason}`; the connection's `end` passes nothing. */
    method OnTrigger(t: Trigger, err: Option<Failure>)
      modifies this`events, if session != null then {session} else {}
      ensures session == null ==> events == old(events) + [DisconnectSocket]
      ensures session != null ==>
                && session.error == Retained(old(session.error), err)
                && events == old(events) + ErrorEvents(Label(t), err, session.error)
    {
      HandleError(Label(t), err);
    }

    /** The stream's `close` handler. */
    method OnStreamClose(code: Option<int>, signal: Option<string>)
      modifies this`events, if session != null then {session} else {}
      ensures session == null ==> events == old(events) + [DisconnectSocket]
      ensures session != null ==>
                && session.error == Retained(old(session.error), Some(Plain(CloseMessage(code, signal))))
                && events == old(events) + ErrorEvents("STREAM CLOSE", Some(Plain(CloseMessage(code, signal))), session.error)
    {
      HandleError("STREAM CLOSE", Some(Plain(CloseMessage(code, signal))));
    }

    /** The banner is forwarded with every line break made `\r\n`. */
    method OnBanner(data: string)
      modifies this`events
      ensures events == old(events) + [Emit("data", Some(NormalizeNewlines(data)))]
    {
      events := events + [Emit("data", Some(NormalizeNewlines(data)))];
    }

    /** The connection's `ready` handler: report, then open the shell. */
    method OnReady(shell: ShellOutcome)
      requires session != null && session.ssh.Some?
      modifies this`events, session
      ensures var started := old(events) + [Emit("status", Some("SSH CONNECTION ESTABLISHED")),
                                           OpenShell(sshConfig.term, Some(initialCols), Some(initialRows))];
        && (shell.ShellOpened? ==> events == started + ShellWiring(old(session.ssh).value.cwd))
        && (shell.ShellFailed? ==>
              events == started + ErrorEvents("EXEC ERROR", Some(shell.error), session.error) + [ConnEnd])
    {
      events := events + [Emit("status", Some("SSH CONNECTION ESTABLISHED"))];
      CreateShell(shell);
    }

    /** `createShell`, returning once the failed request is reported and the
        connection ended. The shell is sized by the latest geometry. */
    method CreateShell(shell: ShellOutcome)
      requires session != null && session.ssh.Some?
      modifies this`events, session
      ensures var started := old(events) + [OpenShell(sshConfig.term, Some(initialCols), Some(initialRows))];
        && (shell.ShellOpened? ==> events == started + ShellWiring(old(session.ssh).value.cwd) && unchanged(session))
        && (shell.ShellFailed? ==>
              && session.error == Retained(old(session.error), Some(shell.error))
              && events == started + ErrorEvents("EXEC ERROR", Some(shell.error), session.error) + [ConnEnd])
    {
      events := events + [OpenShell(sshConfig.term, Some(initialCols), Some(initialRows))];
      if shell.ShellFailed? {
        HandleError("EXEC ERROR", Some(shell.error));
        events := events + [ConnEnd];
        return;
      }
      events := events + ShellWiring(session.ssh.value.cwd);
    }

    /** `createShell` as written: the error branch does not return, so the
        callback goes on to use the stream that does not exist and throws. */
    method CreateShellAsWritten(shell: ShellOutcome) returns (r: Result<(), Failure>)
      requires session != null && session.ssh.Some?
      modifies this`events, session
      ensures var started := old(events) + [OpenShell(sshConfig.term, Some(initialCols), Some(initialRows))];
        && (shell.ShellOpened? ==> r == Ok(()) && events == started + ShellWiring(old(session.ssh).value.cwd))
        && (shell.ShellFailed? ==>
              var reported := started + ErrorEvents("EXEC ERROR", Some(shell.error), session.error) + [ConnEnd];
              && (Truthy(old(session.ssh).value.cwd) ==> r == Err(StreamUndefined("write")) && events == reported)
              && (!Truthy(old(session.ssh).value.cwd) ==> r == Err(StreamUndefined("on")) && events == reported + [ForwardInput]))
    {
      events := events + [OpenShell(sshConfig.term, Some(initialCols), Some(initialRows))];
      var cwd := session.ssh.value.cwd;
      if shell.ShellFailed? {
        HandleError("EXEC ERROR", Some(shell.error));
        events := events + [ConnEnd];
        if Truthy(cwd) {
          return Err(StreamUndefined("write"));
        }
        events := events + [ForwardInput];
        return Err(StreamUndefined("on"));
      }
      events := events + ShellWiring(session.ssh.value.cwd);
      return Ok(());
    }
  }

  /** The constructor as written reads `this.session.ssh` before any check,
      so a socket without an express session throws there. */
  const SessionUndefined := Plain("Cannot read properties of undefined (reading 'ssh')")

  method NewSshSessionAsWritten(session: Session?) returns (r: Result<SshSession, Failure>)
    ensures session == null <==> r.Err?
    ensures r.Err? ==> r.error == SessionUndefined
    ensures r.Ok? ==> fresh(r.value) && r.value.session == session && r.value.events == []
  {
    if session == null {
      return Err(SessionUndefined);
    }
    var s := new SshSession(session);
    return Ok(s);
  }

  /** A socket without a session: as written the constructor throws and
      nothing reaches the browser; with the checked constructor the
      pre-flight check refuses it with `401 UNAUTHORIZED` and disconnects. */
  method MissingSessionScenario(net: Network) returns (asWritten: Result<SshSession, Failure>, checked: Result<bool, Failure>, events: seq<Event>)
    ensures asWritten == Err(SessionUndefined)
    ensures checked == Ok(false) && events == [Emit("401 UNAUTHORIZED", None), DisconnectSocket]
  {
    asWritten := NewSshSessionAsWritten(null);
    var s := new SshSession(null);
    checked := s.PreFlightChecks(net);
    events := s.events;
  }

  /** Two geometry events before the connection is ready: the shell opens
      with the later size. */
  method GeometryScenario() returns (shellEvent: Event)
    ensures shellEvent == OpenShell(Some("xterm"), Some(132), Some(50))
  {
    var session := new Session();
    session.username := Some("alice");
    session.ssh := Some(EmptySshConfig.(term := Some("xterm")));
    var s := new SshSession(session);
    s.OnGeometry(100, 40);
    s.OnGeometry(132, 50);
    s.CreateShell(ShellOpened);
    shellEvent := s.events[0];
  }
}
