/** The older socket handler, not wired into the application: the same
    pre-flight checks and error reporting as `SshSession`, a host test on the
    host string itself, and a waterfall that waits for the connection, probes
    the requested directory with `opendir` and opens the shell in it.

    The terminal size it keeps is module state shared by every socket; it is
    modelled as one `Geometry` object that connections may share. */
module LegacyConnection {
  import opened Base
  import opened Sessions
  import opened SshUtils
  import opened SshSessions
  import DirectoryCheck

  /** `new CIDRMatcher(subnets).contains(host)`, taken as given. */
  type Matcher = (seq<string>, Option<string>) -> bool

  /** An empty or missing list allows every host; otherwise the host string
      itself is matched, with no name resolution. */
  function IsHostAllowed(sshConfig: SshConfig, matcher: Matcher): (allowed: bool)
    ensures sshConfig.allowedSubnets.None? || sshConfig.allowedSubnets == Some([]) ==> allowed
    ensures sshConfig.allowedSubnets.Some? && sshConfig.allowedSubnets.value != [] ==>
              allowed == matcher(sshConfig.allowedSubnets.value, sshConfig.host)
  {
    var subnets := if sshConfig.allowedSubnets.Some? then sshConfig.allowedSubnets.value else [];
    if |subnets| < 1 then true else matcher(subnets, sshConfig.host)
  }

  /** For a host that is an address, one that resolves to itself, the string
      test and the resolving gate agree. */
  lemma AgreesOnAddresses(sshConfig: SshConfig, net: HostCheck.Network)
    requires sshConfig.host.Some? && net.lookup(sshConfig.host) == Ok(sshConfig.host.value)
    ensures var matcher := (subnets: seq<string>, host: Option<string>) => host.Some? && net.contains(subnets, host.value);
      HostCheck.IsAllowed(sshConfig.host, sshConfig.allowedSubnets, net) == Ok(IsHostAllowed(sshConfig, matcher))
  {
  }

  /** `session.error || message`: unlike `SshSession`, a stored empty message
      is replaced. */
  function LegacyRetained(stored: Option<string>, err: Option<Failure>): (r: Option<string>)
    ensures Truthy(stored) ==> r == stored
    ensures !Truthy(stored) && err.Some? ==> r == Some(err.value.message)
    ensures !Truthy(stored) && err.None? ==> r.None?
  {
    if Truthy(stored) then stored else if err.Some? then Some(err.value.message) else None
  }

  /** The two handlers keep the same message except after an empty one. */
  lemma RetentionVariants(stored: Option<string>, err: Option<Failure>)
    ensures stored != Some("") ==> LegacyRetained(stored, err) == Retained(stored, err)
    ensures stored == Some("") && err.Some? ==> LegacyRetained(stored, err) == Some(err.value.message) != Retained(stored, err) || err.value.message == ""
  {
  }

  /** `'EXEC ERROR' + err`: an `Error` converted to text is `Error: <message>`. */
  function ErrorString(e: Failure): string
  {
    "Error: " + e.message
  }

  /** The directory the shell starts in: the requested `dir` when `opendir`
      accepts it, none when it is missing or refused; an SFTP channel that
      cannot be opened is reported (`Err`). */
  function WorkingDir(sftp: DirectoryCheck.Sftp, dir: Option<string>): (r: Result<Option<string>, Failure>)
    ensures !Truthy(dir) ==> r == Ok(None)
    ensures Truthy(dir) && sftp.channel.Some? ==> r == Err(sftp.channel.value)
    ensures Truthy(dir) && sftp.channel.None? ==> r.Ok? && (r.value == dir <==> dir.value in sftp.openable)
    ensures r.Ok? ==> r.value.None? || r.value == dir
  {
    if !Truthy(dir) then Ok(None)
    else if sftp.channel.Some? then Err(sftp.channel.value)
    else if dir.value in sftp.openable then Ok(dir)
    else Ok(None)
  }

  /** The SFTP step as written calls `SSHError`, which is not defined (the
      handler is `SSHerror`), so a channel failure throws instead of being
      reported. */
  const SshErrorUndefined := Plain("SSHError is not defined")

  function WorkingDirAsWritten(sftp: DirectoryCheck.Sftp, dir: Option<string>): (r: Result<Option<string>, Failure>)
    ensures Truthy(dir) && sftp.channel.Some? ==> r == Err(SshErrorUndefined)
    ensures !(Truthy(dir) && sftp.channel.Some?) ==> r == WorkingDir(sftp, dir)
  {
    if Truthy(dir) && sftp.channel.Some? then Err(SshErrorUndefined) else WorkingDir(sftp, dir)
  }

  /** A failing SFTP channel reaches the browser only once the handler's
      name is spelled as declared. */
  lemma SftpFailureDiscrepancy(sftp: DirectoryCheck.Sftp, dir: string, e: Failure)
    requires dir != "" && sftp.channel == Some(e)
    ensures WorkingDirAsWritten(sftp, Some(dir)) == Err(SshErrorUndefined)
    ensures WorkingDir(sftp, Some(dir)) == Err(e)
  {
  }

  /** `termCols` and `termRows`: undefined until a geometry event arrives. */
  class Geometry {
    var cols: Option<int>
    var rows: Option<int>

    constructor()
      ensures cols.None? && rows.None?
    {
      cols, rows := None, None;
    }
  }

  const SocketTriggers := {SocketDisconnected, SocketFailed}

  class LegacyConnection {
    /** `socket.request.session`, which may be missing. */
    const session: Session?
    const sshConfig: SshConfig
    const geometry: Geometry
    var events: seq<Event>
    /** The socket's `data`, `resize`, `disconnect` and `error` handlers exist. */
    var socketWired: bool

    /** As written: the terminal size is the module's, shared with every other socket. */
    constructor(session: Session?, geometry: Geometry)
      ensures this.session == session && this.geometry == geometry
      ensures sshConfig == if session != null && session.ssh.Some? then session.ssh.value else EmptySshConfig
      ensures events == [] && !socketWired
    {
      this.session := session;
      sshConfig := if session != null && session.ssh.Some? then session.ssh.value else EmptySshConfig;
      this.geometry := geometry;
      events := [];
      socketWired := false;
    }

    /** With the size kept per connection, as `SshSession` does. */
    constructor Isolated(session: Session?)
      ensures this.session == session && fresh(geometry)
      ensures geometry.cols.None? && geometry.rows.None?
      ensures sshConfig == if session != null && session.ssh.Some? then session.ssh.value else EmptySshConfig
      ensures events == [] && !socketWired
    {
      this.session := session;
      sshConfig := if session != null && session.ssh.Some? then session.ssh.value else EmptySshConfig;
      geometry := new Geometry();
      events := [];
      socketWired := false;
    }

    /** The synchronous part of the handler: refuse a socket without a
        session or with a host outside the subnets, then connect, or report
        `WEBSOCKET ERROR` when the session has no user name. `Ok(true)` when
        the connection was started. */
    method Start(matcher: Matcher) returns (r: Result<bool, Failure>)
      modifies this`events, if session != null then {session} else {}
      ensures session == null ==> r == Ok(false) && events == old(events) + [Emit("401 UNAUTHORIZED", None), DisconnectSocket]
      ensures session != null && !IsHostAllowed(sshConfig, matcher) ==>
                r == Ok(false) && events == old(events) + [Emit("ssherror", Some("401 UNAUTHORIZED")), DisconnectSocket]
      ensures session != null && IsHostAllowed(sshConfig, matcher) ==>
                && (Truthy(session.username) && ConnectionOptions(session.View()).Ok? ==>
                      r == Ok(true) && events == old(events) + [ConnConnect(ConnectionOptions(session.View()).value)])
                && (Truthy(session.username) && ConnectionOptions(session.View()).Err? ==>
                      r == Err(NoSshRecord) && events == old(events))
                && (!Truthy(session.username) ==>
                      r == Ok(false) && session.destroyed && events == old(events) + Teardown("WEBSOCKET ERROR", ""))
      ensures session != null ==> unchanged(session`username, session`userpassword, session`privatekey, session`ssh, session`error)
    {
      if session == null {
        events := events + [Emit("401 UNAUTHORIZED", None), DisconnectSocket];
        return Ok(false);
      }
      if !IsHostAllowed(sshConfig, matcher) {
        events := events + [Emit("ssherror", Some("401 UNAUTHORIZED")), DisconnectSocket];
        return Ok(false);
      }
      if Truthy(session.username) {
        var options := ConnectionOptions(session.View());
        if options.Err? {
          return Err(options.error);
        }
        events := events + [ConnConnect(options.value)];
        return Ok(true);
      }
      session.destroyed := true;
      events := events + Teardown("WEBSOCKET ERROR", "");
      return Ok(false);
    }

    /** The socket's `geometry` handler, writing the shared size. */
    method OnGeometry(cols: int, rows: int)
      modifies geometry
      ensures geometry.cols == Some(cols) && geometry.rows == Some(rows)
    {
      geometry.cols := Some(cols);
      geometry.rows := Some(rows);
    }

    /** The connection's `banner` handler: forwarded as `data` with every
        line break made `\r\n`. */
    method OnBanner(data: string)
      modifies this`events
      ensures events == old(events) + [Emit("data", Some(NormalizeNewlines(data)))]
    {
      events := events + [Emit("data", Some(NormalizeNewlines(data)))];
    }

    /** `SSHerror`: keeps the message, then reports exactly as `SshSession` does. */
    method ReportError(event: string, err: Option<Failure>)
      requires session != null
      modifies this`events, session`error, session`destroyed
      ensures session.error == LegacyRetained(old(session.error), err)
      ensures session.destroyed
      ensures events == old(events) + ErrorEvents(event, err, session.error)
    {
      session.error := LegacyRetained(session.error, err);
      var theError := StoredSuffix(session.error);
      var reauth: seq<Event> := [];
      if err.Some? && err.value.level == Some(AuthLevel) {
        reauth := [Emit("reauth", None)];
      } else if err.Some? {
        theError := ": " + err.value.message;
        assert event + theError == event + ": " + err.value.message;
      }
      session.destroyed := true;
      events := events + reauth + Teardown(event + theError, "SSH ");
    }

    /** The connection's `ready` handler and the waterfall behind it. The
        shell is sized by whatever the shared geometry holds at that moment;
        `Err` is an exception thrown out of the shell callback. */
    method OnReady(sftp: DirectoryCheck.Sftp, shell: ShellOutcome) returns (r: Result<(), Failure>)
      requires session != null
      modifies this`events, this`socketWired, session`error, session`destroyed
      ensures var ready := old(events) + [Emit("status", Some("SSH CONNECTION ESTABLISHED"))];
        var dir := WorkingDir(sftp, sshConfig.dir);
        var shellEvent := OpenShell(sshConfig.term, geometry.cols, geometry.rows);
        && (dir.Err? ==>
              && r == Ok(())
              && session.error == LegacyRetained(old(session.error), None)
              && events == ready + ErrorEvents("EXEC ERROR" + ErrorString(dir.error), None, session.error) + [ConnEnd])
        && (dir.Ok? && shell.ShellOpened? ==>
              && r == Ok(()) && socketWired
              && events == ready + [shellEvent]
                 + (if Truthy(dir.value) then [StreamWrite("cd " + dir.value.value + "\n")] else []) + [ForwardInput])
        && (dir.Ok? && shell.ShellFailed? ==>
              var reported := ready + [shellEvent]
                 + ErrorEvents("EXEC ERROR" + ErrorString(shell.error), None, session.error) + [ConnEnd, ConnEnd];
              && session.error == LegacyRetained(old(session.error), None)
              && (Truthy(dir.value) ==> r == Err(StreamUndefined("write")) && events == reported)
              && (!Truthy(dir.value) ==> r == Err(StreamUndefined("on")) && socketWired && events == reported + [ForwardInput]))
    {
      events := events + [Emit("status", Some("SSH CONNECTION ESTABLISHED"))];
      var dir := WorkingDir(sftp, sshConfig.dir);
      if dir.Err? {
        ReportError("EXEC ERROR" + ErrorString(dir.error), None);
        events := events + [ConnEnd];
        return Ok(());
      }
      events := events + [OpenShell(sshConfig.term, geometry.cols, geometry.rows)];
      if shell.ShellFailed? {
        ReportError("EXEC ERROR" + ErrorString(shell.error), None);
        // `conn.end()`, then the waterfall's final callback ends it again
        events := events + [ConnEnd, ConnEnd];
        if Truthy(dir.value) {
          return Err(StreamUndefined("write"));
        }
        events := events + [ForwardInput];
        socketWired := true;
        return Err(StreamUndefined("on"));
      }
      if Truthy(dir.value) {
        events := events + [StreamWrite("cd " + dir.value.value + "\n")];
      }
      events := events + [ForwardInput];
      socketWired := true;
      return Ok(());
    }

    /** The handlers that call `SSHerror`; the socket's two exist only once
        the shell callback has registered them, and they also end the connection. */
    method OnTrigger(t: Trigger, err: Option<Failure>)
      requires session != null
      modifies this`events, session`error, session`destroyed
      ensures t in SocketTriggers && !socketWired ==> events == old(events) && unchanged(session)
      ensures t !in SocketTriggers ==>
                && session.error == LegacyRetained(old(session.error), err)
                && events == old(events) + ErrorEvents(Label(t), err, session.error)
      ensures t in SocketTriggers && socketWired ==>
                && session.error == LegacyRetained(old(session.error), err)
                && events == old(events) + ErrorEvents(Label(t), err, session.error) + [ConnEnd]
    {
      if t in SocketTriggers {
        if socketWired {
          ReportError(Label(t), err);
          events := events + [ConnEnd];
        }
      } else {
        ReportError(Label(t), err);
      }
    }

    /** The stream's `close` handler: report, then the waterfall's final
        callback ends the connection. */
    method OnStreamClose(code: Option<int>, signal: Option<string>)
      requires session != null
      modifies this`events, session`error, session`destroyed
      ensures session.error == LegacyRetained(old(session.error), Some(Plain(CloseMessage(code, signal))))
      ensures events == old(events) + ErrorEvents("STREAM CLOSE", Some(Plain(CloseMessage(code, signal))), session.error) + [ConnEnd]
    {
      ReportError("STREAM CLOSE", Some(Plain(CloseMessage(code, signal))));
      events := events + [ConnEnd];
    }
  }

  function UserSession(term: string): SshConfig
  {
    EmptySshConfig.(term := Some(term))
  }

  /** As written: a second browser's geometry event resizes the first
      browser's shell, which never sent one. */
  method SharedGeometryScenario(sftp: DirectoryCheck.Sftp) returns (shellEvent: Event)
    ensures shellEvent == OpenShell(Some("xterm"), Some(200), Some(60))
  {
    var shared := new Geometry();
    var first := new Session();
    first.ssh := Some(UserSession("xterm"));
    var second := new Session();
    second.ssh := Some(UserSession("vt100"));
    var a := new LegacyConnection(first, shared);
    var b := new LegacyConnection(second, shared);
    b.OnGeometry(200, 60);
    var _ := a.OnReady(sftp, ShellOpened);
    shellEvent := a.events[1];
  }

  /** With a size per connection, the other browser's event does not reach it. */
  method IsolatedGeometryScenario(sftp: DirectoryCheck.Sftp) returns (shellEvent: Event)
    ensures shellEvent == OpenShell(Some("xterm"), None, None)
  {
    var first := new Session();
    first.ssh := Some(UserSession("xterm"));
    var second := new Session();
    second.ssh := Some(UserSession("vt100"));
    var a := new LegacyConnection.Isolated(first);
    var b := new LegacyConnection.Isolated(second);
    b.OnGeometry(200, 60);
    var _ := a.OnReady(sftp, ShellOpened);
    shellEvent := a.events[1];
  }
}
