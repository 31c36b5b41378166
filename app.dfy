/** The HTTP side of the gateway: the shutdown gate in front of every
    request, the routes, the mapping from a failed credential probe to an
    error response, and the socket connection handler. */
module App {
  import opened Base
  import opened Sessions
  import opened DirectoryCheck
  import opened Populator
  import opened SshUtils
  import opened SshSessions
  import opened HostCheck
  import Shutdown
  import AddKey

  datatype Body =
    | PlainBody(text: string)
    | ErrorBody(code: string, recoverable: Option<bool>)
    | DirsBody(pwd: Option<string>, cwd: Option<string>)

  datatype Response = Response(status: int, body: Body)

  const UnexpectedPacket := "Unexpected packet before version"
  const ServiceUnavailable := Response(503, PlainBody("Service unavailable: Server shutting down"))
  const NotFound := Response(404, ErrorBody("Not Found", None))
  const InternalError := Response(500, ErrorBody("Internal Server Error", None))

  /** The error body a failed probe is answered with. The message is looked at
      before the level: a stray SFTP greeting, then a `?dir:` code, then an
      authentication failure; everything else is a server error. */
  function ErrorResponse(err: Failure): (res: Response)
    ensures res.status == 422 || res == InternalError
    ensures res.status == 422 <==> err.message == UnexpectedPacket || StartsWith(err.message, DirPrefix) || err.level == Some(AuthLevel)
    ensures res.body.ErrorBody?
    ensures res.body.recoverable == Some(true) <==> err.message == UnexpectedPacket || StartsWith(err.message, DirPrefix)
    ensures err.message == UnexpectedPacket ==> res.body.code == "Unexpected SFTP STDOUT"
    ensures err.message != UnexpectedPacket && StartsWith(err.message, DirPrefix) ==> res.body.code == err.message[|DirPrefix|..]
    ensures !StartsWith(err.message, DirPrefix) && err.message != UnexpectedPacket && err.level == Some(AuthLevel) ==>
              res.body.code == "Missing SSH Configuration" && res.body.recoverable.None?
  {
    if err.message == UnexpectedPacket then Response(422, ErrorBody("Unexpected SFTP STDOUT", Some(true)))
    else if StartsWith(err.message, DirPrefix) then Response(422, ErrorBody(err.message[5..], Some(true)))
    else if err.level == Some(AuthLevel) then Response(422, ErrorBody("Missing SSH Configuration", None))
    else InternalError
  }

  /** The directory check's codes read back from the response. */
  function DirErrorOfCode(code: string): (k: Option<DirError>)
    ensures k.Some? ==> Code(k.value) == code
  {
    if code == "Invalid Characters" then Some(InvalidCharacters)
    else if code == "Missing Directory" then Some(MissingDirectory)
    else if code == "Not A Directory" then Some(NotADirectory)
    else if code == "Permission Denied" then Some(PermissionDenied)
    else None
  }

  /** Every `?dir:` error of the directory check reaches the client as a
      recoverable 422 whose code names exactly that error. */
  lemma DirErrorRoundTrip(k: DirError, level: Option<string>)
    ensures var res := ErrorResponse(DirFailure(k).(level := level));
      && res.status == 422 && res.body.recoverable == Some(true)
      && DirErrorOfCode(res.body.code) == Some(k)
  {
    var f := DirFailure(k);
    assert f.message == DirPrefix + Code(k);
    assert f.message != UnexpectedPacket by {
      assert f.message[0] == '?';
    }
    assert f.message[|DirPrefix|..] == Code(k);
  }

  /** A failed directory check is answered with the code of one of its four
      errors or, for an error the SFTP server answered, as that error is. */
  lemma CheckFailureResponse(sftp: Sftp, requested: Option<string>)
    requires Pipeline(sftp, requested).result.Err?
    ensures var e := Pipeline(sftp, requested).result.error;
      var res := ErrorResponse(e);
      (res.status == 422 && res.body.recoverable == Some(true) && DirErrorOfCode(res.body.code).Some?)
      || e in ServerErrors(sftp)
  {
    PipelineErrors(sftp, requested);
    var e := Pipeline(sftp, requested).result.error;
    if e in DirFailures() {
      var k :| e == DirFailure(k);
      DirErrorRoundTrip(k, None);
    }
  }

  /** The success body: `pwd`, and `cwd` falling back to `pwd`. */
  function SuccessBody(ssh: SshConfig): (b: Body)
    ensures b.DirsBody? && b.pwd == ssh.pwd
    ensures Truthy(ssh.cwd) ==> b.cwd == ssh.cwd
    ensures !Truthy(ssh.cwd) ==> b.cwd == ssh.pwd
  {
    DirsBody(ssh.pwd, if Truthy(ssh.cwd) then ssh.cwd else ssh.pwd)
  }

  /** The answer of `/ssh/host` once the session is populated: the probe's
      success body, or its error's response. */
  function ProbeResponse(session: SessionView, server: ConnectOptions -> Handshake): (res: Response)
    ensures res.status == 200 ==> session.ssh.Some? && res.body == SuccessBody(session.ssh.value)
    ensures CheckAuthentication(session, server).result.Ok? <==> res.status == 200
    ensures CheckAuthentication(session, server).result.Err? ==> res == ErrorResponse(CheckAuthentication(session, server).result.error)
  {
    var probe := CheckAuthentication(session, server);
    if probe.result.Ok? then Response(200, SuccessBody(session.ssh.value))
    else ErrorResponse(probe.result.error)
  }

  /** Nothing the populator stores sets `pwd` or `cwd`, so a successful probe
      after `populate` answers with both missing. */
  lemma PopulatedSuccessHasNoDirectories(session: SessionView, req: Request, config: Config, privateKey: Option<string>, v: Validators, server: ConnectOptions -> Handshake)
    requires session.ssh == Some(SshConfigFor(DetermineHost(req, config, v), req, config, privateKey))
    requires ProbeResponse(session, server).status == 200
    ensures ProbeResponse(session, server).body == DirsBody(None, None)
  {
  }

  /** `GET /ssh/host/:host?`: populate the session, probe the credentials,
      answer. */
  method HostRoute(req: Request, session: Session, populator: SessionPopulator, server: ConnectOptions -> Handshake) returns (res: Response)
    modifies session`requestedDir, session`ssh
    ensures session.ssh == Some(SshConfigFor(DetermineHost(req, populator.config, populator.validators), req, populator.config, populator.privateKey))
    ensures res == ProbeResponse(session.View(), server)
  {
    populator.Populate(req, session);
    res := ProbeResponse(session.View(), server);
  }

  /** The same route as written: `populate` throws for every request naming a
      host, and the error handler answers 500. */
  method HostRouteAsWritten(req: Request, session: Session, populator: SessionPopulator, server: ConnectOptions -> Handshake) returns (res: Response)
    modifies session`requestedDir, session`ssh
    ensures Truthy(req.host) ==> res == InternalError
    ensures !Truthy(req.host) ==> res == ProbeResponse(session.View(), server)
  {
    var populated := populator.PopulateAsWritten(req, session);
    if populated.Err? {
      return InternalError;
    }
    res := ProbeResponse(session.View(), server);
  }

  /** The helper's USER argument: an unset session user name reaches the
      child process as the text "undefined". */
  function UserArgument(username: Option<string>): (arg: string)
    ensures username.Some? ==> arg == username.value
    ensures username.None? ==> arg == "undefined"
  {
    if username.Some? then username.value else "undefined"
  }

  /** `PUT /ssh/authorized_key`: run the helper with the session's user and
      the service's public key; exit status 0 answers with what it printed,
      any other status with a plain 500. */
  method AuthorizedKeyRoute(username: Option<string>, publicKey: string, users: set<string>, file: AddKey.KeyFile) returns (res: Response)
    modifies file
    ensures UserArgument(username) !in users ==>
              res == Response(500, PlainBody("Failed to add the key")) && file.content == old(file.content)
    ensures UserArgument(username) in users ==>
              && res.status == 200
              && (AddKey.AnyLine(old(file.content), publicKey, AddKey.SameKey) <==> res.body == PlainBody(AddKey.NotChanged + "\n"))
              && (AddKey.AnyLine(old(file.content), publicKey, AddKey.SameKey) ==> file.content == old(file.content))
              && (!AddKey.AnyLine(old(file.content), publicKey, AddKey.SameKey) ==>
                    res.body == PlainBody(AddKey.Changed + "\n") && file.content == AddKey.Updated(old(file.content), publicKey))
  {
    var outcome := AddKey.Run([UserArgument(username), publicKey], users, file);
    assert (AddKey.Changed + "\n")[0] != (AddKey.NotChanged + "\n")[0];
    if outcome.Err? {
      return Response(500, PlainBody("Failed to add the key"));
    }
    return Response(200, PlainBody(outcome.value + "\n"));
  }

  datatype Verb = Get | Put | OtherVerb

  datatype Route = Ping | SshHost(host: Option<string>) | AuthorizedKey | Unmatched

  /** The router, on the path's segments. */
  function RouteOf(verb: Verb, path: seq<string>): (r: Route)
    ensures r.Ping? ==> verb == Get && path == ["ping"]
    ensures r.SshHost? ==> verb == Get && |path| >= 2 && path[..2] == ["ssh", "host"]
    ensures r.AuthorizedKey? ==> verb == Put && path == ["ssh", "authorized_key"]
  {
    if verb == Get && path == ["ping"] then Ping
    else if verb == Get && path == ["ssh", "host"] then SshHost(None)
    else if verb == Get && |path| == 3 && path[..2] == ["ssh", "host"] then SshHost(Some(path[2]))
    else if verb == Put && path == ["ssh", "authorized_key"] then AuthorizedKey
    else Unmatched
  }

  /** `safeShutdownGuard`, first in the chain: while draining every request
      is refused; otherwise the rest of the chain answers. */
  function SafeShutdownGuard(guard: Shutdown.ShutdownGuard, next: Response): (res: Response)
    reads guard
    ensures guard.isShuttingDown ==> res == ServiceUnavailable
    ensures !guard.isShuttingDown ==> res == next
  {
    if guard.isShuttingDown then ServiceUnavailable else next
  }

  /** The chain for a request that the authentication stage lets through:
      the gate, then the matching route, then the 404 handler. The two
      effectful routes are given by what they answer. */
  function Dispatch(guard: Shutdown.ShutdownGuard, verb: Verb, path: seq<string>, host: Option<string> -> Response, authorizedKey: Response): (res: Response)
    reads guard
    ensures guard.isShuttingDown ==> res.status == 503
    ensures !guard.isShuttingDown && RouteOf(verb, path) == Unmatched ==> res == NotFound
    ensures !guard.isShuttingDown && RouteOf(verb, path) == Ping ==> res == Response(200, PlainBody("OK"))
  {
    SafeShutdownGuard(guard,
      match RouteOf(verb, path)
      case Ping => Response(200, PlainBody("OK"))
      case SshHost(h) => host(h)
      case AuthorizedKey => authorizedKey
      case Unmatched => NotFound)
  }

  /** The first connection handler's module variable `sshSession`. */
  const ReconnectUndefined := Plain("sshSession.reconnect is not a function")

  class SocketServer {
    var sshSession: SshSession?

    constructor()
      ensures sshSession == null
    {
      sshSession := null;
    }

    /** A new socket gets its own `SshSession`, which runs the pre-flight
        checks and then connects. `Ok(true)` when the connection was started. */
    method OnConnection(session: Session?, net: Network) returns (r: Result<bool, Failure>)
      modifies this
      modifies if session != null then {session} else {}
      ensures sshSession != null && fresh(sshSession) && sshSession.session == session
      ensures session == null ==> r == Ok(false)
      ensures session != null && IsAllowed(sshSession.sshConfig.host, sshSession.sshConfig.allowedSubnets, net) != Ok(true) ==>
                r == IsAllowed(sshSession.sshConfig.host, sshSession.sshConfig.allowedSubnets, net)
      ensures r == Ok(true) ==> session != null && Truthy(session.username)
      ensures (&& session != null && old(session.ssh).Some? && Truthy(old(session.username))
               && IsAllowed(sshSession.sshConfig.host, sshSession.sshConfig.allowedSubnets, net) == Ok(true))
              ==> r == Ok(true)
    {
      var s := new SshSession(session);
      sshSession := s;
      var ok := s.PreFlightChecks(net);
      if ok != Ok(true) {
        return ok;
      }
      var connected := s.Connect();
      if connected.Err? {
        return Err(connected.error);
      }
      return Ok(Truthy(session.username));
    }

    /** As written: once one socket has connected, every later socket calls
        `reconnect`, which `SshSession` does not define, and gets nothing. The
        first socket builds its session with the unchecked constructor; when
        that throws, `sshSession` stays unset and nothing reaches the browser. */
    method OnConnectionAsWritten(session: Session?, net: Network) returns (r: Result<bool, Failure>)
      modifies this
      modifies if session != null then {session} else {}
      ensures old(sshSession) != null ==> r == Err(ReconnectUndefined) && sshSession == old(sshSession)
      ensures old(sshSession) == null && session == null ==> r == Err(SessionUndefined) && sshSession == null
      ensures old(sshSession) == null && session != null ==>
                && sshSession != null && fresh(sshSession) && sshSession.session == session
                && (IsAllowed(sshSession.sshConfig.host, sshSession.sshConfig.allowedSubnets, net) != Ok(true) ==>
                      r == IsAllowed(sshSession.sshConfig.host, sshSession.sshConfig.allowedSubnets, net))
                && (r == Ok(true) ==> Truthy(session.username))
                && (old(session.ssh).Some? && Truthy(old(session.username))
                    && IsAllowed(sshSession.sshConfig.host, sshSession.sshConfig.allowedSubnets, net) == Ok(true)
                    ==> r == Ok(true))
    {
      if sshSession != null {
        return Err(ReconnectUndefined);
      }
      var created := NewSshSessionAsWritten(session);
      if created.Err? {
        return Err(created.error);
      }
      var s := created.value;
      sshSession := s;
      var ok := s.PreFlightChecks(net);
      if ok != Ok(true) {
        return ok;
      }
      var connected := s.Connect();
      if connected.Err? {
        return Err(connected.error);
      }
      return Ok(Truthy(session.username));
    }
  }

  /** Two browsers in turn: as written the second is dropped; with a
      session per socket it is connected like the first. */
  method SecondBrowserScenario() returns (asWritten: Result<bool, Failure>, perSocket: Result<bool, Failure>)
    ensures asWritten == Err(ReconnectUndefined)
    ensures perSocket == Ok(true)
  {
    var net := Network(_ => Ok("10.0.0.1"), (_, _) => true);
    var written := new SocketServer();
    var fixedServer := new SocketServer();
    var first := Browser();
    var _ := written.OnConnectionAsWritten(first, net);
    var second := Browser();
    asWritten := written.OnConnectionAsWritten(second, net);
    var third := Browser();
    var _ := fixedServer.OnConnection(third, net);
    var fourth := Browser();
    perSocket := fixedServer.OnConnection(fourth, net);
  }

  /** A first socket without an express session, as written: the
      constructor throws, nothing is kept, and the next socket is served as
      the first one. */
  method SessionlessFirstScenario() returns (first: Result<bool, Failure>, next: Result<bool, Failure>)
    ensures first == Err(SessionUndefined)
    ensures next == Ok(true)
  {
    var net := Network(_ => Ok("10.0.0.1"), (_, _) => true);
    var written := new SocketServer();
    first := written.OnConnectionAsWritten(null, net);
    var browser := Browser();
    next := written.OnConnectionAsWritten(browser, net);
  }

  /** A populated session of a signed-in user. */
  method Browser() returns (s: Session)
    ensures fresh(s) && s.username == Some("alice") && s.ssh == Some(EmptySshConfig)
  {
    s := new Session();
    s.username := Some("alice");
    s.ssh := Some(EmptySshConfig);
  }
}
