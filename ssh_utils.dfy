/** The options handed to the SSH client, and the credential probe that
    connects once with keepalive and keyboard-interactive switched off. */
module SshUtils {
  import opened Base
  import opened Sessions

  datatype ConnectOptions = ConnectOptions(
    host: Option<string>,
    port: Option<Scalar>,
    localAddress: Option<string>,
    localPort: Option<int>,
    username: Option<string>,
    password: Option<string>,
    privateKey: Option<string>,
    tryKeyboard: bool,
    algorithms: Option<Algorithms>,
    readyTimeout: Option<Scalar>,
    keepaliveInterval: Option<int>,
    keepaliveCountMax: Option<int>)

  /** Reading `session.ssh.host` with no `ssh` record throws. */
  const NoSshRecord := Plain("Cannot read properties of undefined (reading 'host')")

  /** The options with every field but the key taken from the session. */
  function OptionsWithKey(session: SessionView, privateKey: Option<string>): (r: Result<ConnectOptions, Failure>)
    ensures session.ssh.None? <==> r == Err(NoSshRecord)
    ensures r.Ok? ==>
      var ssh := session.ssh.value;
      && r.value.host == ssh.host && r.value.port == ssh.port
      && r.value.localAddress == ssh.localAddress && r.value.localPort == ssh.localPort
      && r.value.algorithms == ssh.algorithms && r.value.readyTimeout == ssh.readyTimeout
      && r.value.keepaliveInterval == ssh.keepaliveInterval && r.value.keepaliveCountMax == ssh.keepaliveCountMax
      && r.value.username == session.username && r.value.password == session.userpassword
      && r.value.privateKey == privateKey
      && r.value.tryKeyboard
  {
    if session.ssh.None? then Err(NoSshRecord)
    else
      var ssh := session.ssh.value;
      Ok(ConnectOptions(
        host := ssh.host, port := ssh.port,
        localAddress := ssh.localAddress, localPort := ssh.localPort,
        username := session.username, password := session.userpassword,
        privateKey := privateKey, tryKeyboard := true,
        algorithms := ssh.algorithms, readyTimeout := ssh.readyTimeout,
        keepaliveInterval := ssh.keepaliveInterval, keepaliveCountMax := ssh.keepaliveCountMax))
  }

  /** `connectionOptions` as written: the key is read from `session.privatekey`. */
  function ConnectionOptionsAsWritten(session: SessionView): (r: Result<ConnectOptions, Failure>)
    ensures r.Ok? ==> r.value.privateKey == session.privatekey
  {
    OptionsWithKey(session, session.privatekey)
  }

  /** The key the populator stored with the session's settings, or else the
      one set on the session itself. */
  function SessionKey(session: SessionView): (key: Option<string>)
    ensures session.ssh.Some? && session.ssh.value.privateKey.Some? ==> key == session.ssh.value.privateKey
    ensures session.ssh.None? || session.ssh.value.privateKey.None? ==> key == session.privatekey
  {
    if session.ssh.Some? && session.ssh.value.privateKey.Some? then session.ssh.value.privateKey
    else session.privatekey
  }

  /** `connectionOptions`, reading the key where the populator stores it. */
  function ConnectionOptions(session: SessionView): (r: Result<ConnectOptions, Failure>)
    ensures r.Ok? ==> r.value.privateKey == SessionKey(session)
    ensures r.Ok? ==> r.value.tryKeyboard
  {
    OptionsWithKey(session, SessionKey(session))
  }

  /** A session whose key was stored by the populator offers no key as
      written, and offers that key once it is read from `session.ssh`. */
  lemma PopulatedKeyDiscrepancy(session: SessionView)
    requires session.ssh.Some? && session.ssh.value.privateKey.Some? && session.privatekey.None?
    ensures ConnectionOptionsAsWritten(session).Ok? && ConnectionOptionsAsWritten(session).value.privateKey.None?
    ensures ConnectionOptions(session).Ok? && ConnectionOptions(session).value.privateKey == session.ssh.value.privateKey
  {
  }

  /** The probe's options: the connection options with keepalive off and no
      keyboard-interactive authentication, everything else the same. */
  function CheckAuthenticationOptions(session: SessionView): (r: Result<ConnectOptions, Failure>)
    ensures r.Err? <==> ConnectionOptions(session).Err?
    ensures r.Err? ==> r == ConnectionOptions(session)
    ensures r.Ok? ==>
      && r.value.keepaliveInterval == Some(0) && r.value.keepaliveCountMax == Some(0) && !r.value.tryKeyboard
      && r.value == ConnectionOptions(session).value.(keepaliveInterval := Some(0), keepaliveCountMax := Some(0), tryKeyboard := false)
  {
    match ConnectionOptions(session)
    case Err(e) => Err(e)
    case Ok(options) => Ok(options.(keepaliveInterval := Some(0), keepaliveCountMax := Some(0), tryKeyboard := false))
  }

  /** How the SSH server answers a connection attempt. */
  datatype Handshake = Ready | Refused(error: Failure)

  datatype ProbeAction = Connect(options: ConnectOptions) | End

  /** The outcome of the credential probe: the promise's settlement and what
      was done to the connection. */
  datatype Probe = Probe(result: Result<(), Failure>, actions: seq<ProbeAction>)

  /** `checkAuthentication`: resolves only on `ready`, after ending the
      connection; rejects with the connection's error. */
  function CheckAuthentication(session: SessionView, server: ConnectOptions -> Handshake): (p: Probe)
    ensures p.result.Ok? <==> CheckAuthenticationOptions(session).Ok? && server(CheckAuthenticationOptions(session).value).Ready?
    ensures p.result.Ok? ==> p.actions == [Connect(CheckAuthenticationOptions(session).value), End]
    ensures p.result.Err? && CheckAuthenticationOptions(session).Ok? ==>
              && p.actions == [Connect(CheckAuthenticationOptions(session).value)]
              && p.result.error == server(CheckAuthenticationOptions(session).value).error
    ensures CheckAuthenticationOptions(session).Err? ==> p.actions == [] && p.result == Err(NoSshRecord)
  {
    match CheckAuthenticationOptions(session)
    case Err(e) => Probe(Err(e), [])
    case Ok(options) =>
      match server(options)
      case Ready => Probe(Ok(()), [Connect(options), End])
      case Refused(e) => Probe(Err(e), [Connect(options)])
  }
}
