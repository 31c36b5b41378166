/** The process configuration the gateway reads and the per-request express
    session (`req.session`) that the middleware, the populator and the SSH
    session share. */
module Sessions {
  import opened Base

  datatype Algorithms = Algorithms(kex: seq<string>, cipher: seq<string>, hmac: seq<string>, compress: seq<string>)

  /** The `ssh` part of the configuration. The built-in defaults configure a
      `hosts` list, which nothing reads, and no `host` or `port`. */
  datatype SshSettings = SshSettings(
    host: Option<string>,
    port: Option<int>,
    term: Option<string>,
    readyTimeout: Option<int>,
    keepaliveInterval: Option<int>,
    keepaliveCountMax: Option<int>,
    localAddress: Option<string>,
    localPort: Option<int>,
    allowedSubnets: Option<seq<string>>)

  datatype Config = Config(ssh: SshSettings, algorithms: Option<Algorithms>, safeShutdownDuration: int)

  /** The defaults used when no configuration file is found. */
  const DefaultConfig := Config(
    SshSettings(
      host := None, port := None, term := Some("xterm-color"), readyTimeout := Some(20000),
      keepaliveInterval := Some(120000), keepaliveCountMax := Some(10),
      localAddress := None, localPort := None, allowedSubnets := Some([])),
    Some(Algorithms(
      ["ecdh-sha2-nistp256", "ecdh-sha2-nistp384", "ecdh-sha2-nistp521",
       "diffie-hellman-group-exchange-sha256", "diffie-hellman-group14-sha1"],
      ["aes128-ctr", "aes192-ctr", "aes256-ctr", "aes128-gcm", "aes128-gcm@openssh.com",
       "aes256-gcm", "aes256-gcm@openssh.com", "aes256-cbc"],
      ["hmac-sha2-256", "hmac-sha2-512", "hmac-sha1"],
      ["none", "zlib@openssh.com", "zlib"])),
    3)

  /** A value that is either the request's own text or a configured number. */
  datatype Scalar = Text(text: string) | Number(n: int)

  /** `req.session.ssh`: the connection settings built for one session. */
  datatype SshConfig = SshConfig(
    host: Option<string>,
    port: Option<Scalar>,
    privateKey: Option<string>,
    localAddress: Option<string>,
    localPort: Option<int>,
    algorithms: Option<Algorithms>,
    keepaliveInterval: Option<int>,
    keepaliveCountMax: Option<int>,
    allowedSubnets: Option<seq<string>>,
    term: Option<string>,
    mrhsession: Option<string>,
    readyTimeout: Option<Scalar>,
    pwd: Option<string>,
    cwd: Option<string>,
    dir: Option<string>)

  /** `session.ssh || {}`: a configuration with nothing set. */
  const EmptySshConfig := SshConfig(None, None, None, None, None, None, None, None, None, None, None, None, None, None, None)

  /** The credentials and settings of a session at one moment. */
  datatype SessionView = SessionView(
    username: Option<string>,
    userpassword: Option<string>,
    privatekey: Option<string>,
    ssh: Option<SshConfig>)

  /** The express session of one browser. */
  class Session {
    var username: Option<string>
    var userpassword: Option<string>
    var privatekey: Option<string>
    var requestedDir: Option<string>
    var ssh: Option<SshConfig>
    var error: Option<string>
    var destroyed: bool

    constructor()
      ensures username.None? && userpassword.None? && privatekey.None?
      ensures requestedDir.None? && ssh.None? && error.None? && !destroyed
    {
      username, userpassword, privatekey := None, None, None;
      requestedDir, ssh, error := None, None, None;
      destroyed := false;
    }

    function View(): (v: SessionView)
      reads this
      ensures v.username == username && v.userpassword == userpassword
      ensures v.privatekey == privatekey && v.ssh == ssh
    {
      SessionView(username, userpassword, privatekey, ssh)
    }
  }
}
