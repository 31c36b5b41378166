/** Fills `req.session` from the request and the configuration. Every field
    the request supplies is checked by its own predicate and, when it fails,
    replaced by the configured value (or, for `mrhsession`, by "none"). */
module Populator {
  import opened Base
  import opened Sessions

  /** The request fields the populator reads: the `:host` route parameter,
      the `dir`, `port`, `sshterm` and `readyTimeout` query parameters and
      the `mrhsession` header. */
  datatype Request = Request(
    host: Option<string>,
    dir: Option<string>,
    port: Option<string>,
    sshterm: Option<string>,
    readyTimeout: Option<string>,
    mrhsession: Option<string>)

  /** `validator.isIP` and `validator.isFQDN`, taken as given predicates. */
  datatype Validators = Validators(isIP: string -> bool, isFQDN: string -> bool)

  /** The class `[a-zA-Z0-9!^(){}\-_~]`. */
  predicate IsTermChar(c: char)
  {
    IsAlnum(c) || c == '!' || c == '^' || c == '(' || c == ')' || c == '{' || c == '}'
    || c == '-' || c == '_' || c == '~'
  }

  /** The pattern `^(([a-z]|[A-Z]|[0-9]|[!^(){}\-_~])+)?\w$`, read off its
      structure: an optional run of class characters, then one word character. */
  predicate MatchesTermPattern(s: string)
  {
    |s| >= 1 && All(s[..|s| - 1], IsTermChar) && IsWordChar(s[|s| - 1])
  }

  /** Since `\w` lies inside the class, the pattern accepts exactly the
      non-empty strings of class characters that end in a word character. */
  lemma TermPatternCharacterised(s: string)
    ensures MatchesTermPattern(s) <==> |s| >= 1 && All(s, IsTermChar) && IsWordChar(s[|s| - 1])
  {
    if |s| >= 1 && All(s, IsTermChar) {
      var init := s[..|s| - 1];
      assert All(init, IsTermChar) by {
        forall i | 0 <= i < |init| ensures IsTermChar(init[i]) {
          assert init[i] == s[i];
        }
      }
    }
    if MatchesTermPattern(s) {
      forall i | 0 <= i < |s| ensures IsTermChar(s[i]) {
        if i < |s| - 1 {
          assert s[i] == s[..|s| - 1][i];
        }
      }
    }
  }

  predicate HostIsValid(host: string, v: Validators)
  {
    v.isIP(host) || v.isFQDN(host) || MatchesTermPattern(host)
  }

  /** A configured number, as the populator stores it. */
  function Configured(n: Option<int>): (s: Option<Scalar>)
    ensures s.Some? <==> n.Some?
    ensures s.Some? ==> s.value == Number(n.value)
  {
    if n.Some? then Some(Number(n.value)) else None
  }

  /** The requested host when it is a valid host name or address, otherwise
      the configured one; an absent host gives the configured one. */
  function DetermineHost(req: Request, config: Config, v: Validators): (host: Option<string>)
    ensures host == config.ssh.host || (host == req.host && Truthy(host) && HostIsValid(host.value, v))
    ensures Truthy(req.host) && HostIsValid(req.host.value, v) ==> host == req.host
    ensures !Truthy(req.host) ==> host == config.ssh.host
  {
    if Truthy(req.host) && HostIsValid(req.host.value, v) then req.host else config.ssh.host
  }

  /** `determineHost` as written calls a free function `hostIsValid` that is
      defined nowhere (it exists only as a method), so any request that names
      a host throws a ReferenceError. */
  const HostIsValidUndefined := Plain("hostIsValid is not defined")

  function DetermineHostAsWritten(req: Request, config: Config): (r: Result<Option<string>, Failure>)
    ensures Truthy(req.host) <==> r == Err(HostIsValidUndefined)
    ensures !Truthy(req.host) ==> r == Ok(config.ssh.host)
  {
    if Truthy(req.host) then Err(HostIsValidUndefined) else Ok(config.ssh.host)
  }

  /** Every valid host a request names is refused as written and kept once
      the method is called as intended. */
  lemma HostParameterDiscrepancy(req: Request, config: Config, v: Validators)
    requires Truthy(req.host) && HostIsValid(req.host.value, v)
    ensures DetermineHostAsWritten(req, config).Err?
    ensures DetermineHost(req, config, v) == req.host
  {
  }

  /** The requested port when it is an integer in [1, 65535], else the configured one. */
  function DeterminePort(req: Request, config: Config): (port: Option<Scalar>)
    ensures port == Configured(config.ssh.port)
            || (req.port.Some? && port == Some(Text(req.port.value)) && IsIntIn(req.port.value, 1, 65535))
    ensures Truthy(req.port) && IsIntIn(req.port.value, 1, 65535) ==> port == Some(Text(req.port.value))
  {
    if Truthy(req.port) && IsIntIn(req.port.value, 1, 65535) then Some(Text(req.port.value))
    else Configured(config.ssh.port)
  }

  /** Every port number is accepted when written in decimal. */
  lemma EveryPortNumberKept(req: Request, config: Config, n: nat)
    requires 1 <= n <= 65535 && req.port == Some(DecimalText(n))
    ensures DeterminePort(req, config) == Some(Text(DecimalText(n)))
  {
    DecimalRoundTrip(n);
  }

  function DetermineTerm(req: Request, config: Config): (term: Option<string>)
    ensures term == config.ssh.term || (term == req.sshterm && term.Some? && MatchesTermPattern(term.value))
    ensures Truthy(req.sshterm) && MatchesTermPattern(req.sshterm.value) ==> term == req.sshterm
  {
    if Truthy(req.sshterm) && MatchesTermPattern(req.sshterm.value) then req.sshterm else config.ssh.term
  }

  /** `validator.isAlphanumeric`: one or more ASCII letters or digits. */
  predicate IsAlphanumeric(s: string)
  {
    |s| >= 1 && All(s, IsAlnum)
  }

  function DetermineMrhsession(req: Request): (token: Option<string>)
    ensures token == Some("none") || (token == req.mrhsession && token.Some? && IsAlphanumeric(token.value))
    ensures Truthy(req.mrhsession) && IsAlphanumeric(req.mrhsession.value) ==> token == req.mrhsession
    ensures !(Truthy(req.mrhsession) && IsAlphanumeric(req.mrhsession.value)) ==> token == Some("none")
  {
    if Truthy(req.mrhsession) && IsAlphanumeric(req.mrhsession.value) then req.mrhsession else Some("none")
  }

  function DetermineReadyTimeout(req: Request, config: Config): (timeout: Option<Scalar>)
    ensures timeout == Configured(config.ssh.readyTimeout)
            || (req.readyTimeout.Some? && timeout == Some(Text(req.readyTimeout.value))
                && IsIntIn(req.readyTimeout.value, 1, 300000))
    ensures Truthy(req.readyTimeout) && IsIntIn(req.readyTimeout.value, 1, 300000) ==>
              timeout == Some(Text(req.readyTimeout.value))
  {
    if Truthy(req.readyTimeout) && IsIntIn(req.readyTimeout.value, 1, 300000) then Some(Text(req.readyTimeout.value))
    else Configured(config.ssh.readyTimeout)
  }

  /** The `ssh` record built around a given host. */
  function SshConfigFor(host: Option<string>, req: Request, config: Config, privateKey: Option<string>): (c: SshConfig)
    ensures c.host == host
    ensures c.privateKey == privateKey
    ensures c.localAddress == config.ssh.localAddress && c.localPort == config.ssh.localPort
    ensures c.algorithms == config.algorithms
    ensures c.keepaliveInterval == config.ssh.keepaliveInterval && c.keepaliveCountMax == config.ssh.keepaliveCountMax
    ensures c.allowedSubnets == config.ssh.allowedSubnets
    ensures c.port == DeterminePort(req, config) && c.term == DetermineTerm(req, config)
    ensures c.mrhsession == DetermineMrhsession(req) && c.readyTimeout == DetermineReadyTimeout(req, config)
    ensures c.pwd.None? && c.cwd.None? && c.dir.None?
  {
    SshConfig(
      host := host,
      port := DeterminePort(req, config),
      privateKey := privateKey,
      localAddress := config.ssh.localAddress,
      localPort := config.ssh.localPort,
      algorithms := config.algorithms,
      keepaliveInterval := config.ssh.keepaliveInterval,
      keepaliveCountMax := config.ssh.keepaliveCountMax,
      allowedSubnets := config.ssh.allowedSubnets,
      term := DetermineTerm(req, config),
      mrhsession := DetermineMrhsession(req),
      readyTimeout := DetermineReadyTimeout(req, config),
      pwd := None, cwd := None, dir := None)
  }

  /** Every untrusted field of the result either passed its check or is the
      trusted fallback. */
  lemma PopulatedFieldsAreSafe(req: Request, config: Config, privateKey: Option<string>, v: Validators)
    ensures var c := SshConfigFor(DetermineHost(req, config, v), req, config, privateKey);
      && (c.host == config.ssh.host || HostIsValid(c.host.value, v))
      && (c.port == Configured(config.ssh.port) || IsIntIn(c.port.value.text, 1, 65535))
      && (c.term == config.ssh.term || MatchesTermPattern(c.term.value))
      && IsAlphanumeric(c.mrhsession.value)
      && (c.readyTimeout == Configured(config.ssh.readyTimeout) || IsIntIn(c.readyTimeout.value.text, 1, 300000))
  {
  }

  /** `SessionPopulator`: the configuration and the service's private key. */
  class SessionPopulator {
    const config: Config
    const privateKey: Option<string>
    const validators: Validators

    constructor(config: Config, privateKey: Option<string>, validators: Validators)
      ensures this.config == config && this.privateKey == privateKey && this.validators == validators
    {
      this.config := config;
      this.privateKey := privateKey;
      this.validators := validators;
    }

    /** `populate` with the host check called as intended. */
    method Populate(req: Request, session: Session)
      modifies session`requestedDir, session`ssh
      ensures session.requestedDir == req.dir
      ensures session.ssh == Some(SshConfigFor(DetermineHost(req, config, validators), req, config, privateKey))
    {
      session.requestedDir := req.dir;
      session.ssh := Some(SshConfigFor(DetermineHost(req, config, validators), req, config, privateKey));
    }

    /** `populate` as written: `requestedDir` is stored first, then building
        `ssh` throws for any request that names a host, leaving `ssh` as it was. */
    method PopulateAsWritten(req: Request, session: Session) returns (r: Result<(), Failure>)
      modifies session`requestedDir, session`ssh
      ensures session.requestedDir == req.dir
      ensures Truthy(req.host) ==> r == Err(HostIsValidUndefined) && session.ssh == old(session.ssh)
      ensures !Truthy(req.host) ==>
                r == Ok(()) && session.ssh == Some(SshConfigFor(config.ssh.host, req, config, privateKey))
    {
      session.requestedDir := req.dir;
      var host := DetermineHostAsWritten(req, config);
      if host.Err? {
        return Err(host.error);
      }
      session.ssh := Some(SshConfigFor(host.value, req, config, privateKey));
      return Ok(());
    }
  }
}
