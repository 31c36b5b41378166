/** The Basic-auth middleware: credentials from the `Authorization` header
    when it carries a password, otherwise the module's default credentials;
    a request left with neither a password nor a key is challenged. */
module Auth {
  import opened Base
  import opened Sessions

  /** What the header parser returns for a well-formed Basic header. */
  datatype BasicCredentials = BasicCredentials(name: string, pass: string)

  /** `next()`, or the 401 response with its `WWW-Authenticate` header and body. */
  datatype AuthOutcome = Next | Challenge(status: int, wwwAuthenticate: string, body: string)

  const Unauthorized := Challenge(401, "Basic realm=\"WebSSH\"", "Username and password required for web SSH service.")

  /** A header is used only when its password is not the empty string. */
  predicate UsesHeader(header: Option<BasicCredentials>)
  {
    header.Some? && header.value.pass != ""
  }

  /** The module's `defaultCredentials` object and the middleware reading it. */
  class CredentialStore {
    var username: Option<string>
    var password: Option<string>
    var privatekey: Option<string>

    /** All three defaults start out null. */
    constructor()
      ensures username.None? && password.None? && privatekey.None?
    {
      username, password, privatekey := None, None, None;
    }

    /** Overwrites all three defaults. */
    method SetDefaultCredentials(username: Option<string>, password: Option<string>, privatekey: Option<string>)
      modifies this
      ensures this.username == username && this.password == password && this.privatekey == privatekey
    {
      this.username := username;
      this.password := password;
      this.privatekey := privatekey;
    }

    /** `basicAuth`: fills the session's credentials, then calls `next` only
        when the session has a password or a key. */
    method BasicAuth(header: Option<BasicCredentials>, session: Session) returns (outcome: AuthOutcome)
      modifies session`username, session`userpassword, session`privatekey
      ensures UsesHeader(header) ==>
                && session.username == Some(header.value.name)
                && session.userpassword == Some(header.value.pass)
                && session.privatekey == old(session.privatekey)
      ensures !UsesHeader(header) ==>
                session.username == username && session.userpassword == password && session.privatekey == privatekey
      ensures outcome == Next <==> Truthy(session.userpassword) || Truthy(session.privatekey)
      ensures outcome != Next ==> outcome == Unauthorized
      ensures UsesHeader(header) ==> outcome == Next
    {
      if UsesHeader(header) {
        session.username := Some(header.value.name);
        session.userpassword := Some(header.value.pass);
      } else {
        session.username := username;
        session.userpassword := password;
        session.privatekey := privatekey;
      }
      if !Truthy(session.userpassword) && !Truthy(session.privatekey) {
        return Unauthorized;
      }
      return Next;
    }
  }
}
