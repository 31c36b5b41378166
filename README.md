# flight-console-webapi, modelled in Dafny

flight-console-webapi is a browser-to-SSH gateway. A browser signs in over
HTTP, and `GET /ssh/host/:host?` fills the express session with validated
connection settings and probes the credentials with one SSH handshake. The
browser then opens a socket.io connection. For each socket an `SshSession`
runs pre-flight checks (an express session exists; the destination host is
inside the configured subnets), connects, opens a PTY shell and wires the
socket to it. Every failure is reported to the browser as `ssherror`. After
that report the express session is destroyed and the socket is
disconnected. `PUT /ssh/authorized_key` runs a Ruby helper, which adds the
service's public key to the user's `authorized_keys`. A shutdown guard
drains live sockets with a countdown before the process exits.

This project models those pieces one Dafny module per source file:

| module | file |
|---|---|
| `DirectoryCheck` | `directory_checker.dfy` |
| `Shutdown` | `shutdown_guard.dfy` |
| `Populator` | `session_populator.dfy` |
| `SshSessions` | `ssh_session.dfy` |
| `LegacyConnection` | `ssh_connection.dfy` |
| `App` | `app.dfy` |
| `SshUtils` | `ssh_utils.dfy` |
| `HostCheck` | `host_checker.dfy` |
| `Auth` | `auth.dfy` |
| `Util` | `util.dfy` |
| `AddKey` | `add_key.dfy` |

`Base` holds the shared vocabulary:
- `Option` and `Result`;
- a JavaScript error as `Failure(message, level)`;
- JavaScript truthiness of a string (`Truthy`);
- the character classes;
- decimal text as `validator.isInt` reads it.

`Sessions` holds the configuration record and the express session. The
session is a class, because every layer assigns its fields in place.

The outside world is represented as follows:
- Everything the gateway does to a socket, the express session or the SSH
  client is appended to an `events` log.
- The SFTP server is a record of what each request would answer.
- DNS and CIDR containment are given functions (`HostCheck.Network`).
- The SSH server's answer to a handshake or a `shell` request is a
  parameter.
- `process.exit` is a `stopped` flag.
- The one-second interval is an explicit `Tick` method.

Where the source has an evident defect (an undefined name, a missing `return`), the
model keeps two members: one for the code as written, one for the evident
intent. A lemma or a small scenario method shows where the two differ. Each
pair is listed under "Findings" below. The rest of the model builds on the
corrected member.

Two facts about the code shape the model:
- Nothing calls `DirectoryChecker`, so no connection has its working
  directory resolved before the shell starts. The populator never sets `pwd`, `cwd` or
  `dir`, so the shell never receives a `cd` line. The model gives the checker
  on its own (`DirectoryCheck`). It proves that a successful probe after
  `populate` answers with both directories missing
  (`App.PopulatedSuccessHasNoDirectories`).
- A session may hold both a password and a private key. The code passes
  both to the SSH client whenever both are set.

## Model

| member | source | states |
|---|---|---|
| `DirectoryCheck.DirFailure` | src/directoryChecker.js:71-114 | every checker error is `?dir:` followed by its code, with no level |
| `DirectoryCheck.MissingOr` | src/directoryChecker.js:70-73 | "No such file" becomes `?dir:Missing Directory`; any other error passes through unchanged |
| `DirectoryCheck.Pipeline` | src/directoryChecker.js:21-128 | SFTP requests go out in the fixed order and stop at the first failure. `pwd` is set iff the channel opens and `realpath('.')` succeeds. With no requested dir the result is `(pwd, null)` and only two requests are sent. An unsafe character fails with `Invalid Characters` before any request names the path. `cwd` is set only to the resolved path, after `stat` says directory and `opendir` succeeds. Each failing step maps to its own error. |
| `DirectoryCheck.PipelineErrors` | src/directoryChecker.js:21-128 | every error of a run is one of the four `?dir:` errors or an error the SFTP server itself answered |
| `DirectoryCheck.DirectoryChecker.constructor` | src/directoryChecker.js:7-19 | keeps the requested dir; `pwd` and `cwd` start null |
| `DirectoryCheck.DirectoryChecker.EstablishSftpConnection` | src/directoryChecker.js:34-44 | opens the channel, or fails with the channel's error |
| `DirectoryCheck.DirectoryChecker.DeterminePwd` | src/directoryChecker.js:53-64 | `pwd` becomes `realpath('.')`; on failure `pwd` is unchanged and the error is returned |
| `DirectoryCheck.DirectoryChecker.ResolveGivenDirectory` | src/directoryChecker.js:66-86 | no dir gives null with no request. Unsafe characters fail without a request. Otherwise the dir is resolved and a missing file is mapped. |
| `DirectoryCheck.DirectoryChecker.CheckDirExists` | src/directoryChecker.js:88-107 | `stat` of the resolved dir: a directory passes; another file is `Not A Directory`; "No such file" is `Missing Directory` |
| `DirectoryCheck.DirectoryChecker.CheckPermissions` | src/directoryChecker.js:109-124 | `cwd` is assigned exactly when `opendir` succeeds; a failure is `Permission Denied` and leaves `cwd` alone |
| `DirectoryCheck.DirectoryChecker.ReturnDirectories` | src/directoryChecker.js:126-128 | hands back the current `pwd` and `cwd` |
| `DirectoryCheck.DirectoryChecker.CheckDirectory` | src/directoryChecker.js:21-32 | the step methods chained with early return give the result, fields and requests of `Pipeline` |
| `Shutdown.CountdownAt` | src/shutdownGuard.js:47-53 | the countdown's i-th broadcast is `duration - 1 - i` |
| `Shutdown.FullCountdown` | src/shutdownGuard.js:47-53 | a full countdown broadcasts exactly `duration` values, from `duration - 1` down to 0, strictly decreasing |
| `Shutdown.DisconnectAll` | src/shutdownGuard.js:62-64 | every registered socket is disconnected exactly once and no other socket is |
| `Shutdown.ShutdownGuard.constructor` | src/shutdownGuard.js:3-11 | count 0, not draining, empty registry, nothing broadcast |
| `Shutdown.ShutdownGuard.OnConnection` | src/shutdownGuard.js:13-16 | registers the socket by id and adds one to the count |
| `Shutdown.ShutdownGuard.OnDisconnection` | src/shutdownGuard.js:18-24 | unregisters the socket and subtracts one. It stops iff the count drops to 0 or below while draining, so outside draining a disconnection never stops. |
| `Shutdown.ShutdownGuard.Shutdown` | src/shutdownGuard.js:26-34 | a second signal force-quits; live sockets start the drain without stopping; no sockets stops at once |
| `Shutdown.ShutdownGuard.SafeShutdown` | src/shutdownGuard.js:36-47 | enters draining with the countdown armed at the configured duration |
| `Shutdown.ShutdownGuard.Tick` | src/shutdownGuard.js:47-53 | the post-decrement: a tick at 0 or below stops with "Countdown is over"; otherwise the decremented value is broadcast, and the broadcasts stay the countdown so far |
| `Shutdown.ShutdownGuard.Stop` | src/shutdownGuard.js:56-69 | clears the interval, disconnects every registered socket exactly once, closes io and the server, then exits with status 0 |
| `Populator.TermPatternCharacterised` | src/sessionPopulator.js:58 | the terminal-name pattern accepts exactly the non-empty strings of its class that end in a word character |
| `Populator.Configured` | src/sessionPopulator.js:52 | a configured number is stored as it is, and a missing one stays missing |
| `Populator.DetermineHost` | src/sessionPopulator.js:38-45 | a truthy requested host is kept iff `hostIsValid` (IP, FQDN or the terminal pattern) holds; otherwise, and for no host, the configured host |
| `Populator.DetermineHostAsWritten` | src/sessionPopulator.js:38-45 | as written, a truthy host throws `hostIsValid is not defined`; no host gives the configured host |
| `Populator.HostParameterDiscrepancy` | src/sessionPopulator.js:40 | every valid requested host is refused as written and kept once the method is called |
| `Populator.DeterminePort` | src/sessionPopulator.js:47-54 | the requested port is kept iff it is integer text in [1, 65535]; otherwise the configured port |
| `Populator.EveryPortNumberKept` | src/sessionPopulator.js:47-54 | every port 1..65535 written in decimal is kept |
| `Populator.DetermineTerm` | src/sessionPopulator.js:56-64 | the requested terminal is kept iff it matches the pattern; otherwise the configured one |
| `Populator.DetermineMrhsession` | src/sessionPopulator.js:66-73 | the header is kept iff it is non-empty ASCII alphanumeric; otherwise the literal "none" |
| `Populator.DetermineReadyTimeout` | src/sessionPopulator.js:75-82 | the requested timeout is kept iff it is integer text in [1, 300000]; otherwise the configured one |
| `Populator.SshConfigFor` | src/sessionPopulator.js:17-30 | key, local address and port, algorithms, keepalive and subnets are copied verbatim; the other fields come from the `determine*` checks; `pwd`, `cwd` and `dir` are left unset |
| `Populator.PopulatedFieldsAreSafe` | src/sessionPopulator.js:17-30 | every untrusted field of the record either passed its check or is the trusted fallback |
| `Populator.SessionPopulator.constructor` | src/sessionPopulator.js:8-11 | keeps the configuration and the private key |
| `Populator.SessionPopulator.Populate` | src/sessionPopulator.js:13-36 | stores `query.dir` unvalidated as `requestedDir` and the checked `ssh` record |
| `Populator.SessionPopulator.PopulateAsWritten` | src/sessionPopulator.js:13-36 | `requestedDir` is stored first; for a request naming a host the record is not built and the error is thrown |
| `HostCheck.SubnetsOrEmpty` | src/hostChecker.js:13 | a missing subnet list is the empty list |
| `HostCheck.IsAllowed` | src/hostChecker.js:16-30 | an empty list allows every host. Otherwise the answer is the resolved address's containment, not the host string's. A failed lookup is an error, not a denial. |
| `HostCheck.UnrestrictedIgnoresNetwork` | src/hostChecker.js:17-20 | with no subnets the answer is true whatever the name service and matcher do |
| `HostCheck.IsAllowedAsWritten` | src/hostChecker.js:16-30 | as written, every check that gets past the lookup throws `CIDRMatcher is not defined` |
| `HostCheck.AllowListDiscrepancy` | src/hostChecker.js:27 | configured subnets never let a resolvable host through as written, even one they contain |
| `SshUtils.OptionsWithKey` | src/sshUtils.js:29-45 | host, port, local address and port, algorithms, ready timeout and keepalive come from `session.ssh`. Username and password come from the session, and `tryKeyboard` is on. A session with no `ssh` record throws. |
| `SshUtils.ConnectionOptionsAsWritten` | src/sshUtils.js:37 | as written, the key offered is `session.privatekey` |
| `SshUtils.SessionKey` | src/sessionPopulator.js:20 | the key stored with the session's settings, else the session's own |
| `SshUtils.ConnectionOptions` | src/sshUtils.js:29-45 | the options with the key the populator stored, keyboard-interactive on |
| `SshUtils.PopulatedKeyDiscrepancy` | src/sshUtils.js:37 | a session whose key the populator stored offers no key as written, and that key once read from `session.ssh` |
| `SshUtils.CheckAuthenticationOptions` | src/sshUtils.js:17-22 | the connection options with keepalive 0/0 and keyboard-interactive off, and nothing else changed |
| `SshUtils.CheckAuthentication` | src/sshUtils.js:6-27 | resolves iff the server answers `ready`, after connecting and then ending the connection. It rejects with the server's error, and with no `ssh` record it throws before connecting. |
| `Base.IntText` | src/sshSession.js:217 | a number in a template string: its decimal digits, with a minus sign when negative |
| `SshSessions.NormalizeNewlines` | src/sshSession.js:145-149 | after the rewrite every `\n` is preceded by `\r` |
| `SshSessions.NormalizeIdempotent` | src/sshSession.js:147 | rewriting banner text twice changes nothing more |
| `SshSessions.Retained` | src/sshSession.js:246-248 | `session.error` is written only while null: a stored message, even an empty one, stays |
| `SshSessions.FirstErrorPersists` | src/sshSession.js:246-248 | across any run of errors, the first message stored is the one kept |
| `SshSessions.StoredSuffix` | src/sshSession.js:249 | `": " + error` when the stored error is truthy, otherwise nothing |
| `SshSessions.Teardown` | src/sshSession.js:77-82 | `ssherror` with prefix and message, then destroy the session, then disconnect |
| `SshSessions.ErrorEvents` | src/sshSession.js:237-271 | with no error, the stored message is reported. An authentication failure emits `reauth` before the report of the stored message. Any other error is reported with its own message. |
| `SshSessions.ErrorEventsEndInTeardown` | src/sshSession.js:251-270 | every report ends `ssherror`, destroy, disconnect, and `reauth` appears exactly on an authentication failure |
| `SshSessions.AuthFailureReportsFirstError` | src/sshSession.js:256-263 | an authentication failure after an earlier error reports `reauth`, then `SSH <event>: <first error>` |
| `SshSessions.CloseMessage` | src/sshSession.js:215-219 | the close text is empty iff the code is 0 or absent and there is no signal; a non-zero code leads with `CODE: ` |
| `SshSessions.CleanCloseMasksLaterErrors` | src/sshSession.js:215-263 | a clean shell exit stores an empty error, after which no error message is retained and an authentication failure is reported with no detail |
| `SshSessions.CdLine` | src/sshSession.js:203-204 | the line is `cd "`, the directory, `"` and a newline |
| `SshSessions.ShellWiring` | src/sshSession.js:202-226 | with a directory, the `cd` line is written before the input handler is registered; without one, nothing is written; the status report comes last |
| `SshSessions.SshSession.constructor` | src/sshSession.js:13-20 | an 80x24 terminal, `ssh` read only from a session that exists, otherwise `{}` |
| `SshSessions.SshSession.EnsureSanity` | src/sshSession.js:28-39 | a missing express session emits `401 UNAUTHORIZED`, disconnects and fails; otherwise nothing happens |
| `SshSessions.SshSession.IsHostAllowed` | src/sshSession.js:42-56 | a host outside the subnets emits `ssherror` `401 UNAUTHORIZED` and disconnects; an error of the check touches nothing |
| `SshSessions.SshSession.PreFlightChecks` | src/sshSession.js:23-26 | passes iff there is a session and its host is allowed; the session check comes first |
| `SshSessions.SshSession.OnGeometry` | src/sshSession.js:117-121 | the latest geometry event overwrites the size |
| `SshSessions.SshSession.Connect` | src/sshSession.js:58-74 | with a user name, connects with `ConnectionOptions`. Without one, it terminates with `WEBSOCKET ERROR` and an empty prefix and never connects. |
| `SshSessions.SshSession.TerminateSession` | src/sshSession.js:77-82 | appends the `Teardown` events and destroys the session |
| `SshSessions.SshSession.HandleError` | src/sshSession.js:237-271 | keeps the first error in the session, then appends `ErrorEvents`. The credentials are untouched, and with no session it only disconnects. |
| `SshSessions.SshSession.OnTrigger` | src/sshSession.js:127-161 | each connection and socket handler reports through `handleError` under its own label |
| `SshSessions.SshSession.OnStreamClose` | src/sshSession.js:215-220 | the stream's close is reported as `STREAM CLOSE` with the close text as the error message |
| `SshSessions.SshSession.OnBanner` | src/sshSession.js:145-149 | the banner is forwarded as `data` with normalised line breaks |
| `SshSessions.SshSession.OnReady` | src/sshSession.js:168-172 | reports the connection, then opens the shell at the latest size |
| `SshSessions.SshSession.CreateShell` | src/sshSession.js:176-228 | the shell opens with the terminal and latest size. On success it is wired as `ShellWiring` says. On failure the error is reported and the connection is ended, and nothing else follows. |
| `SshSessions.SshSession.CreateShellAsWritten` | src/sshSession.js:176-228 | as written, a failed shell is reported and ended, then the callback goes on and throws on the missing stream (`write` with a directory, `on` without) |
| `SshSessions.NewSshSessionAsWritten` | src/sshSession.js:13-20 | as written, the constructor throws exactly when the socket has no express session |
| `SshSessions.MissingSessionScenario` | src/sshSession.js:17-37 | a socket without a session: as written the constructor throws. Checked, it is refused with `401 UNAUTHORIZED` and disconnected. |
| `SshSessions.GeometryScenario` | src/sshSession.js:117-121 | after two geometry events the shell opens with the later size |
| `LegacyConnection.IsHostAllowed` | src/sshConnection.js:15-26 | a missing or empty list allows every host; otherwise the host string itself is matched, with no resolution |
| `LegacyConnection.AgreesOnAddresses` | src/sshConnection.js:15-26 | for a host that is its own address, the legacy string test and the resolving gate agree |
| `LegacyConnection.LegacyRetained` | src/sshConnection.js:218 | the stored error when it is truthy, otherwise the new message: the first truthy message is kept, and an empty one is replaced |
| `LegacyConnection.RetentionVariants` | src/sshConnection.js:218 | the two handlers keep the same message except after an empty stored message |
| `LegacyConnection.WorkingDir` | src/sshConnection.js:86-113 | no dir gives none. A failed channel is reported. The dir is kept iff `opendir` accepts it, so a refused dir is no error. |
| `LegacyConnection.WorkingDirAsWritten` | src/sshConnection.js:86-113 | as written, a failed channel throws `SSHError is not defined` instead of being reported |
| `LegacyConnection.SftpFailureDiscrepancy` | src/sshConnection.js:90 | a failing SFTP channel reaches the browser only once the handler is named as declared |
| `LegacyConnection.Geometry.constructor` | src/sshConnection.js:12 | the terminal size starts undefined |
| `LegacyConnection.LegacyConnection.constructor` | src/sshConnection.js:12 | the size object is the one shared by every socket |
| `LegacyConnection.LegacyConnection.Isolated` | src/sshConnection.js:12 | a size object of the connection's own, starting undefined |
| `LegacyConnection.LegacyConnection.Start` | src/sshConnection.js:29-205 | a missing session gets `401 UNAUTHORIZED` and a disconnect. A host outside the subnets gets `ssherror` `401 UNAUTHORIZED`. With a user name the connection starts; without one it is `WEBSOCKET ERROR`, destroy and disconnect. |
| `LegacyConnection.LegacyConnection.OnGeometry` | src/sshConnection.js:54-57 | a geometry event writes the shared size |
| `LegacyConnection.LegacyConnection.ReportError` | src/sshConnection.js:214-251 | keeps the first truthy message and reports as `SshSession` does: `reauth` first on an authentication failure, then `ssherror`, destroy, disconnect |
| `LegacyConnection.LegacyConnection.OnReady` | src/sshConnection.js:64-175 | the waterfall: report readiness, then the working dir. A channel failure is reported and ends the connection. The shell opens with the shared size. `cd <dir>` is written before input is forwarded. A failed shell is reported, the connection is ended twice, and the callback throws on the missing stream. |
| `LegacyConnection.LegacyConnection.OnTrigger` | src/sshConnection.js:145-187 | connection handlers always report. The socket's handlers exist only once the shell is wired, and they also end the connection. |
| `LegacyConnection.LegacyConnection.OnBanner` | src/sshConnection.js:58-62 | the banner is forwarded as `data` with every line break made `\r\n` |
| `LegacyConnection.LegacyConnection.OnStreamClose` | src/sshConnection.js:162-174 | the close is reported as `STREAM CLOSE`, then the waterfall's final callback ends the connection |
| `LegacyConnection.SharedGeometryScenario` | src/sshConnection.js:12 | as written, a second browser's geometry sizes the first browser's shell |
| `LegacyConnection.IsolatedGeometryScenario` | src/sshConnection.js:54-57 | with a size per connection, another browser's event does not reach the shell |
| `App.ErrorResponse` | src/app.js:96-120 | `Unexpected packet before version` is a recoverable 422 `Unexpected SFTP STDOUT`. A `?dir:` message is a recoverable 422 with the code after the prefix. An authentication failure is 422 `Missing SSH Configuration`. Anything else is 500, and the message checks come before the level. |
| `App.DirErrorOfCode` | src/app.js:104-109 | a code read back names the checker error with that code |
| `App.DirErrorRoundTrip` | src/app.js:104-109 | every `?dir:` error of the checker, whatever its level, reaches the client as a recoverable 422 naming exactly that error |
| `App.CheckFailureResponse` | src/app.js:96-120 | a failed directory check is answered with one of its four codes, or the failure is an error the SFTP server answered |
| `App.SuccessBody` | src/app.js:90-93 | `pwd`, and `cwd` falling back to `pwd` when unset |
| `App.ProbeResponse` | src/app.js:89-121 | 200 with the success body iff the probe resolves; otherwise the error's response |
| `App.PopulatedSuccessHasNoDirectories` | src/app.js:90-93 | after `populate`, a successful probe answers with both directories missing |
| `App.HostRoute` | src/app.js:86-123 | populates the session, then answers with the probe's response |
| `App.HostRouteAsWritten` | src/app.js:86-123 | as written, every request naming a host is answered 500 by the error handler |
| `App.UserArgument` | src/app.js:129-131 | the session's user name is the helper's USER argument, and an unset one becomes the text `undefined` |
| `App.AuthorizedKeyRoute` | src/app.js:128-152 | an unknown user gets 500 `Failed to add the key` with the file untouched. Otherwise 200 with the helper's message and newline, "not been changed" exactly when the key was present. A missing user name is passed as `undefined`, so it is refused like any unknown user unless such an account exists. |
| `App.RouteOf` | src/app.js:80-128 | `GET /ping`, `GET /ssh/host/:host?` and `PUT /ssh/authorized_key` are matched on verb and path |
| `App.SafeShutdownGuard` | src/app.js:203-209 | while draining every request gets 503; otherwise the rest of the chain answers |
| `App.Dispatch` | src/app.js:73-162 | while draining, 503. An unmatched route gets 404 `Not Found`. `/ping` gets 200 `OK`. |
| `App.SocketServer.OnConnection` | src/app.js:188-199 | a fresh `SshSession` per socket, which connects once the pre-flight checks pass |
| `App.SocketServer.OnConnectionAsWritten` | src/app.js:185-199 | as written, once one socket has connected every later socket fails on `reconnect`. The first socket uses the unchecked constructor. Without an express session it throws, `sshSession` stays unset and nothing is emitted. Otherwise it is handled as `OnConnection` handles it. |
| `App.SessionlessFirstScenario` | src/app.js:188-194 | as written, a first socket with no express session leaves nothing behind, and the next socket is served as the first |
| `App.SecondBrowserScenario` | src/app.js:189-190 | a second browser is dropped as written and connected with a session per socket |
| `Auth.CredentialStore.constructor` | src/auth.js:10 | all three defaults start null |
| `Auth.CredentialStore.SetDefaultCredentials` | src/auth.js:12-16 | overwrites all three defaults |
| `Auth.CredentialStore.BasicAuth` | src/auth.js:18-39 | a header with a non-empty password sets the name and password and leaves the key alone; otherwise all three come from the defaults. `next` is called iff a password or key is set, else the 401 challenge; a header password always reaches `next`. |
| `Util.LowerChar` | src/util.js:46 | ASCII capitals are lowered and every other character is unchanged |
| `Util.ToLower` | src/util.js:46 | lowers each character in place, keeping the length |
| `Util.ParseBool` | src/util.js:45-47 | true iff the text is the four letters of "true" in any mix of cases and nothing else |
| `Util.SeparateDefaultsScenario` | src/util.js:11-42 | the second copy of the middleware keeps defaults of its own: defaults set through it do not reach the first |
| `AddKey.LineLength` | libexec/add_key.rb:46 | a line runs up to and including its first newline |
| `AddKey.AnyLineIsSomeLine` | libexec/add_key.rb:46-50 | scanning line by line finds a match iff some line of the file matches |
| `AddKey.HasLine` | libexec/add_key.rb:46-50 | the `each_line` loop with early exit finds the key iff some line matches |
| `AddKey.Separated` | libexec/add_key.rb:53-60 | a non-empty file not ending in a newline gets one; an empty or terminated file is left alone |
| `AddKey.PutsText` | libexec/add_key.rb:63 | `puts` writes the key, adding a newline only when it lacks one |
| `AddKey.Updated` | libexec/add_key.rb:44-64 | the old content is a prefix of the new, which ends in a newline |
| `AddKey.KeyIsLastLine` | libexec/add_key.rb:53-63 | a one-line key added to a file becomes its last line, after the old lines |
| `AddKey.SecondRunUnchanged` | libexec/add_key.rb:45-63 | a one-line key that ends in a newline is found on the next run |
| `AddKey.UnterminatedKeyReappended` | libexec/add_key.rb:46-47 | a key without a newline never equals a line of the updated file, so as written it is appended on every run |
| `AddKey.SecondRunUnchangedChomped` | libexec/add_key.rb:46-63 | compared without line terminators, any one-line key is found on the next run |
| `AddKey.KeyFile.Append` | libexec/add_key.rb:53-63 | the file becomes `Updated` of its old content |
| `AddKey.KeyFile.AddKeyAsWritten` | libexec/add_key.rb:44-67 | unchanged with "not been changed" when a line, terminator included, equals the key; otherwise the key is appended with "Updated" |
| `AddKey.KeyFile.AddKey` | libexec/add_key.rb:44-67 | the same, with lines compared to the key without their terminators |
| `AddKey.Run` | libexec/add_key.rb:6-67 | no arguments or one argument raise their messages and an unknown user raises; otherwise the key is added unless a line equals the key without its line terminator. This run uses the corrected comparison `AddKey.KeyFile.AddKey`, not the script's `line == KEY`. Only a successful run changes the file. |

## Left out

- Network I/O is not modelled: the ssh2 client, SFTP, socket.io, express and DNS. They are oracles or an event log. Timers and signals are modelled only as `Tick` and `Shutdown`.
- Logging, colours, debug output and key redaction are left out. The log lines dereference `username.yellow`, which throws when the user name is missing. That throw is not modelled.
- `src/config.js` and `src/index.js` are not part of this model. Only the configuration defaults are kept, as `Sessions.DefaultConfig`. Those defaults have a `hosts` list, which nothing reads, and no `host` or `port`.
- The SSO middleware is left out. `src/app.js:42` calls `auth.flight_auth`, which `src/auth.js` does not define, so the application as shown throws at start-up. CORS, cookies, the session store and the access log are left out too.
- Express routing details are left out: case-insensitive paths, trailing slashes and `HEAD`. `App.RouteOf` works on exact path segments.
- `App.AuthorizedKeyRoute` treats a missing user name as unset, which reaches the helper as the text `undefined`. A `null` user name, such as the default `basicAuth` can store, would reach it as `null`. The model does not tell the two apart.
- `spawnSync` is given by its outcome. The helper's own exit status and output become `AddKey.Run`'s result.
- `libexec/add_key.rb:18-41` is left out: privilege dropping, `mkdir`, `touch`, `chmod` and the `$stderr` output. The file is its content.
- Resizing (`setWindow`), the contents of data forwarded in either direction, stderr of the stream and the `disconnecting` debug handler are left out. Forwarding appears only as the `ForwardInput` event marking when the input handler is registered.
- Keyboard-interactive authentication (answering with the stored password) is left out.
- `SshSessions.SshSession.EnsureSanity` does not model its branch for a missing socket. Every model session has a socket.
- `util.js` `checkAuthentication` (src/util.js:50-70) is left out. The application imports the one in `sshUtils.js`.
- `Util.ParseBool` models lower-casing of ASCII only. No non-ASCII character lowercases to a letter of "true", so the result is the same.
- `LegacyConnection.ErrorString` assumes the errors are plain `Error` objects, whose text is `Error: <message>`.
- `DirectoryCheck.DirectoryChecker.CheckDirectory` is stated for a checker whose `pwd` and `cwd` are still null, as the constructor leaves them. A second run on the same checker is not modelled.
- Teardown is not idempotent in the source, and the model does not claim it. A second error report emits, destroys and disconnects again.
- `validator.isIP`, `validator.isFQDN` and `cidr-matcher` are given functions, not reimplemented. `validator.isInt` and `validator.isAlphanumeric` are reduced to ASCII digits and letters.
- Both `cd` lines are written into a shell without escaping. The new one quotes the directory, but `$` and backticks still expand. The directory's character class is only checked by `DirectoryChecker`, which nothing calls.

## Findings

| source | as written | input that shows it | evidently intended | confidence | as-written member | corrected member |
|---|---|---|---|---|---|---|
| src/sessionPopulator.js:40 | calls a free function `hostIsValid`, which exists only as a method, so a ReferenceError becomes a 500 | `GET /ssh/host/login1`: any request naming a host (`Populator.HostParameterDiscrepancy`, `App.HostRouteAsWritten`) | `this.hostIsValid(requested)` | not executed; high | `Populator.DetermineHostAsWritten` | `Populator.DetermineHost` |
| src/hostChecker.js:27 | uses `CIDRMatcher`, which the file never imports | a non-empty subnet list and a host that resolves (`HostCheck.AllowListDiscrepancy`) | import `cidr-matcher` as `src/sshConnection.js:8` does | not executed; high | `HostCheck.IsAllowedAsWritten` | `HostCheck.IsAllowed` |
| src/sshUtils.js:37 | offers `session.privatekey`, but the populator stores the service key at `session.ssh.privateKey` | a session populated by `/ssh/host` with no top-level key (`SshUtils.PopulatedKeyDiscrepancy`) | read the key from `session.ssh` | not executed; medium (middleware outside this model might set the top-level key) | `SshUtils.ConnectionOptionsAsWritten` | `SshUtils.ConnectionOptions` |
| src/sshSession.js:192-199 | after reporting a shell error, the callback does not return and uses the undefined `stream` | the SSH server refusing the `shell` request | return after `conn.end()` | not executed; high | `SshSessions.SshSession.CreateShellAsWritten` | `SshSessions.SshSession.CreateShell` |
| src/sshSession.js:17-18 | the constructor reads `session.ssh` before `ensureSanity` can see a missing session | a socket whose request carries no express session (`SshSessions.MissingSessionScenario`) | read `ssh` only from an existing session | not executed; high | `SshSessions.NewSshSessionAsWritten` | `SshSessions.SshSession.constructor` |
| src/app.js:190 | calls `sshSession.reconnect`, which `SshSession` does not define | a second browser connecting after the first (`App.SecondBrowserScenario`) | a session per socket | not executed; high | `App.SocketServer.OnConnectionAsWritten` | `App.SocketServer.OnConnection` |
| src/sshConnection.js:90 | calls `SSHError`, but the handler is `SSHerror` | a requested dir while the SFTP channel cannot be opened (`LegacyConnection.SftpFailureDiscrepancy`) | `SSHerror(...)` | not executed; high | `LegacyConnection.WorkingDirAsWritten` | `LegacyConnection.WorkingDir` |
| src/sshConnection.js:12 | the terminal size is module state shared by every socket | two browsers, only the second sending geometry (`LegacyConnection.SharedGeometryScenario`) | a size per connection, as `SshSession` keeps | not executed; high | `LegacyConnection.LegacyConnection.constructor` | `LegacyConnection.LegacyConnection.Isolated` |
| libexec/add_key.rb:46-47 | lines are compared with their newline to KEY | a KEY without a final newline is appended again on every run (`AddKey.UnterminatedKeyReappended`) | compare lines without terminators (`AddKey.SecondRunUnchangedChomped`) | not executed; low (the service's key file normally ends in a newline) | `AddKey.KeyFile.AddKeyAsWritten` | `AddKey.KeyFile.AddKey` |
