/** The directory check run over an SFTP sub-channel: determine the shell's
    default directory (`pwd`) and, when a directory was requested, resolve it
    and confirm that it exists, is a directory and can be opened before
    recording it as `cwd`.

    The SFTP server is an oracle: a record of what each request would answer.
    The checker keeps the requests it sends, in order, in `calls`. */
module DirectoryCheck {
  import opened Base

  const NoSuchFile := "No such file"
  const DirPrefix := "?dir:"

  datatype FileKind = Directory | OtherFile

  /** What the remote SFTP server answers. A path missing from `realpaths` or
      `stats` answers "No such file"; `opendir` succeeds exactly on `openable`. */
  datatype Sftp = Sftp(
    channel: Option<Failure>,
    realpaths: map<string, Result<string, Failure>>,
    stats: map<string, Result<FileKind, Failure>>,
    openable: set<string>)

  datatype SftpCall = OpenChannel | Realpath(path: string) | Stat(path: string) | OpenDir(path: string)

  /** The four user-correctable outcomes of the check. */
  datatype DirError = InvalidCharacters | MissingDirectory | NotADirectory | PermissionDenied

  function Code(k: DirError): string
  {
    match k
    case InvalidCharacters => "Invalid Characters"
    case MissingDirectory => "Missing Directory"
    case NotADirectory => "Not A Directory"
    case PermissionDenied => "Permission Denied"
  }

  /** The error object the checker raises for `k`, e.g. "?dir:Missing Directory". */
  function DirFailure(k: DirError): (f: Failure)
    ensures StartsWith(f.message, DirPrefix) && f.message[|DirPrefix|..] == Code(k)
    ensures f.level.None?
  {
    Plain(DirPrefix + Code(k))
  }

  function RealpathOf(sftp: Sftp, path: string): Result<string, Failure>
  {
    if path in sftp.realpaths then sftp.realpaths[path] else Err(Plain(NoSuchFile))
  }

  function StatOf(sftp: Sftp, path: string): Result<FileKind, Failure>
  {
    if path in sftp.stats then sftp.stats[path] else Err(Plain(NoSuchFile))
  }

  /** The character class `[0-9a-zA-Z_ u./-]` a requested directory must stay
      within (the stray `u` in that class is already covered by `a-z`). */
  predicate IsPathChar(c: char)
  {
    IsAlnum(c) || c == '_' || c == ' ' || c == '.' || c == '/' || c == '-'
  }

  /** The result handed to the caller: `pwd` and, when one was confirmed, `cwd`. */
  datatype Dirs = Dirs(pwd: Option<string>, cwd: Option<string>)

  /** Everything one run of the check produces: the callback's result, the
      values the run assigns to `pwd` and `cwd`, and the SFTP requests it sends. */
  datatype Report = Report(result: Result<Dirs, Failure>, pwd: Option<string>, cwd: Option<string>, calls: seq<SftpCall>)

  /** The longest sequence of requests a run can send: channel, `realpath('.')`,
      then, for a requested dir, its realpath and, once that resolved to a
      non-empty path, `stat` and `opendir` of the resolved path. */
  function Schedule(sftp: Sftp, requested: Option<string>): seq<SftpCall>
  {
    [OpenChannel, Realpath(".")] +
    if !Truthy(requested) then []
    else
      var resolved := RealpathOf(sftp, requested.value);
      [Realpath(requested.value)] +
      if resolved.Ok? && resolved.value != "" then [Stat(resolved.value), OpenDir(resolved.value)] else []
  }

  /** Maps an error of `realpath` or `stat` on the requested path: "No such
      file" becomes `?dir:Missing Directory`, anything else passes unchanged. */
  function MissingOr(e: Failure): (f: Failure)
    ensures e.message == NoSuchFile ==> f == DirFailure(MissingDirectory)
    ensures e.message != NoSuchFile ==> f == e
  {
    if e.message == NoSuchFile then DirFailure(MissingDirectory) else e
  }

  /** The whole waterfall, step by step: each error short-circuits to the result. */
  function Pipeline(sftp: Sftp, requested: Option<string>): (rep: Report)
    // requests go out in the fixed order and never beyond a failed step
    ensures rep.calls <= Schedule(sftp, requested)
    ensures 1 <= |rep.calls|
    // pwd comes from realpath('.'); without it the whole check fails
    ensures rep.pwd.Some? <==> sftp.channel.None? && RealpathOf(sftp, ".").Ok?
    ensures rep.pwd.Some? ==> rep.pwd.value == RealpathOf(sftp, ".").value
    ensures rep.pwd.None? ==> rep.result.Err? && rep.cwd.None?
    // with no requested dir, nothing is asked about any other path
    ensures !Truthy(requested) ==> rep.cwd.None? && |rep.calls| <= 2
    ensures !Truthy(requested) && rep.pwd.Some? ==> rep.result == Ok(Dirs(rep.pwd, None))
    // an unsafe character is refused before any request names the path
    ensures Truthy(requested) && rep.pwd.Some? && !All(requested.value, IsPathChar) ==>
              rep.result == Err(DirFailure(InvalidCharacters)) && |rep.calls| == 2
    // cwd is set only to the resolved path, after stat and opendir confirmed it
    ensures rep.cwd.Some? ==>
              && Truthy(requested) && All(requested.value, IsPathChar)
              && RealpathOf(sftp, requested.value) == Ok(rep.cwd.value)
              && StatOf(sftp, rep.cwd.value) == Ok(Directory)
              && rep.cwd.value in sftp.openable
              && rep.calls == Schedule(sftp, requested)
    ensures rep.result.Ok? ==> rep.result.value == Dirs(rep.pwd, rep.cwd)
    // how each failing step on the requested path is reported
    ensures Truthy(requested) && rep.pwd.Some? && All(requested.value, IsPathChar) ==>
              var resolved := RealpathOf(sftp, requested.value);
              && (resolved.Err? ==> rep.result == Err(MissingOr(resolved.error)))
              && (resolved.Ok? && resolved.value != "" && StatOf(sftp, resolved.value).Err? ==>
                    rep.result == Err(MissingOr(StatOf(sftp, resolved.value).error)))
              && (resolved.Ok? && resolved.value != "" && StatOf(sftp, resolved.value) == Ok(OtherFile) ==>
                    rep.result == Err(DirFailure(NotADirectory)))
              && (resolved.Ok? && resolved.value != "" && StatOf(sftp, resolved.value) == Ok(Directory) ==>
                    rep.result == (if resolved.value in sftp.openable then Ok(Dirs(rep.pwd, Some(resolved.value)))
                                   else Err(DirFailure(PermissionDenied))))
  {
    if sftp.channel.Some? then
      Report(Err(sftp.channel.value), None, None, [OpenChannel])
    else
      match RealpathOf(sftp, ".")
      case Err(e) => Report(Err(e), None, None, [OpenChannel, Realpath(".")])
      case Ok(pwd) =>
        var pre := [OpenChannel, Realpath(".")];
        if !Truthy(requested) then
          Report(Ok(Dirs(Some(pwd), None)), Some(pwd), None, pre)
        else if !All(requested.value, IsPathChar) then
          Report(Err(DirFailure(InvalidCharacters)), Some(pwd), None, pre)
        else
          var d := requested.value;
          match RealpathOf(sftp, d)
          case Err(e) => Report(Err(MissingOr(e)), Some(pwd), None, pre + [Realpath(d)])
          case Ok(dir) =>
            if dir == "" then
              Report(Ok(Dirs(Some(pwd), None)), Some(pwd), None, pre + [Realpath(d)])
            else
              var found := pre + [Realpath(d), Stat(dir)];
              match StatOf(sftp, dir)
              case Err(e) => Report(Err(MissingOr(e)), Some(pwd), None, found)
              case Ok(kind) =>
                if kind != Directory then
                  Report(Err(DirFailure(NotADirectory)), Some(pwd), None, found)
                else if dir !in sftp.openable then
                  Report(Err(DirFailure(PermissionDenied)), Some(pwd), None, found + [OpenDir(dir)])
                else
                  Report(Ok(Dirs(Some(pwd), Some(dir))), Some(pwd), Some(dir), found + [OpenDir(dir)])
  }

  /** The errors the SFTP server itself can answer with. */
  function ServerErrors(sftp: Sftp): set<Failure>
  {
    (if sftp.channel.Some? then {sftp.channel.value} else {})
    + (set p | p in sftp.realpaths && sftp.realpaths[p].Err? :: sftp.realpaths[p].error)
    + (set p | p in sftp.stats && sftp.stats[p].Err? :: sftp.stats[p].error)
    + {Plain(NoSuchFile)}
  }

  function DirFailures(): set<Failure>
  {
    {DirFailure(InvalidCharacters), DirFailure(MissingDirectory), DirFailure(NotADirectory), DirFailure(PermissionDenied)}
  }

  /** Every error of a run is either one of the four `?dir:` errors the check
      raises itself or an error the server answered, passed on unchanged. */
  lemma PipelineErrors(sftp: Sftp, requested: Option<string>)
    ensures var rep := Pipeline(sftp, requested);
      rep.result.Err? ==> rep.result.error in DirFailures() || rep.result.error in ServerErrors(sftp)
  {
    var rep := Pipeline(sftp, requested);
    if rep.result.Err? && rep.result.error !in DirFailures() && sftp.channel.None? {
      var e := rep.result.error;
      var p := if RealpathOf(sftp, ".").Err? then "." else requested.value;
      if RealpathOf(sftp, p).Err? {
        if p in sftp.realpaths {
          assert sftp.realpaths[p].Err? && sftp.realpaths[p].error == e;
        }
      } else {
        var dir := RealpathOf(sftp, p).value;
        if dir in sftp.stats {
          assert sftp.stats[dir].Err? && sftp.stats[dir].error == e;
        }
      }
    }
  }

  /** The directory check of one connection: the `requestedDir` it was built
      with and the fields the waterfall assigns. */
  class DirectoryChecker {
    const requestedDir: Option<string>
    var pwd: Option<string>
    var cwd: Option<string>
    var calls: seq<SftpCall>

    constructor(requestedDir: Option<string>)
      ensures this.requestedDir == requestedDir
      ensures pwd.None? && cwd.None? && calls == []
    {
      this.requestedDir := requestedDir;
      pwd, cwd, calls := None, None, [];
    }

    method EstablishSftpConnection(sftp: Sftp) returns (r: Result<(), Failure>)
      modifies this`calls
      ensures calls == old(calls) + [OpenChannel]
      ensures r == if sftp.channel.Some? then Err(sftp.channel.value) else Ok(())
    {
      calls := calls + [OpenChannel];
      if sftp.channel.Some? {
        return Err(sftp.channel.value);
      }
      return Ok(());
    }

    method DeterminePwd(sftp: Sftp) returns (r: Result<(), Failure>)
      modifies this`pwd, this`calls
      ensures calls == old(calls) + [Realpath(".")]
      ensures RealpathOf(sftp, ".").Err? ==> r == Err(RealpathOf(sftp, ".").error) && pwd == old(pwd)
      ensures RealpathOf(sftp, ".").Ok? ==> r.Ok? && pwd == Some(RealpathOf(sftp, ".").value)
    {
      calls := calls + [Realpath(".")];
      match RealpathOf(sftp, ".")
      case Err(e) => return Err(e);
      case Ok(path) =>
        pwd := Some(path);
        return Ok(());
    }

    /** Validates the requested path's characters, then resolves it. The
        result is the resolved path, or None when no directory was requested. */
    method ResolveGivenDirectory(sftp: Sftp) returns (r: Result<Option<string>, Failure>)
      modifies this`calls
      ensures !Truthy(requestedDir) ==> r == Ok(None) && calls == old(calls)
      ensures Truthy(requestedDir) && !All(requestedDir.value, IsPathChar) ==>
                r == Err(DirFailure(InvalidCharacters)) && calls == old(calls)
      ensures Truthy(requestedDir) && All(requestedDir.value, IsPathChar) ==>
                && calls == old(calls) + [Realpath(requestedDir.value)]
                && r == match RealpathOf(sftp, requestedDir.value)
                        case Err(e) => Err(MissingOr(e))
                        case Ok(dir) => Ok(Some(dir))
    {
      if Truthy(requestedDir) && All(requestedDir.value, IsPathChar) {
        calls := calls + [Realpath(requestedDir.value)];
        match RealpathOf(sftp, requestedDir.value)
        case Err(e) => return Err(MissingOr(e));
        case Ok(dir) => return Ok(Some(dir));
      } else if Truthy(requestedDir) {
        return Err(DirFailure(InvalidCharacters));
      } else {
        return Ok(None);
      }
    }

    method CheckDirExists(sftp: Sftp, dir: Option<string>) returns (r: Result<Option<string>, Failure>)
      modifies this`calls
      ensures !Truthy(dir) ==> r == Ok(None) && calls == old(calls)
      ensures Truthy(dir) ==>
                && calls == old(calls) + [Stat(dir.value)]
                && r == match StatOf(sftp, dir.value)
                        case Err(e) => Err(MissingOr(e))
                        case Ok(kind) => if kind == Directory then Ok(dir) else Err(DirFailure(NotADirectory))
    {
      if Truthy(dir) {
        calls := calls + [Stat(dir.value)];
        match StatOf(sftp, dir.value)
        case Err(e) => return Err(MissingOr(e));
        case Ok(kind) =>
          if kind == Directory {
            return Ok(dir);
          }
          return Err(DirFailure(NotADirectory));
      }
      return Ok(None);
    }

    /** The permission probe: `cwd` is assigned only once `opendir` succeeded. */
    method CheckPermissions(sftp: Sftp, dir: Option<string>) returns (r: Result<(), Failure>)
      modifies this`cwd, this`calls
      ensures !Truthy(dir) ==> r == Ok(()) && calls == old(calls) && cwd == old(cwd)
      ensures Truthy(dir) ==> calls == old(calls) + [OpenDir(dir.value)]
      ensures Truthy(dir) && dir.value !in sftp.openable ==> r == Err(DirFailure(PermissionDenied)) && cwd == old(cwd)
      ensures Truthy(dir) && dir.value in sftp.openable ==> r == Ok(()) && cwd == dir
    {
      if Truthy(dir) {
        calls := calls + [OpenDir(dir.value)];
        if dir.value !in sftp.openable {
          return Err(DirFailure(PermissionDenied));
        }
        cwd := dir;
      }
      return Ok(());
    }

    method ReturnDirectories() returns (d: Dirs)
      ensures d == Dirs(pwd, cwd)
    {
      d := Dirs(pwd, cwd);
    }

    /** The waterfall: each step runs only if every earlier one succeeded. */
    method CheckDirectory(sftp: Sftp) returns (r: Result<Dirs, Failure>)
      requires pwd.None? && cwd.None?
      modifies this`pwd, this`cwd, this`calls
      ensures var rep := Pipeline(sftp, requestedDir);
        r == rep.result && pwd == rep.pwd && cwd == rep.cwd && calls == old(calls) + rep.calls
    {
      var established := EstablishSftpConnection(sftp);
      if established.Err? {
        return Err(established.error);
      }
      var determined := DeterminePwd(sftp);
      if determined.Err? {
        return Err(determined.error);
      }
      var resolved := ResolveGivenDirectory(sftp);
      if resolved.Err? {
        return Err(resolved.error);
      }
      var existing := CheckDirExists(sftp, resolved.value);
      if existing.Err? {
        return Err(existing.error);
      }
      var permitted := CheckPermissions(sftp, existing.value);
      if permitted.Err? {
        return Err(permitted.error);
      }
      var dirs := ReturnDirectories();
      return Ok(dirs);
    }
  }
}
