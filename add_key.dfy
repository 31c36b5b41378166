/** The helper that adds the service's public key to a user's
    `authorized_keys`: unless a line of the file already equals the key, it
    repairs a missing final newline and appends the key as one line.

    The file is an object whose `content` the method rewrites; changing
    user, creating `~/.ssh` and setting modes are not modelled. */
module AddKey {
  import opened Base

  // Lines as `each_line` yields them: each keeps its terminating newline,
  // and the last one may lack it.

  /** The length of the first line of `s`, its newline included. */
  function LineLength(s: string): (n: nat)
    ensures s == [] <==> n == 0
    ensures n <= |s|
    ensures forall i :: 0 <= i < n - 1 ==> s[i] != '\n'
    ensures 0 < n < |s| ==> s[n - 1] == '\n'
    decreases |s|
  {
    if s == [] then 0 else if s[0] == '\n' then 1 else 1 + LineLength(s[1..])
  }

  function Lines(s: string): seq<string>
    decreases |s|
  {
    if s == [] then [] else [s[..LineLength(s)]] + Lines(s[LineLength(s)..])
  }

  predicate Terminated(s: string)
  {
    s == [] || s[|s| - 1] == '\n'
  }

  /** A line followed by more text ends where it ended before. */
  lemma {:induction false} LineLengthAppend(a: string, b: string)
    requires a != [] && (LineLength(a) < |a| || Terminated(a))
    ensures LineLength(a + b) == LineLength(a)
    decreases |a|
  {
    if a[0] != '\n' {
      assert (a + b)[1..] == a[1..] + b;
      LineLengthAppend(a[1..], b);
    }
  }

  /** One step of `Lines`: the first line, then the lines of the rest. */
  lemma LinesCons(s: string)
    requires s != []
    ensures Lines(s) == [s[..LineLength(s)]] + Lines(s[LineLength(s)..])
  {
  }

  lemma ConcatAssociative(x: seq<string>, y: seq<string>, z: seq<string>)
    ensures x + (y + z) == (x + y) + z
  {
  }

  lemma TerminatedSuffix(s: string, n: nat)
    requires Terminated(s) && n <= |s|
    ensures Terminated(s[n..])
  {
  }

  /** After text that ends in a newline, the lines of what follows are lines
      of their own. */
  lemma {:induction false} LinesAppend(a: string, b: string)
    requires Terminated(a)
    ensures Lines(a + b) == Lines(a) + Lines(b)
    decreases |a|
  {
    if a == [] {
      assert a + b == b;
    } else {
      var n := LineLength(a);
      var ab := a + b;
      LineLengthAppend(a, b);
      assert ab[..n] == a[..n];
      assert ab[n..] == a[n..] + b;
      TerminatedSuffix(a, n);
      calc {
        Lines(ab);
        { LinesCons(ab); }
        [a[..n]] + Lines(a[n..] + b);
        { LinesAppend(a[n..], b); }
        [a[..n]] + (Lines(a[n..]) + Lines(b));
        { ConcatAssociative([a[..n]], Lines(a[n..]), Lines(b)); }
        ([a[..n]] + Lines(a[n..])) + Lines(b);
        { LinesCons(a); }
        Lines(a) + Lines(b);
      }
    }
  }

  /** A newline-free text followed by one newline is a single line. */
  lemma SingleLine(line: string)
    requires line != [] && line[|line| - 1] == '\n'
    requires forall i :: 0 <= i < |line| - 1 ==> line[i] != '\n'
    ensures Lines(line) == [line]
  {
    assert LineLength(line) == |line|;
    assert line[..|line|] == line;
    assert line[|line|..] == [];
  }

  /** Every line of a text that ends in a newline ends in one. */
  lemma {:induction false} AllLinesTerminated(s: string)
    requires Terminated(s)
    ensures forall line | line in Lines(s) :: line != [] && line[|line| - 1] == '\n'
    decreases |s|
  {
    if s != [] {
      AllLinesTerminated(s[LineLength(s)..]);
    }
  }

  /** The file after the separator repair: a newline is added only to a
      non-empty file that does not end in one. */
  function Separated(s: string): (r: string)
    ensures Terminated(r)
    ensures Terminated(s) ==> r == s
    ensures !Terminated(s) ==> r == s + "\n"
  {
    if Terminated(s) then s else s + "\n"
  }

  /** What `puts` writes: the text, and a newline unless it already ends in one. */
  function PutsText(key: string): (r: string)
    ensures r != [] && Terminated(r)
    ensures Terminated(key) && key != [] ==> r == key
    ensures !(Terminated(key) && key != []) ==> r == key + "\n"
  {
    if key != [] && key[|key| - 1] == '\n' then key else key + "\n"
  }

  /** The file after the key is added. */
  function Updated(s: string, key: string): (r: string)
    ensures |s| <= |r| && r[..|s|] == s
    ensures Terminated(r)
  {
    Separated(s) + PutsText(key)
  }

  /** Ruby's `chomp`: drops one trailing `\r\n`, `\n` or `\r`. */
  function Chomp(s: string): (r: string)
    ensures |r| <= |s| && r == s[..|r|]
  {
    if |s| >= 2 && s[|s| - 2..] == "\r\n" then s[..|s| - 2]
    else if s != [] && (s[|s| - 1] == '\n' || s[|s| - 1] == '\r') then s[..|s| - 1]
    else s
  }

  /** The comparison as written: the line, terminator included, equals the key. */
  predicate SameAsWritten(line: string, key: string)
  {
    line == key
  }

  /** The comparison that recognises the key with or without its newline. */
  predicate SameKey(line: string, key: string)
  {
    Chomp(line) == Chomp(key)
  }

  /** Some line of `s` is the same as `key`, line by line from the start. */
  predicate AnyLine(s: string, key: string, same: (string, string) -> bool)
    decreases |s|
  {
    s != [] && (same(s[..LineLength(s)], key) || AnyLine(s[LineLength(s)..], key, same))
  }

  lemma {:induction false} AnyLineIsSomeLine(s: string, key: string, same: (string, string) -> bool)
    ensures AnyLine(s, key, same) <==> exists line | line in Lines(s) :: same(line, key)
    decreases |s|
  {
    if s != [] {
      var n := LineLength(s);
      AnyLineIsSomeLine(s[n..], key, same);
      assert Lines(s) == [s[..n]] + Lines(s[n..]);
      if AnyLine(s[n..], key, same) {
        var line :| line in Lines(s[n..]) && same(line, key);
        assert line in Lines(s);
      }
    }
  }

  /** The loop over `each_line` with its early exit. */
  method HasLine(content: string, key: string, same: (string, string) -> bool) returns (found: bool)
    ensures found <==> AnyLine(content, key, same)
  {
    var rest := content;
    while rest != []
      invariant AnyLine(content, key, same) <==> AnyLine(rest, key, same)
      decreases |rest|
    {
      var line := rest[..LineLength(rest)];
      if same(line, key) {
        return true;
      }
      rest := rest[LineLength(rest)..];
    }
    return false;
  }

  /** The output printed when the key was already present. */
  const NotChanged := "Your authorized_keys have not been changed"
  const Changed := "Updated your authorized_keys"

  class KeyFile {
    var content: string

    constructor(content: string)
      ensures this.content == content
    {
      this.content := content;
    }

    /** Repairs the final newline, then `file.puts KEY`. */
    method Append(key: string)
      modifies this
      ensures content == Updated(old(content), key)
    {
      if |content| > 0 && content[|content| - 1] != '\n' {
        content := content + "\n";
      }
      content := content + PutsText(key);
    }

    /** The script's work on the file as written: unchanged when some line,
        newline included, equals the key; otherwise the key is appended. */
    method AddKeyAsWritten(key: string) returns (message: string)
      modifies this
      ensures AnyLine(old(content), key, SameAsWritten) ==> content == old(content) && message == NotChanged
      ensures !AnyLine(old(content), key, SameAsWritten) ==> content == Updated(old(content), key) && message == Changed
    {
      var found := HasLine(content, key, SameAsWritten);
      if found {
        return NotChanged;
      }
      Append(key);
      return Changed;
    }

    /** The same with the key recognised whether or not it ends in a newline. */
    method AddKey(key: string) returns (message: string)
      modifies this
      ensures AnyLine(old(content), key, SameKey) ==> content == old(content) && message == NotChanged
      ensures !AnyLine(old(content), key, SameKey) ==> content == Updated(old(content), key) && message == Changed
    {
      var found := HasLine(content, key, SameKey);
      if found {
        return NotChanged;
      }
      Append(key);
      return Changed;
    }
  }

  /** The appended key is the file's last line. */
  lemma KeyIsLastLine(s: string, key: string)
    requires forall i :: 0 <= i < |key| - 1 ==> key[i] != '\n'
    ensures Lines(Updated(s, key)) == Lines(Separated(s)) + [PutsText(key)]
  {
    LinesAppend(Separated(s), PutsText(key));
    SingleLine(PutsText(key));
  }

  /** A one-line key that ends in a newline is found on the next run, which
      then leaves the file alone. */
  lemma SecondRunUnchanged(s: string, key: string)
    requires key != [] && key[|key| - 1] == '\n'
    requires forall i :: 0 <= i < |key| - 1 ==> key[i] != '\n'
    ensures AnyLine(Updated(s, key), key, SameAsWritten)
  {
    KeyIsLastLine(s, key);
    assert key in Lines(Updated(s, key));
    AnyLineIsSomeLine(Updated(s, key), key, SameAsWritten);
  }

  /** A key without a newline never equals a line of a file that ends in one,
      so as written every run appends it again. */
  lemma UnterminatedKeyReappended(s: string, key: string)
    requires forall i :: 0 <= i < |key| ==> key[i] != '\n'
    ensures !AnyLine(Updated(s, key), key, SameAsWritten)
  {
    AllLinesTerminated(Updated(s, key));
    AnyLineIsSomeLine(Updated(s, key), key, SameAsWritten);
  }

  /** What `puts` writes is the key, up to its terminator. */
  lemma PutsKeepsKey(key: string)
    ensures SameKey(PutsText(key), key)
  {
    var line := PutsText(key);
    if !(key != [] && key[|key| - 1] == '\n') {
      assert line[..|line| - 1] == key;
      if key != [] && key[|key| - 1] == '\r' {
        assert line[|line| - 2..] == "\r\n";
        assert line[..|line| - 2] == key[..|key| - 1];
      }
    }
  }

  /** With the newline-insensitive comparison, any one-line key is found on
      the next run. */
  lemma SecondRunUnchangedChomped(s: string, key: string)
    requires forall i :: 0 <= i < |key| - 1 ==> key[i] != '\n'
    ensures AnyLine(Updated(s, key), key, SameKey)
  {
    KeyIsLastLine(s, key);
    PutsKeepsKey(key);
    assert PutsText(key) in Lines(Updated(s, key));
    AnyLineIsSomeLine(Updated(s, key), key, SameKey);
  }

  /** The script: USER and KEY are required and a further argument is
      ignored; USER must name an account of `users`. `Err` is the message of
      the exception raised, which ends the script with a failure status. */
  method Run(args: seq<string>, users: set<string>, file: KeyFile) returns (r: Result<string, string>)
    modifies file
    ensures |args| == 0 ==> r == Err("Missing the USER and KEY arguments") && file.content == old(file.content)
    ensures |args| == 1 ==> r == Err("Missing the KEY argument") && file.content == old(file.content)
    ensures |args| >= 2 && args[0] !in users ==> r == Err("can't find user for " + args[0]) && file.content == old(file.content)
    ensures |args| >= 2 && args[0] in users ==>
              && r.Ok?
              && (AnyLine(old(file.content), args[1], SameKey) ==> r.value == NotChanged && file.content == old(file.content))
              && (!AnyLine(old(file.content), args[1], SameKey) ==> r.value == Changed && file.content == Updated(old(file.content), args[1]))
  {
    if |args| == 0 {
      return Err("Missing the USER and KEY arguments");
    } else if |args| == 1 {
      return Err("Missing the KEY argument");
    } else if args[0] !in users {
      return Err("can't find user for " + args[0]);
    }
    var message := file.AddKey(args[1]);
    return Ok(message);
  }
}
