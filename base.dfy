/** Shared vocabulary: optional values, results, the gateway's error objects
    and the character classes its validators use. */
module Base {

  datatype Option<+T> = None | Some(value: T)

  datatype Result<+T, +E> = Ok(value: T) | Err(error: E)

  /** An error object as the gateway sees it: a message and, for errors raised
      by the SSH client library, a `level` ("client-authentication", ...). */
  datatype Failure = Failure(message: string, level: Option<string>)

  /** An error carrying only a message, as `new Error(msg)` builds it. */
  function Plain(message: string): (f: Failure)
    ensures f.message == message && f.level.None?
  {
    Failure(message, None)
  }

  /** JavaScript truthiness of a value that is a string, null or undefined:
      both the absent value and the empty string are falsy. */
  predicate Truthy(s: Option<string>)
  {
    s.Some? && s.value != ""
  }

  predicate IsDigit(c: char) { '0' <= c <= '9' }
  predicate IsLower(c: char) { 'a' <= c <= 'z' }
  predicate IsUpper(c: char) { 'A' <= c <= 'Z' }
  predicate IsAlnum(c: char) { IsDigit(c) || IsLower(c) || IsUpper(c) }

  /** The regular-expression class `\w`. */
  predicate IsWordChar(c: char) { IsAlnum(c) || c == '_' }

  predicate StartsWith(s: string, prefix: string)
  {
    |prefix| <= |s| && s[..|prefix|] == prefix
  }

  predicate EndsWith(s: string, c: char)
  {
    |s| > 0 && s[|s| - 1] == c
  }

  /** Every character of `s` satisfies `p`. */
  predicate All(s: string, p: char -> bool)
  {
    forall i :: 0 <= i < |s| ==> p(s[i])
  }

  // Decimal text, as `validator.isInt` reads it and as numbers are printed.

  function DigitValue(c: char): nat
    requires IsDigit(c)
  {
    c as int - '0' as int
  }

  function DigitChar(d: nat): (c: char)
    requires d < 10
    ensures IsDigit(c) && DigitValue(c) == d
  {
    ('0' as int + d) as char
  }

  /** The value of a string of decimal digits (leading zeroes allowed). */
  function DecimalValue(s: string): nat
    requires All(s, IsDigit)
    decreases |s|
  {
    if s == [] then 0 else 10 * DecimalValue(s[..|s| - 1]) + DigitValue(s[|s| - 1])
  }

  /** The shortest decimal text of `n`. */
  function DecimalText(n: nat): (s: string)
    ensures |s| >= 1 && All(s, IsDigit)
    decreases n
  {
    if n < 10 then [DigitChar(n)] else DecimalText(n / 10) + [DigitChar(n % 10)]
  }

  lemma {:induction false} DecimalRoundTrip(n: nat)
    ensures DecimalValue(DecimalText(n)) == n
    decreases n
  {
    var s := DecimalText(n);
    if n >= 10 {
      DecimalRoundTrip(n / 10);
      assert s[..|s| - 1] == DecimalText(n / 10);
    }
  }

  /** An integer as JavaScript prints it in a template string. */
  function IntText(n: int): (s: string)
    ensures |s| >= 1
    ensures n >= 0 ==> s == DecimalText(n)
    ensures n < 0 ==> s == "-" + DecimalText(0 - n)
  {
    if n >= 0 then DecimalText(n) else "-" + DecimalText(0 - n)
  }

  /** The text `validator.isInt` accepts: an optional sign and one or more digits. */
  predicate IsIntText(s: string)
  {
    if |s| >= 1 && (s[0] == '+' || s[0] == '-') then |s| >= 2 && All(s[1..], IsDigit)
    else |s| >= 1 && All(s, IsDigit)
  }

  function IntValue(s: string): int
    requires IsIntText(s)
  {
    if s[0] == '-' then 0 - DecimalValue(s[1..])
    else if s[0] == '+' then DecimalValue(s[1..])
    else DecimalValue(s)
  }

  /** `validator.isInt(s, {min: lo, max: hi})`. */
  predicate IsIntIn(s: string, lo: int, hi: int)
  {
    IsIntText(s) && lo <= IntValue(s) <= hi
  }
}
