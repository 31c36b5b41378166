/** `parseBool`, and the second copy of the Basic-auth middleware, which
    keeps default credentials of its own. */
module Util {
  import opened Base
  import opened Sessions
  import opened Auth

  /** Lower-cases an ASCII capital and leaves every other character alone. */
  function LowerChar(c: char): (l: char)
    ensures IsUpper(c) ==> IsLower(l) && l as int == c as int + 32
    ensures !IsUpper(c) ==> l == c
  {
    if IsUpper(c) then (c as int + 32) as char else c
  }

  function ToLower(s: string): (r: string)
    ensures |r| == |s| && forall i :: 0 <= i < |s| ==> r[i] == LowerChar(s[i])
  {
    seq(|s|, i requires 0 <= i < |s| => LowerChar(s[i]))
  }

  /** `str.toLowerCase() === 'true'`: exactly the four letters of "true", in
      any mix of cases, and nothing around them. */
  function ParseBool(s: string): (b: bool)
    ensures b <==> |s| == 4 && s[0] in "tT" && s[1] in "rR" && s[2] in "uU" && s[3] in "eE"
  {
    ToLower(s) == "true"
  }

  /** The module-level defaults of the two copies of the middleware are two
      objects: defaults set through this one do not reach the other. */
  method SeparateDefaultsScenario() returns (viaUtil: AuthOutcome, viaAuth: AuthOutcome)
    ensures viaUtil == Next && viaAuth == Unauthorized
  {
    var authDefaults := new CredentialStore();
    var utilDefaults := new CredentialStore();
    utilDefaults.SetDefaultCredentials(Some("admin"), Some("secret"), None);
    var s1 := new Session();
    viaUtil := utilDefaults.BasicAuth(None, s1);
    var s2 := new Session();
    viaAuth := authDefaults.BasicAuth(None, s2);
  }
}
