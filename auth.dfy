/**
 * The session: who is signed in. `login` stores the trimmed e-mail when it is
 * given a non-empty string; `logout` forgets the user.
 */
module Auth {
  import opened Types

  /** The characters `String.prototype.trim` removes: white space and line terminators. */
  predicate IsJsWhitespace(c: char) {
    || c == '\U{0009}' || c == '\U{000A}' || c == '\U{000B}' || c == '\U{000C}' || c == '\U{000D}'
    || c == '\U{0020}' || c == '\U{00A0}' || c == '\U{1680}'
    || ('\U{2000}' <= c <= '\U{200A}')
    || c == '\U{2028}' || c == '\U{2029}' || c == '\U{202F}' || c == '\U{205F}'
    || c == '\U{3000}' || c == '\U{FEFF}'
  }

  /** `s` without its leading white space. */
  function TrimStart(s: string): (r: string)
    ensures |r| <= |s| && r == s[|s| - |r|..]
    ensures forall i :: 0 <= i < |s| - |r| ==> IsJsWhitespace(s[i])
    ensures |r| > 0 ==> !IsJsWhitespace(r[0])
  {
    if |s| > 0 && IsJsWhitespace(s[0]) then TrimStart(s[1..]) else s
  }

  /** `s` without its trailing white space. */
  function TrimEnd(s: string): (r: string)
    ensures |r| <= |s| && r == s[..|r|]
    ensures forall i :: |r| <= i < |s| ==> IsJsWhitespace(s[i])
    ensures |r| > 0 ==> !IsJsWhitespace(r[|r| - 1])
  {
    if |s| > 0 && IsJsWhitespace(s[|s| - 1]) then TrimEnd(s[..|s| - 1]) else s
  }

  /** `String.prototype.trim`. */
  function Trim(s: string): (r: string)
    ensures |r| > 0 ==> !IsJsWhitespace(r[0]) && !IsJsWhitespace(r[|r| - 1])
    ensures r == "" <==> forall i :: 0 <= i < |s| ==> IsJsWhitespace(s[i])
  {
    var t := TrimStart(s);
    var r := TrimEnd(t);
    assert |t| > 0 ==> !IsJsWhitespace(t[0]) && |r| > 0 && r[0] == t[0];
    r
  }

  /** Trimming keeps an unbroken stretch of `s` and removes only white space before and after it. */
  lemma TrimIsInfix(s: string)
    ensures exists a, b ::
      && 0 <= a <= b <= |s| && Trim(s) == s[a..b]
      && (forall i :: 0 <= i < a ==> IsJsWhitespace(s[i]))
      && (forall i :: b <= i < |s| ==> IsJsWhitespace(s[i]))
  {
    var t := TrimStart(s);
    var r := TrimEnd(t);
    var a := |s| - |t|;
    var b := a + |r|;
    assert t == s[a..];
    assert r == s[a..b];
    assert forall i :: b <= i < |s| ==> s[i] == t[i - a];
  }

  /** Trimming twice is trimming once. */
  lemma TrimIdempotent(s: string)
    ensures Trim(Trim(s)) == Trim(s)
  {
    var r := Trim(s);
    if |r| > 0 {
      assert TrimStart(r) == r;
      assert TrimEnd(r) == r;
    }
  }

  /** The user after `login(email)`: the trimmed e-mail when it is non-empty, else unchanged. */
  function AfterLogin(currentUser: Option<string>, email: string): (u: Option<string>)
    ensures email != "" ==> u == Some(Trim(email))
    ensures email == "" ==> u == currentUser
  {
    if email != "" then Some(Trim(email)) else currentUser
  }

  /** The emptiness test comes before trimming, so white space alone signs in as "". */
  lemma WhitespaceLoginStoresEmpty(currentUser: Option<string>, email: string)
    requires email != ""
    requires forall i :: 0 <= i < |email| ==> IsJsWhitespace(email[i])
    ensures AfterLogin(currentUser, email) == Some("")
  {
  }

  /** Logging in twice with the same e-mail is logging in once. */
  lemma LoginIdempotent(currentUser: Option<string>, email: string)
    ensures AfterLogin(AfterLogin(currentUser, email), email) == AfterLogin(currentUser, email)
  {
  }

  /** The stored user is the trimmed form of what was typed, so it never starts or ends in white space. */
  lemma LoginStoresTrimmed(currentUser: Option<string>, email: string)
    requires email != ""
    ensures var u := AfterLogin(currentUser, email);
      u.Some? && (|u.value| > 0 ==> !IsJsWhitespace(u.value[0]) && !IsJsWhitespace(u.value[|u.value| - 1]))
  {
  }

  /** The signed-in user, `null` (None) when nobody is. */
  class Session {
    var currentUser: Option<string>

    /** The session restored from storage (None when nothing was stored). */
    constructor (stored: Option<string>)
      ensures currentUser == stored
    {
      currentUser := stored;
    }

    method Login(email: string)
      modifies this
      ensures currentUser == AfterLogin(old(currentUser), email)
    {
      if email != "" {
        currentUser := Some(Trim(email));
      }
    }

    method Logout()
      modifies this
      ensures currentUser == None
    {
      currentUser := None;
    }
  }
}
