/**
 * OSINTValidator (email_toolkit/osint.py:24-51): the email check, the username
 * check and the input sanitiser applied before a value reaches an external tool.
 */
module Validator {
  import opened Text

  /**
   * validate_email: an empty string is rejected without asking the email
   * syntax library; otherwise the library decides.  The library is not part
   * of this model and is passed in as `isEmail`.
   */
  predicate ValidateEmail(isEmail: string -> bool, email: string) {
    email != [] && isEmail(email)
  }

  lemma EmptyEmailRejected(isEmail: string -> bool)
    ensures !ValidateEmail(isEmail, "")
  {
  }

  /** The character class `[a-zA-Z0-9_.-]`. */
  predicate UsernameChar(c: char) {
    ('a' <= c <= 'z') || ('A' <= c <= 'Z') || ('0' <= c <= '9') || c == '_' || c == '.' || c == '-'
  }

  predicate AllUsernameChars(s: string) {
    forall i :: 0 <= i < |s| ==> UsernameChar(s[i])
  }

  /** How many characters the greedy `[a-zA-Z0-9_.-]+` consumes from the start of `s`. */
  function LeadingRun(s: string): (k: nat)
    ensures k <= |s|
    ensures forall i :: 0 <= i < k ==> UsernameChar(s[i])
    ensures k < |s| ==> !UsernameChar(s[k])
  {
    if s != [] && UsernameChar(s[0]) then 1 + LeadingRun(s[1..]) else 0
  }

  /**
   * `re.match(r'^[a-zA-Z0-9_.-]+$', s) is not None`.  Python's `$` matches at
   * the end of the string and also just before a newline that ends it; the
   * greedy run cannot usefully backtrack, because a class character is never
   * a newline.
   */
  predicate PatternMatches(s: string) {
    var k := LeadingRun(s);
    k >= 1 && (k == |s| || (k == |s| - 1 && s[k] == '\n'))
  }

  /**
   * validate_username: at least three characters and a match of the pattern,
   * which accepts a class-only string, or one followed by a single newline.
   */
  function ValidateUsername(username: string): (ok: bool)
    ensures ok <==> (|username| >= 3 &&
      (AllUsernameChars(username) ||
       (username[|username| - 1] == '\n' && AllUsernameChars(username[..|username| - 1]))))
  {
    if username == [] || |username| < 3 then false
    else
      PatternMatchesIff(username);
      PatternMatches(username)
  }

  /** The pattern, restated without the matching engine. */
  lemma PatternMatchesIff(s: string)
    requires |s| >= 2
    ensures PatternMatches(s) <==>
      (AllUsernameChars(s) || (s[|s| - 1] == '\n' && AllUsernameChars(s[..|s| - 1])))
  {
    var k := LeadingRun(s);
    if k == |s| - 1 {
      assert AllUsernameChars(s[..|s| - 1]);
    }
    if s[|s| - 1] == '\n' && AllUsernameChars(s[..|s| - 1]) {
      forall i | 0 <= i < |s| - 1
        ensures UsernameChar(s[i])
      {
        assert s[i] == s[..|s| - 1][i];
      }
    }
  }

  /** Without a trailing newline the check is exactly "three or more class characters". */
  lemma UsernameWithoutNewline(username: string)
    requires username == [] || username[|username| - 1] != '\n'
    ensures ValidateUsername(username) <==> |username| >= 3 && AllUsernameChars(username)
  {
  }

  /** The `$` quirk: "ab\n" passes the username check... */
  lemma TrailingNewlineAccepted()
    ensures ValidateUsername("ab\n")
  {
    assert AllUsernameChars("ab");
    assert "ab\n"[..2] == "ab";
  }

  /** ...and sanitising it, as sherlock and maigret do next, leaves two characters. */
  lemma TrailingNewlineSanitized()
    ensures Sanitized("ab\n") == "ab"
  {
    var s := "ab\n";
    var cs := DangerousChars;
    RemoveEachNoop(s, cs[..7]);
    assert RemoveChar(s, '\n') == "ab";
    assert RemoveEach(s, cs[..8]) == "ab" by {
      assert cs[..8][..7] == cs[..7];
    }
    RemoveCharNoop("ab", '`');
    assert cs[..9] == cs;
    assert RemoveEach(s, cs) == "ab" by {
      assert cs[..9][..8] == cs[..8];
    }
    StripFixed("ab");
  }

  /** The denylist of sanitize_input, in the order it is applied. */
  const DangerousChars: seq<char> := ['<', '>', '"', '\'', '&', '|', ';', '\n', '`']

  /** `s.replace(cs[0], '').replace(cs[1], '')...` in the order of `cs`. */
  function RemoveEach(s: string, cs: seq<char>): (r: string)
    ensures |r| <= |s|
    ensures forall x :: x in r <==> x in s && x !in cs
  {
    if cs == [] then s
    else RemoveChar(RemoveEach(s, cs[..|cs| - 1]), cs[|cs| - 1])
  }

  lemma {:induction false} RemoveCharNoop(s: string, c: char)
    requires c !in s
    ensures RemoveChar(s, c) == s
  {
    if s != [] {
      RemoveCharNoop(s[1..], c);
      assert s == [s[0]] + s[1..];
    }
  }

  lemma {:induction false} RemoveEachNoop(s: string, cs: seq<char>)
    requires forall c :: c in cs ==> c !in s
    ensures RemoveEach(s, cs) == s
  {
    if cs != [] {
      RemoveEachNoop(s, cs[..|cs| - 1]);
      RemoveCharNoop(s, cs[|cs| - 1]);
    }
  }

  /** What sanitize_input returns: "" for "", else the denylist removed and the ends stripped. */
  function Sanitized(s: string): (r: string)
    ensures forall c :: c in r ==> c in s && c !in DangerousChars
    ensures r == [] || (!IsSpace(r[0]) && !IsSpace(r[|r| - 1]))
    ensures |r| <= |s|
  {
    if s == [] then [] else Strip(RemoveEach(s, DangerousChars))
  }

  /** sanitize_input: rewrites the string once per denylisted character, then strips it. */
  method SanitizeInput(s: string) returns (r: string)
    ensures r == Sanitized(s)
  {
    if s == [] {
      return "";
    }
    var sanitized := s;
    for i := 0 to |DangerousChars|
      invariant sanitized == RemoveEach(s, DangerousChars[..i])
    {
      assert DangerousChars[..i + 1][..i] == DangerousChars[..i];
      sanitized := RemoveChar(sanitized, DangerousChars[i]);
    }
    assert DangerousChars[..|DangerousChars|] == DangerousChars;
    r := Strip(sanitized);
  }

  /** Sanitising twice gives the same string as sanitising once. */
  lemma SanitizeIdempotent(s: string)
    ensures Sanitized(Sanitized(s)) == Sanitized(s)
  {
    var t := Sanitized(s);
    if t != [] {
      RemoveEachNoop(t, DangerousChars);
      StripFixed(t);
    }
  }
}
