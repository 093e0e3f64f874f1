/** The validator applied to API names (kong_admin/validators.py): the regular
    expression `^[\w.~-]+$` with error code `invalid`. `\w` is taken as the ASCII
    word class (letters, digits and underscore). */
module Validators {

  /** The error code a rejection carries. */
  const InvalidCode: string := "invalid"

  /** The message shown with a rejection. */
  const InvalidMessage: string :=
    "Enter a valid username. This value may contain only letters, numbers and ~/./-/_ characters."

  datatype Verdict = Valid | Invalid(message: string, code: string)

  /** The ASCII `\w` class. */
  predicate IsWordChar(c: char)
  {
    ('a' <= c <= 'z') || ('A' <= c <= 'Z') || ('0' <= c <= '9') || c == '_'
  }

  /** The bracket class `[\w.~-]`. */
  predicate IsNameChar(c: char)
  {
    IsWordChar(c) || c == '.' || c == '~' || c == '-'
  }

  /** The language of the pattern, stated directly: a non-empty string of class characters. */
  predicate IsName(s: string)
  {
    |s| > 0 && forall i :: 0 <= i < |s| ==> IsNameChar(s[i])
  }

  /** The pattern as a matcher reads it: one class character, then either the
      end anchor or one more repetition of the `+`. */
  predicate MatchesPattern(s: string)
  {
    |s| > 0 && IsNameChar(s[0]) && (|s| == 1 || MatchesPattern(s[1..]))
  }

  /** The matcher accepts exactly the strings of the stated language. */
  lemma {:induction false} PatternMatchesNames(s: string)
    ensures MatchesPattern(s) <==> IsName(s)
  {
    if |s| > 1 {
      PatternMatchesNames(s[1..]);
      assert forall i :: 1 <= i < |s| ==> s[i] == s[1..][i - 1];
    }
  }

  /** `name_validator(value)`: scans the value once and rejects it with code
      `invalid` unless it matches the pattern. */
  method ValidateName(s: string) returns (v: Verdict)
    ensures v.Valid? <==> MatchesPattern(s)
    ensures v.Invalid? ==> v.code == InvalidCode && v.message == InvalidMessage
  {
    PatternMatchesNames(s);
    if |s| == 0 {
      return Invalid(InvalidMessage, InvalidCode);
    }
    var i := 0;
    while i < |s|
      invariant 0 <= i <= |s|
      invariant forall j :: 0 <= j < i ==> IsNameChar(s[j])
    {
      if !IsNameChar(s[i]) {
        return Invalid(InvalidMessage, InvalidCode);
      }
      i := i + 1;
    }
    return Valid;
  }

  /** The empty string is rejected: the class is repeated with `+`, not `*`. */
  lemma EmptyRejected()
    ensures !MatchesPattern("")
  {
  }

  /** The accepted names are closed under concatenation. */
  lemma {:induction false} NamesConcatenate(s: string, t: string)
    requires MatchesPattern(s) && MatchesPattern(t)
    ensures MatchesPattern(s + t)
  {
    PatternMatchesNames(s);
    PatternMatchesNames(t);
    PatternMatchesNames(s + t);
    assert forall i :: 0 <= i < |s + t| ==> (s + t)[i] == if i < |s| then s[i] else t[i - |s|];
  }

  /** The accepted names are closed under taking non-empty substrings. */
  lemma {:induction false} NamesSubstring(s: string, lo: nat, hi: nat)
    requires MatchesPattern(s)
    requires lo < hi <= |s|
    ensures MatchesPattern(s[lo..hi])
  {
    PatternMatchesNames(s);
    PatternMatchesNames(s[lo..hi]);
    assert forall i :: 0 <= i < hi - lo ==> s[lo..hi][i] == s[lo + i];
  }

  /** The characters the tests list as illegal. */
  const IllegalChars: string := " !@#$%^&*()+={}[]\\|\"'?/<>,"

  /** A string holding a space or any listed punctuation character is rejected. */
  lemma {:induction false} IllegalCharRejected(s: string, k: nat)
    requires k < |s| && s[k] in IllegalChars
    ensures !MatchesPattern(s)
  {
    PatternMatchesNames(s);
    assert !IsNameChar(s[k]);
  }

  /** A name of the stated language is accepted. */
  lemma NameAccepted(s: string)
    requires IsName(s)
    ensures MatchesPattern(s)
  {
    PatternMatchesNames(s);
  }

  /** The accepted examples made of letters and digits alone. */
  lemma AcceptedAlphanumeric()
    ensures MatchesPattern("Test") && MatchesPattern("123") && MatchesPattern("Test123")
  {
    NameAccepted("Test");
    NameAccepted("123");
    NameAccepted("Test123");
  }

  /** The accepted examples with each of `. ~ - _` between letters and digits. */
  lemma AcceptedSeparator(c: char)
    requires c in ".~-_"
    ensures MatchesPattern("Test" + [c] + "123")
  {
    NameAccepted("Test" + [c] + "123");
  }
}
