/**
 * The email shape test behind the component's `validateEmail`:
 * the regular expression /^[^@\s]+@[^@\s]+\.[^@\s]+$/, first as what the
 * pattern matches, then as the explicit string predicate the component
 * effectively computes, with a proof that the two agree on every string.
 */
module EmailShape {
  import opened JsText

  /** Shown when the address does not have the required shape. */
  const FormatMessage := "Please enter a valid email (example@domain.com)"
  /** Shown when a submission is attempted with no address or no track. */
  const RequiredMessage := "Email is required"

  /** A character of the class `[^@\s]`. */
  predicate InClass(c: char) {
    c != '@' && !IsWhitespace(c)
  }

  predicate AllInClass(s: string) {
    forall k | 0 <= k < |s| :: InClass(s[k])
  }

  /** The pattern matches `s` with its '@' at `i` and its '.' at `j`: three
      non-empty runs of `[^@\s]` around those two literal characters. */
  ghost predicate MatchesAt(s: string, i: nat, j: nat) {
    && 0 < i && i + 1 < j && j + 1 < |s|
    && s[i] == '@' && s[j] == '.'
    && AllInClass(s[..i]) && AllInClass(s[i + 1..j]) && AllInClass(s[j + 1..])
  }

  /** What the anchored pattern matches. */
  ghost predicate MatchesPattern(s: string) {
    exists i: nat, j: nat :: MatchesAt(s, i, j)
  }

  /** Position of the first '@' in `s`, or `|s|` when there is none. */
  function AtIndex(s: string): (i: nat)
    ensures i <= |s|
    ensures i < |s| ==> s[i] == '@'
    ensures '@' !in s[..i]
  {
    if s == [] || s[0] == '@' then 0 else 1 + AtIndex(s[1..])
  }

  predicate HasNoWhitespace(s: string) {
    forall k | 0 <= k < |s| :: !IsWhitespace(s[k])
  }

  /** The shape spelled out: exactly one '@', no whitespace, something before
      the '@', and after it a domain holding a '.' that is neither its first
      nor its last character. */
  predicate IsValidEmail(s: string) {
    && multiset(s)['@'] == 1
    && HasNoWhitespace(s)
    && 0 < AtIndex(s) < |s|
    && HasInnerDot(s[AtIndex(s) + 1..])
  }

  /** A '.' that is neither the first nor the last character. */
  predicate HasInnerDot(domain: string) {
    |domain| >= 2 && '.' in domain[1..|domain| - 1]
  }

  lemma SplitAround(s: string, i: nat)
    requires i < |s|
    ensures s == s[..i] + [s[i]] + s[i + 1..]
    ensures multiset(s) == multiset(s[..i]) + multiset{s[i]} + multiset(s[i + 1..])
  {
    assert s == s[..i] + [s[i]] + s[i + 1..];
  }

  lemma ValidMatches(s: string)
    requires IsValidEmail(s)
    ensures MatchesPattern(s)
  {
    var i := AtIndex(s);
    var domain := s[i + 1..];
    assert HasInnerDot(domain);
    var inner := domain[1..|domain| - 1];
    var m :| 0 <= m < |inner| && inner[m] == '.';
    var j := i + 2 + m;
    assert s[j] == '.';
    SplitAround(s, i);
    assert multiset(s[i + 1..])['@'] == 0;
    forall k | 0 <= k < |s| && k != i ensures InClass(s[k]) {
      if k < i {
        assert s[k] in s[..i];
      } else {
        assert s[k] == s[i + 1..][k - i - 1];
        assert s[k] in multiset(s[i + 1..]);
      }
    }
    assert AllInClass(s[..i]);
    assert AllInClass(s[i + 1..j]);
    assert AllInClass(s[j + 1..]);
    assert MatchesAt(s, i, j);
  }

  lemma RunHasNoAt(x: string)
    requires AllInClass(x)
    ensures '@' !in x && multiset(x)['@'] == 0 && HasNoWhitespace(x)
  {
  }

  lemma FirstAt(s: string, i: nat)
    requires i < |s| && s[i] == '@' && AllInClass(s[..i])
    ensures AtIndex(s) == i
  {
  }

  lemma JoinNoWhitespace(x: string, c: char, y: string)
    requires HasNoWhitespace(x) && !IsWhitespace(c) && HasNoWhitespace(y)
    ensures HasNoWhitespace(x + [c] + y)
  {
    var z := x + [c] + y;
    forall k | 0 <= k < |z| ensures !IsWhitespace(z[k]) {
      if k < |x| {
        assert z[k] == x[k];
      } else if k > |x| {
        assert z[k] == y[k - |x| - 1];
      }
    }
  }

  lemma MatchesValid(s: string)
    requires MatchesPattern(s)
    ensures IsValidEmail(s)
  {
    var i: nat, j: nat :| MatchesAt(s, i, j);
    var before, mid, after := s[..i], s[i + 1..j], s[j + 1..];
    var domain := s[i + 1..];
    assert domain == mid + ['.'] + after;
    assert s == before + ['@'] + domain;
    RunHasNoAt(before);
    RunHasNoAt(mid);
    RunHasNoAt(after);
    FirstAt(s, i);
    JoinNoWhitespace(mid, '.', after);
    JoinNoWhitespace(before, '@', domain);
    assert HasNoWhitespace(s);
    assert multiset(s)['@'] == 1 by {
      assert multiset(s) == multiset(before) + multiset{'@'} + multiset(domain);
    }
    assert HasInnerDot(domain) by {
      assert domain[1..|domain| - 1][|mid| - 1] == '.';
    }
  }

  /** The explicit predicate accepts exactly the strings the pattern matches. */
  lemma ValidIffMatches(s: string)
    ensures IsValidEmail(s) <==> MatchesPattern(s)
  {
    if IsValidEmail(s) { ValidMatches(s); }
    if MatchesPattern(s) { MatchesValid(s); }
  }

  /** The pattern accepts "a@b.c". */
  lemma AcceptsExample()
    ensures MatchesPattern("a@b.c")
  {
    var s := "a@b.c";
    assert AtIndex(s) == 1;
    assert HasInnerDot(s[2..]) by { assert s[2..][1..2] == "."; }
    assert multiset(s)['@'] == 1;
    ValidMatches(s);
  }

  /** The pattern rejects "a@b", "ab.c" and "a@b c". */
  lemma RejectsExamples()
    ensures !MatchesPattern("a@b") && !MatchesPattern("ab.c") && !MatchesPattern("a@b c")
  {
    assert !HasInnerDot("a@b"[2..]);
    ValidIffMatches("a@b");
    assert AtIndex("ab.c") == 4;
    ValidIffMatches("ab.c");
    assert IsWhitespace("a@b c"[3]);
    ValidIffMatches("a@b c");
  }
}
