/**
 * The sign-up pages' field rules: a name must not be blank, and an email must
 * not be blank and must match `\S+@\S+\.\S+` somewhere in it.
 */
module FormRules {
  import opened Wrappers
  import opened Text

  const NameRequired := "Name is required"
  const EmailRequired := "Email is required"
  const EmailInvalid := "Email is invalid"

  /** `/\S+@\S+\.\S+/.test(s)`: the test is unanchored, so it suffices that
      some `@` has a non-space character before it and is followed by a run of
      non-space characters, a `.`, and one more non-space character. */
  ghost predicate EmailPatternSpec(s: string) {
    exists at, dot :: MatchesAt(s, at, dot)
  }

  /** A match whose `@` is at `at` and whose `.` is at `dot`, with the shortest
      runs around them. */
  predicate MatchesAt(s: string, at: int, dot: int) {
    1 <= at && at + 2 <= dot && dot + 1 < |s| &&
    s[at] == '@' && s[dot] == '.' && !IsSpace(s[at - 1]) && !IsSpace(s[dot + 1]) &&
    forall m :: at < m < dot ==> !IsSpace(s[m])
  }

  /** The pattern test as a left-to-right scan: try each `@` in turn. */
  predicate EmailPatternMatches(s: string) {
    AtFrom(s, 0)
  }

  /** Some `@` at index `i` or later starts a match. */
  predicate AtFrom(s: string, i: nat)
    decreases |s| - i
  {
    i < |s| &&
    ((s[i] == '@' && 1 <= i && !IsSpace(s[i - 1]) && DotFrom(s, i, i + 1)) || AtFrom(s, i + 1))
  }

  /** Scanning the non-space run after the `@` at `at`, from index `j` on,
      meets a `.` that is not right after the `@` and is followed by a
      non-space character. */
  predicate DotFrom(s: string, at: nat, j: nat)
    decreases |s| - j
  {
    j + 1 < |s| && !IsSpace(s[j]) &&
    ((s[j] == '.' && at + 2 <= j && !IsSpace(s[j + 1])) || DotFrom(s, at, j + 1))
  }

  lemma {:induction false} DotFromIff(s: string, at: nat, j: nat)
    requires 1 <= at < j <= |s| && s[at] == '@' && !IsSpace(s[at - 1])
    requires forall m :: at < m < j ==> !IsSpace(s[m])
    ensures DotFrom(s, at, j) <==> exists dot :: j <= dot && MatchesAt(s, at, dot)
    decreases |s| - j
  {
    if j + 1 < |s| && !IsSpace(s[j]) {
      DotFromIff(s, at, j + 1);
      if s[j] == '.' && at + 2 <= j && !IsSpace(s[j + 1]) {
        assert MatchesAt(s, at, j);
      }
      if exists dot :: j <= dot && MatchesAt(s, at, dot) {
        var dot :| j <= dot && MatchesAt(s, at, dot);
        if dot != j {
          assert j + 1 <= dot;
        }
      }
    }
  }

  lemma {:induction false} AtFromIff(s: string, i: nat)
    ensures AtFrom(s, i) <==> exists at, dot :: i <= at && MatchesAt(s, at, dot)
    decreases |s| - i
  {
    if i < |s| {
      AtFromIff(s, i + 1);
      if s[i] == '@' && 1 <= i && !IsSpace(s[i - 1]) {
        DotFromIff(s, i, i + 1);
      }
      if exists at, dot :: i <= at && MatchesAt(s, at, dot) {
        var at, dot :| i <= at && MatchesAt(s, at, dot);
        if at == i {
          DotFromIff(s, i, i + 1);
          assert i + 1 <= dot;
        } else {
          assert i + 1 <= at;
        }
      }
    }
  }

  /** The scan decides exactly the unanchored pattern. */
  lemma EmailPatternMatchesIff(s: string)
    ensures EmailPatternMatches(s) <==> EmailPatternSpec(s)
  {
    AtFromIff(s, 0);
  }

  /** The name rule: an error exactly when the trimmed name is empty. */
  function NameError(name: string): (e: Option<string>)
    ensures e.Some? <==> IsBlank(name)
    ensures e.Some? ==> e.value == NameRequired
  {
    if IsBlank(name) then Some(NameRequired) else None
  }

  /** The email rule: "required" for a blank email, otherwise "invalid" when
      the pattern matches nowhere. */
  function EmailError(email: string): (e: Option<string>)
    ensures e == Some(EmailRequired) <==> IsBlank(email)
    ensures e == Some(EmailInvalid) <==> !IsBlank(email) && !EmailPatternMatches(email)
    ensures e.None? || e == Some(EmailRequired) || e == Some(EmailInvalid)
  {
    if IsBlank(email) then Some(EmailRequired)
    else if !EmailPatternMatches(email) then Some(EmailInvalid)
    else None
  }

  /** A string the pattern matches is never blank, so the email rule accepts
      exactly the strings the pattern matches. */
  lemma MatchingEmailIsNotBlank(email: string)
    requires EmailPatternMatches(email)
    ensures !IsBlank(email)
  {
    EmailPatternMatchesIff(email);
    var at, dot :| MatchesAt(email, at, dot);
    assert email[at] == '@';
    NonSpaceIsNotBlank(email, at);
  }

  /** Accepting an email is the same as the pattern matching it. */
  lemma EmailAcceptedIffMatches(email: string)
    ensures EmailError(email).None? <==> EmailPatternMatches(email)
  {
    if EmailPatternMatches(email) {
      MatchingEmailIsNotBlank(email);
    }
  }

  /** "name@example.com" is accepted. */
  lemma EmailExampleAccepted()
    ensures EmailError("name@example.com").None?
  {
    var good := "name@example.com";
    assert MatchesAt(good, 4, 12);
    EmailPatternMatchesIff(good);
    NonSpaceIsNotBlank(good, 0);
  }

  /** "name@example" has no dot after its `@`. */
  lemma EmailExampleWithoutDot()
    ensures EmailError("name@example") == Some(EmailInvalid)
  {
    var noDot := "name@example";
    NonSpaceIsNotBlank(noDot, 0);
    assert forall i :: 0 <= i < |noDot| ==> noDot[i] != '.';
  }

  /** "name @x.y" has a space right before its only `@`. */
  lemma EmailExampleSpaceBeforeAt()
    ensures EmailError("name @x.y") == Some(EmailInvalid)
  {
    var spaced := "name @x.y";
    NonSpaceIsNotBlank(spaced, 0);
    assert forall i :: 0 <= i < |spaced| && spaced[i] == '@' ==> i == 5;
  }
}
