/**
 * `SignUpView.isValidEmail`: a whole-string match of
 *
 *     [A-Z0-9a-z._%+-]+ @ [A-Za-z0-9.-]+ \. [A-Za-z]{2,}
 *
 * The recognizer below reads the address left to right the way a
 * backtracking matcher does: the local part up to the '@', then the domain,
 * trying at every '.' whether the rest is a top-level label. EmailSplit is
 * the pattern's own meaning (three character classes between two split
 * points), and the two are proved to agree.
 */
module Email {

  predicate IsAsciiLetter(c: char)
  {
    'A' <= c <= 'Z' || 'a' <= c <= 'z'
  }

  predicate IsAsciiDigit(c: char)
  {
    '0' <= c <= '9'
  }

  /** `[A-Z0-9a-z._%+-]` */
  predicate IsLocalChar(c: char)
  {
    IsAsciiLetter(c) || IsAsciiDigit(c) || c == '.' || c == '_' || c == '%' || c == '+' || c == '-'
  }

  /** `[A-Za-z0-9.-]` */
  predicate IsDomainChar(c: char)
  {
    IsAsciiLetter(c) || IsAsciiDigit(c) || c == '.' || c == '-'
  }

  // ---------------------------------------------------------------------------
  // The recognizer

  function IsValidEmail(email: string): bool
  {
    |email| > 0 && IsLocalChar(email[0]) && MatchLocalRest(email[1..])
  }

  /** `[A-Z0-9a-z._%+-]*@` followed by the domain. */
  function MatchLocalRest(s: string): bool
    decreases |s|
  {
    |s| > 0 && if s[0] == '@' then MatchDomain(s[1..]) else IsLocalChar(s[0]) && MatchLocalRest(s[1..])
  }

  /** `[A-Za-z0-9.-]+\.[A-Za-z]{2,}` */
  function MatchDomain(s: string): bool
  {
    |s| > 0 && IsDomainChar(s[0]) && MatchDomainRest(s[1..])
  }

  /** `[A-Za-z0-9.-]*\.[A-Za-z]{2,}`: at a '.', first try to end the domain there. */
  function MatchDomainRest(s: string): bool
    decreases |s|
  {
    |s| > 0 &&
    ((s[0] == '.' && MatchTopLevel(s[1..])) || (IsDomainChar(s[0]) && MatchDomainRest(s[1..])))
  }

  /** `[A-Za-z]{2,}` */
  function MatchTopLevel(s: string): bool
  {
    |s| >= 2 && forall k | 0 <= k < |s| :: IsAsciiLetter(s[k])
  }

  // ---------------------------------------------------------------------------
  // The pattern's meaning

  /** `s` is local part `s[..at]`, '@', domain `s[at+1..dot]`, '.', and
      top-level label `s[dot+1..]`, each in its character class. */
  ghost predicate EmailSplit(s: string, at: int, dot: int)
  {
    && 0 < at && at + 1 < dot && dot + 2 < |s|
    && (forall k :: 0 <= k < at ==> IsLocalChar(s[k]))
    && s[at] == '@'
    && (forall k :: at < k < dot ==> IsDomainChar(s[k]))
    && s[dot] == '.'
    && (forall k :: dot < k < |s| ==> IsAsciiLetter(s[k]))
  }

  ghost predicate MatchesEmailPattern(s: string)
  {
    exists at, dot :: EmailSplit(s, at, dot)
  }

  /** The tail of the domain pattern, split at `d`. */
  ghost predicate DomainRestSplit(s: string, d: int)
  {
    && 0 <= d && d + 2 < |s|
    && (forall k :: 0 <= k < d ==> IsDomainChar(s[k]))
    && s[d] == '.'
    && (forall k :: d < k < |s| ==> IsAsciiLetter(s[k]))
  }

  /** The local part's tail, split at `at`. */
  ghost predicate LocalRestSplit(s: string, at: int)
  {
    && 0 <= at < |s|
    && (forall k :: 0 <= k < at ==> IsLocalChar(s[k]))
    && s[at] == '@'
    && MatchDomain(s[at + 1..])
  }

  lemma {:induction false} DomainRestSound(s: string)
    requires MatchDomainRest(s)
    ensures exists d :: DomainRestSplit(s, d)
    decreases |s|
  {
    if s[0] == '.' && MatchTopLevel(s[1..]) {
      assert DomainRestSplit(s, 0);
    } else {
      DomainRestSound(s[1..]);
      var d :| DomainRestSplit(s[1..], d);
      assert DomainRestSplit(s, d + 1);
    }
  }

  lemma {:induction false} DomainRestComplete(s: string, d: int)
    requires DomainRestSplit(s, d)
    ensures MatchDomainRest(s)
    decreases d
  {
    if d == 0 {
      assert s[0] == '.';
      assert MatchTopLevel(s[1..]);
    } else {
      assert IsDomainChar(s[0]);
      assert DomainRestSplit(s[1..], d - 1);
      DomainRestComplete(s[1..], d - 1);
    }
  }

  lemma {:induction false} LocalRestSound(s: string)
    requires MatchLocalRest(s)
    ensures exists at :: LocalRestSplit(s, at)
    decreases |s|
  {
    if s[0] == '@' {
      assert LocalRestSplit(s, 0);
    } else {
      LocalRestSound(s[1..]);
      var at :| LocalRestSplit(s[1..], at);
      assert s[1..][at + 1..] == s[at + 2..];
      assert LocalRestSplit(s, at + 1);
    }
  }

  lemma {:induction false} LocalRestComplete(s: string, at: int)
    requires LocalRestSplit(s, at)
    ensures MatchLocalRest(s)
    decreases at
  {
    if at > 0 {
      assert IsLocalChar(s[0]);
      assert s[1..][at..] == s[at + 1..];
      assert LocalRestSplit(s[1..], at - 1);
      LocalRestComplete(s[1..], at - 1);
    }
  }

  /** The recognizer accepts exactly the strings the pattern matches. */
  lemma IsValidEmailMatchesPattern(s: string)
    ensures IsValidEmail(s) <==> MatchesEmailPattern(s)
  {
    if IsValidEmail(s) {
      LocalRestSound(s[1..]);
      var a :| LocalRestSplit(s[1..], a);
      var at := a + 1;
      var dom := s[at + 1..];
      assert s[1..][a + 1..] == dom;
      DomainRestSound(dom[1..]);
      var d :| DomainRestSplit(dom[1..], d);
      var dot := at + 2 + d;
      assert forall k :: at + 2 <= k < dot ==> s[k] == dom[1..][k - at - 2];
      assert forall k :: dot < k < |s| ==> s[k] == dom[1..][k - at - 2];
      assert EmailSplit(s, at, dot);
    }
    if MatchesEmailPattern(s) {
      var at, dot :| EmailSplit(s, at, dot);
      var dom := s[at + 1..];
      assert DomainRestSplit(dom[1..], dot - at - 2) by {
        assert forall k :: 0 <= k < |dom[1..]| ==> dom[1..][k] == s[k + at + 2];
      }
      DomainRestComplete(dom[1..], dot - at - 2);
      assert MatchDomain(dom);
      assert s[1..][at..] == dom;
      assert LocalRestSplit(s[1..], at - 1);
      LocalRestComplete(s[1..], at - 1);
    }
  }

  /** Any accepted address has exactly one '@', with a non-empty local part
      before it; after its last '.' come two or more ASCII letters, and between
      the '@' and that '.' the domain is non-empty. */
  lemma ValidEmailShape(s: string)
    requires IsValidEmail(s)
    ensures exists at, dot :: AddressShape(s, at, dot)
  {
    IsValidEmailMatchesPattern(s);
    var at, dot :| EmailSplit(s, at, dot);
    assert AddressShape(s, at, dot);
  }

  ghost predicate AddressShape(s: string, at: int, dot: int)
  {
    && 0 < at < dot < |s|
    && s[at] == '@'
    && (forall k :: 0 <= k < |s| && s[k] == '@' ==> k == at)
    && at + 1 < dot
    && s[dot] == '.'
    && (forall k :: dot < k < |s| ==> s[k] != '.' && IsAsciiLetter(s[k]))
    && |s| - (dot + 1) >= 2
  }

  /** An address the pattern accepts. */
  lemma AcceptedExample()
    ensures IsValidEmail("ann@x.com")
  {
  }

  /** Addresses the pattern rejects: a one-letter top-level label, an empty
      local part, and a second '@'. */
  lemma RejectedExamples()
    ensures !IsValidEmail("ann@x.c")
    ensures !IsValidEmail("@x.com")
    ensures !IsValidEmail("ann@x@y.com")
  {
  }
}
