/** The client-side check that gates the waitlist request: both fields must be
    filled in, and the email must match /^[^\s@]+@[^\s@]+\.[^\s@]+$/. */
module Validation {

  /** The code points of the ECMAScript `\s` class: the WhiteSpace code points
      (tab, vertical tab, form feed, space, no-break space, byte order mark and
      the Zs separators) and the LineTerminator code points. */
  predicate IsSpace(c: char) {
    var n := c as int;
    n == 0x09 || n == 0x0A || n == 0x0B || n == 0x0C || n == 0x0D || n == 0x20 ||
    n == 0xA0 || n == 0x1680 || (0x2000 <= n <= 0x200A) || n == 0x2028 || n == 0x2029 ||
    n == 0x202F || n == 0x205F || n == 0x3000 || n == 0xFEFF
  }

  /** A character the class `[^\s@]` accepts. */
  predicate IsPlain(c: char) {
    !IsSpace(c) && c != '@'
  }

  /** A string that `[^\s@]+` matches in full. */
  predicate IsRun(s: string) {
    |s| > 0 && forall i :: 0 <= i < |s| ==> IsPlain(s[i])
  }

  /** The language of the anchored pattern, read off its structure: a run, an
      `@`, then a domain part. */
  ghost predicate MatchesPattern(s: string) {
    exists local, domain :: s == local + "@" + domain && IsRun(local) && MatchesDomain(domain)
  }

  /** The part of the pattern after the `@`: a run, a literal `.`, a run. */
  ghost predicate MatchesDomain(d: string) {
    exists host, tld :: d == host + "." + tld && IsRun(host) && IsRun(tld)
  }

  predicate NoSpace(s: string) {
    forall i :: 0 <= i < |s| ==> !IsSpace(s[i])
  }

  /** The first position of `c` in `s`, or `|s|` when `c` does not occur. */
  function IndexOf(s: string, c: char): (i: nat)
    ensures i <= |s|
    ensures i < |s| ==> s[i] == c
    ensures c !in s[..i]
  {
    if s == [] then 0
    else if s[0] == c then 0
    else
      assert s[..1 + IndexOf(s[1..], c)] == [s[0]] + s[1..][..IndexOf(s[1..], c)];
      1 + IndexOf(s[1..], c)
  }

  /** The domain part has a `.` that is neither its first nor its last character. */
  predicate HasInnerDot(d: string) {
    exists k :: 0 < k < |d| - 1 && d[k] == '.'
  }

  /** `emailPattern.test(email)`, written as a direct check: no whitespace, exactly
      one `@` (the first one, with none after it), a non-empty part before it,
      and a `.` strictly inside the part after it. */
  predicate PatternTest(s: string) {
    var at := IndexOf(s, '@');
    NoSpace(s) && 0 < at < |s| && '@' !in s[at + 1..] && HasInnerDot(s[at + 1..])
  }

  /** The direct check accepts exactly the language of the pattern. */
  lemma PatternTestCorrect(s: string)
    ensures PatternTest(s) <==> MatchesPattern(s)
  {
    if PatternTest(s) {
      var at := IndexOf(s, '@');
      var local, domain := s[..at], s[at + 1..];
      assert s == local + "@" + domain;
      NoSpaceSplit(local, '@', domain);
      RunIff(local);
      DomainIff(domain);
    }
    if MatchesPattern(s) {
      var local, domain :| s == local + "@" + domain && IsRun(local) && MatchesDomain(domain);
      RunIff(local);
      DomainIff(domain);
      NoSpaceSplit(local, '@', domain);
      FirstAt(s, local, domain);
    }
  }

  /** A run is a non-empty string without `@` and without whitespace. */
  lemma RunIff(s: string)
    ensures IsRun(s) <==> |s| > 0 && '@' !in s && NoSpace(s)
  {
  }

  /** Whitespace is absent from `a + [sep] + b`, for a separator that is not
      whitespace, exactly when it is absent from both parts. */
  lemma NoSpaceSplit(a: string, sep: char, b: string)
    requires !IsSpace(sep)
    ensures NoSpace(a + [sep] + b) <==> NoSpace(a) && NoSpace(b)
  {
    var s := a + [sep] + b;
    if NoSpace(s) {
      forall i | 0 <= i < |a| ensures !IsSpace(a[i]) { assert a[i] == s[i]; }
      forall i | 0 <= i < |b| ensures !IsSpace(b[i]) { assert b[i] == s[|a| + 1 + i]; }
    }
  }

  /** The domain part: no `@`, no whitespace, and an inner `.`. */
  lemma DomainIff(d: string)
    ensures MatchesDomain(d) <==> '@' !in d && NoSpace(d) && HasInnerDot(d)
  {
    if '@' !in d && NoSpace(d) && HasInnerDot(d) {
      var k :| 0 < k < |d| - 1 && d[k] == '.';
      var host, tld := d[..k], d[k + 1..];
      assert d == host + "." + tld;
      NoSpaceSplit(host, '.', tld);
      RunIff(host);
      RunIff(tld);
    }
    if MatchesDomain(d) {
      var host, tld :| d == host + "." + tld && IsRun(host) && IsRun(tld);
      RunIff(host);
      RunIff(tld);
      NoSpaceSplit(host, '.', tld);
      assert d[|host|] == '.';
    }
  }

  /** In `local + "@" + domain` with no `@` in `local`, the first `@` ends `local`. */
  lemma FirstAt(s: string, local: string, domain: string)
    requires s == local + "@" + domain && '@' !in local
    ensures IndexOf(s, '@') == |local| && s[|local| + 1..] == domain
  {
    var n, at := |local|, IndexOf(s, '@');
    assert s[..n] == local;
    assert s[n] == '@';
  }

  /** Strings without an `@`, or without a `.` after it, are outside the language. */
  lemma SamplesRejected()
    ensures !MatchesPattern("foo") && !MatchesPattern("foo@bar") && !MatchesPattern("a@b")
  {
    PatternTestCorrect("foo");
    PatternTestCorrect("foo@bar");
    PatternTestCorrect("a@b");
  }

  /** The `.` must have something on both sides, and so must the `@`. */
  lemma BareSeparatorsRejected()
    ensures !MatchesPattern("a@b.") && !MatchesPattern("a@.b") && !MatchesPattern("@b.c")
  {
    PatternTestCorrect("a@b.");
    PatternTestCorrect("a@.b");
    PatternTestCorrect("@b.c");
  }

  /** Whitespace anywhere, or a second `@`, puts a string outside the language. */
  lemma SpaceOrSecondAtRejected()
    ensures !MatchesPattern("a b@c.d") && !MatchesPattern("a@b@c.d")
  {
    PatternTestCorrect("a b@c.d");
    PatternTestCorrect("a@b@c.d");
  }

  /** What the submit handler decides before any request is made. */
  datatype Verdict = Accepted | Rejected(message: string)

  const MissingFields := "Please enter your name and email."
  const InvalidEmail := "Please enter a valid email."

  /** The two guards of the submit handler, in their order: the empty-field check
      comes first, so an empty name with a malformed email still reports the
      missing field. */
  function Validate(name: string, email: string): (v: Verdict)
    ensures v == Rejected(MissingFields) <==> name == "" || email == ""
    ensures v == Rejected(InvalidEmail) <==> name != "" && email != "" && !MatchesPattern(email)
    ensures v == Accepted <==> name != "" && email != "" && MatchesPattern(email)
  {
    PatternTestCorrect(email);
    if name == "" || email == "" then Rejected(MissingFields)
    else if !PatternTest(email) then Rejected(InvalidEmail)
    else Accepted
  }
}
