/** The email test shared by both contact pages: the regular expression
    `^[^\s@]+@[^\s@]+\.[^\s@]+$`. It checks a loose shape, not RFC 5322. */
module EmailShape {
  import opened Text

  /** Every character is neither whitespace nor `@`: the class `[^\s@]`. */
  predicate Plain(s: string) {
    forall k :: 0 <= k < |s| ==> !IsSpace(s[k]) && s[k] != '@'
  }

  /** The regular expression split at its `@` (index `i`) and at the `.` that the
      backtracking matcher settles on (index `j`): three non-empty `[^\s@]+` runs. */
  ghost predicate SplitsAt(s: string, i: nat, j: nat) {
    && 0 < i && i + 1 < j && j + 1 < |s|
    && s[i] == '@' && s[j] == '.'
    && Plain(s[..i]) && Plain(s[i + 1..j]) && Plain(s[j + 1..])
  }

  /** `s` matches the pattern: some choice of `@` and `.` splits it. */
  ghost predicate MatchesPattern(s: string) {
    exists i: nat, j: nat :: SplitsAt(s, i, j)
  }

  /** The domain has a `.` that is neither its first nor its last character. */
  predicate DottedDomain(d: string) {
    exists k :: 0 < k < |d| - 1 && d[k] == '.'
  }

  /** The shape checked field by field: no whitespace, exactly one `@`, something
      before it, and a dotted domain after it. */
  predicate IsEmailShape(s: string) {
    && (forall k :: 0 <= k < |s| ==> !IsSpace(s[k]))
    && Count(s, '@') == 1
    && 0 < IndexOf(s, '@')
    && DottedDomain(s[IndexOf(s, '@') + 1..])
  }

  /** The field-by-field check accepts exactly the strings the pattern matches. */
  lemma EmailShapeIffPattern(s: string)
    ensures IsEmailShape(s) <==> MatchesPattern(s)
  {
    if IsEmailShape(s) {
      var a := IndexOf(s, '@');
      SingleOccurrence(s, '@', a);
      var d := s[a + 1..];
      var k :| 0 < k < |d| - 1 && d[k] == '.';
      var j := a + 1 + k;
      assert s[j] == d[k];
      forall m | 0 <= m < |s[..a]| ensures !IsSpace(s[..a][m]) && s[..a][m] != '@' { assert s[..a][m] == s[m]; }
      var mid, tld := s[a + 1..j], s[j + 1..];
      forall m | 0 <= m < |mid| ensures !IsSpace(mid[m]) && mid[m] != '@' { assert mid[m] == s[a + 1 + m]; }
      forall m | 0 <= m < |tld| ensures !IsSpace(tld[m]) && tld[m] != '@' { assert tld[m] == s[j + 1 + m]; }
      assert SplitsAt(s, a, j);
    }
    if MatchesPattern(s) {
      var i: nat, j: nat :| SplitsAt(s, i, j);
      forall m | 0 <= m < |s| ensures !IsSpace(s[m]) && (m != i ==> s[m] != '@') {
        if m < i { assert s[m] == s[..i][m]; }
        else if i < m < j { assert s[m] == s[i + 1..j][m - i - 1]; }
        else if j < m { assert s[m] == s[j + 1..][m - j - 1]; }
      }
      SingleOccurrence(s, '@', i);
      var d := s[i + 1..];
      assert d[j - i - 1] == s[j];
      assert DottedDomain(d);
    }
  }

  /** The shortest kind of address, one character in each of the three parts, passes. */
  lemma MinimalAddressAccepted()
    ensures IsEmailShape("a@b.com")
  {
    var s := "a@b.com";
    assert s[..1] == "a" && s[2..3] == "b" && s[4..] == "com";
    assert SplitsAt(s, 1, 3);
    EmailShapeIffPattern(s);
  }

  /** A word with no `@` fails. */
  lemma NoAtRejected()
    ensures !IsEmailShape("bad-email")
  {
    assert '@' !in "bad-email";
  }
}
