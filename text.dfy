/** String helpers shared by the contact page and the contact endpoint:
    whitespace, trimming, counting and replacing characters. */
module Text {

  /** Whitespace as the pages' regular expressions (`\s`) and `trim()` see it.
      JavaScript's class is a fixed Unicode table; this is its ASCII part plus the
      no-break space, the line and paragraph separators and the byte-order mark. */
  predicate IsSpace(c: char) {
    c == ' ' || c == '\t' || c == '\n' || c == '\r' || c == '\U{B}' || c == '\U{C}'
    || c == '\U{A0}' || c == '\U{2028}' || c == '\U{2029}' || c == '\U{FEFF}'
  }

  predicate AllSpace(s: string) {
    forall k :: 0 <= k < |s| ==> IsSpace(s[k])
  }

  /** `s` with its leading whitespace removed. */
  function TrimStart(s: string): (r: string)
    ensures |r| <= |s|
    ensures r == [] || !IsSpace(r[0])
  {
    if s != [] && IsSpace(s[0]) then TrimStart(s[1..]) else s
  }

  /** `TrimStart` cuts off a prefix of whitespace. */
  lemma {:induction false} TrimStartCuts(s: string)
    ensures var r := TrimStart(s); r == s[|s| - |r|..] && AllSpace(s[..|s| - |r|])
  {
    if s != [] && IsSpace(s[0]) {
      TrimStartCuts(s[1..]);
      var r := TrimStart(s);
      assert s[1..][|s| - 1 - |r|..] == s[|s| - |r|..];
      forall k | 0 <= k < |s| - |r| ensures IsSpace(s[k]) {
        if k > 0 { assert s[k] == s[1..][..|s| - 1 - |r|][k - 1]; }
      }
    }
  }

  /** `s` with its trailing whitespace removed. */
  function TrimEnd(s: string): (r: string)
    ensures |r| <= |s|
    ensures r == [] || !IsSpace(r[|r| - 1])
  {
    if s != [] && IsSpace(s[|s| - 1]) then TrimEnd(s[..|s| - 1]) else s
  }

  /** `TrimEnd` cuts off a suffix of whitespace. */
  lemma {:induction false} TrimEndCuts(s: string)
    ensures var r := TrimEnd(s); r == s[..|r|] && AllSpace(s[|r|..])
  {
    if s != [] && IsSpace(s[|s| - 1]) {
      var init := s[..|s| - 1];
      TrimEndCuts(init);
      var r := TrimEnd(s);
      assert init[..|r|] == s[..|r|];
      forall k | |r| <= k < |s| ensures IsSpace(s[k]) {
        if k < |s| - 1 { assert s[k] == init[|r|..][k - |r|]; }
      }
    }
  }

  /** `String.prototype.trim`: whitespace removed from both ends. */
  function Trim(s: string): (r: string)
    ensures |r| <= |s|
  {
    TrimEnd(TrimStart(s))
  }

  /** `r` is the slice `s[i..j]`, only whitespace lies outside it and none at its ends. */
  ghost predicate TrimmedAt(r: string, s: string, i: nat, j: nat) {
    && i <= j <= |s| && r == s[i..j]
    && AllSpace(s[..i]) && AllSpace(s[j..])
    && (r == [] || (!IsSpace(r[0]) && !IsSpace(r[|r| - 1])))
  }

  /** `r` is what is left of `s` once the whitespace at both ends is cut off. */
  ghost predicate IsTrimOf(r: string, s: string) {
    exists i: nat, j: nat :: TrimmedAt(r, s, i, j)
  }

  lemma TrimIsTrimOf(s: string)
    ensures IsTrimOf(Trim(s), s)
  {
    var t := TrimStart(s);
    var i := |s| - |t|;
    var r := TrimEnd(t);
    TrimStartCuts(s);
    TrimEndCuts(t);
    assert s[i + |r|..] == t[|r|..];
    assert TrimmedAt(r, s, i, i + |r|);
  }

  /** A non-empty trim starts at the first and ends after the last non-space character. */
  lemma TrimmedAtBounds(r: string, s: string, i: nat, j: nat, k: nat)
    requires TrimmedAt(r, s, i, j) && r != [] && k < |s| && !IsSpace(s[k])
    ensures i <= k < j && !IsSpace(s[i]) && !IsSpace(s[j - 1])
  {
    assert s[i] == r[0] && s[j - 1] == r[|r| - 1];
    forall m | 0 <= m < i ensures IsSpace(s[m]) { assert s[..i][m] == s[m]; }
    forall m | j <= m < |s| ensures IsSpace(s[m]) { assert s[j..][m - j] == s[m]; }
  }

  /** There is only one way to trim a string, so `Trim` is that way. */
  lemma TrimOfUnique(r1: string, r2: string, s: string)
    requires IsTrimOf(r1, s) && IsTrimOf(r2, s)
    ensures r1 == r2
  {
    var i1: nat, j1: nat :| TrimmedAt(r1, s, i1, j1);
    var i2: nat, j2: nat :| TrimmedAt(r2, s, i2, j2);
    if r1 != [] {
      assert s[i1] == r1[0] && s[j1 - 1] == r1[|r1| - 1];
      if r2 == [] {
        TrimmedAtRangeSpace(s, i2, j2, i1);
      } else {
        TrimmedAtBounds(r2, s, i2, j2, i1);
        TrimmedAtBounds(r2, s, i2, j2, j1 - 1);
        TrimmedAtBounds(r1, s, i1, j1, i2);
        TrimmedAtBounds(r1, s, i1, j1, j2 - 1);
      }
    } else if r2 != [] {
      assert s[i2] == r2[0];
      TrimmedAtRangeSpace(s, i1, j1, i2);
    }
  }

  /** When the trim is empty, every character of `s` is whitespace. */
  lemma TrimmedAtRangeSpace(s: string, i: nat, j: nat, k: nat)
    requires TrimmedAt([], s, i, j) && k < |s|
    ensures IsSpace(s[k])
  {
    if k < i { assert s[..i][k] == s[k]; } else { assert s[j..][k - j] == s[k]; }
  }

  /** A string with no whitespace at either end is its own trim. */
  lemma TrimUntouched(s: string)
    requires s == [] || (!IsSpace(s[0]) && !IsSpace(s[|s| - 1]))
    ensures Trim(s) == s
  {
    assert s[..0] == [] && s[|s|..] == [];
    assert TrimmedAt(s, s, 0, |s|);
    TrimIsTrimOf(s);
    TrimOfUnique(Trim(s), s, s);
  }

  /** Number of occurrences of `c` in `s`. */
  function Count(s: string, c: char): (n: nat)
    ensures n <= |s|
    ensures n == 0 <==> c !in s
  {
    if s == [] then 0 else (if s[0] == c then 1 else 0) + Count(s[1..], c)
  }

  /** Index of the first `c` in `s`, or `|s|` when there is none. */
  function IndexOf(s: string, c: char): (i: nat)
    ensures i <= |s|
    ensures i < |s| ==> s[i] == c
    ensures forall k :: 0 <= k < i ==> s[k] != c
  {
    if s == [] then 0 else if s[0] == c then 0 else 1 + IndexOf(s[1..], c)
  }

  /** `c` occurs exactly once in `s`, at `a`, exactly when it is counted once and found first at `a`. */
  lemma {:induction false} SingleOccurrence(s: string, c: char, a: nat)
    requires a < |s|
    ensures (s[a] == c && forall k :: 0 <= k < |s| && k != a ==> s[k] != c)
        <==> (Count(s, c) == 1 && IndexOf(s, c) == a)
  {
    if a == 0 {
      if s[0] == c && forall k :: 0 <= k < |s| && k != 0 ==> s[k] != c {
        assert c !in s[1..] by {
          forall k | 0 <= k < |s[1..]| ensures s[1..][k] != c { assert s[1..][k] == s[k + 1]; }
        }
      }
      if Count(s, c) == 1 && IndexOf(s, c) == 0 {
        assert c !in s[1..];
        forall k | 0 < k < |s| ensures s[k] != c { assert s[k] == s[1..][k - 1]; }
      }
    } else {
      SingleOccurrence(s[1..], c, a - 1);
      if s[a] == c && forall k :: 0 <= k < |s| && k != a ==> s[k] != c {
        forall k | 0 <= k < |s[1..]| && k != a - 1 ensures s[1..][k] != c { assert s[1..][k] == s[k + 1]; }
      }
      if Count(s, c) == 1 && IndexOf(s, c) == a {
        forall k | 0 <= k < |s| && k != a ensures s[k] != c {
          if k > 0 { assert s[k] == s[1..][k - 1]; }
        }
      }
    }
  }

  /** `s` with every `c` replaced by `rep` (`String.prototype.replace` with a global pattern). */
  function ReplaceChar(s: string, c: char, rep: string): (r: string)
    ensures c !in rep ==> c !in r
    ensures |r| == |s| + Count(s, c) * (|rep| - 1)
    ensures c !in s ==> r == s
  {
    if s == [] then []
    else
      var n := Count(s[1..], c);
      assert (n + 1) * (|rep| - 1) == n * (|rep| - 1) + (|rep| - 1);
      assert s == [s[0]] + s[1..];
      (if s[0] == c then rep else [s[0]]) + ReplaceChar(s[1..], c, rep)
  }

  lemma {:induction false} ReplaceCharAppend(a: string, b: string, c: char, rep: string)
    ensures ReplaceChar(a + b, c, rep) == ReplaceChar(a, c, rep) + ReplaceChar(b, c, rep)
  {
    if a != [] {
      assert (a + b)[1..] == a[1..] + b;
      ReplaceCharAppend(a[1..], b, c, rep);
    } else {
      assert a + b == b;
    }
  }

  /** A single character becomes `rep` when it is `c`, and stays otherwise; with
      `ReplaceCharAppend` this fixes the replacement of every string. */
  lemma ReplaceCharOne(x: char, c: char, rep: string)
    ensures ReplaceChar([x], c, rep) == if x == c then rep else [x]
  {
    assert [x][1..] == [];
  }
}
