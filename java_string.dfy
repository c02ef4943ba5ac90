/**
 * java.lang.String.trim as the Java platform defines it: every character
 * whose code is at most U+0020 (space and the control characters) is
 * stripped from both ends, and nothing else is touched.
 */
module JavaString {

  /** A character that trim removes at either end. */
  predicate Trimmable(c: char) {
    c <= ' '
  }

  /** The number of trimmable characters at the start of s. */
  function LeadingCount(s: string): (n: nat)
    ensures n <= |s|
    ensures forall k :: 0 <= k < n ==> Trimmable(s[k])
    ensures n == |s| || !Trimmable(s[n])
  {
    if |s| == 0 || !Trimmable(s[0]) then 0 else 1 + LeadingCount(s[1..])
  }

  /** The number of trimmable characters at the end of s. */
  function TrailingCount(s: string): (n: nat)
    ensures n <= |s|
    ensures forall k :: |s| - n <= k < |s| ==> Trimmable(s[k])
    ensures n == |s| || !Trimmable(s[|s| - 1 - n])
  {
    if |s| == 0 || !Trimmable(s[|s| - 1]) then 0 else 1 + TrailingCount(s[..|s| - 1])
  }

  /**
   * s.trim(): the longest infix of s that neither starts nor ends with a
   * trimmable character, everything cut off on either side being trimmable.
   */
  function Trim(s: string): (r: string)
    ensures LeadingCount(s) + |r| <= |s|
    ensures r == s[LeadingCount(s)..LeadingCount(s) + |r|]
    ensures forall k :: 0 <= k < LeadingCount(s) ==> Trimmable(s[k])
    ensures forall k :: LeadingCount(s) + |r| <= k < |s| ==> Trimmable(s[k])
    ensures r == [] || (!Trimmable(r[0]) && !Trimmable(r[|r| - 1]))
  {
    var t := s[LeadingCount(s)..];
    t[..|t| - TrailingCount(t)]
  }

  /** s.trim().length() == 0, the test the text watcher makes. */
  predicate IsBlank(s: string) {
    |Trim(s)| == 0
  }

  /** A string is blank exactly when every one of its characters is trimmable. */
  lemma {:induction false} BlankIffAllTrimmable(s: string)
    ensures IsBlank(s) <==> forall k :: 0 <= k < |s| ==> Trimmable(s[k])
  {
    var r := Trim(s);
    if IsBlank(s) {
      assert LeadingCount(s) + |r| == LeadingCount(s);
    } else {
      assert !Trimmable(s[LeadingCount(s)]) by {
        assert r[0] == s[LeadingCount(s)];
      }
    }
  }

  /** Trimming a trimmed string changes nothing. */
  lemma {:induction false} TrimIdempotent(s: string)
    ensures Trim(Trim(s)) == Trim(s)
  {
    var r := Trim(s);
    assert LeadingCount(r) == 0;
    assert TrailingCount(r) == 0;
    assert r[0..] == r;
  }
}
