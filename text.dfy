/**
 * The string operations the screens apply to user input: `toLowerCase`
 * (ASCII letters only), `trim` and `includes`.
 */
module Text {

  /** The characters JavaScript's `trim` removes: WhiteSpace and LineTerminator code points. */
  predicate IsWhiteSpace(c: char) {
    c == '\t' || c == '\n' || c == '\r' || c == '\U{B}' || c == '\U{C}' || c == ' '
    || c == '\U{A0}' || c == '\U{1680}' || ('\U{2000}' <= c <= '\U{200A}')
    || c == '\U{2028}' || c == '\U{2029}' || c == '\U{202F}' || c == '\U{205F}'
    || c == '\U{3000}' || c == '\U{FEFF}'
  }

  predicate IsBlank(s: string) {
    forall i :: 0 <= i < |s| ==> IsWhiteSpace(s[i])
  }

  /** The number of white-space characters `s` starts with. */
  function LeadingSpace(s: string): (n: nat)
    ensures n <= |s|
    ensures IsBlank(s[..n])
    ensures n < |s| ==> !IsWhiteSpace(s[n])
  {
    if s != [] && IsWhiteSpace(s[0]) then
      var n := LeadingSpace(s[1..]);
      assert forall i :: 1 <= i < n + 1 ==> s[i] == s[1..][..n][i - 1];
      n + 1
    else 0
  }

  /** The length of `s` once its trailing white space is cut off. */
  function TextEnd(s: string): (n: nat)
    ensures n <= |s|
    ensures IsBlank(s[n..])
    ensures n > 0 ==> !IsWhiteSpace(s[n - 1])
  {
    if s != [] && IsWhiteSpace(s[|s| - 1]) then
      var n := TextEnd(s[..|s| - 1]);
      assert forall i :: n <= i < |s| - 1 ==> s[i] == s[..|s| - 1][n..][i - n];
      n
    else |s|
  }

  /** JavaScript's `s.trim()`. */
  function Trim(s: string): string {
    var t := s[LeadingSpace(s)..];
    t[..TextEnd(t)]
  }

  /**
   * What `trim` promises: the result is a contiguous slice of `s`, only white space
   * was cut on either side, and the result neither starts nor ends with white space.
   */
  lemma TrimIsSlice(s: string)
    ensures exists i, j :: 0 <= i <= j <= |s| && Trim(s) == s[i..j]
                        && IsBlank(s[..i]) && IsBlank(s[j..])
    ensures Trim(s) != [] ==> !IsWhiteSpace(Trim(s)[0]) && !IsWhiteSpace(Trim(s)[|Trim(s)| - 1])
  {
    var i := LeadingSpace(s);
    var t := s[i..];
    var j := i + TextEnd(t);
    assert Trim(s) == s[i..j];
    assert t[TextEnd(t)..] == s[j..];
  }

  /** `s.trim()` is empty exactly when `s` consists of white space only. */
  lemma TrimEmptyIffBlank(s: string)
    ensures Trim(s) == [] <==> IsBlank(s)
  {
    var i := LeadingSpace(s);
    var t := s[i..];
    if IsBlank(s) {
      assert i == |s|;
    }
    if TextEnd(t) == 0 {
      assert t[0..] == t;
      assert i == |s|;
      forall k | 0 <= k < |s| ensures IsWhiteSpace(s[k]) {
        assert s[..i][k] == s[k];
      }
    }
  }

  /** ASCII lower-casing of one character. */
  function LowerChar(c: char): char {
    if 'A' <= c <= 'Z' then (c as int + 32) as char else c
  }

  /** `s.toLowerCase()`, restricted to ASCII letters. */
  function ToLower(s: string): (r: string)
    ensures |r| == |s|
    ensures forall i :: 0 <= i < |s| ==> r[i] == LowerChar(s[i])
  {
    seq(|s|, i requires 0 <= i < |s| => LowerChar(s[i]))
  }

  /** `s.includes(sub)`: `sub` occurs in `s` as a contiguous block. */
  predicate Contains(s: string, sub: string)
    decreases |s|
  {
    sub <= s || (s != [] && Contains(s[1..], sub))
  }

  /** `sub` occurs in `s` starting at offset `k`. */
  predicate OccursAt(s: string, sub: string, k: nat) {
    k + |sub| <= |s| && s[k..k + |sub|] == sub
  }

  /** `Contains` means: `sub` is the slice of `s` at some offset. */
  lemma {:induction false} ContainsAt(s: string, sub: string)
    ensures Contains(s, sub) <==> exists k: nat :: OccursAt(s, sub, k)
    decreases |s|
  {
    if sub <= s {
      assert OccursAt(s, sub, 0);
    }
    if s != [] {
      ContainsAt(s[1..], sub);
      if Contains(s[1..], sub) {
        var k: nat :| OccursAt(s[1..], sub, k);
        assert s[k + 1..k + 1 + |sub|] == s[1..][k..k + |sub|];
        assert OccursAt(s, sub, k + 1);
      }
    }
    if exists k: nat :: OccursAt(s, sub, k) {
      var k: nat :| OccursAt(s, sub, k);
      if k == 0 {
        assert sub <= s;
      } else {
        assert s[1..][k - 1..k - 1 + |sub|] == s[k..k + |sub|];
        assert OccursAt(s[1..], sub, k - 1);
      }
    }
  }

  /** The case-insensitive search every screen uses: `hay.toLowerCase().includes(query.toLowerCase())`. */
  predicate Matches(hay: string, query: string) {
    Contains(ToLower(hay), ToLower(query))
  }

  /** An empty search query matches every string. */
  lemma EmptyQueryMatches(hay: string)
    ensures Matches(hay, "")
  {
    assert ToLower("") == "";
  }

  /** A non-empty match cannot come from a string shorter than the query. */
  lemma MatchNeedsLength(hay: string, query: string)
    requires Matches(hay, query)
    ensures |query| <= |hay|
  {
    ContainsAt(ToLower(hay), ToLower(query));
  }
}
