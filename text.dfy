/**
 * Character-level facts the pipeline relies on: the whitespace that Python's
 * `str.strip()` removes, `strip` itself, and the case folding that a regular
 * expression compiled with `re.IGNORECASE` applies to a literal pattern.
 */
module Text {

  /** The characters for which Python's `str.isspace()` holds. */
  predicate IsSpace(c: char) {
    || ('\t' <= c <= '\r')
    || ('\U{1C}' <= c <= '\U{1F}')
    || c == ' '
    || c == '\U{85}'
    || c == '\U{A0}'
    || c == '\U{1680}'
    || ('\U{2000}' <= c <= '\U{200A}')
    || c == '\U{2028}'
    || c == '\U{2029}'
    || c == '\U{202F}'
    || c == '\U{205F}'
    || c == '\U{3000}'
  }

  predicate AllSpace(s: string) {
    forall k :: 0 <= k < |s| ==> IsSpace(s[k])
  }

  /** What `strip()` leaves: no whitespace at either end. */
  predicate IsStripped(s: string) {
    s == [] || (!IsSpace(s[0]) && !IsSpace(s[|s| - 1]))
  }

  /** `lstrip()`: drops the leading whitespace, keeping the rest as a suffix. */
  function TrimStart(s: string): (r: string)
    ensures |r| <= |s| && r == s[|s| - |r|..]
    ensures r == [] || !IsSpace(r[0])
  {
    if s != [] && IsSpace(s[0]) then TrimStart(s[1..]) else s
  }

  /** What `lstrip()` cuts off is whitespace. */
  lemma {:induction false} TrimStartCut(s: string)
    ensures AllSpace(s[..|s| - |TrimStart(s)|])
    decreases |s|
  {
    if s != [] && IsSpace(s[0]) {
      var u := s[1..];
      var n := |u| - |TrimStart(u)|;
      TrimStartCut(u);
      forall k | 0 <= k < n + 1 ensures IsSpace(s[k]) {
        if k > 0 {
          assert s[k] == u[..n][k - 1];
        }
      }
    }
  }

  /** `rstrip()`: drops the trailing whitespace, keeping the rest as a prefix. */
  function TrimEnd(s: string): (r: string)
    ensures |r| <= |s| && r == s[..|r|]
    ensures r == [] || !IsSpace(r[|r| - 1])
  {
    if s != [] && IsSpace(s[|s| - 1]) then TrimEnd(s[..|s| - 1]) else s
  }

  /** What `rstrip()` cuts off is whitespace. */
  lemma {:induction false} TrimEndCut(s: string)
    ensures AllSpace(s[|TrimEnd(s)|..])
    decreases |s|
  {
    if s != [] && IsSpace(s[|s| - 1]) {
      var u := s[..|s| - 1];
      var m := |TrimEnd(u)|;
      TrimEndCut(u);
      forall k | m <= k < |s| ensures IsSpace(s[k]) {
        if k < |u| {
          assert s[k] == u[m..][k - m];
        }
      }
    }
  }

  /** `strip()`: both ends trimmed, so nothing is left at either end to cut. */
  function Strip(s: string): (r: string)
    ensures IsStripped(r)
    ensures |r| <= |s|
  {
    var t := TrimStart(s);
    var r := TrimEnd(t);
    assert r != [] ==> r[0] == t[0];
    r
  }

  /** Where the slice that `strip()` keeps begins in its input. */
  function StripStart(s: string): (a: nat)
    ensures a <= |s|
  {
    |s| - |TrimStart(s)|
  }

  /**
   * What `strip()` keeps is a slice of the input, and everything it cuts off
   * on either side is whitespace.
   */
  lemma StripSlice(s: string)
    ensures StripStart(s) + |Strip(s)| <= |s|
    ensures Strip(s) == s[StripStart(s)..StripStart(s) + |Strip(s)|]
    ensures AllSpace(s[..StripStart(s)]) && AllSpace(s[StripStart(s) + |Strip(s)|..])
  {
    var t := TrimStart(s);
    var r := TrimEnd(t);
    var a := |s| - |t|;
    TrimStartCut(s);
    TrimEndCut(t);
    assert s[a..a + |r|] == r;
    assert s[a + |r|..] == t[|r|..];
  }

  /** `strip()` yields the empty string exactly when the input is all whitespace. */
  lemma StripEmpty(s: string)
    ensures Strip(s) == [] <==> AllSpace(s)
  {
    var t := TrimStart(s);
    var a := StripStart(s);
    StripSlice(s);
    if Strip(s) == [] {
      assert AllSpace(s[..a]) && AllSpace(t);
      assert s == s[..a] + t;
    }
  }

  /** `lstrip()` removes exactly a whitespace prefix. */
  lemma {:induction false} TrimStartSpaces(p: string, t: string)
    requires AllSpace(p) && (t == [] || !IsSpace(t[0]))
    ensures TrimStart(p + t) == t
    decreases |p|
  {
    if p == [] {
      assert p + t == t;
    } else {
      assert (p + t)[1..] == p[1..] + t;
      TrimStartSpaces(p[1..], t);
    }
  }

  /** `rstrip()` removes exactly a whitespace suffix. */
  lemma {:induction false} TrimEndSpaces(t: string, q: string)
    requires AllSpace(q) && (t == [] || !IsSpace(t[|t| - 1]))
    ensures TrimEnd(t + q) == t
    decreases |q|
  {
    if q == [] {
      assert t + q == t;
    } else {
      assert (t + q)[..|t + q| - 1] == t + q[..|q| - 1];
      TrimEndSpaces(t, q[..|q| - 1]);
    }
  }

  /** Stripping whitespace padding from stripped text gives that text back. */
  lemma StripAround(p: string, x: string, q: string)
    requires AllSpace(p) && AllSpace(q) && IsStripped(x) && x != []
    ensures Strip(p + x + q) == x
  {
    assert p + x + q == p + (x + q);
    TrimStartSpaces(p, x + q);
    TrimEndSpaces(x, q);
  }

  /** Stripping text that is already stripped changes nothing. */
  lemma StrippedFixpoint(s: string)
    requires IsStripped(s)
    ensures Strip(s) == s
  {
  }

  /**
   * `c` matches the pattern character `p` (a lower-case letter or a non-letter)
   * under `re.IGNORECASE` on a `str` pattern: the ASCII case pair, and for the
   * letters `i` and `k` also the non-ASCII letters Python's `re` documentation
   * lists as matching them (U+0130, U+0131 and U+212A).
   */
  predicate FoldsTo(c: char, p: char) {
    || c == p
    || ('a' <= p <= 'z' && c as int == p as int - 32)
    || (p == 'i' && (c == '\U{130}' || c == '\U{131}'))
    || (p == 'k' && c == '\U{212A}')
  }

  /** The pattern `pat` matches case-insensitively at position `i` of `s`. */
  predicate MatchesAt(s: string, i: nat, pat: string) {
    i + |pat| <= |s| && forall k :: 0 <= k < |pat| ==> FoldsTo(s[i + k], pat[k])
  }
}
