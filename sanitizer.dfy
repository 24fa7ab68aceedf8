/**
 * `clean_text` (app.py): the sanitiser applied to every completion before it is
 * parsed. Its two regular-expression substitutions are written out as the
 * left-to-right scans that Python's `re.sub` performs:
 *
 *   1. `<think>.*?</think>` with DOTALL and IGNORECASE: from a case-insensitive
 *      `<think>`, delete through the nearest following `</think>` (newlines
 *      included) and resume after it; with no closing tag, that position does
 *      not match and the scan moves one character on.
 *   2. `<.*?>` without DOTALL: from a `<`, delete through the first `>` that
 *      comes before any newline; if there is none, keep the `<` and move on.
 *   3. `strip()`.
 */
module Sanitizer {
  import opened Wrappers
  import opened Text

  const ThinkOpen: string := "<think>"
  const ThinkClose: string := "</think>"

  // ---------------------------------------------------------------------------
  // Step 1: reasoning spans
  // ---------------------------------------------------------------------------

  /** The end of the nearest `</think>` that starts at or after `i`, if any. */
  function FindThinkClose(s: string, i: nat): (r: Option<nat>)
    ensures r.Some? ==> i + |ThinkClose| <= r.value <= |s| && MatchesAt(s, r.value - |ThinkClose|, ThinkClose)
    ensures r.Some? ==> forall p :: i <= p < r.value - |ThinkClose| ==> !MatchesAt(s, p, ThinkClose)
    ensures r.None? ==> forall p :: i <= p ==> !MatchesAt(s, p, ThinkClose)
    decreases |s| - i
  {
    if i + |ThinkClose| > |s| then None
    else if MatchesAt(s, i, ThinkClose) then Some(i + |ThinkClose|)
    else FindThinkClose(s, i + 1)
  }

  /** Where the reasoning span that starts at `s[0]` ends, if one starts there. */
  function ThinkSpanEnd(s: string): (r: Option<nat>)
    ensures r.Some? ==> |ThinkOpen| + |ThinkClose| <= r.value <= |s|
    ensures r.Some? ==> s[0] == '<'
  {
    // `<` folds to nothing but itself, so the pattern can only start at a `<`.
    if s != [] && s[0] == '<' && MatchesAt(s, 0, ThinkOpen) then
      FindThinkClose(s, |ThinkOpen|)
    else None
  }

  /** `re.sub(r"<think>.*?</think>", "", s, flags=re.S | re.I)` */
  function RemoveThink(s: string): (r: string)
    ensures |r| <= |s|
    decreases |s|
  {
    if s == [] then []
    else match ThinkSpanEnd(s)
      case Some(e) => RemoveThink(s[e..])
      case None => [s[0]] + RemoveThink(s[1..])
  }

  /** Whether a pattern matches depends only on the characters it covers. */
  lemma MatchesAtSlice(s: string, i: nat, t: string, j: nat, pat: string)
    requires i + |pat| <= |s| && j + |pat| <= |t|
    requires s[i..i + |pat|] == t[j..j + |pat|]
    ensures MatchesAt(s, i, pat) <==> MatchesAt(t, j, pat)
  {
    forall k | 0 <= k < |pat| ensures FoldsTo(s[i + k], pat[k]) == FoldsTo(t[j + k], pat[k]) {
      assert s[i + k] == s[i..i + |pat|][k];
      assert t[j + k] == t[j..j + |pat|][k];
    }
  }

  /** Only position 0 of `</think>` is a `<`, so no closing tag can start inside another. */
  lemma ThinkCloseOneOpener(q: nat)
    requires 1 <= q < |ThinkClose|
    ensures !FoldsTo('<', ThinkClose[q])
  {
    assert ThinkClose[1] == '/' && ThinkClose[2] == 't' && ThinkClose[3] == 'h' && ThinkClose[4] == 'i';
    assert ThinkClose[5] == 'n' && ThinkClose[6] == 'k' && ThinkClose[7] == '>';
  }

  /** No closing tag starts inside the span, not even one overlapping the real closing tag. */
  lemma NoCloseInside(s: string, open: string, mid: string, close: string, b: string, p: nat)
    requires s == open + mid + close + b
    requires |close| == |ThinkClose| && MatchesAt(close, 0, ThinkClose)
    requires forall p :: 0 <= p < |mid| ==> !MatchesAt(mid, p, ThinkClose)
    requires |open| <= p < |open| + |mid|
    ensures !MatchesAt(s, p, ThinkClose)
  {
    var c := |open| + |mid|;
    if p + |ThinkClose| <= c {
      assert s[p..p + |ThinkClose|] == mid[p - |open|..p - |open| + |ThinkClose|];
      MatchesAtSlice(s, p, mid, p - |open|, ThinkClose);
    } else {
      var q := c - p;
      assert FoldsTo(close[0], ThinkClose[0]);
      assert s[p + q] == close[0] == '<';
      ThinkCloseOneOpener(q);
    }
  }

  /** A span that opens at the very start ends right after its closing tag. */
  lemma ThinkSpanAtStart(open: string, mid: string, close: string, b: string)
    requires |open| == |ThinkOpen| && MatchesAt(open, 0, ThinkOpen)
    requires |close| == |ThinkClose| && MatchesAt(close, 0, ThinkClose)
    requires forall p :: 0 <= p < |mid| ==> !MatchesAt(mid, p, ThinkClose)
    ensures ThinkSpanEnd(open + mid + close + b) == Some(|open| + |mid| + |close|)
  {
    var s := open + mid + close + b;
    var c := |open| + |mid|;
    assert s[0..|ThinkOpen|] == open[0..|ThinkOpen|];
    MatchesAtSlice(s, 0, open, 0, ThinkOpen);
    assert FoldsTo(open[0], ThinkOpen[0]) && s[0] == open[0];
    assert s[c..c + |ThinkClose|] == close[0..|ThinkClose|];
    MatchesAtSlice(s, c, close, 0, ThinkClose);
    forall p | |open| <= p < c
      ensures !MatchesAt(s, p, ThinkClose)
    {
      NoCloseInside(s, open, mid, close, b, p);
    }
  }

  /** A position where no opener starts is kept by the reasoning scan, which moves one character on. */
  lemma RemoveThinkKeeps(s: string)
    requires s != [] && !MatchesAt(s, 0, ThinkOpen)
    ensures RemoveThink(s) == [s[0]] + RemoveThink(s[1..])
  {
    assert ThinkSpanEnd(s).None?;
  }

  /** A span at the very start is dropped and the scan resumes after it. */
  lemma RemoveThinkDrops(open: string, mid: string, close: string, b: string)
    requires |open| == |ThinkOpen| && MatchesAt(open, 0, ThinkOpen)
    requires |close| == |ThinkClose| && MatchesAt(close, 0, ThinkClose)
    requires forall p :: 0 <= p < |mid| ==> !MatchesAt(mid, p, ThinkClose)
    ensures RemoveThink(open + mid + close + b) == RemoveThink(b)
  {
    var s := open + mid + close + b;
    ThinkSpanAtStart(open, mid, close, b);
    assert s[|open| + |mid| + |close|..] == b;
  }

  /** No case-insensitive `<think>` lies wholly inside `a`. */
  predicate NoOpenerIn(a: string) {
    forall p :: 0 <= p && p + |ThinkOpen| <= |a| ==> !MatchesAt(a, p, ThinkOpen)
  }

  /** Only position 0 of `<think>` is a `<`, so no opener can start inside another. */
  lemma ThinkOpenOneOpener(q: nat)
    requires 1 <= q < |ThinkOpen|
    ensures !FoldsTo('<', ThinkOpen[q])
  {
    assert ThinkOpen[1] == 't' && ThinkOpen[2] == 'h' && ThinkOpen[3] == 'i';
    assert ThinkOpen[4] == 'n' && ThinkOpen[5] == 'k' && ThinkOpen[6] == '>';
  }

  /**
   * When `t` starts with a `<`, an opener starting in `a` lies wholly inside
   * `a`: it cannot run on into `t`.
   */
  lemma OpenerStaysInside(a: string, t: string, p: nat)
    requires NoOpenerIn(a) && t != [] && t[0] == '<' && p < |a|
    ensures !MatchesAt(a + t, p, ThinkOpen)
  {
    var s := a + t;
    if p + |ThinkOpen| <= |a| {
      assert s[p..p + |ThinkOpen|] == a[p..p + |ThinkOpen|];
      if p + |ThinkOpen| <= |s| {
        MatchesAtSlice(s, p, a, p, ThinkOpen);
      }
    } else {
      var q := |a| - p;
      assert s[p + q] == '<';
      ThinkOpenOneOpener(q);
    }
  }

  /** Matching at position `p` of the tail is matching one place further on in the whole. */
  lemma MatchesAtTail(s: string, p: nat, pat: string)
    requires s != []
    ensures MatchesAt(s[1..], p, pat) <==> MatchesAt(s, p + 1, pat)
  {
    if p + |pat| <= |s| - 1 {
      assert s[1..][p..p + |pat|] == s[p + 1..p + 1 + |pat|];
      MatchesAtSlice(s[1..], p, s, p + 1, pat);
    }
  }

  /**
   * A reasoning span is deleted whole, delimiters included, whatever the case
   * of its tags and whatever newlines it holds, when no opener lies in the
   * text before it and the text inside it holds no closing tag; the text
   * before it is kept and the scan resumes right after the closing tag.
   */
  lemma ThinkSpanRemoved(a: string, open: string, mid: string, close: string, b: string)
    requires NoOpenerIn(a)
    requires |open| == |ThinkOpen| && MatchesAt(open, 0, ThinkOpen)
    requires |close| == |ThinkClose| && MatchesAt(close, 0, ThinkClose)
    requires forall p :: 0 <= p < |mid| ==> !MatchesAt(mid, p, ThinkClose)
    ensures RemoveThink(a + open + mid + close + b) == a + RemoveThink(b)
  {
    var t := open + mid + close + b;
    assert a + open + mid + close + b == a + t;
    assert FoldsTo(open[0], ThinkOpen[0]) && t[0] == open[0];
    forall p | 0 <= p < |a| ensures !MatchesAt(a + t, p, ThinkOpen) {
      OpenerStaysInside(a, t, p);
    }
    RemoveThinkPrefix(a, t);
    RemoveThinkDrops(open, mid, close, b);
  }

  /** If no opener starts in the first `|a|` places, none starts in the first `|a| - 1` of the tail. */
  lemma NoOpenerTail(a: string, t: string)
    requires a != [] && forall p :: 0 <= p < |a| ==> !MatchesAt(a + t, p, ThinkOpen)
    ensures forall p :: 0 <= p < |a| - 1 ==> !MatchesAt(a[1..] + t, p, ThinkOpen)
  {
    var s := a + t;
    assert s[1..] == a[1..] + t;
    forall p | 0 <= p < |a| - 1 ensures !MatchesAt(a[1..] + t, p, ThinkOpen) {
      MatchesAtTail(s, p, ThinkOpen);
    }
  }

  /** Text in which no opener starts passes the reasoning scan unchanged, whatever follows it. */
  lemma {:induction false} RemoveThinkPrefix(a: string, t: string)
    requires forall p :: 0 <= p < |a| ==> !MatchesAt(a + t, p, ThinkOpen)
    ensures RemoveThink(a + t) == a + RemoveThink(t)
    decreases |a|
  {
    if a == [] {
      assert a + t == t;
    } else {
      RemoveThinkCons(a, t);
      NoOpenerTail(a, t);
      RemoveThinkPrefix(a[1..], t);
      ConsConcat(a, RemoveThink(t));
    }
  }

  /** Putting the head back in front of the tail gives the whole. */
  lemma ConsConcat(a: string, r: string)
    requires a != []
    ensures [a[0]] + (a[1..] + r) == a + r
  {
    assert a == [a[0]] + a[1..];
  }

  /** The first character of `a` opens no span, so the scan keeps it and goes on with the rest. */
  lemma RemoveThinkCons(a: string, t: string)
    requires a != [] && !MatchesAt(a + t, 0, ThinkOpen)
    ensures RemoveThink(a + t) == [a[0]] + RemoveThink(a[1..] + t)
  {
    var s := a + t;
    assert s[0] == a[0] && s[1..] == a[1..] + t;
    RemoveThinkKeeps(s);
  }

  /** Text too short to hold a span passes the reasoning scan unchanged. */
  lemma {:induction false} TailUnchanged(s: string)
    requires |s| < |ThinkOpen| + |ThinkClose|
    ensures RemoveThink(s) == s
    decreases |s|
  {
    if s != [] {
      assert ThinkSpanEnd(s).None?;
      TailUnchanged(s[1..]);
      assert s == [s[0]] + s[1..];
    }
  }

  /** A sample span written with tags in any letter case goes, newline and all. */
  lemma SampleSpanRemoved(open: string, close: string)
    requires |open| == |ThinkOpen| && MatchesAt(open, 0, ThinkOpen)
    requires |close| == |ThinkClose| && MatchesAt(close, 0, ThinkClose)
    ensures RemoveThink("A" + open + "x\ny" + close + "C") == "AC"
  {
    ThinkSpanRemoved("A", open, "x\ny", close, "C");
    TailUnchanged("C");
  }

  /** Mixed-case tags match the reasoning delimiters. */
  lemma SampleTagsMatch()
    ensures MatchesAt("<ThInK>", 0, ThinkOpen) && MatchesAt("</think>", 0, ThinkClose)
  {
    assert ThinkOpen == "<think>";
  }

  /** The sample completion, cut at the span's delimiters. */
  lemma SampleParts()
    ensures "A" + "<ThInK>" + "x\ny" + "</think>" + "C" == "A<ThInK>x\ny</think>C"
  {
    assert "A" + "<ThInK>" == "A<ThInK>";
    assert "A<ThInK>" + "x\ny" == "A<ThInK>x\ny";
    assert "A<ThInK>x\ny" + "</think>" == "A<ThInK>x\ny</think>";
  }

  /** The reasoning span of a sample completion goes, tags, newline and all. */
  lemma ThinkSpanExample()
    ensures RemoveThink("A<ThInK>x\ny</think>C") == "AC"
  {
    SampleTagsMatch();
    SampleSpanRemoved("<ThInK>", "</think>");
    SampleParts();
  }

  /** The same completion after all of `clean_text`. */
  lemma CleanTextExample()
    ensures CleanText("A<ThInK>x\ny</think>C") == "AC"
  {
    ThinkSpanExample();
    assert NoTags("AC") by {
      assert "AC"[1..] == "C";
    }
    NoTagsFixpoint("AC");
    StrippedFixpoint("AC");
  }

  // ---------------------------------------------------------------------------
  // Step 2: one-line tags
  // ---------------------------------------------------------------------------

  /** No `>` occurs in `s` before its first newline. */
  predicate LineClear(s: string)
    decreases |s|
  {
    s == [] || s[0] == '\n' || (s[0] != '>' && LineClear(s[1..]))
  }

  /** No `<` in `s` is followed, on the same line, by a `>`. */
  predicate NoTags(s: string)
    decreases |s|
  {
    s == [] || ((s[0] == '<' ==> LineClear(s[1..])) && NoTags(s[1..]))
  }

  /** The index of the first `>` at or after `i` that comes before any newline. */
  function TagEnd(s: string, i: nat): (r: Option<nat>)
    requires i <= |s|
    ensures r.Some? ==> i <= r.value < |s| && s[r.value] == '>'
    ensures r.Some? ==> forall k :: i <= k < r.value ==> s[k] != '>' && s[k] != '\n'
    ensures r.None? <==> LineClear(s[i..])
    decreases |s| - i
  {
    if i == |s| then None
    else if s[i] == '\n' then None
    else if s[i] == '>' then Some(i)
    else
      assert s[i..][1..] == s[i + 1..];
      TagEnd(s, i + 1)
  }

  /** `re.sub(r"<.*?>", "", s)` */
  function RemoveTags(s: string): (r: string)
    ensures |r| <= |s|
    decreases |s|
  {
    if s == [] then []
    else if s[0] == '<' then
      match TagEnd(s, 1)
      case Some(j) => RemoveTags(s[j + 1..])
      case None => "<" + RemoveTags(s[1..])
    else [s[0]] + RemoveTags(s[1..])
  }

  /** The scan stops at the first `>` when no newline comes before it. */
  lemma {:induction false} TagEndFinds(s: string, i: nat, j: nat)
    requires i <= j < |s| && s[j] == '>'
    requires forall k :: i <= k < j ==> s[k] != '>' && s[k] != '\n'
    ensures TagEnd(s, i) == Some(j)
    decreases j - i
  {
    if i < j {
      TagEndFinds(s, i + 1, j);
    }
  }

  /**
   * A one-line tag at the start is deleted through its first `>`, the lazy
   * `.*?`, and the scan resumes right after it.
   */
  lemma RemoveTagsDrops(x: string, b: string)
    requires '>' !in x && '\n' !in x
    ensures RemoveTags("<" + x + ">" + b) == RemoveTags(b)
  {
    var s := "<" + x + ">" + b;
    var j := |x| + 1;
    forall k | 1 <= k < j ensures s[k] != '>' && s[k] != '\n' {
      assert s[k] == x[k - 1];
    }
    TagEndFinds(s, 1, j);
    assert s[j + 1..] == b;
  }

  /** `"b>"` holds no tag and passes the tag scan unchanged. */
  lemma TagTailUnchanged()
    ensures RemoveTags("b>") == "b>"
  {
    assert "b>"[1..] == ">";
    assert ">"[1..] == [];
  }

  /** `<a>b>` loses `<a>` only: the match ends at the first `>`, not the last. */
  lemma LazyTagExample()
    ensures RemoveTags("<a>b>") == "b>"
  {
    RemoveTagsDrops("a", "b>");
    assert "<" + "a" + ">" + "b>" == "<a>b>";
    TagTailUnchanged();
  }

  // ---------------------------------------------------------------------------
  // clean_text
  // ---------------------------------------------------------------------------

  /**
   * `clean_text(text)`: empty text stays empty; otherwise the three steps in
   * order. The result has no whitespace at either end and no one-line tag left.
   */
  function CleanText(s: string): (r: string)
    ensures s == [] ==> r == []
    ensures IsStripped(r)
    ensures NoTags(r) && TagFree(r)
    ensures |r| <= |s|
  {
    if s == [] then []
    else
      var t := RemoveTags(RemoveThink(s));
      RemoveTagsNoTags(RemoveThink(s));
      NoTagsStrip(t);
      NoTagsMeaning(Strip(t));
      Strip(t)
  }

  // ---------------------------------------------------------------------------
  // What the tag scan leaves
  // ---------------------------------------------------------------------------

  /** Removing tags from a line without `>` before its newline keeps it so. */
  lemma {:induction false} RemoveTagsLineClear(s: string)
    requires LineClear(s)
    ensures LineClear(RemoveTags(s))
    decreases |s|
  {
    if s == [] || s[0] == '\n' {
    } else {
      RemoveTagsLineClear(s[1..]);
      if s[0] == '<' {
        assert TagEnd(s, 1).None?;
        assert ("<" + RemoveTags(s[1..]))[1..] == RemoveTags(s[1..]);
      } else {
        assert ([s[0]] + RemoveTags(s[1..]))[1..] == RemoveTags(s[1..]);
      }
    }
  }

  /** The tag scan leaves no `<` followed on its line by `>`. */
  lemma {:induction false} RemoveTagsNoTags(s: string)
    ensures NoTags(RemoveTags(s))
    decreases |s|
  {
    if s == [] {
    } else if s[0] == '<' {
      match TagEnd(s, 1)
      case Some(j) => RemoveTagsNoTags(s[j + 1..]);
      case None =>
        RemoveTagsNoTags(s[1..]);
        RemoveTagsLineClear(s[1..]);
        assert ("<" + RemoveTags(s[1..]))[1..] == RemoveTags(s[1..]);
    } else {
      RemoveTagsNoTags(s[1..]);
      assert ([s[0]] + RemoveTags(s[1..]))[1..] == RemoveTags(s[1..]);
    }
  }

  /** Text without one-line tags passes the tag scan unchanged. */
  lemma {:induction false} NoTagsFixpoint(s: string)
    requires NoTags(s)
    ensures RemoveTags(s) == s
    decreases |s|
  {
    if s != [] {
      NoTagsFixpoint(s[1..]);
      if s[0] == '<' {
        assert TagEnd(s, 1).None?;
      }
    }
  }

  /** A `<think>` opening is itself a one-line tag. */
  lemma ThinkOpenIsTag(s: string)
    requires MatchesAt(s, 0, ThinkOpen)
    ensures !NoTags(s)
  {
    assert ThinkOpen[0] == '<' && ThinkOpen[6] == '>';
    assert FoldsTo(s[0], ThinkOpen[0]) && FoldsTo(s[6], ThinkOpen[6]);
    forall k | 1 <= k < 6
      ensures s[k] != '\n' && s[k] != '>'
    {
      assert FoldsTo(s[k], ThinkOpen[k]);
    }
    LineBlocked(s[1..], 5);
  }

  /** A `>` reached before any newline makes the line not clear. */
  lemma {:induction false} LineBlocked(s: string, n: nat)
    requires n < |s| && s[n] == '>'
    requires forall k :: 0 <= k < n ==> s[k] != '\n'
    ensures !LineClear(s)
    decreases n
  {
    if n > 0 {
      LineBlocked(s[1..], n - 1);
    }
  }

  /** Text without one-line tags has no reasoning span either. */
  lemma {:induction false} NoTagsNoThink(s: string)
    requires NoTags(s)
    ensures RemoveThink(s) == s
    decreases |s|
  {
    if s != [] {
      if MatchesAt(s, 0, ThinkOpen) {
        ThinkOpenIsTag(s);
      }
      NoTagsNoThink(s[1..]);
    }
  }

  /** A line clear of `>` stays clear when cut short. */
  lemma {:induction false} LineClearPrefix(s: string, k: nat)
    requires LineClear(s) && k <= |s|
    ensures LineClear(s[..k])
    decreases |s|
  {
    if k > 0 && s[0] != '\n' {
      LineClearPrefix(s[1..], k - 1);
      assert s[..k][1..] == s[1..][..k - 1];
    }
  }

  /** Any slice of tag-free text is tag-free. */
  lemma {:induction false} NoTagsSlice(s: string, a: nat, b: nat)
    requires NoTags(s) && a <= b <= |s|
    ensures NoTags(s[a..b])
    decreases |s|
  {
    if a > 0 {
      NoTagsSlice(s[1..], a - 1, b - 1);
      assert s[1..][a - 1..b - 1] == s[a..b];
    } else if b > 0 {
      NoTagsSlice(s[1..], 0, b - 1);
      assert s[..b][1..] == s[1..][..b - 1];
      if s[0] == '<' {
        LineClearPrefix(s[1..], b - 1);
      }
    }
  }

  lemma NoTagsStrip(s: string)
    requires NoTags(s)
    ensures NoTags(Strip(s))
  {
    StripSlice(s);
    NoTagsSlice(s, StripStart(s), StripStart(s) + |Strip(s)|);
  }

  /**
   * The plain reading of "no tag left": no `<` is followed by newline-free
   * characters and then a `>`.
   */
  predicate TagFree(s: string) {
    forall i, j :: 0 <= i < j < |s| && s[i] == '<' && s[j] == '>' ==> '\n' in s[i + 1..j]
  }

  /** A slice of the tail is the slice of the whole one place further on. */
  lemma TailSlice(s: string, i: nat, j: nat)
    requires s != [] && i <= j <= |s| - 1
    ensures s[1..][i..j] == s[i + 1..j + 1]
  {
  }

  /** The plain reading of `LineClear`: every `>` has a newline before it. */
  lemma {:induction false} LineClearMeaning(t: string)
    ensures LineClear(t) <==> forall j :: 0 <= j < |t| && t[j] == '>' ==> '\n' in t[..j]
    decreases |t|
  {
    if t == [] {
    } else if t[0] == '\n' {
      forall j | 0 <= j < |t| && t[j] == '>' ensures '\n' in t[..j] {
        assert t[..j][0] == '\n';
      }
    } else if t[0] == '>' {
      assert t[..0] == [];
    } else {
      LineClearMeaning(t[1..]);
      forall j | 1 <= j <= |t| ensures ('\n' in t[..j]) == ('\n' in t[1..][..j - 1]) {
        assert t[..j] == [t[0]] + t[1..][..j - 1];
      }
      if LineClear(t) {
        forall j | 0 <= j < |t| && t[j] == '>' ensures '\n' in t[..j] {
          assert t[1..][j - 1] == '>';
        }
      } else {
        var j' :| 0 <= j' < |t[1..]| && t[1..][j'] == '>' && '\n' !in t[1..][..j'];
        assert t[j' + 1] == '>';
      }
    }
  }

  /** The recursive `NoTags` and the plain `TagFree` say the same thing. */
  lemma {:induction false} NoTagsMeaning(s: string)
    ensures NoTags(s) <==> TagFree(s)
    decreases |s|
  {
    if s != [] {
      var t := s[1..];
      NoTagsMeaning(t);
      LineClearMeaning(t);
      forall j | 1 <= j < |s| ensures s[1..j] == t[..j - 1] {}
      if NoTags(s) {
        forall i, j | 0 <= i < j < |s| && s[i] == '<' && s[j] == '>' ensures '\n' in s[i + 1..j] {
          if i == 0 {
            assert t[j - 1] == '>';
          } else {
            assert t[i - 1] == '<' && t[j - 1] == '>';
            TailSlice(s, i, j - 1);
          }
        }
      } else if s[0] == '<' && !LineClear(t) {
        var j' :| 0 <= j' < |t| && t[j'] == '>' && '\n' !in t[..j'];
        assert s[j' + 1] == '>';
      } else {
        var i', j' :| 0 <= i' < j' < |t| && t[i'] == '<' && t[j'] == '>' && '\n' !in t[i' + 1..j'];
        assert s[i' + 1] == '<' && s[j' + 1] == '>';
        assert s[i' + 2..j' + 1] == t[i' + 1..j'];
      }
    }
  }

  // ---------------------------------------------------------------------------
  // Properties of clean_text
  // ---------------------------------------------------------------------------

  /** Cleaning is idempotent: cleaned text is a fixpoint of every step. */
  lemma CleanTextIdempotent(s: string)
    ensures CleanText(CleanText(s)) == CleanText(s)
  {
    var r := CleanText(s);
    if r != [] {
      NoTagsNoThink(r);
      NoTagsFixpoint(r);
      StrippedFixpoint(r);
    }
  }
}
