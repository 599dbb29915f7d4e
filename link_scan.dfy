/** The payment-link scanner: a search for the first match of the regular
    expression `https?://\S+` in the processor's free text, as Python's
    `re.search` finds it (leftmost start, then the greedy `\S+`). */
module LinkScan {
  import opened Messages

  /** Python's `\s` on `str` patterns: the Unicode whitespace characters
      (`str.isspace`). It covers `[ \t\n\r\f\v]` and leaves out every
      visible ASCII character, so those can all stand in a link. */
  predicate IsSpace(c: char): (b: bool)
    ensures c == ' ' || c == '\t' || c == '\n' || c == '\r' || c == '\U{0B}' || c == '\U{0C}' ==> b
    ensures '!' <= c <= '~' ==> !b
  {
    ('\t' <= c <= '\r') || ('\U{1C}' <= c <= ' ') || c == '\U{85}' || c == '\U{A0}'
    || c == '\U{1680}' || ('\U{2000}' <= c <= '\U{200A}') || c == '\U{2028}'
    || c == '\U{2029}' || c == '\U{202F}' || c == '\U{205F}' || c == '\U{3000}'
  }

  const Http: string := "http://"
  const Https: string := "https://"

  /** `p` occurs in `t` starting at index `i`. */
  predicate HasAt(t: string, i: nat, p: string) {
    i + |p| <= |t| && t[i..i + |p|] == p
  }

  /** No character of `t[s..e]` is whitespace. */
  predicate NoSpaceIn(t: string, s: nat, e: nat) {
    forall k :: s <= k < e && k < |t| ==> !IsSpace(t[k])
  }

  /** The pattern `https?://\S` can start at index `i`: the shortest prefix
      every match of `https?://\S+` has. */
  predicate MatchesAt(t: string, i: nat) {
    || (HasAt(t, i, Http) && i + |Http| < |t| && !IsSpace(t[i + |Http|]))
    || (HasAt(t, i, Https) && i + |Https| < |t| && !IsSpace(t[i + |Https|]))
  }

  /** Reference definition: `t[s..e]` is in the language of `https?://\S+`. */
  ghost predicate IsMatch(t: string, s: nat, e: nat) {
    && s < e <= |t|
    && ((HasAt(t, s, Http) && s + |Http| < e) || (HasAt(t, s, Https) && s + |Https| < e))
    && NoSpaceIn(t, s, e)
  }

  /** Reference definition of what `re.search` reports: the match that starts
      leftmost, and of those the longest (the greedy `\S+`). */
  ghost predicate IsSearchResult(t: string, s: nat, e: nat) {
    && IsMatch(t, s, e)
    && (forall s': nat, e': nat :: s' < s ==> !IsMatch(t, s', e'))
    && (forall e': nat :: e < e' ==> !IsMatch(t, s, e'))
  }

  /** A span `t[start..end]` of the searched text. */
  datatype Span = Span(start: nat, end: nat)

  /** The end of the run of non-whitespace characters that starts at `j`. */
  function RunEnd(t: string, j: nat): (e: nat)
    requires j <= |t|
    ensures j <= e <= |t|
    ensures NoSpaceIn(t, j, e)
    ensures e == |t| || IsSpace(t[e])
    decreases |t| - j
  {
    if j == |t| || IsSpace(t[j]) then j else RunEnd(t, j + 1)
  }

  /** The first index at or after `i` where the pattern can start. */
  function FirstMatchFrom(t: string, i: nat): (r: Option<nat>)
    requires i <= |t|
    ensures r.Some? ==> i <= r.value < |t| && MatchesAt(t, r.value)
    ensures forall k :: i <= k && (r.None? || k < r.value) ==> !MatchesAt(t, k)
    decreases |t| - i
  {
    if i == |t| then None
    else if MatchesAt(t, i) then Some(i)
    else FirstMatchFrom(t, i + 1)
  }

  /** A non-whitespace run from `j` that stops at whitespace or the end of
      the text is the one `RunEnd` measures. */
  lemma {:induction false} RunEndUnique(t: string, j: nat, e: nat)
    requires j <= e <= |t| && NoSpaceIn(t, j, e)
    requires e == |t| || IsSpace(t[e])
    ensures RunEnd(t, j) == e
    decreases e - j
  {
    if j < e {
      RunEndUnique(t, j + 1, e);
    }
  }

  /** A non-whitespace stretch from `j` to `k` lies inside the run `RunEnd`
      measures. */
  lemma {:induction false} RunEndPast(t: string, j: nat, k: nat)
    requires j <= k <= |t| && NoSpaceIn(t, j, k)
    ensures k <= RunEnd(t, j)
    decreases k - j
  {
    if j < k {
      RunEndPast(t, j + 1, k);
    }
  }

  /** Every match starts where the pattern can start. */
  lemma MatchStartsPattern(t: string, s: nat, e: nat)
    requires IsMatch(t, s, e)
    ensures MatchesAt(t, s)
  {
    if HasAt(t, s, Http) && s + |Http| < e {
      assert !IsSpace(t[s + |Http|]);
    } else {
      assert !IsSpace(t[s + |Https|]);
    }
  }

  /** Where the pattern can start, the run of non-whitespace is a match, and
      no match from there is longer. */
  lemma PatternGivesLongestMatch(t: string, s: nat)
    requires s <= |t| && MatchesAt(t, s)
    ensures IsMatch(t, s, RunEnd(t, s))
    ensures forall e': nat :: RunEnd(t, s) < e' ==> !IsMatch(t, s, e')
  {
    var p := if HasAt(t, s, Http) then Http else Https;
    assert HasAt(t, s, p) && s + |p| < |t| && !IsSpace(t[s + |p|]);
    assert t[s..s + |p|] == p;
    forall i | s <= i < s + |p|
      ensures !IsSpace(t[i])
    {
      assert t[i] == p[i - s];
    }
    RunEndPast(t, s, s + |p| + 1);
  }

  /** The search: the span `re.search(r'https?://\S+', t)` matches, if any. */
  function Search(t: string): (m: Option<Span>)
    ensures m.Some? <==> exists s: nat, e: nat :: IsMatch(t, s, e)
    ensures m.Some? ==> IsSearchResult(t, m.value.start, m.value.end)
    ensures m.None? ==> forall i: nat :: !MatchesAt(t, i)
  {
    match FirstMatchFrom(t, 0)
    case None =>
      assert forall s: nat, e: nat :: !IsMatch(t, s, e) by {
        forall s: nat, e: nat | IsMatch(t, s, e) ensures false {
          MatchStartsPattern(t, s, e);
        }
      }
      None
    case Some(s) =>
      PatternGivesLongestMatch(t, s);
      assert forall s': nat, e': nat :: s' < s ==> !IsMatch(t, s', e') by {
        forall s': nat, e': nat | s' < s && IsMatch(t, s', e') ensures false {
          MatchStartsPattern(t, s', e');
        }
      }
      Some(Span(s, RunEnd(t, s)))
  }

  /** A link as the handler accepts it: `http://` or `https://` followed by
      at least one character, with no whitespace anywhere. */
  predicate IsWellFormedLink(link: string) {
    && ((HasAt(link, 0, Http) && |link| > |Http|) || (HasAt(link, 0, Https) && |link| > |Https|))
    && forall k :: 0 <= k < |link| ==> !IsSpace(link[k])
  }

  /** `link` stands in `t` at index `s`, is followed there by whitespace or
      the end of the text, and no earlier index of `t` starts the pattern. */
  predicate IsFoundAt(t: string, s: nat, link: string) {
    && s + |link| <= |t|
    && t[s..s + |link|] == link
    && (s + |link| == |t| || IsSpace(t[s + |link|]))
    && forall k :: 0 <= k < s ==> !MatchesAt(t, k)
  }

  /** `match.group(0)`: the text of the search's match, if there is one. */
  function ExtractLink(t: string): (link: Option<string>)
    ensures link.None? <==> forall i :: 0 <= i <= |t| ==> !MatchesAt(t, i)
    ensures link.Some? ==> IsWellFormedLink(link.value)
    ensures link.Some? ==> exists s :: IsFoundAt(t, s, link.value)
  {
    match Search(t)
    case None => None
    case Some(m) =>
      MatchIsWellFormedLink(t, m.start, m.end);
      SearchResultIsFound(t, m.start, m.end);
      Some(t[m.start..m.end])
  }

  /** The text of a match is a well-formed link. */
  lemma MatchIsWellFormedLink(t: string, s: nat, e: nat)
    requires IsMatch(t, s, e)
    ensures IsWellFormedLink(t[s..e])
  {
    var link := t[s..e];
    if HasAt(t, s, Http) && s + |Http| < e {
      assert link[..|Http|] == t[s..s + |Http|];
    } else {
      assert link[..|Https|] == t[s..s + |Https|];
    }
  }

  /** The search's match stands where `IsFoundAt` says. */
  lemma SearchResultIsFound(t: string, s: nat, e: nat)
    requires IsSearchResult(t, s, e)
    ensures IsFoundAt(t, s, t[s..e])
  {
    LongestMatchEndsRun(t, s, e);
    forall k | 0 <= k < s && MatchesAt(t, k)
      ensures false
    {
      PatternGivesLongestMatch(t, k);
    }
  }

  /** The search's match is followed by whitespace or the end of the text. */
  lemma LongestMatchEndsRun(t: string, s: nat, e: nat)
    requires IsSearchResult(t, s, e)
    ensures e == |t| || IsSpace(t[e])
  {
    if e < |t| && !IsSpace(t[e]) {
      assert IsMatch(t, s, e + 1);
    }
  }

  /** A well-formed link found at `s` starts the pattern there. */
  lemma FoundLinkStartsPattern(t: string, s: nat, link: string)
    requires IsWellFormedLink(link) && IsFoundAt(t, s, link)
    ensures MatchesAt(t, s)
  {
    if HasAt(link, 0, Http) && |link| > |Http| {
      assert t[s + |Http|] == link[|Http|];
      assert t[s..s + |Http|] == link[..|Http|];
    } else {
      assert t[s + |Https|] == link[|Https|];
      assert t[s..s + |Https|] == link[..|Https|];
    }
  }

  /** `IsWellFormedLink` and `IsFoundAt` together admit one link only, so
      they determine what `ExtractLink` returns. */
  lemma FoundLinkUnique(t: string, s1: nat, l1: string, s2: nat, l2: string)
    requires IsWellFormedLink(l1) && IsFoundAt(t, s1, l1)
    requires IsWellFormedLink(l2) && IsFoundAt(t, s2, l2)
    ensures s1 == s2 && l1 == l2
  {
    FoundLinkStartsPattern(t, s1, l1);
    FoundLinkStartsPattern(t, s2, l2);
    RunEndUnique(t, s1, s1 + |l1|);
    RunEndUnique(t, s2, s2 + |l2|);
  }

  /** The reference definition pins down a single answer, so `Search` is
      the only span it admits. */
  lemma SearchResultUnique(t: string, s1: nat, e1: nat, s2: nat, e2: nat)
    requires IsSearchResult(t, s1, e1) && IsSearchResult(t, s2, e2)
    ensures s1 == s2 && e1 == e2
  {
  }
}
