/** Spans between two literal delimiters, as Python's `re` finds them for
  * the pattern `open + ".*?" + close` under DOTALL (and, with `fold`, under
  * IGNORECASE). Such a match starts at the leftmost `open` that has a
  * `close` after it and ends at the first such `close`; `re.sub` and
  * `re.findall` then go on searching from the end of the match.
  *
  * `fold` compares letters without case: both the text and the delimiters
  * are searched in lower case, which keeps every position in place.
  */
module Spans {

  import opened Wrappers
  import opened Text
  import opened Thoughts

  /** The text as IGNORECASE compares it. */
  function Key(s: string, fold: bool): (r: string)
    ensures |r| == |s|
    ensures !fold ==> r == s
  {
    if fold then Lower(s) else s
  }

  /** The first match at or after `from`, as the span `[start, end)`. */
  function FirstSpan(s: string, open: string, close: string, fold: bool, from: nat): (r: Option<(nat, nat)>)
    ensures r.Some? ==> from <= r.value.0 && OccursAt(Key(s, fold), r.value.0, Key(open, fold))
    ensures r.Some? ==> r.value.0 + |open| + |close| <= r.value.1 <= |s|
    ensures r.Some? ==> OccursAt(Key(s, fold), r.value.1 - |close|, Key(close, fold))
    ensures r.Some? ==> forall i :: from <= i < r.value.0 ==> !OccursAt(Key(s, fold), i, Key(open, fold))
    ensures r.Some? ==> forall k :: r.value.0 + |open| <= k < r.value.1 - |close| ==> !OccursAt(Key(s, fold), k, Key(close, fold))
    ensures r.None? ==> forall i, k :: from <= i && i + |open| <= k && OccursAt(Key(s, fold), i, Key(open, fold))
                          ==> !OccursAt(Key(s, fold), k, Key(close, fold))
  {
    var t := Key(s, fold);
    match Find(t, Key(open, fold), from)
    case None => None
    case Some(i) =>
      match Find(t, Key(close, fold), i + |open|)
      case None => None
      case Some(k) => Some((i, k + |close|))
  }

  /** `re.sub(pattern, "", s[from..])`: every match removed. */
  function RemoveSpans(s: string, open: string, close: string, fold: bool, from: nat): (r: string)
    requires open != "" && from <= |s|
    ensures |r| <= |s| - from
    decreases |s| - from
  {
    match FirstSpan(s, open, close, fold, from)
    case None => s[from..]
    case Some((i, j)) => s[from..i] + RemoveSpans(s, open, close, fold, j)
  }

  /** The text between the delimiters of a match, without surrounding
    * whitespace: the group of `open + "\s*(.*?)\s*" + close`. The leading
    * `\s*` is greedy and the group ends where only whitespace is left
    * before the first `close`; a delimiter that starts with a non-space
    * character makes that match the same span as `open + ".*?" + close`. */
  function Inner(s: string, span: (nat, nat), open: string, close: string): (r: string)
    requires span.0 + |open| + |close| <= span.1 <= |s|
    ensures IsInfix(r, s[span.0 + |open|..span.1 - |close|])
  {
    Strip(s[span.0 + |open|..span.1 - |close|])
  }

  /** `re.findall(open + "\s*(.*?)\s*" + close, s[from..])`. */
  function FindAll(s: string, open: string, close: string, fold: bool, from: nat): (r: seq<string>)
    requires open != "" && from <= |s|
    decreases |s| - from
  {
    match FirstSpan(s, open, close, fold, from)
    case None => []
    case Some(span) => [Inner(s, span, open, close)] + FindAll(s, open, close, fold, span.1)
  }

  /** A text whose first match runs to its end loses just that match. */
  lemma LastSpanRemoved(pre: string, open: string, mid: string, close: string)
    requires open != ""
    requires Find(pre + open + mid + close, open, 0) == Some(|pre|)
    requires Find(pre + open + mid + close, close, |pre + open|) == Some(|pre + open| + |mid|)
    ensures RemoveSpans(pre + open + mid + close, open, close, false, 0) == pre
  {
    var s := pre + open + mid + close;
    assert FirstSpan(s, open, close, false, 0) == Some((|pre|, |s|));
    assert Find(s, open, |s|).None?;
    assert RemoveSpans(s, open, close, false, |s|) == [];
    assert s[..|pre|] == pre;
  }

  /** A span appended after a separator to a text without `open` is removed
    * and nothing before it is. */
  lemma AppendedSpanRemoved(content: string, sep: string, open: string, body: string, close: string)
    requires sep != [] && open != [] && close != []
    requires !IsInfix(open, content) && forall i :: 0 <= i < |sep| ==> sep[i] !in open
    requires close[0] !in body
    ensures RemoveSpans(content + sep + open + body + close, open, close, false, 0) == content + sep
  {
    FindAfterSeparator(content, sep, open, body, close);
    FindPastBody(content + sep + open, body, close);
    LastSpanRemoved(content + sep, open, body, close);
  }

  /** The text comes back as it was exactly when nothing matches. */
  lemma RemoveSpansUnchanged(s: string, open: string, close: string, fold: bool)
    requires open != ""
    ensures RemoveSpans(s, open, close, fold, 0) == s <==> FirstSpan(s, open, close, fold, 0).None?
  {
    if FirstSpan(s, open, close, fold, 0).Some? {
      var (i, j) := FirstSpan(s, open, close, fold, 0).value;
      assert |RemoveSpans(s, open, close, fold, 0)| <= i + |s| - j < |s|;
    }
  }

  /** `findall` finds something exactly when `sub` changes the text. */
  lemma FindAllEmpty(s: string, open: string, close: string, fold: bool)
    requires open != ""
    ensures FindAll(s, open, close, fold, 0) == [] <==> RemoveSpans(s, open, close, fold, 0) == s
  {
    RemoveSpansUnchanged(s, open, close, fold);
  }

  /** Removal only deletes: the result is a subsequence of the input. */
  lemma {:induction false} RemoveSpansSubsequence(s: string, open: string, close: string, fold: bool, from: nat)
    requires open != "" && from <= |s|
    ensures IsSubsequence(RemoveSpans(s, open, close, fold, from), s[from..])
    decreases |s| - from
  {
    match FirstSpan(s, open, close, fold, from)
    case None => SubsequenceRefl(s[from..]);
    case Some((i, j)) =>
      RemoveSpansSubsequence(s, open, close, fold, j);
      SubsequenceDropSpan(s, from, i, j, RemoveSpans(s, open, close, fold, j));
  }

  /** A text without the opening delimiter is left alone. */
  lemma {:induction false} NoOpenNoSpan(s: string, open: string, close: string, fold: bool)
    requires open != "" && !IsInfix(Key(open, fold), Key(s, fold))
    ensures FirstSpan(s, open, close, fold, 0).None?
    ensures RemoveSpans(s, open, close, fold, 0) == s
  {
    FindInfix(Key(s, fold), Key(open, fold));
  }

  /** `t` starts with `o`, ends with `c`, and holds no other `c` after
    * its `o`. */
  predicate Delimited(t: string, o: string, c: string)
  {
    && |o| + |c| <= |t|
    && OccursAt(t, 0, o)
    && OccursAt(t, |t| - |c|, c)
    && forall k :: |o| <= k < |t| - |c| ==> !OccursAt(t, k, c)
  }

  /** `d` is one whole match by itself. */
  predicate IsSpan(d: string, open: string, close: string, fold: bool)
  {
    Delimited(Key(d, fold), Key(open, fold), Key(close, fold))
  }

  lemma KeySlice(s: string, i: nat, j: nat, fold: bool)
    requires i <= j <= |s|
    ensures Key(s[i..j], fold) == Key(s, fold)[i..j]
  {
  }

  lemma DelimitedSlice(t: string, i: nat, j: nat, o: string, c: string)
    requires i + |o| + |c| <= j <= |t| && OccursAt(t, i, o) && OccursAt(t, j - |c|, c)
    requires forall k :: i + |o| <= k < j - |c| ==> !OccursAt(t, k, c)
    ensures Delimited(t[i..j], o, c)
  {
    OccursSlice(t, i, j, i, o);
    OccursSlice(t, i, j, j - |c|, c);
    forall k | |o| <= k < j - i - |c|
      ensures !OccursAt(t[i..j], k, c)
    {
      OccursSlice(t, i, j, i + k, c);
    }
  }

  /** The text of a match is a span. */
  lemma FirstSpanIsSpan(s: string, open: string, close: string, fold: bool, from: nat)
    requires FirstSpan(s, open, close, fold, from).Some?
    ensures IsSpan(s[FirstSpan(s, open, close, fold, from).value.0..FirstSpan(s, open, close, fold, from).value.1], open, close, fold)
  {
    var span := FirstSpan(s, open, close, fold, from).value;
    SliceIsSpan(s, span.0, span.1, open, close, fold);
  }

  /** A slice that starts with `open`, ends with `close` and holds no
    * other `close` after its `open` is a span. */
  lemma SliceIsSpan(s: string, i: nat, j: nat, open: string, close: string, fold: bool)
    requires i + |open| + |close| <= j <= |s|
    requires OccursAt(Key(s, fold), i, Key(open, fold)) && OccursAt(Key(s, fold), j - |close|, Key(close, fold))
    requires forall k :: i + |open| <= k < j - |close| ==> !OccursAt(Key(s, fold), k, Key(close, fold))
    ensures IsSpan(s[i..j], open, close, fold)
  {
    KeySlice(s, i, j, fold);
    DelimitedSlice(Key(s, fold), i, j, Key(open, fold), Key(close, fold));
  }

  /** `re.findall(open + ".*?" + close, s[from..])`: the whole matches. */
  function Matches(s: string, open: string, close: string, fold: bool, from: nat): (r: seq<string>)
    requires open != "" && from <= |s|
    ensures forall k :: 0 <= k < |r| ==> |open| + |close| <= |r[k]| <= |s| - from
    ensures FirstSpan(s, open, close, fold, from).None? <==> r == []
    decreases |s| - from
  {
    match FirstSpan(s, open, close, fold, from)
    case None => []
    case Some((i, j)) =>
      assert from <= i && i + |open| + |close| <= j <= |s|;
      var rest := Matches(s, open, close, fold, j);
      LengthsCons(s[i..j], rest, |open| + |close|, |s| - from);
      [s[i..j]] + rest
  }

  /** Lengths within bounds stay within them when one more is put first. */
  lemma LengthsCons<T>(x: seq<T>, rest: seq<seq<T>>, lo: int, hi: int)
    requires lo <= |x| <= hi
    requires forall k :: 0 <= k < |rest| ==> lo <= |rest[k]| <= hi
    ensures forall k :: 0 <= k < |[x] + rest| ==> lo <= |([x] + rest)[k]| <= hi
  {
    assert forall k :: 0 < k < |[x] + rest| ==> ([x] + rest)[k] == rest[k - 1];
  }

  /** When there are several matches, each is shorter than the text. */
  lemma MatchesShorter(s: string, open: string, close: string, fold: bool, from: nat, k: nat)
    requires open != "" && from <= |s| && |Matches(s, open, close, fold, from)| >= 2
    requires k < |Matches(s, open, close, fold, from)|
    ensures |Matches(s, open, close, fold, from)[k]| < |s| - from
  {
    var (i, j) := FirstSpan(s, open, close, fold, from).value;
    var rest := Matches(s, open, close, fold, j);
    var all := Matches(s, open, close, fold, from);
    assert all == [s[i..j]] + rest;
    assert from <= i && i + |open| + |close| <= j;
    assert 1 <= |rest[0]| <= |s| - j;
    if k == 0 {
      assert |all[0]| == j - i;
    } else {
      assert all[k] == rest[k - 1];
    }
  }

  /** Every match found is a span. */
  lemma {:induction false} MatchesAreSpans(s: string, open: string, close: string, fold: bool, from: nat, k: nat)
    requires open != "" && from <= |s| && k < |Matches(s, open, close, fold, from)|
    ensures IsSpan(Matches(s, open, close, fold, from)[k], open, close, fold)
    decreases |s| - from
  {
    var span := FirstSpan(s, open, close, fold, from).value;
    if k == 0 {
      MatchesCons(s, open, close, fold, from, 0);
      FirstSpanIsSpan(s, open, close, fold, from);
      SameSpan(s[span.0..span.1], Matches(s, open, close, fold, from)[0], open, close, fold);
    } else {
      MatchesCons(s, open, close, fold, from, k);
      MatchesAreSpans(s, open, close, fold, span.1, k - 1);
      SameSpan(Matches(s, open, close, fold, span.1)[k - 1], Matches(s, open, close, fold, from)[k], open, close, fold);
    }
  }

  /** Equal texts are spans alike (a step kept apart from the
    * unfolding of `Matches`). */
  lemma SameSpan(d: string, e: string, open: string, close: string, fold: bool)
    requires d == e && IsSpan(d, open, close, fold)
    ensures IsSpan(e, open, close, fold)
  {
  }

  /** The matches are the first one and then those after it. */
  lemma MatchesCons(s: string, open: string, close: string, fold: bool, from: nat, k: nat)
    requires open != "" && from <= |s| && k < |Matches(s, open, close, fold, from)|
    ensures FirstSpan(s, open, close, fold, from).Some?
    ensures var span := FirstSpan(s, open, close, fold, from).value;
            && (k == 0 ==> Matches(s, open, close, fold, from)[0] == s[span.0..span.1])
            && (k > 0 ==> k - 1 < |Matches(s, open, close, fold, span.1)|
                          && Matches(s, open, close, fold, from)[k] == Matches(s, open, close, fold, span.1)[k - 1])
  {
  }

  /** A span, searched on its own with case kept, is its only match. */
  lemma SpanMatchesItself(d: string, open: string, close: string)
    requires open != "" && IsSpan(d, open, close, false)
    ensures Matches(d, open, close, false, 0) == [d]
  {
    assert Key(d, false) == d && Key(open, false) == open && Key(close, false) == close;
    FindIs(d, open, 0, 0);
    FindIs(d, close, |open|, |d| - |close|);
    assert FirstSpan(d, open, close, false, 0) == Some((0 as nat, |d|));
    assert FirstSpan(d, open, close, false, |d|).None?;
    assert Matches(d, open, close, false, |d|) == [];
    assert d[0..|d|] == d;
  }

  /** A text without the opening delimiter has no match. */
  lemma NoOpenNoMatch(s: string, open: string, close: string)
    requires open != "" && !IsInfix(open, s)
    ensures Matches(s, open, close, false, 0) == []
  {
    NoOpenNoSpan(s, open, close, false);
  }
}
