/** The thought-block delimiters shared by the thinking pipes and filters.
  *
  * A thought block opens with "```", an optional space and "thinking" (the
  * default start valve, the regular expression "``` ?thinking") and closes
  * with the next or the last "```" (the default stop valve). The functions
  * here are the searches that Python's `re` performs with those defaults:
  * `GreedyBlock` for `start + "(.*)?" + stop` under DOTALL, `LazyBlock` for
  * `start + "(.*?)" + stop` under DOTALL, optionally with the start anchored
  * by `^` under MULTILINE (start of text or just after a newline).
  */
module Thoughts {

  import opened Wrappers
  import opened Text

  const Fence: string := "```"
  const OpenerSpaced: string := "``` thinking"
  const OpenerTight: string := "```thinking"

  /** The default start valve, as a regular-expression source string. */
  const StartValve: string := "``` ?thinking"

  /** Length of the opener that starts at `i`, or 0 when none does. At a
    * given position at most one of the two spellings can match, because
    * the character after "```" is either a space or a 't'. */
  function OpenerLen(s: string, i: int): (n: nat)
    ensures n == 0 || n == 11 || n == 12
    ensures n == 12 <==> OccursAt(s, i, OpenerSpaced)
    ensures n == 11 <==> OccursAt(s, i, OpenerTight)
  {
    if OccursAt(s, i, OpenerSpaced) then
      assert s[i + 3] == ' ';
      12
    else if OccursAt(s, i, OpenerTight) then 11
    else 0
  }

  /** `^` under MULTILINE. */
  predicate LineStart(s: string, i: int)
  {
    i == 0 || (0 < i <= |s| && s[i - 1] == '\n')
  }

  /** A start-of-thought match at `i`; `anchored` adds the `^` of the filters. */
  predicate OpenerAt(s: string, i: int, anchored: bool)
  {
    OpenerLen(s, i) > 0 && (!anchored || LineStart(s, i))
  }

  /** `s[i..j]` is an opener, any text, and a closing fence: one way the
    * regular expression can match at `i`. */
  predicate BlockAt(s: string, i: int, j: int, anchored: bool)
  {
    OpenerAt(s, i, anchored) && i + OpenerLen(s, i) <= j - 3 && OccursAt(s, j - 3, Fence)
  }

  /** Unanchored matches are unaffected by text prepended before them. */
  lemma BlockShift(a: string, b: string, i: int, j: int)
    requires 0 <= i
    ensures OpenerLen(a + b, |a| + i) == OpenerLen(b, i)
    ensures BlockAt(b, i, j, false) ==> BlockAt(a + b, |a| + i, |a| + j, false)
  {
    OccursShift(a, b, i, OpenerSpaced);
    OccursShift(a, b, i, OpenerTight);
    if BlockAt(b, i, j, false) {
      OccursShift(a, b, j - 3, Fence);
    }
  }

  /** Openers that fit inside `a` are unaffected by text appended after it. */
  lemma OpenerLenWithin(a: string, b: string, i: int)
    requires 0 <= i && i + |OpenerSpaced| <= |a|
    ensures OpenerLen(a + b, i) == OpenerLen(a, i)
  {
    assert (a + b)[i..i + |OpenerSpaced|] == a[i..i + |OpenerSpaced|];
    assert (a + b)[i..i + |OpenerTight|] == a[i..i + |OpenerTight|];
  }

  /** A start-of-thought somewhere in `s` (`start_thought.search(s)`). */
  predicate HasOpener(s: string)
  {
    exists i :: 0 <= i < |s| && OpenerAt(s, i, false)
  }

  /** The first opener at or after `from`. */
  function FirstOpener(s: string, from: nat, anchored: bool): (r: Option<nat>)
    ensures r.Some? ==> from <= r.value < |s| && OpenerAt(s, r.value, anchored)
    ensures r.Some? ==> forall i :: from <= i < r.value ==> !OpenerAt(s, i, anchored)
    ensures r.None? ==> forall i :: from <= i ==> !OpenerAt(s, i, anchored)
    decreases |s| - from
  {
    if from >= |s| then None
    else if OpenerAt(s, from, anchored) then Some(from)
    else FirstOpener(s, from + 1, anchored)
  }

  lemma HasOpenerFirst(s: string)
    ensures HasOpener(s) <==> FirstOpener(s, 0, false).Some?
  {
  }

  /** A later opener never ends before an earlier one. */
  lemma OpenerEndsMonotone(s: string, i: int, i': int)
    requires OpenerLen(s, i) > 0 && OpenerLen(s, i') > 0 && i < i'
    ensures i + OpenerLen(s, i) <= i' + OpenerLen(s, i')
  {
  }

  /** The match of `start + "(.*)?" + stop` under DOTALL: the leftmost start
    * that is followed by a fence, extended to the LAST fence after it.
    * The span is `[r.value.0, r.value.1)`. */
  function GreedyBlock(s: string): (r: Option<(nat, nat)>)
    ensures r.Some? ==> BlockAt(s, r.value.0, r.value.1, false) && r.value.1 <= |s|
    ensures r.Some? ==> forall i, j :: i < r.value.0 ==> !BlockAt(s, i, j, false)
    ensures r.Some? ==> forall j :: r.value.1 < j ==> !BlockAt(s, r.value.0, j, false)
    ensures r.None? ==> forall i, j :: !BlockAt(s, i, j, false)
  {
    match FirstOpener(s, 0, false)
    case None => None
    case Some(i) =>
      match FindLast(s, Fence, i + OpenerLen(s, i))
      case None =>
        assert forall i', j :: !BlockAt(s, i', j, false) by {
          forall i', j | BlockAt(s, i', j, false) ensures false {
            if i < i' { OpenerEndsMonotone(s, i, i'); }
          }
        }
        None
      case Some(k) => Some((i, k + 3))
  }

  /** The match of `start + "(.*?)" + stop` under DOTALL searched from
    * `from`: the leftmost start followed by a fence, ended at the FIRST
    * fence after it. */
  function LazyBlock(s: string, from: nat, anchored: bool): (r: Option<(nat, nat)>)
    ensures r.Some? ==> from <= r.value.0 && BlockAt(s, r.value.0, r.value.1, anchored) && r.value.1 <= |s|
    ensures r.Some? ==> forall i, j :: from <= i < r.value.0 ==> !BlockAt(s, i, j, anchored)
    ensures r.Some? ==> forall j :: j < r.value.1 ==> !BlockAt(s, r.value.0, j, anchored)
    ensures r.None? ==> forall i, j :: from <= i ==> !BlockAt(s, i, j, anchored)
  {
    match FirstOpener(s, from, anchored)
    case None => None
    case Some(i) =>
      match Find(s, Fence, i + OpenerLen(s, i))
      case None =>
        assert forall i', j :: from <= i' ==> !BlockAt(s, i', j, anchored) by {
          forall i', j | from <= i' && BlockAt(s, i', j, anchored) ensures false {
            if i < i' { OpenerEndsMonotone(s, i, i'); }
          }
        }
        None
      case Some(k) => Some((i, k + 3))
  }

  /** `pattern.sub("", s[from..])` for the lazy pattern: every leftmost,
    * non-overlapping block removed, searching on from the end of each. */
  function RemoveBlocks(s: string, from: nat, anchored: bool): (r: string)
    requires from <= |s|
    ensures |r| <= |s| - from
    decreases |s| - from
  {
    match LazyBlock(s, from, anchored)
    case None => s[from..]
    case Some((i, j)) => s[from..i] + RemoveBlocks(s, j, anchored)
  }

  /** The text is left as it is exactly when the pattern does not match. */
  lemma RemoveBlocksUnchanged(s: string, anchored: bool)
    ensures RemoveBlocks(s, 0, anchored) == s <==> LazyBlock(s, 0, anchored).None?
  {
    if LazyBlock(s, 0, anchored).Some? {
      var (i, j) := LazyBlock(s, 0, anchored).value;
      assert |RemoveBlocks(s, 0, anchored)| <= i + |s| - j < |s|;
    }
  }

  /** Removal only deletes: the result is a subsequence of the input. */
  lemma {:induction false} RemoveBlocksSubsequence(s: string, from: nat, anchored: bool)
    requires from <= |s|
    ensures IsSubsequence(RemoveBlocks(s, from, anchored), s[from..])
    decreases |s| - from
  {
    var m := LazyBlock(s, from, anchored);
    if m.None? {
      SubsequenceRefl(s[from..]);
    } else {
      var (i, j) := m.value;
      assert RemoveBlocks(s, from, anchored) == s[from..i] + RemoveBlocks(s, j, anchored);
      RemoveBlocksSubsequence(s, j, anchored);
      SubsequenceDropSpan(s, from, i, j, RemoveBlocks(s, j, anchored));
    }
  }

  lemma SubsequenceDropSpan(s: string, from: nat, i: nat, j: nat, rest: string)
    requires from <= i <= j <= |s| && IsSubsequence(rest, s[j..])
    ensures IsSubsequence(s[from..i] + rest, s[from..])
  {
    assert s[from..] == s[from..i] + s[i..j] + s[j..];
    SubsequenceDrop(s[from..i], s[i..j], rest, s[j..]);
  }

  /** `a` can be obtained from `b` by deleting characters. */
  predicate IsSubsequence(a: string, b: string)
    decreases |b|
  {
    if a == "" then true
    else if b == "" then false
    else if a[0] == b[0] then IsSubsequence(a[1..], b[1..])
    else IsSubsequence(a, b[1..])
  }

  lemma {:induction false} SubsequenceRefl(a: string)
    ensures IsSubsequence(a, a)
    decreases |a|
  {
    if a != "" { SubsequenceRefl(a[1..]); }
  }

  /** One more leading character in the longer text keeps a subsequence. */
  lemma {:induction false} SubsequenceCons(a: string, c: char, b: string)
    requires IsSubsequence(a, b)
    ensures IsSubsequence(a, [c] + b)
    decreases |b|, 1
  {
    assert ([c] + b)[1..] == b;
    if a != "" && a[0] == c {
      SubsequenceWeaken(a, b);
    }
  }

  /** Dropping the first character of `a` keeps it a subsequence. */
  lemma {:induction false} SubsequenceWeaken(a: string, b: string)
    requires a != "" && IsSubsequence(a, b)
    ensures IsSubsequence(a[1..], b)
    decreases |b|, 0
  {
    if a[0] == b[0] {
      SubsequenceCons(a[1..], b[0], b[1..]);
    } else {
      SubsequenceWeaken(a, b[1..]);
      SubsequenceCons(a[1..], b[0], b[1..]);
    }
    assert [b[0]] + b[1..] == b;
  }

  lemma {:induction false} SubsequenceSkip(a: string, d: string, b: string)
    requires IsSubsequence(a, b)
    ensures IsSubsequence(a, d + b)
    decreases |d|
  {
    if d != "" {
      assert d + b == [d[0]] + (d[1..] + b);
      SubsequenceSkip(a, d[1..], b);
      SubsequenceCons(a, d[0], d[1..] + b);
    } else {
      assert d + b == b;
    }
  }

  lemma {:induction false} SubsequencePrefix(p: string, a: string, b: string)
    requires IsSubsequence(a, b)
    ensures IsSubsequence(p + a, p + b)
    decreases |p|
  {
    if p != "" {
      SubsequencePrefix(p[1..], a, b);
      assert (p + a)[1..] == p[1..] + a;
      assert (p + b)[1..] == p[1..] + b;
    } else {
      assert p + a == a && p + b == b;
    }
  }

  lemma SubsequenceDrop(p: string, d: string, a: string, b: string)
    requires IsSubsequence(a, b)
    ensures IsSubsequence(p + a, p + d + b)
  {
    SubsequenceSkip(a, d, b);
    SubsequencePrefix(p, a, d + b);
    assert p + d + b == p + (d + b);
  }

  lemma CutSubsequence(t: string, i: nat, j: nat)
    requires i <= j <= |t|
    ensures IsSubsequence(t[..i] + t[j..], t)
  {
    assert t == t[..i] + t[i..j] + t[j..];
    SubsequenceRefl(t[j..]);
    SubsequenceDrop(t[..i], t[i..j], t[j..], t[j..]);
  }

  lemma {:induction false} SubsequenceConcat(a: string, b: string, c: string)
    requires IsSubsequence(a, b)
    ensures IsSubsequence(a + c, b + c)
    decreases |b|
  {
    if a == "" {
      assert a + c == c;
      SubsequenceRefl(c);
      SubsequenceSkip(c, b, c);
    } else if a[0] == b[0] {
      SubsequenceConcat(a[1..], b[1..], c);
      assert (a + c)[1..] == a[1..] + c;
      assert (b + c)[1..] == b[1..] + c;
    } else {
      SubsequenceConcat(a, b[1..], c);
      assert (b + c)[1..] == b[1..] + c;
    }
  }

  lemma {:induction false} SubsequenceTrans(a: string, b: string, c: string)
    requires IsSubsequence(a, b) && IsSubsequence(b, c)
    ensures IsSubsequence(a, c)
    decreases |c|
  {
    if a != "" {
      if b[0] == c[0] {
        if a[0] == b[0] {
          SubsequenceTrans(a[1..], b[1..], c[1..]);
        } else {
          SubsequenceTrans(a, b[1..], c[1..]);
          SubsequenceCons(a, c[0], c[1..]);
          assert [c[0]] + c[1..] == c;
        }
      } else {
        SubsequenceTrans(a, b, c[1..]);
        SubsequenceCons(a, c[0], c[1..]);
        assert [c[0]] + c[1..] == c;
      }
    }
  }

  /** A block cut out of a streamed text: `block` stood at position `at` of
    * what was left once it was cut. */
  datatype Cut = Cut(at: nat, block: string)

  /** The text before the cuts: each block put back where it stood, the
    * last cut first. */
  function Uncut(s: string, cuts: seq<Cut>): string
    decreases |cuts|
  {
    if cuts == [] then s
    else
      var c := cuts[|cuts| - 1];
      var p := if c.at <= |s| then c.at else |s|;
      Uncut(s[..p] + c.block + s[p..], cuts[..|cuts| - 1])
  }

  /** Every cut position lies inside the text it was cut from. */
  predicate Fits(cuts: seq<Cut>, n: nat)
    decreases |cuts|
  {
    cuts == [] || (cuts[|cuts| - 1].at <= n && Fits(cuts[..|cuts| - 1], n + |cuts[|cuts| - 1].block|))
  }

  /** Every cut block is one whole thought block. */
  predicate AllBlocks(cuts: seq<Cut>)
    decreases |cuts|
  {
    cuts == [] || (AllBlocks(cuts[..|cuts| - 1]) && BlockAt(cuts[|cuts| - 1].block, 0, |cuts[|cuts| - 1].block|, false))
  }

  lemma {:induction false} AllBlocksEach(cuts: seq<Cut>, k: nat)
    requires AllBlocks(cuts) && k < |cuts|
    ensures BlockAt(cuts[k].block, 0, |cuts[k].block|, false)
    decreases |cuts|
  {
    if k < |cuts| - 1 {
      AllBlocksEach(cuts[..|cuts| - 1], k);
    }
  }

  lemma {:induction false} FitsGrow(cuts: seq<Cut>, n: nat, m: nat)
    requires Fits(cuts, n) && n <= m
    ensures Fits(cuts, m)
    decreases |cuts|
  {
    if cuts != [] {
      var c := cuts[|cuts| - 1];
      FitsGrow(cuts[..|cuts| - 1], n + |c.block|, m + |c.block|);
    }
  }

  /** Text that arrives after the cuts is not touched by putting them back. */
  lemma {:induction false} UncutAppend(s: string, d: string, cuts: seq<Cut>)
    requires Fits(cuts, |s|)
    ensures Uncut(s + d, cuts) == Uncut(s, cuts) + d
    decreases |cuts|
  {
    if cuts != [] {
      var c := cuts[|cuts| - 1];
      var s' := s[..c.at] + c.block + s[c.at..];
      assert (s + d)[..c.at] + c.block + (s + d)[c.at..] == s' + d by {
        assert (s + d)[..c.at] == s[..c.at];
        assert (s + d)[c.at..] == s[c.at..] + d;
      }
      UncutAppend(s', d, cuts[..|cuts| - 1]);
    }
  }

  /** One more cut: `t[i..j]` taken out of the text `done + t`. */
  lemma CutOne(done: string, t: string, i: nat, j: nat, cuts: seq<Cut>)
    requires i <= j <= |t| && Fits(cuts, |done + t|)
    ensures var cuts' := cuts + [Cut(|done| + i, t[i..j])];
            && Uncut(done + (t[..i] + t[j..]), cuts') == Uncut(done + t, cuts)
            && Fits(cuts', |done + (t[..i] + t[j..])|)
  {
    var s := done + (t[..i] + t[j..]);
    var cuts' := cuts + [Cut(|done| + i, t[i..j])];
    assert cuts'[..|cuts'| - 1] == cuts;
    assert s[..|done| + i] + t[i..j] + s[|done| + i..] == done + t by {
      assert s[..|done| + i] == done + t[..i];
      assert s[|done| + i..] == t[j..];
      assert t == t[..i] + t[i..j] + t[j..];
    }
  }

  /** The greedy match, taken out of its text, is one whole block. */
  lemma GreedyIsBlock(t: string)
    requires GreedyBlock(t).Some?
    ensures var (i, j) := GreedyBlock(t).value;
            BlockAt(t[i..j], 0, |t[i..j]|, false)
  {
    var (i, j) := GreedyBlock(t).value;
    BlockInSlice(t, i, j, i, j, false);
    assert |t[i..j]| == j - i;
  }

  lemma AllBlocksAppend(cuts: seq<Cut>, c: Cut)
    requires AllBlocks(cuts) && BlockAt(c.block, 0, |c.block|, false)
    ensures AllBlocks(cuts + [c])
  {
    assert (cuts + [c])[..|cuts|] == cuts;
  }

  /** The text `kept` is the upstream text `raw` with the `cuts` taken
    * out: `removed` whole thought blocks, which put back where they stood
    * give `raw` again. */
  ghost predicate Ledger(kept: string, raw: string, cuts: seq<Cut>, removed: nat)
  {
    raw == Uncut(kept, cuts) && Fits(cuts, |kept|) && AllBlocks(cuts) && |cuts| == removed
  }

  /** Text received and kept extends both sides of the ledger. */
  lemma LedgerAppend(kept: string, d: string, raw: string, cuts: seq<Cut>, removed: nat)
    requires Ledger(kept, raw, cuts, removed)
    ensures Ledger(kept + d, raw + d, cuts, removed)
  {
    UncutAppend(kept, d, cuts);
    FitsGrow(cuts, |kept|, |kept + d|);
  }

  /** The same, for text appended to a buffer after the text `done`. */
  lemma LedgerExtend(done: string, buffer: string, d: string, raw: string, cuts: seq<Cut>, removed: nat)
    requires Ledger(done + buffer, raw, cuts, removed)
    ensures Ledger(done + (buffer + d), raw + d, cuts, removed)
  {
    LedgerAppend(done + buffer, d, raw, cuts, removed);
    assert done + buffer + d == done + (buffer + d);
  }

  /** Inserting text anywhere in the longer text keeps a subsequence. */
  lemma {:induction false} SubsequenceInsert(x: string, y: string, p: nat, d: string)
    requires IsSubsequence(x, y) && p <= |y|
    ensures IsSubsequence(x, y[..p] + d + y[p..])
    decreases |y|
  {
    var z := y[..p] + d + y[p..];
    if x == "" {
    } else if p == 0 {
      assert z == d + y;
      SubsequenceSkip(x, d, y);
    } else {
      assert z[0] == y[0];
      assert z[1..] == y[1..][..p - 1] + d + y[1..][p - 1..];
      if x[0] == y[0] {
        SubsequenceInsert(x[1..], y[1..], p - 1, d);
      } else {
        SubsequenceInsert(x, y[1..], p - 1, d);
      }
    }
  }

  /** Putting blocks back keeps a subsequence of the text. */
  lemma {:induction false} UncutKeeps(x: string, s: string, cuts: seq<Cut>)
    requires IsSubsequence(x, s)
    ensures IsSubsequence(x, Uncut(s, cuts))
    decreases |cuts|
  {
    if cuts != [] {
      var c := cuts[|cuts| - 1];
      var p := if c.at <= |s| then c.at else |s|;
      SubsequenceInsert(x, s, p, c.block);
      UncutKeeps(x, s[..p] + c.block + s[p..], cuts[..|cuts| - 1]);
    }
  }

  /** The kept text of a ledger is obtained from the upstream text by
    * deleting characters, and is all of it when nothing was cut. */
  lemma LedgerSubsequence(kept: string, raw: string, cuts: seq<Cut>, removed: nat)
    requires Ledger(kept, raw, cuts, removed)
    ensures IsSubsequence(kept, raw)
    ensures removed == 0 ==> kept == raw
  {
    SubsequenceRefl(kept);
    UncutKeeps(kept, kept, cuts);
  }

  /** Cutting the block `t[i..j]` out of the kept text `done + t` records
    * one more cut. */
  lemma LedgerCut(done: string, t: string, i: nat, j: nat, raw: string, cuts: seq<Cut>, removed: nat)
    requires i <= j <= |t| && Ledger(done + t, raw, cuts, removed)
    requires BlockAt(t[i..j], 0, |t[i..j]|, false)
    ensures Ledger(done + (t[..i] + t[j..]), raw, cuts + [Cut(|done| + i, t[i..j])], removed + 1)
  {
    CutOne(done, t, i, j, cuts);
    AllBlocksAppend(cuts, Cut(|done| + i, t[i..j]));
  }

  /** The cut blocks, in the order they were cut. */
  function CutBlocks(cuts: seq<Cut>): (r: seq<string>)
    ensures |r| == |cuts|
    decreases |cuts|
  {
    if cuts == [] then [] else CutBlocks(cuts[..|cuts| - 1]) + [cuts[|cuts| - 1].block]
  }

  lemma CutBlocksAppend(cuts: seq<Cut>, c: Cut)
    ensures CutBlocks(cuts + [c]) == CutBlocks(cuts) + [c.block]
  {
    assert (cuts + [c])[..|cuts|] == cuts;
  }

  /** Removing a block that is there shortens the text. */
  lemma RemoveBlocksShrinks(s: string, anchored: bool)
    requires LazyBlock(s, 0, anchored).Some?
    ensures |RemoveBlocks(s, 0, anchored)| < |s|
  {
    var (i, j) := LazyBlock(s, 0, anchored).value;
    assert |RemoveBlocks(s, 0, anchored)| <= i + |s| - j;
  }

  /** A block inside the factor `s[a..b]` is a block of the factor. */
  lemma BlockInSlice(s: string, a: nat, b: nat, i: int, j: int, anchored: bool)
    requires BlockAt(s, i, j, anchored) && a <= i && j <= b <= |s|
    ensures BlockAt(s[a..b], i - a, j - a, anchored)
  {
    var t := s[a..b];
    OpenerSlice(s, a, b, i);
    OccursSlice(s, a, b, j - 3, Fence);
    if anchored && i - a > 0 {
      assert t[i - a - 1] == s[i - 1];
    }
  }

  /** A block begins and ends with '`', so it lies inside the stripped text. */
  lemma BlockEndsInside(s: string, i: int, j: int, anchored: bool)
    requires BlockAt(s, i, j, anchored) && j <= |s|
    ensures SpaceEnd(s, 0) <= i && j <= SpaceStart(s, |s|)
    ensures Strip(s) == s[SpaceEnd(s, 0)..SpaceStart(s, |s|)]
  {
    BlockEdges(s, i, j, anchored);
    FencesStart();
    StripAround(s, i, j);
  }

  /** A block starts and ends with a backtick. */
  lemma BlockEdges(s: string, i: int, j: int, anchored: bool)
    requires BlockAt(s, i, j, anchored)
    ensures 0 <= i < j <= |s| && s[i] == '`' && s[j - 1] == '`'
  {
    FencesStart();
    if OpenerLen(s, i) == 12 {
      OccursFirst(s, i, OpenerSpaced);
    } else {
      OccursFirst(s, i, OpenerTight);
    }
    OccursLast(s, j - 3, Fence);
  }

  /** Both openers and the fence are made of backticks where a block
    * begins and ends. */
  lemma FencesStart()
    ensures OpenerSpaced[0] == '`' && OpenerTight[0] == '`' && |Fence| == 3 && Fence[2] == '`'
    ensures !IsSpace('`')
  {
  }

  lemma OpenerSlice(s: string, a: nat, b: nat, i: int)
    requires a <= i && a <= b <= |s| && i + OpenerLen(s, i) <= b
    ensures OpenerLen(s[a..b], i - a) == OpenerLen(s, i)
  {
    OccursSlice(s, a, b, i, OpenerSpaced);
    OccursSlice(s, a, b, i, OpenerTight);
  }

  /** The filters search again after stripping; a match is still there and
    * the stripped text is not empty. */
  lemma MatchSurvivesStrip(s: string, anchored: bool)
    requires LazyBlock(s, 0, anchored).Some?
    ensures LazyBlock(Strip(s), 0, anchored).Some?
    ensures Strip(s) != ""
  {
    var (i, j) := LazyBlock(s, 0, anchored).value;
    var a, b := SpaceEnd(s, 0), SpaceStart(s, |s|);
    BlockEndsInside(s, i, j, anchored);
    BlockInSlice(s, a, b, i, j, anchored);
    assert BlockAt(Strip(s), i - a, j - a, anchored);
  }

  /** Stripping only deletes. */
  lemma StripSubsequence(s: string)
    ensures IsSubsequence(Strip(s), s)
  {
    var a, b := SpaceEnd(s, 0), SpaceStart(s, |s|);
    if a < b {
      assert Strip(s) == s[a..b];
      SliceSubsequence(s, a, b);
    }
  }

  /** A slice is a subsequence of the whole. */
  lemma SliceSubsequence(s: string, a: nat, b: nat)
    requires a <= b <= |s|
    ensures IsSubsequence(s[a..b], s)
  {
    var t := s[a..b];
    SubsequencePrefix(t, "", s[b..]);
    ThreeParts(s, a, b);
    SubsequenceSkip(t, s[..a], t + s[b..]);
  }

  /** A sequence is its three parts around `[a, b)`. */
  lemma ThreeParts<T>(s: seq<T>, a: nat, b: nat)
    requires a <= b <= |s|
    ensures s[a..b] + [] == s[a..b]
    ensures s[..a] + (s[a..b] + s[b..]) == s
  {
    assert s[..a] + (s[a..b] + s[b..]) == s;
  }
}
