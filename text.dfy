/** Python string operations used by the plugins, on `seq<char>`. */
module Text {

  import opened Wrappers

  /** Python's whitespace (`str.isspace`, `str.strip()` with no argument and
    * the `\s` class of `re` on `str` patterns are the same set). */
  predicate IsSpace(c: char)
  {
    c == ' ' || ('\t' <= c <= '\r') || ('\U{1C}' <= c <= '\U{1F}') || c == '\U{85}' || c == '\U{A0}'
    || c == '\U{1680}' || ('\U{2000}' <= c <= '\U{200A}') || c == '\U{2028}' || c == '\U{2029}'
    || c == '\U{202F}' || c == '\U{205F}' || c == '\U{3000}'
  }

  predicate AllSpace(s: string)
  {
    forall i :: 0 <= i < |s| ==> IsSpace(s[i])
  }

  /** `p` occurs in `s` starting at index `i`. */
  predicate OccursAt(s: string, i: int, p: string)
  {
    0 <= i && i + |p| <= |s| && s[i..i + |p|] == p
  }

  /** Occurrences are unaffected by text prepended or appended around them. */
  lemma OccursShift(a: string, b: string, i: int, p: string)
    requires 0 <= i
    ensures OccursAt(a + b, |a| + i, p) <==> OccursAt(b, i, p)
  {
    if i + |p| <= |b| {
      assert (a + b)[|a| + i..|a| + i + |p|] == b[i..i + |p|];
    }
  }

  lemma OccursExtend(a: string, b: string, i: int, p: string)
    requires OccursAt(a, i, p)
    ensures OccursAt(a + b, i, p)
  {
    assert (a + b)[i..i + |p|] == a[i..i + |p|];
  }

  lemma OccursWithin(a: string, b: string, i: int, p: string)
    requires OccursAt(a + b, i, p) && i + |p| <= |a|
    ensures OccursAt(a, i, p)
  {
    assert (a + b)[i..i + |p|] == a[i..i + |p|];
  }

  /** An occurrence of `x + y` is one of `x` followed by one of `y`. */
  lemma OccursConcat(s: string, i: int, x: string, y: string)
    ensures OccursAt(s, i, x + y) <==> OccursAt(s, i, x) && OccursAt(s, i + |x|, y)
  {
    if 0 <= i && i + |x| + |y| <= |s| {
      assert s[i..i + |x| + |y|] == s[i..i + |x|] + s[i + |x|..i + |x| + |y|];
      if OccursAt(s, i, x + y) {
        assert s[i..i + |x|] == (x + y)[..|x|] == x;
        assert s[i + |x|..i + |x| + |y|] == (x + y)[|x|..] == y;
      }
    }
  }

  /** An occurrence inside the factor `s[a..b]` is one in `s`, shifted. */
  lemma OccursSlice(s: string, a: nat, b: nat, i: int, p: string)
    requires a <= i && a <= b <= |s|
    ensures OccursAt(s[a..b], i - a, p) <==> (i + |p| <= b && OccursAt(s, i, p))
  {
    var t := s[a..b];
    assert s[..b] == s[..a] + t;
    assert s == s[..b] + s[b..];
    OccursShift(s[..a], t, i - a, p);
    if i + |p| <= b {
      if OccursAt(s, i, p) { OccursWithin(s[..b], s[b..], i, p); }
      if OccursAt(s[..b], i, p) { OccursExtend(s[..b], s[b..], i, p); }
    }
  }

  /** `p in s`. */
  predicate IsInfix(p: string, s: string)
  {
    exists i :: 0 <= i <= |s| && OccursAt(s, i, p)
  }

  predicate EndsWith(s: string, p: string)
  {
    |p| <= |s| && s[|s| - |p|..] == p
  }

  /** `s.find(p, from)`: the first occurrence at or after `from`. */
  function Find(s: string, p: string, from: nat): (r: Option<nat>)
    ensures r.Some? ==> from <= r.value && OccursAt(s, r.value, p)
    ensures r.Some? ==> forall i :: from <= i < r.value ==> !OccursAt(s, i, p)
    ensures r.None? ==> forall i :: from <= i ==> !OccursAt(s, i, p)
    decreases |s| - from
  {
    if from + |p| > |s| then None
    else if s[from..from + |p|] == p then Some(from)
    else Find(s, p, from + 1)
  }

  /** The first occurrence at or after `from` is the one `find` returns. */
  lemma FindIs(s: string, p: string, from: nat, k: nat)
    requires from <= k && OccursAt(s, k, p)
    requires forall i :: from <= i < k ==> !OccursAt(s, i, p)
    ensures Find(s, p, from) == Some(k)
  {
  }

  /** What neither part holds, their concatenation does not hold. */
  lemma NotInConcat(c: char, a: string, b: string)
    requires c !in a && c !in b
    ensures c !in a + b
  {
  }

  /** The first occurrence is at or before any other. */
  lemma FindNotAfter(s: string, p: string, from: nat, f: nat, k: nat)
    requires Find(s, p, from) == Some(f) && from <= k && OccursAt(s, k, p)
    ensures f <= k
  {
  }

  /** After a text without `p` and a separator none of whose characters
    * occurs in `p`, the first `p` is the one that follows them. */
  lemma FindAfterSeparator(content: string, sep: string, p: string, mid: string, tail: string)
    requires sep != [] && p != [] && !IsInfix(p, content)
    requires forall i :: 0 <= i < |sep| ==> sep[i] !in p
    ensures Find(content + sep + p + mid + tail, p, 0) == Some(|content| + |sep|)
  {
    var s := content + sep + p + mid + tail;
    var q := |content| + |sep|;
    assert s[q..q + |p|] == p;
    forall i | 0 <= i < q
      ensures !OccursAt(s, i, p)
    {
      if i + |p| <= |content| {
        assert !OccursAt(content, i, p);
        assert s[i..i + |p|] == content[i..i + |p|];
      } else if i + |p| <= |s| {
        var m := if i <= |content| then |content| else i;
        assert s[m] == sep[m - |content|];
        assert s[i..i + |p|][m - i] == s[m];
      }
    }
    FindIs(s, p, 0, q);
  }

  /** From the end of `open`, the first `close` is the one after `body` when
    * `body` lacks the first character of `close`. */
  lemma FindPastBody(prefix: string, body: string, close: string)
    requires close != [] && close[0] !in body
    ensures Find(prefix + body + close, close, |prefix|) == Some(|prefix| + |body|)
  {
    var s := prefix + body + close;
    var e := |prefix| + |body|;
    assert s[e..e + |close|] == close;
    forall k | |prefix| <= k < e
      ensures !OccursAt(s, k, close)
    {
      assert s[k] == body[k - |prefix|];
      if k + |close| <= |s| {
        assert s[k..k + |close|][0] == s[k];
      }
    }
    FindIs(s, close, |prefix|, e);
  }

  lemma FindInfix(s: string, p: string)
    ensures Find(s, p, 0).Some? <==> IsInfix(p, s)
  {
  }

  /** `s.rfind(p)` restricted to occurrences at or after `from`. */
  function FindLast(s: string, p: string, from: nat): (r: Option<nat>)
    ensures r.Some? ==> from <= r.value && OccursAt(s, r.value, p)
    ensures r.Some? ==> forall i :: r.value < i ==> !OccursAt(s, i, p)
    ensures r.None? ==> forall i :: from <= i ==> !OccursAt(s, i, p)
    decreases |s| - from
  {
    if from + |p| > |s| then None
    else match FindLast(s, p, from + 1)
      case Some(j) => Some(j)
      case None => if s[from..from + |p|] == p then Some(from) else None
  }

  /** The first index at or after `i` that does not hold whitespace. */
  function SpaceEnd(s: string, i: nat): (n: nat)
    requires i <= |s|
    ensures i <= n <= |s|
    ensures forall k :: i <= k < n ==> IsSpace(s[k])
    ensures n < |s| ==> !IsSpace(s[n])
    decreases |s| - i
  {
    if i == |s| || !IsSpace(s[i]) then i else SpaceEnd(s, i + 1)
  }

  /** The start of the run of whitespace that ends at `j`. */
  function SpaceStart(s: string, j: nat): (n: nat)
    requires j <= |s|
    ensures n <= j
    ensures forall k :: n <= k < j ==> IsSpace(s[k])
    ensures n > 0 ==> !IsSpace(s[n - 1])
    decreases j
  {
    if j == 0 || !IsSpace(s[j - 1]) then j else SpaceStart(s, j - 1)
  }

  /** `s.lstrip()` */
  function LStrip(s: string): (r: string)
    ensures |r| <= |s| && r == s[|s| - |r|..]
    ensures forall k :: 0 <= k < |s| - |r| ==> IsSpace(s[k])
    ensures r != "" ==> !IsSpace(r[0])
  {
    s[SpaceEnd(s, 0)..]
  }

  /** `s.rstrip()` */
  function RStrip(s: string): (r: string)
    ensures |r| <= |s| && r == s[..|r|]
    ensures forall k :: |r| <= k < |s| ==> IsSpace(s[k])
    ensures r != "" ==> !IsSpace(r[|r| - 1])
  {
    s[..SpaceStart(s, |s|)]
  }

  /** `s.strip()`: the factor of `s` left after removing whitespace from
    * both ends; it is empty exactly when `s` is all whitespace. */
  function Strip(s: string): (r: string)
    ensures |r| <= |s| && IsInfix(r, s)
    ensures r != "" ==> !IsSpace(r[0]) && !IsSpace(r[|r| - 1])
    ensures r == "" <==> AllSpace(s)
  {
    var a := SpaceEnd(s, 0);
    var b := SpaceStart(s, |s|);
    if b <= a then
      assert a == |s|;
      assert OccursAt(s, 0, "");
      ""
    else
      assert OccursAt(s, a, s[a..b]);
      assert !AllSpace(s) by { assert !IsSpace(s[a]); }
      s[a..b]
  }

  /** A stretch that starts and ends with non-whitespace lies inside the
    * stripped text. */
  lemma StripAround(s: string, i: nat, j: nat)
    requires i < j <= |s| && !IsSpace(s[i]) && !IsSpace(s[j - 1])
    ensures SpaceEnd(s, 0) <= i && j <= SpaceStart(s, |s|)
    ensures Strip(s) == s[SpaceEnd(s, 0)..SpaceStart(s, |s|)]
  {
  }

  /** An occurrence fixes the first character it covers. */
  lemma OccursFirst(s: string, i: int, p: string)
    requires OccursAt(s, i, p) && p != ""
    ensures s[i] == p[0]
  {
    assert s[i..i + |p|][0] == s[i];
  }

  /** An occurrence fixes the last character it covers. */
  lemma OccursLast(s: string, i: int, p: string)
    requires OccursAt(s, i, p) && p != ""
    ensures s[i + |p| - 1] == p[|p| - 1]
  {
    assert s[i..i + |p|][|p| - 1] == s[i + |p| - 1];
  }

  lemma StripOfSpaceFree(s: string)
    requires s != "" && !IsSpace(s[0]) && !IsSpace(s[|s| - 1])
    ensures Strip(s) == s
  {
  }

  /** Stripping twice changes nothing more. */
  lemma {:induction false} StripIdempotent(s: string)
    ensures Strip(Strip(s)) == Strip(s)
  {
    var r := Strip(s);
    if r != "" { StripOfSpaceFree(r); }
  }

  /** `s.replace(pat, rep)`: every non-overlapping occurrence of `pat`,
    * scanning from the left; an empty `pat` inserts `rep` around every
    * character. */
  function Replace(s: string, pat: string, rep: string): (r: string)
    decreases |s|
  {
    if pat == "" then
      if s == "" then rep else rep + [s[0]] + Replace(s[1..], pat, rep)
    else if |s| < |pat| then s
    else if s[..|pat|] == pat then rep + Replace(s[|pat|..], pat, rep)
    else [s[0]] + Replace(s[1..], pat, rep)
  }

  lemma {:induction false} ReplaceAbsent(s: string, pat: string, rep: string)
    requires pat != "" && !IsInfix(pat, s)
    ensures Replace(s, pat, rep) == s
    decreases |s|
  {
    if |s| >= |pat| {
      assert !OccursAt(s, 0, pat);
      assert !IsInfix(pat, s[1..]) by {
        if IsInfix(pat, s[1..]) {
          var i :| 0 <= i <= |s[1..]| && OccursAt(s[1..], i, pat);
          assert s[i + 1..i + 1 + |pat|] == s[1..][i..i + |pat|];
          assert OccursAt(s, i + 1, pat);
        }
      }
      ReplaceAbsent(s[1..], pat, rep);
    }
  }

  /** Text in which `pat` does not start before `k` is copied up to `k`. */
  lemma {:induction false} ReplaceFrom(s: string, pat: string, rep: string, k: nat)
    requires pat != "" && k <= |s|
    requires forall p :: 0 <= p < k ==> !OccursAt(s, p, pat)
    ensures Replace(s, pat, rep) == s[..k] + Replace(s[k..], pat, rep)
  {
    if k == 0 {
      assert s[..0] + Replace(s[0..], pat, rep) == Replace(s, pat, rep);
    } else if |s| < |pat| {
      assert s[..k] + s[k..] == s;
    } else {
      ReplaceFirstCopied(s, pat, rep);
      NoOccurrenceInTail(s, pat, k);
      ReplaceFrom(s[1..], pat, rep, k - 1);
      ConsRejoin(s, k, Replace(s[k..], pat, rep));
    }
  }

  /** Where `pat` does not start, the first character is copied. */
  lemma ReplaceFirstCopied(s: string, pat: string, rep: string)
    requires pat != "" && |pat| <= |s| && !OccursAt(s, 0, pat)
    ensures Replace(s, pat, rep) == [s[0]] + Replace(s[1..], pat, rep)
  {
    assert s[..|pat|] != pat;
  }

  /** The first element put back before the rest of a prefix. */
  lemma ConsRejoin<T>(s: seq<T>, k: nat, x: seq<T>)
    requires 0 < k <= |s|
    ensures s[1..][k - 1..] == s[k..]
    ensures [s[0]] + (s[1..][..k - 1] + x) == s[..k] + x
  {
    assert [s[0]] + s[1..][..k - 1] == s[..k];
    AppendAssoc([s[0]], s[1..][..k - 1], x);
  }

  /** No occurrence before `k` means none before `k - 1` after the first
    * character. */
  lemma NoOccurrenceInTail(s: string, pat: string, k: nat)
    requires 0 < k <= |s|
    requires forall p :: 0 <= p < k ==> !OccursAt(s, p, pat)
    ensures forall p :: 0 <= p < k - 1 ==> !OccursAt(s[1..], p, pat)
  {
    forall p | 0 <= p < k - 1 ensures !OccursAt(s[1..], p, pat) {
      if OccursAt(s[1..], p, pat) {
        assert s[p + 1..p + 1 + |pat|] == s[1..][p..p + |pat|];
        assert OccursAt(s, p + 1, pat);
      }
    }
  }

  /** The prefix of full length is the whole sequence. */
  lemma TakeAll<T>(s: seq<T>)
    ensures s[..|s|] == s
  {
  }

  /** A prefix one element longer ends with that element. */
  lemma PrefixSnoc<T>(s: seq<T>, k: nat)
    requires k < |s|
    ensures s[..k + 1] == s[..k] + [s[k]]
  {
  }

  lemma AppendAssoc<T>(a: seq<T>, b: seq<T>, c: seq<T>)
    ensures a + (b + c) == (a + b) + c
  {
  }

  /** A prefix that lacks the first character of `pat` is copied. */
  lemma ReplaceSkip(a: string, b: string, pat: string, rep: string)
    requires pat != "" && pat[0] !in a
    ensures Replace(a + b, pat, rep) == a + Replace(b, pat, rep)
  {
    forall p | 0 <= p < |a| ensures !OccursAt(a + b, p, pat) {
      assert (a + b)[p] == a[p];
    }
    ReplaceFrom(a + b, pat, rep, |a|);
    assert (a + b)[..|a|] == a && (a + b)[|a|..] == b;
  }

  /** A text that lacks one of the characters of `pat` does not hold `pat`. */
  lemma AbsentCharNoInfix(pat: string, s: string, j: nat)
    requires j < |pat| && pat[j] !in s
    ensures !IsInfix(pat, s)
  {
    forall i | 0 <= i <= |s|
      ensures !OccursAt(s, i, pat)
    {
      if i + |pat| <= |s| {
        assert s[i..i + |pat|][j] == s[i + j];
      }
    }
  }

  /** `pat` does not appear across a joint whose character on either side
    * is foreign to `pat`. */
  lemma NoInfixJoin(x: string, y: string, pat: string)
    requires !IsInfix(pat, x) && !IsInfix(pat, y)
    requires (x != [] && x[|x| - 1] !in pat) || (y != [] && y[0] !in pat)
    ensures !IsInfix(pat, x + y)
  {
    forall i | 0 <= i <= |x + y|
      ensures !OccursAt(x + y, i, pat)
    {
      if i + |pat| <= |x + y| {
        if i + |pat| <= |x| {
          assert !OccursAt(x, i, pat);
          assert (x + y)[i..i + |pat|] == x[i..i + |pat|];
        } else if i >= |x| {
          OccursShift(x, y, i - |x|, pat);
          assert !OccursAt(y, i - |x|, pat);
        } else if x != [] && x[|x| - 1] !in pat {
          assert (x + y)[i..i + |pat|][|x| - 1 - i] == x[|x| - 1];
        } else {
          assert (x + y)[i..i + |pat|][|x| - i] == y[0];
        }
      }
    }
  }

  /** `replace` over a text with a single `pat` right after a part that
    * neither holds `pat` nor ends with one of its characters. */
  lemma ReplaceOnce(a: string, pat: string, b: string, rep: string)
    requires pat != "" && !IsInfix(pat, a) && (a == [] || a[|a| - 1] !in pat)
    ensures Replace(a + pat + b, pat, rep) == a + rep + Replace(b, pat, rep)
  {
    var s := a + pat + b;
    NoneBeforeOnce(a, pat, b);
    ReplaceFrom(s, pat, rep, |a|);
    assert s[..|a|] == a && s[|a|..] == pat + b;
    ReplaceHead(pat, b, rep);
  }

  lemma ReplaceHead(pat: string, b: string, rep: string)
    requires pat != ""
    ensures Replace(pat + b, pat, rep) == rep + Replace(b, pat, rep)
  {
    assert (pat + b)[..|pat|] == pat && (pat + b)[|pat|..] == b;
  }

  lemma NoneBeforeOnce(a: string, pat: string, b: string)
    requires pat != "" && !IsInfix(pat, a) && (a == [] || a[|a| - 1] !in pat)
    ensures forall p :: 0 <= p < |a| ==> !OccursAt(a + pat + b, p, pat)
  {
    var s := a + pat + b;
    forall p | 0 <= p < |a| ensures !OccursAt(s, p, pat) {
      if p + |pat| <= |a| {
        assert !OccursAt(a, p, pat);
        assert s[p..p + |pat|] == a[p..p + |pat|];
      } else if p + |pat| <= |s| {
        assert s[p..p + |pat|][|a| - 1 - p] == a[|a| - 1];
      }
    }
  }

  /** A text whose character at `i` is not in `pat` does not start with
    * `pat` when `pat` reaches past `i`. */
  lemma NoOccurrenceThrough(s: string, i: nat, pat: string)
    requires i < |s| && i < |pat| && s[i] !in pat
    ensures !OccursAt(s, 0, pat)
  {
    if |pat| <= |s| {
      assert s[..|pat|][i] == s[i];
    }
  }

  /** Text copied by `replace` before its first replacement: if what
    * follows `w` starts `pat` after the replacement, it did before. */
  lemma {:induction false} ReplaceKeepsStart(w: string, t: string, pat: string, c: char)
    requires pat != "" && c !in pat
    ensures OccursAt(w + Replace(t, pat, [c]), 0, pat) ==> OccursAt(w + t, 0, pat)
    decreases |t|
  {
    var r := Replace(t, pat, [c]);
    if |t| < |pat| {
    } else if t[..|pat|] == pat {
      if |w| < |pat| {
        assert (w + r)[|w|] == c;
        NoOccurrenceThrough(w + r, |w|, pat);
      } else if OccursAt(w + r, 0, pat) {
        OccursWithin(w, r, 0, pat);
        OccursExtend(w, t, 0, pat);
      }
    } else {
      var rest := Replace(t[1..], pat, [c]);
      assert r == [t[0]] + rest;
      assert w + r == (w + [t[0]]) + rest;
      ReplaceKeepsStart(w + [t[0]], t[1..], pat, c);
      assert (w + [t[0]]) + t[1..] == w + t;
    }
  }

  /** Replacing every `pat` by a character that `pat` lacks leaves no
    * `pat` behind. */
  lemma {:induction false} ReplaceLeavesNone(s: string, pat: string, c: char)
    requires pat != "" && c !in pat
    ensures !IsInfix(pat, Replace(s, pat, [c]))
    decreases |s|
  {
    if |s| >= |pat| {
      if s[..|pat|] == pat {
        var rest := Replace(s[|pat|..], pat, [c]);
        ReplaceLeavesNone(s[|pat|..], pat, c);
        assert Replace(s, pat, [c]) == [c] + rest;
        NoOccurrenceThrough([c] + rest, 0, pat);
        NoneAfterHead([c], rest, pat);
      } else {
        var rest := Replace(s[1..], pat, [c]);
        ReplaceLeavesNone(s[1..], pat, c);
        assert Replace(s, pat, [c]) == [s[0]] + rest;
        ReplaceKeepsStart([s[0]], s[1..], pat, c);
        assert [s[0]] + s[1..] == s;
        assert !OccursAt(s, 0, pat);
        NoneAfterHead([s[0]], rest, pat);
      }
    }
  }

  /** A character put before a text without `pat` that does not start
    * `pat` there adds no occurrence. */
  lemma NoneAfterHead(head: string, rest: string, pat: string)
    requires |head| == 1 && !OccursAt(head + rest, 0, pat) && !IsInfix(pat, rest)
    ensures !IsInfix(pat, head + rest)
  {
    forall i | 1 <= i <= |head + rest|
      ensures !OccursAt(head + rest, i, pat)
    {
      OccursShift(head, rest, i - 1, pat);
    }
  }

  /** Removing occurrences never lengthens the text. */
  lemma {:induction false} ReplaceByEmptyShrinks(s: string, pat: string)
    requires pat != ""
    ensures |Replace(s, pat, "")| <= |s|
    decreases |s|
  {
    if |s| >= |pat| {
      if s[..|pat|] == pat { ReplaceByEmptyShrinks(s[|pat|..], pat); }
      else { ReplaceByEmptyShrinks(s[1..], pat); }
    }
  }

  /** `sep.join(parts)` */
  function Join(sep: string, parts: seq<string>): (r: string)
    ensures parts == [] ==> r == ""
    ensures |parts| == 1 ==> r == parts[0]
  {
    if parts == [] then "" else if |parts| == 1 then parts[0] else parts[0] + sep + Join(sep, parts[1..])
  }

  /** `"".join(parts)` */
  function Concat(parts: seq<string>): (r: string)
    ensures |parts| == 1 ==> r == parts[0]
  {
    if parts == [] then "" else parts[0] + Concat(parts[1..])
  }

  lemma {:induction false} ConcatAppend(parts: seq<string>, p: string)
    ensures Concat(parts + [p]) == Concat(parts) + p
  {
    if parts != [] {
      assert (parts + [p])[1..] == parts[1..] + [p];
      ConcatAppend(parts[1..], p);
    }
  }

  /** `s[:n]` for a non-negative `n`. */
  function Take(s: string, n: nat): (r: string)
    ensures |r| == (if n < |s| then n else |s|)
    ensures r <= s
  {
    if n < |s| then s[..n] else s
  }

  function LowerChar(c: char): (r: char)
    ensures 'A' <= c <= 'Z' ==> r as int == c as int + 32
    ensures !('A' <= c <= 'Z') ==> r == c
  {
    if 'A' <= c <= 'Z' then (c as int + 32) as char else c
  }

  function UpperChar(c: char): (r: char)
    ensures 'a' <= c <= 'z' ==> r as int == c as int - 32
    ensures !('a' <= c <= 'z') ==> r == c
  {
    if 'a' <= c <= 'z' then (c as int - 32) as char else c
  }

  /** `s.lower()` on ASCII letters. */
  function Lower(s: string): (r: string)
    ensures |r| == |s| && forall i :: 0 <= i < |s| ==> r[i] == LowerChar(s[i])
  {
    if s == "" then "" else [LowerChar(s[0])] + Lower(s[1..])
  }

  predicate IsDigits(s: string)
  {
    forall i :: 0 <= i < |s| ==> '0' <= s[i] <= '9'
  }

  /** `str(n)` for a natural number: its decimal digits, most significant
    * first, with no leading zero. */
  function NatText(n: nat): (r: string)
    ensures r != [] && IsDigits(r)
    ensures |r| > 1 ==> r[0] != '0'
  {
    if n < 10 then [('0' as int + n) as char] else NatText(n / 10) + [('0' as int + n % 10) as char]
  }

  /** The number a string of decimal digits denotes. */
  function DigitsValue(s: string): (v: nat)
    requires IsDigits(s)
  {
    if s == [] then 0 else DigitsValue(s[..|s| - 1]) * 10 + (s[|s| - 1] as int - '0' as int)
  }

  /** Reading the digits back gives the number. */
  lemma {:induction false} NatTextValue(n: nat)
    ensures DigitsValue(NatText(n)) == n
  {
    if n >= 10 {
      NatTextValue(n / 10);
      var r := NatText(n);
      assert r[..|r| - 1] == NatText(n / 10);
    }
  }

  /** `s.upper()` on ASCII letters. */
  /** A text whose characters upper-case to those of `t` upper-cases to
    * `t`. */
  lemma UpperIs(s: string, t: string)
    requires |s| == |t| && forall i :: 0 <= i < |s| ==> UpperChar(s[i]) == t[i]
    ensures Upper(s) == t
  {
  }

  function Upper(s: string): (r: string)
    ensures |r| == |s| && forall i :: 0 <= i < |s| ==> r[i] == UpperChar(s[i])
  {
    if s == "" then "" else [UpperChar(s[0])] + Upper(s[1..])
  }
}
