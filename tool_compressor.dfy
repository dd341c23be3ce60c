/** The tool-call compressor (filters/tool_compressor.py).
  *
  * Open WebUI records a tool call in a message as a block
  * `<details type="tool_calls" done="true" content="..." results="...">`
  * ... `</details>` whose two attributes hold HTML-escaped text. The filter
  * deletes both attributes from the block, turns its closing tags into
  * line breaks and closes the block again, optionally appending the
  * unescaped attribute texts. `html.unescape` is the parameter `unescape`.
  */
module ToolCompressor {

  import opened Wrappers
  import opened Text
  import opened Json
  import opened Spans

  /** The delimiters of `<details type="tool_calls" done="true" .*?</details>`. */
  const BlockOpen: string := "<details type=\"tool_calls\" done=\"true\" "
  const BlockClose: string := "</details>"

  /** The literal parts of the attribute pattern
    * `details type="tool_calls" done="true" content="([^"]*?)" results="([^"]*)"`. */
  const AttrHead: string := "details type=\"tool_calls\" done=\"true\" content=\""
  const ResultsSep: string := "\" results=\""
  const Quote: string := "\""

  const ResultsLabel: string := "Results: "
  const ClosingLine: string := "\n</details>"

  function NoMatchMsg(text: string): string
  {
    "Couldn't match tool call '" + text + "'"
  }

  /** The exception of the assertion in the loop over several blocks: its
    * message refers to a variable `i` that does not exist, so building the
    * message raises instead. */
  const UndefinedName: Exc := NameError("i")

  /** The `details` list: every tool-call block, left to right. */
  function Blocks(text: string): seq<string>
  {
    Matches(text, BlockOpen, BlockClose, false, 0)
  }

  predicate QuoteFree(g: string)
  {
    '"' !in g
  }

  /** The text matched by the attribute pattern with groups `g1` and `g2`. */
  function Attrs(g1: string, g2: string): string
  {
    AttrHead + g1 + ResultsSep + g2 + Quote
  }

  /** No quote in `s[a..b]`. */
  lemma QuoteFreeSlice(s: string, a: nat, b: nat)
    requires a <= b <= |s| && forall i :: a <= i < b ==> !OccursAt(s, i, Quote)
    ensures QuoteFree(s[a..b])
  {
    forall i | a <= i < b
      ensures s[i] != '"'
    {
      assert !OccursAt(s, i, Quote);
      assert s[i..i + 1] == [s[i]] && Quote == ['"'];
    }
    assert forall j :: 0 <= j < b - a ==> s[a..b][j] == s[a + j];
  }

  /** A match of the attribute pattern at `p`, taken apart. */
  lemma AttrsParts(s: string, p: int, g1: string, g2: string)
    ensures OccursAt(s, p, Attrs(g1, g2))
            <==> && OccursAt(s, p, AttrHead) && OccursAt(s, p + |AttrHead|, g1)
                 && OccursAt(s, p + |AttrHead| + |g1|, ResultsSep)
                 && OccursAt(s, p + |AttrHead| + |g1| + |ResultsSep|, g2)
                 && OccursAt(s, p + |AttrHead| + |g1| + |ResultsSep| + |g2|, Quote)
  {
    OccursConcat(s, p, AttrHead + g1 + ResultsSep + g2, Quote);
    OccursConcat(s, p, AttrHead + g1 + ResultsSep, g2);
    OccursConcat(s, p, AttrHead + g1, ResultsSep);
    OccursConcat(s, p, AttrHead, g1);
  }

  /** The characters of an occurrence are those of `s` at its place. */
  lemma OccursChars(s: string, i: nat, g: string)
    requires OccursAt(s, i, g)
    ensures forall k :: i <= k < i + |g| ==> s[k] == g[k - i]
  {
    assert forall k :: i <= k < i + |g| ==> s[k] == s[i..i + |g|][k - i];
  }

  /** The attribute pattern tried at `p`, where its head occurs: the first
    * group stops at the first quote, which must open `" results="`; the
    * second group runs to the next quote. */
  function TryAt(s: string, p: nat): Option<(string, string)>
    requires OccursAt(s, p, AttrHead)
  {
    var q := p + |AttrHead|;
    match Find(s, Quote, q)
    case None => None
    case Some(k) =>
      if !OccursAt(s, k, ResultsSep) then None
      else
        var m := k + |ResultsSep|;
        match Find(s, Quote, m)
        case None => None
        case Some(e) => Some((s[q..k], s[m..e]))
  }

  /** What trying the pattern reads is a match of it, with quote-free
    * groups. */
  lemma TryAtSound(s: string, p: nat)
    requires OccursAt(s, p, AttrHead)
    ensures var r := TryAt(s, p);
            r.Some? ==> QuoteFree(r.value.0) && QuoteFree(r.value.1) && OccursAt(s, p, Attrs(r.value.0, r.value.1))
  {
    var q := p + |AttrHead|;
    if TryAt(s, p).Some? {
      var k := Find(s, Quote, q).value;
      var m := k + |ResultsSep|;
      var e := Find(s, Quote, m).value;
      assert TryAt(s, p) == Some((s[q..k], s[m..e]));
      QuoteFreeSlice(s, q, k);
      QuoteFreeSlice(s, m, e);
      AttrsFromParts(s, p, s[q..k], s[m..e]);
    }
  }

  /** The pattern occurs where its parts occur one after the other. */
  lemma AttrsFromParts(s: string, p: nat, g1: string, g2: string)
    requires OccursAt(s, p, AttrHead) && OccursAt(s, p + |AttrHead|, g1)
    requires OccursAt(s, p + |AttrHead| + |g1|, ResultsSep)
    requires OccursAt(s, p + |AttrHead| + |g1| + |ResultsSep|, g2)
    requires OccursAt(s, p + |AttrHead| + |g1| + |ResultsSep| + |g2|, Quote)
    ensures OccursAt(s, p, Attrs(g1, g2))
  {
    AttrsParts(s, p, g1, g2);
  }

  /** Where the pattern matches at `p`, trying it there finds that match. */
  lemma TryAtComplete(s: string, p: nat, g1: string, g2: string)
    requires QuoteFree(g1) && QuoteFree(g2) && OccursAt(s, p, Attrs(g1, g2))
    ensures OccursAt(s, p, AttrHead) && TryAt(s, p) == Some((g1, g2))
  {
    var q := p + |AttrHead|;
    var k := q + |g1|;
    var m := k + |ResultsSep|;
    AttrsParts(s, p, g1, g2);
    SepOpensWithQuote(s, k);
    QuoteEnds(s, q, g1);
    QuoteEnds(s, m, g2);
    TryAtFinds(s, p, k, m + |g2|);
  }

  /** The unfolding of `TryAt` where both quotes are found. */
  lemma TryAtFinds(s: string, p: nat, k: nat, e: nat)
    requires OccursAt(s, p, AttrHead) && Find(s, Quote, p + |AttrHead|) == Some(k)
    requires OccursAt(s, k, ResultsSep) && Find(s, Quote, k + |ResultsSep|) == Some(e)
    ensures TryAt(s, p) == Some((s[p + |AttrHead|..k], s[k + |ResultsSep|..e]))
  {
  }

  /** `" results="` starts with a quote. */
  lemma SepOpensWithQuote(s: string, k: nat)
    requires OccursAt(s, k, ResultsSep)
    ensures OccursAt(s, k, Quote)
  {
    OccursChars(s, k, ResultsSep);
    assert s[k..k + 1] == [s[k]];
  }

  /** A group without quotes followed by a quote ends at the first quote
    * after its start. */
  lemma QuoteEnds(s: string, q: nat, g: string)
    requires QuoteFree(g) && OccursAt(s, q, g) && OccursAt(s, q + |g|, Quote)
    ensures Find(s, Quote, q) == Some(q + |g|) && s[q..q + |g|] == g
  {
    OccursChars(s, q, g);
    forall i | q <= i < q + |g|
      ensures !OccursAt(s, i, Quote)
    {
      assert s[i] == g[i - q];
      assert s[i..i + 1][0] == s[i];
    }
    FindIs(s, Quote, q, q + |g|);
  }

  /** `re.search` of the attribute pattern in `s[from..]`: the leftmost
    * position where it matches, with its two groups. */
  function Attributes(s: string, from: nat): (r: Option<(nat, string, string)>)
    ensures r.Some? ==> from <= r.value.0 && QuoteFree(r.value.1) && QuoteFree(r.value.2)
    ensures r.Some? ==> OccursAt(s, r.value.0, Attrs(r.value.1, r.value.2))
    decreases |s| - from
  {
    match Find(s, AttrHead, from)
    case None => None
    case Some(p) =>
      TryAtSound(s, p);
      match TryAt(s, p)
      case Some((g1, g2)) => Some((p, g1, g2))
      case None => Attributes(s, p + 1)
  }

  /** The search misses no match: it finds one wherever there is one, at
    * the leftmost position, with the groups of the match there. */
  lemma {:induction false} AttributesComplete(s: string, from: nat, p: nat, g1: string, g2: string)
    requires from <= p && QuoteFree(g1) && QuoteFree(g2) && OccursAt(s, p, Attrs(g1, g2))
    ensures Attributes(s, from).Some? && Attributes(s, from).value.0 <= p
    ensures Attributes(s, from).value.0 == p ==> Attributes(s, from) == Some((p, g1, g2))
    decreases |s| - from
  {
    TryAtComplete(s, p, g1, g2);
    var f := Find(s, AttrHead, from).value;
    if TryAt(s, f).Some? {
      AttributesAt(s, from, f);
    } else {
      AttributesSkips(s, from, f, p);
      AttributesComplete(s, f + 1, p, g1, g2);
    }
  }

  /** The search stops at the first head where the pattern is read. */
  lemma AttributesAt(s: string, from: nat, f: nat)
    requires Find(s, AttrHead, from) == Some(f) && TryAt(s, f).Some?
    ensures Attributes(s, from) == Some((f, TryAt(s, f).value.0, TryAt(s, f).value.1))
  {
  }

  /** The search goes on past a head, before the match at `p`, where the
    * pattern is not read. */
  lemma AttributesSkips(s: string, from: nat, f: nat, p: nat)
    requires Find(s, AttrHead, from) == Some(f) && TryAt(s, f).None?
    requires from <= p && OccursAt(s, p, AttrHead) && TryAt(s, p).Some?
    ensures f + 1 <= p && Attributes(s, from) == Attributes(s, f + 1)
  {
    FindNotAfter(s, AttrHead, from, f, p);
    assert f != p;
  }

  /** The text once both matched attributes are deleted and every closing
    * tag is turned into a line break. */
  function Cleaned(text: string, g1: string, g2: string): (r: string)
    ensures !IsInfix(BlockClose, r)
  {
    var t1 := Replace(text, " content=\"" + g1 + "\"", "");
    var t2 := Replace(t1, " results=\"" + g2 + "\"", "");
    ReplaceLeavesNone(t2, BlockClose, '\n');
    Replace(t2, BlockClose, "\n")
  }

  /** What the disabled removals append: each unescaped group after
    * "Results: ". */
  function Appended(g1: string, g2: string, removeContent: bool, removeResults: bool, unescape: string -> string): string
  {
    (if removeContent then "" else ResultsLabel + unescape(g1))
    + (if removeResults then "" else ResultsLabel + unescape(g2))
  }

  /** The closing tag appended unless the text already ends with one. */
  function Closed(t: string): (r: string)
    ensures EndsWith(r, BlockClose)
    ensures EndsWith(t, BlockClose) ==> r == t
    ensures !EndsWith(t, BlockClose) ==> r == t + ClosingLine
  {
    if EndsWith(t, BlockClose) then t
    else
      assert (t + ClosingLine)[|t| + 1..] == BlockClose;
      t + ClosingLine
  }

  /** `compress_tool_calls` on a text with a single block. */
  function CompressOne(text: string, removeContent: bool, removeResults: bool, unescape: string -> string): (r: Result<string>)
    ensures r.Err? <==> Attributes(text, 0).None?
    ensures r.Err? ==> r.error == AssertionError(NoMatchMsg(text))
    ensures r.Ok? ==> EndsWith(r.value, BlockClose)
  {
    match Attributes(text, 0)
    case None => Err(AssertionError(NoMatchMsg(text)))
    case Some((_, g1, g2)) =>
      Ok(Closed(Cleaned(text, g1, g2) + Appended(g1, g2, removeContent, removeResults, unescape)))
  }

  /** A block with no `content="..." results="..."` pair fails the
    * assertion; one with such a pair anywhere does not. */
  lemma CompressOneFails(text: string, removeContent: bool, removeResults: bool, unescape: string -> string)
    ensures CompressOne(text, removeContent, removeResults, unescape).Err?
            <==> forall p: nat, g1, g2 :: QuoteFree(g1) && QuoteFree(g2) ==> !OccursAt(text, p, Attrs(g1, g2))
  {
    if Attributes(text, 0).Some? {
      var (p, g1, g2) := Attributes(text, 0).value;
      assert OccursAt(text, p, Attrs(g1, g2));
    } else {
      forall p: nat, g1, g2 | QuoteFree(g1) && QuoteFree(g2)
        ensures !OccursAt(text, p, Attrs(g1, g2))
      {
        if OccursAt(text, p, Attrs(g1, g2)) {
          AttributesComplete(text, 0, p, g1, g2);
        }
      }
    }
  }

  /** With both removals on (the defaults) nothing is appended: the result
    * is the cleaned text followed by a line break and the only closing tag. */
  lemma CompressOneDefaults(text: string, unescape: string -> string)
    requires Attributes(text, 0).Some?
    ensures var (_, g1, g2) := Attributes(text, 0).value;
            && CompressOne(text, true, true, unescape) == Ok(Cleaned(text, g1, g2) + ClosingLine)
            && !IsInfix(BlockClose, Cleaned(text, g1, g2))
  {
    var (_, g1, g2) := Attributes(text, 0).value;
    var c := Cleaned(text, g1, g2);
    assert Appended(g1, g2, true, true, unescape) == "";
    assert c + "" == c;
    assert !EndsWith(c, BlockClose) by {
      if EndsWith(c, BlockClose) {
        assert OccursAt(c, |c| - |BlockClose|, BlockClose);
      }
    }
  }

  /** With a removal off, the unescaped group follows the cleaned text,
    * after "Results: ", content first. */
  lemma CompressOneAppends(text: string, removeContent: bool, removeResults: bool, unescape: string -> string)
    requires Attributes(text, 0).Some?
    ensures var (_, g1, g2) := Attributes(text, 0).value;
            var body := Cleaned(text, g1, g2)
                        + (if removeContent then "" else ResultsLabel + unescape(g1))
                        + (if removeResults then "" else ResultsLabel + unescape(g2));
            || CompressOne(text, removeContent, removeResults, unescape) == Ok(body)
            || CompressOne(text, removeContent, removeResults, unescape) == Ok(body + ClosingLine)
  {
    var (_, g1, g2) := Attributes(text, 0).value;
    var c := Cleaned(text, g1, g2);
    var a := if removeContent then "" else ResultsLabel + unescape(g1);
    var b := if removeResults then "" else ResultsLabel + unescape(g2);
    assert c + Appended(g1, g2, removeContent, removeResults, unescape) == c + a + b;
  }

  /** A list of results, or the first exception among them, as a list
    * comprehension that raises evaluates. */
  function AllOk(rs: seq<Result<string>>): (r: Result<seq<string>>)
    ensures r.Ok? <==> forall i :: 0 <= i < |rs| ==> rs[i].Ok?
    ensures r.Ok? ==> |r.value| == |rs| && forall i :: 0 <= i < |rs| ==> rs[i] == Ok(r.value[i])
    ensures r.Err? ==> exists i :: 0 <= i < |rs| && rs[i] == Err(r.error) && forall k :: 0 <= k < i ==> rs[k].Ok?
  {
    if rs == [] then Ok([])
    else if rs[0].Err? then Err(rs[0].error)
    else
      match AllOk(rs[1..])
      case Err(e) =>
        ghost var i :| 0 <= i < |rs[1..]| && rs[1..][i] == Err(e) && forall k :: 0 <= k < i ==> rs[1..][k].Ok?;
        assert rs[i + 1] == Err(e) && forall k :: 0 <= k < i + 1 ==> rs[k].Ok?;
        Err(e)
      case Ok(vs) => Ok([rs[0].value] + vs)
  }

  /** The first exception decides. */
  lemma {:induction false} AllOkFirstErr(rs: seq<Result<string>>, k: nat)
    requires k < |rs| && rs[k].Err? && forall i :: 0 <= i < k ==> rs[i].Ok?
    ensures AllOk(rs) == Err(rs[k].error)
  {
    if k > 0 {
      AllOkFirstErr(rs[1..], k - 1);
    }
  }

  lemma AllOkValues(rs: seq<Result<string>>, cs: seq<string>)
    requires |rs| == |cs| && forall i :: 0 <= i < |rs| ==> rs[i] == Ok(cs[i])
    ensures AllOk(rs) == Ok(cs)
  {
    var r := AllOk(rs);
    assert r.Ok?;
    assert forall i :: 0 <= i < |cs| ==> r.value[i] == cs[i];
    assert r.value == cs;
  }

  /** One more successful result extends the values. */
  lemma AllOkSnoc(rs: seq<Result<string>>, k: nat, cs: seq<string>)
    requires k < |rs| && AllOk(rs[..k]) == Ok(cs) && rs[k].Ok?
    ensures AllOk(rs[..k + 1]) == Ok(cs + [rs[k].value])
  {
    assert forall i :: 0 <= i < k ==> rs[..k][i] == rs[i];
    AllOkValues(rs[..k + 1], cs + [rs[k].value]);
  }

  /** An exception after successful results decides. */
  lemma AllOkStops(rs: seq<Result<string>>, k: nat)
    requires k < |rs| && AllOk(rs[..k]).Ok? && rs[k].Err?
    ensures AllOk(rs) == Err(rs[k].error)
  {
    assert forall i :: 0 <= i < k ==> rs[..k][i] == rs[i];
    AllOkFirstErr(rs, k);
  }

  /** The loop over several blocks: each block, which must still occur in
    * the text, has all its occurrences replaced by its compressed form. */
  function ReplaceEach(text: string, ds: seq<string>, cs: seq<string>): (r: Result<string>)
    requires |ds| == |cs|
    ensures r.Err? ==> r.error == UndefinedName
    decreases |ds|
  {
    if ds == [] then Ok(text)
    else if !IsInfix(ds[0], text) then Err(UndefinedName)
    else ReplaceEach(Replace(text, ds[0], cs[0]), ds[1..], cs[1..])
  }

  /** `compress_tool_calls(text)`: no block leaves the text as it is; a
    * single block is compressed; several blocks are each compressed by a
    * call of their own and substituted in turn. */
  function Compressed(text: string, removeContent: bool, removeResults: bool, unescape: string -> string): (r: Result<string>)
    ensures r.Err? ==> r.error.AssertionError? || r.error == UndefinedName
    decreases |text|, 1
  {
    var ds := Blocks(text);
    if ds == [] then
      Ok(text)
    else if |ds| == 1 then
      CompressOne(text, removeContent, removeResults, unescape)
    else
      match AllOk(BlockResults(text, removeContent, removeResults, unescape))
      case Err(e) => Err(e)
      case Ok(cs) => ReplaceEach(text, ds, cs)
  }

  /** `[compress_tool_calls(text=detail) for detail in details]`, each
    * call's result or exception. */
  function BlockResults(text: string, removeContent: bool, removeResults: bool, unescape: string -> string)
    : (rs: seq<Result<string>>)
    requires |Blocks(text)| > 1
    ensures |rs| == |Blocks(text)|
    ensures forall k :: 0 <= k < |rs| && rs[k].Err? ==> rs[k].error.AssertionError? || rs[k].error == UndefinedName
    decreases |text|, 0
  {
    var ds := Blocks(text);
    seq(|ds|, k requires 0 <= k < |ds| =>
          MatchesShorter(text, BlockOpen, BlockClose, false, 0, k);
          Compressed(ds[k], removeContent, removeResults, unescape))
  }

  /** Each block is shorter than the text and its result is its own
    * compression. */
  lemma BlockResultAt(text: string, k: nat, removeContent: bool, removeResults: bool, unescape: string -> string)
    requires |Blocks(text)| > 1 && k < |Blocks(text)|
    ensures |Blocks(text)[k]| < |text|
    ensures BlockResults(text, removeContent, removeResults, unescape)[k]
            == Compressed(Blocks(text)[k], removeContent, removeResults, unescape)
  {
    MatchesShorter(text, BlockOpen, BlockClose, false, 0, k);
  }

  /** A text without a tool-call block comes back unchanged. */
  lemma CompressedWithoutBlock(text: string, removeContent: bool, removeResults: bool, unescape: string -> string)
    requires !IsInfix(BlockOpen, text)
    ensures Compressed(text, removeContent, removeResults, unescape) == Ok(text)
  {
    NoOpenNoMatch(text, BlockOpen, BlockClose);
  }

  /** Each block found is compressed as a single block: searched on its
    * own, it is its only block. */
  lemma BlockCompressedAlone(text: string, k: nat, removeContent: bool, removeResults: bool, unescape: string -> string)
    requires k < |Blocks(text)|
    ensures Blocks(Blocks(text)[k]) == [Blocks(text)[k]]
    ensures Compressed(Blocks(text)[k], removeContent, removeResults, unescape)
            == CompressOne(Blocks(text)[k], removeContent, removeResults, unescape)
  {
    MatchesAreSpans(text, BlockOpen, BlockClose, false, 0, k);
    SpanMatchesItself(Blocks(text)[k], BlockOpen, BlockClose);
  }

  /** With several blocks, the result is that of compressing each block
    * on its own and substituting the compressed blocks in order. */
  lemma SeveralBlocks(text: string, removeContent: bool, removeResults: bool, unescape: string -> string)
    requires |Blocks(text)| > 1
    ensures var ds := Blocks(text);
            Compressed(text, removeContent, removeResults, unescape)
            == match AllOk(seq(|ds|, k requires 0 <= k < |ds| => CompressOne(ds[k], removeContent, removeResults, unescape)))
               case Err(e) => Err(e)
               case Ok(cs) => ReplaceEach(text, ds, cs)
  {
    var ds := Blocks(text);
    var comps := BlockResults(text, removeContent, removeResults, unescape);
    var ones := seq(|ds|, k requires 0 <= k < |ds| => CompressOne(ds[k], removeContent, removeResults, unescape));
    forall k | 0 <= k < |ds|
      ensures comps[k] == ones[k]
    {
      BlockCompressedAlone(text, k, removeContent, removeResults, unescape);
    }
    assert comps == ones;
  }

  /** `compress_tool_calls`: the blocks are compressed one call each, then
    * substituted in the text one after the other. */
  method CompressToolCalls(text: string, removeContent: bool, removeResults: bool, unescape: string -> string)
    returns (r: Result<string>)
    ensures r == Compressed(text, removeContent, removeResults, unescape)
    decreases |text|, 1
  {
    var ds := Blocks(text);
    if ds == [] {
      return Ok(text);
    }
    if |ds| == 1 {
      return CompressOne(text, removeContent, removeResults, unescape);
    }
    var compressed := CompressBlocks(text, removeContent, removeResults, unescape);
    if compressed.Err? {
      return Err(compressed.error);
    }
    r := SubstituteBlocks(text, ds, compressed.value);
  }

  /** The list comprehension over the blocks: the first exception stops it. */
  method CompressBlocks(text: string, removeContent: bool, removeResults: bool, unescape: string -> string)
    returns (r: Result<seq<string>>)
    requires |Blocks(text)| > 1
    ensures r == AllOk(BlockResults(text, removeContent, removeResults, unescape))
    decreases |text|, 0
  {
    var ds := Blocks(text);
    ghost var comps := BlockResults(text, removeContent, removeResults, unescape);
    var cs := [];
    var k := 0;
    while k < |ds|
      invariant 0 <= k <= |ds| && |comps| == |ds|
      invariant AllOk(comps[..k]) == Ok(cs)
    {
      BlockResultAt(text, k, removeContent, removeResults, unescape);
      var c := CompressToolCalls(ds[k], removeContent, removeResults, unescape);
      if c.Err? {
        AllOkStops(comps, k);
        return Err(c.error);
      }
      AllOkSnoc(comps, k, cs);
      cs := cs + [c.value];
      k := k + 1;
    }
    TakeAll(comps);
    return Ok(cs);
  }

  /** The loop `text = text.replace(det, comp)` over the blocks, after the
    * assertion that the block is still in the text. */
  method SubstituteBlocks(text: string, ds: seq<string>, cs: seq<string>) returns (r: Result<string>)
    requires |ds| == |cs|
    ensures r == ReplaceEach(text, ds, cs)
  {
    var t := text;
    var k := 0;
    while k < |ds|
      invariant 0 <= k <= |ds|
      invariant ReplaceEach(text, ds, cs) == ReplaceEach(t, ds[k..], cs[k..])
    {
      assert ds[k..][1..] == ds[k + 1..] && cs[k..][1..] == cs[k + 1..];
      if !IsInfix(ds[k], t) {
        return Err(UndefinedName);
      }
      t := Replace(t, ds[k], cs[k]);
      k := k + 1;
    }
    return Ok(t);
  }

  /** `m["content"] = compress_tool_calls(m["content"])` on one message:
    * the message must be a dict with a "content" string. */
  function CompressMessage(m: Json, removeContent: bool, removeResults: bool, unescape: string -> string)
    : (r: Result<Json>)
    ensures r.Ok? <==> && Index(m, "content").Ok? && Index(m, "content").value.Str?
                       && Compressed(Index(m, "content").value.s, removeContent, removeResults, unescape).Ok?
    ensures r.Ok? ==> && r.value.Obj? && Keys(r.value.fields) == Keys(m.fields)
                      && Get(r.value.fields, "content")
                         == Some(Str(Compressed(Get(m.fields, "content").value.s, removeContent, removeResults, unescape).value))
                      && forall k :: k != "content" ==> Get(r.value.fields, k) == Get(m.fields, k)
  {
    match Index(m, "content")
    case Err(e) => Err(e)
    case Ok(c) =>
      if !c.Str? then Err(TypeError)
      else
        match Compressed(c.s, removeContent, removeResults, unescape)
        case Err(e) => Err(e)
        case Ok(t) => Ok(Obj(Set(m.fields, "content", Str(t))))
  }

  /** A message whose content holds no tool-call block is left as it is. */
  lemma MessageWithoutBlock(fields: Dict, content: string, removeContent: bool, removeResults: bool, unescape: string -> string)
    requires Get(fields, "content") == Some(Str(content)) && !IsInfix(BlockOpen, content)
    ensures CompressMessage(Obj(fields), removeContent, removeResults, unescape) == Ok(Obj(fields))
  {
    CompressedWithoutBlock(content, removeContent, removeResults, unescape);
    SetSame(fields, "content", Str(content));
  }

  /** The loop body as a function of the message. */
  function Compressor(removeContent: bool, removeResults: bool, unescape: string -> string): Json -> Result<Json>
  {
    m => CompressMessage(m, removeContent, removeResults, unescape)
  }

  /** `inlet` and `outlet` alike: the content of every message of
    * `body["messages"]` is compressed in place, in order; the first
    * exception stops the loop with the messages before it rewritten. */
  method CompressMessages(messages: array<Json>, removeContent: bool, removeResults: bool, unescape: string -> string)
    returns (error: Option<Exc>, ghost failed: nat)
    modifies messages
    ensures error.None? ==> MapOk(old(messages[..]), Compressor(removeContent, removeResults, unescape)) == Ok(messages[..])
    ensures error.Some? ==> MapOk(old(messages[..]), Compressor(removeContent, removeResults, unescape)) == Err(error.value)
    ensures error.Some? ==> && failed < messages.Length
                            && MapOk(old(messages[..])[..failed], Compressor(removeContent, removeResults, unescape)).Ok?
                            && messages[..] == MapOk(old(messages[..])[..failed], Compressor(removeContent, removeResults, unescape)).value
                                               + old(messages[..])[failed..]
  {
    error, failed := UpdateEach(messages, Compressor(removeContent, removeResults, unescape));
  }
}
