/** The thought-removing filter (filters/hide_thinking.py).
  *
  * Two kinds of thought are recognised: raw blocks that start a line
  * ("^``` ?thinking", any text, "```" under DOTALL and MULTILINE, that is
  * `LazyBlock` with `anchored` set) and blocks already converted to HTML
  * ("<details>", whitespace, "<summary>Reasonning</summary>", then the rest
  * of the line up to the first "</details>"; this pattern is compiled
  * without flags, so its `.` does not cross a newline).
  *
  * `remove_thought` checks its input with three assertions but returns the
  * text with only the CONVERTED blocks removed: the raw blocks are only
  * removed for the step-1 check, whose result is discarded. The lemmas
  * below state what that means for the inlet and the outlet.
  */
module HideThinkingFilter {

  import opened Wrappers
  import opened Text
  import opened Json
  import opened Thoughts

  const DetailsOpen: string := "<details>"
  const Summary: string := "<summary>Reasonning</summary>"
  const DetailsClose: string := "</details>"

  const EmptyTextMsg: string := "Received empty text"
  const Step1Msg: string := "Empty text after step 1 of thought removal"
  const Step2Msg: string := "Empty text after step 2 of thought removal"

  /** The end of `.*?</details>` matched from `m`: the first closing tag,
    * provided no newline comes before it. */
  function ConvertedEnd(s: string, m: nat): (r: Option<nat>)
    ensures r.Some? ==> m + |DetailsClose| <= r.value <= |s| && OccursAt(s, r.value - |DetailsClose|, DetailsClose)
    ensures r.Some? ==> forall k :: m <= k < r.value - |DetailsClose| ==> s[k] != '\n' && !OccursAt(s, k, DetailsClose)
    decreases |s| - m
  {
    if OccursAt(s, m, DetailsClose) then Some(m + |DetailsClose|)
    else if m >= |s| || s[m] == '\n' then None
    else ConvertedEnd(s, m + 1)
  }

  /** Where a converted block starting at `i` ends, when one starts there. */
  function ConvertedFrom(s: string, i: nat): (r: Option<nat>)
    ensures r.Some? ==> OccursAt(s, i, DetailsOpen) && i < r.value <= |s|
    ensures r.Some? ==> OccursAt(s, SpaceEnd(s, i + |DetailsOpen|), Summary)
    ensures r.Some? ==> forall k :: SpaceEnd(s, i + |DetailsOpen|) + |Summary| <= k < r.value - |DetailsClose| ==> s[k] != '\n'
  {
    if !OccursAt(s, i, DetailsOpen) then None
    else
      var a := SpaceEnd(s, i + |DetailsOpen|);
      if !OccursAt(s, a, Summary) then None
      else ConvertedEnd(s, a + |Summary|)
  }

  /** `converted_pattern.search(s[from..])`, as the span `[start, end)`. */
  function ConvertedMatch(s: string, from: nat): (r: Option<(nat, nat)>)
    ensures r.Some? ==> from <= r.value.0 && ConvertedFrom(s, r.value.0) == Some(r.value.1)
    ensures r.Some? ==> forall i :: from <= i < r.value.0 ==> ConvertedFrom(s, i).None?
    ensures r.None? ==> forall i :: from <= i ==> ConvertedFrom(s, i).None?
    decreases |s| - from
  {
    if from >= |s| then None
    else
      match ConvertedFrom(s, from)
      case Some(j) => Some((from, j))
      case None => ConvertedMatch(s, from + 1)
  }

  /** `converted_pattern.sub("", s[from..])`. */
  function RemoveConverted(s: string, from: nat): (r: string)
    requires from <= |s|
    ensures |r| <= |s| - from
    decreases |s| - from
  {
    match ConvertedMatch(s, from)
    case None => s[from..]
    case Some((i, j)) => s[from..i] + RemoveConverted(s, j)
  }

  lemma RemoveConvertedUnchanged(s: string)
    ensures RemoveConverted(s, 0) == s <==> ConvertedMatch(s, 0).None?
  {
    if ConvertedMatch(s, 0).Some? {
      var (i, j) := ConvertedMatch(s, 0).value;
      assert |RemoveConverted(s, 0)| <= i + |s| - j < |s|;
    }
  }

  lemma {:induction false} RemoveConvertedSubsequence(s: string, from: nat)
    requires from <= |s|
    ensures IsSubsequence(RemoveConverted(s, from), s[from..])
    decreases |s| - from
  {
    match ConvertedMatch(s, from)
    case None => SubsequenceRefl(s[from..]);
    case Some((i, j)) =>
      RemoveConvertedSubsequence(s, j);
      SubsequenceDropSpan(s, from, i, j, RemoveConverted(s, j));
  }

  /** Some thought of either kind is there. */
  predicate HasThought(text: string)
  {
    LazyBlock(text, 0, true).Some? || ConvertedMatch(text, 0).Some?
  }

  /** `remove_thought`: the text with its converted blocks removed and then
    * stripped, or the assertion that failed. */
  function RemoveThought(text: string): (r: Result<string>)
    ensures !HasThought(text) ==> r == Ok(text)
    ensures HasThought(text) && r.Ok? ==> r.value == Strip(RemoveConverted(text, 0)) && r.value != ""
  {
    if !HasThought(text) then Ok(text)
    else if Strip(text) == "" then Err(AssertionError(EmptyTextMsg))
    else if Strip(RemoveBlocks(text, 0, true)) == "" then Err(AssertionError(Step1Msg))
    else if Strip(RemoveConverted(text, 0)) == "" then Err(AssertionError(Step2Msg))
    else Ok(Strip(RemoveConverted(text, 0)))
  }

  /** The first assertion never fails: either kind of thought holds a
    * character that is not whitespace. */
  lemma EmptyTextUnreachable(text: string)
    ensures RemoveThought(text) != Err(AssertionError(EmptyTextMsg))
  {
    if HasThought(text) {
      ThoughtNotBlank(text);
    }
  }

  lemma ThoughtNotBlank(text: string)
    requires HasThought(text)
    ensures Strip(text) != ""
  {
    if LazyBlock(text, 0, true).Some? {
      MatchSurvivesStrip(text, true);
    } else if ConvertedMatch(text, 0).Some? {
      var i := ConvertedMatch(text, 0).value.0;
      assert text[i] == text[i..i + |DetailsOpen|][0] == '<';
      assert !AllSpace(text);
    }
  }

  /** The result only deletes characters of the text. */
  lemma RemoveThoughtSubsequence(text: string)
    requires RemoveThought(text).Ok?
    ensures IsSubsequence(RemoveThought(text).value, text)
  {
    if !HasThought(text) {
      SubsequenceRefl(text);
    } else {
      var removed := RemoveConverted(text, 0);
      StripSubsequence(removed);
      RemoveConvertedSubsequence(text, 0);
      assert text[0..] == text;
      SubsequenceTrans(Strip(removed), removed, text);
    }
  }

  /** Raw thoughts are kept: without a converted block the text comes back
    * stripped, with its raw block still in place. */
  lemma RawThoughtsKept(text: string)
    requires LazyBlock(text, 0, true).Some? && ConvertedMatch(text, 0).None?
    requires RemoveThought(text).Ok?
    ensures RemoveThought(text) == Ok(Strip(text))
    ensures LazyBlock(RemoveThought(text).value, 0, true).Some?
  {
    RemoveConvertedUnchanged(text);
    MatchSurvivesStrip(text, true);
  }

  /** The one block of a text that is nothing but one raw thought is the
    * whole text. */
  lemma OnlyThoughtBlock()
    ensures LazyBlock("```thinking ok```", 0, true) == Some((0, 17))
  {
    var s := "```thinking ok```";
    assert s[0..12][3] == 't' && OpenerSpaced[3] == ' ';
    assert OccursAt(s, 0, OpenerTight) && !OccursAt(s, 0, OpenerSpaced);
    assert FirstOpener(s, 0, true) == Some(0);
    assert s[14..17] == Fence;
    assert Find(s, Fence, 14) == Some(14);
    assert Find(s, Fence, 13) == Some(14) by {
      assert s[13..16][0] == 'k';
    }
    assert Find(s, Fence, 12) == Some(14) by {
      assert s[12..15][0] == 'o';
    }
    assert Find(s, Fence, 11) == Some(14) by {
      assert s[11..14][0] == ' ';
    }
  }

  /** A text that is nothing but one raw thought fails the step-1 check. */
  lemma OnlyThoughtFails()
    ensures RemoveThought("```thinking ok```") == Err(AssertionError(Step1Msg))
  {
    var s := "```thinking ok```";
    OnlyThoughtBlock();
    assert RemoveBlocks(s, 17, true) == "";
    assert RemoveBlocks(s, 0, true) == "";
    assert Strip(s) != "" by { assert !IsSpace(s[0]); }
  }

  // ----- inlet -----

  /** `remove_thought(x)` on a JSON value: only a string can be searched. */
  function InletText(c: Json): (r: Result<Json>)
    ensures r.Ok? <==> c.Str? && RemoveThought(c.s).Ok?
    ensures r.Ok? ==> r.value == Str(RemoveThought(c.s).value)
  {
    if !c.Str? then Err(TypeError)
    else
      match RemoveThought(c.s)
      case Err(e) => Err(e)
      case Ok(t) => Ok(Str(t))
  }

  /** `v[key] = remove_thought(v[key])`. */
  function RewriteField(v: Json, key: string): (r: Result<Json>)
    ensures r.Ok? <==> Index(v, key).Ok? && InletText(Index(v, key).value).Ok?
    ensures r.Ok? ==> r.value.Obj? && Get(r.value.fields, key) == Some(InletText(Index(v, key).value).value)
    ensures r.Ok? ==> forall k :: k != key ==> Get(r.value.fields, k) == Get(v.fields, k)
  {
    match Index(v, key)
    case Err(e) => Err(e)
    case Ok(c) =>
      match InletText(c)
      case Err(e) => Err(e)
      case Ok(t) => Ok(Obj(Set(v.fields, key, t)))
  }

  /** One item of a list content: its "content", or else its "text", is
    * rewritten; an item with neither is left as it is. */
  function InletItem(m2: Json): (r: Result<Json>)
  {
    match Contains(m2, "content")
    case Err(e) => Err(e)
    case Ok(true) => RewriteField(m2, "content")
    case Ok(false) =>
      match Contains(m2, "text")
      case Err(e) => Err(e)
      case Ok(true) => RewriteField(m2, "text")
      case Ok(false) => Ok(m2)
  }

  /** One message: a list content is rewritten item by item, any other
    * content as a whole; a message without "content" is left alone. */
  function InletMessage(m: Json): (r: Result<Json>)
    ensures r.Ok? && m.Obj? ==> r.value.Obj? && forall k :: k != "content" ==> Get(r.value.fields, k) == Get(m.fields, k)
  {
    match Contains(m, "content")
    case Err(e) => Err(e)
    case Ok(false) => Ok(m)
    case Ok(true) =>
      match Index(m, "content")
      case Err(e) => Err(e)
      case Ok(c) =>
        if c.Arr? then
          match MapOk(c.items, InletItem)
          case Err(e) => Err(e)
          case Ok(items') => Ok(Obj(Set(m.fields, "content", Arr(items'))))
        else RewriteField(m, "content")
  }

  /** A content that is not a list is rewritten as a whole. */
  lemma InletMessageWhole(m: Json, c: Json)
    requires Contains(m, "content") == Ok(true) && Index(m, "content") == Ok(c) && !c.Arr?
    ensures InletMessage(m) == RewriteField(m, "content")
  {
  }

  /** A dict whose string content holds no thought is left exactly as it is. */
  lemma PlainMessageUnchanged(fields: Dict, t: string)
    requires Get(fields, "content") == Some(Str(t)) && !HasThought(t)
    ensures InletMessage(Obj(fields)) == Ok(Obj(fields))
  {
    SetSame(fields, "content", Str(t));
  }

  /** Converted blocks go, raw thoughts stay: the string content of a dict
    * message becomes the text without its converted blocks, and a text
    * with only a raw thought comes back stripped with the thought in it. */
  lemma InletOnStringContent(fields: Dict, t: string)
    requires Get(fields, "content") == Some(Str(t)) && HasThought(t)
    requires InletMessage(Obj(fields)).Ok?
    ensures Get(InletMessage(Obj(fields)).value.fields, "content") == Some(Str(Strip(RemoveConverted(t, 0))))
    ensures ConvertedMatch(t, 0).None? ==> LazyBlock(Strip(RemoveConverted(t, 0)), 0, true).Some?
  {
    if ConvertedMatch(t, 0).None? {
      RawThoughtsKept(t);
    }
  }

  /** Items `[p..]` of a list content are still as they were. */
  ghost predicate PartlyRewritten(before: Json, after: Json, p: nat)
  {
    && before.Obj? && Index(before, "content").Ok? && Index(before, "content").value.Arr?
    && var items := Index(before, "content").value.items;
    && p < |items| && MapOk(items[..p], InletItem).Ok?
    && after == Obj(Set(before.fields, "content", Arr(MapOk(items[..p], InletItem).value + items[p..])))
  }

  /** The rewrite of message `i` by the inlet, in place. On an exception
    * the message is as it was, or, for a list content, the items before
    * the one that raised are already rewritten. */
  method RewriteMessage(messages: array<Json>, i: nat) returns (error: Option<Exc>, ghost p: nat)
    requires i < messages.Length
    modifies messages
    ensures forall k :: 0 <= k < messages.Length && k != i ==> messages[k] == old(messages[k])
    ensures error.None? ==> InletMessage(old(messages[i])) == Ok(messages[i])
    ensures error.Some? ==> InletMessage(old(messages[i])) == Err(error.value)
    ensures error.Some? ==> messages[i] == old(messages[i]) || PartlyRewritten(old(messages[i]), messages[i], p)
  {
    var m := messages[i];
    p := 0;
    error := None;
    var has := Contains(m, "content");
    if has.Err? {
      error := Some(has.error);
      return;
    }
    if !has.value {
      return;
    }
    var c := Index(m, "content");
    if c.Err? {
      error := Some(c.error);
      return;
    }
    if c.value.Arr? {
      error, p := RewriteList(messages, i, m.fields, c.value.items);
    } else {
      InletMessageWhole(m, c.value);
      var t := RewriteField(m, "content");
      if t.Err? {
        error := Some(t.error);
        return;
      }
      messages[i] := t.value;
    }
  }

  /** The items of a list content, rewritten in place one after the other;
    * an exception leaves the items before it rewritten. */
  method RewriteList(messages: array<Json>, i: nat, fields: Dict, items: seq<Json>) returns (error: Option<Exc>, ghost p: nat)
    requires i < messages.Length && messages[i] == Obj(fields) && Get(fields, "content") == Some(Arr(items))
    modifies messages
    ensures forall k :: 0 <= k < messages.Length && k != i ==> messages[k] == old(messages[k])
    ensures error.None? ==> InletMessage(old(messages[i])) == Ok(messages[i])
    ensures error.Some? ==> InletMessage(old(messages[i])) == Err(error.value)
    ensures error.Some? ==> PartlyRewritten(old(messages[i]), messages[i], p)
  {
    var rewritten, e, q := MapEach(items, InletItem);
    messages[i] := Obj(Set(fields, "content", Arr(rewritten)));
    error, p := e, q;
  }

  /** `inlet`: `messages` is the list under `body["messages"]`, or None
    * when the body has no such key. Every message is rewritten in turn, in
    * place; the first exception stops the loop with the messages before it
    * rewritten. */
  method Inlet(messages: Option<array<Json>>) returns (error: Option<Exc>, ghost failed: nat, ghost p: nat)
    modifies if messages.Some? then {messages.value} else {}
    ensures messages.None? ==> error == Some(KeyError("messages"))
    ensures messages.Some? && error.None? ==> MapOk(old(messages.value[..]), InletMessage) == Ok(messages.value[..])
    ensures messages.Some? && error.Some? ==>
              failed < messages.value.Length && InletMessage(old(messages.value[failed])) == Err(error.value)
    ensures messages.Some? && error.Some? ==>
              forall k :: 0 <= k < failed ==> InletMessage(old(messages.value[k])) == Ok(messages.value[k])
    ensures messages.Some? && error.Some? ==>
              forall k :: failed < k < messages.value.Length ==> messages.value[k] == old(messages.value[k])
    ensures messages.Some? && error.Some? ==>
              messages.value[failed] == old(messages.value[failed])
              || PartlyRewritten(old(messages.value[failed]), messages.value[failed], p)
  {
    error, failed, p := None, 0, 0;
    if messages.None? {
      error := Some(KeyError("messages"));
      return;
    }
    var ms := messages.value;
    var i := 0;
    while i < ms.Length
      invariant 0 <= i <= ms.Length
      invariant forall k :: 0 <= k < i ==> InletMessage(old(ms[k])) == Ok(ms[k])
      invariant forall k :: i <= k < ms.Length ==> ms[k] == old(ms[k])
    {
      var e, q := RewriteMessage(ms, i);
      if e.Some? {
        error, failed, p := e, i, q;
        return;
      }
      i := i + 1;
    }
    assert MapOk(old(ms[..]), InletMessage).value == ms[..];
  }

  // ----- outlet -----

  /** The content the outlet leaves in the last message, given the content
    * `last` it found there, or the assertion `remove_thought` raised. */
  function OutletText(last: string): (r: Result<string>)
    ensures LazyBlock(last, 0, true).None? ==> r == Ok(last)
  {
    if LazyBlock(last, 0, true).None? then Ok(last)
    else
      var stripped := Strip(last);
      match RemoveThought(stripped)
      case Err(e) => Err(e)
      case Ok(t) =>
        var cleaned := Strip(t);
        var written := if stripped != cleaned then cleaned else last;
        Ok(if cleaned == "" && stripped != "" then stripped else written)
  }

  /** What the outlet makes of a content with a raw thought: the text
    * without its converted blocks, or the content as it was; never the
    * empty text, so the fallback of the source is never taken. */
  lemma OutletResult(last: string)
    requires LazyBlock(last, 0, true).Some? && OutletText(last).Ok?
    ensures Strip(RemoveThought(Strip(last)).value) != ""
    ensures OutletText(last).value != ""
    ensures OutletText(last).value == last || OutletText(last).value == Strip(RemoveConverted(Strip(last), 0))
  {
    MatchSurvivesStrip(last, true);
    StripIdempotent(RemoveConverted(Strip(last), 0));
  }

  /** Without converted blocks the outlet leaves the content alone, raw
    * thought included. */
  lemma OutletKeepsRawThoughts(last: string)
    requires LazyBlock(last, 0, true).Some? && ConvertedMatch(Strip(last), 0).None?
    requires OutletText(last).Ok?
    ensures OutletText(last) == Ok(last)
  {
    MatchSurvivesStrip(last, true);
    RawThoughtsKept(Strip(last));
    StripIdempotent(last);
  }

  /** A reply that is nothing but a thought makes the outlet raise. */
  lemma OutletRaisesOnOnlyThought()
    ensures OutletText("```thinking ok```") == Err(AssertionError(Step1Msg))
  {
    var s := "```thinking ok```";
    OnlyThoughtFails();
    assert s[0] == '`' && s[|s| - 1] == '`';
    StripOfSpaceFree(s);
  }

  /** The outlet on the messages of the chat body, or the exception it
    * raises. */
  function OutletStep(ms: seq<Json>): (r: Result<seq<Json>>)
    ensures r.Ok? ==> ms != [] && |r.value| == |ms| && r.value[..|ms| - 1] == ms[..|ms| - 1]
  {
    if ms == [] then Err(IndexError)
    else
      var n := |ms| - 1;
      match Index(ms[n], "content")
      case Err(e) => Err(e)
      case Ok(c) =>
        if !c.Str? then Err(TypeError)
        else
          match OutletText(c.s)
          case Err(e) => Err(e)
          case Ok(t) => Ok(ms[n := Obj(Set(ms[n].fields, "content", Str(t)))])
  }

  /** The outlet step once the last message is known to be a dict with a
    * string content `last`. */
  lemma OutletStepAt(ms: seq<Json>, fields: Dict, last: string)
    requires ms != [] && ms[|ms| - 1] == Obj(fields) && Get(fields, "content") == Some(Str(last))
    ensures OutletStep(ms) == match OutletText(last)
                              case Err(e) => Err(e)
                              case Ok(t) => Ok(ms[|ms| - 1 := Obj(Set(fields, "content", Str(t)))])
  {
  }

  /** The outlet step when the outlet text of that content is `t`. */
  lemma OutletStepWrites(ms: seq<Json>, fields: Dict, last: string, t: string)
    requires ms != [] && ms[|ms| - 1] == Obj(fields) && Get(fields, "content") == Some(Str(last))
    requires OutletText(last) == Ok(t)
    ensures OutletStep(ms) == Ok(ms[|ms| - 1 := Obj(Set(fields, "content", Str(t)))])
  {
    OutletStepAt(ms, fields, last);
  }

  /** The outlet step when making the outlet text of that content raises
    * `e`. */
  lemma OutletStepFails(ms: seq<Json>, fields: Dict, last: string, e: Exc)
    requires ms != [] && ms[|ms| - 1] == Obj(fields) && Get(fields, "content") == Some(Str(last))
    requires OutletText(last) == Err(e)
    ensures OutletStep(ms) == Err(e)
  {
    OutletStepAt(ms, fields, last);
  }

  /** The `__user__` argument as the outlet reads `__user__["valves"].enable`:
    * None, a dict without "valves", or one whose valves hold `enable`. */
  datatype UserArg = NoUser | NoValves | WithValves(enable: bool)

  /** `outlet`: `user` is `__user__` and `messages` the list under
    * `body["messages"]`, or None when the body has no such key. The user's
    * switch is read first; the last message is then rewritten in place. */
  method Outlet(user: UserArg, messages: Option<array<Json>>) returns (error: Option<Exc>)
    modifies if messages.Some? then {messages.value} else {}
    ensures user.NoUser? ==> error == Some(TypeError)
    ensures user.NoValves? ==> error == Some(KeyError("valves"))
    ensures user.WithValves? && !user.enable ==> error.None?
    ensures user.WithValves? && user.enable && messages.None? ==> error == Some(KeyError("messages"))
    ensures user.WithValves? && user.enable && messages.Some? ==>
              OutletStep(old(messages.value[..])) == if error.Some? then Err(error.value) else Ok(messages.value[..])
    ensures messages.Some? && (error.Some? || !user.WithValves? || !user.enable) ==>
              messages.value[..] == old(messages.value[..])
  {
    error := None;
    match user {
      case NoUser => return Some(TypeError);
      case NoValves => return Some(KeyError("valves"));
      case WithValves(enable) =>
        if !enable {
          return;
        }
    }
    if messages.None? {
      return Some(KeyError("messages"));
    }
    var ms := messages.value;
    var r := OutletMessages(ms[..]);
    if r.Err? {
      error := Some(r.error);
      return;
    }
    var n := ms.Length - 1;
    ms[n] := r.value[n];
    assert ms[..] == r.value;
  }

  /** The messages the outlet leaves, or the exception it raises, computed
    * from the messages as they are on entry. */
  method OutletMessages(ms: seq<Json>) returns (r: Result<seq<Json>>)
    ensures r == OutletStep(ms)
  {
    if ms == [] {
      return Err(IndexError);
    }
    var n := |ms| - 1;
    var c := Index(ms[n], "content");
    if c.Err? {
      return Err(c.error);
    }
    if !c.value.Str? {
      return Err(TypeError);
    }
    var fields, last := ms[n].fields, c.value.s;
    var text := NewContent(last);
    if text.Err? {
      OutletStepFails(ms, fields, last, text.error);
      return Err(text.error);
    }
    if text.value.Some? {
      OutletStepWrites(ms, fields, last, text.value.value);
      return Ok(ms[n := Obj(Set(fields, "content", Str(text.value.value)))]);
    }
    OutletStepWrites(ms, fields, last, last);
    SetSame(fields, "content", Str(last));
    assert ms == ms[n := Obj(Set(fields, "content", Str(last)))];
    return Ok(ms);
  }

  /** The search and `remove_thought` of the outlet for the content `last`:
    * the text to write, none when the content stays as it is, or the
    * exception raised. */
  method NewContent(last: string) returns (r: Result<Option<string>>)
    ensures r.Err? ==> OutletText(last) == Err(r.error)
    ensures r.Ok? && r.value.Some? ==> OutletText(last) == Ok(r.value.value)
    ensures r == Ok(None) ==> OutletText(last) == Ok(last)
  {
    if LazyBlock(last, 0, true).None? {
      return Ok(None);
    }
    var stripped := Strip(last);
    var rt := RemoveThought(stripped);
    if rt.Err? {
      return Err(rt.error);
    }
    var cleaned := Strip(rt.value);
    // `cleaned` is never empty (`OutletResult`), so the fallback of the
    // source, which puts the stripped text back, is never taken.
    OutletResult(last);
    if stripped != cleaned {
      return Ok(Some(cleaned));
    }
    return Ok(None);
  }
}
