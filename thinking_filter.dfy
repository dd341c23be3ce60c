/** The thinking filter (filters/thinking_filter/thinking_filter.py).
  *
  * Its outlet removes from the content of the last message of a chat every
  * thought block that starts a line: the start token "^``` ?thinking", any
  * text, and the end token "```", searched under DOTALL and MULTILINE,
  * that is `LazyBlock` with `anchored` set. The `enable` switch it tests
  * is the filter's own `UserValves()` instance, built with its default
  * and never replaced: the `__user__` argument, valves included, is only
  * logged, so the switch is always on.
  */
module ThinkingFilter {

  import opened Wrappers
  import opened Text
  import opened Json
  import opened Thoughts

  /** The content the outlet leaves in the last message, given the content
    * `last` it found there. */
  function OutletText(last: string): (r: string)
    ensures LazyBlock(last, 0, true).None? ==> r == last
  {
    if LazyBlock(last, 0, true).None? then last
    else
      var stripped := Strip(last);
      var cleaned := Strip(RemoveBlocks(stripped, 0, true));
      var written := if stripped != cleaned then cleaned else last;
      if cleaned == "" && stripped != "" then stripped else written
  }

  /** When a block is found: removing it always changes the stripped text
    * (the "Unmodified text" branch is never taken), the blocks are replaced
    * by nothing unless nothing else is left, and the message never becomes
    * empty. The result only deletes characters of the content. */
  lemma OutletRemovesBlocks(last: string)
    requires LazyBlock(last, 0, true).Some?
    ensures Strip(last) != Strip(RemoveBlocks(Strip(last), 0, true))
    ensures OutletText(last) == (if Strip(RemoveBlocks(Strip(last), 0, true)) == "" then Strip(last)
                                 else Strip(RemoveBlocks(Strip(last), 0, true)))
    ensures OutletText(last) != ""
    ensures IsSubsequence(OutletText(last), last)
  {
    var stripped := Strip(last);
    var removed := RemoveBlocks(stripped, 0, true);
    MatchSurvivesStrip(last, true);
    RemoveBlocksShrinks(stripped, true);
    StripSubsequence(last);
    if Strip(removed) != "" {
      StripSubsequence(removed);
      RemoveBlocksSubsequence(stripped, 0, true);
      SubsequenceTrans(Strip(removed), removed, stripped);
      SubsequenceTrans(Strip(removed), stripped, last);
    }
  }

  /** The outlet on the messages of the chat body, or the exception it
    * raises: an empty list, a last message that is not a dict with a
    * "content" key, or content that is not a string. */
  function OutletStep(ms: seq<Json>): Result<seq<Json>>
  {
    if ms == [] then Err(IndexError)
    else
      var n := |ms| - 1;
      match Index(ms[n], "content")
      case Err(e) => Err(e)
      case Ok(c) =>
        if !c.Str? then Err(TypeError)
        else if LazyBlock(c.s, 0, true).None? then Ok(ms)
        else Ok(ms[n := Obj(Set(ms[n].fields, "content", Str(OutletText(c.s))))])
  }

  /** Only the last message can change and the count is kept; the outlet
    * raises exactly on an empty list or a last message without string
    * content. */
  lemma OutletStepShape(ms: seq<Json>)
    ensures var r := OutletStep(ms);
            r.Ok? ==> ms != [] && |r.value| == |ms| && r.value[..|ms| - 1] == ms[..|ms| - 1]
    ensures OutletStep(ms).Err? <==> ms == [] || Index(ms[|ms| - 1], "content").Err? || !Index(ms[|ms| - 1], "content").value.Str?
  {
    if ms != [] {
      var c := Index(ms[|ms| - 1], "content");
      OutletStepLast(ms, c);
      if c.Ok? && c.value.Str? && LazyBlock(c.value.s, 0, true).Some? {
        LastUpdateKeepsInit(ms, Obj(Set(ms[|ms| - 1].fields, "content", Str(OutletText(c.value.s)))));
      }
    }
  }

  /** The outlet step by what reading the last content gives. */
  lemma OutletStepLast(ms: seq<Json>, c: Result<Json>)
    requires ms != [] && Index(ms[|ms| - 1], "content") == c
    ensures c.Err? ==> OutletStep(ms) == Err(c.error)
    ensures c.Ok? && !c.value.Str? ==> OutletStep(ms) == Err(TypeError)
    ensures c.Ok? && c.value.Str? && LazyBlock(c.value.s, 0, true).None? ==> OutletStep(ms) == Ok(ms)
    ensures c.Ok? && c.value.Str? && LazyBlock(c.value.s, 0, true).Some? ==>
              ms[|ms| - 1].Obj? &&
              OutletStep(ms) == Ok(ms[|ms| - 1 := Obj(Set(ms[|ms| - 1].fields, "content", Str(OutletText(c.value.s))))])
  {
  }

  /** `self.uvalves.enable`: the default of `UserValves.enable`. */
  const Enabled := true

  /** `outlet`: `messages` is the list under `body["messages"]`, or None
    * when the body has no such key; the last message is rewritten in
    * place. The new messages and the error are determined by the old
    * messages alone, whatever `user` (`__user__`, with its valves) is. */
  method Outlet(user: Option<Json>, messages: Option<array<Json>>) returns (error: Option<Exc>)
    modifies if messages.Some? then {messages.value} else {}
    ensures messages.None? ==> error == Some(KeyError("messages"))
    ensures messages.Some? ==>
              OutletStep(old(messages.value[..])) == if error.Some? then Err(error.value) else Ok(messages.value[..])
    ensures messages.Some? && error.Some? ==> messages.value[..] == old(messages.value[..])
  {
    error := None;
    if !Enabled {
      return;
    }
    if messages.None? {
      error := Some(KeyError("messages"));
      return;
    }
    var ms := messages.value;
    if ms.Length == 0 {
      error := Some(IndexError);
      return;
    }
    var n := ms.Length - 1;
    var m := ms[n];
    var c := Index(m, "content");
    OutletStepLast(ms[..], c);
    if c.Err? {
      error := Some(c.error);
      return;
    }
    if !c.value.Str? {
      error := Some(TypeError);
      return;
    }
    if LazyBlock(c.value.s, 0, true).Some? {
      RewriteLast(ms, m.fields, c.value.s);
    }
  }


  /** The writes of the outlet once a block is found in the content `last`
    * of the last message, a dict with entries `fields`. */
  method RewriteLast(messages: array<Json>, fields: Dict, last: string)
    requires messages.Length > 0 && messages[messages.Length - 1] == Obj(fields)
    requires LazyBlock(last, 0, true).Some?
    modifies messages
    ensures messages[..] == old(messages[..])[messages.Length - 1 := Obj(Set(fields, "content", Str(OutletText(last))))]
  {
    var stripped := Strip(last);
    var cleaned := Strip(RemoveBlocks(stripped, 0, true));
    // The stripped text always changes (`OutletRemovesBlocks`), so the
    // first assignment of the source always happens; when it assigned
    // the empty text, the second one puts the stripped text back.
    OutletRemovesBlocks(last);
    var content := cleaned;
    if cleaned == "" && stripped != "" {
      content := stripped;
    }
    messages[messages.Length - 1] := Obj(Set(fields, "content", Str(content)));
  }
}
