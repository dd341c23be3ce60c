/** The "Don't Accumulate Thoughts" filter (filters/DontAccumulateThoughts.py).
  *
  * Before a chat is sent upstream, every `<thinking>...</thinking>` span
  * (the default pattern, compiled with DOTALL by the second `__init__`,
  * which is the one Python keeps) is deleted from the content of every
  * assistant message, so that earlier thoughts are not paid for again.
  */
module DontAccumulateThoughts {

  import opened Wrappers
  import opened Text
  import opened Json
  import opened Thoughts
  import opened Spans

  const Open := "<thinking>"
  const Close := "</thinking>"

  /** `thinking_regex.sub("", content).strip()`. */
  function Filtered(content: string): (r: string)
    ensures |r| <= |content|
  {
    Strip(RemoveSpans(content, Open, Close, false, 0))
  }

  /** The filtered text only deletes characters, and a text without an
    * opening tag is only stripped. */
  lemma FilteredDeletes(content: string)
    ensures IsSubsequence(Filtered(content), content)
    ensures !IsInfix(Open, content) ==> Filtered(content) == Strip(content)
  {
    var removed := RemoveSpans(content, Open, Close, false, 0);
    RemoveSpansSubsequence(content, Open, Close, false, 0);
    assert content[0..] == content;
    StripSubsequence(removed);
    SubsequenceTrans(Filtered(content), removed, content);
    if !IsInfix(Open, content) {
      NoOpenNoSpan(content, Open, Close, false);
    }
  }

  /** `filter_message`: a non-assistant message, or one with empty or
    * missing content, is returned as it is; otherwise a copy whose content
    * is the filtered text. `message.get` raises on a value that is not a
    * dict, and `re.sub` on content that is not a string. */
  function FilterMessage(m: Json): (r: Result<Json>)
    ensures r.Err? <==> !m.Obj? || (GetOr(m.fields, "role", Null) == Str("assistant")
                                    && Truthy(GetOr(m.fields, "content", Str(""))) && !GetOr(m.fields, "content", Str("")).Str?)
    ensures r.Err? ==> r.error == (if m.Obj? then TypeError else AttributeError)
    ensures r.Ok? && GetOr(m.fields, "role", Null) != Str("assistant") ==> r.value == m
    ensures r.Ok? && !Truthy(GetOr(m.fields, "content", Str(""))) ==> r.value == m
    ensures r.Ok? ==> r.value.Obj? && Keys(r.value.fields) == Keys(m.fields)
    ensures r.Ok? ==> forall k :: k != "content" ==> Get(r.value.fields, k) == Get(m.fields, k)
    ensures r.Ok? && r.value != m ==> && Get(m.fields, "content").Some? && Get(m.fields, "content").value.Str?
                                      && Get(r.value.fields, "content") == Some(Str(Filtered(Get(m.fields, "content").value.s)))
  {
    match GetAttr(m, "role", Null)
    case Err(e) => Err(e)
    case Ok(role) =>
      if role != Str("assistant") then Ok(m)
      else
        var content := GetOr(m.fields, "content", Str(""));
        if !Truthy(content) then Ok(m)
        else if !content.Str? then Err(TypeError)
        else Ok(Obj(Set(m.fields, "content", Str(Filtered(content.s)))))
  }

  /** An assistant message with string content keeps its keys and gets
    * the filtered content, even when that content is empty. */
  lemma FilterAssistant(fields: Dict, s: string)
    requires Get(fields, "role") == Some(Str("assistant")) && Get(fields, "content") == Some(Str(s))
    ensures FilterMessage(Obj(fields)) == Ok(Obj(Set(fields, "content", Str(Filtered(s)))))
  {
    assert GetOr(fields, "role", Null) == Str("assistant");
    assert GetOr(fields, "content", Str("")) == Str(s);
    if s == "" {
      FilteredEmpty();
      SetSame(fields, "content", Str(s));
      assert FilterMessage(Obj(fields)) == Ok(Obj(fields));
    } else {
      assert Truthy(Str(s));
    }
  }

  lemma FilteredEmpty()
    ensures Filtered("") == ""
  {
  }

  /** The new list `inlet` assigns to `body["messages"]`, or the exception
    * that stops the loop. */
  function FilteredMessages(v: Json): (r: Result<seq<Json>>)
    ensures r.Ok? ==> v.Arr? || (v.Str? && v.s == []) || (v.Obj? && v.fields == [])
    ensures r.Ok? && v.Arr? ==> |r.value| == |v.items| && forall i :: 0 <= i < |v.items| ==> FilterMessage(v.items[i]) == Ok(r.value[i])
  {
    match Iterate(v)
    case Err(e) => Err(e)
    case Ok(xs) =>
      if v.Str? && v.s != [] then
        assert FilterMessage(xs[0]).Err?;
        MapOkFirstErr(xs, FilterMessage, 0);
        MapOk(xs, FilterMessage)
      else if v.Obj? && v.fields != [] then
        assert FilterMessage(xs[0]).Err?;
        MapOkFirstErr(xs, FilterMessage, 0);
        MapOk(xs, FilterMessage)
      else MapOk(xs, FilterMessage)
  }

  /** Messages are filtered one by one, so the count and order are kept,
    * and a list with nothing to filter comes back as it was. */
  lemma FilteredMessagesUnchanged(ms: seq<Json>)
    requires forall i :: 0 <= i < |ms| ==> FilterMessage(ms[i]) == Ok(ms[i])
    ensures FilteredMessages(Arr(ms)) == Ok(ms)
  {
    assert MapOk(ms, FilterMessage).value == ms;
  }

  /** `inlet`: when the body has "messages", each message is filtered into
    * a new list that replaces the old one; any exception is logged and the
    * body is returned as it was. */
  method Inlet(body: Dict) returns (r: Dict, error: Option<Exc>)
    ensures !HasKey(body, "messages") ==> r == body && error.None?
    ensures HasKey(body, "messages") ==> match FilteredMessages(Get(body, "messages").value)
                                         case Err(e) => r == body && error == Some(e)
                                         case Ok(ms) => r == Set(body, "messages", Arr(ms)) && error.None?
  {
    r, error := body, None;
    if !HasKey(body, "messages") {
      return;
    }
    var v := Get(body, "messages").value;
    var it := Iterate(v);
    if it.Err? {
      error := Some(it.error);
      return;
    }
    var filtered := FilterAll(it.value);
    if filtered.Err? {
      error := Some(filtered.error);
      return;
    }
    r := Set(body, "messages", Arr(filtered.value));
  }

  /** The loop of `inlet`: each message is filtered and appended to the new
    * list in turn, and the first exception stops it. */
  method FilterAll(xs: seq<Json>) returns (r: Result<seq<Json>>)
    ensures r == MapOk(xs, FilterMessage)
  {
    var filtered := [];
    var k := 0;
    while k < |xs|
      invariant 0 <= k <= |xs| && MapOk(xs[..k], FilterMessage) == Ok(filtered)
    {
      var f := FilterMessage(xs[k]);
      if f.Err? {
        MapOkStops(xs, FilterMessage, k);
        return Err(f.error);
      }
      MapOkSnoc(xs[..k], xs[k], FilterMessage);
      PrefixSnoc(xs, k);
      filtered := filtered + [f.value];
      k := k + 1;
    }
    TakeAll(xs);
    return Ok(filtered);
  }
}
