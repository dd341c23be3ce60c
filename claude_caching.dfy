/** Anthropic prompt caching: every system message of a chat is replaced by
  * one whose content is a single text part marked `cache_control:
  * ephemeral`. The rewrite is written out identically in the caching filter,
  * in its work-in-progress successor and in the HideThinkingPipe; this
  * module models it once.
  */
module ClaudeCaching {

  import opened Wrappers
  import opened Text
  import opened Json

  const CacheControl: Json := Obj([("type", Str("ephemeral"))])
  const UnexpectedSystemMsg: string := "Unexpected system message"

  /** The single content part of a cached system prompt. */
  function CachedPart(prompt: Json): (p: Json)
  {
    Obj([("type", Str("text")), ("text", prompt), ("cache_control", CacheControl)])
  }

  /** The message that replaces a system message. */
  function CachedSystem(prompt: Json): (m: Json)
  {
    Obj([("role", Str("system")), ("content", Arr([CachedPart(prompt)]))])
  }

  /** `sys_prompt = ""` then `sys_prompt += mm["text"]` for each part, in
    * order: the first part that is not a dict with a string "text" raises. */
  function PartsText(parts: seq<Json>): Result<string>
  {
    Joined(parts, PartText)
  }

  /** `mm["text"]` of one part, which must be a string to be appended. */
  function PartText(part: Json): (r: Result<string>)
    ensures r.Ok? <==> Index(part, "text").Ok? && Index(part, "text").value.Str?
  {
    match Index(part, "text")
    case Err(e) => Err(e)
    case Ok(Str(t)) => Ok(t)
    case Ok(_) => Err(TypeError)
  }

  /** A list of parts gives a text exactly when every part has a string
    * under "text". */
  lemma PartsTextOk(parts: seq<Json>)
    ensures PartsText(parts).Ok? <==> forall i :: 0 <= i < |parts| ==> PartText(parts[i]).Ok?
  {
    JoinedOk(parts, PartText);
  }

  /** The list branch of the rewrite, as the loop that accumulates it. */
  method JoinPartTexts(parts: seq<Json>) returns (r: Result<string>)
    ensures r == PartsText(parts)
  {
    var acc := "";
    var i := 0;
    while i < |parts|
      invariant 0 <= i <= |parts|
      invariant PartsText(parts[..i]) == Ok(acc)
    {
      assert parts[..i + 1][..i] == parts[..i];
      match Index(parts[i], "text") {
        case Err(e) =>
          PartsTextErrorLasts(parts, i + 1);
          return Err(e);
        case Ok(t) =>
          if !t.Str? {
            PartsTextErrorLasts(parts, i + 1);
            return Err(TypeError);
          }
          acc := acc + t.s;
      }
      i := i + 1;
    }
    assert parts[..i] == parts;
    r := Ok(acc);
  }

  /** Once a prefix of the parts fails, the whole list fails the same way. */
  lemma PartsTextErrorLasts(parts: seq<Json>, k: nat)
    requires k <= |parts| && PartsText(parts[..k]).Err?
    ensures PartsText(parts) == PartsText(parts[..k])
  {
    JoinedErrorLasts(parts, PartText, k);
  }

  /** The prompt of a system message's content: a string as it is, a list
    * of parts concatenated, a dict's "text" whatever its type; any other
    * content raises. */
  function SystemPrompt(content: Json): (r: Result<Json>)
    ensures content.Str? ==> r == Ok(content)
    ensures r.Ok? ==> content.Str? || content.Arr? || content.Obj?
    ensures content.Obj? ==> r == Index(content, "text")
    ensures !(content.Str? || content.Arr? || content.Obj?) ==> r == Err(Raised(UnexpectedSystemMsg))
  {
    match content
    case Str(_) => Ok(content)
    case Arr(parts) => (match PartsText(parts) case Ok(s) => Ok(Str(s)) case Err(e) => Err(e))
    case Obj(_) => Index(content, "text")
    case _ => Err(Raised(UnexpectedSystemMsg))
  }

  /** One turn of the loop over the messages: a non-system message is left
    * as it is; a system message is replaced by its cached form. */
  function Rewrite(m: Json): (r: Result<Json>)
    ensures Index(m, "role").Ok? && Index(m, "role").value != Str("system") ==> r == Ok(m)
    ensures Index(m, "role").Err? ==> r == Err(Index(m, "role").error)
    ensures IsSystem(m) && r.Ok? ==>
              Index(m, "content").Ok? && SystemPrompt(Index(m, "content").value).Ok? && r.value == CachedSystem(SystemPrompt(Index(m, "content").value).value)
  {
    match Index(m, "role")
    case Err(e) => Err(e)
    case Ok(role) =>
      if role != Str("system") then Ok(m)
      else
        match Index(m, "content")
        case Err(e) => Err(e)
        case Ok(c) =>
          match SystemPrompt(c)
          case Err(e) => Err(e)
          case Ok(p) => Ok(CachedSystem(p))
  }

  predicate IsSystem(m: Json)
  {
    Index(m, "role") == Ok(Str("system"))
  }

  /** The whole loop on a list of messages: each message rewritten, or the
    * exception of the first one that cannot be. */
  function RewriteAll(ms: seq<Json>): (r: Result<seq<Json>>)
    ensures r.Ok? <==> forall i :: 0 <= i < |ms| ==> Rewrite(ms[i]).Ok?
    ensures r.Ok? ==> |r.value| == |ms| && forall i :: 0 <= i < |ms| ==> Rewrite(ms[i]) == Ok(r.value[i])
  {
    MapOk(ms, Rewrite)
  }

  /** `for i, m in enumerate(messages): ... messages[i] = {...}`: the list
    * is rewritten in place. On an exception the messages before the
    * failing one are already replaced and the rest are as they were. */
  method CacheSystemMessages(msgs: array<Json>) returns (error: Option<Exc>)
    modifies msgs
    ensures error.None? <==> RewriteAll(old(msgs[..])).Ok?
    ensures error.None? ==> msgs[..] == RewriteAll(old(msgs[..])).value
    ensures error.Some? ==> Err(error.value) == RewriteAll(old(msgs[..]))
    ensures error.Some? ==> exists k :: 0 <= k < msgs.Length && Rewrite(old(msgs[k])) == Err(error.value)
                                       && msgs[k..] == old(msgs[k..])
                                       && forall j :: 0 <= j < k ==> Rewrite(old(msgs[j])) == Ok(msgs[j])
  {
    ghost var ms := msgs[..];
    ghost var k;
    error, k := RewriteEach(msgs, Rewrite);
    if error.Some? {
      RewriteAllAt(ms, k);
    } else {
      RewriteAllAt(ms, |ms|);
      assert msgs[..] == RewriteAll(ms).value;
    }
  }

  /** `RewriteAll` is decided by the first message it cannot rewrite. */
  lemma RewriteAllAt(ms: seq<Json>, k: nat)
    requires k <= |ms| && forall j :: 0 <= j < k ==> Rewrite(ms[j]).Ok?
    ensures k < |ms| && Rewrite(ms[k]).Err? ==> RewriteAll(ms) == Err(Rewrite(ms[k]).error)
    ensures k == |ms| ==> RewriteAll(ms).Ok?
  {
    if k < |ms| && Rewrite(ms[k]).Err? {
      MapOkFirstErr(ms, Rewrite, k);
    }
  }

  /** Non-system messages keep their position and value; system messages
    * become the cached form of their prompt, the other keys dropped. */
  lemma RewriteAllShape(ms: seq<Json>, i: nat)
    requires RewriteAll(ms).Ok? && i < |ms|
    ensures !IsSystem(ms[i]) ==> RewriteAll(ms).value[i] == ms[i]
    ensures IsSystem(ms[i]) ==> Keys(RewriteAll(ms).value[i].fields) == ["role", "content"]
  {
  }

  /** The rewrite of an already-cached message reproduces it, as long as
    * its prompt is a string. */
  lemma CachedSystemStable(prompt: string)
    ensures Rewrite(CachedSystem(Str(prompt))) == Ok(CachedSystem(Str(prompt)))
  {
    var part := CachedPart(Str(prompt));
    assert Get(part.fields, "text") == Some(Str(prompt));
    assert PartText(part) == Ok(prompt);
    JoinedOne(part, PartText);
  }

  /** Rewriting twice is rewriting once, for messages whose prompt is a
    * string (every string or list content, and dict content whose "text"
    * is a string). */
  lemma {:induction false} RewriteIdempotent(m: Json)
    requires Rewrite(m).Ok?
    requires IsSystem(m) ==> SystemPrompt(Index(m, "content").value).value.Str?
    ensures Rewrite(Rewrite(m).value) == Rewrite(m)
  {
    if IsSystem(m) {
      CachedSystemStable(SystemPrompt(Index(m, "content").value).value.s);
    }
  }

  /** The dict branch copies its "text" into the cached part whatever its
    * type. */
  lemma RewriteDictContent(p: Json)
    ensures Rewrite(Obj([("role", Str("system")), ("content", Obj([("text", p)]))])) == Ok(CachedSystem(p))
  {
    var m := Obj([("role", Str("system")), ("content", Obj([("text", p)]))]);
    assert Index(m, "role") == Ok(Str("system"));
    assert Index(m, "content") == Ok(Obj([("text", p)]));
    assert Index(Obj([("text", p)]), "text") == Ok(p);
  }

  /** A cached part whose text is not a string cannot be concatenated by
    * the list branch. */
  lemma CachedNonStringRaises(p: Json)
    requires !p.Str?
    ensures Rewrite(CachedSystem(p)) == Err(TypeError)
  {
    var c := CachedSystem(p);
    assert Index(c, "role") == Ok(Str("system"));
    assert Index(c, "content") == Ok(Arr([CachedPart(p)]));
    assert Get(CachedPart(p).fields, "text") == Some(p);
    assert PartText(CachedPart(p)) == Err(TypeError);
    JoinedOne(CachedPart(p), PartText);
  }

  /** Hence the rewrite is not idempotent on a dict content whose "text"
    * is not a string: the second pass raises. */
  lemma RewriteNotIdempotentOnDictText(p: Json)
    requires !p.Str?
    ensures var m := Obj([("role", Str("system")), ("content", Obj([("text", p)]))]);
            Rewrite(m).Ok? && Rewrite(Rewrite(m).value) == Err(TypeError)
  {
    RewriteDictContent(p);
    CachedNonStringRaises(p);
  }

  /** The whole-list rewrite is idempotent under the same condition. */
  lemma {:induction false} RewriteAllIdempotent(ms: seq<Json>)
    requires RewriteAll(ms).Ok?
    requires forall i :: 0 <= i < |ms| && IsSystem(ms[i]) ==> SystemPrompt(Index(ms[i], "content").value).value.Str?
    ensures RewriteAll(RewriteAll(ms).value) == RewriteAll(ms)
  {
    var r := RewriteAll(ms).value;
    forall i | 0 <= i < |r| ensures Rewrite(r[i]) == Ok(r[i]) {
      RewriteIdempotent(ms[i]);
    }
    RewriteAllOfFixed(r);
  }

  lemma RewriteAllOfFixed(ms: seq<Json>)
    requires forall i :: 0 <= i < |ms| ==> Rewrite(ms[i]) == Ok(ms[i])
    ensures RewriteAll(ms) == Ok(ms)
  {
    MapOkFixed(ms, Rewrite);
  }
}

/** The Automatic Claude Caching filter: its inlet caches every system
  * prompt of the chat when the `cache_system_prompt` valve is on. */
module ClaudeCachingFilter {

  import opened Wrappers
  import opened Json
  import opened ClaudeCaching

  /** `inlet`: `messages` is the list held under `body["messages"]`, which
    * is rewritten in place, or None when the body has no such key; the body
    * is not otherwise changed. */
  method Inlet(cacheSystemPrompt: bool, messages: Option<array<Json>>) returns (error: Option<Exc>)
    modifies if messages.Some? then {messages.value} else {}
    ensures !cacheSystemPrompt ==> error.None?
    ensures !cacheSystemPrompt && messages.Some? ==> messages.value[..] == old(messages.value[..])
    ensures cacheSystemPrompt && messages.None? ==> error == Some(KeyError("messages"))
    ensures cacheSystemPrompt && messages.Some? ==> (error.None? <==> RewriteAll(old(messages.value[..])).Ok?)
    ensures cacheSystemPrompt && messages.Some? && error.None? ==>
              messages.value[..] == RewriteAll(old(messages.value[..])).value
    ensures cacheSystemPrompt && messages.Some? && error.Some? ==>
              Err(error.value) == RewriteAll(old(messages.value[..]))
  {
    error := None;
    if cacheSystemPrompt {
      if messages.None? {
        return Some(KeyError("messages"));
      }
      error := CacheSystemMessages(messages.value);
    }
  }
}

/** The work-in-progress version of the caching filter: the rewrite is gated
  * by a regular expression on the model name and insists on a system
  * message. The pattern is compiled once, when the filter is built, from the
  * default `regex_model` valve "anthropic|claude|sonnet|haiku|opus", which is
  * modelled as its list of literal alternatives. Later values of the valve
  * are only tested for being non-empty: the match always uses the pattern
  * compiled at construction. */
module WipClaudeCachingFilter {

  import opened Wrappers
  import opened Text
  import opened Json
  import opened ClaudeCaching

  const DefaultRegexModel: seq<string> := ["anthropic", "claude", "sonnet", "haiku", "opus"]
  const NoSystemMsg: string := "AutomaticClaudeCachingFilter:outlet:No system message found in the chat."

  /** `re.match(alternatives, model, IGNORECASE)`: some alternative is a
    * prefix of the model name, ASCII case ignored. */
  predicate MatchesAtStart(alternatives: seq<string>, model: string)
  {
    exists i :: 0 <= i < |alternatives| && Lower(alternatives[i]) <= Lower(model)
  }

  function MatchesAtStartNow(alternatives: seq<string>, model: string): (b: bool)
    ensures b == MatchesAtStart(alternatives, model)
  {
    if alternatives == [] then false
    else if Lower(alternatives[0]) <= Lower(model) then true
    else
      var b := MatchesAtStartNow(alternatives[1..], model);
      assert forall i :: 0 < i < |alternatives| ==> alternatives[i] == alternatives[1..][i - 1];
      b
  }

  /** `any(m["role"] == "system" for m in messages)`, which stops at the
    * first system message and raises on a message with no role before it. */
  function AnySystem(ms: seq<Json>): (r: Result<bool>)
    ensures r == Ok(true) ==> exists i :: 0 <= i < |ms| && IsSystem(ms[i])
    ensures r == Ok(false) ==> forall i :: 0 <= i < |ms| ==> !IsSystem(ms[i])
    ensures (forall i :: 0 <= i < |ms| ==> Index(ms[i], "role").Ok?) ==> r.Ok?
  {
    if ms == [] then Ok(false)
    else
      match Index(ms[0], "role")
      case Err(e) => Err(e)
      case Ok(role) =>
        if role == Str("system") then Ok(true)
        else
          var r := AnySystem(ms[1..]);
          assert forall i :: 0 < i < |ms| ==> ms[i] == ms[1..][i - 1];
          r
  }

  /** `inlet`. `regexValve` is the current `regex_model` valve, `model`
    * is `body["model"]` when the body has one, and `messages` the list under
    * `body["messages"]`, or None when the body has no such key. With an
    * empty valve the local `model` is never bound, and the log line after
    * the system-message check raises a NameError. */
  method Inlet(cacheSystemPrompt: bool, regexValve: string, model: Option<Json>, messages: Option<array<Json>>)
    returns (error: Option<Exc>)
    modifies if messages.Some? then {messages.value} else {}
    ensures !cacheSystemPrompt ==> error.None?
    ensures cacheSystemPrompt && regexValve != "" && model.None? ==> error == Some(KeyError("model"))
    ensures cacheSystemPrompt && regexValve != "" && model.Some? && !model.value.Str? ==> error == Some(TypeError)
    ensures (cacheSystemPrompt && regexValve != "" && model.Some? && model.value.Str?
             && !MatchesAtStart(DefaultRegexModel, model.value.s)) ==> error.None?
    ensures messages.None? && cacheSystemPrompt
            && (regexValve == "" || (model.Some? && model.value.Str? && MatchesAtStart(DefaultRegexModel, model.value.s)))
            ==> error == Some(KeyError("messages"))
    ensures messages.Some? && error.None? && messages.value[..] != old(messages.value[..]) ==>
              cacheSystemPrompt && regexValve != "" && model.Some? && model.value.Str?
              && MatchesAtStart(DefaultRegexModel, model.value.s)
              && RewriteAll(old(messages.value[..])).Ok? && messages.value[..] == RewriteAll(old(messages.value[..])).value
    ensures (cacheSystemPrompt && regexValve != "" && model.Some? && model.value.Str?
             && MatchesAtStart(DefaultRegexModel, model.value.s)) && messages.Some? ==>
              match AnySystem(old(messages.value[..]))
              case Err(e) => error == Some(e)
              case Ok(false) => error == Some(Raised(NoSystemMsg))
              case Ok(true) => error.None? <==> RewriteAll(old(messages.value[..])).Ok?
    ensures cacheSystemPrompt && regexValve == "" && messages.Some? ==>
              error == Some(match AnySystem(old(messages.value[..]))
                            case Err(e) => e
                            case Ok(false) => Raised(NoSystemMsg)
                            case Ok(true) => NameError("model"))
    ensures messages.Some? && (!cacheSystemPrompt || regexValve == "") ==> messages.value[..] == old(messages.value[..])
  {
    error := None;
    if !cacheSystemPrompt {
      return;
    }
    if regexValve != "" {
      if model.None? {
        return Some(KeyError("model"));
      }
      if !model.value.Str? {
        return Some(TypeError);
      }
      if !MatchesAtStartNow(DefaultRegexModel, model.value.s) {
        return;
      }
    }
    if messages.None? {
      return Some(KeyError("messages"));
    }
    var ms := messages.value;
    match AnySystem(ms[..]) {
      case Err(e) => return Some(e);
      case Ok(any) =>
        if !any {
          return Some(Raised(NoSystemMsg));
        }
    }
    if regexValve == "" {
      return Some(NameError("model"));
    }
    error := CacheSystemMessages(ms);
  }

  /** With the default valve, a model named "Claude..." in any case is
    * cached. */
  lemma DefaultRegexMatchesClaude(rest: string)
    ensures MatchesAtStart(DefaultRegexModel, "Claude" + rest)
  {
    var m := "Claude" + rest;
    var l := Lower(m);
    assert l[..6] == "claude" by {
      assert forall i :: 0 <= i < 6 ==> l[i] == LowerChar(m[i]);
    }
    assert Lower("claude") == "claude";
    assert DefaultRegexModel[1] == "claude";
  }

  /** Setting the valve to "gpt" does not make "gpt-4o" cached: the pattern
    * matched is still the one compiled from the default valve. */
  lemma GptModelBypassed()
    ensures !MatchesAtStart(DefaultRegexModel, "gpt-4o")
  {
    DefaultRegexNeedsInitial("gpt-4o");
  }

  /** With the default valve, a model whose name starts with some other
    * letter is not cached, whatever comes after (a LiteLLM alias such as
    * "litellm_sonnet-3.5" included). */
  lemma DefaultRegexNeedsInitial(model: string)
    requires model != "" && LowerChar(model[0]) !in {'a', 'c', 's', 'h', 'o'}
    ensures !MatchesAtStart(DefaultRegexModel, model)
  {
    forall i | 0 <= i < |DefaultRegexModel|
      ensures !(Lower(DefaultRegexModel[i]) <= Lower(model))
    {
      var a := DefaultRegexModel[i];
      assert a[0] in {'a', 'c', 's', 'h', 'o'};
      assert Lower(a)[0] == LowerChar(a[0]) == a[0];
      assert Lower(model)[0] == LowerChar(model[0]);
    }
  }
}
