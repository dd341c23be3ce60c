/** The CostTrackingPipe: picks the caller's LiteLLM virtual key, forwards
  * the chat, and removes the FIRST thought block of the streamed answer.
  *
  * The HTTP request is not modelled: the pipe's inputs are the body it would
  * send, the response lines or the whole response it would receive, and the
  * environment it reads. The user valves are the instance's own
  * (`self.uvalves`), never the caller's.
  */
module CostTrackingPipe {

  import opened Wrappers
  import opened Text
  import opened Json
  import opened Thoughts
  import opened ChunkParsing
  import opened Status
  import RemoveThinkingPipe

  const EnvVar: string := "COSTTRACKINGPIPE_API_KEYS"
  const NoEnvMsg: string := "You left the valve api_keys to None but didn't set an env variable COSTTRACKINGPIPE_API_KEYS"
  /** The decoding error and the dict's repr are elided from these two. */
  const CastMsg: string := "Error when casting api_keys from str to dict: "
  const NoDefaultMsg: string := "No 'default' key found in dict: "
  const DefaultKeyName: string := "default"

  /** The JSON text of the keys: the valve, or else the environment variable. */
  function KeysSource(valve: Option<string>, env: map<string, string>): (r: Option<string>)
    ensures valve.Some? ==> r == valve
    ensures valve.None? ==> (r.Some? <==> EnvVar in env)
    ensures valve.None? && EnvVar in env ==> r == Some(env[EnvVar])
  {
    if valve.Some? then valve else if EnvVar in env then Some(env[EnvVar]) else None
  }

  /** The key table: a JSON dict holding "default", decoded by `parse`. The
    * same check runs when the valves are updated. */
  function LoadApiKeys(valve: Option<string>, env: map<string, string>, parse: string -> Option<Json>): (r: Result<Dict>)
    ensures r.Ok? <==> KeysSource(valve, env).Some? && parse(KeysSource(valve, env).value).Some?
                       && parse(KeysSource(valve, env).value).value.Obj?
                       && HasKey(parse(KeysSource(valve, env).value).value.fields, DefaultKeyName)
    ensures r.Ok? ==> parse(KeysSource(valve, env).value) == Some(Obj(r.value)) && HasKey(r.value, DefaultKeyName)
    ensures KeysSource(valve, env).None? ==> r == Err(AssertionError(NoEnvMsg))
    ensures r.Err? && KeysSource(valve, env).Some? ==>
              r.error == Raised(CastMsg) || r.error == AssertionError(NoDefaultMsg)
  {
    match KeysSource(valve, env)
    case None => Err(AssertionError(NoEnvMsg))
    case Some(s) =>
      match parse(s)
      case Some(Obj(d)) => if HasKey(d, DefaultKeyName) then Ok(d) else Err(AssertionError(NoDefaultMsg))
      case _ => Err(Raised(CastMsg))
  }

  /** A table without a "default" entry is refused even when it holds the
    * caller's own key. */
  lemma DefaultRequired(valve: string, env: map<string, string>, parse: string -> Option<Json>, user: string, key: Json)
    requires parse(valve) == Some(Obj([(user, key)])) && user != DefaultKeyName
    ensures LoadApiKeys(Some(valve), env, parse) == Err(AssertionError(NoDefaultMsg))
  {
    assert Keys([(user, key)]) == [user];
  }

  /** The virtual key used for `username` and the progress messages sent:
    * with matching disabled the default key; otherwise the user's own key
    * when the table has one, else silently the default key. */
  function ChooseKey(enabled: bool, username: string, keys: Dict): (r: (Json, seq<Msg>))
    requires HasKey(keys, DefaultKeyName)
  {
    if !enabled then (Get(keys, DefaultKeyName).value, [DefaultKey])
    else if HasKey(keys, username) then (Get(keys, username).value, [KeyFor(username)])
    else (Get(keys, DefaultKeyName).value, [])
  }

  /** The chosen key is always an entry of the table: the user's own one
    * exactly when matching is enabled and the table has the user; a
    * progress message names the user exactly then. */
  lemma ChooseKeySpec(enabled: bool, username: string, keys: Dict)
    requires HasKey(keys, DefaultKeyName)
    ensures var (key, msgs) := ChooseKey(enabled, username, keys);
            && |msgs| <= 1
            && (enabled && HasKey(keys, username) ==> Get(keys, username) == Some(key))
            && (!(enabled && HasKey(keys, username)) ==> Get(keys, DefaultKeyName) == Some(key))
            && (KeyFor(username) in msgs <==> enabled && HasKey(keys, username))
            && (msgs == [] <==> enabled && !HasKey(keys, username))
  {
  }

  /** `{**body, "model": model, "user": username}` after `body["user"] =
    * username`. */
  function CostPayload(body: Dict, model: string, username: string): (r: Dict)
    ensures Get(r, "model") == Some(Str(model)) && Get(r, "user") == Some(Str(username))
    ensures forall k :: k != "model" && k != "user" ==> Get(r, k) == Get(body, k)
  {
    Set(Set(body, "user", Str(username)), "model", Str(model))
  }

  // The stream loop.

  /** `buffer[:m.start()] + buffer[m.end():]` for the first match `m` of the
    * lazy pattern "``` ?thinking.*?```" (DOTALL, unanchored). */
  function CutFirst(s: string): (r: string)
    ensures LazyBlock(s, 0, false).None? ==> r == s
    ensures LazyBlock(s, 0, false).Some? ==> |r| < |s| && IsSubsequence(r, s)
  {
    match LazyBlock(s, 0, false)
    case None => s
    case Some((i, j)) =>
      CutSubsequence(s, i, j);
      s[..i] + s[j..]
  }

  lemma BlockExtend(s: string, t: string, i: int, j: int)
    requires BlockAt(s, i, j, false) && j <= |s|
    ensures BlockAt(s + t, i, j, false)
  {
    OpenerLenWithin(s, t, i);
    OccursExtend(s, t, j - 3, Fence);
  }

  lemma BlockWithin(s: string, t: string, i: int, j: int)
    requires BlockAt(s + t, i, j, false) && j <= |s|
    ensures BlockAt(s, i, j, false)
  {
    OpenerLenWithin(s, t, i);
    OccursWithin(s, t, j - 3, Fence);
  }

  /** Once the buffer holds a complete block, more text after it does not
    * change the first match. */
  lemma LazyBlockStable(s: string, t: string)
    requires LazyBlock(s, 0, false).Some?
    ensures LazyBlock(s + t, 0, false) == LazyBlock(s, 0, false)
  {
    var b := LazyBlock(s, 0, false).value;
    BlockExtend(s, t, b.0, b.1);
    NoEarlierBlock(s, t, b.0, b.1);
    NoShorterBlock(s, t, b.0, b.1);
    LazyBlockUnique(s + t, b.0, b.1);
  }

  /** The lazy match is the leftmost block, ended at its first fence. */
  lemma LazyBlockUnique(x: string, i: nat, j: nat)
    requires BlockAt(x, i, j, false) && j <= |x|
    requires forall i', j' :: 0 <= i' < i ==> !BlockAt(x, i', j', false)
    requires forall j' :: j' < j ==> !BlockAt(x, i, j', false)
    ensures LazyBlock(x, 0, false) == Some((i, j))
  {
    var m := LazyBlock(x, 0, false);
    assert m.Some?;
    assert m.value.0 == i;
    assert m.value.1 == j;
  }

  lemma NoEarlierBlock(s: string, t: string, i: nat, j: nat)
    requires LazyBlock(s, 0, false) == Some((i, j))
    ensures forall i', j' :: 0 <= i' < i ==> !BlockAt(s + t, i', j', false)
  {
    forall i', j' | 0 <= i' < i && BlockAt(s + t, i', j', false) ensures false {
      EarlierBlock(s, t, i', j', i, j);
    }
  }

  lemma NoShorterBlock(s: string, t: string, i: nat, j: nat)
    requires LazyBlock(s, 0, false) == Some((i, j))
    ensures forall j' :: j' < j ==> !BlockAt(s + t, i, j', false)
  {
    forall j' | j' < j && BlockAt(s + t, i, j', false) ensures false {
      BlockWithin(s, t, i, j');
    }
  }

  /** A block of the longer text that starts before a block of `s` gives a
    * block of `s` that starts there too. */
  lemma EarlierBlock(s: string, t: string, i': int, j': int, i: int, j: int)
    requires BlockAt(s + t, i', j', false) && BlockAt(s, i, j, false) && 0 <= i' < i && j <= |s|
    ensures BlockAt(s, i', j, false)
  {
    OpenerLenWithin(s, t, i');
    OpenerEndsMonotone(s, i', i);
  }

  /** Cutting the first block commutes with appending text once it closed. */
  lemma CutFirstStable(s: string, t: string)
    requires LazyBlock(s, 0, false).Some?
    ensures CutFirst(s + t) == CutFirst(s) + t
  {
    LazyBlockStable(s, t);
    var (i, j) := LazyBlock(s, 0, false).value;
    CutAppend(s, t, i, j);
  }

  /** Cutting `[i, j)` out of `s` and then appending is cutting it out of
    * `s + t`. */
  lemma CutAppend<T>(s: seq<T>, t: seq<T>, i: nat, j: nat)
    requires i <= j <= |s|
    ensures (s + t)[..i] + (s + t)[j..] == s[..i] + s[j..] + t
  {
    assert (s + t)[..i] == s[..i];
    assert (s + t)[j..] == s[j..] + t;
  }

  lemma TextsAppend(a: seq<Json>, b: seq<Json>)
    ensures Texts(a + b) == Texts(a) + Texts(b)
  {
  }

  lemma {:induction false} ConcatSplit(a: seq<string>, b: seq<string>)
    ensures Concat(a + b) == Concat(a) + Concat(b)
  {
    if a == [] {
      assert a + b == b;
    } else {
      assert (a + b)[1..] == a[1..] + b;
      ConcatSplit(a[1..], b);
    }
  }

  /** The loop's state: `buffer` accumulates every delta until the first
    * block closes; from then on each delta is yielded as it comes. `pre`
    * are the deltas taken into the buffer and `after` those that followed
    * the removal. */
  class FirstBlockStripper {
    var buffer: string
    var thoughtRemoved: bool
    var out: seq<Json>
    var events: seq<Event>
    ghost var pre: seq<Json>
    ghost var after: seq<Json>

    /** Before the removal nothing was yielded and the buffer is the whole
      * text, which holds no complete block; after it the buffer is empty and
      * the text cut once was yielded, followed by every later delta. */
    ghost predicate Valid()
      reads this
    {
      && AllStr(pre)
      && events == (if thoughtRemoved then [Event(Success, RemovedBlock)] else [])
      && (!thoughtRemoved ==> out == [] && after == [] && buffer == Concat(Texts(pre))
                              && LazyBlock(buffer, 0, false).None?)
      && (thoughtRemoved ==> buffer == "" && LazyBlock(Concat(Texts(pre)), 0, false).Some?
                             && out == [Str(CutFirst(Concat(Texts(pre))))] + after)
    }

    /** Everything handed to the stripper so far. */
    ghost function Seen(): (r: seq<Json>)
      reads this
    {
      pre + after
    }

    constructor ()
      ensures Valid() && !thoughtRemoved && out == [] && events == [] && Seen() == []
    {
      buffer := "";
      thoughtRemoved := false;
      out := [];
      events := [];
      pre := [];
      after := [];
    }

    /** One truthy delta. After the removal it is yielded unchanged, without
      * scanning; before, it is appended to the buffer (a non-string content
      * cannot be) and the first block, once complete, is cut out and the
      * buffer yielded. */
    method Feed(c: Json) returns (error: Option<Exc>)
      requires Valid()
      modifies this
      ensures Valid()
      ensures error.Some? <==> !old(thoughtRemoved) && !c.Str?
      ensures error.Some? ==> error == Some(TypeError) && Seen() == old(Seen()) && !thoughtRemoved
      ensures error.None? ==> Seen() == old(Seen()) + [c]
      ensures old(thoughtRemoved) ==> thoughtRemoved && out == old(out) + [c]
      ensures !old(thoughtRemoved) && c.Str? ==> (thoughtRemoved <==> LazyBlock(old(buffer) + c.s, 0, false).Some?)
    {
      error := None;
      if thoughtRemoved {
        out := out + [c];
        after := after + [c];
        assert pre + after == old(pre + after) + [c];
      } else if !c.Str? {
        error := Some(TypeError);
      } else {
        Append(c.s);
        assert pre + after == old(pre) + [c] by {
          assert pre + after == pre && old(pre + after) == old(pre);
        }
      }
    }

    /** `buffer += content` and the search for the first block. */
    method Append(s: string)
      requires Valid() && !thoughtRemoved
      modifies this
      ensures Valid()
      ensures pre == old(pre) + [Str(s)] && after == old(after) == []
      ensures thoughtRemoved <==> LazyBlock(old(buffer) + s, 0, false).Some?
    {
      AppendText(pre, s);
      pre := pre + [Str(s)];
      var t := buffer + s;
      if LazyBlock(t, 0, false).Some? {
        out := [Str(CutFirst(t))];
        buffer := "";
        thoughtRemoved := true;
        events := [Event(Success, RemovedBlock)];
      } else {
        buffer := t;
      }
    }

    /** End of the stream: without a removed block the whole buffer is
      * yielded, with the "never found" status. */
    method Finish()
      requires Valid()
      modifies this
      ensures buffer == "" && Seen() == old(Seen()) && pre == old(pre) && after == old(after)
      ensures thoughtRemoved == old(thoughtRemoved)
      ensures old(thoughtRemoved) ==> out == old(out) && events == old(events)
      ensures !old(thoughtRemoved) ==> out == [Str(old(buffer))] && events == old(events) + [Event(Success, NeverFound)]
      ensures AllStr(after) ==> Concat(Texts(out)) == CutFirst(Concat(Texts(Seen())))
    {
      if !thoughtRemoved {
        events := events + [Event(Success, NeverFound)];
        out := out + [Str(buffer)];
        buffer := "";
      }
      FinishText(pre, after, out, old(thoughtRemoved), old(buffer));
    }
  }

  lemma AppendText(pre: seq<Json>, s: string)
    requires AllStr(pre)
    ensures AllStr(pre + [Str(s)]) && Concat(Texts(pre + [Str(s)])) == Concat(Texts(pre)) + s
  {
    ConcatAppend(Texts(pre), s);
    TextsAppend(pre, [Str(s)]);
    assert Texts([Str(s)]) == [s];
  }

  /** The whole yielded text, whether or not a block was removed. */
  lemma FinishText(pre: seq<Json>, after: seq<Json>, out: seq<Json>, removed: bool, buffer: string)
    requires AllStr(pre)
    requires !removed ==> after == [] && buffer == Concat(Texts(pre)) && LazyBlock(buffer, 0, false).None?
                          && out == [Str(buffer)]
    requires removed ==> LazyBlock(Concat(Texts(pre)), 0, false).Some?
                         && out == [Str(CutFirst(Concat(Texts(pre))))] + after
    ensures AllStr(after) ==> Concat(Texts(out)) == CutFirst(Concat(Texts(pre + after)))
  {
    if AllStr(after) {
      TextsAppend(pre, after);
      ConcatSplit(Texts(pre), Texts(after));
      if removed {
        TextsAppend([Str(CutFirst(Concat(Texts(pre))))], after);
        ConcatSplit([CutFirst(Concat(Texts(pre)))], Texts(after));
        CutFirstStable(Concat(Texts(pre)), Concat(Texts(after)));
      } else {
        assert pre + after == pre;
      }
    }
  }

  /** How the loop reads one line: empty lines and undecodable ones are
    * skipped, `[DONE]` stops it, and the delta content is read without any
    * check for an upstream error, so a malformed chunk raises its own
    * exception (a `KeyError` is not re-raised as a generic one). */
  function CostChunk(line: string, parse: string -> Option<Json>): (r: Chunk)
    ensures line == "" ==> r == Skip
    ensures line != "" ==> (r == Done <==> Strip(Payload(line)) == DoneMarker)
    ensures r.Delta? ==> Truthy(r.content) && parse(Payload(line)).Some?
                         && DeltaContent(parse(Payload(line)).value) == Ok(r.content)
    ensures r.Failed? ==> parse(Payload(line)).Some?
                          && DeltaContent(parse(Payload(line)).value) == Err(r.error)
  {
    if line == "" then Skip
    else
      var p := Payload(line);
      if Strip(p) == DoneMarker then Done
      else match parse(p)
        case None => Skip
        case Some(parsed) =>
          match DeltaContent(parsed)
          case Err(e) => Failed(e)
          case Ok(c) => if Truthy(c) then Delta(c) else Skip
  }

  function CostChunks(lines: seq<string>, parse: string -> Option<Json>): (r: seq<Chunk>)
    ensures |r| == |lines|
  {
    seq(|lines|, i requires 0 <= i < |lines| => CostChunk(lines[i], parse))
  }

  /** Unlike the other pipes, a chunk that carries both an upstream error and
    * a delta is read as that delta. */
  lemma {:induction false} UpstreamErrorIgnored(line: string, parse: string -> Option<Json>, text: string, message: string)
    requires line != "" && text != "" && message != ""
    requires Strip(Payload(line)) != DoneMarker
    requires parse(Payload(line)) == Some(Obj(ChunkWith(text).fields + [("error", Obj([("message", Str(message))]))]))
    ensures CostChunk(line, parse) == Delta(Str(text))
    ensures ParseChunk(line, parse) == Failed(Raised(UpstreamErrorMsg))
  {
    ErrorChunkRead(text, message);
  }

  lemma ErrorChunkRead(text: string, message: string)
    requires text != "" && message != ""
    ensures var f := ChunkWith(text).fields + [("error", Obj([("message", Str(message))]))];
            UpstreamError(Obj(f)) == Ok(true) && DeltaContent(Obj(f)) == Ok(Str(text))
  {
    var inner := [("content", Str(text))];
    assert Get(inner, "content") == Some(Str(text));
    var e: Dict := [("message", Str(message))];
    assert Get(e, "message") == Some(Str(message));
    assert Keys(e) == ["message"];
    var f := ChunkWith(text).fields + [("error", Obj(e))];
    assert Keys(f) == ["choices", "error"];
    assert Get(f, "choices") == Some(ChunkWith(text).fields[0].1);
    assert Get(f, "error") == Some(Obj(e)) by { assert f[1] == ("error", Obj(e)); IndexOfFirst(f, "error", 1); }
    assert UpstreamError(Obj(f)) == Ok(true);
  }

  /** The contents that reach the loop body, in order, until `[DONE]`, the
    * end of the lines, or the exception of a malformed chunk. */
  function Delivered(cs: seq<Chunk>, from: nat): (r: (seq<Json>, Option<Exc>))
    requires from <= |cs|
    decreases |cs| - from
  {
    if from == |cs| then ([], None)
    else match cs[from]
      case Done => ([], None)
      case Skip => Delivered(cs, from + 1)
      case Failed(e) => ([], Some(e))
      case Delta(c) =>
        var rest := Delivered(cs, from + 1);
        ([c] + rest.0, rest.1)
  }

  /** The invariant of the loop: `given` were handed to the stripper before
    * line `k`; once a chunk stopped the loop they are all that is delivered,
    * otherwise the rest is delivered from line `k` on. */
  ghost predicate LoopInv(cs: seq<Chunk>, k: nat, given: seq<Json>, stopped: bool, chunkError: Option<Exc>)
  {
    && k <= |cs|
    && Delivered(cs, 0) == (if stopped || chunkError.Some? then (given, chunkError)
                            else (given + Delivered(cs, k).0, Delivered(cs, k).1))
  }

  lemma LoopStart(cs: seq<Chunk>)
    ensures LoopInv(cs, 0, [], false, None)
  {
    assert [] + Delivered(cs, 0).0 == Delivered(cs, 0).0;
  }

  function Given(given: seq<Json>, chunk: Chunk): (r: seq<Json>)
  {
    if chunk.Delta? then given + [chunk.content] else given
  }

  function FailureOf(chunk: Chunk): (r: Option<Exc>)
  {
    if chunk.Failed? then Some(chunk.error) else None
  }

  lemma LoopStep(cs: seq<Chunk>, k: nat, given: seq<Json>)
    requires k < |cs| && LoopInv(cs, k, given, false, None)
    ensures LoopInv(cs, k + 1, Given(given, cs[k]), cs[k] == Done, FailureOf(cs[k]))
  {
    assert given + [] == given;
    if cs[k].Delta? {
      assert given + ([cs[k].content] + Delivered(cs, k + 1).0) == (given + [cs[k].content]) + Delivered(cs, k + 1).0;
    }
  }

  /** The loop over the chunks, up to `[DONE]`, the end of the lines or the
    * first exception: a malformed chunk, or a non-string content arriving
    * before the first block closed. */
  method Consume(cs: seq<Chunk>) returns (s: FirstBlockStripper, error: Option<Exc>)
    ensures fresh(s) && s.Valid()
    ensures error.None? ==> Delivered(cs, 0) == (s.Seen(), None)
    ensures error.Some? ==>
              || (Delivered(cs, 0) == (s.Seen(), error))
              || (&& error == Some(TypeError) && !s.thoughtRemoved
                  && |s.Seen()| < |Delivered(cs, 0).0| && Delivered(cs, 0).0[..|s.Seen()|] == s.Seen()
                  && !Delivered(cs, 0).0[|s.Seen()|].Str?)
  {
    s := new FirstBlockStripper();
    var k := 0;
    var stop := false;
    var failure: Option<Exc> := None;
    error := None;
    ghost var given: seq<Json> := [];
    LoopStart(cs);
    while k < |cs| && !stop && error.None?
      invariant fresh(s) && s.Valid()
      invariant LoopInv(cs, k, given, stop, failure)
      invariant error.None? || failure.Some? ==> s.Seen() == given
      invariant error.Some? && failure.None? ==>
                  && !stop && error == Some(TypeError) && !s.thoughtRemoved
                  && |s.Seen()| + 1 == |given| && given[..|s.Seen()|] == s.Seen()
                  && !given[|s.Seen()|].Str?
      invariant failure.Some? ==> error == failure
      decreases |cs| - k
    {
      LoopStep(cs, k, given);
      match cs[k] {
        case Done => stop := true;
        case Skip =>
        case Failed(e) =>
          failure := Some(e);
          error := failure;
        case Delta(c) =>
          error := s.Feed(c);
      }
      assert stop == (cs[k] == Done) && failure == FailureOf(cs[k]);
      given := Given(given, cs[k]);
      k := k + 1;
    }
    if error.None? || failure.Some? {
      LoopEndStopped(cs, k, given, stop, failure);
    } else {
      ghost var n := |s.Seen()|;
      LoopEndFeed(cs, k, given, n);
      assert Delivered(cs, 0).0[..n] == s.Seen();
      assert !Delivered(cs, 0).0[n].Str?;
    }
  }

  lemma LoopEndStopped(cs: seq<Chunk>, k: nat, given: seq<Json>, stopped: bool, failure: Option<Exc>)
    requires LoopInv(cs, k, given, stopped, failure) && (k == |cs| || stopped || failure.Some?)
    ensures Delivered(cs, 0) == (given, failure)
  {
    assert given + [] == given;
  }

  /** After a failed feed, what was handed over is a prefix of the delivery. */
  lemma LoopEndFeed(cs: seq<Chunk>, k: nat, given: seq<Json>, n: nat)
    requires LoopInv(cs, k, given, false, None) && n < |given|
    ensures n < |Delivered(cs, 0).0| && Delivered(cs, 0).0[..n] == given[..n]
    ensures Delivered(cs, 0).0[n] == given[n]
  {
    var d := Delivered(cs, 0).0;
    assert d == given + Delivered(cs, k).0;
    assert d[..n] == given[..n];
  }

  const DefaultChatModel: string := "litellm_sonnet-3.5"
  const DefaultTitleChatModel: string := "litellm_gpt-4o-mini"

  /** The valves the model depends on; the user valves are the instance's
    * defaults unless changed on the instance. */
  datatype Valves = Valves(apiKeys: Option<string>, enabled: bool, chatModel: string, titleChatModel: string,
                           removeThoughts: bool, debug: bool)

  const DefaultValves: Valves := Valves(None, true, DefaultChatModel, DefaultTitleChatModel, true, false)

  /** What a raw pass-through yields: every upstream line, unparsed. */
  function RawLines(lines: seq<string>): (r: seq<Json>)
    ensures |r| == |lines| && forall i :: 0 <= i < |lines| ==> r[i] == Str(lines[i])
  {
    seq(|lines|, i requires 0 <= i < |lines| => Str(lines[i]))
  }

  /** The streaming branch from "Receiving chunks" on: raw pass-through when
    * removal or matching is off (it returns before the final status
    * clearing), otherwise the first-block loop. */
  method Stream(v: Valves, lines: seq<string>, parse: string -> Option<Json>)
    returns (out: seq<Json>, events: seq<Event>, error: Option<Exc>, passed: bool)
    ensures events != [] && events[0] == Event(InProgress, ReceivingChunks)
    ensures passed <==> !v.removeThoughts || !v.enabled
    ensures passed ==> out == RawLines(lines) && error == None && events == [Event(InProgress, ReceivingChunks)]
    ensures !passed ==> StrippedOk(CostChunks(lines, parse), out, events[1..], error)
    ensures error.Some? ==> events[|events| - 1] == Event(Failure, ErrorWas(error.value))
  {
    events := [Event(InProgress, ReceivingChunks)];
    passed := !v.removeThoughts || !v.enabled;
    if passed {
      out := RawLines(lines);
      error := None;
      return;
    }
    var evs;
    out, evs, error := Stripped(CostChunks(lines, parse));
    events := events + evs;
    assert events[1..] == evs;
  }

  /** The outcome of the first-block loop over `cs`: an exception of the
    * delivery is raised; a normal end yields the delivered text with its
    * first block cut out, and reports "never found" exactly when it has
    * none. */
  ghost predicate StrippedOk(cs: seq<Chunk>, out: seq<Json>, events: seq<Event>, error: Option<Exc>)
  {
    && StripOutcome(cs, out, error)
    && Event(Success, Cleared) !in events
    && (error.Some? ==> events != [] && events[|events| - 1] == Event(Failure, ErrorWas(error.value)))
    && (error.None? ==> (Event(Success, NeverFound) in events
                         <==> LazyBlock(Concat(Texts(Delivered(cs, 0).0)), 0, false).None?))
  }

  /** What the first-block loop yields and raises for the chunks `cs`. */
  ghost predicate StripOutcome(cs: seq<Chunk>, out: seq<Json>, error: Option<Exc>)
  {
    var d := Delivered(cs, 0);
    && (d.1.Some? ==> error.Some?)
    && (error.None? ==> d.1 == None)
    && (error.None? && AllStr(d.0) ==> Concat(Texts(out)) == CutFirst(Concat(Texts(d.0))))
  }

  method Stripped(cs: seq<Chunk>) returns (out: seq<Json>, events: seq<Event>, error: Option<Exc>)
    ensures StrippedOk(cs, out, events, error)
  {
    var s;
    s, error := Consume(cs);
    if error.Some? {
      out := s.out;
      events := s.events + [Event(Failure, ErrorWas(error.value))];
      return;
    }
    ghost var d := Delivered(cs, 0);
    assert d == (s.pre + s.after, None);
    NeverFoundIff(s.pre, s.after, s.thoughtRemoved);
    ghost var removed := s.thoughtRemoved;
    AllStrSuffix(s.pre, s.after);
    assert s.events == (if removed then [Event(Success, RemovedBlock)] else []);
    s.Finish();
    out := s.out;
    events := s.events;
    assert Event(Success, NeverFound) in events <==> !removed;
    assert AllStr(d.0) ==> Concat(Texts(out)) == CutFirst(Concat(Texts(d.0)));
  }

  lemma AllStrSuffix(a: seq<Json>, b: seq<Json>)
    ensures AllStr(a + b) ==> AllStr(b)
  {
    if AllStr(a + b) {
      forall i | 0 <= i < |b| ensures b[i].Str? { assert (a + b)[|a| + i] == b[i]; }
    }
  }

  /** No block was removed exactly when the whole delivered text holds none. */
  lemma NeverFoundIff(pre: seq<Json>, after: seq<Json>, removed: bool)
    requires !removed ==> after == [] && LazyBlock(Concat(Texts(pre)), 0, false).None?
    requires removed ==> LazyBlock(Concat(Texts(pre)), 0, false).Some?
    ensures removed <==> LazyBlock(Concat(Texts(pre + after)), 0, false).Some?
  {
    TextsAppend(pre, after);
    ConcatSplit(Texts(pre), Texts(after));
    if removed {
      LazyBlockStable(Concat(Texts(pre)), Concat(Texts(after)));
    } else {
      assert pre + after == pre;
    }
  }

  /** The reply of a request without streaming (the title generation):
    * the message content of the whole response, whatever its type. */
  function TitleReply(response: Result<Json>): (r: Result<Json>)
    ensures response.Err? ==> r == response
    ensures response.Ok? ==> r == RemoveThinkingPipe.TitleContent(response.value)
  {
    match response
    case Err(e) => Err(e)
    case Ok(j) => RemoveThinkingPipe.TitleContent(j)
  }

  /** The progress notices of the key choice. */
  function Progress(msgs: seq<Msg>): (r: seq<Event>)
    ensures |r| == |msgs| && forall i :: 0 <= i < |msgs| ==> r[i] == Event(InProgress, msgs[i])
  {
    seq(|msgs|, i requires 0 <= i < |msgs| => Event(InProgress, msgs[i]))
  }

  /** The part of `pipe` after the request: the streamed or the whole
    * answer, its statuses, and the final clearing of the status (skipped
    * by the raw pass-through, which returns early, and in debug mode). */
  method Respond(v: Valves, stream: bool, lines: seq<string>, parse: string -> Option<Json>, response: Result<Json>)
    returns (out: seq<Json>, events: seq<Event>, error: Option<Exc>)
    ensures Responded(v, stream, lines, parse, response, out, events, error)
  {
    if stream {
      out, events, error := RespondStream(v, lines, parse);
    } else {
      out, events, error := RespondTitle(v, response);
    }
  }

  /** What `Respond` promises. */
  ghost predicate Responded(v: Valves, stream: bool, lines: seq<string>, parse: string -> Option<Json>,
                            response: Result<Json>, out: seq<Json>, events: seq<Event>, error: Option<Exc>)
  {
    && events != []
    && (error.Some? ==> events[|events| - 1] == Event(Failure, ErrorWas(error.value)))
    && (stream && (!v.removeThoughts || !v.enabled) ==>
          out == RawLines(lines) && error == None && events == [Event(InProgress, ReceivingChunks)])
    && (stream && v.removeThoughts && v.enabled ==>
          && StripOutcome(CostChunks(lines, parse), out, error)
          && (error.None? ==> (Event(Success, Cleared) in events <==> !v.debug)))
    && (!stream ==>
          && events[0] == Event(InProgress, ReturningDirectly)
          && (TitleReply(response).Ok? ==> out == [TitleReply(response).value] && error == None
                                           && (Event(Success, Cleared) in events <==> !v.debug))
          && (TitleReply(response).Err? ==> out == [] && error == Some(TitleReply(response).error)))
  }

  method RespondStream(v: Valves, lines: seq<string>, parse: string -> Option<Json>)
    returns (out: seq<Json>, events: seq<Event>, error: Option<Exc>)
    ensures Responded(v, true, lines, parse, Err(TypeError), out, events, error)
  {
    var passed;
    out, events, error, passed := Stream(v, lines, parse);
    if !passed && error.None? {
      NotInParts(events, Event(Success, Cleared));
      if !v.debug {
        events := events + [Event(Success, Cleared)];
      }
    }
  }

  lemma NotInParts(events: seq<Event>, e: Event)
    requires events != [] && events[0] != e && e !in events[1..]
    ensures e !in events
  {
    assert events == [events[0]] + events[1..];
  }

  method RespondTitle(v: Valves, response: Result<Json>)
    returns (out: seq<Json>, events: seq<Event>, error: Option<Exc>)
    ensures Responded(v, false, [], (_: string) => None, response, out, events, error)
  {
    events := [Event(InProgress, ReturningDirectly)];
    var reply := TitleReply(response);
    if reply.Err? {
      out, error := [], Some(reply.error);
      events := events + [Event(Failure, ErrorWas(reply.error))];
    } else {
      out, error := [reply.value], None;
      if !v.debug {
        events := events + [Event(Success, Cleared)];
      }
    }
  }

  /** What `pipe` sends and relays once the key is chosen. */
  ghost predicate Forwarded(v: Valves, username: string, body: Dict, lines: seq<string>, parse: string -> Option<Json>,
                            response: Result<Json>, out: seq<Json>, events: seq<Event>, error: Option<Exc>, posted: Option<Dict>)
  {
    && events != []
    && (error.Some? ==> events[|events| - 1] == Event(Failure, ErrorWas(error.value)))
    && (!HasKey(body, "stream") ==> error == Some(KeyError("stream")) && posted.None? && out == [])
    && (HasKey(body, "stream") ==>
          var streaming := Truthy(Get(body, "stream").value);
          && events[0] == Event(InProgress, WaitingForResponse)
          && posted == Some(CostPayload(body, if streaming then v.chatModel else v.titleChatModel, username))
          && Responded(v, streaming, lines, parse, response, out, events[1..], error))
  }

  method Forward(v: Valves, username: string, body: Dict, lines: seq<string>, parse: string -> Option<Json>,
                 response: Result<Json>)
    returns (out: seq<Json>, events: seq<Event>, error: Option<Exc>, posted: Option<Dict>)
    ensures Forwarded(v, username, body, lines, parse, response, out, events, error, posted)
  {
    var stream := Get(body, "stream");
    if stream.None? {
      out, error, posted := [], Some(KeyError("stream")), None;
      events := [Event(Failure, ErrorWas(error.value))];
      return;
    }
    var streaming := Truthy(stream.value);
    var model := if streaming then v.chatModel else v.titleChatModel;
    posted := Some(CostPayload(body, model, username));
    var evs;
    out, evs, error := Respond(v, streaming, lines, parse, response);
    events := [Event(InProgress, WaitingForResponse)] + evs;
    assert events[1..] == evs;
  }

  /** `pipe`: the key table is loaded (no status is sent before that), a key
    * is chosen for the user, the payload is built from the body and posted,
    * and the answer is relayed. `env` is the process environment, `lines`
    * and `response` stand for what LiteLLM sends, `key` is the key put in
    * the authorization header and `posted` the payload sent. */
  method Pipe(v: Valves, env: map<string, string>, parse: string -> Option<Json>, username: string,
              body: Dict, lines: seq<string>, response: Result<Json>)
    returns (out: seq<Json>, events: seq<Event>, error: Option<Exc>, key: Option<Json>, posted: Option<Dict>)
    ensures var keys := LoadApiKeys(v.apiKeys, env, parse);
            && (keys.Err? ==> error == Some(keys.error) && out == [] && events == [] && key.None? && posted.None?)
            && (keys.Ok? ==>
                  var chosen := ChooseKey(v.enabled, username, keys.value);
                  var head := [Event(InProgress, Started)] + Progress(chosen.1);
                  && key == Some(chosen.0)
                  && |events| > |head| && events[..|head|] == head
                  && Forwarded(v, username, body, lines, parse, response, out, events[|head|..], error, posted))
    ensures error.None? ==> posted.Some?
  {
    out, events, error, key, posted := [], [], None, None, None;
    var keys := LoadApiKeys(v.apiKeys, env, parse);
    if keys.Err? {
      error := Some(keys.error);
      return;
    }
    var chosen := ChooseKey(v.enabled, username, keys.value);
    key := Some(chosen.0);
    var head := [Event(InProgress, Started)] + Progress(chosen.1);
    var evs;
    out, evs, error, posted := Forward(v, username, body, lines, parse, response);
    events := head + evs;
    assert events[..|head|] == head && events[|head|..] == evs;
  }

  /** The statuses before the answer never clear the status line, so the
    * answer decides whether `pipe` clears it. */
  lemma ClearedOnlyByAnswer(head: seq<Event>, evs: seq<Event>)
    requires forall i :: 0 <= i < |head| ==> head[i].level == InProgress
    ensures Event(Success, Cleared) in head + evs <==> Event(Success, Cleared) in evs
  {
  }
}
