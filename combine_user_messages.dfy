/** The "Combine User Messages" filter (filters/combine_user_messages.py).
  *
  * Its inlet replaces the chat by its system messages followed by one user
  * message that gathers the text of every user message (stripped, blank
  * ones skipped, joined by the separator valve) and then every image and
  * file item of their contents; assistant messages are dropped. Its outlet
  * only checks, and logs, that the chat it sees is one user message and
  * one answer, after at most one system message.
  */
module CombineUserMessages {

  import opened Wrappers
  import opened Text
  import opened Json

  const DefaultSeparator := "\n\n---\n\n"

  /** `item.get("type") == t` for a dict item. */
  predicate HasType(item: Json, t: string)
  {
    item.Obj? && Get(item.fields, "type") == Some(Str(t))
  }

  /** The items `_extract_files_and_images` keeps. */
  predicate IsMedia(item: Json)
  {
    HasType(item, "image_url") || HasType(item, "file")
  }

  /** `msg.get("role") == role` for a dict message. */
  predicate IsRole(m: Json, role: string)
  {
    m.Obj? && Get(m.fields, "role") == Some(Str(role))
  }

  /** The `item.get("text", "")` values of the text items, in order. */
  function TextValues(items: seq<Json>): (r: seq<Json>)
    ensures |r| <= |items|
    decreases |items|
  {
    if items == [] then []
    else
      var last := items[|items| - 1];
      TextValues(items[..|items| - 1]) + (if HasType(last, "text") then [GetOr(last.fields, "text", Str(""))] else [])
  }

  /** There are no text values exactly when no item is a text item. */
  lemma {:induction false} TextValuesNone(items: seq<Json>)
    ensures TextValues(items) == [] <==> forall i :: 0 <= i < |items| ==> !HasType(items[i], "text")
    decreases |items|
  {
    if items != [] {
      var n := |items| - 1;
      TextValuesNone(items[..n]);
      TextValuesStep(items, n);
      assert items[..n + 1] == items;
      NoTextSnoc(items);
    }
  }

  /** No item is a text item exactly when none but the last is and the
    * last is not. */
  lemma NoTextSnoc(items: seq<Json>)
    requires items != []
    ensures var n := |items| - 1;
            (forall i :: 0 <= i < |items| ==> !HasType(items[i], "text"))
            <==> (forall i :: 0 <= i < n ==> !HasType(items[..n][i], "text")) && !HasType(items[n], "text")
  {
    var n := |items| - 1;
    assert forall i :: 0 <= i < n ==> items[..n][i] == items[i];
  }

  /** `_extract_content_text`: a string as it is, the texts of the text
    * items of a list joined by a space, "" for anything else. */
  function ContentText(content: Json): (r: Result<string>)
    ensures content.Str? ==> r == Ok(content.s)
    ensures !content.Str? && !content.Arr? ==> r == Ok("")
    ensures content.Arr? ==> (r.Ok? <==> AllStr(TextValues(content.items)))
    ensures content.Arr? && r.Ok? ==> r.value == Join(" ", Texts(TextValues(content.items)))
  {
    match content
    case Str(s) => Ok(s)
    case Arr(items) =>
      var vs := TextValues(items);
      if AllStr(vs) then Ok(Join(" ", Texts(vs))) else Err(TypeError)
    case _ => Ok("")
  }

  /** A list with one text item gives that text, one without text gives "". */
  lemma ContentTextOfList(items: seq<Json>, t: string)
    ensures (forall i :: 0 <= i < |items| ==> !HasType(items[i], "text")) ==> ContentText(Arr(items)) == Ok("")
    ensures ContentText(Arr([Obj([("type", Str("text")), ("text", Str(t))])])) == Ok(t)
  {
    ContentTextNoText(items);
    ContentTextOneText(t);
  }

  lemma ContentTextNoText(items: seq<Json>)
    ensures (forall i :: 0 <= i < |items| ==> !HasType(items[i], "text")) ==> ContentText(Arr(items)) == Ok("")
  {
    if forall i :: 0 <= i < |items| ==> !HasType(items[i], "text") {
      TextValuesNone(items);
      assert Texts([]) == [];
    }
  }

  lemma ContentTextOneText(t: string)
    ensures ContentText(Arr([Obj([("type", Str("text")), ("text", Str(t))])])) == Ok(t)
  {
    var item := Obj([("type", Str("text")), ("text", Str(t))]);
    assert HasType(item, "text");
    assert [item][..0] == [];
    assert TextValues([item]) == [Str(t)];
  }

  /** One more item adds its text when it is a text item. */
  lemma TextValuesStep(items: seq<Json>, i: nat)
    requires i < |items|
    ensures TextValues(items[..i + 1])
            == TextValues(items[..i]) + (if HasType(items[i], "text") then [GetOr(items[i].fields, "text", Str(""))] else [])
  {
    assert items[..i + 1][..i] == items[..i];
  }

  /** The loop of `_extract_content_text`. */
  method ExtractContentText(content: Json) returns (r: Result<string>)
    ensures r == ContentText(content)
  {
    if content.Str? {
      return Ok(content.s);
    }
    if !content.Arr? {
      return Ok("");
    }
    var parts := CollectTextValues(content.items);
    if !AllStr(parts) {
      return Err(TypeError);
    }
    r := Ok(Join(" ", Texts(parts)));
  }

  /** The loop of `_extract_content_text`: the "text" entries of the
    * text items, in order. */
  method CollectTextValues(items: seq<Json>) returns (parts: seq<Json>)
    ensures parts == TextValues(items)
  {
    parts := [];
    var i := 0;
    while i < |items|
      invariant 0 <= i <= |items|
      invariant parts == TextValues(items[..i])
    {
      TextValuesStep(items, i);
      var item := items[i];
      if HasType(item, "text") {
        parts := parts + [GetOr(item.fields, "text", Str(""))];
      }
      i := i + 1;
    }
    assert items[..i] == items;
  }

  /** The image and file items of a list, in order. */
  function Media(items: seq<Json>): (r: seq<Json>)
    ensures |r| <= |items|
    decreases |items|
  {
    if items == [] then []
    else
      var last := items[|items| - 1];
      Media(items[..|items| - 1]) + (if IsMedia(last) then [last] else [])
  }

  /** The media are exactly the file and image items. */
  lemma {:induction false} MediaSelects(items: seq<Json>)
    ensures forall x :: x in Media(items) <==> x in items && IsMedia(x)
    decreases |items|
  {
    if items != [] {
      var n := |items| - 1;
      MediaSelects(items[..n]);
      assert items == items[..n] + [items[n]];
    }
  }

  /** One more item adds itself when it is a file or an image. */
  lemma MediaStep(items: seq<Json>, i: nat)
    requires i < |items|
    ensures Media(items[..i + 1]) == Media(items[..i]) + (if IsMedia(items[i]) then [items[i]] else [])
  {
    assert items[..i + 1][..i] == items[..i];
  }

  /** The items keep their order: selecting from two lists one after the
    * other is selecting from their concatenation. */
  lemma {:induction false} MediaConcat(a: seq<Json>, b: seq<Json>)
    ensures Media(a + b) == Media(a) + Media(b)
    decreases |b|
  {
    if b == [] {
      assert a + b == a;
    } else {
      var init := b[..|b| - 1];
      assert (a + b)[..|a + b| - 1] == a + init;
      MediaConcat(a, init);
    }
  }

  /** `_extract_files_and_images`. */
  function ContentMedia(content: Json): (r: seq<Json>)
    ensures !content.Arr? ==> r == []
    ensures content.Arr? ==> r == Media(content.items)
  {
    if content.Arr? then Media(content.items) else []
  }

  /** The loop of `_extract_files_and_images`. */
  method ExtractFilesAndImages(content: Json) returns (r: seq<Json>)
    ensures r == ContentMedia(content)
  {
    if !content.Arr? {
      return [];
    }
    var items := content.items;
    r := [];
    var i := 0;
    while i < |items|
      invariant 0 <= i <= |items|
      invariant r == Media(items[..i])
    {
      MediaStep(items, i);
      if IsMedia(items[i]) {
        r := r + [items[i]];
      }
      i := i + 1;
    }
    assert items[..i] == items;
  }

  /** What the loop of `_combine_user_messages` has gathered so far. */
  datatype Gathered = Gathered(kept: seq<Json>, texts: seq<string>, media: seq<Json>)

  /** The gathered texts are stripped and not blank, the media are images
    * and files. */
  predicate GoodGathered(g: Gathered)
  {
    && (forall i :: 0 <= i < |g.texts| ==> g.texts[i] != "" && Strip(g.texts[i]) == g.texts[i])
    && (forall i :: 0 <= i < |g.media| ==> IsMedia(g.media[i]))
  }

  /** One turn of that loop: a system message is kept, a user message gives
    * its stripped text, if any, and its media, any other role is dropped;
    * `message.get` raises on a value that is not a dict. */
  function Step(g: Gathered, m: Json): (r: Result<Gathered>)
    ensures r.Ok? <==> m.Obj? && (IsRole(m, "user") ==> ContentText(GetOr(m.fields, "content", Str(""))).Ok?)
    ensures r.Ok? ==> r.value.kept == g.kept + (if IsRole(m, "system") then [m] else [])
  {
    match GetAttr(m, "role", Str(""))
    case Err(e) => Err(e)
    case Ok(role) =>
      if role == Str("system") then Ok(g.(kept := g.kept + [m]))
      else if role == Str("user") then
        var content := GetOr(m.fields, "content", Str(""));
        match ContentText(content)
        case Err(e) => Err(e)
        case Ok(text) =>
          Ok(Gathered(g.kept, g.texts + (if Strip(text) != "" then [Strip(text)] else []), g.media + ContentMedia(content)))
      else Ok(g)
  }

  lemma GoodGatheredExtend(g: Gathered, text: string, content: Json)
    requires GoodGathered(g)
    ensures GoodGathered(Gathered(g.kept, g.texts + (if Strip(text) != "" then [Strip(text)] else []), g.media + ContentMedia(content)))
  {
    StripIdempotent(text);
    if content.Arr? {
      MediaSelects(content.items);
    }
    var media := g.media + ContentMedia(content);
    forall i | 0 <= i < |media|
      ensures IsMedia(media[i])
    {
      if i >= |g.media| {
        assert media[i] in ContentMedia(content);
      }
    }
  }

  lemma StepKeepsGood(g: Gathered, m: Json)
    requires GoodGathered(g)
    ensures Step(g, m).Ok? ==> GoodGathered(Step(g, m).value)
  {
    if Step(g, m).Ok? && GetOr(m.fields, "role", Str("")) == Str("user") {
      var content := GetOr(m.fields, "content", Str(""));
      GoodGatheredExtend(g, ContentText(content).value, content);
    }
  }

  /** The loop over all the messages. */
  function Gather(ms: seq<Json>): (r: Result<Gathered>)
    ensures r.Ok? ==> GoodGathered(r.value)
    decreases |ms|
  {
    if ms == [] then Ok(Gathered([], [], []))
    else
      match Gather(ms[..|ms| - 1])
      case Err(e) => Err(e)
      case Ok(g) =>
        StepKeepsGood(g, ms[|ms| - 1]);
        Step(g, ms[|ms| - 1])
  }

  /** One more message is one more turn of the loop. */
  lemma GatherSnoc(ms: seq<Json>, i: nat)
    requires i < |ms| && Gather(ms[..i]).Ok?
    ensures Gather(ms[..i + 1]) == Step(Gather(ms[..i]).value, ms[i])
  {
    assert ms[..i + 1][..i] == ms[..i];
  }

  /** Once a prefix of the messages raises, the whole loop raises the same. */
  lemma {:induction false} GatherErrorLasts(ms: seq<Json>, k: nat)
    requires k <= |ms| && Gather(ms[..k]).Err?
    ensures Gather(ms) == Gather(ms[..k])
    decreases |ms| - k
  {
    if k < |ms| {
      assert ms[..k + 1][..k] == ms[..k];
      GatherErrorLasts(ms, k + 1);
    } else {
      assert ms[..k] == ms;
    }
  }

  /** The system messages of a chat, in order. */
  function Systems(ms: seq<Json>): (r: seq<Json>)
    ensures |r| <= |ms|
    ensures forall i :: 0 <= i < |r| ==> IsRole(r[i], "system")
  {
    if ms == [] then [] else (if IsRole(ms[0], "system") then [ms[0]] else []) + Systems(ms[1..])
  }

  lemma {:induction false} SystemsSnoc(ms: seq<Json>, m: Json)
    ensures Systems(ms + [m]) == Systems(ms) + (if IsRole(m, "system") then [m] else [])
  {
    if ms == [] {
      assert [m][1..] == [];
    } else {
      assert (ms + [m])[1..] == ms[1..] + [m];
      SystemsSnoc(ms[1..], m);
    }
  }

  lemma SystemsInit(ms: seq<Json>)
    requires ms != []
    ensures Systems(ms) == Systems(ms[..|ms| - 1]) + (if IsRole(ms[|ms| - 1], "system") then [ms[|ms| - 1]] else [])
  {
    assert ms == ms[..|ms| - 1] + [ms[|ms| - 1]];
    SystemsSnoc(ms[..|ms| - 1], ms[|ms| - 1]);
  }

  /** The messages the loop keeps as they are are exactly the system
    * messages, in their order. */
  lemma {:induction false} GatherKeepsSystems(ms: seq<Json>)
    requires Gather(ms).Ok?
    ensures Gather(ms).value.kept == Systems(ms)
    decreases |ms|
  {
    if ms != [] {
      var init := ms[..|ms| - 1];
      GatherKeepsSystems(init);
      SystemsInit(ms);
    }
  }

  /** What one user message contributes to the texts: its stripped text
    * unless that is blank; nothing from any other message. */
  function UserText(m: Json): (r: seq<string>)
    ensures |r| <= 1
    ensures r != [] ==> IsRole(m, "user") && r[0] != ""
  {
    if IsRole(m, "user") then
      match ContentText(GetOr(m.fields, "content", Str("")))
      case Ok(text) => if Strip(text) != "" then [Strip(text)] else []
      case Err(_) => []
    else []
  }

  /** What one user message contributes to the media. */
  function UserItems(m: Json): (r: seq<Json>)
    ensures !IsRole(m, "user") ==> r == []
  {
    if IsRole(m, "user") then ContentMedia(GetOr(m.fields, "content", Str(""))) else []
  }

  /** The texts of all user messages, in the chat's order. */
  function UserTexts(ms: seq<Json>): seq<string>
  {
    FlatMap(ms, UserText)
  }

  /** The image and file items of all user messages, in the chat's order. */
  function UserMedia(ms: seq<Json>): seq<Json>
  {
    FlatMap(ms, UserItems)
  }

  /** A successful turn adds what the message contributes. */
  lemma StepGathers(g: Gathered, m: Json)
    requires Step(g, m).Ok?
    ensures Step(g, m).value.texts == g.texts + UserText(m)
    ensures Step(g, m).value.media == g.media + UserItems(m)
  {
  }

  /** The gathered texts are exactly the stripped, non-blank texts of the
    * user messages, and the gathered media exactly their image and file
    * items, both in the chat's order. */
  lemma {:induction false} GatherCollects(ms: seq<Json>)
    requires Gather(ms).Ok?
    ensures Gather(ms).value.texts == UserTexts(ms)
    ensures Gather(ms).value.media == UserMedia(ms)
    decreases |ms|
  {
    if ms != [] {
      var init := ms[..|ms| - 1];
      var m := ms[|ms| - 1];
      assert Gather(init).Ok?;
      var g := Gather(init).value;
      assert Gather(ms) == Step(g, m);
      GatherCollects(init);
      StepGathers(g, m);
      FlatMapInit(ms, UserText);
      FlatMapInit(ms, UserItems);
    }
  }

  /** The text part of the combined message. */
  function TextPart(text: string): (p: Json)
  {
    Obj([("type", Str("text")), ("text", Str(text))])
  }

  /** The content of the combined user message: a plain string when there
    * is text and no media, otherwise a list of the text part, if any,
    * followed by the media. */
  function CombinedContent(g: Gathered, sep: string): (c: Json)
    requires GoodGathered(g)
    ensures c.Str? <==> g.texts != [] && g.media == []
    ensures c.Str? ==> c.s == Join(sep, g.texts)
    ensures c.Arr? ==> c.items == (if g.texts != [] then [TextPart(Join(sep, g.texts))] else []) + g.media
  {
    var parts := (if g.texts != [] then [TextPart(Join(sep, g.texts))] else []) + g.media;
    if |parts| == 1 && g.texts != [] then
      Str(Join(sep, g.texts))
    else
      Arr(parts)
  }

  /** The chat `_combine_user_messages` returns. */
  function Combine(ms: seq<Json>, sep: string): (r: Result<seq<Json>>)
  {
    match Gather(ms)
    case Err(e) => Err(e)
    case Ok(g) =>
      if g.texts == [] && g.media == [] then Ok(g.kept)
      else Ok(g.kept + [Obj([("role", Str("user")), ("content", CombinedContent(g, sep))])])
  }

  /** The system messages in order, then at most one user message; no
    * assistant message (and no message of any other role) is left. */
  lemma CombineShape(ms: seq<Json>, sep: string)
    requires Combine(ms, sep).Ok?
    ensures var r := Combine(ms, sep).value;
            && |Systems(ms)| <= |r| <= |Systems(ms)| + 1
            && r[..|Systems(ms)|] == Systems(ms)
            && (|r| > |Systems(ms)| ==> r == Systems(ms) + [r[|r| - 1]] && IsRole(r[|r| - 1], "user"))
            && forall i :: 0 <= i < |r| ==> !IsRole(r[i], "assistant")
  {
    GatherKeepsSystems(ms);
    var g := Gather(ms).value;
    var r := Combine(ms, sep).value;
    var sys := Systems(ms);
    if g.texts == [] && g.media == [] {
      assert r == sys;
      assert r[..|sys|] == sys;
    } else {
      var u := Obj([("role", Str("user")), ("content", CombinedContent(g, sep))]);
      assert r == sys + [u];
      assert Get(u.fields, "role") == Some(Str("user"));
      SystemsThenUser(sys, u);
    }
  }

  /** System messages followed by one user message hold no assistant
    * message, and the systems are their prefix. */
  lemma SystemsThenUser(sys: seq<Json>, u: Json)
    requires forall i :: 0 <= i < |sys| ==> IsRole(sys[i], "system")
    requires IsRole(u, "user")
    ensures (sys + [u])[..|sys|] == sys
    ensures forall i :: 0 <= i < |sys + [u]| ==> !IsRole((sys + [u])[i], "assistant")
  {
    assert (sys + [u])[..|sys|] == sys;
  }

  /** The combined chat from the chat alone: the system messages, then,
    * when there is any user text or media, one user message made of all
    * the user texts and then all the user media. */
  lemma CombineOfUsers(ms: seq<Json>, sep: string)
    requires Combine(ms, sep).Ok?
    ensures var g := Gathered(Systems(ms), UserTexts(ms), UserMedia(ms));
            && GoodGathered(g)
            && Combine(ms, sep).value ==
               if UserTexts(ms) == [] && UserMedia(ms) == [] then Systems(ms)
               else Systems(ms) + [Obj([("role", Str("user")), ("content", CombinedContent(g, sep))])]
  {
    GatherKeepsSystems(ms);
    GatherCollects(ms);
  }

  /** The number of dict messages with the given role. */
  function CountRole(ms: seq<Json>, role: string): (n: nat)
    ensures n <= |ms|
  {
    if ms == [] then 0 else (if IsRole(ms[0], role) then 1 else 0) + CountRole(ms[1..], role)
  }

  lemma {:induction false} CountRoleConcat(a: seq<Json>, b: seq<Json>, role: string)
    ensures CountRole(a + b, role) == CountRole(a, role) + CountRole(b, role)
  {
    if a == [] {
      assert a + b == b;
    } else {
      assert (a + b)[1..] == a[1..] + b;
      CountRoleConcat(a[1..], b, role);
    }
  }

  lemma {:induction false} CountRoleOfSystems(ms: seq<Json>, role: string)
    ensures CountRole(Systems(ms), role) == if role == "system" then |Systems(ms)| else 0
    ensures |Systems(ms)| == CountRole(ms, "system")
  {
    if ms != [] {
      CountRoleOfSystems(ms[1..], role);
      var head := if IsRole(ms[0], "system") then [ms[0]] else [];
      CountRoleConcat(head, Systems(ms[1..]), role);
    }
  }

  /** Every message is a dict. */
  predicate AllDicts(ms: seq<Json>)
  {
    forall i :: 0 <= i < |ms| ==> ms[i].Obj?
  }

  /** The outcome of the outlet's assertions, which are only logged. */
  datatype Verdict =
    | Valid
    | WrongTotal(expected: nat, got: nat)
    | WrongUserCount(users: nat)
    | WrongAssistantCount(assistants: nat)
    | WrongSystemCount(systems: nat)

  /** The checks of the outlet, in their order: two messages, or three with
    * a system message; then one user message, one assistant message and at
    * most one system message. */
  function OutletCheck(ms: seq<Json>): (r: Result<Verdict>)
    ensures r.Ok? <==> ms == [] || AllDicts(ms)
    ensures r == Ok(Valid) <==> (&& AllDicts(ms)
                                 && CountRole(ms, "user") == 1 && CountRole(ms, "assistant") == 1
                                 && CountRole(ms, "system") <= 1
                                 && |ms| == (if CountRole(ms, "system") == 0 then 2 else 3))
  {
    if !AllDicts(ms) then Err(AttributeError)
    else
      var systems := CountRole(ms, "system");
      var users := CountRole(ms, "user");
      var assistants := CountRole(ms, "assistant");
      var expected := if systems == 0 then 2 else 3;
      if |ms| != expected then Ok(WrongTotal(expected, |ms|))
      else if users != 1 then Ok(WrongUserCount(users))
      else if assistants != 1 then Ok(WrongAssistantCount(assistants))
      else if systems > 1 then Ok(WrongSystemCount(systems))
      else Ok(Valid)
  }

  /** The two halves agree: a chat with at most one system message and some
    * user text or media, once combined and answered, passes the outlet's
    * checks. */
  lemma CombinedChatPasses(ms: seq<Json>, sep: string, answer: Json)
    requires Combine(ms, sep).Ok? && |Combine(ms, sep).value| > |Systems(ms)|
    requires CountRole(ms, "system") <= 1 && IsRole(answer, "assistant")
    ensures OutletCheck(Combine(ms, sep).value + [answer]) == Ok(Valid)
  {
    var r := Combine(ms, sep).value;
    CombineShape(ms, sep);
    var user := r[|r| - 1];
    assert r + [answer] == Systems(ms) + [user, answer];
    CountRoleOfSystems(ms, "system");
    AnsweredChatPasses(Systems(ms), user, answer);
  }

  /** System messages (at most one), a user message and its answer. */
  lemma AnsweredChatPasses(systems: seq<Json>, user: Json, answer: Json)
    requires |systems| <= 1 && forall i :: 0 <= i < |systems| ==> IsRole(systems[i], "system")
    requires IsRole(user, "user") && IsRole(answer, "assistant")
    ensures OutletCheck(systems + [user, answer]) == Ok(Valid)
  {
    var chat := systems + [user, answer];
    CountRoleConcat(systems, [user, answer], "system");
    CountRoleConcat(systems, [user, answer], "user");
    CountRoleConcat(systems, [user, answer], "assistant");
    PairRoles(user, answer);
    if systems != [] {
      assert systems == [systems[0]] && systems[0 + 1..] == [];
    }
    assert CountRole(systems, "system") == |systems|;
    assert CountRole(systems, "user") == 0 && CountRole(systems, "assistant") == 0;
    assert forall i :: 0 <= i < |chat| ==> chat[i].Obj?;
  }

  /** The roles of a user message followed by its answer. */
  lemma PairRoles(user: Json, answer: Json)
    requires IsRole(user, "user") && IsRole(answer, "assistant")
    ensures CountRole([user, answer], "user") == 1
    ensures CountRole([user, answer], "assistant") == 1
    ensures CountRole([user, answer], "system") == 0
  {
    assert [user, answer][1..] == [answer];
    assert [answer][1..] == [];
  }

  /** The loop of `_combine_user_messages` and the message it appends. */
  method CombineMessages(ms: seq<Json>, sep: string) returns (r: Result<seq<Json>>)
    ensures r == Combine(ms, sep)
  {
    var gathered := GatherMessages(ms);
    if gathered.Err? {
      return Err(gathered.error);
    }
    var g := gathered.value;
    if g.texts == [] && g.media == [] {
      return Ok(g.kept);
    }
    r := Ok(g.kept + [Obj([("role", Str("user")), ("content", CombinedContent(g, sep))])]);
  }

  /** The loop of `_combine_user_messages`: the kept messages, texts and
    * media after every message, or what a message raised. */
  method GatherMessages(ms: seq<Json>) returns (r: Result<Gathered>)
    ensures r == Gather(ms)
  {
    var kept, texts, media := [], [], [];
    var i := 0;
    while i < |ms|
      invariant 0 <= i <= |ms|
      invariant Gather(ms[..i]) == Ok(Gathered(kept, texts, media))
    {
      GatherSnoc(ms, i);
      var next := GatherMessage(Gathered(kept, texts, media), ms[i]);
      if next.Err? {
        GatherErrorLasts(ms, i + 1);
        return Err(next.error);
      }
      kept, texts, media := next.value.kept, next.value.texts, next.value.media;
      i := i + 1;
    }
    assert ms[..i] == ms;
    r := Ok(Gathered(kept, texts, media));
  }

  /** One turn of the loop of `_combine_user_messages`. */
  method GatherMessage(g: Gathered, m: Json) returns (r: Result<Gathered>)
    ensures r == Step(g, m)
  {
    var role := GetAttr(m, "role", Str(""));
    if role.Err? {
      return Err(role.error);
    }
    var kept, texts, media := g.kept, g.texts, g.media;
    if role.value == Str("system") {
      kept := kept + [m];
    } else if role.value == Str("user") {
      var content := GetOr(m.fields, "content", Str(""));
      var text := ExtractContentText(content);
      if text.Err? {
        return Err(text.error);
      }
      var stripped := Strip(text.value);
      if stripped != "" {
        texts := texts + [stripped];
      }
      assert texts == g.texts + (if stripped != "" then [stripped] else []);
      var items := ExtractFilesAndImages(content);
      media := media + items;
    }
    r := Ok(Gathered(kept, texts, media));
  }

  /** The user valves' `enabled`, read as the filter reads it: the
    * "valves" entry of a truthy user dict, defaulting to enabled. The
    * lookups are outside the `try`, so what they raise escapes. */
  function UserEnabled(user: Json): (r: Result<bool>)
    ensures !Truthy(user) ==> r == Ok(true)
    ensures user.Obj? && !HasKey(user.fields, "valves") ==> r == Ok(true)
    ensures user.Obj? && Get(user.fields, "valves") == Some(Obj([("enabled", Bool(false))])) ==> r == Ok(false)
  {
    if !Truthy(user) then Ok(true)
    else
      match Contains(user, "valves")
      case Err(e) => Err(e)
      case Ok(false) => Ok(true)
      case Ok(true) =>
        match GetAttr(user, "valves", Obj([]))
        case Err(e) => Err(e)
        case Ok(valves) =>
          match GetAttr(valves, "enabled", Bool(true))
          case Err(e) => Err(e)
          case Ok(v) => Ok(Truthy(v))
  }

  /** `inlet`: with the filter enabled for the user and a non-empty chat,
    * `body["messages"]` becomes the combined chat; a disabled filter, an
    * empty chat and any exception inside the `try` leave the body as it
    * was. */
  method Inlet(enabled: bool, user: Json, body: Dict, sep: string) returns (r: Result<Dict>)
    ensures !enabled ==> r == Ok(body)
    ensures enabled && UserEnabled(user).Err? ==> r == Err(UserEnabled(user).error)
    ensures enabled && UserEnabled(user) == Ok(false) ==> r == Ok(body)
    ensures enabled && UserEnabled(user) == Ok(true) ==>
              var messages := GetOr(body, "messages", Arr([]));
              r == if Truthy(messages) && Iterate(messages).Ok? && Combine(Iterate(messages).value, sep).Ok?
                   then Ok(Set(body, "messages", Arr(Combine(Iterate(messages).value, sep).value)))
                   else Ok(body)
  {
    if !enabled {
      return Ok(body);
    }
    var on := UserEnabled(user);
    if on.Err? {
      return Err(on.error);
    }
    if !on.value {
      return Ok(body);
    }
    var messages := GetOr(body, "messages", Arr([]));
    if !Truthy(messages) {
      return Ok(body);
    }
    var xs := Iterate(messages);
    if xs.Err? {
      return Ok(body);
    }
    var combined := CombineMessages(xs.value, sep);
    if combined.Err? {
      return Ok(body);
    }
    r := Ok(Set(body, "messages", Arr(combined.value)));
  }

  /** `outlet`: the body is returned as it is; only the user valves'
    * lookups, outside the `try`, can raise. */
  function Outlet(enabled: bool, user: Json, body: Dict): (r: Result<Dict>)
    ensures r.Ok? ==> r.value == body
    ensures r.Err? <==> enabled && UserEnabled(user).Err?
  {
    if !enabled then Ok(body)
    else
      match UserEnabled(user)
      case Err(e) => Err(e)
      case Ok(_) => Ok(body)
  }
}
