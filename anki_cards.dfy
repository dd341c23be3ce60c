/** The card protocol the Anki filters and actions share: the user's
  * "enabled" valve, the field list and example card of the instruction,
  * the instruction appended to the first system message, the card blocks
  * of assistant messages, and the cloze note model and notes built from
  * `fields_description`. */
module AnkiCards {

  import opened Wrappers
  import opened Text
  import opened Json
  import opened Spans

  // ----- the user's valve -----

  /** `user_valves.get("enabled", True)`, where `user_valves` is
    * `dict(__user__.get("valves", {}))` for a truthy user with "valves",
    * and `{}` otherwise. */
  function Enabled(user: Json): (r: Result<bool>)
    ensures !Truthy(user) ==> r == Ok(true)
    ensures user.Obj? && !HasKey(user.fields, "valves") ==> r == Ok(true)
    ensures user.Obj? && DictAt(user.fields, "valves").Some?
            ==> r == Ok(Truthy(GetOr(DictAt(user.fields, "valves").value, "enabled", Bool(true))))
    ensures r == Ok(false) ==> user.Obj? && DictAt(user.fields, "valves").Some?
  {
    if !Truthy(user) then Ok(true)
    else match Contains(user, "valves")
      case Err(e) => Err(e)
      case Ok(false) => Ok(true)
      case Ok(true) =>
        match GetAttr(user, "valves", Obj([]))
        case Err(e) => Err(e)
        case Ok(v) => if v.Obj? then Ok(Truthy(GetOr(v.fields, "enabled", Bool(true)))) else Err(TypeError)
  }

  // ----- the fields list and the example card -----

  /** One line of the fields list: `f"- **{name}**: {description}\n"`. */
  function FieldLine(name: string, description: Json, show: Json -> string): string
  {
    "- **" + name + "**: " + PyStr(description, show) + "\n"
  }

  /** The lines of `fields_desc.items()` accumulated in key order. */
  function FieldLines(fields: Dict, show: Json -> string): (r: string)
    ensures fields == [] ==> r == ""
  {
    if fields == [] then ""
    else FieldLines(fields[..|fields| - 1], show) + FieldLine(fields[|fields| - 1].0, fields[|fields| - 1].1, show)
  }

  /** The fields list is the field lines, one per field, in key order. */
  lemma {:induction false} FieldLinesInOrder(fields: Dict, show: Json -> string)
    ensures FieldLines(fields, show)
            == Concat(seq(|fields|, i requires 0 <= i < |fields| => FieldLine(fields[i].0, fields[i].1, show)))
  {
    var lines := seq(|fields|, i requires 0 <= i < |fields| => FieldLine(fields[i].0, fields[i].1, show));
    if fields != [] {
      var init := fields[..|fields| - 1];
      FieldLinesInOrder(init, show);
      var initLines := seq(|init|, i requires 0 <= i < |init| => FieldLine(init[i].0, init[i].1, show));
      assert lines == initLines + [lines[|fields| - 1]];
      ConcatAppend(initLines, lines[|fields| - 1]);
    }
  }

  /** The loop that builds the fields list. */
  method BuildFieldLines(fields: Dict, show: Json -> string) returns (r: string)
    ensures r == FieldLines(fields, show)
  {
    r := "";
    for i := 0 to |fields|
      invariant r == FieldLines(fields[..i], show)
    {
      assert fields[..i + 1][..i] == fields[..i];
      r := r + FieldLine(fields[i].0, fields[i].1, show);
    }
    assert fields[..|fields|] == fields;
  }

  const ClozeExample := "What is this?<br>{{c1::This is an example of hidden content}}"
  const OtherExample := "Additional information here"

  /** The value the example card gives the field at position `i`. */
  function ExampleValue(i: nat): Json
  {
    Str(if i == 0 then ClozeExample else OtherExample)
  }

  /** The example card, one key assigned after the other. */
  function ExampleCard(names: seq<string>): (r: Dict)
    ensures UniqueKeys(r)
  {
    if names == [] then []
    else Set(ExampleCard(names[..|names| - 1]), names[|names| - 1], ExampleValue(|names| - 1))
  }

  predicate DistinctNames(names: seq<string>)
  {
    forall i, j :: 0 <= i < j < |names| ==> names[i] != names[j]
  }

  lemma KeysDistinct(d: Dict)
    requires UniqueKeys(d)
    ensures DistinctNames(Keys(d))
  {
  }

  /** With the distinct keys of a dict, the example card has exactly those
    * keys, in order: the first holds the cloze example, the others the
    * generic text. */
  lemma {:induction false} ExampleCardFields(names: seq<string>)
    requires DistinctNames(names)
    ensures ExampleCard(names) == ExamplePairs(names)
  {
    if names != [] {
      var n := |names| - 1;
      var init := names[..n];
      ExampleCardFields(init);
      ExamplePairsKeys(init);
      assert names[n] !in init;
      ExamplePairsSnoc(names);
    }
  }

  function ExamplePairs(names: seq<string>): Dict
  {
    seq(|names|, i requires 0 <= i < |names| => (names[i], ExampleValue(i)))
  }

  lemma ExamplePairsKeys(names: seq<string>)
    ensures Keys(ExamplePairs(names)) == names
  {
  }

  lemma ExamplePairsSnoc(names: seq<string>)
    requires names != []
    ensures ExamplePairs(names) == ExamplePairs(names[..|names| - 1]) + [(names[|names| - 1], ExampleValue(|names| - 1))]
  {
  }

  /** The loop that builds the example card, with its `first_field` flag. */
  method BuildExampleCard(names: seq<string>) returns (card: Dict)
    ensures card == ExampleCard(names)
  {
    card := [];
    var first := true;
    for i := 0 to |names|
      invariant card == ExampleCard(names[..i])
      invariant first <==> i == 0
    {
      assert names[..i + 1][..i] == names[..i];
      if first {
        card := Set(card, names[i], Str(ClozeExample));
        first := false;
      } else {
        card := Set(card, names[i], Str(OtherExample));
      }
    }
    assert names[..|names|] == names;
  }

  /** `json.dumps([example_card], indent=2)`, with `dump` standing for
    * `json.dumps`. */
  function ExampleJson(fields: Dict, dump: Json -> string): string
  {
    dump(Arr([Obj(ExampleCard(Keys(fields)))]))
  }

  // ----- the instruction in the system message -----

  /** `m.get("role") == role`; only dicts have `.get`. */
  function RoleIs(m: Json, role: string): (r: Result<bool>)
    ensures r.Err? <==> !m.Obj?
    ensures r.Err? ==> r.error == AttributeError
    ensures r.Ok? ==> (r.value <==> Get(m.fields, "role") == Some(Str(role)))
  {
    if m.Obj? then Ok(Get(m.fields, "role") == Some(Str(role))) else Err(AttributeError)
  }

  /** The first message at or after `i` whose role is `role`, scanning
    * forwards; a message that is not a dict raises before it is found. */
  function FirstWithRole(ms: seq<Json>, i: nat, role: string): (r: Result<Option<nat>>)
    requires i <= |ms|
    ensures r.Ok? && r.value.Some? ==> i <= r.value.value < |ms| && RoleIs(ms[r.value.value], role) == Ok(true)
    ensures r.Ok? && r.value.Some? ==> forall k :: i <= k < r.value.value ==> RoleIs(ms[k], role) == Ok(false)
    ensures r.Ok? && r.value.None? ==> forall k :: i <= k < |ms| ==> RoleIs(ms[k], role) == Ok(false)
    ensures r.Err? ==> r.error == AttributeError
    ensures (forall k :: i <= k < |ms| ==> ms[k].Obj?) ==> r.Ok?
    decreases |ms| - i
  {
    if i == |ms| then Ok(None)
    else match RoleIs(ms[i], role)
      case Err(e) => Err(e)
      case Ok(true) => Ok(Some(i))
      case Ok(false) => FirstWithRole(ms, i + 1, role)
  }

  function TextItem(text: string): Json
  {
    Obj([("type", Str("text")), ("text", Str(text))])
  }

  function SystemMessage(content: string): Json
  {
    Obj([("role", Str("system")), ("content", Str(content))])
  }

  /** The system message with `extra` appended: to its string content, or
    * as a new text item of its list content; other content is left alone. */
  function WithInstruction(m: Json, extra: string): (r: Json)
    requires m.Obj?
    ensures r.Obj? && forall k :: k != "content" ==> Get(r.fields, k) == Get(m.fields, k)
    ensures GetOr(m.fields, "content", Str("")).Str?
            ==> Get(r.fields, "content") == Some(Str(GetOr(m.fields, "content", Str("")).s + extra))
    ensures GetOr(m.fields, "content", Str("")).Arr?
            ==> Get(r.fields, "content") == Some(Arr(GetOr(m.fields, "content", Str("")).items + [TextItem(extra)]))
    ensures !GetOr(m.fields, "content", Str("")).Str? && !GetOr(m.fields, "content", Str("")).Arr? ==> r == m
  {
    var c := GetOr(m.fields, "content", Str(""));
    if c.Str? then Obj(Set(m.fields, "content", Str(c.s + extra)))
    else if c.Arr? then Obj(Set(m.fields, "content", Arr(c.items + [TextItem(extra)])))
    else m
  }

  /** The messages after the instruction loop: `extra` goes to the first
    * system message only, or, with no system message, one holding `created`
    * is put first. A message that is not a dict, met before any system
    * message, raises. */
  function Inject(ms: seq<Json>, extra: string, created: string): (r: Result<seq<Json>>)
    ensures r.Err? ==> r.error == AttributeError
    ensures (forall k :: 0 <= k < |ms| ==> ms[k].Obj?) ==> r.Ok?
    ensures r.Ok? && |r.value| == |ms| ==>
              exists i :: 0 <= i < |ms| && RoleIs(ms[i], "system") == Ok(true)
                          && (forall k :: 0 <= k < i ==> RoleIs(ms[k], "system") == Ok(false))
                          && r.value == ms[i := WithInstruction(ms[i], extra)]
    ensures r.Ok? && |r.value| != |ms| ==>
              (forall k :: 0 <= k < |ms| ==> RoleIs(ms[k], "system") == Ok(false)) && r.value == [SystemMessage(created)] + ms
  {
    match FirstWithRole(ms, 0, "system")
    case Err(e) => Err(e)
    case Ok(None) => Ok([SystemMessage(created)] + ms)
    case Ok(Some(i)) => Ok(ms[i := WithInstruction(ms[i], extra)])
  }

  /** After the injection the first system message is where the
    * instruction went: the one found before, or the new first message. */
  lemma InjectedSystemFirst(ms: seq<Json>, extra: string, created: string)
    requires Inject(ms, extra, created).Ok?
    ensures match FirstWithRole(ms, 0, "system")
            case Ok(Some(i)) => FirstWithRole(Inject(ms, extra, created).value, 0, "system") == Ok(Some(i))
            case _ => FirstWithRole(Inject(ms, extra, created).value, 0, "system") == Ok(Some(0))
  {
    var r := Inject(ms, extra, created).value;
    match FirstWithRole(ms, 0, "system")
    case Ok(Some(i)) =>
      var w := WithInstruction(ms[i], extra);
      assert Get(w.fields, "role") == Get(ms[i].fields, "role");
      assert RoleIs(r[i], "system") == Ok(true);
      FirstWithRoleIs(r, 0, i, "system");
    case Ok(None) =>
      assert RoleIs(r[0], "system") == Ok(true);
    case Err(_) =>
  }

  lemma {:induction false} FirstWithRoleIs(ms: seq<Json>, i: nat, p: nat, role: string)
    requires i <= p < |ms| && RoleIs(ms[p], role) == Ok(true)
    requires forall k :: i <= k < p ==> RoleIs(ms[k], role) == Ok(false)
    ensures FirstWithRole(ms, i, role) == Ok(Some(p))
    decreases p - i
  {
    if i < p {
      var m := ms[i];
      assert RoleIs(m, role) == Ok(false);
      FirstWithRoleIs(ms, i + 1, p, role);
      assert FirstWithRole(ms, i, role) == FirstWithRole(ms, i + 1, role);
    }
  }

  /** The loop over the messages that stops at the first system message. */
  method InjectInstruction(ms: seq<Json>, extra: string, created: string) returns (r: Result<seq<Json>>)
    ensures r == Inject(ms, extra, created)
  {
    var i := 0;
    while i < |ms|
      invariant 0 <= i <= |ms|
      invariant FirstWithRole(ms, 0, "system") == FirstWithRole(ms, i, "system")
    {
      var role := RoleIs(ms[i], "system");
      if role.Err? {
        return Err(role.error);
      }
      if role.value {
        return Ok(ms[i := WithInstruction(ms[i], extra)]);
      }
      assert FirstWithRole(ms, i, "system") == FirstWithRole(ms, i + 1, "system");
      i := i + 1;
    }
    return Ok([SystemMessage(created)] + ms);
  }

  // ----- the last assistant message -----

  /** The last message before `n` whose role is `role`, scanning
    * `reversed(messages)`; a message that is not a dict, met before it,
    * raises. */
  function LastWithRole(ms: seq<Json>, n: nat, role: string): (r: Result<Option<nat>>)
    requires n <= |ms|
    ensures r.Ok? && r.value.Some? ==> r.value.value < n && RoleIs(ms[r.value.value], role) == Ok(true)
    ensures r.Ok? && r.value.Some? ==> forall k :: r.value.value < k < n ==> RoleIs(ms[k], role) == Ok(false)
    ensures r.Ok? && r.value.None? ==> forall k :: 0 <= k < n ==> RoleIs(ms[k], role) == Ok(false)
    ensures r.Err? ==> r.error == AttributeError
    ensures (forall k :: 0 <= k < n ==> ms[k].Obj?) ==> r.Ok?
  {
    if n == 0 then Ok(None)
    else match RoleIs(ms[n - 1], role)
      case Err(e) => Err(e)
      case Ok(true) => Ok(Some(n - 1))
      case Ok(false) => LastWithRole(ms, n - 1, role)
  }

  /** The loop over `reversed(messages)` that stops at the first match. */
  method FindLastWithRole(ms: seq<Json>, role: string) returns (r: Result<Option<nat>>)
    ensures r == LastWithRole(ms, |ms|, role)
  {
    var n := |ms|;
    while n > 0
      invariant 0 <= n <= |ms|
      invariant LastWithRole(ms, |ms|, role) == LastWithRole(ms, n, role)
    {
      var found := RoleIs(ms[n - 1], role);
      if found.Err? {
        return Err(found.error);
      }
      if found.value {
        return Ok(Some(n - 1));
      }
      assert LastWithRole(ms, n, role) == LastWithRole(ms, n - 1, role);
      n := n - 1;
    }
    return Ok(None);
  }

  // ----- card blocks -----

  /** `cards if isinstance(cards, list) else [cards]`. */
  function CardsOf(v: Json): (r: seq<Json>)
    ensures v.Arr? ==> r == v.items
    ensures !v.Arr? ==> r == [v]
  {
    if v.Arr? then v.items else [v]
  }

  /** The cards of one block; a block that does not parse has none. */
  function BlockCards(block: string, parse: string -> Option<Json>): (r: seq<Json>)
    ensures parse(block).None? ==> r == []
    ensures parse(block).Some? ==> r == CardsOf(parse(block).value)
  {
    match parse(block)
    case None => []
    case Some(v) => CardsOf(v)
  }

  /** The cards of the blocks, in order. */
  function BlocksCards(blocks: seq<string>, parse: string -> Option<Json>): (r: seq<Json>)
    ensures blocks == [] ==> r == []
  {
    if blocks == [] then []
    else BlocksCards(blocks[..|blocks| - 1], parse) + BlockCards(blocks[|blocks| - 1], parse)
  }

  lemma {:induction false} BlocksCardsAppend(a: seq<string>, b: seq<string>, parse: string -> Option<Json>)
    ensures BlocksCards(a + b, parse) == BlocksCards(a, parse) + BlocksCards(b, parse)
    decreases |b|
  {
    if b == [] {
      assert a + b == a;
    } else {
      var n := |b| - 1;
      var ab := a + b;
      assert ab[..|ab| - 1] == a + b[..n];
      assert ab[|ab| - 1] == b[n];
      BlocksCardsAppend(a, b[..n], parse);
      var x, y, z := BlocksCards(a, parse), BlocksCards(b[..n], parse), BlockCards(b[n], parse);
      assert BlocksCards(ab, parse) == (x + y) + z;
      assert BlocksCards(b, parse) == y + z;
      assert (x + y) + z == x + (y + z);
    }
  }

  /** The `<open>` delimited blocks of a text, as `re.findall` with
    * IGNORECASE and DOTALL returns them. */
  function Blocks(content: string, open: string, close: string): seq<string>
  {
    if open == "" then [] else FindAll(content, open, close, true, 0)
  }

  /** A content without the opening tag, in any case, has no block. */
  lemma NoOpenNoBlocks(content: string, open: string, close: string)
    requires open != "" && !IsInfix(Key(open, true), Key(content, true))
    ensures Blocks(content, open, close) == []
  {
    NoOpenNoSpan(content, open, close, true);
  }

  /** The cards one message contributes: none unless it is an assistant
    * message, whose content must then be a string. */
  function MessageCards(m: Json, open: string, close: string, parse: string -> Option<Json>): (r: Result<seq<Json>>)
  {
    match RoleIs(m, "assistant")
    case Err(e) => Err(e)
    case Ok(false) => Ok([])
    case Ok(true) =>
      var content := GetOr(m.fields, "content", Str(""));
      if !content.Str? then Err(TypeError)
      else Ok(BlocksCards(Blocks(content.s, open, close), parse))
  }

  /** The cards of each message are read by the same function. */
  function Reader(open: string, close: string, parse: string -> Option<Json>): Json -> Result<seq<Json>>
  {
    m => MessageCards(m, open, close, parse)
  }

  /** What `read` gives for each message, in message order; the first
    * message that raises stops the loop. */
  function Gathered(ms: seq<Json>, read: Json -> Result<seq<Json>>): (r: Result<seq<Json>>)
    ensures ms == [] ==> r == Ok([])
  {
    if ms == [] then Ok([])
    else match Gathered(ms[..|ms| - 1], read)
      case Err(e) => Err(e)
      case Ok(cards) =>
        match read(ms[|ms| - 1])
        case Err(e) => Err(e)
        case Ok(more) => Ok(cards + more)
  }

  /** All the cards of the conversation. */
  function Collected(ms: seq<Json>, open: string, close: string, parse: string -> Option<Json>): Result<seq<Json>>
  {
    Gathered(ms, Reader(open, close, parse))
  }

  lemma AppendAssoc(a: seq<Json>, b: seq<Json>, c: seq<Json>)
    ensures (a + b) + c == a + (b + c)
  {
  }

  /** Gathering two parts of a conversation is gathering each in turn:
    * the cards keep the message order, and an exception in the first part
    * is the exception of the whole. */
  lemma {:induction false} GatheredAppend(a: seq<Json>, b: seq<Json>, read: Json -> Result<seq<Json>>)
    ensures Gathered(a + b, read).Ok? <==> Gathered(a, read).Ok? && Gathered(b, read).Ok?
    ensures Gathered(a + b, read).Ok? ==> Gathered(a + b, read).value == Gathered(a, read).value + Gathered(b, read).value
    ensures Gathered(a, read).Err? ==> Gathered(a + b, read) == Gathered(a, read)
    decreases |b|
  {
    if b == [] {
      assert a + b == a;
    } else {
      var n := |b| - 1;
      var ab := a + b;
      assert ab[..|ab| - 1] == a + b[..n];
      assert ab[|ab| - 1] == b[n];
      GatheredAppend(a, b[..n], read);
      var pre, x, y := Gathered(a + b[..n], read), Gathered(a, read), Gathered(b[..n], read);
      if pre.Ok? && read(b[n]).Ok? {
        AppendAssoc(x.value, y.value, read(b[n]).value);
      }
    }
  }

  /** One message alone contributes its own cards. */
  lemma GatheredOne(m: Json, read: Json -> Result<seq<Json>>)
    ensures Gathered([m], read) == read(m)
  {
    assert [m][..0] == [];
    match read(m)
    case Err(_) =>
    case Ok(more) => assert [] + more == more;
  }

  /** A message that raises stops the loop for good. */
  lemma GatheredPrefixErr(ms: seq<Json>, n: nat, read: Json -> Result<seq<Json>>)
    requires n <= |ms| && Gathered(ms[..n], read).Err?
    ensures Gathered(ms, read) == Gathered(ms[..n], read)
  {
    assert ms == ms[..n] + ms[n..];
    GatheredAppend(ms[..n], ms[n..], read);
  }

  /** Messages that are not assistant messages add no card. */
  lemma OthersAddNothing(m: Json, open: string, close: string, parse: string -> Option<Json>)
    requires m.Obj? && Get(m.fields, "role") != Some(Str("assistant"))
    ensures MessageCards(m, open, close, parse) == Ok([])
  {
  }

  /** An assistant message without the opening tag, in any case, adds no
    * card. */
  lemma NoTagNoCards(fields: Dict, content: string, open: string, close: string, parse: string -> Option<Json>)
    requires open != "" && !IsInfix(Key(open, true), Key(content, true))
    requires Get(fields, "role") == Some(Str("assistant")) && Get(fields, "content") == Some(Str(content))
    ensures MessageCards(Obj(fields), open, close, parse) == Ok([])
  {
    NoOpenNoSpan(content, open, close, true);
  }

  /** The cards of an assistant message are those of its blocks, in
    * order, a list block giving its items and any other block itself. */
  lemma AssistantCards(fields: Dict, content: string, open: string, close: string, parse: string -> Option<Json>)
    requires Get(fields, "role") == Some(Str("assistant")) && GetOr(fields, "content", Str("")) == Str(content)
    ensures MessageCards(Obj(fields), open, close, parse) == Ok(BlocksCards(Blocks(content, open, close), parse))
  {
  }

  /** A conversation holds at least as many cards as the first block of any
    * of its assistant messages. */
  lemma CollectedCoversFirstBlock(ms: seq<Json>, k: nat, content: string, open: string, close: string,
                                  parse: string -> Option<Json>, v: Json)
    requires k < |ms| && Collected(ms, open, close, parse).Ok?
    requires ms[k].Obj? && Get(ms[k].fields, "role") == Some(Str("assistant")) && GetOr(ms[k].fields, "content", Str("")) == Str(content)
    requires Blocks(content, open, close) != [] && parse(Blocks(content, open, close)[0]) == Some(v)
    ensures |Collected(ms, open, close, parse).value| >= |CardsOf(v)|
  {
    var blocks := Blocks(content, open, close);
    FirstBlockCards(blocks, parse, v);
    AssistantCards(ms[k].fields, content, open, close, parse);
    var read := Reader(open, close, parse);
    assert read(ms[k]) == Ok(BlocksCards(blocks, parse));
    GatheredCovers(ms, k, read);
  }

  lemma FirstBlockCards(blocks: seq<string>, parse: string -> Option<Json>, v: Json)
    requires blocks != [] && parse(blocks[0]) == Some(v)
    ensures |BlocksCards(blocks, parse)| >= |CardsOf(v)|
  {
    assert blocks == [blocks[0]] + blocks[1..];
    BlocksCardsAppend([blocks[0]], blocks[1..], parse);
    assert [blocks[0]][..0] == [];
  }

  /** Every message's cards are among those gathered. */
  lemma GatheredCovers(ms: seq<Json>, k: nat, read: Json -> Result<seq<Json>>)
    requires k < |ms| && Gathered(ms, read).Ok?
    ensures read(ms[k]).Ok? && |Gathered(ms, read).value| >= |read(ms[k]).value|
  {
    assert ms == ms[..k] + ([ms[k]] + ms[k + 1..]);
    GatheredAppend(ms[..k], [ms[k]] + ms[k + 1..], read);
    GatheredAppend([ms[k]], ms[k + 1..], read);
    GatheredOne(ms[k], read);
  }

  /** The cards of one message, block after block. */
  method ReadMessage(m: Json, open: string, close: string, parse: string -> Option<Json>) returns (r: Result<seq<Json>>)
    ensures r == MessageCards(m, open, close, parse)
  {
    var assistant := RoleIs(m, "assistant");
    if assistant.Err? {
      return Err(assistant.error);
    }
    if !assistant.value {
      return Ok([]);
    }
    var content := GetOr(m.fields, "content", Str(""));
    if !content.Str? {
      return Err(TypeError);
    }
    var more := ReadBlocks(Blocks(content.s, open, close), parse);
    return Ok(more);
  }

  /** The loop over the matches of one message. */
  method ReadBlocks(blocks: seq<string>, parse: string -> Option<Json>) returns (more: seq<Json>)
    ensures more == BlocksCards(blocks, parse)
  {
    more := [];
    for j := 0 to |blocks|
      invariant more == BlocksCards(blocks[..j], parse)
    {
      assert blocks[..j + 1][..j] == blocks[..j];
      match parse(blocks[j])
      case None =>
      case Some(cards) =>
        if cards.Arr? {
          more := more + cards.items;
        } else {
          more := more + [cards];
        }
    }
    assert blocks[..|blocks|] == blocks;
  }

  /** The loop that collects every card, message after message. */
  method CollectCards(ms: seq<Json>, open: string, close: string, parse: string -> Option<Json>) returns (r: Result<seq<Json>>)
    ensures r == Collected(ms, open, close, parse)
  {
    var read := Reader(open, close, parse);
    var all := [];
    for i := 0 to |ms|
      invariant Gathered(ms[..i], read) == Ok(all)
    {
      assert ms[..i + 1][..i] == ms[..i];
      var more := ReadMessage(ms[i], open, close, parse);
      assert more == read(ms[i]);
      if more.Err? {
        GatheredPrefixErr(ms, i + 1, read);
        return Err(more.error);
      }
      all := all + more.value;
    }
    assert ms[..|ms|] == ms;
    return Ok(all);
  }

  /** `for msg in body.get("messages", [])`: a list gives its messages; an
    * empty dict or string gives none; a non-empty dict or string gives keys
    * or characters, which have no `get`; any other value is not iterable. */
  function Conversation(body: Dict): (r: Result<seq<Json>>)
    ensures GetOr(body, "messages", Arr([])).Arr? ==> r == Ok(GetOr(body, "messages", Arr([])).items)
    ensures GetOr(body, "messages", Arr([])) in {Obj([]), Str("")} ==> r == Ok([])
    ensures r.Err? ==> r.error in {AttributeError, TypeError}
  {
    match GetOr(body, "messages", Arr([]))
    case Arr(ms) => Ok(ms)
    case Obj(d) => if d == [] then Ok([]) else Err(AttributeError)
    case Str(s) => if s == "" then Ok([]) else Err(AttributeError)
    case _ => Err(TypeError)
  }

  /** `_extract_all_cards`: the cards of every `open`/`close` block of every
    * assistant message of the body, in order. */
  function ConversationCards(body: Dict, open: string, close: string, parse: string -> Option<Json>): Result<seq<Json>>
  {
    match Conversation(body)
    case Err(e) => Err(e)
    case Ok(ms) => Collected(ms, open, close, parse)
  }

  method ExtractAllCards(body: Dict, open: string, close: string, parse: string -> Option<Json>) returns (r: Result<seq<Json>>)
    ensures r == ConversationCards(body, open, close, parse)
  {
    var ms := Conversation(body);
    if ms.Err? {
      return Err(ms.error);
    }
    r := CollectCards(ms.value, open, close, parse);
  }

  /** Messages that each add no card add none together. */
  lemma {:induction false} GatheredNothing(ms: seq<Json>, read: Json -> Result<seq<Json>>)
    requires forall k :: 0 <= k < |ms| ==> read(ms[k]) == Ok([])
    ensures Gathered(ms, read) == Ok([])
  {
    if ms != [] {
      var n := |ms| - 1;
      forall k | 0 <= k < n
        ensures read(ms[..n][k]) == Ok([])
      {
        assert ms[..n][k] == ms[k];
      }
      GatheredNothing(ms[..n], read);
      assert read(ms[n]) == Ok([]);
      var none: seq<Json> := [];
      assert ms[..|ms| - 1] == ms[..n];
      assert Gathered(ms, read) == Ok(none + none);
      assert none + none == none;
    }
  }

  /** A conversation whose messages are dicts, none of them an assistant
    * message holding the opening tag, in any case, has no card. */
  lemma NoTagAnywhere(ms: seq<Json>, open: string, close: string, parse: string -> Option<Json>)
    requires open != ""
    requires forall k :: 0 <= k < |ms| ==> ms[k].Obj?
    requires forall k :: 0 <= k < |ms| && Get(ms[k].fields, "role") == Some(Str("assistant")) ==>
               exists c :: Get(ms[k].fields, "content") == Some(Str(c)) && !IsInfix(Key(open, true), Key(c, true))
    ensures Collected(ms, open, close, parse) == Ok([])
  {
    var read := Reader(open, close, parse);
    forall k | 0 <= k < |ms|
      ensures read(ms[k]) == Ok([])
    {
      if Get(ms[k].fields, "role") == Some(Str("assistant")) {
        var c :| Get(ms[k].fields, "content") == Some(Str(c)) && !IsInfix(Key(open, true), Key(c, true));
        NoTagNoCards(ms[k].fields, c, open, close, parse);
      } else {
        OthersAddNothing(ms[k], open, close, parse);
      }
    }
    GatheredNothing(ms, read);
  }

  // ----- the note model -----

  /** One section of the answer side: the field's name in bold, then the
    * field, `f"<br><br><b>{field}:</b><br>{{{{{field}}}}}"`. */
  function AnswerSection(field: string): string
  {
    "<br><br><b>" + field + ":</b><br>{{" + field + "}}"
  }

  /** The answer sections of the fields, one after the other. */
  function AnswerSections(fields: seq<string>): (r: string)
    ensures fields == [] ==> r == ""
  {
    if fields == [] then ""
    else AnswerSections(fields[..|fields| - 1]) + AnswerSection(fields[|fields| - 1])
  }

  lemma {:induction false} AnswerSectionsInOrder(fields: seq<string>)
    ensures AnswerSections(fields) == Concat(seq(|fields|, i requires 0 <= i < |fields| => AnswerSection(fields[i])))
  {
    var parts := seq(|fields|, i requires 0 <= i < |fields| => AnswerSection(fields[i]));
    if fields != [] {
      var init := fields[..|fields| - 1];
      AnswerSectionsInOrder(init);
      var initParts := seq(|init|, i requires 0 <= i < |init| => AnswerSection(init[i]));
      assert parts == initParts + [parts[|fields| - 1]];
      ConcatAppend(initParts, parts[|fields| - 1]);
    }
  }

  /** The fields and templates of the cloze model. */
  datatype Model = Model(fields: seq<string>, qfmt: string, afmt: string)

  /** `_create_anki_model`: the question is the cloze of the first field,
    * and the answer repeats it and shows every later field under its
    * name; `fields[0]` raises an IndexError for no fields. */
  function CreateModel(fields: seq<string>): (r: Result<Model>)
    ensures r.Err? <==> fields == []
    ensures r.Err? ==> r.error == IndexError
    ensures r.Ok? ==> r.value.fields == fields && r.value.qfmt == "{{cloze:" + fields[0] + "}}"
    ensures r.Ok? ==> r.value.afmt == r.value.qfmt + AnswerSections(fields[1..])
  {
    if fields == [] then Err(IndexError)
    else
      var q := "{{cloze:" + fields[0] + "}}";
      Ok(Model(fields, q, q + AnswerSections(fields[1..])))
  }

  /** The answer template, section by section. */
  lemma ModelAnswer(fields: seq<string>)
    requires fields != []
    ensures CreateModel(fields).value.afmt
            == "{{cloze:" + fields[0] + "}}"
               + Concat(seq(|fields| - 1, i requires 0 <= i < |fields| - 1 => AnswerSection(fields[i + 1])))
  {
    AnswerSectionsInOrder(fields[1..]);
    assert seq(|fields| - 1, i requires 0 <= i < |fields| - 1 => AnswerSection(fields[i + 1]))
        == seq(|fields[1..]|, i requires 0 <= i < |fields[1..]| => AnswerSection(fields[1..][i]));
  }

  /** The loop `afmt += ...` over `fields[1:]`. */
  method BuildModel(fields: seq<string>) returns (r: Result<Model>)
    ensures r == CreateModel(fields)
  {
    if fields == [] {
      return Err(IndexError);
    }
    var q := "{{cloze:" + fields[0] + "}}";
    var a := q;
    var rest := fields[1..];
    for i := 0 to |rest|
      invariant a == q + AnswerSections(rest[..i])
    {
      assert rest[..i + 1][..i] == rest[..i];
      a := a + AnswerSection(rest[i]);
    }
    assert rest[..|rest|] == rest;
    return Ok(Model(fields, q, a));
  }

  /** `[card.get(field, "") for field in field_names]`: the field values in
    * the order of the names, "" for a missing one. */
  function NoteFields(card: Json, names: seq<string>): (r: Result<seq<Json>>)
    ensures r.Err? <==> names != [] && !card.Obj?
    ensures r.Err? ==> r.error == AttributeError
    ensures r.Ok? ==> |r.value| == |names|
    ensures r.Ok? && card.Obj? ==> forall i :: 0 <= i < |names| ==>
              (HasKey(card.fields, names[i]) ==> Get(card.fields, names[i]) == Some(r.value[i]))
              && (!HasKey(card.fields, names[i]) ==> r.value[i] == Str(""))
  {
    if names == [] then Ok([])
    else if !card.Obj? then Err(AttributeError)
    else Ok(seq(|names|, i requires 0 <= i < |names| => GetOr(card.fields, names[i], Str(""))))
  }

  /** The notes of the cards, in order; the first card that raises stops. */
  function Notes(cards: seq<Json>, names: seq<string>): (r: Result<seq<seq<Json>>>)
    ensures r.Ok? <==> forall i :: 0 <= i < |cards| ==> NoteFields(cards[i], names).Ok?
    ensures r.Ok? ==> |r.value| == |cards| && forall i :: 0 <= i < |cards| ==> NoteFields(cards[i], names) == Ok(r.value[i])
    ensures r.Err? ==> r.error == AttributeError
  {
    if cards == [] then Ok([])
    else match Notes(cards[..|cards| - 1], names)
      case Err(e) => Err(e)
      case Ok(notes) =>
        match NoteFields(cards[|cards| - 1], names)
        case Err(e) => Err(e)
        case Ok(note) => Ok(notes + [note])
  }

  const GenankiMissing := "genanki is not installed. Install it with: pip install genanki"
  const NoCardsToExport := "No cards to export"
  const InvalidFieldsDescription := "Invalid fields_description JSON: "

  /** `list(json.loads(fields_description).keys())`; any failure becomes the
    * ValueError about the description. */
  function FieldNames(description: string, parse: string -> Option<Json>): (r: Result<seq<string>>)
    ensures r.Ok? <==> parse(description).Some? && parse(description).value.Obj?
    ensures r.Ok? ==> r.value == Keys(parse(description).value.fields)
    ensures r.Err? ==> r.error == ValueError(InvalidFieldsDescription)
  {
    match parse(description)
    case Some(Obj(fields)) => Ok(Keys(fields))
    case _ => Err(ValueError(InvalidFieldsDescription))
  }

  /** What the package is written from: the deck and model names, the
    * cloze model and one note per card. */
  datatype Package = Package(deck: string, modelName: string, model: Model, notes: seq<seq<Json>>)

  /** `_create_apkg` up to the write: genanki must be installed, the cards
    * non-empty when `nonEmpty` is asked for, the description a dict with
    * at least one field, and every card a dict. */
  function PackageOf(cards: seq<Json>, deck: string, modelName: string, description: string,
                     parse: string -> Option<Json>, genanki: bool, nonEmpty: bool): (r: Result<Package>)
    ensures !genanki ==> r == Err(ImportError(GenankiMissing))
    ensures genanki && nonEmpty && cards == [] ==> r == Err(ValueError(NoCardsToExport))
    ensures genanki && !(nonEmpty && cards == []) && FieldNames(description, parse).Err? ==> r == Err(ValueError(InvalidFieldsDescription))
    ensures r.Ok? ==> genanki && FieldNames(description, parse) == Ok(r.value.model.fields) && r.value.model.fields != []
    ensures r.Ok? ==> CreateModel(r.value.model.fields) == Ok(r.value.model) && r.value.deck == deck && r.value.modelName == modelName
    ensures r.Ok? ==> |r.value.notes| == |cards|
                      && forall i :: 0 <= i < |cards| ==> NoteFields(cards[i], r.value.model.fields) == Ok(r.value.notes[i])
    ensures r.Err? && genanki && !(nonEmpty && cards == []) && FieldNames(description, parse).Ok? ==>
              (FieldNames(description, parse).value == [] && r.error == IndexError)
              || ((exists i :: 0 <= i < |cards| && !cards[i].Obj?) && r.error == AttributeError)
  {
    if !genanki then Err(ImportError(GenankiMissing))
    else if nonEmpty && cards == [] then Err(ValueError(NoCardsToExport))
    else match FieldNames(description, parse)
      case Err(e) => Err(e)
      case Ok(names) =>
        match CreateModel(names)
        case Err(e) => Err(e)
        case Ok(m) =>
          match Notes(cards, names)
          case Err(e) => Err(e)
          case Ok(notes) => Ok(Package(deck, modelName, m, notes))
  }

  /** `_create_apkg` with its note loop; the write itself is left to the
    * caller. */
  method CreatePackage(cards: seq<Json>, deck: string, modelName: string, description: string,
                       parse: string -> Option<Json>, genanki: bool, nonEmpty: bool) returns (r: Result<Package>)
    ensures r == PackageOf(cards, deck, modelName, description, parse, genanki, nonEmpty)
  {
    if !genanki {
      return Err(ImportError(GenankiMissing));
    }
    if nonEmpty && cards == [] {
      return Err(ValueError(NoCardsToExport));
    }
    var names := FieldNames(description, parse);
    if names.Err? {
      return Err(names.error);
    }
    var model := BuildModel(names.value);
    if model.Err? {
      return Err(model.error);
    }
    var notes := [];
    for i := 0 to |cards|
      invariant Notes(cards[..i], names.value) == Ok(notes)
    {
      assert cards[..i + 1][..i] == cards[..i];
      var note := NoteFields(cards[i], names.value);
      if note.Err? {
        assert Notes(cards[..i + 1], names.value).Err?;
        NotesPrefixErr(cards, i + 1, names.value);
        return Err(note.error);
      }
      notes := notes + [note.value];
    }
    assert cards[..|cards|] == cards;
    return Ok(Package(deck, modelName, model.value, notes));
  }

  /** A card that raises stops the notes of every longer list. */
  lemma NotesPrefixErr(cards: seq<Json>, n: nat, names: seq<string>)
    requires n <= |cards| && Notes(cards[..n], names).Err?
    ensures Notes(cards, names) == Err(AttributeError)
  {
    var i :| 0 <= i < n && NoteFields(cards[..n][i], names).Err?;
    assert cards[..n][i] == cards[i];
  }

  /** `f"{deck_name.replace(' ', '_')}.apkg"`. */
  function FileName(deck: string): (r: string)
    ensures EndsWith(r, ".apkg")
  {
    Replace(deck, " ", "_") + ".apkg"
  }

  /** The file name holds no space. */
  lemma FileNameHasNoSpace(deck: string)
    ensures ' ' !in FileName(deck)
  {
    var name := Replace(deck, " ", "_");
    ReplaceLeavesNone(deck, " ", '_');
    forall i | 0 <= i < |name| ensures name[i] != ' ' {
      assert !OccursAt(name, i, " ");
      assert name[i..i + 1] == [name[i]];
    }
    assert ' ' !in name;
    assert ' ' !in ".apkg";
  }
}
