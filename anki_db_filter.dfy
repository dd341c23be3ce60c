/** The Anki DB creator filter: on the way in it puts the flashcard
  * instruction in the system message; on the way out it takes the cards of
  * the first `<json>` block of the last answer, adds them to the chat's
  * card file, writes the chat's `.apkg` package, and replaces the block in
  * the answer by a note about the files.
  *
  * The card directory is the state of a `CardFiles` object: per chat, the
  * JSON value its `cards.json` holds and the package its `cards.apkg` was
  * written from.
  */
module AnkiDbFilter {

  import opened Wrappers
  import opened Text
  import opened Json
  import opened Spans
  import opened Thoughts
  import opened AnkiCards

  // ----- the instruction -----

  // Each fixed text is written as a join of short literals, at most 16
  // characters each, because the verifier handles these much more cheaply
  // than one long literal. The constant's value is the plain join.
  const Intro :=
    "\n\n---\n\n" + "**IMPORTANT " + "INSTRUCTION FOR " + "FLASHCARD "
    + "CREATION:**\n\n"
  const Rules :=
    "At the end of " + "your response, " + "you MUST " + "include a JSON "
    + "array of " + "flashcard " + "dictionaries " + "enclosed in "
    + "<json> tags.\n\n"
  const FieldsHeading :=
    "Each flashcard " + "should be a " + "dictionary with " + "the following "
    + "fields:\n"
  const Cloze :=
    "\nFor cloze " + "deletions, use " + "the format " + "{{c1::text to "
    + "hide}}, " + "{{c2::another " + "hidden text}}, " + "etc.\n"
  const ExampleHeading :=
    "\nExample " + "format:\n<json>\n"
  const Closing :=
    "\n</json>\n"

  /** The instruction `inlet` builds from the parsed field description:
    * the fixed text, one line per field, and the example card between
    * `<json>` tags. It starts with its own separator. */
  function Instruction(fields: Dict, show: Json -> string, dump: Json -> string): string
  {
    Intro + Rules + FieldsHeading + FieldLines(fields, show) + Cloze + ExampleHeading + ExampleJson(fields, dump) + Closing
  }

  /** The instruction lists the fields in key order, one line each, and its
    * example card has the same keys in the same order, the first holding
    * the cloze example and the others the generic text. */
  lemma InstructionLayout(fields: Dict, show: Json -> string, dump: Json -> string)
    requires UniqueKeys(fields)
    ensures Instruction(fields, show, dump)
            == Intro + Rules + FieldsHeading
               + Concat(seq(|fields|, i requires 0 <= i < |fields| => FieldLine(fields[i].0, fields[i].1, show)))
               + Cloze + ExampleHeading + dump(Arr([Obj(ExamplePairs(Keys(fields)))])) + Closing
  {
    FieldLinesInOrder(fields, show);
    KeysDistinct(fields);
    ExampleCardFields(Keys(fields));
  }

  /** The instruction, appended to step by step as `inlet` does. */
  method BuildInstruction(fields: Dict, show: Json -> string, dump: Json -> string) returns (r: string)
    ensures r == Instruction(fields, show, dump)
  {
    var head := Intro + Rules + FieldsHeading;
    r := head;
    for i := 0 to |fields|
      invariant r == head + FieldLines(fields[..i], show)
    {
      assert fields[..i + 1][..i] == fields[..i];
      r := r + FieldLine(fields[i].0, fields[i].1, show);
    }
    assert fields[..|fields|] == fields;
    r := r + Cloze + ExampleHeading;
    var card := BuildExampleCard(Keys(fields));
    r := r + dump(Arr([Obj(card)])) + Closing;
  }

  // ----- the inlet -----

  /** `inlet`: with the filter enabled and a field description that parses
    * to a dict, the instruction goes, with no further separator, to the
    * first system message, or into a new system message put first. A
    * description that does not parse, or is not a dict, "messages" that is
    * not a list, or a message that is not a dict met before the first
    * system message, leaves the body as it was. The check of the user's
    * valve runs outside the `try` and may raise. */
  function Prepared(body: Dict, user: Json, description: string, parse: string -> Option<Json>,
                    show: Json -> string, dump: Json -> string): (r: Result<Dict>)
    ensures r.Err? <==> Enabled(user).Err?
    ensures r.Err? ==> r.error == Enabled(user).error
    ensures Enabled(user) == Ok(false) ==> r == Ok(body)
    ensures r.Ok? && !(parse(description).Some? && parse(description).value.Obj?) ==> r.value == body
    ensures r.Ok? && !GetOr(body, "messages", Arr([])).Arr? ==> r.value == body
    ensures r.Ok? ==> forall k :: k != "messages" ==> Get(r.value, k) == Get(body, k)
  {
    match Enabled(user)
    case Err(e) => Err(e)
    case Ok(false) => Ok(body)
    case Ok(true) => Ok(InstructedBy(body, parse(description), show, dump))
  }

  /** The body once the parsed field description is applied. */
  function InstructedBy(body: Dict, fd: Option<Json>, show: Json -> string, dump: Json -> string): (r: Dict)
    ensures !(fd.Some? && fd.value.Obj?) ==> r == body
    ensures !GetOr(body, "messages", Arr([])).Arr? ==> r == body
    ensures forall k :: k != "messages" ==> Get(r, k) == Get(body, k)
  {
    match fd
    case None => body
    case Some(v) => if !v.Obj? then body else Instructed(body, Instruction(v.fields, show, dump))
  }

  /** The body with the instruction injected into its messages, or as it
    * was when they are not a list or a message raises. */
  function Instructed(body: Dict, instruction: string): (r: Dict)
    ensures !GetOr(body, "messages", Arr([])).Arr? ==> r == body
    ensures forall k :: k != "messages" ==> Get(r, k) == Get(body, k)
    ensures r == body || (GetOr(body, "messages", Arr([])).Arr? && Inject(GetOr(body, "messages", Arr([])).items, instruction, instruction).Ok?
                          && Get(r, "messages") == Some(Arr(Inject(GetOr(body, "messages", Arr([])).items, instruction, instruction).value)))
  {
    var messages := GetOr(body, "messages", Arr([]));
    if !messages.Arr? then body
    else match Inject(messages.items, instruction, instruction)
      case Err(_) => body
      case Ok(injected) => Set(body, "messages", Arr(injected))
  }

  /** With every message a dict and a description that parses to a dict,
    * the instruction is appended to the first system message, or a system
    * message holding it is put first; a missing "messages" counts as an
    * empty list. */
  lemma PreparedInjects(body: Dict, user: Json, description: string, parse: string -> Option<Json>,
                        show: Json -> string, dump: Json -> string, ms: seq<Json>, fd: Dict)
    requires Enabled(user) == Ok(true) && parse(description) == Some(Obj(fd))
    requires GetOr(body, "messages", Arr([])) == Arr(ms) && forall i :: 0 <= i < |ms| ==> ms[i].Obj?
    ensures match FirstWithRole(ms, 0, "system")
            case Ok(Some(p)) =>
              Prepared(body, user, description, parse, show, dump)
              == Ok(Set(body, "messages", Arr(ms[p := WithInstruction(ms[p], Instruction(fd, show, dump))])))
            case _ =>
              Prepared(body, user, description, parse, show, dump)
              == Ok(Set(body, "messages", Arr([SystemMessage(Instruction(fd, show, dump))] + ms)))
  {
    InstructedInjects(body, ms, Instruction(fd, show, dump));
  }

  lemma InstructedInjects(body: Dict, ms: seq<Json>, instruction: string)
    requires GetOr(body, "messages", Arr([])) == Arr(ms) && forall i :: 0 <= i < |ms| ==> ms[i].Obj?
    ensures match FirstWithRole(ms, 0, "system")
            case Ok(Some(p)) => Instructed(body, instruction) == Set(body, "messages", Arr(ms[p := WithInstruction(ms[p], instruction)]))
            case _ => Instructed(body, instruction) == Set(body, "messages", Arr([SystemMessage(instruction)] + ms))
  {
  }

  /** `inlet`, step by step. */
  method Inlet(body: Dict, user: Json, description: string, parse: string -> Option<Json>,
               show: Json -> string, dump: Json -> string) returns (r: Result<Dict>)
    ensures r == Prepared(body, user, description, parse, show, dump)
  {
    var enabled := Enabled(user);
    if enabled.Err? {
      return Err(enabled.error);
    }
    if !enabled.value {
      return Ok(body);
    }
    var fd := parse(description);
    if fd.None? || !fd.value.Obj? {
      return Ok(body);
    }
    var instruction := BuildInstruction(fd.value.fields, show, dump);
    var messages := GetOr(body, "messages", Arr([]));
    if !messages.Arr? {
      return Ok(body);
    }
    var injected := InjectInstruction(messages.items, instruction, instruction);
    if injected.Err? {
      return Ok(body);
    }
    return Ok(Set(body, "messages", Arr(injected.value)));
  }

  // ----- the outlet -----

  const JsonOpen := "<json>"
  const JsonClose := "</json>"

  const Done :=
    "\n\n---\n\n\U{2705} " + "**Flashcards " + "created " + "successfully!**\n"
    + "\n"
  const TotalLabel :=
    "\U{1F4CA} Total cards " + "in deck: **"
  const AddedLabel :=
    "**\n\U{1F195} New cards " + "added: **"
  const PlaceLabel :=
    "**\n\n\U{1F4C1} Files " + "location: `"
  const JsonLine :=
    "`\n- " + "`cards.json` - " + "All cards in " + "JSON format\n"
  const ApkgLine :=
    "- `cards.apkg` " + "- Anki package " + "ready to import\n"

  /** The note that replaces the card block: the totals, the chat's
    * directory as `dir`, and the package line when the package was
    * written. */
  function Footer(total: nat, added: nat, dir: string, apkg: bool): string
  {
    Done + TotalLabel + NatText(total) + AddedLabel + NatText(added) + PlaceLabel + dir + JsonLine
    + (if apkg then ApkgLine else "")
  }

  lemma LineEnds()
    ensures |JsonLine| >= 4 && JsonLine[|JsonLine| - 4] == 'm'
    ensures |ApkgLine| >= 4 && ApkgLine[|ApkgLine| - 4] == 'o'
  {
    var f := "JSON format\n";
    assert JsonLine == "`\n- " + "`cards.json` - " + "All cards in " + f;
    assert JsonLine[|JsonLine| - 4] == f[|f| - 4];
    var g := "ready to import\n";
    assert ApkgLine == "- `cards.apkg` " + "- Anki package " + g;
    assert ApkgLine[|ApkgLine| - 4] == g[|g| - 4];
  }

  lemma SuffixDiffers(x: string, y: string, a: string)
    requires |a| >= 4 && |y| >= 4 && y[|y| - 4] != a[|a| - 4]
    ensures !EndsWith(x + y, a)
  {
  }

  /** The footer ends with the package line exactly when the package was
    * written. */
  lemma FooterListsPackage(total: nat, added: nat, dir: string, apkg: bool)
    ensures EndsWith(Footer(total, added, dir, apkg), ApkgLine) <==> apkg
  {
    var base := Done + TotalLabel + NatText(total) + AddedLabel + NatText(added) + PlaceLabel + dir;
    LineEnds();
    if apkg {
      assert Footer(total, added, dir, apkg) == (base + JsonLine) + ApkgLine;
    } else {
      assert Footer(total, added, dir, apkg) == base + JsonLine;
      SuffixDiffers(base, JsonLine, ApkgLine);
    }
  }

  /** The answer without its `<json>` blocks, stripped. */
  function Cleaned(content: string): string
  {
    Strip(RemoveSpans(content, JsonOpen, JsonClose, true, 0))
  }

  /** An answer with a block loses at least that block: the cleaned text
    * is a shorter subsequence of the answer. */
  lemma CleanedRemovesBlocks(content: string)
    requires Blocks(content, JsonOpen, JsonClose) != []
    ensures IsSubsequence(Cleaned(content), content) && |Cleaned(content)| < |content|
  {
    var removed := RemoveSpans(content, JsonOpen, JsonClose, true, 0);
    var (i, j) := FirstSpan(content, JsonOpen, JsonClose, true, 0).value;
    assert |removed| <= i + |content| - j < |content|;
    RemoveSpansSubsequence(content, JsonOpen, JsonClose, true, 0);
    assert content[0..] == content;
    StripSubsequence(removed);
    SubsequenceTrans(Cleaned(content), removed, content);
  }

  /** The last answer, its text, and the cards of its first block. */
  datatype Answer = Answer(at: nat, content: string, cards: seq<Json>)

  /** The answer the outlet works on, or nothing when it leaves the body
    * alone: a message that raises before the last assistant message is
    * found, no assistant message, content that is not a string, no
    * `<json>` block in any case, or a first block that does not parse. Only
    * the first block counts, a list giving its items and any other value
    * itself. */
  function Answered(ms: seq<Json>, parse: string -> Option<Json>): (r: Option<Answer>)
    ensures r.Some? ==> r.value.at < |ms| && ms[r.value.at].Obj?
    ensures r.Some? ==> LastWithRole(ms, |ms|, "assistant") == Ok(Some(r.value.at))
    ensures r.Some? ==> GetOr(ms[r.value.at].fields, "content", Str("")) == Str(r.value.content)
    ensures r.Some? ==> Blocks(r.value.content, JsonOpen, JsonClose) != []
                        && parse(Blocks(r.value.content, JsonOpen, JsonClose)[0]).Some?
                        && r.value.cards == CardsOf(parse(Blocks(r.value.content, JsonOpen, JsonClose)[0]).value)
    ensures LastWithRole(ms, |ms|, "assistant").Err? || LastWithRole(ms, |ms|, "assistant") == Ok(None) ==> r.None?
  {
    match LastWithRole(ms, |ms|, "assistant")
    case Err(_) => None
    case Ok(None) => None
    case Ok(Some(k)) =>
      var content := GetOr(ms[k].fields, "content", Str(""));
      if !content.Str? then None
      else
        var blocks := Blocks(content.s, JsonOpen, JsonClose);
        if blocks == [] then None
        else match parse(blocks[0])
          case None => None
          case Some(v) => Some(Answer(k, content.s, CardsOf(v)))
  }

  /** An answer without the opening tag, in any case, or whose first block
    * does not parse, gives no cards. */
  lemma NoBlockNoAnswer(ms: seq<Json>, parse: string -> Option<Json>, k: nat, content: string)
    requires LastWithRole(ms, |ms|, "assistant") == Ok(Some(k))
    requires GetOr(ms[k].fields, "content", Str("")) == Str(content)
    requires !IsInfix(Key(JsonOpen, true), Key(content, true))
             || (Blocks(content, JsonOpen, JsonClose) != [] && parse(Blocks(content, JsonOpen, JsonClose)[0]).None?)
    ensures Answered(ms, parse).None?
  {
    if !IsInfix(Key(JsonOpen, true), Key(content, true)) {
      NoOpenNoBlocks(content, JsonOpen, JsonClose);
    }
  }

  /** What `_load_existing_cards` reads: the value of the chat's card file,
    * or an empty list when there is none or it does not parse. */
  function Existing(files: map<string, Option<Json>>, chat: string): (r: Json)
    ensures chat !in files || files[chat].None? ==> r == Arr([])
    ensures chat in files && files[chat].Some? ==> r == files[chat].value
  {
    if chat in files && files[chat].Some? then files[chat].value else Arr([])
  }

  /** `existing_cards + new_cards`: only a list can be extended. */
  function Merged(existing: Json, added: seq<Json>): (r: Option<seq<Json>>)
    ensures r.Some? <==> existing.Arr?
    ensures r.Some? ==> |r.value| == |existing.items| + |added| && r.value[|existing.items|..] == added
    ensures r.Some? ==> r.value[..|existing.items|] == existing.items
  {
    if existing.Arr? then Some(existing.items + added) else None
  }

  /** The card directory: per chat, the value of its card file (`None` for
    * a file that does not parse), and the package of its `.apkg`. */
  datatype Files = Files(cards: map<string, Option<Json>>, packages: map<string, Package>)

  /** The valves the outlet uses. */
  datatype Valves = Valves(description: string, deck: string, modelName: string)

  /** The package written for the cards, if `_create_apkg` gets that far
    * and `written` says the write succeeds; it does not ask for cards. */
  function Packaged(all: seq<Json>, v: Valves, parse: string -> Option<Json>, genanki: bool, written: bool): (r: Option<Package>)
    ensures r.Some? <==> written && PackageOf(all, v.deck, v.modelName, v.description, parse, genanki, false).Ok?
    ensures r.Some? ==> r.value == PackageOf(all, v.deck, v.modelName, v.description, parse, genanki, false).value
    ensures !genanki ==> r.None?
  {
    match PackageOf(all, v.deck, v.modelName, v.description, parse, genanki, false)
    case Err(_) => None
    case Ok(p) => if written then Some(p) else None
  }

  /** The answer's new text: without its blocks, then the footer. */
  function AnswerText(a: Answer, all: seq<Json>, dir: string, made: bool): string
  {
    Cleaned(a.content) + Footer(|all|, |a.cards|, dir, made)
  }

  /** The body with the answer's content replaced, in place. */
  function Rewritten(body: Dict, ms: seq<Json>, at: nat, text: string): Dict
    requires at < |ms| && ms[at].Obj?
  {
    Set(body, "messages", Arr(ms[at := Obj(Set(ms[at].fields, "content", Str(text)))]))
  }

  /** The files and the body once the cards are merged: the card file
    * holds every card, the package file is replaced only when the new
    * package was written, and the answer gets its new text. */
  function Saved(files: Files, body: Dict, ms: seq<Json>, chat: string, a: Answer, all: seq<Json>,
                 v: Valves, parse: string -> Option<Json>, genanki: bool, written: bool, dir: string): (r: (Files, Dict))
    requires a.at < |ms| && ms[a.at].Obj?
    ensures r.0.cards == files.cards[chat := Some(Arr(all))]
    ensures Packaged(all, v, parse, genanki, written).None? ==> r.0.packages == files.packages
    ensures Packaged(all, v, parse, genanki, written).Some? ==>
              r.0.packages == files.packages[chat := Packaged(all, v, parse, genanki, written).value]
    ensures forall k :: k != "messages" ==> Get(r.1, k) == Get(body, k)
  {
    var package := Packaged(all, v, parse, genanki, written);
    var packages := if package.Some? then files.packages[chat := package.value] else files.packages;
    (Files(files.cards[chat := Some(Arr(all))], packages),
     Rewritten(body, ms, a.at, AnswerText(a, all, dir, package.Some?)))
  }

  /** Past the checks on the body: with an answer and a card file holding
    * a list, the cards are saved; otherwise nothing changes. */
  function Accumulated(files: Files, body: Dict, ms: seq<Json>, chat: string,
                       v: Valves, parse: string -> Option<Json>, genanki: bool, written: bool, dir: string): (r: (Files, Dict))
    ensures Answered(ms, parse).None? ==> r == (files, body)
    ensures Answered(ms, parse).Some? && !Existing(files.cards, chat).Arr? ==> r == (files, body)
    ensures forall k :: k != "messages" ==> Get(r.1, k) == Get(body, k)
  {
    match Answered(ms, parse)
    case None => (files, body)
    case Some(a) =>
      match Merged(Existing(files.cards, chat), a.cards)
      case None => (files, body)
      case Some(all) => Saved(files, body, ms, chat, a, all, v, parse, genanki, written, dir)
  }

  /** `outlet`: with the filter enabled, a chat id, and a non-empty list of
    * messages, the cards of the last answer are added to the chat's card
    * file; in every other case the files and the body stay as they were.
    * The check of the user's valve runs outside the `try` and may raise. */
  function Stored(files: Files, body: Dict, user: Json, chat: Option<string>, v: Valves,
                  parse: string -> Option<Json>, genanki: bool, written: bool, dir: string): (r: Result<(Files, Dict)>)
    ensures r.Err? <==> Enabled(user).Err?
    ensures r.Err? ==> r.error == Enabled(user).error
    ensures Enabled(user) == Ok(false) ==> r == Ok((files, body))
    ensures r.Ok? && (chat.None? || chat == Some("")) ==> r.value == (files, body)
    ensures r.Ok? && (!GetOr(body, "messages", Arr([])).Arr? || GetOr(body, "messages", Arr([])) == Arr([])) ==> r.value == (files, body)
    ensures r.Ok? ==> forall k :: k != "messages" ==> Get(r.value.1, k) == Get(body, k)
  {
    match Enabled(user)
    case Err(e) => Err(e)
    case Ok(false) => Ok((files, body))
    case Ok(true) =>
      if chat.None? || chat.value == "" then Ok((files, body))
      else
        var messages := GetOr(body, "messages", Arr([]));
        if !messages.Arr? || messages.items == [] then Ok((files, body))
        else Ok(Accumulated(files, body, messages.items, chat.value, v, parse, genanki, written, dir))
  }

  /** Past the checks, the outlet merges. */
  lemma StoredAccumulates(files: Files, body: Dict, user: Json, chat: string, v: Valves,
                          parse: string -> Option<Json>, genanki: bool, written: bool, dir: string, ms: seq<Json>)
    requires Enabled(user) == Ok(true) && chat != ""
    requires GetOr(body, "messages", Arr([])) == Arr(ms) && ms != []
    ensures Stored(files, body, user, Some(chat), v, parse, genanki, written, dir)
            == Ok(Accumulated(files, body, ms, chat, v, parse, genanki, written, dir))
  {
  }

  /** With an answer and a list in the card file, the cards are saved. */
  lemma AccumulatedSaves(files: Files, body: Dict, ms: seq<Json>, chat: string,
                         v: Valves, parse: string -> Option<Json>, genanki: bool, written: bool, dir: string)
    requires Answered(ms, parse).Some? && Existing(files.cards, chat).Arr?
    ensures Accumulated(files, body, ms, chat, v, parse, genanki, written, dir)
            == Saved(files, body, ms, chat, Answered(ms, parse).value,
                     Existing(files.cards, chat).items + Answered(ms, parse).value.cards, v, parse, genanki, written, dir)
  {
    assert Merged(Existing(files.cards, chat), Answered(ms, parse).value.cards)
        == Some(Existing(files.cards, chat).items + Answered(ms, parse).value.cards);
  }

  /** The deck accumulates: after the outlet the chat's card file holds the
    * cards it held, followed by the new ones; no other chat's file changes,
    * and only this chat's package may be replaced, by the package of all
    * the cards. */
  lemma DeckAccumulates(files: Files, body: Dict, user: Json, chat: string, v: Valves,
                        parse: string -> Option<Json>, genanki: bool, written: bool, dir: string, ms: seq<Json>)
    requires Enabled(user) == Ok(true) && chat != ""
    requires GetOr(body, "messages", Arr([])) == Arr(ms) && ms != []
    requires Answered(ms, parse).Some? && Existing(files.cards, chat).Arr?
    ensures var after := Stored(files, body, user, Some(chat), v, parse, genanki, written, dir).value.0;
            var all := Existing(files.cards, chat).items + Answered(ms, parse).value.cards;
            && after.cards == files.cards[chat := Some(Arr(all))]
            && Existing(after.cards, chat) == Arr(all)
            && (forall c :: c != chat ==> Existing(after.cards, c) == Existing(files.cards, c))
    ensures var after := Stored(files, body, user, Some(chat), v, parse, genanki, written, dir).value.0;
            var package := Packaged(Existing(files.cards, chat).items + Answered(ms, parse).value.cards, v, parse, genanki, written);
            && (package.None? ==> after.packages == files.packages)
            && (package.Some? ==> after.packages == files.packages[chat := package.value])
  {
    var all := Existing(files.cards, chat).items + Answered(ms, parse).value.cards;
    StoredAccumulates(files, body, user, chat, v, parse, genanki, written, dir, ms);
    AccumulatedSaves(files, body, ms, chat, v, parse, genanki, written, dir);
    SavedCards(files, body, ms, chat, Answered(ms, parse).value, all, v, parse, genanki, written, dir);
  }

  /** Saving writes this chat's card file and no other. */
  lemma SavedCards(files: Files, body: Dict, ms: seq<Json>, chat: string, a: Answer, all: seq<Json>,
                   v: Valves, parse: string -> Option<Json>, genanki: bool, written: bool, dir: string)
    requires a.at < |ms| && ms[a.at].Obj?
    ensures Existing(Saved(files, body, ms, chat, a, all, v, parse, genanki, written, dir).0.cards, chat) == Arr(all)
    ensures forall c :: c != chat ==>
              Existing(Saved(files, body, ms, chat, a, all, v, parse, genanki, written, dir).0.cards, c) == Existing(files.cards, c)
  {
    var cards := Saved(files, body, ms, chat, a, all, v, parse, genanki, written, dir).0.cards;
    assert cards == files.cards[chat := Some(Arr(all))];
    forall c | c != chat
      ensures Existing(cards, c) == Existing(files.cards, c)
    {
      ExistingElsewhere(files.cards, chat, Some(Arr(all)), c);
    }
  }

  lemma ExistingElsewhere(files: map<string, Option<Json>>, chat: string, x: Option<Json>, c: string)
    requires c != chat
    ensures Existing(files[chat := x], c) == Existing(files, c)
  {
  }

  /** The answer after the outlet: its text without the `<json>` blocks,
    * shorter than before, then the footer with the size of the deck and
    * of the new cards, which lists the package exactly when it was
    * written. */
  lemma AnswerRewritten(files: Files, body: Dict, user: Json, chat: string, v: Valves,
                        parse: string -> Option<Json>, genanki: bool, written: bool, dir: string, ms: seq<Json>)
    requires Enabled(user) == Ok(true) && chat != ""
    requires GetOr(body, "messages", Arr([])) == Arr(ms) && ms != []
    requires Answered(ms, parse).Some? && Existing(files.cards, chat).Arr?
    ensures var a := Answered(ms, parse).value;
            var all := Existing(files.cards, chat).items + a.cards;
            var made := Packaged(all, v, parse, genanki, written).Some?;
            && Get(Stored(files, body, user, Some(chat), v, parse, genanki, written, dir).value.1, "messages")
               == Some(Arr(ms[a.at := Obj(Set(ms[a.at].fields, "content", Str(Cleaned(a.content) + Footer(|all|, |a.cards|, dir, made))))]))
            && (EndsWith(Footer(|all|, |a.cards|, dir, made), ApkgLine) <==> made)
            && IsSubsequence(Cleaned(a.content), a.content) && |Cleaned(a.content)| < |a.content|
  {
    var a := Answered(ms, parse).value;
    var all := Existing(files.cards, chat).items + a.cards;
    var made := Packaged(all, v, parse, genanki, written).Some?;
    StoredAccumulates(files, body, user, chat, v, parse, genanki, written, dir, ms);
    AccumulatedSaves(files, body, ms, chat, v, parse, genanki, written, dir);
    FooterListsPackage(|all|, |a.cards|, dir, made);
    CleanedRemovesBlocks(a.content);
  }


  /** The card directory of the running filter. */
  class CardFiles {
    var cards: map<string, Option<Json>>
    var packages: map<string, Package>

    function State(): Files
      reads this
    {
      Files(cards, packages)
    }

    /** `_save_cards`: the chat's card file is replaced by the list. */
    method Save(chat: string, all: seq<Json>)
      modifies this
      ensures cards == old(cards)[chat := Some(Arr(all))] && packages == old(packages)
    {
      cards := cards[chat := Some(Arr(all))];
    }

    /** `_create_apkg`: the note model and notes, then the write of the
      * chat's package, which `written` says succeeds; any failure leaves
      * the old package. */
    method CreateApkg(chat: string, all: seq<Json>, v: Valves, parse: string -> Option<Json>, genanki: bool, written: bool)
      returns (made: bool)
      modifies this
      ensures made == Packaged(all, v, parse, genanki, written).Some?
      ensures cards == old(cards)
      ensures made ==> packages == old(packages)[chat := Packaged(all, v, parse, genanki, written).value]
      ensures !made ==> packages == old(packages)
    {
      var package := CreatePackage(all, v.deck, v.modelName, v.description, parse, genanki, false);
      if package.Err? || !written {
        return false;
      }
      packages := packages[chat := package.value];
      return true;
    }

    /** `outlet`, step by step. */
    method Outlet(body: Dict, user: Json, chat: Option<string>, v: Valves,
                  parse: string -> Option<Json>, genanki: bool, written: bool, dir: string) returns (r: Result<Dict>)
      modifies this
      ensures r.Err? ==> Stored(old(State()), body, user, chat, v, parse, genanki, written, dir) == Err(r.error)
                         && State() == old(State())
      ensures r.Ok? ==> Stored(old(State()), body, user, chat, v, parse, genanki, written, dir) == Ok((State(), r.value))
    {
      var enabled := Enabled(user);
      if enabled.Err? {
        return Err(enabled.error);
      }
      if !enabled.value || chat.None? || chat.value == "" {
        return Ok(body);
      }
      var messages := GetOr(body, "messages", Arr([]));
      if !messages.Arr? || messages.items == [] {
        return Ok(body);
      }
      r := Accumulate(body, messages.items, chat.value, v, parse, genanki, written, dir);
    }

    /** The outlet once the body has passed its checks. */
    method Accumulate(body: Dict, ms: seq<Json>, chat: string, v: Valves,
                      parse: string -> Option<Json>, genanki: bool, written: bool, dir: string) returns (r: Result<Dict>)
      modifies this
      ensures r.Ok? && (State(), r.value) == Accumulated(old(State()), body, ms, chat, v, parse, genanki, written, dir)
    {
      var answer := FindAnswer(ms, parse);
      if answer.None? {
        return Ok(body);
      }
      var a := answer.value;
      var existing := Existing(cards, chat);
      if !existing.Arr? {
        return Ok(body);
      }
      var all := existing.items + a.cards;
      ghost var before := State();
      Save(chat, all);
      var made := CreateApkg(chat, all, v, parse, genanki, written);
      return Ok(Rewritten(body, ms, a.at, AnswerText(a, all, dir, made)));
    }
  }

  /** The search for the last answer and its first block, step by step. */
  method FindAnswer(ms: seq<Json>, parse: string -> Option<Json>) returns (r: Option<Answer>)
    ensures r == Answered(ms, parse)
  {
    var last := FindLastWithRole(ms, "assistant");
    if last.Err? || last.value.None? {
      return None;
    }
    var k := last.value.value;
    var content := GetOr(ms[k].fields, "content", Str(""));
    if !content.Str? {
      return None;
    }
    var blocks := Blocks(content.s, JsonOpen, JsonClose);
    if blocks == [] {
      return None;
    }
    var cards := parse(blocks[0]);
    if cards.None? {
      return None;
    }
    return Some(Answer(k, content.s, CardsOf(cards.value)));
  }
}
