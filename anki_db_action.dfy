/** The "Generate Anki Deck" action of the card database: it gathers the
  * cards of every `<anki_cards>` block of the conversation and answers
  * with the package to download, or with a message saying why there is
  * none. Every answer is a dict whose only key is "content".
  */
module AnkiDbAction {

  import opened Wrappers
  import opened Text
  import opened Json
  import opened AnkiCards

  const CardsOpen := "<anki_cards>"
  const CardsClose := "</anki_cards>"

  /** The action's valves. */
  datatype Valves = Valves(deck: string, modelName: string, description: string)

  // Each fixed text is written as a join of short literals, at most 16
  // characters each, because the verifier handles these much more cheaply
  // than one long literal. The constant's value is the plain join.
  const NoFlashcards :=
    "\U{274C} No flashcards " + "found in this " + "conversation. " + "Please ask the "
    + "LLM to create " + "flashcards " + "first."
  const ErrorPrefix :=
    "\U{274C} Error: "
  const InstallHint :=
    "\n\nPlease " + "contact your " + "administrator " + "to install "
    + "genanki."
  const CreateFailed :=
    "\U{274C} Error " + "creating .apkg " + "file: "
  const Unexpected :=
    "\U{274C} Unexpected " + "error: "
  const Generated :=
    "\U{2705} **Anki deck " + "generated " + "successfully!**\n" + "\n\U{1F4CA} Total cards: "
    + "**"
  const DeckLabel :=
    "**\n\U{1F4E6} Deck name: " + "**"
  const DownloadHint :=
    "**\n\n\U{1F4E5} Download " + "the .apkg file " + "below and " + "import it into "
    + "Anki."
  const DataUrl :=
    "data:application" + "/x-apkg;base64,"

  /** `{"content": content}`. */
  function Reply(content: Json): (r: Dict)
    ensures Keys(r) == ["content"] && Get(r, "content") == Some(content)
  {
    [("content", content)]
  }

  /** The text shown above the download. */
  function Report(total: nat, deck: string): string
  {
    Generated + NatText(total) + DeckLabel + deck + DownloadHint
  }

  /** The download: the encoded package as a data URL, under the deck's
    * file name. */
  function FileItem(data: string, deck: string): Json
  {
    Obj([("type", Str("file")), ("url", Str(DataUrl + data)), ("name", Str(FileName(deck)))])
  }

  /** What the action answers once the cards are gathered, or have failed
    * to be. `encode` is the base64 text of the written package and
    * `explain` is `str(e)` of an exception other than the missing
    * genanki, whose message is shown as it is. */
  function Outcome(cards: Result<seq<Json>>, v: Valves, parse: string -> Option<Json>, genanki: bool,
                   encode: Package -> string, explain: Exc -> string): (r: Dict)
    ensures Keys(r) == ["content"]
  {
    match cards
    case Err(e) => Reply(Str(Unexpected + explain(e)))
    case Ok(all) =>
      if all == [] then Reply(Str(NoFlashcards))
      else
        var p := PackageOf(all, v.deck, v.modelName, v.description, parse, genanki, true);
        if p.Ok? then Reply(Arr([TextItem(Report(|all|, v.deck)), FileItem(encode(p.value), v.deck)]))
        else if p.error.ImportError? then Reply(Str(ErrorPrefix + p.error.msg + InstallHint))
        else Reply(Str(CreateFailed + explain(p.error)))
  }

  /** `action`. */
  function Acted(body: Dict, v: Valves, parse: string -> Option<Json>, genanki: bool,
                 encode: Package -> string, explain: Exc -> string): Dict
  {
    Outcome(ConversationCards(body, CardsOpen, CardsClose, parse), v, parse, genanki, encode, explain)
  }

  /** The action answers with a list, the download, exactly when the
    * conversation holds cards and the package can be made from them. */
  lemma DownloadExactlyWhenPackaged(body: Dict, v: Valves, parse: string -> Option<Json>, genanki: bool,
                                    encode: Package -> string, explain: Exc -> string)
    ensures var cards := ConversationCards(body, CardsOpen, CardsClose, parse);
            Get(Acted(body, v, parse, genanki, encode, explain), "content").value.Arr?
            <==> cards.Ok? && cards.value != [] && PackageOf(cards.value, v.deck, v.modelName, v.description, parse, genanki, true).Ok?
  {
  }

  /** The download comes with the number of cards and the deck, and its
    * file name ends in ".apkg" and holds no space. */
  lemma DownloadDescribed(body: Dict, v: Valves, parse: string -> Option<Json>, genanki: bool,
                          encode: Package -> string, explain: Exc -> string, all: seq<Json>, p: Package)
    requires ConversationCards(body, CardsOpen, CardsClose, parse) == Ok(all) && all != []
    requires PackageOf(all, v.deck, v.modelName, v.description, parse, genanki, true) == Ok(p)
    ensures Get(Acted(body, v, parse, genanki, encode, explain), "content")
            == Some(Arr([TextItem(Report(|all|, v.deck)), FileItem(encode(p), v.deck)]))
    ensures |p.notes| == |all| && p.deck == v.deck
    ensures ' ' !in FileName(v.deck) && EndsWith(FileName(v.deck), ".apkg")
  {
    FileNameHasNoSpace(v.deck);
  }

  /** A package is only made when every card is a dict and the description
    * names at least one field, which becomes the cloze field. */
  lemma PackagedCardsAreDicts(body: Dict, v: Valves, parse: string -> Option<Json>, genanki: bool,
                              encode: Package -> string, explain: Exc -> string)
    requires Get(Acted(body, v, parse, genanki, encode, explain), "content").value.Arr?
    ensures genanki
    ensures var all := ConversationCards(body, CardsOpen, CardsClose, parse).value;
            forall i :: 0 <= i < |all| ==> all[i].Obj?
    ensures FieldNames(v.description, parse).Ok? && FieldNames(v.description, parse).value != []
  {
    var all := ConversationCards(body, CardsOpen, CardsClose, parse).value;
    var p := PackageOf(all, v.deck, v.modelName, v.description, parse, genanki, true).value;
    forall i | 0 <= i < |all|
      ensures all[i].Obj?
    {
      assert NoteFields(all[i], p.model.fields) == Ok(p.notes[i]);
    }
  }

  /** Every answer that is not the download is a text starting with the
    * cross mark. */
  lemma FailuresMarked(body: Dict, v: Valves, parse: string -> Option<Json>, genanki: bool,
                       encode: Package -> string, explain: Exc -> string)
    requires !Get(Acted(body, v, parse, genanki, encode, explain), "content").value.Arr?
    ensures var content := Get(Acted(body, v, parse, genanki, encode, explain), "content").value;
            content.Str? && |content.s| > 0 && content.s[0] == '\U{274C}'
  {
  }

  /** The "No flashcards" answer comes exactly from a conversation without
    * cards. */
  lemma NoFlashcardsExactlyWhenNone(body: Dict, v: Valves, parse: string -> Option<Json>, genanki: bool,
                                    encode: Package -> string, explain: Exc -> string)
    ensures Get(Acted(body, v, parse, genanki, encode, explain), "content") == Some(Str(NoFlashcards))
            <==> ConversationCards(body, CardsOpen, CardsClose, parse) == Ok([])
  {
    var cards := ConversationCards(body, CardsOpen, CardsClose, parse);
    PrefixLetters();
    if cards.Err? {
      NotNoFlashcards(Unexpected, explain(cards.error));
    } else if cards.value != [] {
      var p := PackageOf(cards.value, v.deck, v.modelName, v.description, parse, genanki, true);
      if p.Err? && p.error.ImportError? {
        NotNoFlashcards(ErrorPrefix, p.error.msg + InstallHint);
        assert ErrorPrefix + p.error.msg + InstallHint == ErrorPrefix + (p.error.msg + InstallHint);
      } else if p.Err? {
        NotNoFlashcards(CreateFailed, explain(p.error));
      }
    }
  }

  lemma PrefixLetters()
    ensures |ErrorPrefix| > 2 && ErrorPrefix[2] == 'E'
    ensures |CreateFailed| > 2 && CreateFailed[2] == 'E'
    ensures |Unexpected| > 2 && Unexpected[2] == 'U'
  {
  }

  lemma NotNoFlashcards(head: string, tail: string)
    requires |head| > 2 && head[2] != 'N'
    ensures head + tail != NoFlashcards
  {
    assert (head + tail)[2] == head[2] != NoFlashcards[2];
  }

  /** Without genanki, a conversation with cards gets the hint to install
    * it. */
  lemma MissingGenanki(body: Dict, v: Valves, parse: string -> Option<Json>,
                       encode: Package -> string, explain: Exc -> string)
    requires ConversationCards(body, CardsOpen, CardsClose, parse).Ok?
    requires ConversationCards(body, CardsOpen, CardsClose, parse).value != []
    ensures Get(Acted(body, v, parse, false, encode, explain), "content")
            == Some(Str(ErrorPrefix + GenankiMissing + InstallHint))
  {
  }

  /** A conversation whose messages are not dicts, or whose messages value
    * cannot be iterated as messages, gets the unexpected error. */
  lemma BadMessagesUnexpected(body: Dict, v: Valves, parse: string -> Option<Json>, genanki: bool,
                              encode: Package -> string, explain: Exc -> string)
    requires Conversation(body).Err?
    ensures Get(Acted(body, v, parse, genanki, encode, explain), "content")
            == Some(Str(Unexpected + explain(Conversation(body).error)))
  {
  }

  /** `action`, with its loops over messages, blocks and cards. */
  method Action(body: Dict, v: Valves, parse: string -> Option<Json>, genanki: bool,
                encode: Package -> string, explain: Exc -> string) returns (r: Dict)
    ensures r == Acted(body, v, parse, genanki, encode, explain)
  {
    var cards := ExtractAllCards(body, CardsOpen, CardsClose, parse);
    if cards.Err? {
      return Reply(Str(Unexpected + explain(cards.error)));
    }
    var all := cards.value;
    if all == [] {
      return Reply(Str(NoFlashcards));
    }
    var p := CreatePackage(all, v.deck, v.modelName, v.description, parse, genanki, true);
    if p.Err? {
      if p.error.ImportError? {
        return Reply(Str(ErrorPrefix + p.error.msg + InstallHint));
      }
      return Reply(Str(CreateFailed + explain(p.error)));
    }
    return Reply(Arr([TextItem(Report(|all|, v.deck)), FileItem(encode(p.value), v.deck)]));
  }
}
