/** The "Generate Anki Deck" action of the deck creator: it gathers the
  * cards of every `<details id=anki_card>` block of the conversation, and
  * on success asks the browser to download the package and answers
  * nothing; on a failure to make the package it answers with the reason.
  */
module AnkiDeckAction {

  import opened Wrappers
  import opened Text
  import opened Json
  import opened Spans
  import opened AnkiCards
  import opened AnkiDbAction

  const DetailsOpen := "<details " + "id=anki_card>"
  const DetailsClose := "</details>"

  /** The file the browser is asked to save: its name and the base64 text
    * of the package. */
  datatype Download = Download(name: string, data: string)

  /** What the action returns, and the download it asks for through
    * `__event_call__` when one is given. */
  datatype Answer = Answer(returned: Option<Dict>, download: Option<Download>)

  /** What the action does once the cards are gathered, or have failed to
    * be: an unexpected error returns nothing, like success. */
  function Outcome(cards: Result<seq<Json>>, v: Valves, parse: string -> Option<Json>, genanki: bool, call: bool,
                   encode: Package -> string, explain: Exc -> string): (r: Answer)
    ensures r.returned.Some? ==> Keys(r.returned.value) == ["content"]
  {
    match cards
    case Err(e) => Answer(None, None)
    case Ok(all) =>
      if all == [] then Answer(Some(AnkiDbAction.Reply(Str(NoFlashcards))), None)
      else
        var p := PackageOf(all, v.deck, v.modelName, v.description, parse, genanki, true);
        if p.Ok? then Answer(None, if call then Some(Download(FileName(v.deck), encode(p.value))) else None)
        else if p.error.ImportError? then Answer(Some(AnkiDbAction.Reply(Str(ErrorPrefix + p.error.msg + InstallHint))), None)
        else Answer(Some(AnkiDbAction.Reply(Str(CreateFailed + explain(p.error)))), None)
  }

  /** `action`. */
  function Acted(body: Dict, v: Valves, parse: string -> Option<Json>, genanki: bool, call: bool,
                 encode: Package -> string, explain: Exc -> string): Answer
  {
    Outcome(ConversationCards(body, DetailsOpen, DetailsClose, parse), v, parse, genanki, call, encode, explain)
  }

  /** The action returns nothing exactly on success and on an unexpected
    * error; otherwise it returns the same answer as the database action. */
  lemma NothingOnSuccessOrUnexpected(body: Dict, v: Valves, parse: string -> Option<Json>, genanki: bool, call: bool,
                                     encode: Package -> string, explain: Exc -> string)
    ensures var cards := ConversationCards(body, DetailsOpen, DetailsClose, parse);
            Acted(body, v, parse, genanki, call, encode, explain).returned.None?
            <==> cards.Err? || (cards.value != [] && PackageOf(cards.value, v.deck, v.modelName, v.description, parse, genanki, true).Ok?)
    ensures var cards := ConversationCards(body, DetailsOpen, DetailsClose, parse);
            Acted(body, v, parse, genanki, call, encode, explain).returned.Some? ==>
              Acted(body, v, parse, genanki, call, encode, explain).returned.value
              == AnkiDbAction.Outcome(cards, v, parse, genanki, encode, explain)
  {
  }

  /** A download is asked for only on success and only when there is an
    * event call; its file is the encoded package under the deck's file
    * name. */
  lemma DownloadOnSuccess(body: Dict, v: Valves, parse: string -> Option<Json>, genanki: bool, call: bool,
                          encode: Package -> string, explain: Exc -> string)
    ensures var cards := ConversationCards(body, DetailsOpen, DetailsClose, parse);
            Acted(body, v, parse, genanki, call, encode, explain).download.Some?
            <==> call && cards.Ok? && cards.value != []
                 && PackageOf(cards.value, v.deck, v.modelName, v.description, parse, genanki, true).Ok?
    ensures var a := Acted(body, v, parse, genanki, call, encode, explain);
            var cards := ConversationCards(body, DetailsOpen, DetailsClose, parse);
            a.download.Some? ==>
              a.download.value == Download(FileName(v.deck),
                                           encode(PackageOf(cards.value, v.deck, v.modelName, v.description, parse, genanki, true).value))
  {
  }

  /** Within an answer, no `<` but the two of its tags: the
    * `<anki_cards>` form of a block. */
  ghost predicate CardsBlock(c: string)
  {
    exists x :: '<' !in x && c == CardsOpen + x + CardsClose
  }

  /** The `<details>` pattern does not occur in an `<anki_cards>` block. */
  lemma DetailsNotInCardsBlock(x: string)
    requires '<' !in x
    ensures !IsInfix(Key(DetailsOpen, true), Key(CardsOpen + x + CardsClose, true))
  {
    var c := CardsOpen + x + CardsClose;
    var k := Key(c, true);
    var p := Key(DetailsOpen, true);
    assert p[0] == '<' && p[1] == 'd';
    forall i | 0 <= i < |c| - 1
      ensures k[i] != '<' || k[i + 1] != 'd'
    {
      if i < |CardsOpen| {
        assert c[i] == CardsOpen[i];
        if i == 0 {
          assert c[1] == 'a';
        } else {
          assert c[i] != '<';
        }
      } else if i < |CardsOpen| + |x| {
        assert c[i] == x[i - |CardsOpen|];
      } else {
        var j := i - |CardsOpen| - |x|;
        assert c[i] == CardsClose[j] && c[i + 1] == CardsClose[j + 1];
      }
    }
    forall i | 0 <= i <= |k|
      ensures !OccursAt(k, i, p)
    {
      if i + |p| <= |k| {
        assert k[i..i + |p|][0] == k[i] && k[i..i + |p|][1] == k[i + 1];
      }
    }
  }

  /** The docstring speaks of `<anki_cards>` tags, but a conversation
    * whose answers hold their cards in `<anki_cards>` blocks alone gets
    * the "No flashcards" answer: those blocks are never found. */
  lemma CardsBlocksNotFound(body: Dict, ms: seq<Json>, v: Valves, parse: string -> Option<Json>, genanki: bool, call: bool,
                            encode: Package -> string, explain: Exc -> string)
    requires GetOr(body, "messages", Arr([])) == Arr(ms)
    requires forall k :: 0 <= k < |ms| ==> ms[k].Obj?
    requires forall k :: 0 <= k < |ms| && Get(ms[k].fields, "role") == Some(Str("assistant")) ==>
               exists c :: Get(ms[k].fields, "content") == Some(Str(c)) && CardsBlock(c)
    ensures Acted(body, v, parse, genanki, call, encode, explain) == Answer(Some(AnkiDbAction.Reply(Str(NoFlashcards))), None)
  {
    forall k | 0 <= k < |ms| && Get(ms[k].fields, "role") == Some(Str("assistant"))
      ensures exists c :: Get(ms[k].fields, "content") == Some(Str(c)) && !IsInfix(Key(DetailsOpen, true), Key(c, true))
    {
      var c :| Get(ms[k].fields, "content") == Some(Str(c)) && CardsBlock(c);
      var x :| '<' !in x && c == CardsOpen + x + CardsClose;
      DetailsNotInCardsBlock(x);
    }
    NoTagAnywhere(ms, DetailsOpen, DetailsClose, parse);
  }

  /** `action`, with its loops over messages, blocks and cards. */
  method Action(body: Dict, v: Valves, parse: string -> Option<Json>, genanki: bool, call: bool,
                encode: Package -> string, explain: Exc -> string) returns (r: Answer)
    ensures r == Acted(body, v, parse, genanki, call, encode, explain)
  {
    var cards := ExtractAllCards(body, DetailsOpen, DetailsClose, parse);
    if cards.Err? {
      return Answer(None, None);
    }
    var all := cards.value;
    if all == [] {
      return Answer(Some(AnkiDbAction.Reply(Str(NoFlashcards))), None);
    }
    var p := CreatePackage(all, v.deck, v.modelName, v.description, parse, genanki, true);
    if p.Err? {
      if p.error.ImportError? {
        return Answer(Some(AnkiDbAction.Reply(Str(ErrorPrefix + p.error.msg + InstallHint))), None);
      }
      return Answer(Some(AnkiDbAction.Reply(Str(CreateFailed + explain(p.error)))), None);
    }
    var download := None;
    if call {
      download := Some(Download(FileName(v.deck), encode(p.value)));
    }
    return Answer(None, download);
  }
}
