/** The Anki flashcard tool: it sends one note to Ankiconnect. Its
  * description, shown to the model, embeds the fields description of the
  * valves and is rewritten whenever the valves are assigned; creating a card
  * first checks the arguments and that the description is still current.
  */
module AnkiTool {

  import opened Wrappers
  import opened Text
  import opened Json

  /** The tool's valves. */
  datatype Valves = Valves(host: string, port: string, deck: string, noteType: string, tags: seq<string>,
                           fieldsDescription: string, styleRequest: string, cardsExamples: string)

  // Each fixed text is written as a join of short literals, at most 16
  // characters each, because the verifier handles these much more cheaply
  // than one long literal. The constant's value is the plain join.
  const DefaultFields :=
    "{\"Front\": \"the " + "concise " + "question\", " + "\"Back\": \"the "
    + "answer\"}"
  const DefaultStyle :=
    "Make high " + "quality " + "flashcards, use " + "html formatting."
  const DefaultExamples :=
    "<example>{\"Front" + "\": \"What is the " + "capital of " + "France?\", "
    + "\"Back\": " + "\"Paris\"}</exampl" + "e>\n" + "<example>{\"Front"
    + "\": \"What is " + "2+2?\", \"Back\": " + "\"4\"}</example>"

  const DefaultValves :=
    Valves("http://127.0.0.1", "8755", "Default", "Basic", ["openwebui"], DefaultFields, DefaultStyle, DefaultExamples)

  const DocHead :=
    "\n    Create a " + "single Anki " + "flashcard with " + "given field "
    + "contents.\n    " + "If not " + "otherwised " + "specified, "
    + "assume the " + "flashcard " + "language to be " + "the one used in "
    + "the user " + "request.\n    " + "All values of " + "field_contents "
    + "must be " + "strings.\n    " + "Here is the " + "fields you must "
    + "use: \'"
  const DocFields :=
    "\'\n    Each of " + "its keys must " + "correspond to " + "one field of "
    + "the note " + "type.\n    "
  const DocExamples :=
    "\n\n    " + "Examples:\n    "
  const DocTail :=
    "\n\n    :param " + "field_contents: " + "Dictionary " + "mapping field "
    + "names to their " + "string content. " + "The expected " + "keys are "
    + "mentionned in " + "the tool " + "description.\n   " + " :return: ID of "
    + "the created " + "note, or None " + "if failed\n    "

  /** A text occurs in any text built around it. */
  lemma InfixBetween(a: string, x: string, b: string)
    ensures IsInfix(x, a + x + b)
  {
    assert (a + x + b)[|a|..|a| + |x|] == x;
    assert OccursAt(a + x + b, |a|, x);
  }

  /** `update_docstring`: the fields description is embedded verbatim. */
  function Docstring(fieldsDescription: string, styleRequest: string, cardsExamples: string): (r: string)
    ensures IsInfix(fieldsDescription, r)
  {
    var tail := DocFields + styleRequest + DocExamples + cardsExamples + DocTail;
    InfixBetween(DocHead, fieldsDescription, tail);
    DocHead + fieldsDescription + tail
  }

  /** `create_flashcard.__func__`: one function object, whose `__doc__` all
    * the tools share. */
  class ToolFunction {
    var doc: string

    constructor(doc: string)
      ensures this.doc == doc
    {
      this.doc := doc;
    }
  }

  // ----- Ankiconnect -----

  /** `f"{host}:{port}"`. */
  function Address(host: string, port: string): string
  {
    host + ":" + port
  }

  /** The request body: the action, the parameters or `{}` when they are
    * falsy, and version 6. */
  function Envelope(action: string, params: Json): Json
  {
    Obj([("action", Str(action)), ("params", if Truthy(params) then params else Obj([])), ("version", Num(6))])
  }

  /** What `_ankiconnect_request` makes of the server's answer `response`
    * (an error for a failed connection, status or decoding): a truthy
    * `error` field raises, otherwise the `result` field is the answer. */
  function Answered(response: Result<Json>): (r: Result<Json>)
    ensures r.Ok? <==> response.Ok? && response.value.Obj? && !Truthy(GetOr(response.value.fields, "error", Null))
                       && HasKey(response.value.fields, "result")
    ensures r.Ok? ==> Get(response.value.fields, "result") == Some(r.value)
  {
    match response
    case Err(e) => Err(e)
    case Ok(data) =>
      if !data.Obj? then Err(AttributeError)
      else
        var error := GetOr(data.fields, "error", Null);
        if Truthy(error) then Err(Raised(if error.Str? then error.s else ""))
        else Index(data, "result")
  }

  /** The requests sent so far, each with its address: the network, seen
    * from the tool. */
  class Connection {
    var sent: seq<(string, Json)>

    constructor()
      ensures sent == []
    {
      sent := [];
    }
  }

  /** The answer to one request, `post(address, body)` being the server's
    * answer. */
  function Reply(post: (string, Json) -> Result<Json>, request: (string, Json)): Result<Json>
  {
    Answered(post(request.0, request.1))
  }

  /** The answer to each request. */
  function Ask(post: (string, Json) -> Result<Json>): ((string, Json)) -> Result<Json>
  {
    request => Reply(post, request)
  }

  /** `_ankiconnect_request`; the request is logged on the connection. */
  method Request(c: Connection, host: string, port: string, action: string, params: Json,
                 post: (string, Json) -> Result<Json>) returns (r: Result<Json>)
    modifies c
    ensures c.sent == old(c.sent) + [(Address(host, port), Envelope(action, params))]
    ensures r == Reply(post, (Address(host, port), Envelope(action, params)))
  {
    var address := host + ":" + port;
    var request := Envelope(action, params);
    c.sent := c.sent + [(address, request)];
    var response := post(address, request);
    r := Answered(response);
  }

  // ----- creating a card -----

  /** The tags as a JSON list. */
  function TagList(tags: seq<string>): (r: seq<Json>)
    ensures |r| == |tags| && forall i :: 0 <= i < |tags| ==> r[i] == Str(tags[i])
  {
    if tags == [] then [] else [Str(tags[0])] + TagList(tags[1..])
  }

  /** The note sent with `addNote`: the deck, the note type, the fields as
    * given and the tags of the valves. */
  function Note(v: Valves, fields: Dict): Json
  {
    Obj([("deckName", Str(v.deck)), ("modelName", Str(v.noteType)), ("fields", Obj(fields)), ("tags", Arr(TagList(v.tags)))])
  }

  /** The actions of a card and their parameters, in order: `version`,
    * `addNote` with the note, `sync`. */
  function Calls(v: Valves, fields: Dict): (r: seq<(string, Json)>)
    ensures |r| == 3
  {
    [("version", Null), ("addNote", Obj([("note", Note(v, fields))])), ("sync", Null)]
  }

  /** The requests made for some calls, all to one address. */
  function Enveloped(address: string, calls: seq<(string, Json)>): (r: seq<(string, Json)>)
    ensures |r| == |calls|
    ensures forall i :: 0 <= i < |calls| ==> r[i] == (address, Envelope(calls[i].0, calls[i].1))
  {
    seq(|calls|, i requires 0 <= i < |calls| => (address, Envelope(calls[i].0, calls[i].1)))
  }

  /** The three requests of a card. */
  function Requests(v: Valves, fields: Dict): (r: seq<(string, Json)>)
    ensures |r| == 3
  {
    Enveloped(Address(v.host, v.port), Calls(v, fields))
  }

  /** The `try` block, over its three requests and the answer `ask`
    * gives to each: they are sent in order until one fails; the answer is
    * that of the second when all three succeed and the empty list
    * otherwise. */
  function Exchange(requests: seq<(string, Json)>, ask: ((string, Json)) -> Result<Json>): (r: (Json, seq<(string, Json)>))
    requires |requests| == 3
    ensures 1 <= |r.1| <= 3 && r.1 == requests[..|r.1|]
    ensures forall i :: 0 <= i < |r.1| - 1 ==> ask(r.1[i]).Ok?
    ensures |r.1| < 3 ==> ask(r.1[|r.1| - 1]).Err?
    ensures r.0 == (if |r.1| == 3 && ask(r.1[2]).Ok? then ask(r.1[1]).value else Arr([]))
  {
    if ask(requests[0]).Err? then (Arr([]), requests[..1])
    else
      match ask(requests[1])
      case Err(_) => (Arr([]), requests[..2])
      case Ok(result) =>
        assert requests[..3] == requests;
        if ask(requests[2]).Err? then (Arr([]), requests[..3]) else (result, requests[..3])
  }

  // Each fixed text is written as a join of short literals, at most 16
  // characters each, because the verifier handles these much more cheaply
  // than one long literal. The constant's value is the plain join.
  const StaleHead :=
    "The field " + "description is " + "not up to date " + "anymore, please "
    + "turn of then on " + "again the anki " + "tool to update " + "the tool "
    + "description. " + "The new field " + "description " + "value is \'"
  const OldDescription :=
    "\nThe old field " + "description is \'"

  /** The message raised when the description is out of date; it names the
    * description remembered at construction when the valves changed it. */
  function StaleMessage(current: string, remembered: string): string
  {
    StaleHead + current + "\'" + (if remembered != current then OldDescription + remembered + "\'" else "")
  }

  lemma InfixBefore(a: string, x: string, b: string, c: string)
    ensures IsInfix(x, a + x + b + c)
  {
    assert a + x + b + c == a + x + (b + c);
    InfixBetween(a, x, b + c);
  }

  lemma InfixAfter(a: string, b: string, x: string, c: string)
    ensures IsInfix(x, a + (b + x + c))
  {
    assert a + (b + x + c) == (a + b) + x + c;
    InfixBetween(a + b, x, c);
  }

  /** The message names the new description, and the old one when it
    * differs. */
  lemma StaleMessageNames(current: string, remembered: string)
    ensures IsInfix(current, StaleMessage(current, remembered))
    ensures remembered != current ==> IsInfix(remembered, StaleMessage(current, remembered))
  {
    var tail := if remembered != current then OldDescription + remembered + "\'" else "";
    InfixBefore(StaleHead, current, "\'", tail);
    if remembered != current {
      InfixAfter(StaleHead + current + "\'", OldDescription, remembered, "\'");
    }
  }

  /** Every field value is a string. */
  predicate AllText(fields: Dict)
  {
    forall i :: 0 <= i < |fields| ==> fields[i].1.Str?
  }

  /** The arguments `create_flashcard` accepts: a non-empty dict of texts. */
  predicate Valid(contents: Json)
  {
    Truthy(contents) && contents.Obj? && AllText(contents.fields)
  }

  /** `create_flashcard`, from the valves, the fields description
    * remembered at construction and the current description `doc`: `Null`
    * is Python's `None`, an exception is an error, and the requests sent
    * come with the answer. */
  function Created(v: Valves, remembered: string, doc: string, contents: Json,
                   post: (string, Json) -> Result<Json>): (r: (Result<Json>, seq<(string, Json)>))
    ensures !Valid(contents) ==> r == (Ok(Null), [])
    ensures r.0.Err? <==> Valid(contents) && !IsInfix(v.fieldsDescription, doc)
    ensures r.0.Err? ==> r == (Err(Raised(StaleMessage(v.fieldsDescription, remembered))), [])
    ensures r.1 != [] <==> Valid(contents) && IsInfix(v.fieldsDescription, doc)
  {
    if !Truthy(contents) || !contents.Obj? then (Ok(Null), [])
    else if !AllText(contents.fields) then (Ok(Null), [])
    else if !IsInfix(v.fieldsDescription, doc) then (Err(Raised(StaleMessage(v.fieldsDescription, remembered))), [])
    else
      var (answer, sent) := Exchange(Requests(v, contents.fields), Ask(post));
      (Ok(answer), sent)
  }

  /** Valid arguments under a current description reach Ankiconnect: the
    * method never raises, sends a prefix of the card's three requests and
    * answers what the exchange answers. */
  lemma ValidCardReachesAnki(v: Valves, remembered: string, doc: string, fields: Dict, post: (string, Json) -> Result<Json>)
    requires fields != [] && AllText(fields) && IsInfix(v.fieldsDescription, doc)
    ensures var r := Created(v, remembered, doc, Obj(fields), post);
            r.0 == Ok(Exchange(Requests(v, fields), Ask(post)).0) && 1 <= |r.1| && r.1 == Requests(v, fields)[..|r.1|]
  {
  }

  /** Every request is answered exactly when a note's answer is returned,
    * and nothing is sent after a failure. */
  lemma {:induction false} ExchangeAllOrNothing(requests: seq<(string, Json)>, ask: ((string, Json)) -> Result<Json>)
    requires |requests| == 3
    ensures (forall i :: 0 <= i < 3 ==> ask(requests[i]).Ok?) ==>
              Exchange(requests, ask) == (ask(requests[1]).value, requests)
    ensures (exists i :: 0 <= i < 3 && ask(requests[i]).Err?) ==> Exchange(requests, ask).0 == Arr([])
  {
    var e := Exchange(requests, ask);
    if forall i :: 0 <= i < 3 ==> ask(requests[i]).Ok? {
      assert |e.1| == 3 && requests[..3] == requests;
    }
    if exists i :: 0 <= i < 3 && ask(requests[i]).Err? {
      var i :| 0 <= i < 3 && ask(requests[i]).Err?;
      if |e.1| == 3 {
        assert e.1 == requests && i < 3;
      }
    }
  }

  /** The description built from some valves is current for them: the
    * method never raises under valves whose docstring they wrote. */
  lemma FreshDocstringNeverRaises(v: Valves, remembered: string, contents: Json, post: (string, Json) -> Result<Json>)
    ensures Created(v, remembered, Docstring(v.fieldsDescription, v.styleRequest, v.cardsExamples), contents, post).0.Ok?
  {
  }

  /** `Exchange`, one request at a time. */
  lemma ExchangeSteps(requests: seq<(string, Json)>, ask: ((string, Json)) -> Result<Json>)
    requires |requests| == 3
    ensures ask(requests[0]).Err? ==> Exchange(requests, ask) == (Arr([]), [requests[0]])
    ensures ask(requests[0]).Ok? && ask(requests[1]).Err? ==> Exchange(requests, ask) == (Arr([]), [requests[0], requests[1]])
    ensures ask(requests[0]).Ok? && ask(requests[1]).Ok? && ask(requests[2]).Err? ==> Exchange(requests, ask) == (Arr([]), requests)
    ensures ask(requests[0]).Ok? && ask(requests[1]).Ok? && ask(requests[2]).Ok? ==>
              Exchange(requests, ask) == (ask(requests[1]).value, requests)
  {
    assert requests[..1] == [requests[0]] && requests[..2] == [requests[0], requests[1]] && requests[..3] == requests;
  }

  lemma SentTwo(s: seq<(string, Json)>, a: (string, Json), b: (string, Json))
    ensures s + [a] + [b] == s + [a, b]
  {
  }

  lemma SentThree(s: seq<(string, Json)>, xs: seq<(string, Json)>)
    requires |xs| == 3
    ensures s + [xs[0], xs[1]] + [xs[2]] == s + xs
  {
    assert xs == [xs[0], xs[1], xs[2]];
  }

  /** The `i`-th request and the answer to it. */
  lemma AskedAt(host: string, port: string, calls: seq<(string, Json)>, post: (string, Json) -> Result<Json>, i: nat)
    requires i < |calls|
    ensures Enveloped(Address(host, port), calls)[i] == (Address(host, port), Envelope(calls[i].0, calls[i].1))
    ensures Ask(post)(Enveloped(Address(host, port), calls)[i]) == Reply(post, (Address(host, port), Envelope(calls[i].0, calls[i].1)))
  {
  }

  /** The `try` block of `create_flashcard`, over its calls, with the
    * requests logged on the connection. */
  method Send(c: Connection, host: string, port: string, calls: seq<(string, Json)>,
              post: (string, Json) -> Result<Json>) returns (answer: Json)
    requires |calls| == 3
    modifies c
    ensures answer == Exchange(Enveloped(Address(host, port), calls), Ask(post)).0
    ensures c.sent == old(c.sent) + Exchange(Enveloped(Address(host, port), calls), Ask(post)).1
  {
    ghost var requests := Enveloped(Address(host, port), calls);
    ExchangeSteps(requests, Ask(post));
    AskedAt(host, port, calls, post, 0);
    AskedAt(host, port, calls, post, 1);
    AskedAt(host, port, calls, post, 2);
    ghost var before := c.sent;
    var version := Request(c, host, port, calls[0].0, calls[0].1, post);
    if version.Err? {
      return Arr([]);
    }
    var result := Request(c, host, port, calls[1].0, calls[1].1, post);
    SentTwo(before, requests[0], requests[1]);
    if result.Err? {
      return Arr([]);
    }
    var sync := Request(c, host, port, calls[2].0, calls[2].1, post);
    SentThree(before, requests);
    if sync.Err? {
      return Arr([]);
    }
    return result.value;
  }

  /** `Tools`. */
  class Tool {
    const func: ToolFunction
    var valves: Valves
    var fieldsDescription: string

    /** The description the model sees names the current fields
      * description. */
    predicate Fresh()
      reads this, func
    {
      IsInfix(valves.fieldsDescription, func.doc)
    }

    /** `__init__`: the default valves, through the setter, and the fields
      * description they hold. */
    constructor(f: ToolFunction)
      modifies f
      ensures func == f && valves == DefaultValves && fieldsDescription == valves.fieldsDescription
      ensures f.doc == Docstring(valves.fieldsDescription, valves.styleRequest, valves.cardsExamples)
      ensures Fresh()
    {
      func := f;
      fieldsDescription := DefaultValves.fieldsDescription;
      new;
      SetValves(DefaultValves);
    }

    /** The `valves` setter: the docstring is rewritten from the new
      * valves, so it is current right after. */
    method SetValves(v: Valves)
      modifies this, func
      ensures valves == v && fieldsDescription == old(fieldsDescription)
      ensures func.doc == Docstring(v.fieldsDescription, v.styleRequest, v.cardsExamples)
      ensures Fresh()
    {
      valves := v;
      func.doc := Docstring(v.fieldsDescription, v.styleRequest, v.cardsExamples);
    }

    /** `create_flashcard`. */
    method CreateFlashcard(contents: Json, c: Connection, post: (string, Json) -> Result<Json>) returns (r: Result<Json>)
      modifies c
      ensures r == Created(valves, fieldsDescription, func.doc, contents, post).0
      ensures c.sent == old(c.sent) + Created(valves, fieldsDescription, func.doc, contents, post).1
    {
      if !Truthy(contents) || !contents.Obj? {
        return Ok(Null);
      }
      if !AllText(contents.fields) {
        return Ok(Null);
      }
      if !IsInfix(valves.fieldsDescription, func.doc) {
        var message := StaleHead + valves.fieldsDescription + "\'";
        if fieldsDescription != valves.fieldsDescription {
          message := message + (OldDescription + fieldsDescription + "\'");
        } else {
          assert message == message + "";
        }
        return Err(Raised(message));
      }
      var note := Note(valves, contents.fields);
      var calls := [("version", Null), ("addNote", Obj([("note", note)])), ("sync", Null)];
      assert calls == Calls(valves, contents.fields);
      var answer := Send(c, valves.host, valves.port, calls, post);
      return Ok(answer);
    }
  }
}
