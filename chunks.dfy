/** Classification of one upstream streaming line.
  *
  * LiteLLM streams a chat completion as server-sent events, one
  * `data: <json>` line per event, ending with `data: [DONE]` (the WHATWG
  * HTML Standard, section 9.2, "Server-sent events", restricted to single
  * `data:` lines). `json.loads` is the parameter `parse`; `None` stands for
  * a `JSONDecodeError`. Lines are already decoded text.
  */
module ChunkParsing {

  import opened Wrappers
  import opened Text
  import opened Json

  datatype Chunk =
    | Done                 // "[DONE]": the loop stops
    | Skip                 // non-JSON, or no content: the loop continues
    | Failed(error: Exc)   // an exception leaves the loop
    | Delta(content: Json) // a truthy `choices[0].delta.content`

  const DataPrefix: string := "data: "
  const DoneMarker: string := "[DONE]"

  /** The line without its `data: ` framing, when it has one. */
  function Payload(line: string): (p: string)
    ensures DataPrefix <= line ==> line == DataPrefix + p
    ensures !(DataPrefix <= line) ==> p == line
  {
    if DataPrefix <= line then line[|DataPrefix|..] else line
  }

  /** `"error" in parsed and "message" in parsed["error"] and
    * parsed["error"]["message"]`, with Python's short-circuit and the
    * exceptions that `in` and indexing raise on unexpected types. */
  function UpstreamError(parsed: Json): (r: Result<bool>)
    ensures parsed.Obj? && !HasKey(parsed.fields, "error") ==> r == Ok(false)
    ensures r == Ok(true) ==>
              parsed.Obj? && HasKey(parsed.fields, "error")
  {
    match Contains(parsed, "error")
    case Err(e) => Err(e)
    case Ok(false) => Ok(false)
    case Ok(true) =>
      match Index(parsed, "error")
      case Err(e) => Err(e)
      case Ok(err) =>
        match Contains(err, "message")
        case Err(e) => Err(e)
        case Ok(false) => Ok(false)
        case Ok(true) =>
          match Index(err, "message")
          case Err(e) => Err(e)
          case Ok(m) => Ok(Truthy(m))
  }

  /** `x[0]` on a JSON value. */
  function First(v: Json): (r: Result<Json>)
    ensures v.Arr? && v.items != [] ==> r == Ok(v.items[0])
    ensures v.Arr? && v.items == [] ==> r == Err(IndexError)
    ensures r.Ok? ==> v.Arr? || v.Str?
  {
    match v
    case Arr(items) => if items == [] then Err(IndexError) else Ok(items[0])
    case Str(s) => if s == "" then Err(IndexError) else Ok(Str([s[0]]))
    case Obj(_) => Err(KeyError("0"))
    case _ => Err(TypeError)
  }

  /** `parsed["choices"][0][part].get("content", "")`: the content of the
    * first choice's `part` ("delta" in a streamed chunk, "message" in a
    * whole response). */
  function ChoiceContent(parsed: Json, part: string): (r: Result<Json>)
    ensures !parsed.Obj? ==> r == Err(TypeError)
    ensures parsed.Obj? && !HasKey(parsed.fields, "choices") ==> r == Err(KeyError("choices"))
    ensures parsed.Obj? && Get(parsed.fields, "choices") == Some(Arr([])) ==> r == Err(IndexError)
  {
    match Index(parsed, "choices")
    case Err(e) => Err(e)
    case Ok(choices) =>
      match First(choices)
      case Err(e) => Err(e)
      case Ok(choice) =>
        match Index(choice, part)
        case Err(e) => Err(e)
        case Ok(delta) => GetAttr(delta, "content", Str(""))
  }

  function DeltaContent(parsed: Json): (r: Result<Json>)
  {
    ChoiceContent(parsed, "delta")
  }

  /** The standard LiteLLM object carrying `text` as the content of the
    * first choice's `part`. */
  function Completion(part: string, text: string): (j: Json)
  {
    Obj([("choices", Arr([Obj([(part, Obj([("content", Str(text))]))])]))])
  }

  function ChunkWith(text: string): (j: Json)
  {
    Completion("delta", text)
  }

  /** The content is read back from where a completion carries it. */
  lemma ChoiceContentOfCompletion(part: string, text: string)
    ensures ChoiceContent(Completion(part, text), part) == Ok(Str(text))
    ensures UpstreamError(Completion(part, text)) == Ok(false)
  {
    var inner := [("content", Str(text))];
    assert Get(inner, "content") == Some(Str(text));
  }

  /** A choice without `part` is a key error. */
  lemma ChoiceContentMissingPart(part: string, other: string, text: string)
    requires part != other
    ensures ChoiceContent(Completion(other, text), part) == Err(KeyError(part))
  {
    assert Get([(other, Obj([("content", Str(text))]))], part) == None;
  }

  /** The message of the exception that the plugins raise for an upstream
    * error or a malformed chunk; the repr of the offending value is elided. */
  const UpstreamErrorMsg: string := "Error: "
  const MalformedChunkMsg: string := "KeyError for parsed_line"

  /** What `parse_chunk` makes of a decoded JSON chunk. */
  function Classify(parsed: Json): (r: Chunk)
    ensures r.Delta? ==> Truthy(r.content) && UpstreamError(parsed) == Ok(false)
                         && DeltaContent(parsed) == Ok(r.content)
    ensures r == Skip ==> UpstreamError(parsed) == Ok(false) && DeltaContent(parsed).Ok?
                          && !Truthy(DeltaContent(parsed).value)
    ensures UpstreamError(parsed) == Ok(true) ==> r == Failed(Raised(UpstreamErrorMsg))
    ensures r != Done
  {
    match UpstreamError(parsed)
    case Err(e) => Failed(e)
    case Ok(true) => Failed(Raised(UpstreamErrorMsg))
    case Ok(false) =>
      match DeltaContent(parsed)
      case Err(KeyError(_)) => Failed(Raised(MalformedChunkMsg))
      case Err(e) => Failed(e)
      case Ok(c) => if Truthy(c) then Delta(c) else Skip
  }

  /** `parse_chunk`: (the text after an optional `data: ` is) `[DONE]`,
    * undecodable, an upstream error, a malformed chunk, an empty delta, or a
    * delta. A `KeyError` is re-raised as a generic exception; any other
    * exception escapes unchanged. */
  function ParseChunk(line: string, parse: string -> Option<Json>): (r: Chunk)
    ensures r == Done <==> Strip(Payload(line)) == DoneMarker
    ensures r != Done ==> r == (match parse(Payload(line)) case None => Skip case Some(x) => Classify(x))
  {
    var p := Payload(line);
    if Strip(p) == DoneMarker then Done
    else match parse(p)
      case None => Skip
      case Some(parsed) => Classify(parsed)
  }

  /** Round trip with the producer: a delta framed as a `data:` line by a
    * JSON encoder that `parse` inverts is read back as that delta. */
  lemma {:induction false} ParseFramedChunk(text: string, parse: string -> Option<Json>, dumps: Json -> string)
    requires text != ""
    requires parse(dumps(ChunkWith(text))) == Some(ChunkWith(text))
    requires dumps(ChunkWith(text)) != "" && dumps(ChunkWith(text))[0] == '{'
    ensures ParseChunk(DataPrefix + dumps(ChunkWith(text)), parse) == Delta(Str(text))
  {
    var d := dumps(ChunkWith(text));
    var line := DataPrefix + d;
    assert DataPrefix <= line;
    assert Payload(line) == d;
    assert Strip(d) != DoneMarker by {
      StripOfSpaceFreeStart(d);
    }
    ChoiceContentOfCompletion("delta", text);
  }

  /** A text that starts with `{` strips to something that does too. */
  lemma StripOfSpaceFreeStart(d: string)
    requires d != "" && d[0] == '{'
    ensures Strip(d) != "" && Strip(d)[0] == '{'
  {
  }

  /** The end-of-stream marker, framed or not, stops the stream. */
  lemma DoneMarkerStops(parse: string -> Option<Json>)
    ensures ParseChunk(DataPrefix + DoneMarker, parse) == Done
    ensures ParseChunk(DoneMarker, parse) == Done
  {
    assert DataPrefix <= DataPrefix + DoneMarker;
    assert Payload(DataPrefix + DoneMarker) == DoneMarker;
    assert Strip(DoneMarker) == DoneMarker by { StripOfSpaceFree(DoneMarker); }
    assert !(DataPrefix <= DoneMarker);
  }

  /** A chunk whose `error.message` is truthy raises, whatever else it carries. */
  lemma UpstreamErrorRaises(line: string, parse: string -> Option<Json>, parsed: Dict, err: Dict, message: Json)
    requires Strip(Payload(line)) != DoneMarker
    requires parse(Payload(line)) == Some(Obj(parsed))
    requires Get(parsed, "error") == Some(Obj(err)) && Get(err, "message") == Some(message)
    requires Truthy(message)
    ensures ParseChunk(line, parse) == Failed(Raised(UpstreamErrorMsg))
  {
    assert UpstreamError(Obj(parsed)) == Ok(true);
  }
}
