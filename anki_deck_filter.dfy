/** The Anki deck creator filter: on the way in it strips the info blocks
  * it added to earlier answers and puts the flashcard instruction in the
  * system message; on the way out it counts the cards of the last answer
  * and of the whole conversation and appends an info block to the answer.
  */
module AnkiDeckFilter {

  import opened Wrappers
  import opened Text
  import opened Json
  import opened Spans
  import opened AnkiCards

  // ----- the instruction template -----

  // Each fixed text is written as a join of short literals, at most 16
  // characters each, because the verifier handles these much more cheaply
  // than one long literal. The constant's value is the plain join.
  const HeadTitle :=
    "\n\n**IMPORTANT " + "INSTRUCTION FOR " + "FLASHCARD " + "CREATION:**\n\n"
  const HeadBrevity :=
    "When creating " + "flashcards, " + "keep your " + "response VERY "
    + "brief.\nJust " + "acknowledge " + "briefly and " + "provide the "
    + "cards in the " + "specified " + "format.\n\n"
  const HeadFormat :=
    "You MUST " + "include a JSON " + "array of " + "flashcard "
    + "dictionaries " + "enclosed in " + "<anki_cards> " + "tags.\n\n"
  const HeadFields :=
    "Each flashcard " + "should be a " + "dictionary with " + "the following "
    + "fields:\n"
  const Head := HeadTitle + HeadBrevity + HeadFormat + HeadFields
  const FieldsPlaceholder := "FIELDS_LIST_PLACEHOLDER"
  const Mid :=
    "\n\nFor cloze " + "deletions, use " + "the format " + "{{c1::text to "
    + "hide}}, " + "{{c2::another " + "hidden text}}, " + "etc.\n\nExample "
    + "format:\n" + "<anki_cards>\n"
  const ExamplePlaceholder := "EXAMPLE_PLACEHOLDER"
  const Tail :=
    "\n</anki_cards>\n\n" + "The user can " + "then use the " + "'Generate Anki "
    + "Deck' action " + "button to " + "create a " + "downloadable "
    + ".apkg file.\n"

  /** `FLASHCARD_INSTRUCTION_TEMPLATE`. */
  const Template := Head + FieldsPlaceholder + Mid + ExamplePlaceholder + Tail

  /** `generate_flashcard_instruction`: the field list, without trailing
    * whitespace, replaces its placeholder, and then the example replaces
    * its own. */
  function Instruction(fields: Dict, show: Json -> string, dump: Json -> string): string
  {
    Replace(Replace(Template, FieldsPlaceholder, RStrip(FieldLines(fields, show))), ExamplePlaceholder, ExampleJson(fields, dump))
  }

  // Each piece of the template lacks a character both placeholders hold.
  lemma HeadTitleChars() ensures '_' !in HeadTitle {}
  lemma HeadBrevityChars() ensures 'P' !in HeadBrevity {}
  lemma HeadFormatChars() ensures 'P' !in HeadFormat {}
  lemma HeadFieldsChars() ensures 'P' !in HeadFields {}
  lemma MidChars() ensures 'P' !in Mid {}
  lemma TailChars() ensures 'P' !in Tail {}

  /** A pattern with `c` at index `j`, and no new line, does not occur in
    * text joined from lines that each lack `c` or `d` and end with a new
    * line. */
  lemma LinesLackPattern(pat: string, u: nat, p: nat, a: string, b: string, c: string, d: string)
    requires u < |pat| && p < |pat| && '\n' !in pat
    requires pat[u] !in a && pat[p] !in b && pat[p] !in c && pat[p] !in d
    requires a != [] && a[|a| - 1] == '\n' && b != [] && b[|b| - 1] == '\n' && c != [] && c[|c| - 1] == '\n'
    ensures !IsInfix(pat, a + b + c + d)
  {
    AbsentCharNoInfix(pat, a, u);
    AbsentCharNoInfix(pat, b, p);
    AbsentCharNoInfix(pat, c, p);
    AbsentCharNoInfix(pat, d, p);
    NoInfixJoin(a, b, pat);
    assert (a + b)[|a + b| - 1] == '\n';
    NoInfixJoin(a + b, c, pat);
    assert (a + b + c)[|a + b + c| - 1] == '\n';
    NoInfixJoin(a + b + c, d, pat);
  }

  lemma HeadEnds()
    ensures HeadTitle[|HeadTitle| - 1] == '\n' && HeadBrevity[|HeadBrevity| - 1] == '\n'
    ensures HeadFormat[|HeadFormat| - 1] == '\n' && HeadFields[|HeadFields| - 1] == '\n'
  {
  }

  lemma MidEnds()
    ensures Mid[0] == '\n' && Mid[|Mid| - 1] == '\n' && Tail[0] == '\n'
  {
  }

  lemma PlaceholderChars()
    ensures FieldsPlaceholder[6] == '_' && FieldsPlaceholder[12] == 'P' && '\n' !in FieldsPlaceholder
    ensures ExamplePlaceholder[7] == '_' && ExamplePlaceholder[4] == 'P' && '\n' !in ExamplePlaceholder
    ensures FieldsPlaceholder[1] == 'I' && 'I' !in ExamplePlaceholder
  {
  }

  /** Neither placeholder occurs in the fixed parts of the template. */
  lemma PlaceholderAbsent(pat: string, u: nat, p: nat)
    requires (pat, u, p) == (FieldsPlaceholder, 6, 12) || (pat, u, p) == (ExamplePlaceholder, 7, 4)
    ensures !IsInfix(pat, Head) && !IsInfix(pat, Mid) && !IsInfix(pat, Tail)
  {
    PlaceholderChars();
    HeadTitleChars();
    HeadBrevityChars();
    HeadFormatChars();
    HeadFieldsChars();
    HeadEnds();
    LinesLackPattern(pat, u, p, HeadTitle, HeadBrevity, HeadFormat, HeadFields);
    MidChars();
    AbsentCharNoInfix(pat, Mid, p);
    TailChars();
    AbsentCharNoInfix(pat, Tail, p);
  }

  /** Two placeholders, each in its place once, replaced in turn. */
  lemma FillTemplate(h: string, p1: string, m: string, p2: string, t: string, list: string, example: string)
    requires p1 != "" && p2 != ""
    requires !IsInfix(p1, h) && !IsInfix(p1, m) && !IsInfix(p1, p2) && !IsInfix(p1, t)
    requires !IsInfix(p2, h) && !IsInfix(p2, m) && !IsInfix(p2, t) && !IsInfix(p2, list)
    requires h != [] && h[|h| - 1] !in p1 && h[|h| - 1] !in p2
    requires m != [] && m[0] !in p2 && m[|m| - 1] !in p1 && m[|m| - 1] !in p2 && t != [] && t[0] !in p1
    ensures Replace(Replace(h + p1 + m + p2 + t, p1, list), p2, example) == h + list + m + example + t
  {
    NoInfixJoin(m, p2, p1);
    NoInfixJoin(m + p2, t, p1);
    assert h + p1 + m + p2 + t == h + p1 + (m + p2 + t);
    ReplaceOnce(h, p1, m + p2 + t, list);
    ReplaceAbsent(m + p2 + t, p1, list);
    NoInfixJoin(h, list, p2);
    NoInfixJoin(h + list, m, p2);
    assert (h + list + m)[|h + list + m| - 1] == m[|m| - 1];
    assert h + list + (m + p2 + t) == (h + list + m) + p2 + t;
    ReplaceOnce(h + list + m, p2, t, example);
    ReplaceAbsent(t, p2, example);
  }

  /** The facts about the fixed parts that placing the two values needs. */
  lemma TemplateFacts()
    ensures FieldsPlaceholder != "" && ExamplePlaceholder != ""
    ensures !IsInfix(FieldsPlaceholder, Head) && !IsInfix(FieldsPlaceholder, Mid)
    ensures !IsInfix(FieldsPlaceholder, ExamplePlaceholder) && !IsInfix(FieldsPlaceholder, Tail)
    ensures !IsInfix(ExamplePlaceholder, Head) && !IsInfix(ExamplePlaceholder, Mid) && !IsInfix(ExamplePlaceholder, Tail)
    ensures Head != [] && Head[|Head| - 1] !in FieldsPlaceholder && Head[|Head| - 1] !in ExamplePlaceholder
    ensures Mid != [] && Mid[0] !in ExamplePlaceholder && Mid[|Mid| - 1] !in FieldsPlaceholder
    ensures Mid[|Mid| - 1] !in ExamplePlaceholder && Tail != [] && Tail[0] !in FieldsPlaceholder
  {
    PlaceholderAbsent(FieldsPlaceholder, 6, 12);
    PlaceholderAbsent(ExamplePlaceholder, 7, 4);
    PlaceholderChars();
    AbsentCharNoInfix(FieldsPlaceholder, ExamplePlaceholder, 1);
    HeadEnds();
    MidEnds();
    assert Head[|Head| - 1] == '\n';
  }

  /** Unless a field's text itself holds the example placeholder, the
    * instruction is the template with the field list and the example card
    * in their places, and nothing else changed. */
  lemma InstructionLayout(fields: Dict, show: Json -> string, dump: Json -> string)
    requires !IsInfix(ExamplePlaceholder, RStrip(FieldLines(fields, show)))
    ensures Instruction(fields, show, dump)
            == Head + RStrip(FieldLines(fields, show)) + Mid + ExampleJson(fields, dump) + Tail
  {
    TemplateFacts();
    FillTemplate(Head, FieldsPlaceholder, Mid, ExamplePlaceholder, Tail,
                 RStrip(FieldLines(fields, show)), ExampleJson(fields, dump));
  }

  /** The instruction, built with the two loops over the fields. */
  method GenerateInstruction(fields: Dict, show: Json -> string, dump: Json -> string) returns (r: string)
    ensures r == Instruction(fields, show, dump)
  {
    var list := BuildFieldLines(fields, show);
    var card := BuildExampleCard(Keys(fields));
    r := Replace(Replace(Template, FieldsPlaceholder, RStrip(list)), ExamplePlaceholder, dump(Arr([Obj(card)])));
  }

  // ----- the info block -----

  const InfoStart := "<!-- ANKI_INFO_" + "START -->"
  const InfoEnd := "<!-- ANKI_INFO_" + "END -->"

  /** The text of the info block around the two counts. */
  const InfoOpening :=
    "\n\n---\n\n\U{2705} " + "**Flashcards " + "formatted " + "successfully!**\n"
    + "\n\U{1F195} New cards in " + "this response: " + "**"
  const InfoTotal :=
    "**\n\U{1F4CA} Total " + "cards in " + "conversation: **"
  const InfoClosing :=
    "**\n\n\U{1F4A1} Click the " + "**'Generate " + "Anki Deck'** " + "action button "
    + "below to " + "download all " + "cards as a " + ".apkg file.\n\n"

  /** What the info block says between its markers. */
  function InfoBody(added: nat, total: nat): string
  {
    InfoOpening + NatText(added) + InfoTotal + NatText(total) + InfoClosing
  }

  /** `info_msg`, appended to the answer. */
  function Info(added: nat, total: nat): string
  {
    "\n\n" + InfoStart + InfoBody(added, total) + InfoEnd
  }

  /** `re.sub(info_pattern, "", text, flags=re.DOTALL)`. */
  function CleanText(s: string): string
  {
    RemoveSpans(s, InfoStart, InfoEnd, false, 0)
  }

  lemma InfoOpeningChars() ensures '<' !in InfoOpening {}
  lemma InfoTotalChars() ensures '<' !in InfoTotal {}
  lemma InfoClosingChars() ensures '<' !in InfoClosing {}

  /** No marker can start inside the text of the info block. */
  lemma InfoBodyNoMarker(added: nat, total: nat)
    ensures '<' !in InfoBody(added, total)
  {
    InfoOpeningChars();
    InfoTotalChars();
    InfoClosingChars();
    var a, t := NatText(added), NatText(total);
    assert forall i :: 0 <= i < |a| ==> a[i] != '<';
    assert forall i :: 0 <= i < |t| ==> t[i] != '<';
  }

  /** The facts about the markers that finding the info block needs. */
  lemma InfoMarkerChars()
    ensures InfoStart != "" && InfoEnd != [] && InfoEnd[0] == '<'
    ensures forall i :: 0 <= i < |"\n\n"| ==> "\n\n"[i] !in InfoStart
  {
    assert '\n' !in InfoStart;
  }

  lemma Regroup(c: string, d: string, e: string, f: string, g: string)
    ensures c + (d + e + f + g) == c + d + e + f + g == c + d + e + (f + g)
  {
  }

  /** The next inlet removes the info block the outlet appended, up to the
    * blank line before it, from any answer that had no start marker. */
  lemma {:induction false} InfoRemoved(content: string, added: nat, total: nat)
    requires !IsInfix(InfoStart, content)
    ensures CleanText(content + Info(added, total)) == content + "\n\n"
  {
    var body := InfoBody(added, total);
    Regroup(content, "\n\n", InfoStart, body, InfoEnd);
    InfoMarkerChars();
    InfoBodyNoMarker(added, total);
    AppendedSpanRemoved(content, "\n\n", InfoStart, body, InfoEnd);
  }

  // ----- the inlet -----

  /** The cleanup of one item of a list content: the text of a text item is
    * cleaned, and a text that is not a string makes `re.sub` raise. */
  function CleanItem(item: Json): (r: (Json, Option<Exc>))
    ensures !(item.Obj? && Get(item.fields, "type") == Some(Str("text"))) ==> r == (item, None)
    ensures item.Obj? && Get(item.fields, "type") == Some(Str("text")) && !GetOr(item.fields, "text", Str("")).Str?
            ==> r == (item, Some(TypeError))
    ensures item.Obj? && GetOr(item.fields, "text", Str("")).Str? ==> r.1.None? && r.0.Obj?
    ensures item.Obj? && GetOr(item.fields, "text", Str("")).Str? ==> forall k :: k != "text" ==> Get(r.0.fields, k) == Get(item.fields, k)
    ensures item.Obj? && Get(item.fields, "type") == Some(Str("text")) && GetOr(item.fields, "text", Str("")).Str?
            ==> GetOr(r.0.fields, "text", Str("")) == Str(CleanText(GetOr(item.fields, "text", Str("")).s))
  {
    if item.Obj? && Get(item.fields, "type") == Some(Str("text")) then
      var text := GetOr(item.fields, "text", Str(""));
      if !text.Str? then (item, Some(TypeError))
      else
        var cleaned := CleanText(text.s);
        if cleaned != text.s then (Obj(Set(item.fields, "text", Str(cleaned))), None) else (item, None)
    else (item, None)
  }

  /** The cleanup of one message: string content is cleaned, list content
    * item by item in place; `message.get` raises on a value that is not a
    * dict. */
  function CleanMessage(m: Json): (r: (Json, Option<Exc>))
    ensures !m.Obj? <==> r.1 == Some(AttributeError)
    ensures !m.Obj? ==> r.0 == m
    ensures m.Obj? ==> r.0.Obj? && forall k :: k != "content" ==> Get(r.0.fields, k) == Get(m.fields, k)
    ensures m.Obj? && GetOr(m.fields, "content", Str("")).Str? ==>
              r.1.None? && GetOr(r.0.fields, "content", Str("")) == Str(CleanText(GetOr(m.fields, "content", Str("")).s))
    ensures m.Obj? && GetOr(m.fields, "content", Str("")).Arr? ==>
              var done := MapUntil(GetOr(m.fields, "content", Str("")).items, CleanItem);
              Get(r.0.fields, "content") == Some(Arr(done.0)) && r.1 == done.1
    ensures m.Obj? && !GetOr(m.fields, "content", Str("")).Str? && !GetOr(m.fields, "content", Str("")).Arr? ==> r == (m, None)
  {
    if !m.Obj? then (m, Some(AttributeError))
    else
      var content := GetOr(m.fields, "content", Str(""));
      if content.Str? then
        var cleaned := CleanText(content.s);
        if cleaned != content.s then (Obj(Set(m.fields, "content", Str(cleaned))), None) else (m, None)
      else if content.Arr? then
        var done := MapUntil(content.items, CleanItem);
        assert done.1.Some? ==> done.1.value == TypeError by {
          if done.1.Some? { ItemErrors(content.items); }
        }
        (Obj(Set(m.fields, "content", Arr(done.0))), done.1)
      else (m, None)
  }

  /** Items only ever raise a TypeError. */
  lemma {:induction false} ItemErrors(items: seq<Json>)
    ensures MapUntil(items, CleanItem).1.Some? ==> MapUntil(items, CleanItem).1 == Some(TypeError)
  {
    if items != [] {
      ItemErrors(items[1..]);
    }
  }

  /** The separator put before the instruction in an existing system
    * message. */
  const Separator := "\n\n---"

  /** `inlet`: with the filter enabled, and "messages" a list, every message
    * is cleaned in place until one raises; the instruction then goes to the
    * first system message. A `fields_description` that does not parse, or
    * is not a dict, leaves the messages cleaned only. The check of the
    * user's valve runs outside the `try` and may raise. */
  function Prepared(body: Dict, user: Json, description: string, parse: string -> Option<Json>,
                    show: Json -> string, dump: Json -> string): (r: Result<Dict>)
    ensures r.Err? <==> Enabled(user).Err?
    ensures r.Err? ==> r.error == Enabled(user).error
    ensures Enabled(user) == Ok(false) ==> r == Ok(body)
    ensures r.Ok? && !GetOr(body, "messages", Arr([])).Arr? ==> r.value == body
    ensures r.Ok? ==> forall k :: k != "messages" ==> Get(r.value, k) == Get(body, k)
  {
    match Enabled(user)
    case Err(e) => Err(e)
    case Ok(false) => Ok(body)
    case Ok(true) =>
      var messages := GetOr(body, "messages", Arr([]));
      if !messages.Arr? then Ok(body)
      else
        var cleaned := MapUntil(messages.items, CleanMessage);
        var body1 := Set(body, "messages", Arr(cleaned.0));
        if cleaned.1.Some? then Ok(body1)
        else Ok(InstructedBy(body1, cleaned.0, parse(description), show, dump))
  }

  /** The body once the parsed field description is applied: unchanged when
    * the description did not parse to a dict. */
  function InstructedBy(body: Dict, ms: seq<Json>, fd: Option<Json>, show: Json -> string, dump: Json -> string): (r: Dict)
    ensures !(fd.Some? && fd.value.Obj?) ==> r == body
    ensures forall k :: k != "messages" ==> Get(r, k) == Get(body, k)
  {
    match fd
    case None => body
    case Some(v) => if !v.Obj? then body else Instructed(body, ms, Instruction(v.fields, show, dump))
  }

  /** The body with the instruction injected into its cleaned messages, or
    * as it was when a message is not a dict. */
  function Instructed(body: Dict, ms: seq<Json>, instruction: string): (r: Dict)
    ensures (forall k :: 0 <= k < |ms| ==> ms[k].Obj?) ==>
              r == Set(body, "messages", Arr(Inject(ms, Separator + instruction, instruction).value))
    ensures r == body || Inject(ms, Separator + instruction, instruction).Ok?
  {
    match Inject(ms, Separator + instruction, instruction)
    case Err(_) => body
    case Ok(injected) => Set(body, "messages", Arr(injected))
  }

  /** When every message is a dict and the field description parses to a
    * dict, the messages are the cleaned ones with the instruction in the
    * first system message, or in a new one put first. */
  lemma PreparedInjects(body: Dict, user: Json, description: string, parse: string -> Option<Json>,
                        show: Json -> string, dump: Json -> string, ms: seq<Json>, fd: Dict)
    requires Enabled(user) == Ok(true) && GetOr(body, "messages", Arr([])) == Arr(ms)
    requires MapUntil(ms, CleanMessage).1.None?
    requires parse(description) == Some(Obj(fd))
    ensures Inject(MapUntil(ms, CleanMessage).0, Separator + Instruction(fd, show, dump), Instruction(fd, show, dump)).Ok?
    ensures Prepared(body, user, description, parse, show, dump)
            == Ok(Set(body, "messages", Arr(Inject(MapUntil(ms, CleanMessage).0, Separator + Instruction(fd, show, dump),
                                                   Instruction(fd, show, dump)).value)))
  {
    var cleaned := MapUntil(ms, CleanMessage).0;
    CleanedAreDicts(ms);
    PreparedCleaned(body, user, description, parse, show, dump, ms);
    var instruction := Instruction(fd, show, dump);
    InstructedInjects(Set(body, "messages", Arr(cleaned)), cleaned, fd, show, dump);
    SetSet(body, "messages", Arr(cleaned), Arr(Inject(cleaned, Separator + instruction, instruction).value));
  }

  /** Without an exception in the cleanup, the instruction step decides. */
  lemma PreparedCleaned(body: Dict, user: Json, description: string, parse: string -> Option<Json>,
                        show: Json -> string, dump: Json -> string, ms: seq<Json>)
    requires Enabled(user) == Ok(true) && GetOr(body, "messages", Arr([])) == Arr(ms)
    requires MapUntil(ms, CleanMessage).1.None?
    ensures Prepared(body, user, description, parse, show, dump)
            == Ok(InstructedBy(Set(body, "messages", Arr(MapUntil(ms, CleanMessage).0)), MapUntil(ms, CleanMessage).0,
                               parse(description), show, dump))
  {
  }

  /** Messages cleaned without an exception are all dicts. */
  lemma {:induction false} CleanedAreDicts(ms: seq<Json>)
    requires MapUntil(ms, CleanMessage).1.None?
    ensures forall i :: 0 <= i < |ms| ==> MapUntil(ms, CleanMessage).0[i].Obj?
  {
    if ms != [] {
      var y := CleanMessage(ms[0]);
      CleanedIsDict(ms[0]);
      assert MapUntil(ms, CleanMessage) == ([y.0] + MapUntil(ms[1..], CleanMessage).0, MapUntil(ms[1..], CleanMessage).1);
      CleanedAreDicts(ms[1..]);
    }
  }

  lemma CleanedIsDict(m: Json)
    requires CleanMessage(m).1.None?
    ensures CleanMessage(m).0.Obj?
  {
  }

  /** A description that parses to a dict injects the instruction into
    * messages that are all dicts. */
  lemma InstructedInjects(body: Dict, ms: seq<Json>, fd: Dict, show: Json -> string, dump: Json -> string)
    requires forall i :: 0 <= i < |ms| ==> ms[i].Obj?
    ensures Inject(ms, Separator + Instruction(fd, show, dump), Instruction(fd, show, dump)).Ok?
    ensures InstructedBy(body, ms, Some(Obj(fd)), show, dump)
            == Set(body, "messages", Arr(Inject(ms, Separator + Instruction(fd, show, dump), Instruction(fd, show, dump)).value))
  {
    InstructedAtMessages(body, ms, Instruction(fd, show, dump));
  }

  lemma InstructedAtMessages(body: Dict, ms: seq<Json>, instruction: string)
    requires forall i :: 0 <= i < |ms| ==> ms[i].Obj?
    ensures Inject(ms, Separator + instruction, instruction).Ok?
    ensures Instructed(body, ms, instruction)
            == Set(body, "messages", Arr(Inject(ms, Separator + instruction, instruction).value))
  {
  }

  /** A message the outlet annotated comes back, on the next inlet, without
    * its info block. */
  lemma AnnotationRemoved(fields: Dict, content: string, added: nat, total: nat)
    requires !IsInfix(InfoStart, content)
    ensures var m := Obj(Set(fields, "content", Str(content + Info(added, total))));
            CleanMessage(m).1.None? && GetOr(CleanMessage(m).0.fields, "content", Str("")) == Str(content + "\n\n")
  {
    InfoRemoved(content, added, total);
  }

  /** The cleanup of one message, with the loop over the items of a list
    * content. */
  method CleanOne(m: Json) returns (r: Json, error: Option<Exc>)
    ensures (r, error) == CleanMessage(m)
  {
    if !m.Obj? {
      return m, Some(AttributeError);
    }
    var content := GetOr(m.fields, "content", Str(""));
    if content.Str? {
      var cleaned := CleanText(content.s);
      if cleaned != content.s {
        return Obj(Set(m.fields, "content", Str(cleaned))), None;
      }
      return m, None;
    }
    if content.Arr? {
      var items, e := UpdateUntil(content.items, CleanItem);
      return Obj(Set(m.fields, "content", Arr(items))), e;
    }
    return m, None;
  }

  /** The cleanup loop over the messages, stopping at the first exception. */
  method CleanMessages(ms: seq<Json>) returns (r: seq<Json>, error: Option<Exc>)
    ensures (r, error) == MapUntil(ms, CleanMessage)
  {
    r := ms;
    var k := 0;
    while k < |ms|
      invariant 0 <= k <= |ms| && |r| == |ms|
      invariant forall i :: 0 <= i < k ==> CleanMessage(ms[i]).1.None? && r[i] == CleanMessage(ms[i]).0
      invariant r[k..] == ms[k..]
    {
      var y, e := CleanOne(ms[k]);
      r := r[k := y];
      if e.Some? {
        MapUntilStops(ms, CleanMessage, k);
        assert r[k + 1..] == ms[k + 1..];
        assert r == MapUntil(ms, CleanMessage).0;
        return r, e;
      }
      assert r[k + 1..] == ms[k + 1..];
      k := k + 1;
    }
    assert r == MapUntil(ms, CleanMessage).0;
    return r, None;
  }

  /** `inlet`, step by step. */
  method Inlet(body: Dict, user: Json, description: string, parse: string -> Option<Json>,
               show: Json -> string, dump: Json -> string) returns (r: Result<Dict>)
    ensures r == Prepared(body, user, description, parse, show, dump)
  {
    var enabled := Enabled(user);
    if enabled.Err? {
      return Err(enabled.error);
    }
    if !enabled.value {
      return Ok(body);
    }
    var messages := GetOr(body, "messages", Arr([]));
    if !messages.Arr? {
      return Ok(body);
    }
    var cleaned, error := CleanMessages(messages.items);
    var body1 := Set(body, "messages", Arr(cleaned));
    if error.Some? {
      return Ok(body1);
    }
    var instructed := Instruct(body1, cleaned, parse(description), show, dump);
    return Ok(instructed);
  }

  /** The instruction generated from the field description and injected. */
  method Instruct(body: Dict, ms: seq<Json>, fd: Option<Json>, show: Json -> string, dump: Json -> string)
    returns (r: Dict)
    ensures r == InstructedBy(body, ms, fd, show, dump)
  {
    if fd.None? || !fd.value.Obj? {
      return body;
    }
    var instruction := GenerateInstruction(fd.value.fields, show, dump);
    var injected := InjectInstruction(ms, Separator + instruction, instruction);
    if injected.Err? {
      return body;
    }
    assert Instructed(body, ms, instruction) == Set(body, "messages", Arr(injected.value));
    return Set(body, "messages", Arr(injected.value));
  }

  // ----- the outlet -----

  const CardsOpen := "<anki_cards>"
  const CardsClose := "</anki_cards>"

  /** What the outlet reports about the last assistant message: where it
    * is, its text, the cards of its first block, and the cards of the
    * whole conversation. */
  datatype Count = Count(at: nat, content: string, added: nat, total: nat)

  /** The count, or nothing when the outlet leaves the body alone: no
    * assistant message, content that is not a string, no card block, a
    * first block that does not parse, or a message that raises while the
    * cards are counted. */
  function Counted(ms: seq<Json>, parse: string -> Option<Json>): (r: Option<Count>)
    ensures r.Some? ==> r.value.at < |ms| && ms[r.value.at].Obj?
    ensures r.Some? ==> LastWithRole(ms, |ms|, "assistant") == Ok(Some(r.value.at))
    ensures r.Some? ==> GetOr(ms[r.value.at].fields, "content", Str("")) == Str(r.value.content)
    ensures r.Some? ==> Blocks(r.value.content, CardsOpen, CardsClose) != []
    ensures r.Some? ==> Collected(ms, CardsOpen, CardsClose, parse).Ok?
    ensures r.Some? ==> r.value.total == |Collected(ms, CardsOpen, CardsClose, parse).value|
  {
    match LastWithRole(ms, |ms|, "assistant")
    case Err(_) => None
    case Ok(None) => None
    case Ok(Some(k)) =>
      var content := GetOr(ms[k].fields, "content", Str(""));
      if !content.Str? then None
      else
        var blocks := Blocks(content.s, CardsOpen, CardsClose);
        if blocks == [] then None
        else match parse(blocks[0])
          case None => None
          case Some(v) =>
            match Collected(ms, CardsOpen, CardsClose, parse)
            case Err(_) => None
            case Ok(all) => Some(Count(k, content.s, |CardsOf(v)|, |all|))
  }

  /** The cards of the answer are among those of the conversation. */
  lemma CountedAddedAtMostTotal(ms: seq<Json>, parse: string -> Option<Json>)
    requires Counted(ms, parse).Some?
    ensures Counted(ms, parse).value.added <= Counted(ms, parse).value.total
  {
    var c := Counted(ms, parse).value;
    var blocks := Blocks(c.content, CardsOpen, CardsClose);
    var v := parse(blocks[0]).value;
    assert RoleIs(ms[c.at], "assistant") == Ok(true);
    CollectedCoversFirstBlock(ms, c.at, c.content, CardsOpen, CardsClose, parse, v);
  }

  /** An answer without the opening tag, in any case, is not annotated. */
  lemma NoTagNoCount(ms: seq<Json>, parse: string -> Option<Json>, k: nat, content: string)
    requires LastWithRole(ms, |ms|, "assistant") == Ok(Some(k))
    requires GetOr(ms[k].fields, "content", Str("")) == Str(content)
    requires !IsInfix(Key(CardsOpen, true), Key(content, true))
    ensures Counted(ms, parse).None?
  {
    NoOpenNoBlocks(content, CardsOpen, CardsClose);
  }

  /** The message with the info block appended to its content. */
  function Annotate(m: Json, c: Count): Json
    requires m.Obj?
  {
    Obj(Set(m.fields, "content", Str(c.content + Info(c.added, c.total))))
  }

  /** `outlet`: the last assistant message gets the info block; in every
    * other case the body is returned as it was. */
  function Annotated(body: Dict, user: Json, parse: string -> Option<Json>): (r: Result<Dict>)
    ensures r.Err? <==> Enabled(user).Err?
    ensures r.Err? ==> r.error == Enabled(user).error
    ensures Enabled(user) == Ok(false) ==> r == Ok(body)
    ensures r.Ok? ==> forall k :: k != "messages" ==> Get(r.value, k) == Get(body, k)
    ensures r.Ok? && r.value != body ==>
              GetOr(body, "messages", Arr([])).Arr? && Counted(GetOr(body, "messages", Arr([])).items, parse).Some?
              && var ms := GetOr(body, "messages", Arr([])).items;
                 var c := Counted(ms, parse).value;
                 Get(r.value, "messages") == Some(Arr(ms[c.at := Annotate(ms[c.at], c)]))
  {
    match Enabled(user)
    case Err(e) => Err(e)
    case Ok(false) => Ok(body)
    case Ok(true) =>
      var messages := GetOr(body, "messages", Arr([]));
      if !messages.Arr? || messages.items == [] then Ok(body)
      else match Counted(messages.items, parse)
        case None => Ok(body)
        case Some(c) =>
          var ms := messages.items;
          Ok(Set(body, "messages", Arr(ms[c.at := Annotate(ms[c.at], c)])))
  }

  /** The annotated answer loses its info block again on the next inlet,
    * and the number of new cards it reports never exceeds the total. */
  lemma AnnotatedRoundTrip(ms: seq<Json>, parse: string -> Option<Json>)
    requires Counted(ms, parse).Some? && !IsInfix(InfoStart, Counted(ms, parse).value.content)
    ensures var c := Counted(ms, parse).value;
            c.added <= c.total
            && CleanMessage(Annotate(ms[c.at], c)).1.None?
            && GetOr(CleanMessage(Annotate(ms[c.at], c)).0.fields, "content", Str("")) == Str(c.content + "\n\n")
  {
    var c := Counted(ms, parse).value;
    CountedAddedAtMostTotal(ms, parse);
    AnnotationRemoved(ms[c.at].fields, c.content, c.added, c.total);
  }

  /** The cards of the blocks of one message, counted. */
  method CountBlocks(blocks: seq<string>, parse: string -> Option<Json>) returns (n: nat)
    ensures n == |BlocksCards(blocks, parse)|
  {
    n := 0;
    for j := 0 to |blocks|
      invariant n == |BlocksCards(blocks[..j], parse)|
    {
      assert blocks[..j + 1][..j] == blocks[..j];
      match parse(blocks[j])
      case None =>
      case Some(cards) =>
        if cards.Arr? {
          n := n + |cards.items|;
        } else {
          n := n + 1;
        }
    }
    assert blocks[..|blocks|] == blocks;
  }

  /** The cards one message adds to the total. */
  method CountMessage(m: Json, parse: string -> Option<Json>) returns (r: Result<nat>)
    ensures r.Ok? <==> MessageCards(m, CardsOpen, CardsClose, parse).Ok?
    ensures r.Err? ==> r.error == MessageCards(m, CardsOpen, CardsClose, parse).error
    ensures r.Ok? ==> r.value == |MessageCards(m, CardsOpen, CardsClose, parse).value|
  {
    var assistant := RoleIs(m, "assistant");
    if assistant.Err? {
      return Err(assistant.error);
    }
    if !assistant.value {
      return Ok(0);
    }
    var content := GetOr(m.fields, "content", Str(""));
    if !content.Str? {
      return Err(TypeError);
    }
    var n := CountBlocks(Blocks(content.s, CardsOpen, CardsClose), parse);
    return Ok(n);
  }

  /** The loop that counts the cards of the conversation. */
  method CountCards(ms: seq<Json>, parse: string -> Option<Json>) returns (r: Result<nat>)
    ensures r.Ok? <==> Collected(ms, CardsOpen, CardsClose, parse).Ok?
    ensures r.Ok? ==> r.value == |Collected(ms, CardsOpen, CardsClose, parse).value|
  {
    var read := Reader(CardsOpen, CardsClose, parse);
    var total := 0;
    for i := 0 to |ms|
      invariant Gathered(ms[..i], read).Ok? && total == |Gathered(ms[..i], read).value|
    {
      assert ms[..i + 1][..i] == ms[..i];
      var more := CountMessage(ms[i], parse);
      assert read(ms[i]) == MessageCards(ms[i], CardsOpen, CardsClose, parse);
      if more.Err? {
        GatheredPrefixErr(ms, i + 1, read);
        return Err(more.error);
      }
      total := total + more.value;
    }
    assert ms[..|ms|] == ms;
    return Ok(total);
  }

  /** The search for the last answer and its cards, step by step. */
  method CountLast(ms: seq<Json>, parse: string -> Option<Json>) returns (r: Option<Count>)
    ensures r == Counted(ms, parse)
  {
    var last := FindLastWithRole(ms, "assistant");
    if last.Err? || last.value.None? {
      return None;
    }
    var k := last.value.value;
    var content := GetOr(ms[k].fields, "content", Str(""));
    if !content.Str? {
      return None;
    }
    var blocks := Blocks(content.s, CardsOpen, CardsClose);
    if blocks == [] {
      return None;
    }
    var first := parse(blocks[0]);
    if first.None? {
      return None;
    }
    var total := CountCards(ms, parse);
    if total.Err? {
      return None;
    }
    return Some(Count(k, content.s, |CardsOf(first.value)|, total.value));
  }

  /** `outlet`, step by step. */
  method Outlet(body: Dict, user: Json, parse: string -> Option<Json>) returns (r: Result<Dict>)
    ensures r == Annotated(body, user, parse)
  {
    var enabled := Enabled(user);
    if enabled.Err? {
      return Err(enabled.error);
    }
    if !enabled.value {
      return Ok(body);
    }
    var messages := GetOr(body, "messages", Arr([]));
    if !messages.Arr? || messages.items == [] {
      return Ok(body);
    }
    var ms := messages.items;
    var c := CountLast(ms, parse);
    if c.None? {
      return Ok(body);
    }
    var k := c.value.at;
    return Ok(Set(body, "messages", Arr(ms[k := Annotate(ms[k], c.value)])));
  }
}
