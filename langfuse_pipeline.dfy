/** The "Langfuse Litellm Filter" pipeline
  * (pipelines/langfuse_litellm_filter_pipeline.py).
  *
  * Its inlet makes sure the request metadata carries a chat id (a fresh
  * UUID when it has none), remembers the model of each chat, opens one
  * Langfuse trace per chat id and records a generation or an event on it;
  * its outlet records the answer, with the token usage found on the last
  * assistant message. The Langfuse client is modelled by what the pipeline
  * hands it: the traces it creates (in order), their tags and output, and
  * the observations logged on them. The UUID, the LiteLLM model lookup,
  * `str()` and `get_last_assistant_message` are parameters.
  */
module LangfusePipeline {

  import opened Wrappers
  import opened Text
  import opened Json

  // ---------------------------------------------------------------------
  // Pure helpers
  // ---------------------------------------------------------------------

  predicate IsAssistant(m: Json)
  {
    Index(m, "role") == Ok(Str("assistant"))
  }

  /** `message["role"]` for each message. */
  function Roles(ms: seq<Json>): (roles: seq<Result<Json>>)
    ensures |roles| == |ms|
    ensures forall i :: 0 <= i < |ms| ==> roles[i] == Index(ms[i], "role")
  {
    seq(|ms|, i requires 0 <= i < |ms| => Index(ms[i], "role"))
  }

  /** The scan over the roles, from the end: the position of
    * the last "assistant" role, or the error of the first role lookup that
    * fails before one is found. */
  function LastAt(roles: seq<Result<Json>>): (r: Result<Option<nat>>)
    ensures (forall i :: 0 <= i < |roles| ==> roles[i].Ok?) ==> r.Ok?
    ensures r.Ok? && r.value.Some? ==> r.value.value < |roles|
    ensures r.Err? ==> exists i :: 0 <= i < |roles| && roles[i] == Err(r.error)
    decreases |roles|
  {
    if roles == [] then Ok(None)
    else if roles[|roles| - 1].Err? then Err(roles[|roles| - 1].error)
    else if roles[|roles| - 1] == Ok(Str("assistant")) then Ok(Some(|roles| - 1))
    else
      var r := LastAt(roles[..|roles| - 1]);
      assert forall i :: 0 <= i < |roles| - 1 ==> roles[..|roles| - 1][i] == roles[i];
      r
  }

  /** The position found holds an "assistant" role and none follows it;
    * without a position there is no "assistant" role at all. */
  lemma {:induction false} LastAtIs(roles: seq<Result<Json>>)
    ensures LastAt(roles) == Ok(None) ==> forall i :: 0 <= i < |roles| ==> roles[i] != Ok(Str("assistant"))
    ensures LastAt(roles).Ok? && LastAt(roles).value.Some? ==>
              var i := LastAt(roles).value.value;
              roles[i] == Ok(Str("assistant")) && forall j :: i < j < |roles| ==> roles[j] != Ok(Str("assistant"))
    decreases |roles|
  {
    if roles != [] && roles[|roles| - 1].Ok? && roles[|roles| - 1] != Ok(Str("assistant")) {
      var front := roles[..|roles| - 1];
      LastAtIs(front);
      assert LastAt(roles) == LastAt(front);
      assert forall j :: 0 <= j < |front| ==> roles[j] == front[j];
    }
  }

  /** The last assistant message, or `{}` when there is none. */
  function LastAssistant(ms: seq<Json>): (r: Result<Json>)
    ensures (forall i :: 0 <= i < |ms| ==> Index(ms[i], "role").Ok?) ==> r.Ok?
    ensures r.Err? ==> r.error == TypeError || r.error == KeyError("role")
    ensures r.Ok? && r.value == Obj([]) ==> forall i :: 0 <= i < |ms| ==> !IsAssistant(ms[i])
    ensures r.Ok? && r.value != Obj([]) ==>
              exists i :: 0 <= i < |ms| && ms[i] == r.value && IsAssistant(ms[i])
                          && forall j :: i < j < |ms| ==> !IsAssistant(ms[j])
    ensures r.Ok? ==> r.value.Obj?
  {
    LastAtIs(Roles(ms));
    match LastAt(Roles(ms))
    case Err(e) => Err(e)
    case Ok(None) => Ok(Obj([]))
    case Ok(Some(i)) => Ok(ms[i])
  }

  /** No tags unless the `insert_tags` valve is on; then
    * "open-webui", followed by the task name unless it is one of the two
    * default tasks. */
  function BuildTags(insertTags: bool, task: Json): (r: seq<Json>)
    ensures !insertTags <==> r == []
    ensures insertTags ==> r[0] == Str("open-webui") && |r| <= 2
    ensures insertTags ==> (|r| == 2 <==> task != Str("user_response") && task != Str("llm_response"))
    ensures |r| == 2 ==> r[1] == task
  {
    if !insertTags then []
    else if task != Str("user_response") && task != Str("llm_response") then [Str("open-webui"), task]
    else [Str("open-webui")]
  }

  /** The model identifier kinds the `modelkey_identifier_type` valve
    * accepts. */
  const ValidTypes: seq<string> := ["name", "id", "litellm"]

  /** An identifier kind outside the three known ones is
    * refused when the valves are updated. */
  function ValvesUpdated(identifierType: string): (r: Option<Exc>)
    ensures r.None? <==> identifierType == "name" || identifierType == "id" || identifierType == "litellm"
    ensures r.Some? ==> r.value.ValueError?
  {
    if identifierType in ValidTypes then None
    else Some(ValueError("Invalid modelkey_identifier_type: '" + identifierType + "'. Must be one of: " + Join(", ", ValidTypes)))
  }

  /** The model reported to Langfuse. "name"
    * gives the stored display name, "id" the model id, "litellm" the
    * LiteLLM lookup of the id, or the id when the lookup fails. */
  function ModelValue(identifierType: string, id: Json, name: Json, lookup: Json -> Option<Json>): (r: Result<Json>)
    ensures r.Ok? <==> ValvesUpdated(identifierType).None?
    ensures identifierType == "name" ==> r == Ok(name)
    ensures identifierType == "id" ==> r == Ok(id)
    ensures identifierType == "litellm" ==> r == Ok(if lookup(id).Some? then lookup(id).value else id)
    ensures r.Err? ==> r.error.ValueError?
  {
    if identifierType == "name" then Ok(name)
    else if identifierType == "litellm" then Ok(match lookup(id) case Some(m) => m case None => id)
    else if identifierType == "id" then Ok(id)
    else Err(ValueError("Invalid modelkey_identifier_type: '" + identifierType + "'"))
  }

  /** Python's `a or b`. */
  function Or(a: Json, b: Json): (r: Json)
    ensures Truthy(a) ==> r == a
    ensures !Truthy(a) ==> r == b
  {
    if Truthy(a) then a else b
  }

  /** Token counts reported to Langfuse (unit "TOKENS"). */
  datatype Usage = Usage(input: Json, output: Json)

  /** One of two token counts: the first key when its value is truthy,
    * else the second key, else `None`. */
  function Count(info: Dict, first: string, second: string): (r: Json)
    ensures Truthy(GetOr(info, first, Null)) ==> r == Get(info, first).value
    ensures !Truthy(GetOr(info, first, Null)) ==> r == GetOr(info, second, Null)
  {
    Or(GetOr(info, first, Null), GetOr(info, second, Null))
  }

  /** The usage of the last assistant message, read from its
    * "usage" dict; present only when both counts are. */
  function UsageOf(message: Dict): (r: Option<Usage>)
    ensures message == [] ==> r.None?
    ensures r.Some? ==> r.value.input != Null && r.value.output != Null
    ensures var info := GetOr(message, "usage", Obj([]));
            r.Some? <==> message != [] && info.Obj?
                         && Count(info.fields, "prompt_eval_count", "prompt_tokens") != Null
                         && Count(info.fields, "eval_count", "completion_tokens") != Null
    ensures r.Some? ==> r.value == Usage(Count(GetOr(message, "usage", Obj([])).fields, "prompt_eval_count", "prompt_tokens"),
                                         Count(GetOr(message, "usage", Obj([])).fields, "eval_count", "completion_tokens"))
  {
    if message == [] then None
    else
      var info := GetOr(message, "usage", Obj([]));
      if !info.Obj? then None
      else
        var input := Count(info.fields, "prompt_eval_count", "prompt_tokens");
        var output := Count(info.fields, "eval_count", "completion_tokens");
        if input != Null && output != Null then Some(Usage(input, output)) else None
  }

  /** The usage dict stored in the metadata. */
  function UsageJson(u: Usage): Json
  {
    Obj([("input", u.input), ("output", u.output), ("unit", Str("TOKENS"))])
  }

  // ---------------------------------------------------------------------
  // What the pipeline hands the Langfuse client
  // ---------------------------------------------------------------------

  /** An observation logged on a trace: a generation (with its model and,
    * at the outlet, its usage) or an event of a task. */
  datatype Observation =
    | Generation(model: Json, usage: Option<Usage>, tags: seq<Json>)
    | Event(task: Json, tags: seq<Json>)

  /** A trace as the inlet opens it and later calls update it. */
  datatype Trace = Trace(name: string, userId: Json, sessionId: Json, tags: seq<Json>,
                         output: Option<Json>, observations: seq<Observation>)

  /** An entry of `self.model_names`: the model id and, once seen, its name. */
  datatype ModelInfo = ModelInfo(id: Json, name: Option<Json>)

  /** The valves the inlet and outlet read, and whether `self.langfuse`
    * holds a client. */
  datatype Config = Config(insertTags: bool, identifierType: string, hasClient: bool)

  /** `self.model_names`, `self.chat_traces`, and the chat ids whose trace
    * was opened, in order. */
  datatype State = State(names: map<Json, ModelInfo>, traces: map<Json, Trace>, created: seq<Json>)

  /** At most one trace per chat id: each opened trace is registered, once;
    * a chat with a trace has its model stored. */
  predicate Registry(s: State)
  {
    && Distinct(s.created)
    && s.traces.Keys == (set i | 0 <= i < |s.created| :: s.created[i])
    && s.traces.Keys <= s.names.Keys
  }

  /** The metadata dict of the body, `{}` when absent or not a dict. */
  function MetaIn(body: Dict): Dict
  {
    var m := GetOr(body, "metadata", Obj([]));
    if m.Obj? then m.fields else []
  }

  /** The metadata (`{}` when absent) with its chat id, a
    * fresh UUID when it has none; `.get` raises on metadata that is not a
    * dict. */
  function Opened(body: Dict, uuid: string): (r: Result<Dict>)
    ensures r.Ok? <==> GetOr(body, "metadata", Obj([])).Obj?
    ensures r.Ok? ==> Get(r.value, "chat_id") == Some(GetOr(MetaIn(body), "chat_id", Str(uuid)))
    ensures r.Ok? ==> forall k :: k != "chat_id" ==> Get(r.value, k) == Get(MetaIn(body), k)
    ensures r.Err? ==> r.error == AttributeError
  {
    var m := GetOr(body, "metadata", Obj([]));
    match GetAttr(m, "chat_id", Str(uuid))
    case Err(e) => Err(e)
    case Ok(chat) => Ok(Set(m.fields, "chat_id", chat))
  }

  /** The chat's model id is stored (over the old one), and
    * its name when the metadata's "model" dict has one. */
  function Stored(names: map<Json, ModelInfo>, chat: Json, modelId: Json, modelInfo: Json): (r: map<Json, ModelInfo>)
    ensures r.Keys == names.Keys + {chat}
    ensures r[chat].id == modelId
    ensures modelInfo.Obj? && HasKey(modelInfo.fields, "name") ==> r[chat].name == Get(modelInfo.fields, "name")
    ensures !(modelInfo.Obj? && HasKey(modelInfo.fields, "name")) ==>
              r[chat].name == if chat in names then names[chat].name else None
    ensures forall c :: c in names && c != chat ==> r[c] == names[c]
  {
    var kept := if chat in names then names[chat].(id := modelId) else ModelInfo(modelId, None);
    var info := if modelInfo.Obj? && HasKey(modelInfo.fields, "name") then kept.(name := Get(modelInfo.fields, "name")) else kept;
    names[chat := info]
  }

  /** The required keys the body lacks, in order. */
  function MissingKeys(body: Dict): (r: seq<string>)
    ensures r == [] <==> HasKey(body, "model") && HasKey(body, "messages")
    ensures forall i :: 0 <= i < |r| ==> !HasKey(body, r[i])
    ensures |r| <= 2
  {
    (if HasKey(body, "model") then [] else ["model"]) + (if HasKey(body, "messages") then [] else ["messages"])
  }

  /** The ValueError raised for the missing keys. */
  function MissingError(missing: seq<string>): (e: Exc)
    ensures e.ValueError?
  {
    ValueError("Error: Missing keys in the request body: " + Join(", ", missing))
  }

  /** The user's email, `None` without a user. */
  function Email(user: Json): (r: Result<Json>)
    ensures !Truthy(user) ==> r == Ok(Null)
    ensures Truthy(user) ==> (r.Ok? <==> user.Obj?)
    ensures Truthy(user) && r.Ok? ==> r.value == GetOr(user.fields, "email", Null)
  {
    if Truthy(user) then GetAttr(user, "email", Null) else Ok(Null)
  }

  /** A chat without a trace gets a new one, named after the
    * chat, for the user, in the chat's session; a chat with a trace keeps
    * it, retagged when there are tags. */
  function Registered(s: State, chat: Json, email: Json, tags: seq<Json>, show: Json -> string): (r: State)
    ensures r.names == s.names && chat in r.traces
    ensures chat in s.traces ==> r.created == s.created
    ensures chat in s.traces ==> r.traces[chat] == s.traces[chat].(tags := if tags != [] then tags else s.traces[chat].tags)
    ensures chat !in s.traces ==> r.created == s.created + [chat]
    ensures chat !in s.traces ==> r.traces[chat] == Trace("chat:" + PyStr(chat, show), email, chat, tags, None, [])
    ensures forall c :: c != chat ==> (c in r.traces <==> c in s.traces)
    ensures forall c :: c != chat && c in s.traces ==> r.traces[c] == s.traces[c]
  {
    if chat in s.traces then
      if tags != [] then s.(traces := s.traces[chat := s.traces[chat].(tags := tags)]) else s
    else
      s.(traces := s.traces[chat := Trace("chat:" + PyStr(chat, show), email, chat, tags, None, [])], created := s.created + [chat])
  }

  /** An observation logged on the chat's trace. */
  function Observe(s: State, chat: Json, o: Observation): (r: State)
    requires chat in s.traces
    ensures r.names == s.names && r.created == s.created && r.traces.Keys == s.traces.Keys
    ensures r.traces[chat].observations == s.traces[chat].observations + [o]
    ensures r.traces[chat] == s.traces[chat].(observations := r.traces[chat].observations)
    ensures forall c :: c != chat && c in s.traces ==> r.traces[c] == s.traces[c]
  {
    s.(traces := s.traces[chat := s.traces[chat].(observations := s.traces[chat].observations + [o])])
  }

  /** The task and the interface are noted in
    * the metadata. */
  function Stamped(md: Dict, task: Json): (r: Dict)
    ensures Get(r, "type") == Some(task) && Get(r, "interface") == Some(Str("open-webui"))
    ensures forall k :: k != "type" && k != "interface" ==> Get(r, k) == Get(md, k)
  {
    Set(Set(md, "type", task), "interface", Str("open-webui"))
  }

  /** The metadata keys of the model values for the one generation task,
    * "llm_response". */
  const ModelIdKey: string := "openwebui_llm_response_model_id"
  const ModelNameKey: string := "openwebui_llm_response_model_name"

  /** Both model values go into the metadata. */
  function ModelStamped(md: Dict, id: Json, name: Json): (r: Dict)
    ensures Get(r, ModelIdKey) == Some(id) && Get(r, ModelNameKey) == Some(name)
    ensures forall k :: k != ModelIdKey && k != ModelNameKey ==> Get(r, k) == Get(md, k)
  {
    Set(Set(md, ModelIdKey, id), ModelNameKey, name)
  }

  /** The stored model name, "unknown" when none was seen. */
  function NameOf(info: ModelInfo): Json
  {
    if info.name.Some? then info.name.value else Str("unknown")
  }

  /** The `llm_response` task is the only one logged as a generation. */
  predicate IsGeneration(task: Json)
  {
    task == Str("llm_response")
  }

  /** The inlet: the new state and the returned body, or
    * the exception. */
  function InletStep(s: State, c: Config, body: Dict, user: Json, uuid: string,
                     lookup: Json -> Option<Json>, show: Json -> string): (State, Result<Dict>)
  {
    match Opened(body, uuid)
    case Err(e) => (s, Err(e))
    case Ok(md) => FromMetadata(s, c, body, md, user, lookup, show)
  }

  /** The chat id of the opened metadata. */
  function ChatOf(md: Dict): Json
  {
    GetOr(md, "chat_id", Null)
  }

  /** The model id stored for the chat, on the state. */
  function Remember(s: State, body: Dict, md: Dict): (r: State)
    ensures r.traces == s.traces && r.created == s.created
    ensures ChatOf(md) in r.names && r.names[ChatOf(md)].id == GetOr(body, "model", Null)
    ensures forall c :: c in s.names ==> c in r.names
  {
    s.(names := Stored(s.names, ChatOf(md), GetOr(body, "model", Null), GetOr(md, "model", Obj([]))))
  }

  /** The inlet from the model step to the trace, once the metadata is
    * open. The stored model survives
    * a missing-key error, since it is written first. */
  function FromMetadata(s: State, c: Config, body: Dict, md: Dict, user: Json,
                        lookup: Json -> Option<Json>, show: Json -> string): (State, Result<Dict>)
  {
    var s1 := Remember(s, body, md);
    if MissingKeys(body) != [] then (s1, Err(MissingError(MissingKeys(body))))
    else
      match Email(user)
      case Err(e) => (s1, Err(e))
      case Ok(email) => Traced(s1, c, body, md, email, lookup, show)
  }

  /** The task, "user_response" by default. */
  function TaskOf(md: Dict): Json
  {
    GetOr(md, "task", Str("user_response"))
  }

  /** The chat's trace is opened or reused; without a client
    * opening one raises (`None.trace`). */
  function Traced(s: State, c: Config, body: Dict, md: Dict, email: Json,
                  lookup: Json -> Option<Json>, show: Json -> string): (State, Result<Dict>)
    requires ChatOf(md) in s.names
  {
    var chat := ChatOf(md);
    var tags := BuildTags(c.insertTags, TaskOf(md));
    if chat !in s.traces && !c.hasClient then (s, Err(AttributeError))
    else Logged(Registered(s, chat, email, tags, show), c, body, md, tags, lookup)
  }

  /** The metadata dict the inlet returns. */
  function InletMetadata(md: Dict, info: ModelInfo): Dict
  {
    var md2 := Stamped(md, TaskOf(md));
    if IsGeneration(TaskOf(md)) then ModelStamped(md2, info.id, NameOf(info)) else md2
  }

  /** The observation the inlet logs. */
  function InletObservation(c: Config, md: Dict, info: ModelInfo, tags: seq<Json>, lookup: Json -> Option<Json>): Observation
    requires IsGeneration(TaskOf(md)) ==> ModelValue(c.identifierType, info.id, NameOf(info), lookup).Ok?
  {
    if IsGeneration(TaskOf(md)) then Generation(ModelValue(c.identifierType, info.id, NameOf(info), lookup).value, None, tags)
    else Event(TaskOf(md), tags)
  }

  /** The metadata notes the task, and the trace logs a
    * generation (for "llm_response", with the model the valve picks) or an
    * event. */
  function Logged(s: State, c: Config, body: Dict, md: Dict, tags: seq<Json>,
                  lookup: Json -> Option<Json>): (State, Result<Dict>)
    requires ChatOf(md) in s.names && ChatOf(md) in s.traces
  {
    var chat := ChatOf(md);
    var info := s.names[chat];
    var model := ModelValue(c.identifierType, info.id, NameOf(info), lookup);
    if IsGeneration(TaskOf(md)) && model.Err? then (s, Err(model.error))
    else (Observe(s, chat, InletObservation(c, md, info, tags, lookup)), Ok(Set(body, "metadata", Obj(InletMetadata(md, info)))))
  }

  /** The body with its metadata dict written back, when it has one: a
    * `{}` default is a fresh dict the body never sees. */
  function WithMeta(body: Dict, md: Dict): Dict
  {
    if HasKey(body, "metadata") then Set(body, "metadata", Obj(md)) else body
  }

  /** The outlet. `lastText` is the text
    * `get_last_assistant_message` gives for the messages, or its error;
    * a chat the pipeline has no trace for goes through the inlet. */
  function OutletStep(s: State, c: Config, body: Dict, user: Json, uuid: string,
                      lookup: Json -> Option<Json>, show: Json -> string,
                      lastText: Json -> Result<Json>): (State, Result<Dict>)
  {
    var chat := GetOr(body, "chat_id", Null);
    var meta := GetOr(body, "metadata", Obj([]));
    match GetAttr(meta, "task", Str("llm_response"))
    case Err(e) => (s, Err(e))
    case Ok(task) =>
      if chat !in s.traces then InletStep(s, c, body, user, uuid, lookup, show)
      else Answered(s, c, body, meta.fields, task, lookup, lastText)
  }

  /** The trace's output becomes the last assistant text,
    * and the usage is read off the last assistant message. */
  function Answered(s: State, c: Config, body: Dict, md: Dict, task: Json,
                    lookup: Json -> Option<Json>, lastText: Json -> Result<Json>): (State, Result<Dict>)
    requires GetOr(body, "chat_id", Null) in s.traces
  {
    var chat := GetOr(body, "chat_id", Null);
    if !HasKey(body, "messages") then (s, Err(KeyError("messages")))
    else
      var messages := GetOr(body, "messages", Null);
      match lastText(messages)
      case Err(e) => (s, Err(e))
      case Ok(text) =>
        match Iterate(messages)
        case Err(e) => (s, Err(e))
        case Ok(ms) =>
          match LastAssistant(ms)
          case Err(e) => (s, Err(e))
          case Ok(found) =>
            var s1 := s.(traces := s.traces[chat := s.traces[chat].(output := Some(text))]);
            Closed(s1, c, body, md, task, UsageOf(found.fields), lookup)
  }

  /** The metadata notes the task; the trace logs the end
    * of a generation, with its usage, or an event, whose metadata carries
    * the usage when there is one. */
  function Closed(s: State, c: Config, body: Dict, md: Dict, task: Json, usage: Option<Usage>,
                  lookup: Json -> Option<Json>): (State, Result<Dict>)
    requires GetOr(body, "chat_id", Null) in s.traces
  {
    var chat := GetOr(body, "chat_id", Null);
    match Closing(s, c, body, task, usage, lookup)
    case Err(e) => (s, Err(e))
    case Ok(o) => (Observe(s, chat, o), Ok(WithMeta(body, ClosedMeta(s, body, md, task, usage))))
  }

  /** The model this chat's generation is logged under: the one the inlet
    * remembered, or the body's. */
  function InfoOf(s: State, body: Dict): ModelInfo
  {
    var chat := GetOr(body, "chat_id", Null);
    if chat in s.names then s.names[chat] else ModelInfo(GetOr(body, "model", Null), None)
  }

  /** What the outlet logs, the end of a generation with
    * its usage or an event; only the model lookup can fail. */
  function Closing(s: State, c: Config, body: Dict, task: Json, usage: Option<Usage>,
                   lookup: Json -> Option<Json>): (r: Result<Observation>)
    ensures r.Ok? <==> !IsGeneration(task) || ModelValue(c.identifierType, InfoOf(s, body).id, NameOf(InfoOf(s, body)), lookup).Ok?
    ensures r.Ok? && IsGeneration(task) ==> r.value.Generation? && r.value.usage == usage && r.value.tags == BuildTags(c.insertTags, task)
    ensures r.Ok? && !IsGeneration(task) ==> r.value == Event(task, BuildTags(c.insertTags, task))
  {
    var tags := BuildTags(c.insertTags, task);
    var info := InfoOf(s, body);
    if IsGeneration(task) then
      match ModelValue(c.identifierType, info.id, NameOf(info), lookup)
      case Err(e) => Err(e)
      case Ok(model) => Ok(Generation(model, usage, tags))
    else Ok(Event(task, tags))
  }

  /** The metadata the outlet writes
    * back notes the task, the model of a generation, and the usage of an
    * event. */
  function ClosedMeta(s: State, body: Dict, md: Dict, task: Json, usage: Option<Usage>): Dict
  {
    var info := InfoOf(s, body);
    var md1 := Stamped(md, task);
    if IsGeneration(task) then ModelStamped(md1, info.id, NameOf(info))
    else if usage.Some? then Set(md1, "usage", UsageJson(usage.value)) else md1
  }

  // ---------------------------------------------------------------------
  // Properties of the inlet and the outlet
  // ---------------------------------------------------------------------

  lemma RegisteredKeeps(s: State, chat: Json, email: Json, tags: seq<Json>, show: Json -> string)
    requires Registry(s) && chat in s.names
    ensures Registry(Registered(s, chat, email, tags, show))
  {
    var r := Registered(s, chat, email, tags, show);
    if chat !in s.traces {
      assert chat !in s.created;
      assert Distinct(r.created) by {
        forall i, j | 0 <= i < j < |r.created|
          ensures r.created[i] != r.created[j]
        {
          if j == |s.created| {
            assert r.created[i] == s.created[i];
          } else {
            assert r.created[i] == s.created[i] && r.created[j] == s.created[j];
          }
        }
      }
      assert (set i | 0 <= i < |r.created| :: r.created[i]) == (set i | 0 <= i < |s.created| :: s.created[i]) + {chat} by {
        assert r.created[|s.created|] == chat;
        assert forall i :: 0 <= i < |s.created| ==> r.created[i] == s.created[i];
      }
    }
  }

  lemma LoggedRegistry(s: State, c: Config, body: Dict, md: Dict, tags: seq<Json>, lookup: Json -> Option<Json>)
    requires ChatOf(md) in s.names && ChatOf(md) in s.traces && Registry(s)
    ensures Registry(Logged(s, c, body, md, tags, lookup).0)
  {
  }

  lemma TracedRegistry(s: State, c: Config, body: Dict, md: Dict, email: Json,
                       lookup: Json -> Option<Json>, show: Json -> string)
    requires ChatOf(md) in s.names && Registry(s)
    ensures Registry(Traced(s, c, body, md, email, lookup, show).0)
  {
    var chat := ChatOf(md);
    var tags := BuildTags(c.insertTags, TaskOf(md));
    if chat in s.traces || c.hasClient {
      RegisteredKeeps(s, chat, email, tags, show);
      LoggedRegistry(Registered(s, chat, email, tags, show), c, body, md, tags, lookup);
    }
  }

  /** The inlet keeps the registry invariant, whatever it returns. */
  lemma InletRegistry(s: State, c: Config, body: Dict, user: Json, uuid: string,
                      lookup: Json -> Option<Json>, show: Json -> string)
    requires Registry(s)
    ensures Registry(InletStep(s, c, body, user, uuid, lookup, show).0)
  {
    if Opened(body, uuid).Ok? {
      var md := Opened(body, uuid).value;
      var s1 := Remember(s, body, md);
      if MissingKeys(body) == [] && Email(user).Ok? {
        TracedRegistry(s1, c, body, md, Email(user).value, lookup, show);
      }
    }
  }

  lemma AnsweredRegistry(s: State, c: Config, body: Dict, md: Dict, task: Json,
                         lookup: Json -> Option<Json>, lastText: Json -> Result<Json>)
    requires GetOr(body, "chat_id", Null) in s.traces && Registry(s)
    ensures Registry(Answered(s, c, body, md, task, lookup, lastText).0)
  {
    var chat := GetOr(body, "chat_id", Null);
    if HasKey(body, "messages") {
      var messages := GetOr(body, "messages", Null);
      if lastText(messages).Ok? && Iterate(messages).Ok? && LastAssistant(Iterate(messages).value).Ok? {
        var text := lastText(messages).value;
        var found := LastAssistant(Iterate(messages).value).value;
        var s1 := s.(traces := s.traces[chat := s.traces[chat].(output := Some(text))]);
        assert Answered(s, c, body, md, task, lookup, lastText) == Closed(s1, c, body, md, task, UsageOf(found.fields), lookup);
        TraceUpdateRegistry(s, chat, s.traces[chat].(output := Some(text)));
        ClosedRegistry(s1, c, body, md, task, UsageOf(found.fields), lookup);
      }
    }
  }

  /** Replacing a known trace keeps the registry invariant. */
  lemma TraceUpdateRegistry(s: State, chat: Json, t: Trace)
    requires chat in s.traces && Registry(s)
    ensures Registry(s.(traces := s.traces[chat := t]))
  {
    assert s.traces[chat := t].Keys == s.traces.Keys;
  }

  lemma ClosedRegistry(s: State, c: Config, body: Dict, md: Dict, task: Json, usage: Option<Usage>,
                       lookup: Json -> Option<Json>)
    requires GetOr(body, "chat_id", Null) in s.traces && Registry(s)
    ensures Registry(Closed(s, c, body, md, task, usage, lookup).0)
  {
  }

  /** The outlet keeps the registry invariant, whatever it returns. */
  lemma OutletRegistry(s: State, c: Config, body: Dict, user: Json, uuid: string,
                       lookup: Json -> Option<Json>, show: Json -> string, lastText: Json -> Result<Json>)
    requires Registry(s)
    ensures Registry(OutletStep(s, c, body, user, uuid, lookup, show, lastText).0)
  {
    var meta := GetOr(body, "metadata", Obj([]));
    if meta.Obj? {
      if GetOr(body, "chat_id", Null) !in s.traces {
        InletRegistry(s, c, body, user, uuid, lookup, show);
      } else {
        AnsweredRegistry(s, c, body, meta.fields, GetOr(meta.fields, "task", Str("llm_response")), lookup, lastText);
      }
    }
  }

  /** The metadata keys the pipeline writes are distinct. */
  lemma MetaKeysDiffer()
    ensures "chat_id" != "type" && "chat_id" != "interface"
    ensures ModelIdKey != "chat_id" && ModelIdKey != "type" && ModelIdKey != "interface"
    ensures ModelNameKey != "chat_id" && ModelNameKey != "type" && ModelNameKey != "interface"
  {
  }

  lemma StampedKeeps(md: Dict, task: Json)
    ensures Get(Stamped(md, task), "chat_id") == Get(md, "chat_id")
  {
    MetaKeysDiffer();
  }

  lemma ModelStampedKeeps(md: Dict, id: Json, name: Json)
    ensures Get(ModelStamped(md, id, name), "chat_id") == Get(md, "chat_id")
    ensures Get(ModelStamped(md, id, name), "type") == Get(md, "type")
    ensures Get(ModelStamped(md, id, name), "interface") == Get(md, "interface")
  {
    MetaKeysDiffer();
    assert ModelStamped(md, id, name) == Set(Set(md, ModelIdKey, id), ModelNameKey, name);
    SetSetKeeps(md, ModelIdKey, id, ModelNameKey, name, "chat_id");
    SetSetKeeps(md, ModelIdKey, id, ModelNameKey, name, "type");
    SetSetKeeps(md, ModelIdKey, id, ModelNameKey, name, "interface");
  }

  lemma InletMetadataKeys(md: Dict, info: ModelInfo)
    ensures var out := InletMetadata(md, info);
            && Get(out, "chat_id") == Get(md, "chat_id")
            && Get(out, "type") == Some(TaskOf(md))
            && Get(out, "interface") == Some(Str("open-webui"))
            && (IsGeneration(TaskOf(md)) ==> Get(out, ModelIdKey) == Some(info.id) && Get(out, ModelNameKey) == Some(NameOf(info)))
  {
    StampedKeeps(md, TaskOf(md));
    if IsGeneration(TaskOf(md)) {
      ModelStampedKeeps(Stamped(md, TaskOf(md)), info.id, NameOf(info));
    }
  }

  /** The outlet's metadata: the task and interface, then the model of a
    * generation or the usage of an event. */
  lemma ClosedMetaKeys(s: State, body: Dict, md: Dict, task: Json, usage: Option<Usage>)
    ensures var out := ClosedMeta(s, body, md, task, usage);
            && Get(out, "type") == Some(task)
            && Get(out, "interface") == Some(Str("open-webui"))
            && (IsGeneration(task) ==> Get(out, ModelIdKey) == Some(InfoOf(s, body).id)
                                       && Get(out, ModelNameKey) == Some(NameOf(InfoOf(s, body))))
            && (!IsGeneration(task) && usage.Some? ==> Get(out, "usage") == Some(UsageJson(usage.value)))
            && (!IsGeneration(task) && usage.None? ==> Get(out, "usage") == Get(md, "usage"))
  {
    var md1 := Stamped(md, task);
    StampedKeeps(md, task);
    if IsGeneration(task) {
      ModelStampedKeeps(md1, InfoOf(s, body).id, NameOf(InfoOf(s, body)));
    } else if usage.Some? {
      assert "usage" != "type" && "usage" != "interface";
    }
  }

  /** The intermediate values of a successful inlet. */
  lemma InletStages(s: State, c: Config, body: Dict, user: Json, uuid: string,
                    lookup: Json -> Option<Json>, show: Json -> string)
    returns (md: Dict, s1: State, email: Json, tags: seq<Json>, s2: State)
    requires InletStep(s, c, body, user, uuid, lookup, show).1.Ok?
    ensures Opened(body, uuid) == Ok(md) && s1 == Remember(s, body, md)
    ensures MissingKeys(body) == [] && Email(user) == Ok(email)
    ensures tags == BuildTags(c.insertTags, TaskOf(md))
    ensures ChatOf(md) in s.traces || c.hasClient
    ensures s2 == Registered(s1, ChatOf(md), email, tags, show)
    ensures IsGeneration(TaskOf(md)) ==> ModelValue(c.identifierType, s2.names[ChatOf(md)].id, NameOf(s2.names[ChatOf(md)]), lookup).Ok?
    ensures InletStep(s, c, body, user, uuid, lookup, show)
            == (Observe(s2, ChatOf(md), InletObservation(c, md, s2.names[ChatOf(md)], tags, lookup)),
                Ok(Set(body, "metadata", Obj(InletMetadata(md, s2.names[ChatOf(md)])))))
  {
    md := Opened(body, uuid).value;
    s1 := Remember(s, body, md);
    assert InletStep(s, c, body, user, uuid, lookup, show) == FromMetadata(s, c, body, md, user, lookup, show);
    email := Email(user).value;
    assert FromMetadata(s, c, body, md, user, lookup, show) == Traced(s1, c, body, md, email, lookup, show);
    tags := BuildTags(c.insertTags, TaskOf(md));
    s2 := Registered(s1, ChatOf(md), email, tags, show);
    assert Traced(s1, c, body, md, email, lookup, show) == Logged(s2, c, body, md, tags, lookup);
    LoggedIs(s2, c, body, md, tags, lookup);
  }

  lemma LoggedIs(s: State, c: Config, body: Dict, md: Dict, tags: seq<Json>, lookup: Json -> Option<Json>)
    requires ChatOf(md) in s.names && ChatOf(md) in s.traces
    requires Logged(s, c, body, md, tags, lookup).1.Ok?
    ensures IsGeneration(TaskOf(md)) ==> ModelValue(c.identifierType, s.names[ChatOf(md)].id, NameOf(s.names[ChatOf(md)]), lookup).Ok?
    ensures Logged(s, c, body, md, tags, lookup)
            == (Observe(s, ChatOf(md), InletObservation(c, md, s.names[ChatOf(md)], tags, lookup)),
                Ok(Set(body, "metadata", Obj(InletMetadata(md, s.names[ChatOf(md)])))))
  {
  }

  /** The inlet's metadata as the returned body shows it: the
    * metadata holds the chat id (the fresh UUID when it had none), the
    * task and the interface. */
  lemma InletMetadataOut(s: State, c: Config, body: Dict, user: Json, uuid: string,
                         lookup: Json -> Option<Json>, show: Json -> string)
    requires InletStep(s, c, body, user, uuid, lookup, show).1.Ok?
    ensures var r := InletStep(s, c, body, user, uuid, lookup, show).1.value;
            && DictAt(r, "metadata").Some?
            && Get(DictAt(r, "metadata").value, "chat_id") == Some(GetOr(MetaIn(body), "chat_id", Str(uuid)))
            && Get(DictAt(r, "metadata").value, "type") == Some(GetOr(MetaIn(body), "task", Str("user_response")))
            && Get(DictAt(r, "metadata").value, "interface") == Some(Str("open-webui"))
            && forall k :: k != "metadata" ==> Get(r, k) == Get(body, k)
  {
    var md, s1, email, tags, s2 := InletStages(s, c, body, user, uuid, lookup, show);
    InletMetadataKeys(md, s2.names[ChatOf(md)]);
    TaskOpened(body, uuid);
  }

  lemma TaskOpened(body: Dict, uuid: string)
    requires Opened(body, uuid).Ok?
    ensures TaskOf(Opened(body, uuid).value) == GetOr(MetaIn(body), "task", Str("user_response"))
    ensures ChatOf(Opened(body, uuid).value) == GetOr(MetaIn(body), "chat_id", Str(uuid))
  {
    assert "task" != "chat_id";
  }

  /** After a successful inlet the chat has a trace; one
    * that existed is reused (same name, user and session, no new trace),
    * otherwise exactly one is opened, named after the chat; other chats'
    * traces are untouched. */
  lemma InletTraces(s: State, c: Config, body: Dict, user: Json, uuid: string,
                    lookup: Json -> Option<Json>, show: Json -> string)
    requires InletStep(s, c, body, user, uuid, lookup, show).1.Ok?
    ensures var t := InletStep(s, c, body, user, uuid, lookup, show).0;
            var chat := GetOr(MetaIn(body), "chat_id", Str(uuid));
            && chat in t.traces
            && (chat in s.traces ==>
                  && t.created == s.created
                  && t.traces[chat].name == s.traces[chat].name
                  && t.traces[chat].userId == s.traces[chat].userId
                  && t.traces[chat].sessionId == s.traces[chat].sessionId)
            && (chat !in s.traces ==>
                  && t.created == s.created + [chat]
                  && t.traces[chat].name == "chat:" + PyStr(chat, show)
                  && t.traces[chat].userId == Email(user).value
                  && t.traces[chat].sessionId == chat)
            && forall c' :: c' != chat && c' in s.traces ==> c' in t.traces && t.traces[c'] == s.traces[c']
  {
    var md, s1, email, tags, s2 := InletStages(s, c, body, user, uuid, lookup, show);
    TaskOpened(body, uuid);
  }

  /** A body without "model" or "messages" is refused with the missing
    * keys, after the chat's model was stored. */
  lemma InletMissing(s: State, c: Config, body: Dict, user: Json, uuid: string,
                     lookup: Json -> Option<Json>, show: Json -> string)
    requires Opened(body, uuid).Ok? && MissingKeys(body) != []
    ensures var (t, r) := InletStep(s, c, body, user, uuid, lookup, show);
            var chat := GetOr(MetaIn(body), "chat_id", Str(uuid));
            && r == Err(MissingError(MissingKeys(body)))
            && t.traces == s.traces && t.created == s.created
            && chat in t.names && t.names[chat].id == GetOr(body, "model", Null)
  {
    TaskOpened(body, uuid);
    assert InletStep(s, c, body, user, uuid, lookup, show) == FromMetadata(s, c, body, Opened(body, uuid).value, user, lookup, show);
  }

  /** The inlet logs one observation on the chat's trace: a
    * generation with the model the valve picks for "llm_response", an
    * event of the task otherwise. */
  lemma InletObserves(s: State, c: Config, body: Dict, user: Json, uuid: string,
                      lookup: Json -> Option<Json>, show: Json -> string)
    requires InletStep(s, c, body, user, uuid, lookup, show).1.Ok?
    ensures var t := InletStep(s, c, body, user, uuid, lookup, show).0;
            var chat := GetOr(MetaIn(body), "chat_id", Str(uuid));
            var task := GetOr(MetaIn(body), "task", Str("user_response"));
            var tags := BuildTags(c.insertTags, task);
            var obs := t.traces[chat].observations;
            && chat in t.traces && chat in t.names
            && |obs| >= 1
            && t.names[chat].id == GetOr(body, "model", Null)
            && (IsGeneration(task) ==>
                  && ValvesUpdated(c.identifierType).None?
                  && obs[|obs| - 1] == Generation(ModelValue(c.identifierType, GetOr(body, "model", Null), NameOf(t.names[chat]), lookup).value, None, tags))
            && (!IsGeneration(task) ==> obs[|obs| - 1] == Event(task, tags))
  {
    var md, s1, email, tags, s2 := InletStages(s, c, body, user, uuid, lookup, show);
    TaskOpened(body, uuid);
  }

  /** A chat id without a trace makes the outlet the inlet. */
  lemma OutletUnknown(s: State, c: Config, body: Dict, user: Json, uuid: string,
                      lookup: Json -> Option<Json>, show: Json -> string, lastText: Json -> Result<Json>)
    requires GetOr(body, "metadata", Obj([])).Obj? && GetOr(body, "chat_id", Null) !in s.traces
    ensures OutletStep(s, c, body, user, uuid, lookup, show, lastText) == InletStep(s, c, body, user, uuid, lookup, show)
  {
  }

  /** The usage the outlet reads: the last assistant message's. */
  function OutletUsage(body: Dict): Option<Usage>
  {
    var messages := GetOr(body, "messages", Null);
    if Iterate(messages).Ok? && LastAssistant(Iterate(messages).value).Ok?
    then UsageOf(LastAssistant(Iterate(messages).value).value.fields) else None
  }

  lemma AnsweredIs(s: State, c: Config, body: Dict, md: Dict, task: Json,
                   lookup: Json -> Option<Json>, lastText: Json -> Result<Json>)
    requires GetOr(body, "chat_id", Null) in s.traces
    requires Answered(s, c, body, md, task, lookup, lastText).1.Ok?
    ensures var chat := GetOr(body, "chat_id", Null);
            var messages := GetOr(body, "messages", Null);
            && lastText(messages).Ok?
            && Answered(s, c, body, md, task, lookup, lastText)
               == Closed(s.(traces := s.traces[chat := s.traces[chat].(output := Some(lastText(messages).value))]),
                         c, body, md, task, OutletUsage(body), lookup)
  {
  }

  /** The outlet for a chat with a trace: no trace is opened; the
    * trace records the last assistant text as its output and logs one
    * observation, which `Closing` describes, carrying the usage of the
    * last assistant message. */
  lemma OutletKnown(s: State, c: Config, body: Dict, user: Json, uuid: string,
                    lookup: Json -> Option<Json>, show: Json -> string, lastText: Json -> Result<Json>,
                    task: Json)
    requires GetOr(body, "chat_id", Null) in s.traces
    requires GetAttr(GetOr(body, "metadata", Obj([])), "task", Str("llm_response")) == Ok(task)
    requires OutletStep(s, c, body, user, uuid, lookup, show, lastText).1.Ok?
    ensures var chat := GetOr(body, "chat_id", Null);
            var s1 := s.(traces := s.traces[chat := s.traces[chat].(output := Some(lastText(GetOr(body, "messages", Null)).value))]);
            && lastText(GetOr(body, "messages", Null)).Ok?
            && Closing(s1, c, body, task, OutletUsage(body), lookup).Ok?
            && OutletStep(s, c, body, user, uuid, lookup, show, lastText).0
               == Observe(s1, chat, Closing(s1, c, body, task, OutletUsage(body), lookup).value)
  {
    var meta := GetOr(body, "metadata", Obj([]));
    assert OutletStep(s, c, body, user, uuid, lookup, show, lastText) == Answered(s, c, body, meta.fields, task, lookup, lastText);
    AnsweredIs(s, c, body, meta.fields, task, lookup, lastText);
  }

  // ---------------------------------------------------------------------
  // The pipeline object
  // ---------------------------------------------------------------------

  /** The `Pipeline` class: its valves, whether it holds a
    * client, the stored model names and the open traces. */
  class Pipeline {
    var insertTags: bool
    var identifierType: string
    var hasClient: bool
    var names: map<Json, ModelInfo>
    var traces: map<Json, Trace>
    var created: seq<Json>

    function St(): State
      reads this
    {
      State(names, traces, created)
    }

    function Conf(): Config
      reads this
    {
      Config(insertTags, identifierType, hasClient)
    }

    predicate Valid()
      reads this
    {
      Registry(St())
    }

    /** Tags on, the identifier type from the environment, no
      * client, no traces and no stored models. */
    constructor(identifierType: string)
      ensures Valid()
      ensures Conf() == Config(true, identifierType, false)
      ensures St() == State(map[], map[], [])
    {
      this.insertTags := true;
      this.identifierType := identifierType;
      this.hasClient := false;
      this.names := map[];
      this.traces := map[];
      this.created := [];
    }

    /** `built` says whether the Langfuse
      * constructor returned; a failure is logged and the old client kept. */
    method OnStartup(built: bool)
      modifies this
      ensures hasClient == (old(hasClient) || built)
      ensures St() == old(St()) && insertTags == old(insertTags) && identifierType == old(identifierType)
    {
      if built {
        hasClient := true;
      }
    }

    /** The new valves are validated first; only valid ones
      * reach `set_langfuse`. */
    method OnValvesUpdated(newInsertTags: bool, newIdentifierType: string, built: bool) returns (r: Option<Exc>)
      modifies this
      ensures r == ValvesUpdated(newIdentifierType)
      ensures insertTags == newInsertTags && identifierType == newIdentifierType
      ensures hasClient == (old(hasClient) || (r.None? && built))
      ensures St() == old(St())
    {
      insertTags := newInsertTags;
      identifierType := newIdentifierType;
      if identifierType !in ValidTypes {
        return Some(ValueError("Invalid modelkey_identifier_type: '" + identifierType + "'. Must be one of: " + Join(", ", ValidTypes)));
      }
      r := None;
      OnStartup(built);
    }

    /** The inlet, step by step in the source's order. */
    method Inlet(body: Dict, user: Json, uuid: string, lookup: Json -> Option<Json>, show: Json -> string)
      returns (r: Result<Dict>)
      requires Valid()
      modifies this
      ensures Valid() && Conf() == old(Conf())
      ensures (St(), r) == InletStep(old(St()), old(Conf()), body, user, uuid, lookup, show)
    {
      InletRegistry(St(), Conf(), body, user, uuid, lookup, show);
      var meta := Opened(body, uuid);
      if meta.Err? {
        return Err(meta.error);
      }
      r := Remembered(body, meta.value, user, lookup, show);
    }

    /** From the model step to the trace, once the metadata is open. */
    method Remembered(body: Dict, md: Dict, user: Json, lookup: Json -> Option<Json>, show: Json -> string)
      returns (r: Result<Dict>)
      modifies this
      ensures Conf() == old(Conf())
      ensures (St(), r) == FromMetadata(old(St()), old(Conf()), body, md, user, lookup, show)
    {
      ghost var s0 := St();
      names := Stored(names, ChatOf(md), GetOr(body, "model", Null), GetOr(md, "model", Obj([])));
      assert St() == Remember(s0, body, md);
      var missing := MissingKeys(body);
      if missing != [] {
        return Err(MissingError(missing));
      }
      var email := Email(user);
      if email.Err? {
        return Err(email.error);
      }
      r := TraceChat(body, md, email.value, lookup, show);
    }

    /** From the task to the logged observation, once the model is stored. */
    method TraceChat(body: Dict, md: Dict, email: Json, lookup: Json -> Option<Json>, show: Json -> string)
      returns (r: Result<Dict>)
      requires ChatOf(md) in names
      modifies this
      ensures Conf() == old(Conf())
      ensures (St(), r) == Traced(old(St()), old(Conf()), body, md, email, lookup, show)
    {
      var chat := ChatOf(md);
      var tags := BuildTags(insertTags, TaskOf(md));
      if chat !in traces && !hasClient {
        return Err(AttributeError);
      }
      Register(chat, email, tags, show);
      r := Log(body, md, tags, lookup);
    }

    /** The chat's trace is opened, or reused and retagged. */
    method Register(chat: Json, email: Json, tags: seq<Json>, show: Json -> string)
      modifies this
      ensures Conf() == old(Conf())
      ensures St() == Registered(old(St()), chat, email, tags, show)
    {
      if chat !in traces {
        traces := traces[chat := Trace("chat:" + PyStr(chat, show), email, chat, tags, None, [])];
        created := created + [chat];
      } else if tags != [] {
        traces := traces[chat := traces[chat].(tags := tags)];
      }
    }

    /** The generation or the event is logged on the trace. */
    method Log(body: Dict, md: Dict, tags: seq<Json>, lookup: Json -> Option<Json>) returns (r: Result<Dict>)
      requires ChatOf(md) in names && ChatOf(md) in traces
      modifies this
      ensures Conf() == old(Conf())
      ensures (St(), r) == Logged(old(St()), old(Conf()), body, md, tags, lookup)
    {
      var chat := ChatOf(md);
      var task := TaskOf(md);
      var info := names[chat];
      var model := ModelValue(identifierType, info.id, NameOf(info), lookup);
      if IsGeneration(task) && model.Err? {
        return Err(model.error);
      }
      var o := if IsGeneration(task) then Generation(model.value, None, tags) else Event(task, tags);
      assert o == InletObservation(Conf(), md, info, tags, lookup);
      Record(chat, o);
      r := Ok(Set(body, "metadata", Obj(InletMetadata(md, info))));
    }

    /** `trace.generation`, `trace.generation().end` or `trace.event`: the
      * observation is logged on the chat's trace. */
    method Record(chat: Json, o: Observation)
      requires chat in traces
      modifies this
      ensures Conf() == old(Conf())
      ensures St() == Observe(old(St()), chat, o)
    {
      traces := traces[chat := traces[chat].(observations := traces[chat].observations + [o])];
    }

    /** The outlet, step by step in the source's order. */
    method Outlet(body: Dict, user: Json, uuid: string, lookup: Json -> Option<Json>, show: Json -> string,
                  lastText: Json -> Result<Json>) returns (r: Result<Dict>)
      requires Valid()
      modifies this
      ensures Valid() && Conf() == old(Conf())
      ensures (St(), r) == OutletStep(old(St()), old(Conf()), body, user, uuid, lookup, show, lastText)
    {
      OutletRegistry(St(), Conf(), body, user, uuid, lookup, show, lastText);
      var chat := GetOr(body, "chat_id", Null);
      var meta := GetOr(body, "metadata", Obj([]));
      var task := GetAttr(meta, "task", Str("llm_response"));
      if task.Err? {
        return Err(task.error);
      }
      if chat !in traces {
        r := Inlet(body, user, uuid, lookup, show);
        return;
      }
      r := Answer(body, meta.fields, task.value, lookup, lastText);
    }

    /** The usage of the last assistant message is read and
      * the trace's output set. */
    method Answer(body: Dict, md: Dict, task: Json, lookup: Json -> Option<Json>, lastText: Json -> Result<Json>)
      returns (r: Result<Dict>)
      requires GetOr(body, "chat_id", Null) in traces
      modifies this
      ensures Conf() == old(Conf())
      ensures (St(), r) == Answered(old(St()), old(Conf()), body, md, task, lookup, lastText)
    {
      var chat := GetOr(body, "chat_id", Null);
      if !HasKey(body, "messages") {
        return Err(KeyError("messages"));
      }
      var messages := GetOr(body, "messages", Null);
      var text := lastText(messages);
      if text.Err? {
        return Err(text.error);
      }
      var ms := Iterate(messages);
      if ms.Err? {
        return Err(ms.error);
      }
      var found := LastAssistant(ms.value);
      if found.Err? {
        return Err(found.error);
      }
      var usage := UsageOf(found.value.fields);
      traces := traces[chat := traces[chat].(output := Some(text.value))];
      r := Close(body, md, task, usage, lookup);
    }

    /** The metadata notes the task and the trace logs the
      * end of the generation or an event. */
    method Close(body: Dict, md: Dict, task: Json, usage: Option<Usage>, lookup: Json -> Option<Json>)
      returns (r: Result<Dict>)
      requires GetOr(body, "chat_id", Null) in traces
      modifies this
      ensures Conf() == old(Conf())
      ensures (St(), r) == Closed(old(St()), old(Conf()), body, md, task, usage, lookup)
    {
      var chat := GetOr(body, "chat_id", Null);
      var tags := BuildTags(insertTags, task);
      var info := if chat in names then names[chat] else ModelInfo(GetOr(body, "model", Null), None);
      var md1 := Stamped(md, task);
      ghost var s0 := St();
      assert info == InfoOf(s0, body);
      var o, md2;
      if IsGeneration(task) {
        var model := ModelValue(identifierType, info.id, NameOf(info), lookup);
        if model.Err? {
          assert Closing(s0, Conf(), body, task, usage, lookup) == Err(model.error);
          return Err(model.error);
        }
        o := Generation(model.value, usage, tags);
        md2 := ModelStamped(md1, info.id, NameOf(info));
      } else {
        o := Event(task, tags);
        md2 := if usage.Some? then Set(md1, "usage", UsageJson(usage.value)) else md1;
      }
      assert Closing(s0, Conf(), body, task, usage, lookup) == Ok(o);
      assert md2 == ClosedMeta(s0, body, md, task, usage);
      Record(chat, o);
      r := Ok(WithMeta(body, md2));
    }
  }
}
