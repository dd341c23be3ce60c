/** The second "AddMetadata" filter, version 1.1.3 (filters/add_metadata.py).
  *
  * Its inlet works on `body["metadata"]`, created empty when missing:
  * it records the user as "<name>_<email>", replaces the metadata tags by
  * the duplicate-free union of the old tags and the `extra_tags` valve,
  * copies that tag list under several other keys and into `body["tags"]`,
  * stamps the chat and message ids, the head of the last message and the
  * version, merges `__metadata__` updated by the `extra_metadata` valve,
  * stores a snapshot under "trace_metadata" and finally exposes the
  * metadata again as `body["extra_body"]["metadata"]`. `load_json_dict`
  * is the same function as in the first filter and is reused from there.
  */
module AddMetadata {

  import opened Wrappers
  import opened Text
  import opened Json
  import AddMetadataV0

  const Version: string := "1.1.3"
  const UserinfoKey: string := "open-webui_userinfo"
  /** The metadata keys that receive a copy of the tag list. */
  const TagCopies: seq<string> := ["trace_tags", "update_trace_tags", "existing_trace_tags", "existing_tags"]
  const HeadLength: nat := 100

  /** `f"{__user__['name']}_{__user__['email']}"`. */
  function UserValue(user: Json, show: Json -> string): (r: Result<string>)
    ensures r.Ok? <==> user.Obj? && HasKey(user.fields, "name") && HasKey(user.fields, "email")
    ensures r.Err? && user.Obj? ==> r.error == KeyError(if HasKey(user.fields, "name") then "email" else "name")
    ensures r.Err? && !user.Obj? ==> r.error == TypeError
    ensures r.Ok? && Get(user.fields, "name").value.Str? && Get(user.fields, "email").value.Str? ==>
              r.value == Get(user.fields, "name").value.s + "_" + Get(user.fields, "email").value.s
  {
    match Index(user, "name")
    case Err(e) => Err(e)
    case Ok(name) =>
      match Index(user, "email")
      case Err(e) => Err(e)
      case Ok(email) => Ok(PyStr(name, show) + "_" + PyStr(email, show))
  }

  /** Values Python can put in a set: lists and dicts cannot. */
  predicate Hashable(v: Json)
  {
    !v.Arr? && !v.Obj?
  }

  /** `list(set(xs))`. Python leaves the order of a set unspecified; the
    * model keeps first occurrences, and only order-free facts about it are
    * stated. */
  function Dedup(xs: seq<Json>): (r: seq<Json>)
    ensures forall x :: x in r <==> x in xs
    ensures Distinct(r)
    ensures |r| <= |xs|
  {
    if xs == [] then []
    else
      var d := Dedup(xs[..|xs| - 1]);
      if xs[|xs| - 1] in d then d else d + [xs[|xs| - 1]]
  }

  /** The tag step on the metadata dict: a non-empty tag valve is added to
    * the metadata tags (`+=` needs a list there) and the result is
    * deduplicated, which needs hashable tags. */
  function TagsStep(md: Dict, tags: seq<Json>): (r: Result<Dict>)
    ensures tags == [] ==> r == Ok(md)
    ensures tags != [] ==>
              (r.Ok? <==> (HasKey(md, "tags") ==> Get(md, "tags").value.Arr?)
                          && forall x :: x in AddMetadataV0.ListAt(md, "tags") + tags ==> Hashable(x))
    ensures r.Err? ==> r.error == TypeError
    ensures r.Ok? && tags != [] ==> Get(r.value, "tags") == Some(Arr(Dedup(AddMetadataV0.ListAt(md, "tags") + tags)))
    ensures r.Ok? ==> forall k :: k != "tags" ==> Get(r.value, k) == Get(md, k)
  {
    if tags == [] then Ok(md)
    else if HasKey(md, "tags") && !Get(md, "tags").value.Arr? then Err(TypeError)
    else
      var all := AddMetadataV0.ListAt(md, "tags") + tags;
      if forall x :: x in all ==> Hashable(x) then Ok(Set(md, "tags", Arr(Dedup(all)))) else Err(TypeError)
  }

  /** The tag list `t` is copied under the keys of
    * `TagCopies`, and `{"tags": t}` under "trace_metadata". */
  function TagCopiesStep(md: Dict, t: Json): Dict
  {
    Update(md, TagEntries(t))
  }

  function TagEntries(t: Json): Dict
  {
    [("trace_tags", t), (AddMetadataV0.TraceKey, Obj([("tags", t)])),
     ("update_trace_tags", t), ("existing_trace_tags", t), ("existing_tags", t)]
  }

  lemma TagCopiesSet(md: Dict, t: Json)
    ensures && Get(TagCopiesStep(md, t), "trace_tags") == Some(t) && Get(TagCopiesStep(md, t), "update_trace_tags") == Some(t)
            && Get(TagCopiesStep(md, t), "existing_trace_tags") == Some(t) && Get(TagCopiesStep(md, t), "existing_tags") == Some(t)
    ensures Get(TagCopiesStep(md, t), AddMetadataV0.TraceKey) == Some(Obj([("tags", t)]))
  {
    var e := TagEntries(t);
    assert UniqueKeys(e);
    UpdateHitAt(md, e, 0);
    UpdateHitAt(md, e, 1);
    UpdateHitAt(md, e, 2);
    UpdateHitAt(md, e, 3);
    UpdateHitAt(md, e, 4);
  }

  lemma TagCopiesAt(md: Dict, t: Json, k: string)
    requires k in TagCopies
    ensures Get(TagCopiesStep(md, t), k) == Some(t)
  {
    var e := TagEntries(t);
    assert UniqueKeys(e);
    var j := TagCopyEntry(t, k);
    UpdateHitAt(md, e, j);
  }

  /** Each copy key is written by one entry of the tag step, with the tags. */
  lemma TagCopyEntry(t: Json, k: string) returns (j: nat)
    requires k in TagCopies
    ensures j < |TagEntries(t)| && TagEntries(t)[j] == (k, t)
  {
    var e := TagEntries(t);
    if k == "trace_tags" {
      j := 0;
    } else if k == "update_trace_tags" {
      j := 2;
    } else if k == "existing_trace_tags" {
      j := 3;
    } else {
      j := 4;
    }
  }

  lemma TagCopiesOther(md: Dict, t: Json, k: string)
    requires k !in TagCopies && k != AddMetadataV0.TraceKey
    ensures Get(TagCopiesStep(md, t), k) == Get(md, k)
  {
    NotKey(TagEntries(t), k);
    UpdateOther(md, TagEntries(t), k);
  }

  /** `v[:100]` on the content of the last message. */
  function Head(v: Json): (r: Result<Json>)
    ensures v.Str? ==> r == Ok(Str(Take(v.s, HeadLength)))
    ensures v.Arr? ==> r.Ok? && r.value.Arr? && r.value.items <= v.items
                       && |r.value.items| == if |v.items| < HeadLength then |v.items| else HeadLength
    ensures !v.Str? && !v.Arr? ==> r == Err(TypeError)
  {
    match v
    case Str(s) => Ok(Str(Take(s, HeadLength)))
    case Arr(items) => Ok(Arr(if |items| <= HeadLength then items else items[..HeadLength]))
    case _ => Err(TypeError)
  }

  /** `body["messages"][-1]["content"][:100]`. */
  function LastHead(body: Dict): (r: Result<Json>)
    ensures !HasKey(body, "messages") ==> r == Err(KeyError("messages"))
    ensures Get(body, "messages") == Some(Arr([])) ==> r == Err(IndexError)
    ensures (match Get(body, "messages") case Some(Arr(ms)) => ms != [] case _ => false) ==>
              r == (match Index(Get(body, "messages").value.items[|Get(body, "messages").value.items| - 1], "content")
                    case Err(e) => Err(e)
                    case Ok(c) => Head(c))
  {
    match Get(body, "messages")
    case None => Err(KeyError("messages"))
    case Some(Arr(ms)) =>
      if ms == [] then Err(IndexError)
      else
        (match Index(ms[|ms| - 1], "content")
         case Err(e) => Err(e)
         case Ok(c) => Head(c))
    case Some(Obj(_)) => Err(KeyError("-1"))
    case Some(Str(s)) => if s == "" then Err(IndexError) else Err(TypeError)
    case Some(_) => Err(TypeError)
  }

  /** The keys the stamping step sets. */
  const StampKeys: seq<string> := ["session_id", "generation_name", "generation_id", "trace_name", "version", "debug_langfuse"]

  /** The stamping step once the values are at hand. */
  function Stamped(md: Dict, chat: Json, head: Json, msg: Json, debug: bool): Dict
  {
    var m := Update(md, StampEntries(chat, head, msg));
    if debug then Set(m, "debug_langfuse", Bool(true)) else m
  }

  function StampEntries(chat: Json, head: Json, msg: Json): Dict
  {
    [("session_id", chat), ("generation_name", head), ("generation_id", msg), ("trace_name", head), ("version", Str(Version))]
  }

  lemma StampEntriesUnique(chat: Json, head: Json, msg: Json)
    ensures UniqueKeys(StampEntries(chat, head, msg))
    ensures forall k :: k !in StampKeys ==> !HasKey(StampEntries(chat, head, msg), k)
  {
    forall k | k !in StampKeys ensures !HasKey(StampEntries(chat, head, msg), k) {
      NotKey(StampEntries(chat, head, msg), k);
    }
  }

  lemma StampEntriesSet(md: Dict, chat: Json, head: Json, msg: Json)
    ensures var m := Update(md, StampEntries(chat, head, msg));
            && Get(m, "session_id") == Some(chat) && Get(m, "generation_id") == Some(msg)
            && Get(m, "generation_name") == Some(head) && Get(m, "trace_name") == Some(head)
            && Get(m, "version") == Some(Str(Version))
  {
    var e := StampEntries(chat, head, msg);
    StampEntriesUnique(chat, head, msg);
    UpdateHitAt(md, e, 0);
    UpdateHitAt(md, e, 1);
    UpdateHitAt(md, e, 2);
    UpdateHitAt(md, e, 3);
    UpdateHitAt(md, e, 4);
  }

  lemma StampEntriesLeaveDebug(md: Dict, chat: Json, head: Json, msg: Json)
    ensures Get(Update(md, StampEntries(chat, head, msg)), "debug_langfuse") == Get(md, "debug_langfuse")
  {
    NotKey(StampEntries(chat, head, msg), "debug_langfuse");
    UpdateOther(md, StampEntries(chat, head, msg), "debug_langfuse");
  }

  lemma StampedSet(md: Dict, chat: Json, head: Json, msg: Json, debug: bool)
    ensures var r := Stamped(md, chat, head, msg, debug);
            && Get(r, "session_id") == Some(chat) && Get(r, "generation_id") == Some(msg)
            && Get(r, "generation_name") == Some(head) && Get(r, "trace_name") == Some(head)
            && Get(r, "version") == Some(Str(Version))
            && Get(r, "debug_langfuse") == if debug then Some(Bool(true)) else Get(md, "debug_langfuse")
  {
    StampEntriesSet(md, chat, head, msg);
    StampEntriesLeaveDebug(md, chat, head, msg);
  }

  lemma StampedOther(md: Dict, chat: Json, head: Json, msg: Json, debug: bool, k: string)
    requires k !in StampKeys
    ensures Get(Stamped(md, chat, head, msg, debug), k) == Get(md, k)
  {
    StampEntriesUnique(chat, head, msg);
    UpdateOther(md, StampEntries(chat, head, msg), k);
  }

  /** Chat and message ids from `__metadata__`, the head of
    * the last message twice, the version, and the debug flag. */
  function StampStep(md: Dict, meta: Dict, body: Dict, debug: bool): (r: Result<Dict>)
    ensures r.Ok? <==> HasKey(meta, "chat_id") && LastHead(body).Ok? && HasKey(meta, "message_id")
    ensures r.Err? ==> r.error == if !HasKey(meta, "chat_id") then KeyError("chat_id")
                                 else if LastHead(body).Err? then LastHead(body).error
                                 else KeyError("message_id")
    ensures r.Ok? ==> r.value == Stamped(md, Get(meta, "chat_id").value, LastHead(body).value, Get(meta, "message_id").value, debug)
  {
    match Get(meta, "chat_id")
    case None => Err(KeyError("chat_id"))
    case Some(chat) =>
      match LastHead(body)
      case Err(e) => Err(e)
      case Ok(head) =>
        match Get(meta, "message_id")
        case None => Err(KeyError("message_id"))
        case Some(msg) => Ok(Stamped(md, chat, head, msg, debug))
  }

  /** `__metadata__` updated by the extra-metadata valve,
    * then merged over the body metadata when it is not empty. */
  function OverrideStep(md: Dict, overrides: Dict): (r: Dict)
    ensures overrides == [] ==> r == md
    ensures forall k :: !HasKey(overrides, k) ==> Get(r, k) == Get(md, k)
    ensures UniqueKeys(overrides) ==> forall k :: HasKey(overrides, k) ==> Get(r, k) == Get(overrides, k)
  {
    forall k | !HasKey(overrides, k) {
      UpdateOther(md, overrides, k);
    }
    forall k | UniqueKeys(overrides) && HasKey(overrides, k) {
      UpdateHit(md, overrides, k);
    }
    if overrides == [] then md else Update(md, overrides)
  }

  /** The overrides: the keys of the valve win over
    * those of `__metadata__`. */
  function Overrides(meta: Dict, extra: Dict): (r: Dict)
    ensures UniqueKeys(meta) && UniqueKeys(extra) ==> UniqueKeys(r)
    ensures forall k :: HasKey(r, k) <==> HasKey(meta, k) || HasKey(extra, k)
    ensures UniqueKeys(extra) ==> forall k :: HasKey(extra, k) ==> Get(r, k) == Get(extra, k)
    ensures forall k :: !HasKey(extra, k) ==> Get(r, k) == Get(meta, k)
  {
    forall k | !HasKey(extra, k) {
      UpdateOther(meta, extra, k);
    }
    forall k | UniqueKeys(extra) && HasKey(extra, k) {
      UpdateHit(meta, extra, k);
    }
    UpdateKeys(meta, extra);
    Update(meta, extra)
  }

  /** `d.update(e)` keeps distinct keys distinct and holds the keys of both. */
  lemma {:induction false} UpdateKeys(d: Dict, e: Dict)
    ensures UniqueKeys(d) ==> UniqueKeys(Update(d, e))
    ensures forall k :: HasKey(Update(d, e), k) <==> HasKey(d, k) || HasKey(e, k)
    decreases |e|
  {
    if e != [] {
      var d' := Set(d, e[0].0, e[0].1);
      UpdateKeys(d', e[1..]);
      forall k ensures HasKey(Update(d, e), k) <==> HasKey(d, k) || HasKey(e, k) {
        HasKeyFirst(e, k);
        HasKeySet(d, e[0].0, e[0].1, k);
      }
    }
  }

  /** A missing `__metadata__` is an empty dict. */
  function MetaOf(meta: Option<Dict>): Dict
  {
    if meta.Some? then meta.value else []
  }

  /** The metadata, created empty when missing, gets the
    * user dict and the user value. Writing into metadata that is not a
    * dict raises a TypeError (each of the writes that follow would). */
  function Prepared(addUserinfo: bool, user: Json, body: Dict, show: Json -> string): (r: Result<Dict>)
    ensures r.Ok? <==> (addUserinfo ==> UserValue(user, show).Ok?) && (HasKey(body, "metadata") ==> DictAt(body, "metadata").Some?)
    ensures r.Err? ==> r.error == if addUserinfo && UserValue(user, show).Err? then UserValue(user, show).error else TypeError
    ensures r.Ok? && addUserinfo ==> && Get(r.value, UserinfoKey) == Some(user)
                                     && Get(r.value, "trace_user_id") == Some(Str(UserValue(user, show).value))
    ensures r.Ok? ==> forall k :: k != UserinfoKey && k != "trace_user_id" ==>
                                  Get(r.value, k) == if HasKey(body, "metadata") then Get(DictAt(body, "metadata").value, k) else None
    ensures r.Ok? && !addUserinfo ==> r.value == if HasKey(body, "metadata") then DictAt(body, "metadata").value else []
    ensures r.Ok? ==> Get(r.value, "tags") == if HasKey(body, "metadata") then Get(DictAt(body, "metadata").value, "tags") else None
  {
    var u := if addUserinfo then UserValue(user, show) else Ok("");
    if u.Err? then Err(u.error)
    else
      var md0 := if HasKey(body, "metadata") then Get(body, "metadata").value else Obj([]);
      if !md0.Obj? then Err(TypeError)
      else if addUserinfo then Ok(Set(Set(md0.fields, UserinfoKey, user), "trace_user_id", Str(u.value)))
      else Ok(md0.fields)
  }

  /** The tags are merged, read back (a KeyError when
    * there are none) and copied; the result is the metadata and the tag
    * list. */
  function Tagged(md: Dict, extraTags: seq<Json>): (r: Result<(Dict, Json)>)
    ensures TagsStep(md, extraTags).Err? ==> r == Err(TypeError)
    ensures TagsStep(md, extraTags).Ok? ==>
              && (r.Err? <==> !HasKey(TagsStep(md, extraTags).value, "tags"))
              && (r.Err? ==> r.error == KeyError("tags"))
              && (r.Ok? ==> r.value == (TagCopiesStep(TagsStep(md, extraTags).value, r.value.1), Get(TagsStep(md, extraTags).value, "tags").value))
  {
    match TagsStep(md, extraTags)
    case Err(e) => Err(e)
    case Ok(md2) =>
      match Get(md2, "tags")
      case None => Err(KeyError("tags"))
      case Some(t) => Ok((TagCopiesStep(md2, t), t))
  }

  /** The last step on the stamped metadata: the overrides are merged and
    * the snapshot taken. Every key but "trace_metadata" ends as the overrides set it, or as
    * it was; "trace_metadata" is a snapshot of the rest. */
  function Finished(md: Dict, overrides: Dict): (r: Dict)
    ensures forall k :: k != AddMetadataV0.TraceKey && !HasKey(overrides, k) ==> Get(r, k) == Get(md, k)
    ensures UniqueKeys(overrides) ==>
              forall k :: k != AddMetadataV0.TraceKey && HasKey(overrides, k) ==> Get(r, k) == Get(overrides, k)
    ensures DictAt(r, AddMetadataV0.TraceKey).Some? && AddMetadataV0.Snapshot(r)
  {
    var m := OverrideStep(md, overrides);
    Set(m, AddMetadataV0.TraceKey, Obj(m))
  }

  /** The metadata and the tag list after every step, or the exception
    * the inlet raises. */
  function FinalMetadata(addUserinfo: bool, debug: bool, user: Json, body: Dict, meta: Option<Dict>,
                         extraMetadata: string, extraTags: seq<Json>,
                         parse: string -> Option<Json>, show: Json -> string): Result<(Dict, Json)>
  {
    match Prepared(addUserinfo, user, body, show)
    case Err(e) => Err(e)
    case Ok(md1) =>
      match Tagged(md1, extraTags)
      case Err(e) => Err(e)
      case Ok((md3, t)) =>
        match StampStep(md3, MetaOf(meta), body, debug)
        case Err(e) => Err(e)
        case Ok(md4) =>
          match AddMetadataV0.LoadJsonDict(extraMetadata, parse)
          case Err(e) => Err(e)
          case Ok(extra) => Ok((Finished(md4, Overrides(MetaOf(meta), extra)), t))
  }

  /** The body the inlet returns: "user" (with user info on), "tags" and
    * "metadata" as built, and "extra_body" holding the metadata. */
  function Added(addUserinfo: bool, debug: bool, user: Json, body: Dict, meta: Option<Dict>,
                 extraMetadata: string, extraTags: seq<Json>,
                 parse: string -> Option<Json>, show: Json -> string): (r: Result<Dict>)
    ensures r.Ok? <==> FinalMetadata(addUserinfo, debug, user, body, meta, extraMetadata, extraTags, parse, show).Ok?
  {
    match FinalMetadata(addUserinfo, debug, user, body, meta, extraMetadata, extraTags, parse, show)
    case Err(e) => Err(e)
    case Ok((md, t)) =>
      Ok(Returned(Named(addUserinfo, user, body, show), t, md))
  }

  /** The user step on the body: "metadata" is created when missing and,
    * with user info on, "user" set. */
  function Named(addUserinfo: bool, user: Json, body: Dict, show: Json -> string): (r: Dict)
    ensures Get(r, "user") == if addUserinfo && UserValue(user, show).Ok? then Some(Str(UserValue(user, show).value)) else Get(body, "user")
  {
    var b := if HasKey(body, "metadata") then body else Set(body, "metadata", Obj([]));
    if addUserinfo && UserValue(user, show).Ok? then Set(b, "user", Str(UserValue(user, show).value)) else b
  }

  /** The returned body once the metadata is final: the tags and the
    * metadata in place, and the metadata again under "extra_body". */
  function Returned(b: Dict, t: Json, md: Dict): (r: Dict)
    ensures Get(r, "tags") == Some(t) && Get(r, "metadata") == Some(Obj(md))
    ensures Get(r, "extra_body") == Some(Obj([("metadata", Obj(md))]))
    ensures Get(r, "user") == Get(b, "user")
  {
    Set(Set(Set(b, "tags", t), "metadata", Obj(md)), "extra_body", Obj([("metadata", Obj(md))]))
  }

  lemma CopyKeyDistinct(k: string)
    requires k in TagCopies
    ensures k !in StampKeys && k != AddMetadataV0.TraceKey && k != "tags"
  {
  }

  lemma StampKeyDistinct(k: string)
    requires k in StampKeys
    ensures k != AddMetadataV0.TraceKey
  {
  }

  /** A key the overrides leave alone ends as the stamping left it. */
  lemma FinalIsStamped(addUserinfo: bool, debug: bool, user: Json, body: Dict, meta: Option<Dict>,
                       extraMetadata: string, extraTags: seq<Json>, parse: string -> Option<Json>, show: Json -> string,
                       md4: Dict, k: string)
    requires FinalMetadata(addUserinfo, debug, user, body, meta, extraMetadata, extraTags, parse, show).Ok?
    requires FinalMetadata(addUserinfo, debug, user, body, meta, extraMetadata, extraTags, parse, show).value.0
             == Finished(md4, Overrides(MetaOf(meta), ExtraOf(extraMetadata, parse)))
    requires k != AddMetadataV0.TraceKey && !Overridden(meta, extraMetadata, parse, k)
    ensures Get(FinalMetadata(addUserinfo, debug, user, body, meta, extraMetadata, extraTags, parse, show).value.0, k) == Get(md4, k)
  {
  }

  /** The intermediate results of a successful inlet. */
  lemma Stages(addUserinfo: bool, debug: bool, user: Json, body: Dict, meta: Option<Dict>,
               extraMetadata: string, extraTags: seq<Json>, parse: string -> Option<Json>, show: Json -> string)
    returns (md1: Dict, md2: Dict, t: Json, md4: Dict, extra: Dict)
    requires FinalMetadata(addUserinfo, debug, user, body, meta, extraMetadata, extraTags, parse, show).Ok?
    ensures Prepared(addUserinfo, user, body, show) == Ok(md1)
    ensures TagsStep(md1, extraTags) == Ok(md2) && Get(md2, "tags") == Some(t)
    ensures StampStep(TagCopiesStep(md2, t), MetaOf(meta), body, debug) == Ok(md4)
    ensures AddMetadataV0.LoadJsonDict(extraMetadata, parse) == Ok(extra) && extra == ExtraOf(extraMetadata, parse)
    ensures FinalMetadata(addUserinfo, debug, user, body, meta, extraMetadata, extraTags, parse, show)
            == Ok((Finished(md4, Overrides(MetaOf(meta), extra)), t))
  {
    md1 := Prepared(addUserinfo, user, body, show).value;
    md2 := TagsStep(md1, extraTags).value;
    t := Get(md2, "tags").value;
    md4 := StampStep(TagCopiesStep(md2, t), MetaOf(meta), body, debug).value;
    extra := AddMetadataV0.LoadJsonDict(extraMetadata, parse).value;
  }

  /** The final metadata and the returned body agree: `body["metadata"]`
    * and `body["extra_body"]["metadata"]` are both the final metadata,
    * which holds its own snapshot under "trace_metadata". */
  lemma AddedExposesMetadata(addUserinfo: bool, debug: bool, user: Json, body: Dict, meta: Option<Dict>,
                             extraMetadata: string, extraTags: seq<Json>, parse: string -> Option<Json>, show: Json -> string)
    requires Added(addUserinfo, debug, user, body, meta, extraMetadata, extraTags, parse, show).Ok?
    ensures var r := Added(addUserinfo, debug, user, body, meta, extraMetadata, extraTags, parse, show).value;
            var md := FinalMetadata(addUserinfo, debug, user, body, meta, extraMetadata, extraTags, parse, show).value.0;
            && Get(r, "metadata") == Some(Obj(md))
            && Get(r, "extra_body") == Some(Obj([("metadata", Obj(md))]))
            && Get(r, "tags") == Some(FinalMetadata(addUserinfo, debug, user, body, meta, extraMetadata, extraTags, parse, show).value.1)
            && AddMetadataV0.Snapshot(md)
  {
    var md1, md2, t, md4, extra := Stages(addUserinfo, debug, user, body, meta, extraMetadata, extraTags, parse, show);
  }

  /** The extra-metadata valve as loaded (empty when it does not load). */
  function ExtraOf(extraMetadata: string, parse: string -> Option<Json>): Dict
  {
    var l := AddMetadataV0.LoadJsonDict(extraMetadata, parse);
    if l.Ok? then l.value else []
  }

  /** `k` is set by the overrides, from `__metadata__` or the valve. */
  predicate Overridden(meta: Option<Dict>, extraMetadata: string, parse: string -> Option<Json>, k: string)
  {
    HasKey(MetaOf(meta), k) || HasKey(ExtraOf(extraMetadata, parse), k)
  }

  /** `k` is written by none of the steps after the user step. */
  predicate UserOnly(k: string)
  {
    k != "tags" && k !in TagCopies && k != AddMetadataV0.TraceKey && k !in StampKeys
  }

  lemma UserKeysOnly()
    ensures UserOnly("trace_user_id") && UserOnly(UserinfoKey)
  {
  }

  /** `body["user"]` is the user value with user info on, and untouched
    * otherwise. */
  lemma AddedUserKey(addUserinfo: bool, debug: bool, user: Json, body: Dict, meta: Option<Dict>,
                     extraMetadata: string, extraTags: seq<Json>, parse: string -> Option<Json>, show: Json -> string)
    requires Added(addUserinfo, debug, user, body, meta, extraMetadata, extraTags, parse, show).Ok?
    ensures addUserinfo ==> UserValue(user, show).Ok?
    ensures Get(Added(addUserinfo, debug, user, body, meta, extraMetadata, extraTags, parse, show).value, "user")
            == if addUserinfo then Some(Str(UserValue(user, show).value)) else Get(body, "user")
  {
    var md1, md2, t, md4, extra := Stages(addUserinfo, debug, user, body, meta, extraMetadata, extraTags, parse, show);
  }

  /** A key only the user step writes reaches the end as that step wrote
    * it, unless it is overridden. */
  lemma FinalKeeps(addUserinfo: bool, debug: bool, user: Json, body: Dict, meta: Option<Dict>,
                   extraMetadata: string, extraTags: seq<Json>, parse: string -> Option<Json>, show: Json -> string, k: string)
    requires FinalMetadata(addUserinfo, debug, user, body, meta, extraMetadata, extraTags, parse, show).Ok?
    requires UserOnly(k)
    requires !Overridden(meta, extraMetadata, parse, k)
    ensures Get(FinalMetadata(addUserinfo, debug, user, body, meta, extraMetadata, extraTags, parse, show).value.0, k)
            == Get(Prepared(addUserinfo, user, body, show).value, k)
  {
    var md1, md2, t, md4, extra := Stages(addUserinfo, debug, user, body, meta, extraMetadata, extraTags, parse, show);
    StampedOther(TagCopiesStep(md2, t), Get(MetaOf(meta), "chat_id").value, LastHead(body).value,
                 Get(MetaOf(meta), "message_id").value, debug, k);
    TagCopiesOther(md2, t, k);
  }

  /** With user info on, `body["user"]` and the metadata's "trace_user_id"
    * are both "<name>_<email>", and "open-webui_userinfo" is the user
    * dict; the two metadata keys can be overridden by the
    * overrides. */
  lemma AddedNamesUser(debug: bool, user: Json, body: Dict, meta: Option<Dict>,
                       extraMetadata: string, extraTags: seq<Json>, parse: string -> Option<Json>, show: Json -> string)
    requires Added(true, debug, user, body, meta, extraMetadata, extraTags, parse, show).Ok?
    ensures UserValue(user, show).Ok?
    ensures Get(Added(true, debug, user, body, meta, extraMetadata, extraTags, parse, show).value, "user")
            == Some(Str(UserValue(user, show).value))
    ensures var md := FinalMetadata(true, debug, user, body, meta, extraMetadata, extraTags, parse, show).value.0;
            && (!Overridden(meta, extraMetadata, parse, "trace_user_id") ==> Get(md, "trace_user_id") == Some(Str(UserValue(user, show).value)))
            && (!Overridden(meta, extraMetadata, parse, UserinfoKey) ==> Get(md, UserinfoKey) == Some(user))
  {
    AddedUserKey(true, debug, user, body, meta, extraMetadata, extraTags, parse, show);
    UserKeysOnly();
    if !Overridden(meta, extraMetadata, parse, "trace_user_id") {
      FinalKeeps(true, debug, user, body, meta, extraMetadata, extraTags, parse, show, "trace_user_id");
    }
    if !Overridden(meta, extraMetadata, parse, UserinfoKey) {
      FinalKeeps(true, debug, user, body, meta, extraMetadata, extraTags, parse, show, UserinfoKey);
    }
  }

  /** The tags of the body's metadata before the inlet. */
  function BodyTags(body: Dict): seq<Json>
  {
    if HasKey(body, "metadata") && DictAt(body, "metadata").Some? then AddMetadataV0.ListAt(DictAt(body, "metadata").value, "tags") else []
  }

  lemma BodyTagsAt(md: Dict, body: Dict)
    requires HasKey(body, "metadata") ==> DictAt(body, "metadata").Some?
    requires Get(md, "tags") == if HasKey(body, "metadata") then Get(DictAt(body, "metadata").value, "tags") else None
    ensures AddMetadataV0.ListAt(md, "tags") == BodyTags(body)
  {
  }

  /** With extra tags, `body["tags"]` is a duplicate-free list holding
    * exactly the old metadata tags and the extra tags; without, it is the
    * old metadata tags as they were. */
  lemma AddedTags(addUserinfo: bool, debug: bool, user: Json, body: Dict, meta: Option<Dict>,
                  extraMetadata: string, extraTags: seq<Json>, parse: string -> Option<Json>, show: Json -> string)
    requires Added(addUserinfo, debug, user, body, meta, extraMetadata, extraTags, parse, show).Ok?
    ensures var t := FinalMetadata(addUserinfo, debug, user, body, meta, extraMetadata, extraTags, parse, show).value.1;
            && (extraTags != [] ==> t.Arr? && Distinct(t.items) && forall x :: x in t.items <==> x in BodyTags(body) + extraTags)
            && (extraTags == [] ==> HasKey(body, "metadata") && Some(t) == Get(DictAt(body, "metadata").value, "tags"))
  {
    var md1, md2, t, md4, extra := Stages(addUserinfo, debug, user, body, meta, extraMetadata, extraTags, parse, show);
    BodyTagsAt(md1, body);
  }

  /** The tag list is copied under "trace_tags", "update_trace_tags",
    * "existing_trace_tags" and "existing_tags", unless overridden. */
  lemma AddedCopiesTags(addUserinfo: bool, debug: bool, user: Json, body: Dict, meta: Option<Dict>,
                        extraMetadata: string, extraTags: seq<Json>, parse: string -> Option<Json>, show: Json -> string, k: string)
    requires Added(addUserinfo, debug, user, body, meta, extraMetadata, extraTags, parse, show).Ok?
    requires k in TagCopies && !Overridden(meta, extraMetadata, parse, k)
    ensures var f := FinalMetadata(addUserinfo, debug, user, body, meta, extraMetadata, extraTags, parse, show).value;
            Get(f.0, k) == Some(f.1)
  {
    var md1, md2, t, md4, extra := Stages(addUserinfo, debug, user, body, meta, extraMetadata, extraTags, parse, show);
    CopyKeyDistinct(k);
    TagCopiesAt(md2, t, k);
    StampedOther(TagCopiesStep(md2, t), Get(MetaOf(meta), "chat_id").value, LastHead(body).value,
                 Get(MetaOf(meta), "message_id").value, debug, k);
    FinalIsStamped(addUserinfo, debug, user, body, meta, extraMetadata, extraTags, parse, show, md4, k);
  }

  /** "session_id" is the chat id and "generation_id" the message id of
    * `__metadata__`, "generation_name" and "trace_name" the head of the
    * last message, "version" the filter's version, unless overridden. */
  lemma AddedStamps(addUserinfo: bool, debug: bool, user: Json, body: Dict, meta: Option<Dict>,
                    extraMetadata: string, extraTags: seq<Json>, parse: string -> Option<Json>, show: Json -> string)
    requires Added(addUserinfo, debug, user, body, meta, extraMetadata, extraTags, parse, show).Ok?
    ensures meta.Some? && LastHead(body).Ok?
    ensures var md := FinalMetadata(addUserinfo, debug, user, body, meta, extraMetadata, extraTags, parse, show).value.0;
            && (!Overridden(meta, extraMetadata, parse, "session_id") ==> Get(md, "session_id") == Get(meta.value, "chat_id"))
            && (!Overridden(meta, extraMetadata, parse, "generation_id") ==> Get(md, "generation_id") == Get(meta.value, "message_id"))
            && (!Overridden(meta, extraMetadata, parse, "generation_name") ==> Get(md, "generation_name") == Some(LastHead(body).value))
            && (!Overridden(meta, extraMetadata, parse, "trace_name") ==> Get(md, "trace_name") == Some(LastHead(body).value))
            && (!Overridden(meta, extraMetadata, parse, "version") ==> Get(md, "version") == Some(Str(Version)))
            && (debug && !Overridden(meta, extraMetadata, parse, "debug_langfuse") ==> Get(md, "debug_langfuse") == Some(Bool(true)))
  {
    var md1, md2, t, md4, extra := Stages(addUserinfo, debug, user, body, meta, extraMetadata, extraTags, parse, show);
    var overrides := Overrides(MetaOf(meta), extra);
    assert HasKey(MetaOf(meta), "chat_id");
    StampsKept(TagCopiesStep(md2, t), MetaOf(meta), body, debug, overrides);
    assert forall k :: HasKey(overrides, k) <==> Overridden(meta, extraMetadata, parse, k);
  }

  /** The stamps survive the overrides and the snapshot wherever these
    * do not name them. */
  lemma StampsKept(md: Dict, meta: Dict, body: Dict, debug: bool, overrides: Dict)
    requires StampStep(md, meta, body, debug).Ok?
    ensures var r := Finished(StampStep(md, meta, body, debug).value, overrides);
            && (!HasKey(overrides, "session_id") ==> Get(r, "session_id") == Get(meta, "chat_id"))
            && (!HasKey(overrides, "generation_id") ==> Get(r, "generation_id") == Get(meta, "message_id"))
            && (!HasKey(overrides, "generation_name") ==> Get(r, "generation_name") == Some(LastHead(body).value))
            && (!HasKey(overrides, "trace_name") ==> Get(r, "trace_name") == Some(LastHead(body).value))
            && (!HasKey(overrides, "version") ==> Get(r, "version") == Some(Str(Version)))
            && (debug && !HasKey(overrides, "debug_langfuse") ==> Get(r, "debug_langfuse") == Some(Bool(true)))
  {
    StampedSet(md, Get(meta, "chat_id").value, LastHead(body).value, Get(meta, "message_id").value, debug);
    forall k | k in StampKeys ensures k != AddMetadataV0.TraceKey {
      StampKeyDistinct(k);
    }
  }

  /** A key of the valve ends with the valve's value, any other
    * key of `__metadata__` with that value (keys of a dict are
    * distinct). */
  lemma AddedOverrides(addUserinfo: bool, debug: bool, user: Json, body: Dict, meta: Option<Dict>,
                       extraMetadata: string, extraTags: seq<Json>, parse: string -> Option<Json>, show: Json -> string, k: string)
    requires Added(addUserinfo, debug, user, body, meta, extraMetadata, extraTags, parse, show).Ok?
    requires UniqueKeys(MetaOf(meta)) && UniqueKeys(ExtraOf(extraMetadata, parse))
    requires Overridden(meta, extraMetadata, parse, k) && k != AddMetadataV0.TraceKey
    ensures Get(FinalMetadata(addUserinfo, debug, user, body, meta, extraMetadata, extraTags, parse, show).value.0, k)
            == if HasKey(ExtraOf(extraMetadata, parse), k) then Get(ExtraOf(extraMetadata, parse), k) else Get(MetaOf(meta), k)
  {
    var md1, md2, t, md4, extra := Stages(addUserinfo, debug, user, body, meta, extraMetadata, extraTags, parse, show);
  }

  /** Reading the tags back raises when no tags exist anywhere: a body without
    * metadata and an empty tag valve. */
  lemma MissingTagsFail(addUserinfo: bool, debug: bool, user: Json, body: Dict, meta: Option<Dict>,
                        extraMetadata: string, parse: string -> Option<Json>, show: Json -> string)
    requires addUserinfo ==> UserValue(user, show).Ok?
    requires !HasKey(body, "metadata")
    ensures Added(addUserinfo, debug, user, body, meta, extraMetadata, [], parse, show) == Err(KeyError("tags"))
  {
    var md1 := Prepared(addUserinfo, user, body, show).value;
    assert Get(md1, "tags") == None;
  }

  /** Stamping raises without `__metadata__` (it defaults to an empty dict)
    * once the user and tag steps went through. */
  lemma MissingChatIdFails(addUserinfo: bool, debug: bool, user: Json, body: Dict,
                           extraMetadata: string, extraTags: seq<Json>, parse: string -> Option<Json>, show: Json -> string)
    requires Prepared(addUserinfo, user, body, show).Ok?
    requires Tagged(Prepared(addUserinfo, user, body, show).value, extraTags).Ok?
    ensures Added(addUserinfo, debug, user, body, None, extraMetadata, extraTags, parse, show) == Err(KeyError("chat_id"))
  {
  }

  /** `on_valves_updated`: only the extra-metadata valve is
    * loaded, and it raises when that does not load. */
  function OnValvesUpdated(extraMetadata: string, parse: string -> Option<Json>): (r: Option<Exc>)
    ensures r.None? <==> AddMetadataV0.LoadJsonDict(extraMetadata, parse).Ok?
    ensures r.Some? ==> r.value == AddMetadataV0.LoadJsonDict(extraMetadata, parse).error
  {
    match AddMetadataV0.LoadJsonDict(extraMetadata, parse)
    case Err(e) => Some(e)
    case Ok(_) => None
  }

  /** A valve the update hook accepted never makes the inlet fail: it then
    * fails exactly when one of the steps before the overrides does, and a
    * successful inlet had an acceptable valve. */
  lemma ValveAcceptedInlet(addUserinfo: bool, debug: bool, user: Json, body: Dict, meta: Option<Dict>,
                           extraMetadata: string, extraTags: seq<Json>, parse: string -> Option<Json>, show: Json -> string)
    ensures Added(addUserinfo, debug, user, body, meta, extraMetadata, extraTags, parse, show).Ok? ==>
              OnValvesUpdated(extraMetadata, parse).None?
    ensures OnValvesUpdated(extraMetadata, parse).None? ==>
              (Added(addUserinfo, debug, user, body, meta, extraMetadata, extraTags, parse, show).Ok? <==>
                 && Prepared(addUserinfo, user, body, show).Ok?
                 && Tagged(Prepared(addUserinfo, user, body, show).value, extraTags).Ok?
                 && StampStep(Tagged(Prepared(addUserinfo, user, body, show).value, extraTags).value.0, MetaOf(meta), body, debug).Ok?)
  {
  }

  /** The user step in place: `body["metadata"]` is created when missing,
    * then `body["user"]` and two metadata keys are written with user info
    * on. The new body and the metadata dict it holds are returned apart,
    * since the later steps keep writing into that dict. */
  method PrepareBody(addUserinfo: bool, user: Json, body: Dict, show: Json -> string) returns (b: Dict, md: Result<Dict>)
    ensures md == Prepared(addUserinfo, user, body, show)
    ensures md.Ok? ==> b == Named(addUserinfo, user, body, show)
  {
    b := body;
    if !HasKey(b, "metadata") {
      b := Set(b, "metadata", Obj([]));
    }
    var m := Get(b, "metadata").value;
    if addUserinfo {
      var u := UserValue(user, show);
      if u.Err? {
        return b, Err(u.error);
      }
      b := Set(b, "user", Str(u.value));
      if !m.Obj? {
        return b, Err(TypeError);
      }
      var fields := Set(m.fields, UserinfoKey, user);
      fields := Set(fields, "trace_user_id", Str(u.value));
      md := Ok(fields);
    } else if !m.Obj? {
      md := Err(TypeError);
    } else {
      md := Ok(m.fields);
    }
  }

  /** The tag step on the metadata dict: tags merged and deduplicated,
    * read back, and copied. */
  method TagMetadata(md: Dict, extraTags: seq<Json>) returns (r: Result<(Dict, Json)>)
    ensures r == Tagged(md, extraTags)
  {
    var fields := md;
    if extraTags != [] {
      var all := extraTags;
      if HasKey(fields, "tags") {
        var prev := Get(fields, "tags").value;
        if !prev.Arr? {
          return Err(TypeError);
        }
        all := prev.items + all;
      } else {
        assert [] + all == all;
      }
      assert all == AddMetadataV0.ListAt(md, "tags") + extraTags;
      if !forall x :: x in all ==> Hashable(x) {
        return Err(TypeError);
      }
      fields := Set(fields, "tags", Arr(Dedup(all)));
    }
    assert TagsStep(md, extraTags) == Ok(fields);
    if !HasKey(fields, "tags") {
      return Err(KeyError("tags"));
    }
    var t := Get(fields, "tags").value;
    fields := TagCopiesStep(fields, t);
    return Ok((fields, t));
  }

  /** Each right-hand side is evaluated in turn, so the
    * first missing value stops the stamping. */
  method StampMetadata(md: Dict, meta: Dict, body: Dict, debug: bool) returns (r: Result<Dict>)
    ensures r == StampStep(md, meta, body, debug)
  {
    if !HasKey(meta, "chat_id") {
      return Err(KeyError("chat_id"));
    }
    var chat := Get(meta, "chat_id").value;
    var head := LastHead(body);
    if head.Err? {
      return Err(head.error);
    }
    if !HasKey(meta, "message_id") {
      return Err(KeyError("message_id"));
    }
    var msg := Get(meta, "message_id").value;
    r := Ok(Stamped(md, chat, head.value, msg, debug));
  }

  /** `__metadata__` copied and updated by the valve, merged
    * into the metadata when not empty, and the snapshot taken. */
  method FinishMetadata(md: Dict, meta: Dict, extraMetadata: string, parse: string -> Option<Json>) returns (r: Result<Dict>)
    ensures AddMetadataV0.LoadJsonDict(extraMetadata, parse).Err? ==> r == Err(AddMetadataV0.LoadJsonDict(extraMetadata, parse).error)
    ensures AddMetadataV0.LoadJsonDict(extraMetadata, parse).Ok? ==>
              r == Ok(Finished(md, Overrides(meta, AddMetadataV0.LoadJsonDict(extraMetadata, parse).value)))
  {
    var extra := AddMetadataV0.LoadJsonDict(extraMetadata, parse);
    if extra.Err? {
      return Err(extra.error);
    }
    var overrides := Update(meta, extra.value);
    var fields := md;
    if overrides != [] {
      fields := Update(fields, overrides);
    }
    fields := Set(fields, AddMetadataV0.TraceKey, Obj(fields));
    return Ok(fields);
  }

  /** The stages in order on the body and its metadata
    * dict; the first exception stops the inlet. */
  method BuildMetadata(addUserinfo: bool, debug: bool, user: Json, body: Dict, meta: Option<Dict>,
                       extraMetadata: string, extraTags: seq<Json>,
                       parse: string -> Option<Json>, show: Json -> string) returns (b: Dict, r: Result<(Dict, Json)>)
    ensures r == FinalMetadata(addUserinfo, debug, user, body, meta, extraMetadata, extraTags, parse, show)
    ensures r.Ok? ==> b == Named(addUserinfo, user, body, show)
  {
    var m := if meta.Some? then meta.value else [];
    assert m == MetaOf(meta);
    var md1;
    b, md1 := PrepareBody(addUserinfo, user, body, show);
    if md1.Err? {
      return b, Err(md1.error);
    }
    var tagged := TagMetadata(md1.value, extraTags);
    if tagged.Err? {
      return b, Err(tagged.error);
    }
    var (md3, t) := tagged.value;
    var md4 := StampMetadata(md3, m, body, debug);
    if md4.Err? {
      return b, Err(md4.error);
    }
    var md5 := FinishMetadata(md4.value, m, extraMetadata, parse);
    if md5.Err? {
      return b, Err(md5.error);
    }
    return b, Ok((md5.value, t));
  }

  /** `inlet`: the metadata built, written back into the body, which also
    * gets the tag list and `extra_body`. */
  method Inlet(addUserinfo: bool, debug: bool, user: Json, body: Dict, meta: Option<Dict>,
               extraMetadata: string, extraTags: seq<Json>,
               parse: string -> Option<Json>, show: Json -> string) returns (r: Result<Dict>)
    ensures r == Added(addUserinfo, debug, user, body, meta, extraMetadata, extraTags, parse, show)
  {
    var b, built := BuildMetadata(addUserinfo, debug, user, body, meta, extraMetadata, extraTags, parse, show);
    if built.Err? {
      return Err(built.error);
    }
    b := ExposeMetadata(b, built.value.1, built.value.0);
    return Ok(b);
  }

  /** The returned body, with the metadata dict written back into the
    * body (in Python the body holds that very dict). */
  method ExposeMetadata(body: Dict, t: Json, md: Dict) returns (b: Dict)
    ensures b == Returned(body, t, md)
  {
    b := Set(body, "tags", t);
    b := Set(b, "metadata", Obj(md));
    b := Set(b, "extra_body", Obj([("metadata", Obj(md))]));
  }
}
