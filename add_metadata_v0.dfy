/** The first "AddMetadata" filter (filters/add_metadata/add_metadata.py).
  *
  * Its inlet names the user in the request body, records the user dict in
  * `body["metadata"]`, merges the `extra_metadata` valve (a JSON dict) into
  * the metadata, appends the `extra_tags` valve (a JSON list of strings) to
  * `body["tags"]`, and finally stores a copy of the metadata under its
  * "trace_metadata" key. `json.loads` is the parameter `parse` (`None` for
  * text it refuses) and Python's `str` of a value the parameter `show`.
  */
module AddMetadataV0 {

  import opened Wrappers
  import opened Text
  import opened Json

  const UserKey: string := "open-webui_user"
  const TraceKey: string := "trace_metadata"

  function NotDictMsg(v: Json): string
  {
    "json is not a dict but '" + TypeName(v) + "'"
  }

  function NotListMsg(v: Json): string
  {
    "json is not a list but '" + TypeName(v) + "'"
  }

  function NonStringsMsg(v: Json, show: Json -> string): string
  {
    "List contained non strings elements: '" + show(v) + "'"
  }

  /** `load_json_dict`: a blank valve is the empty dict; otherwise the
    * stripped text must parse to a dict. */
  function LoadJsonDict(value: string, parse: string -> Option<Json>): (r: Result<Dict>)
    ensures AllSpace(value) ==> r == Ok([])
    ensures !AllSpace(value) ==> (r.Ok? <==> parse(Strip(value)).Some? && parse(Strip(value)).value.Obj?)
    ensures !AllSpace(value) && r.Ok? ==> parse(Strip(value)) == Some(Obj(r.value))
    ensures !AllSpace(value) && r.Err? ==>
              r.error == (if parse(Strip(value)).None? then DecodeError else AssertionError(NotDictMsg(parse(Strip(value)).value)))
  {
    var text := Strip(value);
    if text == "" then Ok([])
    else
      match parse(text)
      case None => Err(DecodeError)
      case Some(Obj(d)) => Ok(d)
      case Some(v) => Err(AssertionError(NotDictMsg(v)))
  }

  /** `load_json_list`: a blank valve is the empty list; otherwise the
    * stripped text must parse to a list of strings. */
  function LoadJsonList(value: string, parse: string -> Option<Json>, show: Json -> string): (r: Result<seq<Json>>)
    ensures AllSpace(value) ==> r == Ok([])
    ensures !AllSpace(value) ==> (r.Ok? <==> parse(Strip(value)).Some? && parse(Strip(value)).value.Arr?
                                             && AllStr(parse(Strip(value)).value.items))
    ensures !AllSpace(value) && r.Ok? ==> parse(Strip(value)) == Some(Arr(r.value))
    ensures r.Ok? ==> AllStr(r.value)
    ensures !AllSpace(value) && r.Err? && parse(Strip(value)).Some? ==>
              r.error == AssertionError(if parse(Strip(value)).value.Arr? then NonStringsMsg(parse(Strip(value)).value, show)
                                        else NotListMsg(parse(Strip(value)).value))
  {
    var text := Strip(value);
    if text == "" then Ok([])
    else
      match parse(text)
      case None => Err(DecodeError)
      case Some(Arr(items)) =>
        if AllStr(items) then Ok(items) else Err(AssertionError(NonStringsMsg(Arr(items), show)))
      case Some(v) => Err(AssertionError(NotListMsg(v)))
  }

  /** The value an extra entry `extra` leaves under a key that already
    * holds `prev`: two lists are concatenated, a scalar is appended to a list, a
    * scalar is put in front of a list, and of two scalars the old one is
    * kept. */
  function Combined(prev: Json, extra: Json): (r: Json)
    ensures !prev.Arr? && !extra.Arr? ==> r == prev
    ensures prev.Arr? || extra.Arr? ==>
              && r.Arr?
              && r.items == (if prev.Arr? then prev.items else [prev]) + (if extra.Arr? then extra.items else [extra])
  {
    if extra.Arr? && prev.Arr? then Arr(prev.items + extra.items)
    else if prev.Arr? then Arr(prev.items + [extra])
    else if extra.Arr? then Arr([prev] + extra.items)
    else prev
  }

  /** One step of the merge loop: a new key is set, an existing one
    * combined. */
  function MergeEntry(cur: Dict, k: string, v: Json): (r: Dict)
    ensures Get(r, k) == Some(if HasKey(cur, k) then Combined(Get(cur, k).value, v) else v)
    ensures forall k' :: k' != k ==> Get(r, k') == Get(cur, k')
  {
    if HasKey(cur, k) then Set(cur, k, Combined(Get(cur, k).value, v)) else Set(cur, k, v)
  }

  /** The metadata after the loop over the extra entries. */
  function Merged(cur: Dict, extra: Dict): (r: Dict)
    decreases |extra|
  {
    if extra == [] then cur else Merged(MergeEntry(cur, extra[0].0, extra[0].1), extra[1..])
  }

  /** Keys absent from the extra metadata are untouched. */
  lemma {:induction false} MergedOther(cur: Dict, extra: Dict, k: string)
    requires !HasKey(extra, k)
    ensures Get(Merged(cur, extra), k) == Get(cur, k)
    decreases |extra|
  {
    if extra != [] {
      assert Keys(extra)[0] == extra[0].0;
      GetTail(extra, k);
      MergedOther(MergeEntry(cur, extra[0].0, extra[0].1), extra[1..], k);
    }
  }

  /** Once set, a key stays. */
  lemma {:induction false} MergedKeeps(cur: Dict, extra: Dict, k: string)
    requires HasKey(cur, k)
    ensures HasKey(Merged(cur, extra), k)
    decreases |extra|
  {
    if extra != [] {
      assert Get(MergeEntry(cur, extra[0].0, extra[0].1), k).Some?;
      MergedKeeps(MergeEntry(cur, extra[0].0, extra[0].1), extra[1..], k);
    }
  }

  /** Every extra key ends up in the metadata, and a key the metadata did
    * not hold gets exactly the extra value (keys of a parsed dict are
    * distinct). */
  lemma {:induction false} MergedHasExtra(cur: Dict, extra: Dict, k: string)
    requires HasKey(extra, k)
    ensures HasKey(Merged(cur, extra), k)
    ensures UniqueKeys(extra) && !HasKey(cur, k) ==> Get(Merged(cur, extra), k) == Get(extra, k)
    decreases |extra|
  {
    var next := MergeEntry(cur, extra[0].0, extra[0].1);
    if k == extra[0].0 {
      MergedFirstKey(cur, extra);
    } else {
      GetTail(extra, k);
      UniqueTail(extra);
      MergeEntryOther(cur, extra[0].0, extra[0].1, k);
      MergedHasExtra(next, extra[1..], k);
    }
  }

  /** `MergedHasExtra` for the first extra key. */
  lemma MergedFirstKey(cur: Dict, extra: Dict)
    requires extra != []
    ensures HasKey(Merged(cur, extra), extra[0].0)
    ensures UniqueKeys(extra) && !HasKey(cur, extra[0].0) ==> Get(Merged(cur, extra), extra[0].0) == Get(extra, extra[0].0)
  {
    var k := extra[0].0;
    var next := MergeEntry(cur, k, extra[0].1);
    assert Get(next, k).Some?;
    MergedKeeps(next, extra[1..], k);
    if UniqueKeys(extra) && !HasKey(cur, k) {
      assert Get(next, k) == Some(extra[0].1);
      assert Get(extra, k) == Some(extra[0].1);
      assert !HasKey(extra[1..], k);
      MergedOther(next, extra[1..], k);
    }
  }

  /** The entries after the first of a dict without repeated keys have none
    * either. */
  lemma UniqueTail(d: Dict)
    requires d != []
    ensures UniqueKeys(d) ==> UniqueKeys(d[1..])
  {
    if UniqueKeys(d) {
      forall i, j | 0 <= i < j < |d[1..]| ensures d[1..][i].0 != d[1..][j].0 {
        assert d[1..][i] == d[i + 1] && d[1..][j] == d[j + 1];
      }
    }
  }

  /** Merging one entry leaves the other keys alone. */
  lemma MergeEntryOther(cur: Dict, k0: string, v: Json, k: string)
    requires k != k0
    ensures Get(MergeEntry(cur, k0, v), k) == Get(cur, k)
  {
  }

  /** The merge loop `for k, v in metadata.items(): ...` on
    * `body["metadata"]`. */
  method MergeMetadata(cur: Dict, extra: Dict) returns (r: Dict)
    ensures r == Merged(cur, extra)
  {
    r := cur;
    var i := 0;
    while i < |extra|
      invariant 0 <= i <= |extra|
      invariant Merged(r, extra[i..]) == Merged(cur, extra)
    {
      assert extra[i..][1..] == extra[i + 1..];
      var (k, v) := extra[i];
      ghost var next := MergeEntry(r, k, v);
      if HasKey(r, k) {
        var prev := Get(r, k).value;
        if v.Arr? && prev.Arr? {
          r := Set(r, k, Arr(prev.items + v.items));
        } else if prev.Arr? {
          r := Set(r, k, Arr(prev.items + [v]));
        } else if v.Arr? {
          r := Set(r, k, Arr([prev] + v.items));
        } else {
          SetSame(r, k, prev);
        }
      } else {
        r := Set(r, k, v);
      }
      assert r == next;
      i := i + 1;
    }
    assert extra[|extra|..] == [];
  }

  /** The user's name becomes `body["user"]` and the user dict
    * goes into the metadata, which is created when missing. */
  function UserStep(body: Dict, user: Json): (r: Result<Dict>)
    ensures r.Ok? <==> Index(user, "name").Ok? && (HasKey(body, "metadata") ==> DictAt(body, "metadata").Some?)
    ensures r.Err? && Index(user, "name").Ok? ==> r.error == TypeError
    ensures r.Err? && Index(user, "name").Err? ==> r.error == Index(user, "name").error
    ensures r.Ok? ==> Get(r.value, "user") == Some(Index(user, "name").value) && Get(r.value, "tags") == Get(body, "tags")
    ensures r.Ok? ==> DictAt(r.value, "metadata").Some? && Get(DictAt(r.value, "metadata").value, UserKey) == Some(user)
  {
    match Index(user, "name")
    case Err(e) => Err(e)
    case Ok(name) =>
      var b := Set(body, "user", name);
      assert Get(b, "tags") == Get(body, "tags") && Get(b, "metadata") == Get(body, "metadata");
      if !HasKey(b, "metadata") then
        Ok(Set(b, "metadata", Obj([(UserKey, user)])))
      else
        match DictAt(b, "metadata")
        case None => Err(TypeError)
        case Some(m) => Ok(Set(b, "metadata", Obj(Set(m, UserKey, user))))
  }

  /** A non-empty extra dict is merged into the metadata, or
    * becomes the metadata when there is none. */
  function MetadataStep(body: Dict, extra: Dict): (r: Result<Dict>)
    ensures r.Err? <==> extra != [] && HasKey(body, "metadata") && DictAt(body, "metadata").None?
    ensures r.Err? ==> r.error == TypeError
    ensures extra == [] ==> r == Ok(body)
    ensures r.Ok? ==> Get(r.value, "tags") == Get(body, "tags") && Get(r.value, "user") == Get(body, "user")
    ensures r.Ok? && extra != [] && !HasKey(body, "metadata") ==> DictAt(r.value, "metadata") == Some(extra)
    ensures r.Ok? && extra != [] && HasKey(body, "metadata") ==>
              DictAt(r.value, "metadata") == Some(Merged(DictAt(body, "metadata").value, extra))
  {
    if extra == [] then Ok(body)
    else if !HasKey(body, "metadata") then Ok(Set(body, "metadata", Obj(extra)))
    else
      match DictAt(body, "metadata")
      case None => Err(TypeError)
      case Some(m) => Ok(Set(body, "metadata", Obj(Merged(m, extra))))
  }

  /** The extra tags are appended to `body["tags"]`, which
    * `+=` requires to be a list. */
  function TagsStep(body: Dict, tags: seq<Json>): (r: Result<Dict>)
    ensures r.Err? <==> tags != [] && HasKey(body, "tags") && !Get(body, "tags").value.Arr?
    ensures r.Err? ==> r.error == TypeError
    ensures tags == [] ==> r == Ok(body)
    ensures r.Ok? ==> Get(r.value, "metadata") == Get(body, "metadata") && Get(r.value, "user") == Get(body, "user")
    ensures r.Ok? && tags != [] ==>
              Get(r.value, "tags") == Some(Arr(ListAt(body, "tags") + tags))
  {
    if tags == [] then Ok(body)
    else if !HasKey(body, "tags") then
      assert [] + tags == tags;
      Ok(Set(body, "tags", Arr(tags)))
    else
      var prev := Get(body, "tags").value;
      if !prev.Arr? then Err(TypeError) else Ok(Set(body, "tags", Arr(prev.items + tags)))
  }

  /** The items of the list under `k`, none when it is missing. */
  function ListAt(d: Dict, k: string): seq<Json>
  {
    if Get(d, k).Some? && Get(d, k).value.Arr? then Get(d, k).value.items else []
  }

  /** `md` holds under "trace_metadata" a copy of all its other entries,
    * as they were when the copy was taken. */
  ghost predicate Snapshot(md: Dict)
  {
    DictAt(md, TraceKey).Some? && forall k :: k != TraceKey ==> Get(md, k) == Get(DictAt(md, TraceKey).value, k)
  }

  /** `body["metadata"]["trace_metadata"] = body["metadata"].copy()`. */
  function SnapshotStep(body: Dict): (r: Result<Dict>)
    ensures r.Ok? <==> DictAt(body, "metadata").Some?
    ensures !HasKey(body, "metadata") ==> r == Err(KeyError("metadata"))
    ensures HasKey(body, "metadata") && r.Err? ==>
              r.error == (if Get(body, "metadata").value.Arr? then TypeError else AttributeError)
    ensures r.Ok? ==> Get(r.value, "user") == Get(body, "user") && Get(r.value, "tags") == Get(body, "tags")
    ensures r.Ok? ==> && DictAt(r.value, "metadata").Some? && Snapshot(DictAt(r.value, "metadata").value)
                      && (forall k :: k != TraceKey ==> Get(DictAt(r.value, "metadata").value, k) == Get(DictAt(body, "metadata").value, k))
  {
    if !HasKey(body, "metadata") then Err(KeyError("metadata"))
    else
      match Get(body, "metadata").value
      case Obj(m) => Ok(Set(body, "metadata", Obj(Set(m, TraceKey, Obj(m)))))
      case Arr(_) => Err(TypeError)
      case _ => Err(AttributeError)
  }

  /** The inlet's result: the four steps in order, the valves loaded in
    * between; the first exception stops it. */
  function Added(addUserinfo: bool, user: Json, body: Dict, extraMetadata: string, extraTags: string,
                 parse: string -> Option<Json>, show: Json -> string): Result<Dict>
  {
    var named := if addUserinfo then UserStep(body, user) else Ok(body);
    if named.Err? then named
    else
      match LoadJsonDict(extraMetadata, parse)
      case Err(e) => Err(e)
      case Ok(extra) =>
        match MetadataStep(named.value, extra)
        case Err(e) => Err(e)
        case Ok(merged) =>
          match LoadJsonList(extraTags, parse, show)
          case Err(e) => Err(e)
          case Ok(tags) =>
            match TagsStep(merged, tags)
            case Err(e) => Err(e)
            case Ok(tagged) => SnapshotStep(tagged)
  }

  /** `on_valves_updated`: both valves are loaded, and the first one that
    * does not load raises. */
  function ValvesUpdated(extraMetadata: string, extraTags: string, parse: string -> Option<Json>, show: Json -> string): (r: Option<Exc>)
    ensures r.None? <==> LoadJsonDict(extraMetadata, parse).Ok? && LoadJsonList(extraTags, parse, show).Ok?
    ensures LoadJsonDict(extraMetadata, parse).Err? ==> r == Some(LoadJsonDict(extraMetadata, parse).error)
  {
    match LoadJsonDict(extraMetadata, parse)
    case Err(e) => Some(e)
    case Ok(_) =>
      match LoadJsonList(extraTags, parse, show)
      case Err(e) => Some(e)
      case Ok(_) => None
  }

  /** Valves the update hook accepted never make the inlet fail: it then
    * succeeds exactly when the user has a name (with user info on), the
    * metadata is a dict (or is created) and the tags are a list (or can
    * be created), taking the valves themselves into account. Every
    * successful inlet had acceptable valves. */
  lemma ValvesAcceptedInlet(addUserinfo: bool, user: Json, body: Dict, extraMetadata: string, extraTags: string,
                            parse: string -> Option<Json>, show: Json -> string)
    ensures Added(addUserinfo, user, body, extraMetadata, extraTags, parse, show).Ok? ==>
              ValvesUpdated(extraMetadata, extraTags, parse, show).None?
    ensures ValvesUpdated(extraMetadata, extraTags, parse, show).None? && (addUserinfo ==> Index(user, "name").Ok?)
            && DictAt(body, "metadata").Some? && (HasKey(body, "tags") ==> Get(body, "tags").value.Arr?) ==>
              Added(addUserinfo, user, body, extraMetadata, extraTags, parse, show).Ok?
  {
    AddedNeedsValves(addUserinfo, user, body, extraMetadata, extraTags, parse, show);
    if ValvesUpdated(extraMetadata, extraTags, parse, show).None? && (addUserinfo ==> Index(user, "name").Ok?)
       && DictAt(body, "metadata").Some? && (HasKey(body, "tags") ==> Get(body, "tags").value.Arr?) {
      AcceptedValvesSuffice(addUserinfo, user, body, extraMetadata, extraTags, parse, show);
    }
  }

  /** The first half of `ValvesAcceptedInlet`: an inlet that succeeded
    * loaded both valves. */
  lemma AddedNeedsValves(addUserinfo: bool, user: Json, body: Dict, extraMetadata: string, extraTags: string,
                         parse: string -> Option<Json>, show: Json -> string)
    ensures Added(addUserinfo, user, body, extraMetadata, extraTags, parse, show).Ok? ==>
              LoadJsonDict(extraMetadata, parse).Ok? && LoadJsonList(extraTags, parse, show).Ok?
  {
  }

  /** The second half of `ValvesAcceptedInlet`, step by step. */
  lemma AcceptedValvesSuffice(addUserinfo: bool, user: Json, body: Dict, extraMetadata: string, extraTags: string,
                              parse: string -> Option<Json>, show: Json -> string)
    requires ValvesUpdated(extraMetadata, extraTags, parse, show).None? && (addUserinfo ==> Index(user, "name").Ok?)
    requires DictAt(body, "metadata").Some? && (HasKey(body, "tags") ==> Get(body, "tags").value.Arr?)
    ensures Added(addUserinfo, user, body, extraMetadata, extraTags, parse, show).Ok?
  {
    var named := if addUserinfo then UserStep(body, user).value else body;
    assert Get(named, "tags") == Get(body, "tags");
    assert DictAt(named, "metadata").Some?;
    var merged := MetadataStep(named, LoadJsonDict(extraMetadata, parse).value).value;
    assert DictAt(merged, "metadata").Some?;
    var tagged := TagsStep(merged, LoadJsonList(extraTags, parse, show).value);
    assert tagged.Ok?;
  }

  /** `inlet`. */
  method Inlet(addUserinfo: bool, user: Json, body: Dict, extraMetadata: string, extraTags: string,
               parse: string -> Option<Json>, show: Json -> string) returns (r: Result<Dict>)
    ensures r == Added(addUserinfo, user, body, extraMetadata, extraTags, parse, show)
  {
    var b := body;
    if addUserinfo {
      var name := Index(user, "name");
      if name.Err? {
        return Err(name.error);
      }
      b := Set(b, "user", name.value);
      if HasKey(b, "metadata") {
        var m := Get(b, "metadata").value;
        if !m.Obj? {
          return Err(TypeError);
        }
        b := Set(b, "metadata", Obj(Set(m.fields, UserKey, user)));
      } else {
        b := Set(b, "metadata", Obj([(UserKey, user)]));
      }
      assert b == UserStep(body, user).value;
    }
    ghost var named := b;
    var extra := LoadJsonDict(extraMetadata, parse);
    if extra.Err? {
      return Err(extra.error);
    }
    if extra.value != [] {
      if HasKey(b, "metadata") {
        var m := Get(b, "metadata").value;
        if !m.Obj? {
          return Err(TypeError);
        }
        var merged := MergeMetadata(m.fields, extra.value);
        b := Set(b, "metadata", Obj(merged));
      } else {
        b := Set(b, "metadata", Obj(extra.value));
      }
    }
    assert b == MetadataStep(named, extra.value).value;
    ghost var merged := b;
    var tags := LoadJsonList(extraTags, parse, show);
    if tags.Err? {
      return Err(tags.error);
    }
    if tags.value != [] {
      if HasKey(b, "tags") {
        var prev := Get(b, "tags").value;
        if !prev.Arr? {
          return Err(TypeError);
        }
        b := Set(b, "tags", Arr(prev.items + tags.value));
      } else {
        b := Set(b, "tags", Arr(tags.value));
      }
    }
    assert b == TagsStep(merged, tags.value).value;
    return SnapshotStep(b);
  }

  /** With user info on, `body["user"]` is the user's name and the metadata
    * holds the user dict, unless the extra metadata has that key too. */
  lemma AddedNamesUser(user: Json, body: Dict, extraMetadata: string, extraTags: string,
                       parse: string -> Option<Json>, show: Json -> string)
    requires Added(true, user, body, extraMetadata, extraTags, parse, show).Ok?
    requires !HasKey(LoadJsonDict(extraMetadata, parse).value, UserKey)
    ensures var r := Added(true, user, body, extraMetadata, extraTags, parse, show).value;
            && Get(r, "user") == Some(Index(user, "name").value)
            && DictAt(r, "metadata").Some? && Get(DictAt(r, "metadata").value, UserKey) == Some(user)
  {
    var named := UserStep(body, user).value;
    var extra := LoadJsonDict(extraMetadata, parse).value;
    var merged := MetadataStep(named, extra).value;
    var tags := LoadJsonList(extraTags, parse, show).value;
    var tagged := TagsStep(merged, tags).value;
    assert Added(true, user, body, extraMetadata, extraTags, parse, show) == SnapshotStep(tagged);
    if extra != [] {
      MergedOther(DictAt(named, "metadata").value, extra, UserKey);
    }
    assert Get(DictAt(merged, "metadata").value, UserKey) == Some(user);
    assert Get(DictAt(tagged, "metadata").value, UserKey) == Some(user);
    assert Get(tagged, "user") == Some(Index(user, "name").value);
  }

  /** The extra tags come after the tags already in the body, in order and
    * with any duplicates kept. */
  lemma AddedAppendsTags(addUserinfo: bool, user: Json, body: Dict, extraMetadata: string, extraTags: string,
                         parse: string -> Option<Json>, show: Json -> string)
    requires Added(addUserinfo, user, body, extraMetadata, extraTags, parse, show).Ok?
    requires LoadJsonList(extraTags, parse, show).value != []
    ensures Get(Added(addUserinfo, user, body, extraMetadata, extraTags, parse, show).value, "tags")
            == Some(Arr(ListAt(body, "tags") + LoadJsonList(extraTags, parse, show).value))
  {
    var named := if addUserinfo then UserStep(body, user).value else body;
    var extra := LoadJsonDict(extraMetadata, parse).value;
    var merged := MetadataStep(named, extra).value;
    var tags := LoadJsonList(extraTags, parse, show).value;
    var tagged := TagsStep(merged, tags).value;
    assert Added(addUserinfo, user, body, extraMetadata, extraTags, parse, show) == SnapshotStep(tagged);
  }

  /** The final metadata always holds its own snapshot. */
  lemma AddedSnapshot(addUserinfo: bool, user: Json, body: Dict, extraMetadata: string, extraTags: string,
                      parse: string -> Option<Json>, show: Json -> string)
    requires Added(addUserinfo, user, body, extraMetadata, extraTags, parse, show).Ok?
    ensures DictAt(Added(addUserinfo, user, body, extraMetadata, extraTags, parse, show).value, "metadata").Some?
    ensures Snapshot(DictAt(Added(addUserinfo, user, body, extraMetadata, extraTags, parse, show).value, "metadata").value)
  {
    var named := if addUserinfo then UserStep(body, user).value else body;
    var extra := LoadJsonDict(extraMetadata, parse).value;
    var merged := MetadataStep(named, extra).value;
    var tags := LoadJsonList(extraTags, parse, show).value;
    var tagged := TagsStep(merged, tags).value;
    assert Added(addUserinfo, user, body, extraMetadata, extraTags, parse, show) == SnapshotStep(tagged);
  }

  /** Without user info, a blank extra-metadata valve and a body without
    * metadata, the snapshot line raises a KeyError. */
  lemma AddedNeedsMetadata(user: Json, body: Dict, extraMetadata: string, extraTags: string,
                           parse: string -> Option<Json>, show: Json -> string)
    requires AllSpace(extraMetadata) && !HasKey(body, "metadata")
    requires LoadJsonList(extraTags, parse, show).Ok?
    requires Get(body, "tags").Some? ==> Get(body, "tags").value.Arr?
    ensures Added(false, user, body, extraMetadata, extraTags, parse, show) == Err(KeyError("metadata"))
  {
    var tags := LoadJsonList(extraTags, parse, show).value;
    var tagged := TagsStep(body, tags).value;
    assert Added(false, user, body, extraMetadata, extraTags, parse, show) == SnapshotStep(tagged);
    assert Get(tagged, "metadata") == Get(body, "metadata");
  }

  /** Without user info and body metadata, the extra dict becomes the
    * metadata (beside its snapshot). */
  lemma AddedExtraIsMetadata(user: Json, body: Dict, extraMetadata: string, extraTags: string,
                             parse: string -> Option<Json>, show: Json -> string, k: string)
    requires !HasKey(body, "metadata") && k != TraceKey
    requires Added(false, user, body, extraMetadata, extraTags, parse, show).Ok?
    ensures DictAt(Added(false, user, body, extraMetadata, extraTags, parse, show).value, "metadata").Some?
    ensures Get(DictAt(Added(false, user, body, extraMetadata, extraTags, parse, show).value, "metadata").value, k)
            == Get(LoadJsonDict(extraMetadata, parse).value, k)
  {
    var extra := LoadJsonDict(extraMetadata, parse).value;
    var merged := MetadataStep(body, extra).value;
    var tags := LoadJsonList(extraTags, parse, show).value;
    var tagged := TagsStep(merged, tags).value;
    assert Added(false, user, body, extraMetadata, extraTags, parse, show) == SnapshotStep(tagged);
    if extra == [] {
      assert false;
    }
  }
}
