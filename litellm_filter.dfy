/** The "Chat Info Filter" pipeline (pipelines/litellm_filter.py).
  *
  * Its inlet prepares a chat request for LiteLLM's Langfuse callback:
  * `body["metadata"]` moves to `body["custom_metadata"]` when that is
  * absent, "session_id" is forced to the chat id, "trace_user_id" names
  * the user, the `tags` valve is merged into the tag list, which is then
  * sorted, and the keys of the `extra_metadata` valve overwrite those of
  * `custom_metadata`. `json.loads` is the parameter `parse`; prints are
  * left out.
  */
module LitellmFilter {

  import opened Wrappers
  import opened Text
  import opened Json

  // ---------------------------------------------------------------------
  // `sorted`
  // ---------------------------------------------------------------------

  /** Python's `<=` on strings: lexicographic by code point, a prefix first. */
  predicate StrLe(a: string, b: string)
    decreases |a|
  {
    a == [] || (b != [] && (a[0] < b[0] || (a[0] == b[0] && StrLe(a[1..], b[1..]))))
  }

  lemma {:induction false} StrLeTotal(a: string, b: string)
    ensures StrLe(a, b) || StrLe(b, a)
    decreases |a|
  {
    if a != [] && b != [] && a[0] == b[0] {
      StrLeTotal(a[1..], b[1..]);
    }
  }

  lemma {:induction false} StrLeTrans(a: string, b: string, c: string)
    requires StrLe(a, b) && StrLe(b, c)
    ensures StrLe(a, c)
    decreases |a|
  {
    if a != [] && a[0] == b[0] && b[0] == c[0] {
      StrLeTrans(a[1..], b[1..], c[1..]);
    }
  }

  lemma {:induction false} StrLeAntisym(a: string, b: string)
    requires StrLe(a, b) && StrLe(b, a)
    ensures a == b
    decreases |a|
  {
    if a != [] {
      StrLeAntisym(a[1..], b[1..]);
      assert a == [a[0]] + a[1..] && b == [b[0]] + b[1..];
    }
  }

  /** The items `sorted` can order here: all strings (`strings`) or all
    * numbers. */
  predicate OfKind(xs: seq<Json>, strings: bool)
  {
    forall y :: y in xs ==> if strings then y.Str? else y.Num?
  }

  predicate Sortable(xs: seq<Json>)
  {
    OfKind(xs, true) || OfKind(xs, false)
  }

  /** `x <= y` on two strings or two numbers. */
  predicate Le(x: Json, y: Json)
  {
    (x.Str? && y.Str? && StrLe(x.s, y.s)) || (x.Num? && y.Num? && x.n <= y.n)
  }

  predicate Ordered(xs: seq<Json>)
  {
    forall i, j :: 0 <= i < j < |xs| ==> Le(xs[i], xs[j])
  }

  lemma LeTotal(x: Json, y: Json)
    requires (x.Str? && y.Str?) || (x.Num? && y.Num?)
    ensures Le(x, y) || Le(y, x)
  {
    if x.Str? {
      StrLeTotal(x.s, y.s);
    }
  }

  lemma LeTrans(x: Json, y: Json, z: Json)
    requires Le(x, y) && Le(y, z)
    ensures Le(x, z)
  {
    if x.Str? {
      StrLeTrans(x.s, y.s, z.s);
    }
  }

  lemma LeAntisym(x: Json, y: Json)
    requires Le(x, y) && Le(y, x)
    ensures x == y
  {
    if x.Str? {
      StrLeAntisym(x.s, y.s);
    }
  }

  /** The head of an ordered list is below every item. */
  lemma OrderedHead(xs: seq<Json>, y: Json)
    requires Ordered(xs) && y in xs && (y.Str? || y.Num?)
    ensures Le(xs[0], y)
  {
    var k :| 0 <= k < |xs| && xs[k] == y;
    if k == 0 && y.Str? {
      StrLeTotal(y.s, y.s);
    }
  }

  /** `x` inserted before the first item it does not exceed. */
  function Insert(x: Json, xs: seq<Json>): (r: seq<Json>)
    ensures multiset(r) == multiset(xs) + multiset{x}
    ensures |r| == |xs| + 1
  {
    if xs == [] then [x]
    else if Le(x, xs[0]) then [x] + xs
    else
      assert xs == [xs[0]] + xs[1..];
      [xs[0]] + Insert(x, xs[1..])
  }

  /** An item below every item of an ordered list can go in front of it. */
  lemma ConsOrdered(y: Json, r: seq<Json>)
    requires Ordered(r) && forall e :: e in r ==> Le(y, e)
    ensures Ordered([y] + r)
  {
    var c := [y] + r;
    forall i, j | 0 <= i < j < |c| ensures Le(c[i], c[j]) {
      if i == 0 {
        assert c[j] == r[j - 1] && c[j] in r;
      } else {
        assert c[i] == r[i - 1] && c[j] == r[j - 1];
      }
    }
  }

  /** Insertion into an ordered list of items of `x`'s kind keeps it ordered. */
  lemma {:induction false} InsertOrdered(x: Json, xs: seq<Json>, strings: bool)
    requires Ordered(xs) && OfKind(xs, strings) && OfKind([x], strings)
    ensures Ordered(Insert(x, xs))
  {
    assert x in [x];
    if xs == [] {
    } else if Le(x, xs[0]) {
      forall e | e in xs ensures Le(x, e) {
        OrderedHead(xs, e);
        LeTrans(x, xs[0], e);
      }
      ConsOrdered(x, xs);
    } else {
      var t := xs[1..];
      assert Ordered(t) && OfKind(t, strings) by {
        assert forall i :: 0 <= i < |t| ==> t[i] == xs[i + 1];
      }
      InsertOrdered(x, t, strings);
      LeTotal(x, xs[0]);
      var u := Insert(x, t);
      forall e | e in u ensures Le(xs[0], e) {
        assert e in multiset(t) + multiset{x};
        if e != x {
          assert e in xs;
          OrderedHead(xs, e);
        }
      }
      ConsOrdered(xs[0], u);
      assert Insert(x, xs) == [xs[0]] + u;
    }
  }

  /** The items in increasing order. */
  function SortItems(xs: seq<Json>): (r: seq<Json>)
    ensures multiset(r) == multiset(xs)
    ensures |r| == |xs|
  {
    if xs == [] then []
    else
      assert xs == [xs[0]] + xs[1..];
      Insert(xs[0], SortItems(xs[1..]))
  }

  lemma {:induction false} SortItemsOrdered(xs: seq<Json>, strings: bool)
    requires OfKind(xs, strings)
    ensures Ordered(SortItems(xs))
  {
    if xs != [] {
      assert xs == [xs[0]] + xs[1..];
      assert OfKind(xs[1..], strings);
      SortItemsOrdered(xs[1..], strings);
      var s := SortItems(xs[1..]);
      assert OfKind(s, strings) by {
        forall y | y in s ensures y in xs {
          assert y in multiset(xs[1..]);
        }
      }
      assert xs[0] in xs;
      InsertOrdered(xs[0], s, strings);
    }
  }

  lemma OrderedTail(xs: seq<Json>)
    requires Ordered(xs) && xs != []
    ensures Ordered(xs[1..])
  {
    assert forall i :: 0 <= i < |xs[1..]| ==> xs[1..][i] == xs[i + 1];
  }

  lemma SameItemsTail(a: seq<Json>, b: seq<Json>)
    requires multiset(a) == multiset(b) && a != [] && b != [] && a[0] == b[0]
    ensures multiset(a[1..]) == multiset(b[1..])
  {
    assert a == [a[0]] + a[1..] && b == [b[0]] + b[1..];
    assert multiset(a) == multiset{a[0]} + multiset(a[1..]);
    assert multiset(b) == multiset{a[0]} + multiset(b[1..]);
    assert multiset(a[1..]) == multiset(a) - multiset{a[0]};
    assert multiset(b[1..]) == multiset(b) - multiset{a[0]};
  }

  /** Two ordered lists with the same items are equal, so any correct sort
    * (Python's Timsort included) gives the list `SortItems` gives. */
  lemma {:induction false} OrderedUnique(a: seq<Json>, b: seq<Json>)
    requires Ordered(a) && Ordered(b) && multiset(a) == multiset(b) && Sortable(a)
    ensures a == b
    decreases |a|
  {
    if a != [] {
      assert a[0] in multiset(b) && a[0] in a;
      assert b[0] in multiset(a) && b[0] in a;
      OrderedHead(b, a[0]);
      OrderedHead(a, b[0]);
      LeAntisym(a[0], b[0]);
      SameItemsTail(a, b);
      OrderedTail(a);
      OrderedTail(b);
      assert Sortable(a[1..]) by {
        assert forall y :: y in a[1..] ==> y in a;
      }
      OrderedUnique(a[1..], b[1..]);
      assert a == [a[0]] + a[1..] && b == [b[0]] + b[1..];
    }
  }

  /** `sorted(v)`: the items of `v` (list items, dict keys, string
    * characters) in increasing order; more than one item that is not all
    * strings or all numbers cannot be compared. */
  function Sorted(v: Json): (r: Result<seq<Json>>)
    ensures r.Ok? <==> Iterate(v).Ok? && (|Iterate(v).value| <= 1 || Sortable(Iterate(v).value))
    ensures r.Err? ==> r.error == TypeError
    ensures r.Ok? ==> multiset(r.value) == multiset(Iterate(v).value) && Ordered(r.value)
  {
    match Iterate(v)
    case Err(e) => Err(e)
    case Ok(xs) =>
      if |xs| <= 1 then Ok(xs)
      else if Sortable(xs) then
        SortItemsOrdered(xs, OfKind(xs, true));
        Ok(SortItems(xs))
      else Err(TypeError)
  }

  // ---------------------------------------------------------------------
  // The inlet
  // ---------------------------------------------------------------------

  /** "metadata" becomes "custom_metadata" when that is
    * absent; with both present nothing moves. */
  function Moved(body: Dict): (r: Dict)
    ensures HasKey(body, "metadata") && !HasKey(body, "custom_metadata") ==>
              !HasKey(r, "metadata") && Get(r, "custom_metadata") == Get(body, "metadata")
    ensures !(HasKey(body, "metadata") && !HasKey(body, "custom_metadata")) ==> r == body
    ensures forall k :: k != "metadata" && k != "custom_metadata" ==> Get(r, k) == Get(body, k)
  {
    if HasKey(body, "metadata") && !HasKey(body, "custom_metadata") then
      Remove(Set(body, "custom_metadata", Get(body, "metadata").value), "metadata")
    else body
  }

  /** "session_id" of the custom metadata becomes the chat id.
    * The result is the body, holding "custom_metadata", and the custom
    * metadata dict itself; a custom metadata that is not a dict raises at
    * its first use (after `body['chat_id']` when that is evaluated first). */
  function Session(b: Dict): (r: Result<(Dict, Dict)>)
    ensures r.Ok? ==> Get(r.value.1, "session_id") == Get(b, "chat_id") && HasKey(b, "chat_id")
    ensures r.Ok? ==> HasKey(r.value.0, "custom_metadata")
    ensures r.Ok? ==> forall k :: k != "custom_metadata" ==> Get(r.value.0, k) == Get(b, k)
    ensures !HasKey(b, "custom_metadata") ==> (r.Ok? <==> HasKey(b, "chat_id"))
    ensures !HasKey(b, "custom_metadata") && r.Ok? ==> r.value.1 == [("session_id", Get(b, "chat_id").value)]
    ensures HasKey(b, "custom_metadata") ==>
              (r.Ok? <==> HasKey(b, "chat_id") && Get(b, "custom_metadata").value.Obj?)
    ensures HasKey(b, "custom_metadata") && r.Ok? ==>
              && r.value.0 == b
              && forall k :: k != "session_id" ==> Get(r.value.1, k) == Get(Get(b, "custom_metadata").value.fields, k)
    ensures r.Err? ==> r.error == KeyError("chat_id") || r.error == TypeError
  {
    if !HasKey(b, "custom_metadata") then
      match Get(b, "chat_id")
      case None => Err(KeyError("chat_id"))
      case Some(chat) =>
        var cm := [("session_id", chat)];
        Ok((Set(b, "custom_metadata", Obj(cm)), cm))
    else
      var cm := Get(b, "custom_metadata").value;
      match Contains(cm, "session_id")
      case Err(e) => Err(e)
      case Ok(false) =>
        (match Get(b, "chat_id")
         case None => Err(KeyError("chat_id"))
         case Some(chat) => if cm.Obj? then Ok((b, Set(cm.fields, "session_id", chat))) else Err(TypeError))
      case Ok(true) =>
        match Index(cm, "session_id")
        case Err(e) => Err(TypeError)
        case Ok(sid) =>
          match Get(b, "chat_id")
          case None => Err(KeyError("chat_id"))
          case Some(chat) =>
            if sid != chat then Ok((b, Set(cm.fields, "session_id", chat)))
            else
              SetSame(cm.fields, "session_id", chat);
              Ok((b, cm.fields))
  }

  /** The user argument when truthy, else `body.get("user")`. */
  function Chosen(b: Dict, user: Json): Json
  {
    if Truthy(user) then user else GetOr(b, "user", Null)
  }

  /** A truthy user is named "<name> / <email>" under
    * "trace_user_id"; with none, nothing changes. */
  function TraceUser(b: Dict, cm: Dict, user: Json, show: Json -> string): (r: Result<Dict>)
    ensures !Truthy(Chosen(b, user)) ==> r == Ok(cm)
    ensures Truthy(Chosen(b, user)) ==>
              (r.Ok? <==> Index(Chosen(b, user), "name").Ok? && Index(Chosen(b, user), "email").Ok?)
    ensures r.Ok? && Truthy(Chosen(b, user)) ==>
              Get(r.value, "trace_user_id")
              == Some(Str(PyStr(Index(Chosen(b, user), "name").value, show) + " / " + PyStr(Index(Chosen(b, user), "email").value, show)))
    ensures r.Ok? ==> forall k :: k != "trace_user_id" ==> Get(r.value, k) == Get(cm, k)
  {
    var u := Chosen(b, user);
    if !Truthy(u) then Ok(cm)
    else
      match Index(u, "name")
      case Err(e) => Err(e)
      case Ok(name) =>
        match Index(u, "email")
        case Err(e) => Err(e)
        case Ok(email) => Ok(Set(cm, "trace_user_id", Str(PyStr(name, show) + " / " + PyStr(email, show))))
  }

  /** Each valve tag not yet in the tag value is appended to
    * it (which needs a list), in valve order; later tags see the earlier
    * ones. */
  function AddMissing(cur: Json, ts: seq<Json>): (r: Result<Json>)
    decreases |ts|
  {
    if ts == [] then Ok(cur)
    else
      match PyIn(ts[0], cur)
      case Err(e) => Err(e)
      case Ok(true) => AddMissing(cur, ts[1..])
      case Ok(false) => if cur.Arr? then AddMissing(Arr(cur.items + [ts[0]]), ts[1..]) else Err(AttributeError)
  }

  /** On a list the loop never raises: the old items stay in front, and the
    * list ends holding exactly the old items and the valve tags, with no
    * new duplicate. */
  lemma {:induction false} AddMissingList(items: seq<Json>, ts: seq<Json>)
    ensures AddMissing(Arr(items), ts).Ok? && AddMissing(Arr(items), ts).value.Arr?
    ensures var r := AddMissing(Arr(items), ts).value.items;
            && items <= r
            && (forall x :: x in r <==> x in items || x in ts)
            && (Distinct(items) ==> Distinct(r))
    decreases |ts|
  {
    if ts != [] {
      var next := if ts[0] in items then items else items + [ts[0]];
      AddMissingList(next, ts[1..]);
      assert ts == [ts[0]] + ts[1..];
      if Distinct(items) && ts[0] !in items {
        assert Distinct(next);
      }
    }
  }

  /** On a value that is not a list the loop goes through only when every
    * valve tag is already in it. */
  lemma {:induction false} AddMissingOther(cur: Json, ts: seq<Json>)
    requires !cur.Arr?
    ensures AddMissing(cur, ts).Ok? <==> forall t :: t in ts ==> PyIn(t, cur) == Ok(true)
    ensures AddMissing(cur, ts).Ok? ==> AddMissing(cur, ts).value == cur
    decreases |ts|
  {
    if ts != [] {
      AddMissingOther(cur, ts[1..]);
      assert ts == [ts[0]] + ts[1..];
    }
  }

  /** The characters of `s` as one-character strings. */
  function Chars(s: string): (r: seq<Json>)
    ensures |r| == |s| && forall i :: 0 <= i < |s| ==> r[i] == Str([s[i]])
  {
    seq(|s|, i requires 0 <= i < |s| => Str([s[i]]))
  }

  /** With a non-blank valve, an existing tag value gains the
    * parsed valve tags it lacks; a missing one becomes the raw valve
    * string. Either way it is replaced by `sorted` of itself. */
  function TagsMerged(cm: Dict, tagsValve: string, parse: string -> Option<Json>): (r: Result<Dict>)
    ensures AllSpace(tagsValve) ==> r == Ok(cm)
    ensures r.Ok? ==> forall k :: k != "tags" ==> Get(r.value, k) == Get(cm, k)
    ensures r.Ok? && !AllSpace(tagsValve) ==> Get(r.value, "tags").Some? && Get(r.value, "tags").value.Arr?
    ensures !AllSpace(tagsValve) && HasKey(cm, "tags") && parse(tagsValve).None? ==> r == Err(DecodeError)
  {
    if AllSpace(tagsValve) then Ok(cm)
    else if HasKey(cm, "tags") then
      match parse(tagsValve)
      case None => Err(DecodeError)
      case Some(loaded) =>
        match Iterate(loaded)
        case Err(e) => Err(e)
        case Ok(ts) =>
          match AddMissing(Get(cm, "tags").value, ts)
          case Err(e) => Err(e)
          case Ok(cur) =>
            match Sorted(cur)
            case Err(e) => Err(e)
            case Ok(sorted) => Ok(Set(cm, "tags", Arr(sorted)))
    else
      match Sorted(Str(tagsValve))
      case Err(e) => Err(e)
      case Ok(sorted) => Ok(Set(cm, "tags", Arr(sorted)))
  }

  /** A non-blank valve must parse to a dict (`.items()`),
    * whose entries are then assigned one by one. */
  function Overwritten(cm: Dict, extraMetadata: string, parse: string -> Option<Json>): (r: Result<Dict>)
    ensures AllSpace(extraMetadata) ==> r == Ok(cm)
    ensures !AllSpace(extraMetadata) ==> (r.Ok? <==> parse(extraMetadata).Some? && parse(extraMetadata).value.Obj?)
    ensures r.Err? ==> r.error == if parse(extraMetadata).None? then DecodeError else AttributeError
    ensures r.Ok? && !AllSpace(extraMetadata) ==> r.value == Update(cm, parse(extraMetadata).value.fields)
  {
    if AllSpace(extraMetadata) then Ok(cm)
    else
      match parse(extraMetadata)
      case None => Err(DecodeError)
      case Some(Obj(em)) => Ok(Update(cm, em))
      case Some(_) => Err(AttributeError)
  }

  /** The body the inlet returns, or the exception it raises. */
  function Filtered(body: Dict, user: Json, tagsValve: string, extraMetadata: string,
                    parse: string -> Option<Json>, show: Json -> string): (r: Result<Dict>)
  {
    match Session(Moved(body))
    case Err(e) => Err(e)
    case Ok((b, cm)) =>
      match TraceUser(b, cm, user, show)
      case Err(e) => Err(e)
      case Ok(cm2) =>
        match TagsMerged(cm2, tagsValve, parse)
        case Err(e) => Err(e)
        case Ok(cm3) =>
          match Overwritten(cm3, extraMetadata, parse)
          case Err(e) => Err(e)
          case Ok(cm4) => Ok(Set(b, "custom_metadata", Obj(cm4)))
  }

  /** The items of an existing tag list once the valve was merged:
    * ordered, holding exactly the old tags and the valve tags, and free of
    * duplicates when the old list was. */
  lemma TagsMergedList(cm: Dict, tagsValve: string, parse: string -> Option<Json>, items: seq<Json>, ts: seq<Json>)
    requires !AllSpace(tagsValve) && Get(cm, "tags") == Some(Arr(items)) && parse(tagsValve) == Some(Arr(ts))
    requires Sortable(items + ts)
    ensures TagsMerged(cm, tagsValve, parse).Ok?
    ensures var t := Get(TagsMerged(cm, tagsValve, parse).value, "tags").value.items;
            && Ordered(t)
            && (forall x :: x in t <==> x in items || x in ts)
            && (Distinct(items) ==> Distinct(t))
  {
    AddMissingList(items, ts);
    var merged := AddMissing(Arr(items), ts).value.items;
    assert Sortable(merged) by {
      assert forall y :: y in merged ==> y in items + ts;
    }
    var t := Sorted(Arr(merged)).value;
    forall x ensures x in t <==> x in merged {
      assert x in t <==> x in multiset(t);
    }
    if Distinct(items) {
      MultisetDistinct(merged, t);
    }
  }

  ghost predicate AtMostOnce(m: multiset<Json>)
  {
    forall x :: m[x] <= 1
  }

  lemma DistinctCons(a: seq<Json>)
    requires a != []
    ensures Distinct(a) <==> a[0] !in a[1..] && Distinct(a[1..])
  {
    var t := a[1..];
    assert forall j :: 0 <= j < |t| ==> t[j] == a[j + 1];
    if a[0] !in t && Distinct(t) {
      forall i, j | 0 <= i < j < |a| ensures a[i] != a[j] {
        assert a[j] == t[j - 1];
        if i > 0 {
          assert a[i] == t[i - 1];
        }
      }
    }
  }

  lemma AtMostOnceCons(a: seq<Json>)
    requires a != []
    ensures AtMostOnce(multiset(a)) <==> a[0] !in a[1..] && AtMostOnce(multiset(a[1..]))
  {
    var t := a[1..];
    assert a == [a[0]] + t;
    assert multiset(a) == multiset{a[0]} + multiset(t);
    assert a[0] in t <==> multiset(t)[a[0]] > 0;
    if AtMostOnce(multiset(a)) {
      assert multiset(a)[a[0]] <= 1;
      forall x ensures multiset(t)[x] <= 1 {
        assert multiset(t)[x] <= multiset(a)[x];
      }
    }
  }

  /** A list is free of duplicates when every item occurs once. */
  lemma {:induction false} DistinctCount(a: seq<Json>)
    ensures Distinct(a) <==> AtMostOnce(multiset(a))
  {
    if a != [] {
      DistinctCount(a[1..]);
      DistinctCons(a);
      AtMostOnceCons(a);
    }
  }

  /** Two lists with the same items: one is free of duplicates when the
    * other is. */
  lemma MultisetDistinct(a: seq<Json>, b: seq<Json>)
    requires multiset(a) == multiset(b) && Distinct(a)
    ensures Distinct(b)
  {
    DistinctCount(a);
    DistinctCount(b);
  }

  /** Without tags, the raw valve string is stored and sorted: the tags
    * become its characters, each one a string, in increasing order. */
  lemma TagsMergedRaw(cm: Dict, tagsValve: string, parse: string -> Option<Json>)
    requires !AllSpace(tagsValve) && !HasKey(cm, "tags")
    ensures TagsMerged(cm, tagsValve, parse).Ok?
    ensures var t := Get(TagsMerged(cm, tagsValve, parse).value, "tags").value.items;
            Ordered(t) && multiset(t) == multiset(Chars(tagsValve))
  {
    assert OfKind(Iterate(Str(tagsValve)).value, true);
  }

  /** The `extra_metadata` valve as the inlet applies it (empty when blank
    * or when it does not parse to a dict). */
  function ExtraOf(extraMetadata: string, parse: string -> Option<Json>): Dict
  {
    if !AllSpace(extraMetadata) && parse(extraMetadata).Some? && parse(extraMetadata).value.Obj?
    then parse(extraMetadata).value.fields else []
  }

  lemma OverwrittenIsUpdate(cm: Dict, extraMetadata: string, parse: string -> Option<Json>)
    requires Overwritten(cm, extraMetadata, parse).Ok?
    ensures Overwritten(cm, extraMetadata, parse).value == Update(cm, ExtraOf(extraMetadata, parse))
  {
  }

  /** The custom metadata the body brings: its "custom_metadata", else
    * its "metadata", else none. */
  function Before(body: Dict): Dict
  {
    if HasKey(body, "custom_metadata") then (if DictAt(body, "custom_metadata").Some? then DictAt(body, "custom_metadata").value else [])
    else if DictAt(body, "metadata").Some? then DictAt(body, "metadata").value else []
  }

  /** The custom metadata of a returned body. */
  function Custom(r: Dict): Dict
  {
    if DictAt(r, "custom_metadata").Some? then DictAt(r, "custom_metadata").value else []
  }

  /** Apart from "session_id", the custom metadata after the session step is the
    * one the body brought. */
  lemma SessionKeeps(body: Dict, k: string)
    requires Session(Moved(body)).Ok? && k != "session_id"
    ensures Get(Session(Moved(body)).value.1, k) == Get(Before(body), k)
  {
    var b := Moved(body);
    if !HasKey(body, "custom_metadata") && HasKey(body, "metadata") {
      assert Get(b, "custom_metadata") == Get(body, "metadata");
    } else if !HasKey(body, "custom_metadata") {
      assert b == body;
      assert Get([("session_id", Get(b, "chat_id").value)], k) == None;
    }
  }

  /** The intermediate results of a successful inlet. */
  lemma Stages(body: Dict, user: Json, tagsValve: string, extraMetadata: string,
               parse: string -> Option<Json>, show: Json -> string)
    returns (b: Dict, cm1: Dict, cm2: Dict, cm3: Dict, cm4: Dict)
    requires Filtered(body, user, tagsValve, extraMetadata, parse, show).Ok?
    ensures Session(Moved(body)) == Ok((b, cm1))
    ensures TraceUser(b, cm1, user, show) == Ok(cm2)
    ensures TagsMerged(cm2, tagsValve, parse) == Ok(cm3)
    ensures cm4 == Update(cm3, ExtraOf(extraMetadata, parse)) && Overwritten(cm3, extraMetadata, parse) == Ok(cm4)
    ensures Filtered(body, user, tagsValve, extraMetadata, parse, show) == Ok(Set(b, "custom_metadata", Obj(cm4)))
    ensures Custom(Filtered(body, user, tagsValve, extraMetadata, parse, show).value) == cm4
  {
    b, cm1 := Session(Moved(body)).value.0, Session(Moved(body)).value.1;
    cm2 := TraceUser(b, cm1, user, show).value;
    cm3 := TagsMerged(cm2, tagsValve, parse).value;
    cm4 := Overwritten(cm3, extraMetadata, parse).value;
    OverwrittenIsUpdate(cm3, extraMetadata, parse);
    CustomSet(b, cm4);
  }

  /** The custom metadata of a body is what was last set there. */
  lemma CustomSet(b: Dict, cm: Dict)
    ensures Custom(Set(b, "custom_metadata", Obj(cm))) == cm
  {
  }

  /** The metadata move as the returned body shows it: "metadata" is gone when
    * it was moved and untouched when "custom_metadata" already existed;
    * keys other than these two are as they came. */
  lemma FilteredMoves(body: Dict, user: Json, tagsValve: string, extraMetadata: string,
                      parse: string -> Option<Json>, show: Json -> string)
    requires Filtered(body, user, tagsValve, extraMetadata, parse, show).Ok?
    ensures var r := Filtered(body, user, tagsValve, extraMetadata, parse, show).value;
            && DictAt(r, "custom_metadata").Some?
            && (HasKey(body, "metadata") && !HasKey(body, "custom_metadata") ==> !HasKey(r, "metadata"))
            && (HasKey(body, "custom_metadata") ==> Get(r, "metadata") == Get(body, "metadata"))
            && forall k :: k != "metadata" && k != "custom_metadata" ==> Get(r, k) == Get(body, k)
  {
    var b, cm1, cm2, cm3, cm4 := Stages(body, user, tagsValve, extraMetadata, parse, show);
  }

  /** "session_id" ends as the chat id unless the valve sets it, and a
    * body without "chat_id" is refused. */
  lemma FilteredSession(body: Dict, user: Json, tagsValve: string, extraMetadata: string,
                        parse: string -> Option<Json>, show: Json -> string)
    ensures !HasKey(body, "chat_id") ==> Filtered(body, user, tagsValve, extraMetadata, parse, show).Err?
    ensures Filtered(body, user, tagsValve, extraMetadata, parse, show).Ok? && !HasKey(ExtraOf(extraMetadata, parse), "session_id") ==>
              Get(Custom(Filtered(body, user, tagsValve, extraMetadata, parse, show).value), "session_id") == Get(body, "chat_id")
  {
    ChatMoved(body);
    if Filtered(body, user, tagsValve, extraMetadata, parse, show).Ok? {
      var b, cm1, cm2, cm3, cm4 := Stages(body, user, tagsValve, extraMetadata, parse, show);
      if !HasKey(ExtraOf(extraMetadata, parse), "session_id") {
        SessionKept(b, cm1, cm2, cm3, user, tagsValve, extraMetadata, parse, show);
      }
    }
  }

  lemma ChatMoved(body: Dict)
    ensures Get(Moved(body), "chat_id") == Get(body, "chat_id")
  {
  }

  lemma SessionKept(b: Dict, cm1: Dict, cm2: Dict, cm3: Dict, user: Json, tagsValve: string,
                    extraMetadata: string, parse: string -> Option<Json>, show: Json -> string)
    requires TraceUser(b, cm1, user, show) == Ok(cm2)
    requires TagsMerged(cm2, tagsValve, parse) == Ok(cm3)
    requires !HasKey(ExtraOf(extraMetadata, parse), "session_id")
    ensures Get(Update(cm3, ExtraOf(extraMetadata, parse)), "session_id") == Get(cm1, "session_id")
  {
    UpdateOther(cm3, ExtraOf(extraMetadata, parse), "session_id");
  }

  /** The custom metadata keys no step writes: as the body brought them,
    * unless the valve sets them. */
  lemma FilteredKeeps(body: Dict, user: Json, tagsValve: string, extraMetadata: string,
                      parse: string -> Option<Json>, show: Json -> string, k: string)
    requires Filtered(body, user, tagsValve, extraMetadata, parse, show).Ok?
    requires k != "session_id" && k != "trace_user_id" && k != "tags" && !HasKey(ExtraOf(extraMetadata, parse), k)
    ensures Get(Custom(Filtered(body, user, tagsValve, extraMetadata, parse, show).value), k) == Get(Before(body), k)
  {
    var b, cm1, cm2, cm3, cm4 := Stages(body, user, tagsValve, extraMetadata, parse, show);
    UpdateOther(cm3, ExtraOf(extraMetadata, parse), k);
    SessionKeeps(body, k);
  }

  /** The keys of the valve end with its values (a parsed dict has
    * distinct keys). */
  lemma FilteredOverwrites(body: Dict, user: Json, tagsValve: string, extraMetadata: string,
                           parse: string -> Option<Json>, show: Json -> string, k: string)
    requires Filtered(body, user, tagsValve, extraMetadata, parse, show).Ok?
    requires UniqueKeys(ExtraOf(extraMetadata, parse)) && HasKey(ExtraOf(extraMetadata, parse), k)
    ensures Get(Custom(Filtered(body, user, tagsValve, extraMetadata, parse, show).value), k) == Get(ExtraOf(extraMetadata, parse), k)
  {
    var b, cm1, cm2, cm3, cm4 := Stages(body, user, tagsValve, extraMetadata, parse, show);
    UpdateHit(cm3, ExtraOf(extraMetadata, parse), k);
  }

  /** "trace_user_id" is "<name> / <email>" of the chosen user, or as the
    * body brought it when neither user is truthy; the valve may override. */
  lemma FilteredTraceUser(body: Dict, user: Json, tagsValve: string, extraMetadata: string,
                          parse: string -> Option<Json>, show: Json -> string)
    requires Filtered(body, user, tagsValve, extraMetadata, parse, show).Ok?
    requires !HasKey(ExtraOf(extraMetadata, parse), "trace_user_id")
    ensures var u := Chosen(body, user);
            var cm := Custom(Filtered(body, user, tagsValve, extraMetadata, parse, show).value);
            && (Truthy(u) ==> Index(u, "name").Ok? && Index(u, "email").Ok?
                              && Get(cm, "trace_user_id") == Some(Str(PyStr(Index(u, "name").value, show) + " / " + PyStr(Index(u, "email").value, show))))
            && (!Truthy(u) ==> Get(cm, "trace_user_id") == Get(Before(body), "trace_user_id"))
  {
    var b, cm1, cm2, cm3, cm4 := Stages(body, user, tagsValve, extraMetadata, parse, show);
    TraceKept(cm2, cm3, tagsValve, extraMetadata, parse);
    ChosenMoved(body, b, cm1, user);
    if !Truthy(Chosen(body, user)) {
      SessionKeeps(body, "trace_user_id");
    }
  }

  lemma TraceKept(cm2: Dict, cm3: Dict, tagsValve: string, extraMetadata: string, parse: string -> Option<Json>)
    requires TagsMerged(cm2, tagsValve, parse) == Ok(cm3)
    requires !HasKey(ExtraOf(extraMetadata, parse), "trace_user_id")
    ensures Get(Update(cm3, ExtraOf(extraMetadata, parse)), "trace_user_id") == Get(cm2, "trace_user_id")
  {
    UpdateOther(cm3, ExtraOf(extraMetadata, parse), "trace_user_id");
  }

  lemma ChosenMoved(body: Dict, b: Dict, cm1: Dict, user: Json)
    requires Session(Moved(body)) == Ok((b, cm1))
    ensures Chosen(b, user) == Chosen(body, user)
  {
    UserMoved(body, b, cm1);
  }

  lemma UserMoved(body: Dict, b: Dict, cm1: Dict)
    requires Session(Moved(body)) == Ok((b, cm1))
    ensures Get(b, "user") == Get(body, "user")
  {
    assert Get(b, "user") == Get(Moved(body), "user");
  }

  /** Before the tags are merged, they are the ones the body brought. */
  lemma TagsBefore(body: Dict, b: Dict, cm1: Dict, cm2: Dict, user: Json, show: Json -> string)
    requires Session(Moved(body)) == Ok((b, cm1)) && TraceUser(b, cm1, user, show) == Ok(cm2)
    ensures Get(cm2, "tags") == Get(Before(body), "tags")
  {
    SessionKeeps(body, "tags");
    TraceUserKeeps(b, cm1, user, show, "tags");
  }

  /** The user step writes "trace_user_id" and no other key. */
  lemma TraceUserKeeps(b: Dict, cm: Dict, user: Json, show: Json -> string, k: string)
    requires TraceUser(b, cm, user, show).Ok? && k != "trace_user_id"
    ensures Get(TraceUser(b, cm, user, show).value, k) == Get(cm, k)
  {
  }

  lemma TagsAfter(cm3: Dict, extraMetadata: string, parse: string -> Option<Json>)
    requires !HasKey(ExtraOf(extraMetadata, parse), "tags")
    ensures Get(Update(cm3, ExtraOf(extraMetadata, parse)), "tags") == Get(cm3, "tags")
  {
    UpdateOther(cm3, ExtraOf(extraMetadata, parse), "tags");
  }

  /** The tag step with a tag list in the body: the result is sorted, holds
    * exactly the old tags and the valve's, and adds no duplicates. */
  lemma FilteredTagsList(body: Dict, user: Json, tagsValve: string, extraMetadata: string,
                         parse: string -> Option<Json>, show: Json -> string, items: seq<Json>, ts: seq<Json>)
    requires Filtered(body, user, tagsValve, extraMetadata, parse, show).Ok?
    requires !AllSpace(tagsValve) && !HasKey(ExtraOf(extraMetadata, parse), "tags")
    requires Get(Before(body), "tags") == Some(Arr(items)) && parse(tagsValve) == Some(Arr(ts))
    requires Sortable(items + ts)
    ensures var t := Get(Custom(Filtered(body, user, tagsValve, extraMetadata, parse, show).value), "tags");
            && t.Some? && t.value.Arr?
            && Ordered(t.value.items)
            && (forall x :: x in t.value.items <==> x in items || x in ts)
            && (Distinct(items) ==> Distinct(t.value.items))
  {
    var b, cm1, cm2, cm3, cm4 := Stages(body, user, tagsValve, extraMetadata, parse, show);
    TagsBefore(body, b, cm1, cm2, user, show);
    TagsMergedList(cm2, tagsValve, parse, items, ts);
    TagsAfter(cm3, extraMetadata, parse);
  }

  /** The tag step without tags in the body: the raw valve string is
    * iterated, so the tags are its characters, sorted. */
  lemma FilteredTagsRaw(body: Dict, user: Json, tagsValve: string, extraMetadata: string,
                        parse: string -> Option<Json>, show: Json -> string)
    requires Filtered(body, user, tagsValve, extraMetadata, parse, show).Ok?
    requires !AllSpace(tagsValve) && !HasKey(ExtraOf(extraMetadata, parse), "tags")
    requires !HasKey(Before(body), "tags")
    ensures var t := Get(Custom(Filtered(body, user, tagsValve, extraMetadata, parse, show).value), "tags");
            && t.Some? && t.value.Arr?
            && Ordered(t.value.items)
            && multiset(t.value.items) == multiset(Chars(tagsValve))
  {
    var b, cm1, cm2, cm3, cm4 := Stages(body, user, tagsValve, extraMetadata, parse, show);
    TagsBefore(body, b, cm1, cm2, user, show);
    TagsMergedRaw(cm2, tagsValve, parse);
    TagsAfter(cm3, extraMetadata, parse);
  }

  /** A blank tags valve leaves the tags as the body brought them. */
  lemma FilteredTagsBlank(body: Dict, user: Json, tagsValve: string, extraMetadata: string,
                          parse: string -> Option<Json>, show: Json -> string)
    requires Filtered(body, user, tagsValve, extraMetadata, parse, show).Ok?
    requires AllSpace(tagsValve) && !HasKey(ExtraOf(extraMetadata, parse), "tags")
    ensures Get(Custom(Filtered(body, user, tagsValve, extraMetadata, parse, show).value), "tags") == Get(Before(body), "tags")
  {
    var b, cm1, cm2, cm3, cm4 := Stages(body, user, tagsValve, extraMetadata, parse, show);
    TagsBefore(body, b, cm1, cm2, user, show);
    TagsAfter(cm3, extraMetadata, parse);
  }

  /** The tag loop as it runs: each valve tag missing from the
    * current tags is appended in place. */
  method AddMissingTags(cur: Json, ts: seq<Json>) returns (r: Result<Json>)
    ensures r == AddMissing(cur, ts)
  {
    var tags := cur;
    var i := 0;
    while i < |ts|
      invariant 0 <= i <= |ts|
      invariant AddMissing(tags, ts[i..]) == AddMissing(cur, ts)
    {
      assert ts[i..][0] == ts[i] && ts[i..][1..] == ts[i + 1..];
      var found := PyIn(ts[i], tags);
      if found.Err? {
        return Err(found.error);
      }
      if !found.value {
        if !tags.Arr? {
          return Err(AttributeError);
        }
        tags := Arr(tags.items + [ts[i]]);
      }
      i := i + 1;
    }
    assert ts[i..] == [];
    return Ok(tags);
  }

  /** The entries of the valve dict assigned one by one. */
  method UpdateCustomMetadata(cm: Dict, em: Dict) returns (r: Dict)
    ensures r == Update(cm, em)
    ensures forall k :: !HasKey(em, k) ==> Get(r, k) == Get(cm, k)
    ensures UniqueKeys(em) ==> forall k :: HasKey(em, k) ==> Get(r, k) == Get(em, k)
  {
    r := cm;
    var i := 0;
    while i < |em|
      invariant 0 <= i <= |em|
      invariant Update(r, em[i..]) == Update(cm, em)
    {
      assert em[i..][0] == em[i] && em[i..][1..] == em[i + 1..];
      r := Set(r, em[i].0, em[i].1);
      i := i + 1;
    }
    assert em[i..] == [];
    forall k | !HasKey(em, k)
      ensures Get(r, k) == Get(cm, k)
    {
      UpdateOther(cm, em, k);
    }
    forall k | UniqueKeys(em) && HasKey(em, k)
      ensures Get(r, k) == Get(em, k)
    {
      UpdateHit(cm, em, k);
    }
  }

  /** The tag step, with its loop over the valve tags. */
  method MergeTags(cm: Dict, tagsValve: string, parse: string -> Option<Json>) returns (r: Result<Dict>)
    ensures r == TagsMerged(cm, tagsValve, parse)
  {
    if AllSpace(tagsValve) {
      return Ok(cm);
    }
    var tags: Json;
    if HasKey(cm, "tags") {
      var loaded := parse(tagsValve);
      if loaded.None? {
        return Err(DecodeError);
      }
      var ts := Iterate(loaded.value);
      if ts.Err? {
        return Err(ts.error);
      }
      var added := AddMissingTags(Get(cm, "tags").value, ts.value);
      if added.Err? {
        return Err(added.error);
      }
      tags := added.value;
    } else {
      tags := Str(tagsValve);
    }
    var sorted := Sorted(tags);
    if sorted.Err? {
      return Err(sorted.error);
    }
    r := Ok(Set(cm, "tags", Arr(sorted.value)));
  }

  /** The extra-metadata step, with its loop over the valve's entries. */
  method AddExtraMetadata(cm: Dict, extraMetadata: string, parse: string -> Option<Json>) returns (r: Result<Dict>)
    ensures r == Overwritten(cm, extraMetadata, parse)
  {
    if AllSpace(extraMetadata) {
      return Ok(cm);
    }
    var em := parse(extraMetadata);
    if em.None? {
      return Err(DecodeError);
    }
    if !em.value.Obj? {
      return Err(AttributeError);
    }
    var updated := UpdateCustomMetadata(cm, em.value.fields);
    r := Ok(updated);
  }

  /** The inlet: the body it returns, or the exception it
    * raises. */
  method Inlet(body: Dict, user: Json, tagsValve: string, extraMetadata: string,
               parse: string -> Option<Json>, show: Json -> string) returns (r: Result<Dict>)
    ensures r == Filtered(body, user, tagsValve, extraMetadata, parse, show)
  {
    var session := Session(Moved(body));
    if session.Err? {
      return Err(session.error);
    }
    var b, cm := session.value.0, session.value.1;
    var named := TraceUser(b, cm, user, show);
    if named.Err? {
      return Err(named.error);
    }
    var tagged := MergeTags(named.value, tagsValve, parse);
    if tagged.Err? {
      return Err(tagged.error);
    }
    var extra := AddExtraMetadata(tagged.value, extraMetadata, parse);
    if extra.Err? {
      return Err(extra.error);
    }
    r := Ok(Set(b, "custom_metadata", Obj(extra.value)));
  }

  /** The message of the exception the valve update raises, for a decoder error
    * text `why`. */
  function ParseFailure(why: string): (m: string)
    ensures IsInfix(why, m)
  {
    var p := "Failed to parse extra_metadata as json dict: '";
    assert OccursAt(p + why + "'", |p|, why);
    p + why + "'"
  }

  /** The update hook only checks that the raw valve decodes
    * as JSON (of any kind); `why` is the decoder's error text. */
  function ValvesUpdated(extraMetadata: string, parse: string -> Option<Json>, why: string -> string): (r: Option<Exc>)
    ensures r.None? <==> parse(extraMetadata).Some?
    ensures r.Some? ==> r.value.Raised? && IsInfix(why(extraMetadata), r.value.msg)
  {
    if parse(extraMetadata).None? then Some(Raised(ParseFailure(why(extraMetadata)))) else None
  }

  /** What the hook's check buys the inlet: with an accepted valve, the
    * extra-metadata step fails only on JSON that is not a dict, and an
    * inlet step that succeeded on a non-blank valve means the hook accepts
    * it. */
  lemma ValvesAcceptedInlet(cm: Dict, extraMetadata: string, parse: string -> Option<Json>, why: string -> string)
    ensures ValvesUpdated(extraMetadata, parse, why).None? && Overwritten(cm, extraMetadata, parse).Err? ==>
              Overwritten(cm, extraMetadata, parse).error == AttributeError
    ensures ValvesUpdated(extraMetadata, parse, why).None? && !AllSpace(extraMetadata) ==>
              (Overwritten(cm, extraMetadata, parse).Ok? <==> parse(extraMetadata).value.Obj?)
    ensures !AllSpace(extraMetadata) && Overwritten(cm, extraMetadata, parse).Ok? ==>
              ValvesUpdated(extraMetadata, parse, why).None?
  {
  }
}
