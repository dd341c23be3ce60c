/** JSON values and Python dictionaries as the plugins see them.
  *
  * A Python dict keeps insertion order, which the plugins rely on (the Anki
  * field order, for instance), so an object is an ordered list of entries.
  * Assigning an existing key keeps its position; assigning a new key appends
  * it at the end. Python exceptions that the plugins raise or let escape are
  * the `Exc` datatype; an operation that may raise returns a `Result`.
  */
module Json {

  import opened Wrappers
  import opened Text

  /** The exceptions that matter to the plugins. Messages built from a
    * runtime value's repr are kept only when the value is a string. */
  datatype Exc =
    | KeyError(key: string)
    | TypeError
    | IndexError
    | AttributeError
    | NameError(name: string)
    | ValueError(msg: string)
    | AssertionError(msg: string)
    | Raised(msg: string)
    | Refused(limit: int)   // "I refuse to answer to chats with more than {limit} messages"
    | DecodeError           // json.JSONDecodeError
    | ImportError(msg: string)

  datatype Result<T> = Ok(value: T) | Err(error: Exc)

  /** Numbers are integers; floating point is not modelled. */
  datatype Json =
    | Null
    | Bool(b: bool)
    | Num(n: int)
    | Str(s: string)
    | Arr(items: seq<Json>)
    | Obj(fields: seq<(string, Json)>)

  type Dict = seq<(string, Json)>

  /** `str(type(v))`. */
  function TypeName(v: Json): string
  {
    match v
    case Null => "<class 'NoneType'>"
    case Bool(_) => "<class 'bool'>"
    case Num(_) => "<class 'int'>"
    case Str(_) => "<class 'str'>"
    case Arr(_) => "<class 'list'>"
    case Obj(_) => "<class 'dict'>"
  }

  /** `str(v)` in an f-string: a string is itself, other values go through
    * `show`, Python's `str` of the value. */
  function PyStr(v: Json, show: Json -> string): (r: string)
    ensures v.Str? ==> r == v.s
  {
    if v.Str? then v.s else show(v)
  }

  /** The dict held at `d[k]`, if `d[k]` is one. */
  function DictAt(d: Dict, k: string): (r: Option<Dict>)
    ensures r.Some? <==> HasKey(d, k) && Get(d, k).value.Obj?
    ensures r.Some? ==> Get(d, k) == Some(Obj(r.value))
  {
    match Get(d, k)
    case Some(Obj(f)) => Some(f)
    case _ => None
  }

  /** Python truthiness of a JSON-like value. */
  predicate Truthy(v: Json)
  {
    match v
    case Null => false
    case Bool(b) => b
    case Num(n) => n != 0
    case Str(s) => s != ""
    case Arr(items) => items != []
    case Obj(fields) => fields != []
  }

  function Keys(d: Dict): (ks: seq<string>)
    ensures |ks| == |d|
    ensures forall i :: 0 <= i < |d| ==> ks[i] == d[i].0
  {
    if d == [] then [] else [d[0].0] + Keys(d[1..])
  }

  predicate HasKey(d: Dict, k: string)
  {
    k in Keys(d)
  }

  /** Every key occurs once, as in a real Python dict. */
  predicate UniqueKeys(d: Dict)
  {
    forall i, j :: 0 <= i < j < |d| ==> d[i].0 != d[j].0
  }

  /** Index of the entry holding `k`. */
  function IndexOf(d: Dict, k: string): (r: Option<nat>)
    ensures r.Some? ==> r.value < |d| && d[r.value].0 == k
    ensures r.Some? ==> forall i :: 0 <= i < r.value ==> d[i].0 != k
    ensures r.None? <==> !HasKey(d, k)
  {
    if d == [] then None
    else if d[0].0 == k then Some(0)
    else match IndexOf(d[1..], k)
      case None => None
      case Some(i) => Some(i + 1)
  }

  /** `d.get(k)`, with `None` for an absent key. */
  function Get(d: Dict, k: string): (r: Option<Json>)
    ensures r.Some? <==> HasKey(d, k)
  {
    match IndexOf(d, k)
    case None => None
    case Some(i) => Some(d[i].1)
  }

  /** A value found under `k` is that of an entry for `k`: the first one. */
  lemma GetEntry(d: Dict, k: string)
    requires HasKey(d, k)
    ensures exists i :: 0 <= i < |d| && d[i] == (k, Get(d, k).value) && forall j :: 0 <= j < i ==> d[j].0 != k
  {
    var i := IndexOf(d, k).value;
    assert d[i] == (k, Get(d, k).value);
  }

  /** `d.get(k, default)`. */
  function GetOr(d: Dict, k: string, default: Json): (r: Json)
    ensures HasKey(d, k) ==> Some(r) == Get(d, k)
    ensures !HasKey(d, k) ==> r == default
  {
    match Get(d, k)
    case None => default
    case Some(v) => v
  }

  /** `x in c`: a dict's keys (which are strings), a list's items, or a
    * substring of a string; a list or dict cannot be a dict key. */
  function PyIn(x: Json, c: Json): (r: Result<bool>)
    ensures c.Arr? ==> r == Ok(x in c.items)
    ensures c.Obj? && x.Str? ==> r == Ok(HasKey(c.fields, x.s))
    ensures c.Str? && x.Str? ==> r == Ok(IsInfix(x.s, c.s))
    ensures r.Err? ==> r.error == TypeError
  {
    match c
    case Arr(items) => Ok(x in items)
    case Obj(f) => if x.Str? then Ok(HasKey(f, x.s)) else if x.Arr? || x.Obj? then Err(TypeError) else Ok(false)
    case Str(s) => if x.Str? then Ok(IsInfix(x.s, s)) else Err(TypeError)
    case _ => Err(TypeError)
  }

  /** `d[k] = v`: replaces the value in place, or appends a new entry. */
  function Set(d: Dict, k: string, v: Json): (r: Dict)
    ensures Get(r, k) == Some(v)
    ensures forall k' :: k' != k ==> Get(r, k') == Get(d, k')
    ensures HasKey(d, k) ==> |r| == |d| && Keys(r) == Keys(d)
    ensures !HasKey(d, k) ==> r == d + [(k, v)]
    ensures UniqueKeys(d) ==> UniqueKeys(r)
  {
    match IndexOf(d, k)
    case None =>
      SetAppends(d, k, v);
      d + [(k, v)]
    case Some(i) =>
      SetReplaces(d, i, k, v);
      d[i := (k, v)]
  }

  /** Assigning a key twice is assigning it once, with the last value. */
  lemma SetSet(d: Dict, k: string, a: Json, b: Json)
    ensures Set(Set(d, k, a), k, b) == Set(d, k, b)
  {
    match IndexOf(d, k)
    case None => SetSetNew(d, k, a, b);
    case Some(i) => SetSetAt(d, k, a, b, i);
  }

  lemma SetSetNew(d: Dict, k: string, a: Json, b: Json)
    requires IndexOf(d, k) == None
    ensures Set(Set(d, k, a), k, b) == Set(d, k, b)
  {
    SetNew(d, k, a);
    SetNew(d, k, b);
    IndexOfAppendNew(d, k, a);
    SetAt(d + [(k, a)], k, b, |d|);
    UpdateAppended(d, (k, a), (k, b));
  }

  lemma SetSetAt(d: Dict, k: string, a: Json, b: Json, i: nat)
    requires IndexOf(d, k) == Some(i)
    ensures Set(Set(d, k, a), k, b) == Set(d, k, b)
  {
    SetAt(d, k, a, i);
    SetAt(d, k, b, i);
    IndexOfFirst(d[i := (k, a)], k, i);
    SetAt(d[i := (k, a)], k, b, i);
    UpdateTwice(d, i, (k, a), (k, b));
  }

  lemma UpdateAppended<T>(s: seq<T>, x: T, y: T)
    ensures (s + [x])[|s| := y] == s + [y]
  {
    assert forall j :: 0 <= j < |s| ==> (s + [x])[|s| := y][j] == s[j];
  }

  lemma UpdateTwice<T>(s: seq<T>, i: nat, x: T, y: T)
    requires i < |s|
    ensures s[i := x][i := y] == s[i := y]
  {
  }

  /** Two assignments leave every other key alone. */
  lemma SetSetKeeps(d: Dict, k1: string, v1: Json, k2: string, v2: Json, k: string)
    requires k != k1 && k != k2
    ensures Get(Set(Set(d, k1, v1), k2, v2), k) == Get(d, k)
  {
  }

  /** `Set` on a key found at `i` replaces that entry. */
  lemma SetAt(d: Dict, k: string, v: Json, i: nat)
    requires IndexOf(d, k) == Some(i)
    ensures Set(d, k, v) == d[i := (k, v)]
  {
  }

  /** `Set` on a missing key appends it. */
  lemma SetNew(d: Dict, k: string, v: Json)
    requires IndexOf(d, k) == None
    ensures Set(d, k, v) == d + [(k, v)]
  {
  }

  /** Assigning a key the value it holds changes nothing. */
  lemma SetSame(d: Dict, k: string, v: Json)
    requires Get(d, k) == Some(v)
    ensures Set(d, k, v) == d
  {
    var i := IndexOf(d, k).value;
    assert d[i] == (k, v);
  }

  lemma SetAppends(d: Dict, k: string, v: Json)
    requires !HasKey(d, k)
    ensures Get(d + [(k, v)], k) == Some(v)
    ensures forall k' :: k' != k ==> Get(d + [(k, v)], k') == Get(d, k')
    ensures UniqueKeys(d) ==> UniqueKeys(d + [(k, v)])
  {
    forall k' | k' != k ensures IndexOf(d + [(k, v)], k') == IndexOf(d, k') {
      IndexOfAppend(d, k', (k, v));
    }
    IndexOfAppendNew(d, k, v);
  }

  lemma SetReplaces(d: Dict, i: nat, k: string, v: Json)
    requires IndexOf(d, k) == Some(i)
    ensures Get(d[i := (k, v)], k) == Some(v)
    ensures forall k' :: k' != k ==> Get(d[i := (k, v)], k') == Get(d, k')
    ensures Keys(d[i := (k, v)]) == Keys(d)
    ensures UniqueKeys(d) ==> UniqueKeys(d[i := (k, v)])
  {
    SetReplacesOthers(d, i, k, v);
    KeysUpdate(d, i, v);
    var r := d[i := (k, v)];
    forall j | 0 <= j < i ensures r[j].0 != k { assert r[j] == d[j]; }
    IndexOfFirst(r, k, i);
  }

  lemma SetReplacesOthers(d: Dict, i: nat, k: string, v: Json)
    requires i < |d| && d[i].0 == k
    ensures forall k' :: k' != k ==> Get(d[i := (k, v)], k') == Get(d, k')
  {
    forall k' | k' != k ensures Get(d[i := (k, v)], k') == Get(d, k') {
      SetReplacesOther(d, i, k, v, k');
    }
  }

  lemma SetReplacesOther(d: Dict, i: nat, k: string, v: Json, k': string)
    requires i < |d| && d[i].0 == k && k' != k
    ensures Get(d[i := (k, v)], k') == Get(d, k')
  {
    IndexOfUpdate(d, i, k, v, k');
    var m := IndexOf(d, k');
    if m.Some? {
      assert m.value != i;
      assert d[i := (k, v)][m.value] == d[m.value];
    }
  }

  /** Replacing a value leaves the keys as they were. */
  lemma KeysUpdate(d: Dict, i: nat, v: Json)
    requires i < |d|
    ensures Keys(d[i := (d[i].0, v)]) == Keys(d)
    ensures UniqueKeys(d) ==> UniqueKeys(d[i := (d[i].0, v)])
  {
    var r := d[i := (d[i].0, v)];
    assert forall j :: 0 <= j < |r| ==> r[j].0 == d[j].0;
    assert Keys(r) == Keys(d);
  }

  /** The first entry holding `k` is the one `IndexOf` finds. */
  lemma {:induction false} IndexOfFirst(d: Dict, k: string, i: nat)
    requires i < |d| && d[i].0 == k
    requires forall j :: 0 <= j < i ==> d[j].0 != k
    ensures IndexOf(d, k) == Some(i)
  {
    if i > 0 {
      IndexOfFirst(d[1..], k, i - 1);
    }
  }

  lemma {:induction false} IndexOfAppend(d: Dict, k: string, e: (string, Json))
    requires e.0 != k
    ensures IndexOf(d + [e], k) == IndexOf(d, k)
  {
    if d != [] {
      assert (d + [e])[1..] == d[1..] + [e];
      IndexOfAppend(d[1..], k, e);
    }
  }

  lemma {:induction false} IndexOfUpdate(d: Dict, i: nat, k: string, v: Json, k': string)
    requires i < |d| && d[i].0 == k && k' != k
    ensures IndexOf(d[i := (k, v)], k') == IndexOf(d, k')
  {
    var e := d[i := (k, v)];
    assert forall j :: 0 <= j < |e| ==> e[j].0 == d[j].0;
    match IndexOf(d, k')
    case Some(j) => IndexOfFirst(e, k', j);
    case None =>
      match IndexOf(e, k')
      case Some(j) => IndexOfFirst(d, k', j);
      case None =>
  }

  /** Lookup past a first entry that holds another key. */
  lemma GetTail(d: Dict, k: string)
    requires d != [] && d[0].0 != k
    ensures Get(d, k) == Get(d[1..], k)
    ensures HasKey(d, k) == HasKey(d[1..], k)
  {
  }

  /** `del d[k]` when `k` is present, or `d.pop(k, None)`. */
  function Remove(d: Dict, k: string): (r: Dict)
    ensures !HasKey(r, k)
    ensures forall k' :: k' != k ==> Get(r, k') == Get(d, k')
    ensures |r| <= |d|
    ensures forall e :: e in r ==> e in d
    ensures UniqueKeys(d) ==> UniqueKeys(r)
  {
    if d == [] then []
    else
      var t := Remove(d[1..], k);
      if d[0].0 == k then
        assert forall k' :: k' != k ==> Get(d, k') == Get(d[1..], k') by {
          forall k' | k' != k ensures Get(d, k') == Get(d[1..], k') { GetTail(d, k'); }
        }
        t
      else
        var r := [d[0]] + t;
        assert r[1..] == t;
        assert UniqueKeys(d) ==> UniqueKeys(r) by {
          if UniqueKeys(d) {
            assert UniqueKeys(d[1..]);
            forall j | 0 < j < |r| ensures r[0].0 != r[j].0 {
              assert r[j] in d[1..];
            }
          }
        }
        assert !HasKey(r, k) by { GetTail(r, k); }
        assert forall k' :: k' != k ==> Get(r, k') == Get(d, k') by {
          forall k' | k' != k ensures Get(r, k') == Get(d, k') {
            if k' != d[0].0 { GetTail(r, k'); GetTail(d, k'); }
          }
        }
        r
  }

  /** The keys of a dict are its first key and those of the rest. */
  lemma HasKeyFirst(d: Dict, k: string)
    requires d != []
    ensures HasKey(d, k) <==> k == d[0].0 || HasKey(d[1..], k)
  {
    assert Keys(d) == [d[0].0] + Keys(d[1..]);
  }

  /** `d[k] = v` adds `k` to the keys and no other. */
  lemma HasKeySet(d: Dict, k: string, v: Json, k': string)
    ensures HasKey(Set(d, k, v), k') <==> HasKey(d, k') || k' == k
  {
    assert Get(Set(d, k, v), k').Some? <==> Get(d, k').Some? || k' == k;
  }

  /** `d.update(e)`: the entries of `e` assigned one after another. */
  function Update(d: Dict, e: Dict): (r: Dict)
    decreases |e|
  {
    if e == [] then d else Update(Set(d, e[0].0, e[0].1), e[1..])
  }

  /** After `d.update(e)`, a key that `e` does not hold is as in `d`. */
  lemma {:induction false} UpdateOther(d: Dict, e: Dict, k: string)
    requires !HasKey(e, k)
    ensures Get(Update(d, e), k) == Get(d, k)
    decreases |e|
  {
    if e != [] {
      assert Keys(e)[0] == e[0].0;
      GetTail(e, k);
      UpdateOther(Set(d, e[0].0, e[0].1), e[1..], k);
    }
  }

  /** After `d.update(e)`, a key of `e` holds its value from `e`. */
  lemma {:induction false} UpdateHit(d: Dict, e: Dict, k: string)
    requires UniqueKeys(e) && HasKey(e, k)
    ensures Get(Update(d, e), k) == Get(e, k)
    decreases |e|
  {
    assert UniqueKeys(e[1..]);
    if k == e[0].0 {
      assert !HasKey(e[1..], k);
      UpdateOther(Set(d, e[0].0, e[0].1), e[1..], k);
    } else {
      GetTail(e, k);
      UpdateHit(Set(d, e[0].0, e[0].1), e[1..], k);
    }
  }

  /** After `d.update(e)`, the key of the `i`-th entry of `e` holds that
    * entry's value. */
  lemma UpdateHitAt(d: Dict, e: Dict, i: nat)
    requires UniqueKeys(e) && i < |e|
    ensures Get(Update(d, e), e[i].0) == Some(e[i].1)
  {
    assert Keys(e)[i] == e[i].0;
    UpdateHit(d, e, e[i].0);
  }

  /** A key no entry of `e` carries is not held by `e`. */
  lemma NotKey(e: Dict, k: string)
    requires forall i :: 0 <= i < |e| ==> e[i].0 != k
    ensures !HasKey(e, k)
  {
  }

  lemma {:induction false} IndexOfAppendNew(d: Dict, k: string, v: Json)
    requires !HasKey(d, k)
    ensures IndexOf(d + [(k, v)], k) == Some(|d|)
  {
    if d != [] {
      assert (d + [(k, v)])[1..] == d[1..] + [(k, v)];
      IndexOfAppendNew(d[1..], k, v);
    }
  }

  /** `obj[key]` on a value: a dict lookup, or the error Python raises. */
  function Index(v: Json, key: string): (r: Result<Json>)
    ensures r.Ok? <==> v.Obj? && HasKey(v.fields, key)
    ensures r.Ok? ==> Get(v.fields, key) == Some(r.value)
  {
    match v
    case Obj(f) => (match Get(f, key) case Some(x) => Ok(x) case None => Err(KeyError(key)))
    case _ => Err(TypeError)
  }

  /** A list without repeated items. */
  predicate Distinct(xs: seq<Json>)
  {
    forall i, j :: 0 <= i < j < |xs| ==> xs[i] != xs[j]
  }

  /** `len(v)`: list items, dict entries, string characters. */
  function Len(v: Json): (r: Result<nat>)
    ensures r.Ok? <==> v.Arr? || v.Obj? || v.Str?
    ensures v.Arr? ==> r == Ok(|v.items|)
  {
    match v
    case Arr(items) => Ok(|items|)
    case Obj(f) => Ok(|f|)
    case Str(s) => Ok(|s|)
    case _ => Err(TypeError)
  }

  /** `xs[start:]` with Python's reading of a negative start, counted
    * from the end, and of a start past either end. */
  function SliceFrom<T>(xs: seq<T>, start: int): (r: seq<T>)
    ensures |r| <= |xs| && r == xs[|xs| - |r|..]
    ensures 0 <= start <= |xs| ==> |r| == |xs| - start
    ensures -|xs| <= start < 0 ==> |r| == -start
  {
    if start < 0 then (if |xs| + start < 0 then xs else xs[|xs| + start..])
    else if start > |xs| then []
    else xs[start..]
  }

  /** `obj.get(key, default)`; only dicts have `.get`. */
  function GetAttr(v: Json, key: string, default: Json): (r: Result<Json>)
    ensures r.Ok? <==> v.Obj?
    ensures v.Obj? ==> r.value == GetOr(v.fields, key, default)
  {
    if v.Obj? then Ok(GetOr(v.fields, key, default)) else Err(AttributeError)
  }

  /** `key in v` for a string key: dict membership, list membership,
    * substring test; any other value raises a TypeError. */
  function Contains(v: Json, key: string): (r: Result<bool>)
    ensures v.Obj? ==> r == Ok(HasKey(v.fields, key))
    ensures v.Arr? ==> r == Ok(Str(key) in v.items)
    ensures (v.Null? || v.Bool? || v.Num?) ==> r == Err(TypeError)
  {
    match v
    case Obj(f) => Ok(HasKey(f, key))
    case Arr(items) => Ok(Str(key) in items)
    case Str(s) => Ok(IsInfix(key, s))
    case _ => Err(TypeError)
  }

  /** `[f(x) for x in xs]` where `f` may raise: the images of all the
    * elements, or the exception of the first element that raises. */
  function MapOk(xs: seq<Json>, f: Json -> Result<Json>): (r: Result<seq<Json>>)
    ensures r.Ok? <==> forall i :: 0 <= i < |xs| ==> f(xs[i]).Ok?
    ensures r.Ok? ==> |r.value| == |xs| && forall i :: 0 <= i < |xs| ==> f(xs[i]) == Ok(r.value[i])
    ensures r.Err? ==> exists i :: 0 <= i < |xs| && f(xs[i]) == Err(r.error) && forall k :: 0 <= k < i ==> f(xs[k]).Ok?
  {
    if xs == [] then Ok([])
    else
      match f(xs[0])
      case Err(e) => Err(e)
      case Ok(y) =>
        match MapOk(xs[1..], f)
        case Err(e) =>
          ghost var i :| 0 <= i < |xs[1..]| && f(xs[1..][i]) == Err(e) && forall k :: 0 <= k < i ==> f(xs[1..][k]).Ok?;
          assert f(xs[i + 1]) == Err(e) && forall k :: 0 <= k < i + 1 ==> f(xs[k]).Ok?;
          Err(e)
        case Ok(ys) => Ok([y] + ys)
  }

  /** One more element whose image is computed extends the images. */
  lemma {:induction false} MapOkSnoc(xs: seq<Json>, x: Json, f: Json -> Result<Json>)
    requires MapOk(xs, f).Ok? && f(x).Ok?
    ensures MapOk(xs + [x], f) == Ok(MapOk(xs, f).value + [f(x).value])
  {
    if xs == [] {
      assert xs + [x] == [x] && [x][1..] == [];
      assert MapOk([x], f) == Ok([f(x).value] + []);
      assert MapOk(xs, f).value + [f(x).value] == [f(x).value] + [];
    } else {
      assert (xs + [x])[0] == xs[0] && (xs + [x])[1..] == xs[1..] + [x];
      MapOkSnoc(xs[1..], x, f);
      assert [f(xs[0]).value] + (MapOk(xs[1..], f).value + [f(x).value])
          == ([f(xs[0]).value] + MapOk(xs[1..], f).value) + [f(x).value];
    }
  }

  /** The first element that raises decides the exception. */
  lemma {:induction false} MapOkFirstErr(xs: seq<Json>, f: Json -> Result<Json>, p: nat)
    requires p < |xs| && f(xs[p]).Err?
    requires forall k :: 0 <= k < p ==> f(xs[k]).Ok?
    ensures MapOk(xs, f) == Err(f(xs[p]).error)
  {
    if p > 0 {
      MapOkFirstErr(xs[1..], f, p - 1);
    }
  }

  /** A prefix whose images are all computed, followed by an element that
    * raises, decides the exception. */
  lemma MapOkStops(xs: seq<Json>, f: Json -> Result<Json>, k: nat)
    requires k < |xs| && MapOk(xs[..k], f).Ok? && f(xs[k]).Err?
    ensures MapOk(xs, f) == Err(f(xs[k]).error)
  {
    forall i | 0 <= i < k
      ensures f(xs[i]).Ok?
    {
      assert xs[..k][i] == xs[i];
    }
    MapOkFirstErr(xs, f, k);
  }

  /** Elements that are their own images are kept. */
  lemma {:induction false} MapOkFixed(xs: seq<Json>, f: Json -> Result<Json>)
    requires forall i :: 0 <= i < |xs| ==> f(xs[i]) == Ok(xs[i])
    ensures MapOk(xs, f) == Ok(xs)
  {
    var r := MapOk(xs, f);
    assert forall i :: 0 <= i < |xs| ==> f(xs[i]).Ok?;
    assert r.Ok?;
    assert |r.value| == |xs|;
    forall i | 0 <= i < |xs|
      ensures r.value[i] == xs[i]
    {
      assert f(xs[i]) == Ok(r.value[i]) && f(xs[i]) == Ok(xs[i]);
    }
    assert r.value == xs;
  }

  /** What `f` gives for each element, concatenated in order. */
  function FlatMap<T>(xs: seq<Json>, f: Json -> seq<T>): seq<T>
  {
    if xs == [] then [] else f(xs[0]) + FlatMap(xs[1..], f)
  }

  lemma {:induction false} FlatMapSnoc<T>(xs: seq<Json>, x: Json, f: Json -> seq<T>)
    ensures FlatMap(xs + [x], f) == FlatMap(xs, f) + f(x)
  {
    if xs == [] {
      assert [x][1..] == [];
    } else {
      assert (xs + [x])[1..] == xs[1..] + [x];
      FlatMapSnoc(xs[1..], x, f);
    }
  }

  lemma FlatMapInit<T>(xs: seq<Json>, f: Json -> seq<T>)
    requires xs != []
    ensures FlatMap(xs, f) == FlatMap(xs[..|xs| - 1], f) + f(xs[|xs| - 1])
  {
    assert xs == xs[..|xs| - 1] + [xs[|xs| - 1]];
    FlatMapSnoc(xs[..|xs| - 1], xs[|xs| - 1], f);
  }

  /** `acc = ""` then `acc += f(x)` for each element in order, where `f`
    * may raise: the texts of all the elements joined, or the exception of
    * the first one that raises. */
  function Joined(xs: seq<Json>, f: Json -> Result<string>): Result<string>
    decreases |xs|
  {
    if xs == [] then Ok("")
    else
      match Joined(xs[..|xs| - 1], f)
      case Err(e) => Err(e)
      case Ok(s) =>
        match f(xs[|xs| - 1])
        case Err(e) => Err(e)
        case Ok(t) => Ok(s + t)
  }

  /** The join succeeds exactly when every element gives a text. */
  lemma {:induction false} JoinedOk(xs: seq<Json>, f: Json -> Result<string>)
    ensures Joined(xs, f).Ok? <==> forall i :: 0 <= i < |xs| ==> f(xs[i]).Ok?
    decreases |xs|
  {
    if xs != [] {
      var init := xs[..|xs| - 1];
      JoinedOk(init, f);
      assert forall i :: 0 <= i < |init| ==> init[i] == xs[i];
    }
  }

  /** One element is joined into its own text. */
  lemma JoinedOne(x: Json, f: Json -> Result<string>)
    ensures f(x).Ok? ==> Joined([x], f) == f(x)
    ensures f(x).Err? ==> Joined([x], f) == f(x)
  {
    assert [x][..0] == [];
    if f(x).Ok? {
      assert "" + f(x).value == f(x).value;
    }
  }

  /** Once a prefix of the elements raises, the whole list raises the
    * same way. */
  lemma {:induction false} JoinedErrorLasts(xs: seq<Json>, f: Json -> Result<string>, k: nat)
    requires k <= |xs| && Joined(xs[..k], f).Err?
    ensures Joined(xs, f) == Joined(xs[..k], f)
    decreases |xs| - k
  {
    if k < |xs| {
      assert xs[..k + 1][..k] == xs[..k];
      JoinedErrorLasts(xs, f, k + 1);
    } else {
      assert xs[..k] == xs;
    }
  }

  /** A loop that replaces each element of a list by its image under `f`
    * in turn, as `for i, x in enumerate(xs): xs[i] = f(x)` does. When `f`
    * raises at element `p`, the elements before it are already replaced and
    * the others are as they were. */
  method MapEach(xs: seq<Json>, f: Json -> Result<Json>) returns (r: seq<Json>, error: Option<Exc>, ghost p: nat)
    ensures error.None? ==> MapOk(xs, f) == Ok(r)
    ensures error.Some? ==> MapOk(xs, f) == Err(error.value)
    ensures error.Some? ==> p < |xs| && MapOk(xs[..p], f).Ok? && r == MapOk(xs[..p], f).value + xs[p..]
  {
    r := xs;
    error := None;
    p := 0;
    var k := 0;
    while k < |xs|
      invariant 0 <= k <= |xs| && |r| == |xs|
      invariant forall i :: 0 <= i < k ==> f(xs[i]) == Ok(r[i])
      invariant forall i :: k <= i < |xs| ==> r[i] == xs[i]
    {
      var y := f(xs[k]);
      if y.Err? {
        error := Some(y.error);
        p := k;
        MapOkFirstErr(xs, f, k);
        assert MapOk(xs[..k], f).value == r[..k];
        assert r == r[..k] + xs[k..];
        return;
      }
      r := r[k := y.value];
      k := k + 1;
    }
    assert MapOk(xs, f).value == r;
  }

  /** A loop that replaces each element of an array by its image under
    * `f`, in place and in order; the first exception stops it, with the
    * elements before it replaced and the others as they were. */
  method RewriteEach(a: array<Json>, f: Json -> Result<Json>) returns (error: Option<Exc>, ghost k: nat)
    modifies a
    ensures error.None? ==> forall j :: 0 <= j < a.Length ==> f(old(a[j])) == Ok(a[j])
    ensures error.Some? ==> && k < a.Length && f(old(a[k])) == Err(error.value) && a[k..] == old(a[k..])
                            && forall j :: 0 <= j < k ==> f(old(a[j])) == Ok(a[j])
  {
    var i := 0;
    k := 0;
    while i < a.Length
      invariant 0 <= i <= a.Length
      invariant a[i..] == old(a[i..])
      invariant forall j :: 0 <= j < i ==> f(old(a[j])) == Ok(a[j])
    {
      var r := f(a[i]);
      if r.Err? {
        k := i;
        return Some(r.error), k;
      }
      a[i] := r.value;
      i := i + 1;
    }
    error := None;
  }

  /** `MapEach` written back into the array it was given. */
  method UpdateEach(a: array<Json>, f: Json -> Result<Json>) returns (error: Option<Exc>, ghost p: nat)
    modifies a
    ensures error.None? ==> MapOk(old(a[..]), f) == Ok(a[..])
    ensures error.Some? ==> MapOk(old(a[..]), f) == Err(error.value)
    ensures error.Some? ==> && p < a.Length && MapOk(old(a[..])[..p], f).Ok?
                            && a[..] == MapOk(old(a[..])[..p], f).value + old(a[..])[p..]
  {
    var r;
    r, error, p := MapEach(a[..], f);
    forall k | 0 <= k < a.Length {
      a[k] := r[k];
    }
    assert a[..] == r;
  }

  /** A loop that updates the elements of a list in place, one after the
    * other, with a step that gives the element as it leaves the step and the
    * exception the step raised, if any. The first exception stops the loop:
    * that element keeps what its step did before raising, and the elements
    * after it are as they were. */
  function MapUntil(xs: seq<Json>, f: Json -> (Json, Option<Exc>)): (r: (seq<Json>, Option<Exc>))
    ensures |r.0| == |xs|
    ensures r.1.None? <==> forall i :: 0 <= i < |xs| ==> f(xs[i]).1.None?
    ensures r.1.None? ==> forall i :: 0 <= i < |xs| ==> r.0[i] == f(xs[i]).0
  {
    if xs == [] then ([], None)
    else
      var y := f(xs[0]);
      if y.1.Some? then ([y.0] + xs[1..], y.1)
      else
        var rest := MapUntil(xs[1..], f);
        assert forall i :: 1 <= i < |xs| ==> xs[i] == xs[1..][i - 1];
        ([y.0] + rest.0, rest.1)
  }

  /** The step that raises first decides the exception and where the
    * updates stop. */
  lemma {:induction false} MapUntilStops(xs: seq<Json>, f: Json -> (Json, Option<Exc>), p: nat)
    requires p < |xs| && f(xs[p]).1.Some?
    requires forall k :: 0 <= k < p ==> f(xs[k]).1.None?
    ensures MapUntil(xs, f).1 == f(xs[p]).1
    ensures forall i :: 0 <= i <= p ==> MapUntil(xs, f).0[i] == f(xs[i]).0
    ensures MapUntil(xs, f).0[p + 1..] == xs[p + 1..]
  {
    var r := MapUntil(xs, f);
    if p == 0 {
      assert r == ([f(xs[0]).0] + xs[1..], f(xs[0]).1);
    } else {
      var tail := xs[1..];
      assert forall k :: 0 <= k < p - 1 ==> tail[k] == xs[k + 1];
      MapUntilStops(tail, f, p - 1);
      var rest := MapUntil(tail, f);
      assert r.0 == [f(xs[0]).0] + rest.0 && r.1 == rest.1;
      forall i | 0 <= i <= p
        ensures r.0[i] == f(xs[i]).0
      {
        if i > 0 {
          assert r.0[i] == rest.0[i - 1] && tail[i - 1] == xs[i];
        }
      }
      assert tail[p..] == xs[p + 1..];
      assert r.0[p + 1..] == rest.0[p..];
    }
  }

  /** The loop `MapUntil` describes. */
  method UpdateUntil(xs: seq<Json>, f: Json -> (Json, Option<Exc>)) returns (r: seq<Json>, error: Option<Exc>)
    ensures (r, error) == MapUntil(xs, f)
  {
    r := xs;
    var k := 0;
    while k < |xs|
      invariant 0 <= k <= |xs| && |r| == |xs|
      invariant forall i :: 0 <= i < k ==> f(xs[i]).1.None? && r[i] == f(xs[i]).0
      invariant r[k..] == xs[k..]
    {
      var y := f(xs[k]);
      r := r[k := y.0];
      if y.1.Some? {
        MapUntilStops(xs, f, k);
        assert r[k + 1..] == xs[k + 1..];
        assert r == MapUntil(xs, f).0;
        return r, y.1;
      }
      assert r[k + 1..] == xs[k + 1..];
      k := k + 1;
    }
    assert r == MapUntil(xs, f).0;
    return r, None;
  }

  /** Two lists that agree except for the last element. */
  /** Replacing the last element keeps the others. */
  lemma LastUpdateKeepsInit(a: seq<Json>, x: Json)
    requires a != []
    ensures |a[|a| - 1 := x]| == |a| && a[|a| - 1 := x][..|a| - 1] == a[..|a| - 1]
  {
  }

  lemma UpdateLast(a: seq<Json>, b: seq<Json>, x: Json)
    requires |a| == |b| > 0 && a[..|a| - 1] == b[..|b| - 1] && a[|a| - 1] == x
    ensures a == b[|b| - 1 := x]
  {
    assert forall i :: 0 <= i < |a| - 1 ==> a[i] == a[..|a| - 1][i];
  }

  /** Every value is a string. */
  predicate AllStr(js: seq<Json>)
  {
    forall i :: 0 <= i < |js| ==> js[i].Str?
  }

  lemma AllStrConcat(a: seq<Json>, b: seq<Json>)
    ensures AllStr(a + b) <==> AllStr(a) && AllStr(b)
  {
    assert forall i :: 0 <= i < |a| ==> a[i] == (a + b)[i];
    assert forall i :: 0 <= i < |b| ==> b[i] == (a + b)[|a| + i];
    if AllStr(a) && AllStr(b) {
      forall i | 0 <= i < |a + b|
        ensures (a + b)[i].Str?
      {
        if i >= |a| {
          assert (a + b)[i] == b[i - |a|];
        }
      }
    }
  }

  /** The texts of values; a value that is not a string counts as "". */
  function Texts(js: seq<Json>): (r: seq<string>)
    ensures |r| == |js|
    ensures forall i :: 0 <= i < |js| ==> r[i] == (if js[i].Str? then js[i].s else "")
  {
    seq(|js|, i requires 0 <= i < |js| => if js[i].Str? then js[i].s else "")
  }

  /** The values `for x in v` visits: the items of a list, the keys of a
    * dict, the characters of a string; anything else raises a TypeError. */
  function Iterate(v: Json): (r: Result<seq<Json>>)
    ensures v.Arr? ==> r == Ok(v.items)
    ensures v.Obj? ==> r.Ok? && |r.value| == |v.fields| && forall i :: 0 <= i < |v.fields| ==> r.value[i] == Str(v.fields[i].0)
    ensures v.Str? ==> r.Ok? && |r.value| == |v.s| && forall i :: 0 <= i < |v.s| ==> r.value[i] == Str([v.s[i]])
    ensures (v.Null? || v.Bool? || v.Num?) <==> r.Err?
  {
    match v
    case Arr(items) => Ok(items)
    case Obj(f) => Ok(seq(|f|, i requires 0 <= i < |f| => Str(f[i].0)))
    case Str(s) => Ok(seq(|s|, i requires 0 <= i < |s| => Str([s[i]])))
    case _ => Err(TypeError)
  }
}
