/** The context manager of the wdoc tool that sets environment variables
  * for the length of a call into wdoc and then puts the environment back
  * as it was.
  */
module EnvVars {

  import opened Wrappers
  import opened Text
  import opened Json

  type Env = map<string, string>

  /** The process environment, `os.environ`. */
  class Environment {
    var vars: Env

    constructor(vars: Env)
      ensures this.vars == vars
    {
      this.vars := vars;
    }
  }

  /** `os.environ.get(k)`. */
  function Lookup(e: Env, k: string): (r: Option<string>)
    ensures r.Some? <==> k in e
    ensures r.Some? ==> r.value == e[k]
  {
    if k in e then Some(e[k]) else None
  }

  /** Puts back a recorded value: `None` deletes the variable. */
  function Put(e: Env, k: string, o: Option<string>): (r: Env)
    ensures Lookup(r, k) == o
    ensures forall k' :: k' != k ==> Lookup(r, k') == Lookup(e, k')
  {
    if o.None? then e - {k} else e[k := o.value]
  }

  /** Two environments that agree on every variable are the same. */
  lemma SameLookups(a: Env, b: Env)
    requires forall k :: Lookup(a, k) == Lookup(b, k)
    ensures a == b
  {
    assert forall k :: k in a <==> Lookup(a, k).Some?;
    assert forall k :: k in a ==> a[k] == Lookup(b, k).value;
  }

  predicate AllText(d: Dict)
  {
    forall i :: 0 <= i < |d| ==> d[i].1.Str?
  }

  lemma SetKeepsText(d: Dict, k: string, v: string)
    requires AllText(d)
    ensures AllText(Set(d, k, Str(v)))
  {
    match IndexOf(d, k)
    case None =>
    case Some(i) =>
  }

  /** `{k.upper(): str(v) for k, v in env_vars.items()}`: a later key that
    * upper-cases like an earlier one takes its place and value. */
  function Managed(vars: Dict, show: Json -> string): (r: Dict)
    ensures UniqueKeys(r) && AllText(r)
    ensures |r| <= |vars|
    decreases |vars|
  {
    if vars == [] then []
    else
      var n := |vars| - 1;
      var r := Managed(vars[..n], show);
      SetKeepsText(r, Upper(vars[n].0), PyStr(vars[n].1, show));
      Set(r, Upper(vars[n].0), Str(PyStr(vars[n].1, show)))
  }

  /** The upper-case names of the variables, in order. */
  function UpperNames(vars: Dict): (r: seq<string>)
    ensures |r| == |vars|
  {
    if vars == [] then [] else UpperNames(vars[..|vars| - 1]) + [Upper(vars[|vars| - 1].0)]
  }

  /** The `i`-th name is the upper-case name of the `i`-th variable. */
  lemma {:induction false} UpperNamesAt(vars: Dict, i: nat)
    requires i < |vars|
    ensures UpperNames(vars)[i] == Upper(vars[i].0)
    decreases |vars|
  {
    var n := |vars| - 1;
    if i < n {
      UpperNamesAt(vars[..n], i);
      assert vars[..n][i] == vars[i];
    }
  }

  /** Every variable given is managed, under its upper-case name, and
    * nothing else is. */
  lemma {:induction false} ManagedNames(vars: Dict, show: Json -> string, k: string)
    ensures HasKey(Managed(vars, show), k) <==> k in UpperNames(vars)
    decreases |vars|
  {
    if vars != [] {
      var n := |vars| - 1;
      ManagedNames(vars[..n], show, k);
      var r := Managed(vars[..n], show);
      var name := Upper(vars[n].0);
      assert UpperNames(vars) == UpperNames(vars[..n]) + [name];
      if name != k {
        assert Get(Managed(vars, show), k) == Get(r, k);
      } else {
        assert Get(Managed(vars, show), k).Some?;
      }
    }
  }

  /** The value of a managed variable is the text of the last value given
    * under that upper-case name. */
  lemma {:induction false} ManagedValue(vars: Dict, show: Json -> string, i: nat)
    requires i < |vars| && UpperNames(vars)[i] !in UpperNames(vars)[i + 1..]
    ensures Get(Managed(vars, show), UpperNames(vars)[i]) == Some(Str(PyStr(vars[i].1, show)))
    decreases |vars|
  {
    var n := |vars| - 1;
    if i < n {
      NamesInit(vars, i);
      ManagedValue(vars[..n], show, i);
      assert vars[..n][i] == vars[i];
      ManagedOther(vars, show, UpperNames(vars)[i]);
    } else {
      assert UpperNames(vars) == UpperNames(vars[..n]) + [Upper(vars[n].0)];
      ManagedLast(vars, show);
    }
  }

  /** A name that does not come back later is the same name, still not
    * coming back, among all but the last variable, and is not the last
    * variable's. */
  lemma NamesInit(vars: Dict, i: nat)
    requires i < |vars| - 1 && UpperNames(vars)[i] !in UpperNames(vars)[i + 1..]
    ensures var n := |vars| - 1;
            && UpperNames(vars[..n])[i] == UpperNames(vars)[i]
            && UpperNames(vars)[i] !in UpperNames(vars[..n])[i + 1..]
            && UpperNames(vars)[i] != Upper(vars[n].0)
  {
    var n := |vars| - 1;
    UpperNamesSnoc(vars);
    assert |UpperNames(vars[..n])| == n;
    assert UpperNames(vars)[i] !in UpperNames(vars)[i + 1..];
    NotInInit(UpperNames(vars), UpperNames(vars[..n]), Upper(vars[n].0), i);
  }

  lemma NotInInit<T>(xs: seq<T>, init: seq<T>, last: T, i: nat)
    requires xs == init + [last] && i < |init| && xs[i] !in xs[i + 1..]
    ensures init[i] == xs[i] && xs[i] !in init[i + 1..] && xs[i] != last
  {
    var tail, initTail := xs[i + 1..], init[i + 1..];
    forall j | 0 <= j < |initTail| ensures initTail[j] != xs[i] {
      assert initTail[j] == tail[j];
    }
    assert last == tail[|init| - i - 1];
  }

  lemma UpperNamesSnoc(vars: Dict)
    requires vars != []
    ensures var n := |vars| - 1;
            UpperNames(vars) == UpperNames(vars[..n]) + [Upper(vars[n].0)]
  {
  }

  lemma ManagedLast(vars: Dict, show: Json -> string)
    requires vars != []
    ensures Get(Managed(vars, show), Upper(vars[|vars| - 1].0)) == Some(Str(PyStr(vars[|vars| - 1].1, show)))
  {
    var n := |vars| - 1;
    var v := Str(PyStr(vars[n].1, show));
    assert Get(Set(Managed(vars[..n], show), Upper(vars[n].0), v), Upper(vars[n].0)) == Some(v);
  }

  lemma ManagedOther(vars: Dict, show: Json -> string, k: string)
    requires vars != [] && k != Upper(vars[|vars| - 1].0)
    ensures Get(Managed(vars, show), k) == Get(Managed(vars[..|vars| - 1], show), k)
  {
  }

  /** `__enter__`, one variable at a time: the current value, or `None`,
    * is recorded and then the new value is set. */
  function Entered(o: map<string, Option<string>>, e: Env, vs: Dict): (r: (map<string, Option<string>>, Env))
    requires AllText(vs)
    decreases |vs|
  {
    if vs == [] then (o, e)
    else
      var n := |vs| - 1;
      var (o', e') := Entered(o, e, vs[..n]);
      (o'[vs[n].0 := Lookup(e', vs[n].0)], e'[vs[n].0 := vs[n].1.s])
  }

  /** After `__enter__`, a variable that is not managed holds its former
    * value and its record, if any, is untouched. */
  lemma {:induction false} EnteredOthers(o: map<string, Option<string>>, e: Env, vs: Dict, k: string)
    requires AllText(vs)
    requires forall j :: 0 <= j < |vs| ==> vs[j].0 != k
    ensures Lookup(Entered(o, e, vs).1, k) == Lookup(e, k)
    ensures k in Entered(o, e, vs).0 <==> k in o
    ensures k in o ==> Entered(o, e, vs).0[k] == o[k]
    decreases |vs|
  {
    if vs != [] {
      var n := |vs| - 1;
      assert forall j :: 0 <= j < n ==> vs[..n][j] == vs[j];
      EnteredOthers(o, e, vs[..n], k);
    }
  }

  /** After `__enter__`, a managed variable holds its new value and its
    * former value is recorded. */
  lemma {:induction false} EnteredManaged(o: map<string, Option<string>>, e: Env, vs: Dict, i: nat)
    requires AllText(vs) && UniqueKeys(vs) && i < |vs|
    ensures Lookup(Entered(o, e, vs).1, vs[i].0) == Some(vs[i].1.s)
    ensures vs[i].0 in Entered(o, e, vs).0 && Entered(o, e, vs).0[vs[i].0] == Lookup(e, vs[i].0)
    decreases |vs|
  {
    var n := |vs| - 1;
    var pre := vs[..n];
    assert forall j :: 0 <= j < n ==> pre[j] == vs[j];
    if i < n {
      EnteredManaged(o, e, pre, i);
    } else {
      EnteredOthers(o, e, pre, vs[n].0);
    }
  }

  /** `__exit__`, one key at a time: each variable is put back to its
    * recorded value; a key without a record raises `KeyError`. */
  function Exited(o: map<string, Option<string>>, e: Env, ks: seq<string>): (r: (Env, Option<Exc>))
    decreases |ks|
  {
    if ks == [] then (e, None)
    else
      var n := |ks| - 1;
      var (e', error) := Exited(o, e, ks[..n]);
      if error.Some? then (e', error)
      else if ks[n] !in o then (e', Some(KeyError(ks[n])))
      else (Put(e', ks[n], o[ks[n]]), None)
  }

  /** With every key recorded, `__exit__` raises nothing, puts each key
    * back to its record, and leaves every other variable alone. */
  lemma {:induction false} ExitedRestores(o: map<string, Option<string>>, e: Env, ks: seq<string>, k: string)
    requires forall i :: 0 <= i < |ks| ==> ks[i] in o
    ensures Exited(o, e, ks).1 == None
    ensures k in ks ==> Lookup(Exited(o, e, ks).0, k) == o[k]
    ensures k !in ks ==> Lookup(Exited(o, e, ks).0, k) == Lookup(e, k)
    decreases |ks|
  {
    if ks != [] {
      var n := |ks| - 1;
      assert forall i :: 0 <= i < n ==> ks[..n][i] == ks[i];
      ExitedRestores(o, e, ks[..n], k);
      assert ks == ks[..n] + [ks[n]];
    }
  }

  /** A key without a record makes `__exit__` raise. */
  lemma {:induction false} ExitedRaises(o: map<string, Option<string>>, e: Env, ks: seq<string>, i: nat)
    requires i < |ks| && ks[i] !in o
    ensures Exited(o, e, ks).1.Some?
    decreases |ks|
  {
    var n := |ks| - 1;
    if i < n {
      assert ks[..n][i] == ks[i];
      ExitedRaises(o, e, ks[..n], i);
    }
  }

  /** Entering and then leaving the context is a round trip on the
    * environment. */
  lemma EnterExitRoundTrip(o: map<string, Option<string>>, e: Env, vs: Dict)
    requires AllText(vs) && UniqueKeys(vs)
    ensures var (o', e') := Entered(o, e, vs);
            Exited(o', e', Keys(vs)) == (e, None)
  {
    var (o', e') := Entered(o, e, vs);
    var ks := Keys(vs);
    forall i | 0 <= i < |ks|
      ensures ks[i] in o'
    {
      EnteredManaged(o, e, vs, i);
    }
    forall k
      ensures Lookup(Exited(o', e', ks).0, k) == Lookup(e, k)
    {
      ExitedRestores(o', e', ks, k);
      if k in ks {
        var i :| 0 <= i < |ks| && ks[i] == k;
        EnteredManaged(o, e, vs, i);
      } else {
        EnteredOthers(o, e, vs, k);
      }
    }
    ExitedRestores(o', e', ks, "");
    SameLookups(Exited(o', e', ks).0, e);
  }

  /** `EnvVarContext`. */
  class EnvVarContext {
    var envVars: Dict
    var originals: map<string, Option<string>>

    ghost predicate Valid()
      reads this
    {
      UniqueKeys(envVars) && AllText(envVars)
    }

    /** `__init__`: the variables to manage, names upper-cased and values
      * made text, and no record yet. */
    constructor(vars: Dict, show: Json -> string)
      ensures Valid()
      ensures envVars == Managed(vars, show) && originals == map[]
    {
      envVars := Managed(vars, show);
      originals := map[];
    }

    /** `__enter__`. */
    method Enter(env: Environment)
      requires Valid()
      modifies this, env
      ensures Valid() && envVars == old(envVars)
      ensures (originals, env.vars) == Entered(old(originals), old(env.vars), envVars)
    {
      var vs := envVars;
      for i := 0 to |vs|
        invariant envVars == vs
        invariant (originals, env.vars) == Entered(old(originals), old(env.vars), vs[..i])
      {
        assert vs[..i + 1][..i] == vs[..i];
        var key := vs[i].0;
        if key in env.vars {
          originals := originals[key := Some(env.vars[key])];
        } else {
          originals := originals[key := None];
        }
        env.vars := env.vars[key := vs[i].1.s];
      }
      assert vs[..|vs|] == vs;
    }

    /** `__exit__`; the error is the `KeyError` of a key never entered. */
    method Exit(env: Environment) returns (error: Option<Exc>)
      modifies env
      ensures (env.vars, error) == Exited(originals, old(env.vars), Keys(envVars))
    {
      var ks := Keys(envVars);
      for i := 0 to |ks|
        invariant Exited(originals, old(env.vars), ks[..i]) == (env.vars, None)
      {
        assert ks[..i + 1][..i] == ks[..i];
        var key := ks[i];
        if key !in originals {
          assert Exited(originals, old(env.vars), ks[..i + 1]).1.Some?;
          ExitedPrefixRaises(originals, old(env.vars), ks, i + 1);
          return Some(KeyError(key));
        }
        env.vars := Put(env.vars, key, originals[key]);
      }
      assert ks[..|ks|] == ks;
      return None;
    }

    /** `with EnvVarContext(vars):` around a body that leaves the
      * environment alone: afterwards the environment is as before. */
    method Around(env: Environment) returns (error: Option<Exc>)
      requires Valid()
      modifies this, env
      ensures error == None && env.vars == old(env.vars)
    {
      Enter(env);
      EnterExitRoundTrip(old(originals), old(env.vars), envVars);
      error := Exit(env);
    }
  }

  /** Once `__exit__` raises on a prefix of the keys, it raises on them
    * all, with the same environment. */
  lemma {:induction false} ExitedPrefixRaises(o: map<string, Option<string>>, e: Env, ks: seq<string>, n: nat)
    requires n <= |ks| && Exited(o, e, ks[..n]).1.Some?
    ensures Exited(o, e, ks) == Exited(o, e, ks[..n])
    decreases |ks| - n
  {
    if n < |ks| {
      assert ks[..n + 1][..n] == ks[..n];
      ExitedPrefixRaises(o, e, ks, n + 1);
    } else {
      assert ks[..n] == ks;
    }
  }
}
