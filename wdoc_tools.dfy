/** The wdoc tool: it checks its valves, lets a user's valves add to the
  * keyword arguments and environment variables an administrator set, and
  * calls wdoc to parse or summarize a url inside a context that puts the
  * environment back afterwards.
  */
module WdocTools {

  import opened Wrappers
  import opened Text
  import opened Json
  import opened EnvVars

  /** The administrator's valves. The four switches are kept as values
    * because the tool checks at run time that they are booleans; the three
    * JSON texts are strings. */
  datatype Valves = Valves(allowOverride: Json, alwaysUnimport: Json, useCitations: Json, useCitationsForParse: Json,
                           summaryKwargs: string, parseKwargs: string, envVariables: string)

  // Each fixed text is written as a join of short literals, at most 16
  // characters each, because the verifier handles these much more cheaply
  // than one long literal. The constant's value is the plain join.
  const DefaultEnv :=
    "{\"WDOC_LITELLM_U" + "SER\": \"$USER\", " + "\"WDOC_LITELLM_TA" + "GS\": "
    + "\"open-webui\", " + "\"WDOC_STRICT_DOC" + "DICT\": \"False\"}"

  const DefaultValves := Valves(Bool(true), Bool(false), Bool(false), Bool(false), "{}", "{}", DefaultEnv)

  /** What `on_valves_updated` writes on the tool: the three loaded
    * dictionaries and two of the switches. `Null` stands for an attribute
    * not written yet. */
  datatype Settings = Settings(summary: Json, parse: Json, env: Json, allow: Json, unimport: Json)

  const Unset := Settings(Null, Null, Null, Null, Null)

  function MustBeDict(name: string, v: Json): string
  {
    name + " must be a dictionary, got " + TypeName(v)
  }

  function MustBeBool(name: string, v: Json): string
  {
    name + " must be a boolean, got " + TypeName(v)
  }

  /** The checks on the four switches, in order, once the three texts have
    * loaded as dictionaries; `allow` and `unimport` are written as soon as
    * they pass. */
  function Switched(s: Settings, v: Valves): (r: (Settings, Option<Exc>))
  {
    if !v.allowOverride.Bool? then (s, Some(AssertionError(MustBeBool("allow_user_valves_override", v.allowOverride))))
    else
      var s4 := s.(allow := v.allowOverride);
      if !v.alwaysUnimport.Bool? then (s4, Some(AssertionError(MustBeBool("always_unimport_wdoc", v.alwaysUnimport))))
      else
        var s5 := s4.(unimport := v.alwaysUnimport);
        if !v.useCitations.Bool? then (s5, Some(AssertionError(MustBeBool("use_citations", v.useCitations))))
        else if !v.useCitationsForParse.Bool? then (s5, Some(AssertionError(MustBeBool("use_citations_for_parse", v.useCitationsForParse))))
        else (s5, None)
  }

  /** `on_valves_updated`: each text is loaded and written before it is
    * checked to be a dictionary, so a failed check leaves the value that
    * failed it on the tool; a text that does not load writes nothing. */
  function Updated(s: Settings, v: Valves, parse: string -> Option<Json>): (r: (Settings, Option<Exc>))
  {
    match parse(v.summaryKwargs)
    case None => (s, Some(DecodeError))
    case Some(sk) =>
      var s1 := s.(summary := sk);
      if !sk.Obj? then (s1, Some(AssertionError(MustBeDict("summary_kwargs", sk))))
      else match parse(v.parseKwargs)
      case None => (s1, Some(DecodeError))
      case Some(pk) =>
        var s2 := s1.(parse := pk);
        if !pk.Obj? then (s2, Some(AssertionError(MustBeDict("parse_kwargs", pk))))
        else match parse(v.envVariables)
        case None => (s2, Some(DecodeError))
        case Some(ev) =>
          var s3 := s2.(env := ev);
          if !ev.Obj? then (s3, Some(AssertionError(MustBeDict("env_variables_as_dict", ev))))
          else Switched(s3, v)
  }

  /** The valves are accepted exactly when the three texts load as
    * dictionaries and the four switches are booleans; the tool then holds
    * the three dictionaries and the two switches it keeps. */
  lemma UpdatedOk(s: Settings, v: Valves, parse: string -> Option<Json>)
    ensures Updated(s, v, parse).1.None?
            <==> (parse(v.summaryKwargs).Some? && parse(v.summaryKwargs).value.Obj?
                  && parse(v.parseKwargs).Some? && parse(v.parseKwargs).value.Obj?
                  && parse(v.envVariables).Some? && parse(v.envVariables).value.Obj?
                  && v.allowOverride.Bool? && v.alwaysUnimport.Bool? && v.useCitations.Bool? && v.useCitationsForParse.Bool?)
    ensures Updated(s, v, parse).1.None? ==>
              Updated(s, v, parse).0 == Settings(parse(v.summaryKwargs).value, parse(v.parseKwargs).value,
                                                  parse(v.envVariables).value, v.allowOverride, v.alwaysUnimport)
  {
  }

  /** Whatever fails later, a summary text that loads is written on the
    * tool, and a text that does not load leaves the tool as it was. */
  lemma UpdatedWritesSummaryFirst(s: Settings, v: Valves, parse: string -> Option<Json>)
    ensures parse(v.summaryKwargs).Some? ==> Updated(s, v, parse).0.summary == parse(v.summaryKwargs).value
    ensures parse(v.summaryKwargs).None? ==> Updated(s, v, parse) == (s, Some(DecodeError))
  {
  }

  /** The default valves are accepted when `{}` and the default
    * environment text load as dictionaries. */
  lemma DefaultsAccepted(s: Settings, parse: string -> Option<Json>, env: Dict)
    requires parse("{}") == Some(Obj([])) && parse(DefaultEnv) == Some(Obj(env))
    ensures Updated(s, DefaultValves, parse) == (Settings(Obj([]), Obj([]), Obj(env), Bool(true), Bool(false)), None)
  {
  }

  /** The keyword arguments and environment variables one call into wdoc
    * gets. */
  datatype Call = Call(kwargs: Dict, env: Dict)

  // Each fixed text is written as a join of short literals, at most 16
  // characters each, because the verifier handles these much more cheaply
  // than one long literal. The constant's value is the plain join.
  const OverrideRefused :=
    "You are trying " + "to use a " + "UserValve but " + "the Valves of "
    + "WdocTool don\'t " + "allow it.\n"
  const PrivateRefused :=
    "Cannot set " + "WDOC_PRIVATE_MOD" + "E from a user " + "valve. Just to "
    + "be safe."
  const PrivateKey := "WDOC_PRIVATE_MOD" + "E"
  const LowPrivateKey := "wdoc_private_mo" + "de"
  const EnvOverrideKey := "override_env_" + "variables_as_dict"
  const UserMark := "$USER"

  /** `any(d != "{}" for d in uvalves.values())`. */
  predicate AnyOverride(uv: Dict)
  {
    exists i :: 0 <= i < |uv| && uv[i].1 != Str("{}")
  }

  /** One user override: `uvalves.get(key, "{}")`, loaded when it is a
    * string, and then required to be a dictionary. */
  function Override(uv: Dict, key: string, parse: string -> Option<Json>): (r: Result<Dict>)
    ensures r.Ok? ==> (GetOr(uv, key, Str("{}")) == Obj(r.value)
                       || (GetOr(uv, key, Str("{}")).Str? && parse(GetOr(uv, key, Str("{}")).s) == Some(Obj(r.value))))
  {
    var o := GetOr(uv, key, Str("{}"));
    var loaded := if o.Str? then parse(o.s) else Some(o);
    match loaded
    case None => Err(DecodeError)
    case Some(Obj(f)) => Ok(f)
    case Some(_) => Err(AssertionError(key + " must be a JSON dictionary"))
  }

  /** A value that holds `$USER` is one `replace` rewrites. */
  predicate NeedsUser(v: Json)
  {
    v.Str? && IsInfix(UserMark, v.s)
  }

  /** The `$USER` substitution over the environment variables: every text
    * holding `$USER` gets the user's name in its place. `str.replace`
    * raises a `TypeError` when the name is not a string and some value
    * needs it; every other value, and every key, stays as it is. */
  function Substituted(env: Dict, name: Json): (r: Result<Dict>)
    ensures r.Err? <==> !name.Str? && exists i :: 0 <= i < |env| && NeedsUser(env[i].1)
    ensures r.Ok? ==> Keys(r.value) == Keys(env)
    ensures r.Ok? ==> forall i :: 0 <= i < |env| ==>
              r.value[i].1 == (if NeedsUser(env[i].1) then Str(Replace(env[i].1.s, UserMark, name.s)) else env[i].1)
  {
    if name.Str? then Ok(seq(|env|, i requires 0 <= i < |env| =>
                             (env[i].0, if NeedsUser(env[i].1) then Str(Replace(env[i].1.s, UserMark, name.s)) else env[i].1)))
    else if exists i :: 0 <= i < |env| && NeedsUser(env[i].1) then Err(TypeError)
    else Ok(env)
  }

  /** The call one tool method makes: `kwKey` is the user valve that
    * overrides the keyword arguments `kwargs` of the valves, `env` their
    * environment variables. A user with overrides is refused unless the
    * valves allow them; a user environment that sets `WDOC_PRIVATE_MODE`
    * is refused always. */
  function Overridden(allow: Json, kwargs: Dict, env: Dict, user: Dict, kwKey: string,
                      parse: string -> Option<Json>, show: Json -> string): (r: Result<Call>)
  {
    match GetOr(user, "valves", Obj([]))
    case Obj(uv) => ByUser(allow, kwargs, env, user, uv, kwKey, parse, show)
    case _ => Err(TypeError)
  }

  /** `Overridden` once the user's valves `uv` are known. */
  function ByUser(allow: Json, kwargs: Dict, env: Dict, user: Dict, uv: Dict, kwKey: string,
                  parse: string -> Option<Json>, show: Json -> string): (r: Result<Call>)
  {
    if AnyOverride(uv) && !Truthy(allow) then Err(AssertionError(OverrideRefused + show(Obj(uv))))
    else
      match Override(uv, kwKey, parse)
      case Err(e) => Err(e)
      case Ok(ok) =>
        match Override(uv, EnvOverrideKey, parse)
        case Err(e) => Err(e)
        case Ok(oe) => Merged(kwargs, env, ok, oe, GetOr(user, "name", Str("Unknown")))
  }

  /** The two overrides `ok` and `oe` applied with `update`, once the
    * user environment is known not to set `WDOC_PRIVATE_MODE`. */
  function Merged(kwargs: Dict, env: Dict, ok: Dict, oe: Dict, name: Json): (r: Result<Call>)
    ensures r.Ok? ==> !HasKey(oe, PrivateKey)
  {
    if HasKey(oe, PrivateKey) then Err(Raised(PrivateRefused))
    else
      match Substituted(Update(env, oe), name)
      case Err(e) => Err(e)
      case Ok(en) => Ok(Call(Update(kwargs, ok), en))
  }

  /** When the valves do not allow overrides, a user valve other than "{}"
    * is refused. */
  lemma RefusedWhenLocked(allow: Json, kwargs: Dict, env: Dict, user: Dict, kwKey: string,
                          parse: string -> Option<Json>, show: Json -> string, uv: Dict, i: nat)
    requires !Truthy(allow)
    requires GetOr(user, "valves", Obj([])) == Obj(uv) && i < |uv| && uv[i].1 != Str("{}")
    ensures Overridden(allow, kwargs, env, user, kwKey, parse, show) == Err(AssertionError(OverrideRefused + show(Obj(uv))))
  {
  }

  /** A user without valves, or whose valves are all "{}", gets the
    * valves' keyword arguments as they are and their environment with the
    * name substituted, whatever the valves allow. */
  lemma UntouchedKeepsValves(allow: Json, kwargs: Dict, env: Dict, user: Dict, kwKey: string,
                             parse: string -> Option<Json>, show: Json -> string, uv: Dict)
    requires GetOr(user, "valves", Obj([])) == Obj(uv) && forall i :: 0 <= i < |uv| ==> uv[i].1 == Str("{}")
    requires parse("{}") == Some(Obj([]))
    requires Substituted(env, GetOr(user, "name", Str("Unknown"))).Ok?
    ensures Overridden(allow, kwargs, env, user, kwKey, parse, show)
            == Ok(Call(kwargs, Substituted(env, GetOr(user, "name", Str("Unknown"))).value))
  {
    OverrideOfBraces(uv, kwKey, parse);
    OverrideOfBraces(uv, EnvOverrideKey, parse);
  }

  lemma OverrideOfBraces(uv: Dict, key: string, parse: string -> Option<Json>)
    requires forall i :: 0 <= i < |uv| ==> uv[i].1 == Str("{}")
    requires parse("{}") == Some(Obj([]))
    ensures Override(uv, key, parse) == Ok([])
  {
    if HasKey(uv, key) {
      var i :| 0 <= i < |uv| && uv[i] == (key, Get(uv, key).value);
    }
  }

  /** A keyword argument the user overrides takes the user's value; every
    * other one keeps the valves'. */
  lemma OverrideWins(allow: Json, kwargs: Dict, env: Dict, user: Dict, kwKey: string,
                     parse: string -> Option<Json>, show: Json -> string, c: Call, uk: Dict, k: string)
    requires Overridden(allow, kwargs, env, user, kwKey, parse, show) == Ok(c)
    requires Override(GetOr(user, "valves", Obj([])).fields, kwKey, parse) == Ok(uk) && UniqueKeys(uk)
    ensures Get(c.kwargs, k) == if HasKey(uk, k) then Get(uk, k) else Get(kwargs, k)
  {
    assert c.kwargs == Update(kwargs, uk);
    if HasKey(uk, k) {
      UpdateHit(kwargs, uk, k);
    } else {
      UpdateOther(kwargs, uk, k);
    }
  }

  /** A user environment that sets `WDOC_PRIVATE_MODE` is refused even when
    * overrides are allowed, and an accepted call always comes from a user
    * environment without it. */
  lemma PrivateModeRefused(allow: Json, kwargs: Dict, env: Dict, user: Dict, kwKey: string,
                           parse: string -> Option<Json>, show: Json -> string, uv: Dict, oe: Dict)
    requires GetOr(user, "valves", Obj([])) == Obj(uv)
    requires !(AnyOverride(uv) && !Truthy(allow))
    requires Override(uv, kwKey, parse).Ok? && Override(uv, EnvOverrideKey, parse) == Ok(oe)
    ensures Overridden(allow, kwargs, env, user, kwKey, parse, show).Ok? ==> !HasKey(oe, PrivateKey)
    ensures HasKey(oe, PrivateKey) ==> Overridden(allow, kwargs, env, user, kwKey, parse, show) == Err(Raised(PrivateRefused))
  {
  }

  /** The check for `WDOC_PRIVATE_MODE` compares names exactly, but the
    * context upper-cases every name: a user environment holding
    * `wdoc_private_mode` is accepted, and the environment wdoc gets then
    * sets `WDOC_PRIVATE_MODE`. */
  lemma LowerCasePrivateModeSet(allow: Json, kwargs: Dict, env: Dict, user: Dict, kwKey: string,
                                parse: string -> Option<Json>, show: Json -> string, value: Json)
    requires Truthy(allow) && parse("{}") == Some(Obj([]))
    requires GetOr(user, "valves", Obj([])) == Obj([(EnvOverrideKey, Obj([(LowPrivateKey, value)]))])
    requires kwKey != EnvOverrideKey
    requires Substituted(Update(env, [(LowPrivateKey, value)]), GetOr(user, "name", Str("Unknown"))).Ok?
    ensures Overridden(allow, kwargs, env, user, kwKey, parse, show).Ok?
    ensures HasKey(Managed(Overridden(allow, kwargs, env, user, kwKey, parse, show).value.env, show), PrivateKey)
  {
    var name := GetOr(user, "name", Str("Unknown"));
    PrivateKeyUpper();
    OneUserVariableAccepted(allow, kwargs, env, user, kwKey, parse, show, LowPrivateKey, value);
    SubstitutedKeepsOne(env, LowPrivateKey, value, name);
    ManagedUpper(Substituted(Update(env, [(LowPrivateKey, value)]), name).value, LowPrivateKey, PrivateKey, show);
  }

  /** With overrides allowed, a user whose only valve sets one environment
    * variable other than `WDOC_PRIVATE_MODE` is accepted: the keyword
    * arguments stay the valves' and the variable is merged into the
    * environment. */
  lemma OneUserVariableAccepted(allow: Json, kwargs: Dict, env: Dict, user: Dict, kwKey: string,
                                parse: string -> Option<Json>, show: Json -> string, low: string, value: Json)
    requires low != PrivateKey && Truthy(allow) && parse("{}") == Some(Obj([]))
    requires GetOr(user, "valves", Obj([])) == Obj([(EnvOverrideKey, Obj([(low, value)]))])
    requires kwKey != EnvOverrideKey
    requires Substituted(Update(env, [(low, value)]), GetOr(user, "name", Str("Unknown"))).Ok?
    ensures Overridden(allow, kwargs, env, user, kwKey, parse, show)
            == Ok(Call(kwargs, Substituted(Update(env, [(low, value)]), GetOr(user, "name", Str("Unknown"))).value))
  {
    var uv := [(EnvOverrideKey, Obj([(low, value)]))];
    var oe := [(low, value)];
    var name := GetOr(user, "name", Str("Unknown"));
    OneUserVariableOverrides(uv, kwKey, parse, low, value);
    ByUserAllowed(allow, kwargs, env, user, uv, kwKey, parse, show, [], oe);
    MergedOne(kwargs, env, low, value, name);
  }

  /** With overrides allowed and both overrides loaded, the call is the
    * merge of the two. */
  lemma ByUserAllowed(allow: Json, kwargs: Dict, env: Dict, user: Dict, uv: Dict, kwKey: string,
                      parse: string -> Option<Json>, show: Json -> string, ok: Dict, oe: Dict)
    requires Truthy(allow) && Override(uv, kwKey, parse) == Ok(ok) && Override(uv, EnvOverrideKey, parse) == Ok(oe)
    ensures ByUser(allow, kwargs, env, user, uv, kwKey, parse, show) == Merged(kwargs, env, ok, oe, GetOr(user, "name", Str("Unknown")))
  {
  }

  lemma OneUserVariableOverrides(uv: Dict, kwKey: string, parse: string -> Option<Json>, low: string, value: Json)
    requires uv == [(EnvOverrideKey, Obj([(low, value)]))]
    requires kwKey != EnvOverrideKey && parse("{}") == Some(Obj([]))
    ensures Override(uv, kwKey, parse) == Ok([])
    ensures Override(uv, EnvOverrideKey, parse) == Ok([(low, value)])
  {
    assert Keys(uv) == [EnvOverrideKey];
    assert !HasKey(uv, kwKey);
    assert Get(uv, EnvOverrideKey) == Some(Obj([(low, value)]));
  }

  /** A user variable other than `WDOC_PRIVATE_MODE` is merged into the
    * environment, and stays there through the substitution. */
  lemma MergedOne(kwargs: Dict, env: Dict, low: string, value: Json, name: Json)
    requires low != PrivateKey
    requires Substituted(Update(env, [(low, value)]), name).Ok?
    ensures Merged(kwargs, env, [], [(low, value)], name) == Ok(Call(kwargs, Substituted(Update(env, [(low, value)]), name).value))
  {
    assert Keys([(low, value)]) == [low];
  }

  lemma SubstitutedKeepsOne(env: Dict, low: string, value: Json, name: Json)
    requires Substituted(Update(env, [(low, value)]), name).Ok?
    ensures HasKey(Substituted(Update(env, [(low, value)]), name).value, low)
  {
    var oe := [(low, value)];
    assert Keys(oe) == [low];
    UpdateHit(env, oe, low);
  }

  /** A variable whose name upper-cases to `key` is managed as `key`. */
  lemma ManagedUpper(en: Dict, low: string, key: string, show: Json -> string)
    requires HasKey(en, low) && Upper(low) == key
    ensures HasKey(Managed(en, show), key)
  {
    var i :| 0 <= i < |en| && Keys(en)[i] == low;
    assert en[i].0 == low;
    UpperNamesAt(en, i);
    assert UpperNames(en)[i] == key;
    ManagedNames(en, show, key);
  }

  lemma PrivateKeyUpper()
    ensures Upper(LowPrivateKey) == PrivateKey && LowPrivateKey != PrivateKey
  {
    assert LowPrivateKey[0] != PrivateKey[0];
    var s := LowPrivateKey;
    assert |s| == |PrivateKey| == 17;
    forall i | 0 <= i < 17
      ensures UpperChar(s[i]) == PrivateKey[i]
    {
    }
    UpperIs(s, PrivateKey);
  }

  /** The user valve that overrides the keyword arguments of parsing or of
    * summarizing. */
  function KwKey(forParse: bool): string
  {
    if forParse then "override_parse_" + "kwargs" else "override_summary" + "_kwargs"
  }

  /** The call a tool method prepares from the settings `on_valves_updated`
    * left: the keyword arguments of parsing or of summarizing, and the
    * environment. A setting that is not a dictionary has no `copy` and
    * `update`, which cannot happen once the update succeeded. */
  function Prepared(s: Settings, user: Dict, forParse: bool, parse: string -> Option<Json>, show: Json -> string): (r: Result<Call>)
  {
    match (if forParse then s.parse else s.summary, s.env)
    case (Obj(kw), Obj(en)) => Overridden(s.allow, kw, en, user, KwKey(forParse), parse, show)
    case _ => Err(AttributeError)
  }

  /** The private-mode check: `for k, v in ...: if "WDOC_PRIVATE_MODE" == k`. */
  method SetsPrivate(oe: Dict) returns (b: bool)
    ensures b <==> HasKey(oe, PrivateKey)
  {
    for i := 0 to |oe|
      invariant forall j :: 0 <= j < i ==> oe[j].0 != PrivateKey
    {
      if oe[i].0 == PrivateKey {
        assert Keys(oe)[i] == PrivateKey;
        return true;
      }
    }
    NotKey(oe, PrivateKey);
    return false;
  }

  /** The `$USER` loop: each value holding `$USER` is rewritten in place. */
  method Substitute(env: Dict, name: Json) returns (r: Result<Dict>)
    ensures r == Substituted(env, name)
  {
    var e := env;
    for i := 0 to |env|
      invariant |e| == |env|
      invariant forall j :: i <= j < |env| ==> e[j] == env[j]
      invariant !name.Str? ==> e == env && forall j :: 0 <= j < i ==> !NeedsUser(env[j].1)
      invariant name.Str? ==> forall j :: 0 <= j < i ==>
                  e[j] == (env[j].0, if NeedsUser(env[j].1) then Str(Replace(env[j].1.s, UserMark, name.s)) else env[j].1)
    {
      var v := e[i].1;
      if v.Str? && IsInfix(UserMark, v.s) {
        if !name.Str? {
          assert NeedsUser(env[i].1);
          return Err(TypeError);
        }
        e := e[i := (e[i].0, Str(Replace(v.s, UserMark, name.s)))];
      }
    }
    if name.Str? {
      assert e == Substituted(env, name).value;
    }
    return Ok(e);
  }

  /** `parse_url` and `summarize_url` up to the call into wdoc: the user's
    * valves, the two overrides, the private-mode loop and the `$USER`
    * loop. */
  method Prepare(s: Settings, user: Dict, forParse: bool, parse: string -> Option<Json>, show: Json -> string)
    returns (r: Result<Call>)
    ensures r == Prepared(s, user, forParse, parse, show)
  {
    var kw := if forParse then s.parse else s.summary;
    if !kw.Obj? || !s.env.Obj? {
      return Err(AttributeError);
    }
    var given := GetOr(user, "valves", Obj([]));
    if !given.Obj? {
      return Err(TypeError);
    }
    var uv := given.fields;
    if AnyOverride(uv) && !Truthy(s.allow) {
      return Err(AssertionError(OverrideRefused + show(Obj(uv))));
    }
    var ok := Override(uv, KwKey(forParse), parse);
    if ok.Err? {
      return Err(ok.error);
    }
    var oe := Override(uv, EnvOverrideKey, parse);
    if oe.Err? {
      return Err(oe.error);
    }
    var refused := SetsPrivate(oe.value);
    if refused {
      return Err(Raised(PrivateRefused));
    }
    var en := Substitute(Update(s.env.fields, oe.value), GetOr(user, "name", Str("Unknown")));
    if en.Err? {
      return Err(en.error);
    }
    return Ok(Call(Update(kw.fields, ok.value), en.value));
  }

  // ----- the results -----

  // Each fixed text is written as a join of short literals, at most 16
  // characters each, because the verifier handles these much more cheaply
  // than one long literal. The constant's value is the plain join.
  const ParsingOf := "Success.\n\n## " + "Parsing of "
  const ParseEnd := "\n\n---\n\n"
  const CitedParse :=
    "Parsing " + "completed " + "successfully. " + "Please check "
    + "the citations " + "panel to view " + "the results."

  /** The page contents of the parsed documents: one document's as it is,
    * those of several (or none) joined by blank lines, which needs every
    * one of them to be a string. */
  function PageText(docs: seq<Json>, show: Json -> string): (r: Result<string>)
    ensures |docs| != 1 ==> (r.Ok? <==> forall i :: 0 <= i < |docs| ==>
                                          (Index(docs[i], "page_content").Ok? && Index(docs[i], "page_content").value.Str?))
    ensures |docs| == 1 ==> (r.Ok? <==> Index(docs[0], "page_content").Ok?)
    ensures docs == [] ==> r == Ok("")
  {
    if |docs| == 1 then
      match Index(docs[0], "page_content")
      case Ok(c) => Ok(PyStr(c, show))
      case Err(e) => Err(e)
    else
      match MapOk(docs, d => Index(d, "page_content"))
      case Err(e) => Err(e)
      case Ok(cs) => if AllStr(cs) then Ok(Join("\n\n", Texts(cs))) else Err(TypeError)
  }

  /** `parsed[0]["metadata"]["title"]`, or nothing when any step raises. */
  function Title(docs: seq<Json>): (r: Option<Json>)
    ensures r.Some? <==> docs != [] && Index(docs[0], "metadata").Ok? && Index(Index(docs[0], "metadata").value, "title").Ok?
  {
    if docs == [] then None
    else match Index(docs[0], "metadata")
      case Err(_) => None
      case Ok(m) => (match Index(m, "title") case Ok(t) => Some(t) case Err(_) => None)
  }

  /** What `parse_url` returns once wdoc has parsed `docs`: the page text
    * under a heading naming the title, or the url when the title cannot be
    * read; with citations, a fixed sentence instead. */
  function Parsed(docs: seq<Json>, url: string, cite: bool, show: Json -> string): (r: Result<string>)
    ensures r.Ok? <==> PageText(docs, show).Ok?
    ensures r.Ok? && cite ==> r.value == CitedParse
  {
    match PageText(docs, show)
    case Err(e) => Err(e)
    case Ok(content) =>
      var heading := match Title(docs) case Some(t) => PyStr(t, show) case None => url;
      Ok(if cite then CitedParse else ParsingOf + heading + "\n\n" + content + ParseEnd)
  }

  /** Nothing parsed gives an empty page under the url. */
  lemma NothingParsed(url: string, show: Json -> string)
    ensures Parsed([], url, false, show) == Ok(ParsingOf + url + "\n\n" + ParseEnd)
  {
    assert ParsingOf + url + "\n\n" + "" == ParsingOf + url + "\n\n";
  }

  /** One document with a string page and no metadata is shown as it is,
    * under the url. */
  lemma OneDocumentUntitled(doc: Dict, page: string, url: string, show: Json -> string)
    requires Get(doc, "page_content") == Some(Str(page)) && !HasKey(doc, "metadata")
    ensures Parsed([Obj(doc)], url, false, show) == Ok(ParsingOf + url + "\n\n" + page + ParseEnd)
  {
  }

  /** One document with a string page and a string title is shown as it
    * is, under its title. */
  lemma OneDocumentTitled(doc: Dict, page: string, m: Dict, title: string, url: string, show: Json -> string)
    requires Get(doc, "page_content") == Some(Str(page))
    requires Get(doc, "metadata") == Some(Obj(m)) && Get(m, "title") == Some(Str(title))
    ensures Parsed([Obj(doc)], url, false, show) == Ok(ParsingOf + title + "\n\n" + page + ParseEnd)
  {
    assert Title([Obj(doc)]) == Some(Str(title));
  }

  /** Several documents are joined by blank lines. */
  lemma SeveralDocumentsJoined(docs: seq<Json>, pages: seq<string>, url: string, show: Json -> string)
    requires |docs| > 1 && |pages| == |docs|
    requires forall i :: 0 <= i < |docs| ==> Index(docs[i], "page_content") == Ok(Str(pages[i]))
    ensures Title(docs).None? ==> Parsed(docs, url, false, show) == Ok(ParsingOf + url + "\n\n" + Join("\n\n", pages) + ParseEnd)
  {
    var cs := MapOk(docs, d => Index(d, "page_content")).value;
    assert forall i :: 0 <= i < |docs| ==> cs[i] == Str(pages[i]);
    assert Texts(cs) == pages;
  }

  const SummaryHead := "\n\n# Summary\n"
  const CostLine :=
    "\n\n- Total cost " + "of those " + "summaries: \'"
  const TimeLine :=
    ")\n- Total time " + "saved by those " + "summaries: "
  const SummaryRule := " minutes\n\n--- \n\n"
  const CitedSummary :=
    "Summary " + "completed " + "successfully. " + "Please check "
    + "the citations " + "panel to view " + "the results."

  /** The summary text after its heading and url. */
  function SummaryTail(tokens: string, cost: string, reading: string, summary: string): string
  {
    CostLine + tokens + "\' ($" + cost + TimeLine + reading + SummaryRule + summary + "\n\n"
  }

  lemma Prefix(a: string, b: string)
    ensures |a| <= |a + b| && (a + b)[..|a|] == a
  {
  }

  /** What `summarize_url` returns once wdoc has summarized: `results` is
    * the instance's `summary_results` and `fixed(x, n)` is `format(x,
    * ".nf")`, which raises for a value that is not a number. Keys are read
    * in the order the source reads them. */
  function Summarized(results: Json, url: string, cite: bool, show: Json -> string,
                      fixed: (Json, nat) -> Result<string>): (r: Result<string>)
    ensures r.Ok? ==> Index(results, "summary").Ok? && Index(results, "doc_total_tokens").Ok?
                      && Index(results, "doc_total_cost").Ok? && Index(results, "doc_reading_length").Ok?
    ensures r.Ok? && cite ==> r.value == CitedSummary
    ensures r.Ok? && !cite ==> |SummaryHead + url| <= |r.value| && r.value[..|SummaryHead + url|] == SummaryHead + url
  {
    match Index(results, "summary")
    case Err(e) => Err(e)
    case Ok(summary) =>
      match Index(results, "doc_total_tokens")
      case Err(e) => Err(e)
      case Ok(tokens) =>
        match Index(results, "doc_total_cost")
        case Err(e) => Err(e)
        case Ok(cost) =>
          match fixed(cost, 5)
          case Err(e) => Err(e)
          case Ok(costText) =>
            match Index(results, "doc_reading_length")
            case Err(e) => Err(e)
            case Ok(reading) =>
              match fixed(reading, 1)
              case Err(e) => Err(e)
              case Ok(readingText) =>
                var head := SummaryHead + url;
                var text := head + SummaryTail(PyStr(tokens, show), costText, readingText, PyStr(summary, show));
                Prefix(head, SummaryTail(PyStr(tokens, show), costText, readingText, PyStr(summary, show)));
                Ok(if cite then CitedSummary else text)
  }

  // ----- the tool -----

  /** `os.environ` while the context for `env` is entered. */
  function Seen(e: Env, env: Dict, show: Json -> string): Env
  {
    Entered(map[], e, Managed(env, show)).1
  }

  /** Inside the context, a variable it manages holds its text, and every
    * other variable is as it was. */
  lemma SeenManaged(e: Env, env: Dict, show: Json -> string, k: string)
    ensures HasKey(Managed(env, show), k) ==> Lookup(Seen(e, env, show), k) == Some(Get(Managed(env, show), k).value.s)
    ensures !HasKey(Managed(env, show), k) ==> Lookup(Seen(e, env, show), k) == Lookup(e, k)
  {
    var vs := Managed(env, show);
    if HasKey(vs, k) {
      var i :| 0 <= i < |vs| && vs[i] == (k, Get(vs, k).value);
      EnteredManaged(map[], e, vs, i);
    } else {
      assert forall j :: 0 <= j < |vs| ==> vs[j].0 != k by {
        assert forall j :: 0 <= j < |vs| ==> Keys(vs)[j] == vs[j].0;
      }
      EnteredOthers(map[], e, vs, k);
    }
  }

  /** `parse_file(path=url, filetype="auto", format="langchain_dict",
    * **parse_kwargs)` raises a `TypeError` for a keyword given twice. */
  predicate ParseClash(kw: Dict)
  {
    HasKey(kw, "path") || HasKey(kw, "filetype") || HasKey(kw, "format")
  }

  /** `wdoc(path=url, task="summarize", filetype="auto", **summary_kwargs)`
    * likewise. */
  predicate SummaryClash(kw: Dict)
  {
    HasKey(kw, "path") || HasKey(kw, "task") || HasKey(kw, "filetype")
  }

  /** `parse_url`, from the tool's settings `s`, its valves `v` and the
    * process environment `e`; `wdoc(url, kwargs, environ)` is wdoc's
    * `parse_file`, given the environment it runs in. */
  function ParseOutcome(s: Settings, v: Valves, url: string, user: Dict, e: Env, parse: string -> Option<Json>,
                        show: Json -> string, wdoc: (string, Dict, Env) -> Result<seq<Json>>): (r: Result<string>)
    ensures r.Ok? ==> Updated(s, v, parse).1.None? && Prepared(Updated(s, v, parse).0, user, true, parse, show).Ok?
                      && !ParseClash(Prepared(Updated(s, v, parse).0, user, true, parse, show).value.kwargs)
  {
    var (s', error) := Updated(s, v, parse);
    if error.Some? then Err(error.value)
    else
      match Prepared(s', user, true, parse, show)
      case Err(x) => Err(x)
      case Ok(c) =>
        if ParseClash(c.kwargs) then Err(TypeError)
        else
          match wdoc(url, c.kwargs, Seen(e, c.env, show))
          case Err(x) => Err(x)
          case Ok(docs) => Parsed(docs, url, Truthy(v.useCitationsForParse), show)
  }

  /** `summarize_url`; `wdoc(url, kwargs, environ)` gives the instance's
    * `summary_results`. */
  function SummaryOutcome(s: Settings, v: Valves, url: string, user: Dict, e: Env, parse: string -> Option<Json>,
                          show: Json -> string, fixed: (Json, nat) -> Result<string>,
                          wdoc: (string, Dict, Env) -> Result<Json>): (r: Result<string>)
    ensures r.Ok? ==> Updated(s, v, parse).1.None? && Prepared(Updated(s, v, parse).0, user, false, parse, show).Ok?
                      && !SummaryClash(Prepared(Updated(s, v, parse).0, user, false, parse, show).value.kwargs)
  {
    var (s', error) := Updated(s, v, parse);
    if error.Some? then Err(error.value)
    else
      match Prepared(s', user, false, parse, show)
      case Err(x) => Err(x)
      case Ok(c) =>
        if SummaryClash(c.kwargs) then Err(TypeError)
        else
          match wdoc(url, c.kwargs, Seen(e, c.env, show))
          case Err(x) => Err(x)
          case Ok(results) => Summarized(results, url, Truthy(v.useCitations), show, fixed)
  }

  /** The call into wdoc inside `with EnvVarContext(env_variables):`:
    * the variables are set for `run`, whose answer is kept, and then
    * put back. */
  method InContext<T>(c: Call, env: Environment, show: Json -> string, run: Env -> Result<T>) returns (r: Result<T>)
    modifies env
    ensures r == run(Seen(old(env.vars), c.env, show))
    ensures env.vars == old(env.vars)
  {
    var context := new EnvVarContext(c.env, show);
    context.Enter(env);
    r := run(env.vars);
    EnterExitRoundTrip(map[], old(env.vars), context.envVars);
    var _ := context.Exit(env);
  }

  /** `Tools`: the valves and what `on_valves_updated` last wrote. */
  class WdocTool {
    var valves: Valves
    var summaryKwargs: Json
    var parseKwargs: Json
    var envVariables: Json
    var allowOverride: Json
    var alwaysUnimport: Json

    function State(): Settings
      reads this
    {
      Settings(summaryKwargs, parseKwargs, envVariables, allowOverride, alwaysUnimport)
    }

    /** `__init__`: the default valves, then `on_valves_updated`. */
    constructor(parse: string -> Option<Json>)
      ensures valves == DefaultValves && State() == Updated(Unset, DefaultValves, parse).0
    {
      valves := DefaultValves;
      summaryKwargs, parseKwargs, envVariables, allowOverride, alwaysUnimport := Null, Null, Null, Null, Null;
      new;
      var _ := OnValvesUpdated(parse);
    }

    /** `on_valves_updated`, an assignment and a check at a time. */
    method OnValvesUpdated(parse: string -> Option<Json>) returns (error: Option<Exc>)
      modifies this
      ensures valves == old(valves)
      ensures (State(), error) == Updated(old(State()), valves, parse)
    {
      var sk := parse(valves.summaryKwargs);
      if sk.None? {
        return Some(DecodeError);
      }
      summaryKwargs := sk.value;
      if !summaryKwargs.Obj? {
        return Some(AssertionError(MustBeDict("summary_kwargs", summaryKwargs)));
      }
      var pk := parse(valves.parseKwargs);
      if pk.None? {
        return Some(DecodeError);
      }
      parseKwargs := pk.value;
      if !parseKwargs.Obj? {
        return Some(AssertionError(MustBeDict("parse_kwargs", parseKwargs)));
      }
      var ev := parse(valves.envVariables);
      if ev.None? {
        return Some(DecodeError);
      }
      envVariables := ev.value;
      if !envVariables.Obj? {
        return Some(AssertionError(MustBeDict("env_variables_as_dict", envVariables)));
      }
      if !valves.allowOverride.Bool? {
        return Some(AssertionError(MustBeBool("allow_user_valves_override", valves.allowOverride)));
      }
      allowOverride := valves.allowOverride;
      if !valves.alwaysUnimport.Bool? {
        return Some(AssertionError(MustBeBool("always_unimport_wdoc", valves.alwaysUnimport)));
      }
      alwaysUnimport := valves.alwaysUnimport;
      if !valves.useCitations.Bool? {
        return Some(AssertionError(MustBeBool("use_citations", valves.useCitations)));
      }
      if !valves.useCitationsForParse.Bool? {
        return Some(AssertionError(MustBeBool("use_citations_for_parse", valves.useCitationsForParse)));
      }
      return None;
    }

    /** `parse_url`. */
    method ParseUrl(url: string, user: Dict, env: Environment, parse: string -> Option<Json>, show: Json -> string,
                    wdoc: (string, Dict, Env) -> Result<seq<Json>>) returns (r: Result<string>)
      modifies this, env
      ensures valves == old(valves) && State() == Updated(old(State()), valves, parse).0
      ensures env.vars == old(env.vars)
      ensures r == ParseOutcome(old(State()), valves, url, user, old(env.vars), parse, show, wdoc)
    {
      var error := OnValvesUpdated(parse);
      if error.Some? {
        return Err(error.value);
      }
      var call := Prepare(State(), user, true, parse, show);
      if call.Err? {
        return Err(call.error);
      }
      var c := call.value;
      var parsed := InContext(c, env, show, (environ: Env) => if ParseClash(c.kwargs) then Err(TypeError) else wdoc(url, c.kwargs, environ));
      if parsed.Err? {
        return Err(parsed.error);
      }
      return Parsed(parsed.value, url, Truthy(valves.useCitationsForParse), show);
    }

    /** `summarize_url`. */
    method SummarizeUrl(url: string, user: Dict, env: Environment, parse: string -> Option<Json>, show: Json -> string,
                        fixed: (Json, nat) -> Result<string>, wdoc: (string, Dict, Env) -> Result<Json>) returns (r: Result<string>)
      modifies this, env
      ensures valves == old(valves) && State() == Updated(old(State()), valves, parse).0
      ensures env.vars == old(env.vars)
      ensures r == SummaryOutcome(old(State()), valves, url, user, old(env.vars), parse, show, fixed, wdoc)
    {
      var error := OnValvesUpdated(parse);
      if error.Some? {
        return Err(error.value);
      }
      var call := Prepare(State(), user, false, parse, show);
      if call.Err? {
        return Err(call.error);
      }
      var c := call.value;
      var results := InContext(c, env, show, (environ: Env) => if SummaryClash(c.kwargs) then Err(TypeError) else wdoc(url, c.kwargs, environ));
      if results.Err? {
        return Err(results.error);
      }
      return Summarized(results.value, url, Truthy(valves.useCitations), show, fixed);
    }
  }
}
