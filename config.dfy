/** The endpoint registry lookup of src/config.py. The registry (the parsed
    `api_endpoints.json`) and the process environment are parameters. */
module Config {
  import opened JsonValues
  import opened Text

  /** `ENDPOINT_SLUGS`. */
  const EndpointSlugs: map<string, string> := map["report_lia" := "liareport"]

  /** `get_endpoint_slug`: the mapped slug, else the key with `-` turned into `_` and
      stripped, falling back to `"default"`. */
  function GetEndpointSlug(key: string): (r: string)
    ensures r != []
    ensures key in EndpointSlugs ==> r == EndpointSlugs[key]
    ensures key !in EndpointSlugs && Strip(ReplaceChar(key, '-', '_')) != [] ==> r == Strip(ReplaceChar(key, '-', '_'))
    ensures key !in EndpointSlugs && Strip(ReplaceChar(key, '-', '_')) == [] ==> r == "default"
    ensures key !in EndpointSlugs ==> forall i :: 0 <= i < |r| ==> r[i] != '-'
  {
    if key in EndpointSlugs then EndpointSlugs[key]
    else
      var s := Strip(ReplaceChar(key, '-', '_'));
      StripLacks(ReplaceChar(key, '-', '_'), '-');
      if s == [] then "default" else s
  }

  /** Stripping adds no character: one absent from `s` is absent from `Strip(s)`. */
  lemma StripLacks(s: string, c: char)
    requires forall i :: 0 <= i < |s| ==> s[i] != c
    ensures forall i :: 0 <= i < |Strip(s)| ==> Strip(s)[i] != c
  {
    TrimFacts(s, IsSpace);
    var r := Strip(s);
    var lo := |s| - |Text.TrimStart(s, IsSpace)|;
    forall i | 0 <= i < |r| ensures r[i] != c {
      assert r[i] == s[lo + i];
    }
  }

  lemma ReportLiaSlug()
    ensures GetEndpointSlug("report_lia") == "liareport"
    ensures GetEndpointSlug("  ") == "default"
  {
    assert Strip(ReplaceChar("  ", '-', '_')) == [];
  }

  predicate Contains(s: string, c: char)
  {
    exists i :: 0 <= i < |s| && s[i] == c
  }

  /** What `get_endpoint_config` returns: the path value and the resolved defaults. */
  datatype EndpointConfig = EndpointConfig(path: Json, defaultParams: Fields)

  /** `"${VAR}"`-shaped strings. */
  predicate IsPlaceholder(v: string)
  {
    |v| >= 3 && v[..2] == "${" && v[|v| - 1] == '}'
  }

  /** One default value: a placeholder becomes the environment value of the stripped name
      (`""` when unset), anything else is copied. */
  function ResolveValue(v: Json, env: map<string, string>): (r: Json)
    ensures !(v.Str? && IsPlaceholder(v.s)) ==> r == v
    ensures v.Str? && IsPlaceholder(v.s) ==>
              var name := Strip(v.s[2..|v.s| - 1]);
              r == Str(if name in env then env[name] else "")
  {
    if v.Str? && IsPlaceholder(v.s) then
      var name := Strip(v.s[2..|v.s| - 1]);
      Str(if name in env then env[name] else "")
    else v
  }

  /** The resolution loop from the point where `resolved` holds the entries so far. */
  function ResolveFrom(resolved: Fields, rest: Fields, env: map<string, string>): Fields
    decreases |rest|
  {
    if rest == [] then resolved
    else ResolveFrom(Set(resolved, rest[0].0, ResolveValue(rest[0].1, env)), rest[1..], env)
  }

  lemma ResolveFromCons(resolved: Fields, rest: Fields, env: map<string, string>)
    requires rest != []
    ensures ResolveFrom(resolved, rest, env)
            == ResolveFrom(Set(resolved, rest[0].0, ResolveValue(rest[0].1, env)), rest[1..], env)
  {
  }

  /** Every entry with its value resolved, in order. */
  function ResolvedPointwise(d: Fields, env: map<string, string>): (r: Fields)
    ensures |r| == |d|
    ensures forall i :: 0 <= i < |d| ==> r[i] == (d[i].0, ResolveValue(d[i].1, env))
  {
    seq(|d|, i requires 0 <= i < |d| => (d[i].0, ResolveValue(d[i].1, env)))
  }

  lemma ResolvedPointwiseCons(d: Fields, env: map<string, string>)
    requires d != []
    ensures ResolvedPointwise(d, env) == [(d[0].0, ResolveValue(d[0].1, env))] + ResolvedPointwise(d[1..], env)
  {
  }

  lemma {:induction false} ResolvedPointwiseKeys(d: Fields, env: map<string, string>, k: string)
    ensures HasKey(ResolvedPointwise(d, env), k) <==> HasKey(d, k)
  {
    if d != [] {
      assert ResolvedPointwise(d, env)[1..] == ResolvedPointwise(d[1..], env);
      ResolvedPointwiseKeys(d[1..], env, k);
    }
  }

  /** On a dict, `resolved` keeps every key in order with its value resolved. */
  lemma {:induction false} ResolveFromPointwise(resolved: Fields, rest: Fields, env: map<string, string>)
    requires UniqueKeys(rest)
    requires forall k :: HasKey(resolved, k) ==> !HasKey(rest, k)
    ensures ResolveFrom(resolved, rest, env) == resolved + ResolvedPointwise(rest, env)
    decreases |rest|
  {
    if rest != [] {
      var entry := (rest[0].0, ResolveValue(rest[0].1, env));
      var next := Set(resolved, rest[0].0, entry.1);
      FreshAfterSet(resolved, rest, entry.1);
      calc {
        ResolveFrom(resolved, rest, env);
        { ResolveFromCons(resolved, rest, env); }
        ResolveFrom(next, rest[1..], env);
        { ResolveFromPointwise(next, rest[1..], env); }
        next + ResolvedPointwise(rest[1..], env);
        (resolved + [entry]) + ResolvedPointwise(rest[1..], env);
        { SeqAssoc(resolved, [entry], ResolvedPointwise(rest[1..], env)); }
        resolved + ([entry] + ResolvedPointwise(rest[1..], env));
        { ResolvedPointwiseCons(rest, env); }
        resolved + ResolvedPointwise(rest, env);
      }
    }
  }

  /** The body of the `${VAR}` loop for one value. */
  method ResolveOne(v: Json, env: map<string, string>) returns (value: Json)
    ensures value == ResolveValue(v, env)
  {
    value := v;
    if v.Str? && IsPlaceholder(v.s) {
      var envKey := Strip(v.s[2..|v.s| - 1]);
      value := Str(if envKey in env then env[envKey] else "");
    }
  }

  /** The `${VAR}` loop of `get_endpoint_config`. */
  method ResolveDefaults(default: Fields, env: map<string, string>) returns (resolved: Fields)
    ensures resolved == ResolveFrom([], default, env)
  {
    resolved := [];
    var i := 0;
    while i < |default|
      invariant 0 <= i <= |default|
      invariant ResolveFrom(resolved, default[i..], env) == ResolveFrom([], default, env)
    {
      assert default[i..][1..] == default[i + 1..];
      var k := default[i].0;
      var v := default[i].1;
      var value := ResolveOne(v, env);
      ResolveFromCons(resolved, default[i..], env);
      resolved := Set(resolved, k, value);
      i := i + 1;
    }
    assert default[i..] == [];
  }

  /** The `default_params` of a registry entry: a dict, else nothing. */
  function DefaultsOf(entry: Fields): Fields
  {
    match GetOrNull(entry, "default_params")
    case Obj(d) => d
    case _ => []
  }

  /** `get_endpoint_config(key)`. */
  function GetEndpointConfig(key: string, registry: Fields, env: map<string, string>): (r: Option<EndpointConfig>)
    ensures Contains(key, '/') ==> r == Some(EndpointConfig(Str(TrimStart(key, c => c == '/')), []))
    ensures !Contains(key, '/') ==>
              (r.Some? <==> HasKey(registry, key)
                            && (GetOrNull(registry, key).Str?
                                || (GetOrNull(registry, key).Obj? && HasKey(GetOrNull(registry, key).fields, "path"))))
    ensures !Contains(key, '/') && GetOrNull(registry, key).Str? ==> r == Some(EndpointConfig(GetOrNull(registry, key), []))
  {
    if Contains(key, '/') then Some(EndpointConfig(Str(TrimStart(key, c => c == '/')), []))
    else
      match GetOrNull(registry, key)
      case Str(path) => Some(EndpointConfig(Str(path), []))
      case Obj(entry) =>
        if HasKey(entry, "path") then
          Some(EndpointConfig(GetOrNull(entry, "path"), ResolveFrom([], DefaultsOf(entry), env)))
        else None
      case _ => None
  }

  /** The defaults a dict entry yields: each value resolved, keys in order. */
  lemma EndpointDefaults(key: string, registry: Fields, env: map<string, string>)
    requires !Contains(key, '/') && GetOrNull(registry, key).Obj?
    requires HasKey(GetOrNull(registry, key).fields, "path")
    requires UniqueKeys(DefaultsOf(GetOrNull(registry, key).fields))
    ensures GetEndpointConfig(key, registry, env)
            == Some(EndpointConfig(GetOrNull(GetOrNull(registry, key).fields, "path"),
                                   ResolvedPointwise(DefaultsOf(GetOrNull(registry, key).fields), env)))
  {
    var entry := GetOrNull(registry, key).fields;
    ResolveFromPointwise([], DefaultsOf(entry), env);
    assert [] + ResolvedPointwise(DefaultsOf(entry), env) == ResolvedPointwise(DefaultsOf(entry), env);
  }

  /** `resolve_path`: `cfg["path"] if cfg else None`; a JSON null path reads as None. */
  function ResolvePath(key: string, registry: Fields, env: map<string, string>): (r: Option<Json>)
    ensures r.Some? <==> GetEndpointConfig(key, registry, env).Some?
                         && GetEndpointConfig(key, registry, env).value.path != Null
    ensures r.Some? ==> r.value == GetEndpointConfig(key, registry, env).value.path
  {
    match GetEndpointConfig(key, registry, env)
    case None => None
    case Some(cfg) => if cfg.path == Null then None else Some(cfg.path)
  }

  /** The filter of `load_endpoints`: string entries and dicts holding `path`. */
  function EndpointPath(value: Json): Option<Json>
  {
    match value
    case Str(_) => Some(value)
    case Obj(entry) => if HasKey(entry, "path") then Some(GetOrNull(entry, "path")) else None
    case _ => None
  }

  /** The test of the `load_endpoints` loop for one entry: a string is its own path, a
      dict holding `path` gives that path, anything else is skipped. */
  method EntryPath(value: Json) returns (path: Option<Json>)
    ensures path == EndpointPath(value)
  {
    if value.Str? {
      path := Some(value);
    } else if value.Obj? && HasKey(value.fields, "path") {
      path := Some(GetOrNull(value.fields, "path"));
    } else {
      path := None;
    }
  }

  /** `load_endpoints()` on a given registry (the lazy global cache is left out). */
  method LoadEndpoints(registry: Fields) returns (m: Fields)
    ensures m == AssignFrom([], registry, EndpointPath)
  {
    m := [];
    var i := 0;
    while i < |registry|
      invariant 0 <= i <= |registry|
      invariant AssignFrom(m, registry[i..], EndpointPath) == AssignFrom([], registry, EndpointPath)
    {
      assert registry[i..][1..] == registry[i + 1..];
      var key := registry[i].0;
      var path := EntryPath(registry[i].1);
      AssignFromCons(m, registry[i..], EndpointPath);
      if path.Some? {
        m := Set(m, key, path.value);
      }
      i := i + 1;
    }
    assert registry[i..] == [];
  }

  /** `load_endpoints` keeps exactly the string entries and the dicts with `path`, each
      under its key with its path. */
  lemma LoadEndpointsMeaning(registry: Fields, k: string)
    requires UniqueKeys(registry)
    ensures Get(AssignFrom([], registry, EndpointPath), k).Some?
            <==> HasKey(registry, k)
                 && (GetOrNull(registry, k).Str?
                     || (GetOrNull(registry, k).Obj? && HasKey(GetOrNull(registry, k).fields, "path")))
    ensures GetOrNull(registry, k).Str? ==> Get(AssignFrom([], registry, EndpointPath), k) == Some(GetOrNull(registry, k))
    ensures GetOrNull(registry, k).Obj? && HasKey(GetOrNull(registry, k).fields, "path") ==>
              Get(AssignFrom([], registry, EndpointPath), k) == Some(GetOrNull(GetOrNull(registry, k).fields, "path"))
  {
    AssignFromMeaning([], registry, EndpointPath, k);
  }

  /** The loaded map and `resolve_path` agree on every key without `/` whose path is not
      null: both give the registry entry's path. */
  lemma LoadEndpointsAgreesWithResolvePath(registry: Fields, env: map<string, string>, k: string)
    requires UniqueKeys(registry) && !Contains(k, '/')
    ensures Get(AssignFrom([], registry, EndpointPath), k).Some? <==> GetEndpointConfig(k, registry, env).Some?
    ensures GetEndpointConfig(k, registry, env).Some? ==>
              Get(AssignFrom([], registry, EndpointPath), k) == Some(GetEndpointConfig(k, registry, env).value.path)
    ensures ResolvePath(k, registry, env).Some? ==> Get(AssignFrom([], registry, EndpointPath), k) == ResolvePath(k, registry, env)
  {
    AssignFromMeaning([], registry, EndpointPath, k);
  }
}
