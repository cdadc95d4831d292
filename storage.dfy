/** The cache naming rules of src/storage.py: the folder per endpoint, the file-name
    suffix and the safe file name. The directory creation and the file writes are left
    out; the clock reading `datetime.utcnow()` is the parameter `now`. */
module Storage {
  import opened JsonValues
  import opened Text
  import opened Config

  /** The characters `[\w\-.]` a folder name keeps. */
  predicate IsFolderChar(c: char)
  {
    IsWordChar(c) || c == '-' || c == '.'
  }

  /** The characters `[\w\-=.]` a file-name suffix keeps. */
  predicate IsFileChar(c: char)
  {
    IsWordChar(c) || c == '-' || c == '=' || c == '.'
  }

  predicate IsSlash(c: char)
  {
    c == '/'
  }

  predicate AllFolderChars(s: string)
  {
    forall i :: 0 <= i < |s| ==> IsFolderChar(s[i])
  }

  predicate AllFileChars(s: string)
  {
    forall i :: 0 <= i < |s| ==> IsFileChar(s[i])
  }

  /** Stripping characters none of which is dropped changes nothing. */
  lemma TrimKeeps(s: string, drop: char -> bool)
    requires forall i :: 0 <= i < |s| ==> !drop(s[i])
    ensures Trim(s, drop) == s
  {
    assert s != [] ==> !drop(s[0]) && !drop(s[|s| - 1]);
  }

  /** `_normalize_for_folder`: strip spaces, then slashes, replace every character outside
      `[\w\-.]` by `_`, and fall back to `"default"`. */
  function NormalizeForFolder(name: string): (r: string)
    ensures r != [] && AllFolderChars(r)
    ensures Trim(Strip(name), IsSlash) == [] ==> r == "default"
    ensures Trim(Strip(name), IsSlash) != [] ==> r == ReplaceOutside(Trim(Strip(name), IsSlash), IsFolderChar)
  {
    var s := Trim(Strip(name), IsSlash);
    var t := ReplaceOutside(s, IsFolderChar);
    if t == [] then "default" else t
  }

  /** A folder character is neither whitespace nor a slash. */
  lemma FolderCharKept(c: char)
    requires IsFolderChar(c)
    ensures !IsSpace(c) && !IsSlash(c)
  {
  }

  lemma NoSpaceNoSlash(r: string)
    requires AllFolderChars(r)
    ensures forall i :: 0 <= i < |r| ==> !IsSpace(r[i]) && !IsSlash(r[i])
  {
    forall i | 0 <= i < |r| ensures !IsSpace(r[i]) && !IsSlash(r[i]) {
      FolderCharKept(r[i]);
    }
  }

  /** A name made of folder characters is its own normal form. */
  lemma NormalizeKeeps(r: string)
    requires r != [] && AllFolderChars(r)
    ensures NormalizeForFolder(r) == r
  {
    NoSpaceNoSlash(r);
    TrimKeeps(r, IsSpace);
    TrimKeeps(r, IsSlash);
    assert ReplaceOutside(r, IsFolderChar) == r;
  }

  /** A normalized name is its own normal form. */
  lemma NormalizeForFolderIdempotent(name: string)
    ensures NormalizeForFolder(NormalizeForFolder(name)) == NormalizeForFolder(name)
  {
    NormalizeKeeps(NormalizeForFolder(name));
  }

  /** The folder-name choice of `get_cache_folder`: a registered key (no `/`, a path that
      resolves) names its folder itself; anything else is read as a path, its leading
      slashes dropped and the rest of them turned into `_`. */
  function CacheFolderName(key: string, registry: Fields, env: map<string, string>): (r: string)
    ensures r != [] && AllFolderChars(r)
    ensures ResolvePath(key, registry, env).Some? && !Contains(key, '/') ==> r == NormalizeForFolder(key)
    ensures key == [] && ResolvePath(key, registry, env).None? ==> r == PathFolder("unknown")
    ensures Contains(key, '/') ==> r == PathFolder(TrimStart(key, IsSlash))
    ensures key != [] && !Contains(key, '/') ==> r == NormalizeForFolder(key)
  {
    SlashFreeUnchanged(key);
    if ResolvePath(key, registry, env).Some? && !Contains(key, '/') then NormalizeForFolder(key)
    else PathFolder(if key != [] then TrimStart(key, IsSlash) else "unknown")
  }

  /** A key without slashes loses none to `lstrip("/")` and keeps all its characters through
      `replace("/", "_")`. */
  lemma SlashFreeUnchanged(key: string)
    ensures !Contains(key, '/') ==> TrimStart(key, IsSlash) == key && ReplaceChar(key, '/', '_') == key
  {
    if !Contains(key, '/') {
      assert key != [] ==> !IsSlash(key[0]);
      assert ReplaceChar(key, '/', '_') == key;
    }
  }

  /** The folder of a path: every `/` turned into `_`, then normalized. */
  function PathFolder(raw: string): (r: string)
    ensures r != [] && AllFolderChars(r)
  {
    NormalizeForFolder(ReplaceChar(raw, '/', '_'))
  }

  /** The folder of a path never depends on the registry or the environment. */
  lemma PathFolderIgnoresRegistry(key: string, registry1: Fields, env1: map<string, string>,
                                  registry2: Fields, env2: map<string, string>)
    requires Contains(key, '/')
    ensures CacheFolderName(key, registry1, env1) == CacheFolderName(key, registry2, env2)
  {
  }

  /** `unknown`, the folder of an empty key the registry does not resolve, is kept as is. */
  lemma UnknownFolder()
    ensures PathFolder("unknown") == "unknown"
  {
    var u := "unknown";
    assert forall i | 0 <= i < |u| :: 'a' <= u[i] <= 'z';
    assert ReplaceChar(u, '/', '_') == u;
    NormalizeKeeps(u);
  }

  /** A path made of folder characters and slashes gets exactly its slashes turned into
      `_`: `v1/convesation/download-report/agent` names the folder
      `v1_convesation_download-report_agent`. */
  lemma PathFolderOfCleanPath(raw: string)
    requires raw != []
    requires forall i :: 0 <= i < |raw| ==> IsFolderChar(raw[i]) || raw[i] == '/'
    ensures PathFolder(raw) == ReplaceChar(raw, '/', '_')
  {
    NormalizeKeeps(ReplaceChar(raw, '/', '_'));
  }

  /** The three query parameters a suffix is built from, in order. */
  const SuffixKeys: seq<string> := ["from", "to", "agentId"]

  /** `params[k]` when present, `""` otherwise; a parameter counts when it is non-empty. */
  function ParamValue(params: Option<map<string, string>>, k: string): string
  {
    if params.Some? && k in params.value then params.value[k] else ""
  }

  /** `str(v)[:50]`. */
  function Cut50(v: string): (r: string)
    ensures |r| <= 50 && |r| <= |v| && r == v[..|r|]
    ensures |v| <= 50 ==> r == v
  {
    if |v| <= 50 then v else v[..50]
  }

  /** `f"{k}={v}"` for one parameter. */
  function Part(k: string, v: string): string
  {
    k + "=" + Cut50(v)
  }

  /** The part of one key when its value counts. */
  function PartOf(params: Option<map<string, string>>, k: string): (r: seq<string>)
    ensures |r| <= 1
    ensures r != [] <==> ParamValue(params, k) != ""
  {
    if ParamValue(params, k) != "" then [Part(k, ParamValue(params, k))] else []
  }

  /** The loop over the keys from the point where `parts` holds the parts so far. */
  function PartsFrom(params: Option<map<string, string>>, parts: seq<string>, keys: seq<string>): seq<string>
    decreases |keys|
  {
    if keys == [] then parts
    else PartsFrom(params, parts + PartOf(params, keys[0]), keys[1..])
  }

  /** `"_".join(parts)`. */
  function Join(parts: seq<string>): (r: string)
    ensures parts == [] ==> r == []
    ensures |parts| == 1 ==> r == parts[0]
  {
    if parts == [] then []
    else if |parts| == 1 then parts[0]
    else parts[0] + "_" + Join(parts[1..])
  }

  /** No parameters at all (`not params`). */
  predicate NoParams(params: Option<map<string, string>>)
  {
    params.None? || params.value == map[]
  }

  /** `_suffix_from_params`, with the clock reading `now`. */
  function SuffixFromParams(params: Option<map<string, string>>, now: string): (r: string)
    ensures NoParams(params) ==> r == now
    ensures !NoParams(params) && PartsFrom(params, [], SuffixKeys) == [] ==> r == now
    ensures |PartsFrom(params, [], SuffixKeys)| == 1 && !NoParams(params) ==> r == PartsFrom(params, [], SuffixKeys)[0]
  {
    if NoParams(params) then now
    else
      var parts := PartsFrom(params, [], SuffixKeys);
      if parts == [] then now else Join(parts)
  }

  /** The loop of `_suffix_from_params`. */
  method SuffixFromParamsLoop(params: Option<map<string, string>>, now: string) returns (r: string)
    ensures r == SuffixFromParams(params, now)
  {
    if NoParams(params) {
      return now;
    }
    var p := params.value;
    var keys := SuffixKeys;
    var parts: seq<string> := [];
    var i := 0;
    while i < |keys|
      invariant 0 <= i <= |keys|
      invariant PartsFrom(params, parts, keys[i..]) == PartsFrom(params, [], keys)
    {
      assert keys[i..][1..] == keys[i + 1..];
      var k := keys[i];
      if k in p && p[k] != "" {
        var v := Cut50(p[k]);
        parts := parts + [k + "=" + v];
      }
      i := i + 1;
    }
    assert keys[i..] == [];
    if parts == [] {
      return now;
    }
    r := Join(parts);
  }

  /** The parts are those of `from`, `to` and `agentId`, in that order, each present
      exactly when its value is non-empty. */
  lemma SuffixParts(params: Option<map<string, string>>)
    ensures PartsFrom(params, [], SuffixKeys)
            == PartOf(params, "from") + PartOf(params, "to") + PartOf(params, "agentId")
  {
    var a, b, c := PartOf(params, "from"), PartOf(params, "to"), PartOf(params, "agentId");
    assert SuffixKeys[1..] == ["to", "agentId"];
    assert SuffixKeys[1..][1..] == ["agentId"];
    assert SuffixKeys[1..][1..][1..] == [];
    calc {
      PartsFrom(params, [], SuffixKeys);
      PartsFrom(params, [] + a, ["to", "agentId"]);
      { assert [] + a == a; }
      PartsFrom(params, a, ["to", "agentId"]);
      PartsFrom(params, a + b, ["agentId"]);
      PartsFrom(params, a + b + c, []);
    }
  }

  /** The suffix falls back to the clock exactly when none of the three parameters
      counts, and otherwise depends on nothing but their values. */
  lemma SuffixFromParamsMeaning(params: Option<map<string, string>>, now: string)
    ensures (ParamValue(params, "from") == "" && ParamValue(params, "to") == ""
             && ParamValue(params, "agentId") == "") ==> SuffixFromParams(params, now) == now
    ensures (ParamValue(params, "from") != "" || ParamValue(params, "to") != ""
             || ParamValue(params, "agentId") != "") ==>
              SuffixFromParams(params, now)
              == Join(PartOf(params, "from") + PartOf(params, "to") + PartOf(params, "agentId"))
  {
    SuffixParts(params);
    if NoParams(params) {
      assert ParamValue(params, "from") == "";
    }
  }

  /** Two parameter sets that agree on `from`, `to` and `agentId` give the same suffix. */
  lemma SuffixUsesThreeKeys(p1: Option<map<string, string>>, p2: Option<map<string, string>>, now: string)
    requires forall k :: k in SuffixKeys ==> ParamValue(p1, k) == ParamValue(p2, k)
    ensures SuffixFromParams(p1, now) == SuffixFromParams(p2, now)
  {
    assert "from" in SuffixKeys && "to" in SuffixKeys && "agentId" in SuffixKeys;
    SuffixFromParamsMeaning(p1, now);
    SuffixFromParamsMeaning(p2, now);
  }

  /** A single `from` gives `from=` and at most fifty characters of its value. */
  lemma SuffixOfFromOnly(v: string, now: string)
    requires v != ""
    ensures SuffixFromParams(Some(map["from" := v]), now) == "from=" + Cut50(v)
  {
    var p := Some(map["from" := v]);
    SuffixFromParamsMeaning(p, now);
    assert ParamValue(p, "from") == v;
    assert Part("from", v) == "from=" + Cut50(v);
    assert PartOf(p, "to") == [] && PartOf(p, "agentId") == [];
    assert PartOf(p, "from") + PartOf(p, "to") + PartOf(p, "agentId") == ["from=" + Cut50(v)];
  }

  /** The slug a timestamped suffix starts with. */
  function SuffixSlug(key: string): string
  {
    if Contains(key, '/') then "default" else GetEndpointSlug(key)
  }

  /** `_cache_suffix`: a non-empty timestamp gives the slug (alone for `"latest"`,
      otherwise followed by `_` and the timestamp); no timestamp gives the params suffix. */
  function CacheSuffix(key: string, params: Option<map<string, string>>, timestamp: Option<string>,
                       now: string): (r: string)
    ensures timestamp == Some("latest") ==> r == SuffixSlug(key)
    ensures timestamp.Some? && timestamp.value != "" && timestamp.value != "latest" ==>
              r == SuffixSlug(key) + "_" + timestamp.value
    ensures timestamp.None? || timestamp == Some("") ==> r == SuffixFromParams(params, now)
  {
    if timestamp.Some? && timestamp.value != "" then
      var slug := SuffixSlug(key);
      if timestamp.value == "latest" then slug else slug + "_" + timestamp.value
    else SuffixFromParams(params, now)
  }

  /** With `"latest"` every call for a key names the same file, whatever the parameters
      and the clock. */
  lemma LatestSuffixIsStable(key: string, p1: Option<map<string, string>>, p2: Option<map<string, string>>,
                             now1: string, now2: string)
    ensures CacheSuffix(key, p1, Some("latest"), now1) == CacheSuffix(key, p2, Some("latest"), now2)
    ensures CacheSuffix("report_lia", p1, Some("latest"), now1) == "liareport"
  {
    assert !Contains("report_lia", '/');
  }

  /** `re.sub(r"[^\w\-=.]", "_", suffix)`. */
  function SafeSuffix(suffix: string): (r: string)
    ensures |r| == |suffix| && AllFileChars(r)
    ensures forall i :: 0 <= i < |r| ==> (r[i] == suffix[i] <==> IsFileChar(suffix[i]))
  {
    ReplaceOutside(suffix, IsFileChar)
  }

  /** Making a suffix safe twice is making it safe once, and a safe suffix is kept. */
  lemma SafeSuffixIdempotent(suffix: string)
    ensures SafeSuffix(SafeSuffix(suffix)) == SafeSuffix(suffix)
    ensures AllFileChars(suffix) ==> SafeSuffix(suffix) == suffix
  {
  }

  /** The file name `save_raw`, `save_optimized` and `save_dashboard` write:
      `<prefix>_<safe suffix>.json`. */
  function FileName(prefix: string, key: string, params: Option<map<string, string>>,
                    timestamp: Option<string>, now: string): (r: string)
    ensures |r| == |prefix| + |CacheSuffix(key, params, timestamp, now)| + 6
    ensures r[..|prefix| + 1] == prefix + "_" && r[|r| - 5..] == ".json"
    ensures r[|prefix| + 1..|r| - 5] == SafeSuffix(CacheSuffix(key, params, timestamp, now))
  {
    prefix + "_" + SafeSuffix(CacheSuffix(key, params, timestamp, now)) + ".json"
  }

  /** The documented names of the `report_lia` files saved as `"latest"`:
      `raw_liareport.json`, `optimized_liareport.json`, `dashboard_liareport.json`. */
  lemma LatestFileName(prefix: string, params: Option<map<string, string>>, now: string)
    ensures FileName(prefix, "report_lia", params, Some("latest"), now) == prefix + "_liareport.json"
  {
    LatestSuffixIsStable("report_lia", params, params, now, now);
    SafeSuffixIdempotent("liareport");
    assert AllFileChars("liareport");
  }

  /** Two calls with the same key, parameters, timestamp and clock write the same file for
      each prefix, and the raw, optimized and dashboard files never collide. */
  lemma FileNamesDistinct(key: string, params: Option<map<string, string>>, timestamp: Option<string>, now: string)
    ensures FileName("raw", key, params, timestamp, now) != FileName("optimized", key, params, timestamp, now)
    ensures FileName("raw", key, params, timestamp, now) != FileName("dashboard", key, params, timestamp, now)
    ensures FileName("optimized", key, params, timestamp, now) != FileName("dashboard", key, params, timestamp, now)
  {
    assert FileName("raw", key, params, timestamp, now)[0] == 'r';
    assert FileName("optimized", key, params, timestamp, now)[0] == 'o';
    assert FileName("dashboard", key, params, timestamp, now)[0] == 'd';
  }
}
