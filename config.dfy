/**
  * The configuration: the built-in defaults, the recursive `merge` of the
  * user's `appconfig.json` over them, the Azure environment overrides, and the
  * dotted-path lookup `cfg`. Reading the file and the environment happens
  * outside the model: the parsed file and the variables' values are inputs.
  */
module Config {
  import opened Wrappers
  import opened Text
  import opened Json

  // ---------------------------------------------------------------------
  // merge

  /**
    * The value `merge` leaves under a key of the user's file: a dict merged
    * into a dict recursively, anything else replacing what was there.
    */
  function MergedValue(prev: Json, v: Json): Json
  {
    if v.JObj? && prev.JObj? then JObj(MergeFrom(prev.fields, v.fields, 0)) else v
  }

  /** `merge(dst, src)` over the keys of `src` from position `i` on, in order. */
  function MergeFrom(dst: Fields, src: Fields, i: nat): Fields
    requires i <= |src|
    decreases JObj(src), |src| - i
  {
    if i == |src| then dst
    else
      var k := src[i].0;
      var v := src[i].1;
      var d := Get(dst, k, JNull);
      var nv := if v.JObj? && d.JObj? then JObj(MergeFrom(d.fields, v.fields, 0)) else v;
      MergeFrom(Put(dst, k, nv), src, i + 1)
  }


  /** `merge` itself: a loop over the keys of `src`, in place of `dst` in the source. */
  method Merge(dst: Fields, src: Fields) returns (r: Fields)
    ensures r == MergeFrom(dst, src, 0)
    decreases JObj(src), 0
  {
    r := dst;
    var i := 0;
    while i < |src|
      invariant 0 <= i <= |src|
      invariant MergeFrom(r, src, i) == MergeFrom(dst, src, 0)
    {
      var k := src[i].0;
      var nv := MergeEntry(Get(r, k, JNull), src[i].1);
      MergeStep(r, src, i, nv);
      r := Put(r, k, nv);
      i := i + 1;
    }
  }

  /** The body of the loop of `merge` for one key: recurse where both sides hold a dict. */
  method MergeEntry(prev: Json, v: Json) returns (nv: Json)
    ensures nv == MergedValue(prev, v)
    decreases v, 1
  {
    if v.JObj? && prev.JObj? {
      var inner := Merge(prev.fields, v.fields);
      nv := JObj(inner);
    } else {
      nv := v;
    }
  }

  lemma MergeStep(dst: Fields, src: Fields, i: nat, nv: Json)
    requires i < |src|
    requires nv == MergedValue(Get(dst, src[i].0, JNull), src[i].1)
    ensures MergeFrom(dst, src, i) == MergeFrom(Put(dst, src[i].0, nv), src, i + 1)
  {
  }

  /** After `merge`, `dst` holds its own keys and every key of `src`, and no other. */
  lemma {:induction false} MergeKeys(dst: Fields, src: Fields, i: nat, k: string)
    requires i <= |src|
    ensures HasKey(MergeFrom(dst, src, i), k) <==> HasKey(dst, k) || KeyFrom(src, i, k)
    decreases |src| - i
  {
    if i < |src| {
      var nv := MergedValue(Get(dst, src[i].0, JNull), src[i].1);
      MergeStep(dst, src, i, nv);
      var next := Put(dst, src[i].0, nv);
      PutSpec(dst, src[i].0, nv);
      MergeKeys(next, src, i + 1, k);
      assert HasKey(next, k) <==> HasKey(dst, k) || src[i].0 == k;
      assert KeyFrom(src, i, k) <==> src[i].0 == k || KeyFrom(src, i + 1, k);
    }
  }

  /** Some key of `src` from position `i` on is `k`. */
  predicate KeyFrom(src: Fields, i: nat, k: string)
  {
    exists j | i <= j < |src| :: src[j].0 == k
  }

  /** A key that `src` does not mention keeps its value. */
  lemma {:induction false} MergeUntouched(dst: Fields, src: Fields, i: nat, k: string)
    requires i <= |src|
    requires forall j | i <= j < |src| :: src[j].0 != k
    ensures Lookup(MergeFrom(dst, src, i), k) == Lookup(dst, k)
    decreases |src| - i
  {
    if i < |src| {
      var nv := MergedValue(Get(dst, src[i].0, JNull), src[i].1);
      MergeStep(dst, src, i, nv);
      PutSpec(dst, src[i].0, nv);
      MergeUntouched(Put(dst, src[i].0, nv), src, i + 1, k);
    }
  }

  /**
    * A key of `src` ends up with the value of `src` merged into the value
    * `dst` had: the dicts merged, or else the value of `src`.
    */
  lemma {:induction false} MergeValue(dst: Fields, src: Fields, i: nat, j: nat)
    requires i <= j < |src| && DistinctKeys(src)
    ensures Lookup(MergeFrom(dst, src, i), src[j].0) == Some(MergedValue(Get(dst, src[j].0, JNull), src[j].1))
    decreases |src| - i
  {
    var k := src[i].0;
    var nv := MergedValue(Get(dst, k, JNull), src[i].1);
    MergeStep(dst, src, i, nv);
    var next := Put(dst, k, nv);
    PutSpec(dst, k, nv);
    if i == j {
      MergeUntouched(next, src, i + 1, k);
    } else {
      MergeValue(next, src, i + 1, j);
      assert Lookup(next, src[j].0) == Lookup(dst, src[j].0);
    }
  }

  /** A dict stays a dict: `merge` never stores a key twice. */
  lemma {:induction false} MergeDistinct(dst: Fields, src: Fields, i: nat)
    requires i <= |src| && DistinctKeys(dst)
    ensures DistinctKeys(MergeFrom(dst, src, i))
    decreases |src| - i
  {
    if i < |src| {
      var nv := MergedValue(Get(dst, src[i].0, JNull), src[i].1);
      MergeStep(dst, src, i, nv);
      PutSpec(dst, src[i].0, nv);
      MergeDistinct(Put(dst, src[i].0, nv), src, i + 1);
    }
  }

  // ---------------------------------------------------------------------
  // cfg

  /** Following `segments` from `cur`: the default as soon as a segment is missing or `cur` is not a dict. */
  function Resolve(cur: Json, segments: seq<string>, default: Json): Json
    decreases |segments|
  {
    if segments == [] then cur
    else if !cur.JObj? || !HasKey(cur.fields, segments[0]) then default
    else Resolve(Get(cur.fields, segments[0], JNull), segments[1..], default)
  }

  /** Every segment of the path is present, each in a dict. */
  predicate PathPresent(cur: Json, segments: seq<string>)
    decreases |segments|
  {
    segments == [] || (cur.JObj? && HasKey(cur.fields, segments[0])
      && PathPresent(Get(cur.fields, segments[0], JNull), segments[1..]))
  }

  /** Three nested lookups that succeed resolve the three-segment path. */
  lemma ResolveThree(r: Fields, a: string, b: string, c: string, o: Fields, n: Fields, v: Json)
    requires Lookup(r, a) == Some(JObj(o)) && Lookup(o, b) == Some(JObj(n)) && Lookup(n, c) == Some(v)
    ensures Resolve(JObj(r), [a, b, c], JNull) == v
  {
    assert [a, b, c][1..] == [b, c] && [b, c][1..] == [c];
    assert Resolve(JObj(n), [c], JNull) == v;
  }

  /** A present path gives the nested value whatever the default; a broken one gives the default. */
  lemma {:induction false} ResolveDefault(cur: Json, segments: seq<string>, d1: Json, d2: Json)
    ensures PathPresent(cur, segments) ==> Resolve(cur, segments, d1) == Resolve(cur, segments, d2)
    ensures !PathPresent(cur, segments) ==> Resolve(cur, segments, d1) == d1
    decreases |segments|
  {
    if segments != [] && cur.JObj? && HasKey(cur.fields, segments[0]) {
      ResolveDefault(Get(cur.fields, segments[0], JNull), segments[1..], d1, d2);
    }
  }

  /** Looking up a path in two steps is looking it up in one. */
  lemma {:induction false} ResolveAppend(cur: Json, a: seq<string>, b: seq<string>, default: Json)
    ensures Resolve(cur, a + b, default) ==
      if PathPresent(cur, a) then Resolve(Resolve(cur, a, default), b, default) else default
    decreases |a|
  {
    if a != [] {
      assert (a + b)[0] == a[0] && (a + b)[1..] == a[1..] + b;
      if cur.JObj? && HasKey(cur.fields, a[0]) {
        ResolveAppend(Get(cur.fields, a[0], JNull), a[1..], b, default);
      }
    } else {
      assert a + b == b;
    }
  }

  /** `cfg(path, default)` over a configuration `config`. */
  method Cfg(config: Json, path: string, default: Json) returns (r: Json)
    ensures r == Resolve(config, Split(path, '.'), default)
  {
    var segments := Split(path, '.');
    var cur := config;
    var i := 0;
    while i < |segments|
      invariant 0 <= i <= |segments|
      invariant Resolve(config, segments, default) == Resolve(cur, segments[i..], default)
    {
      var p := segments[i];
      if !cur.JObj? || !HasKey(cur.fields, p) {
        return default;
      }
      cur := Get(cur.fields, p, JNull);
      i := i + 1;
    }
    r := cur;
  }

  /** A scalar the user's file sets at top level is what `cfg` reads back after the merge. */
  lemma FileValueWins(defaults: Fields, user: Fields, j: nat, default: Json)
    requires j < |user| && DistinctKeys(user) && !user[j].1.JObj?
    ensures Resolve(JObj(MergeFrom(defaults, user, 0)), [user[j].0], default) == user[j].1
  {
    MergeValue(defaults, user, 0, j);
    var m := MergeFrom(defaults, user, 0);
    var k := user[j].0;
    assert Get(m, k, JNull) == user[j].1 && HasKey(m, k);
    assert [k][1..] == [];
  }

  // ---------------------------------------------------------------------
  // Environment overrides

  /** The four Azure variables; `None` when unset. */
  datatype AzureEnv = AzureEnv(
    apiKey: Option<string>,
    endpoint: Option<string>,
    deployment: Option<string>,
    apiVersion: Option<string>)

  /**
    * `data.setdefault(outer, {}).setdefault(inner, {})[key] = value`: missing
    * dicts are created; a non-dict under `outer` raises AttributeError on the
    * second `setdefault`, a non-dict under `inner` raises TypeError on the
    * item assignment.
    */
  function SetNested(data: Fields, outer: string, inner: string, key: string, value: Json): (r: Result<Fields>)
    ensures r.Ok? ==> Resolve(JObj(r.value), [outer, inner, key], JNull) == value
    ensures r.Ok? ==> forall k :: k != outer ==> Lookup(r.value, k) == Lookup(data, k)
    ensures r.Err? <==> (
      || (HasKey(data, outer) && !Get(data, outer, JNull).JObj?)
      || (HasKey(data, outer) && Get(data, outer, JNull).JObj?
          && HasKey(Get(data, outer, JNull).fields, inner)
          && !Get(Get(data, outer, JNull).fields, inner, JNull).JObj?))
    ensures HasKey(data, outer) && !Get(data, outer, JNull).JObj? ==>
      r == Err(NoAttribute(Get(data, outer, JNull), "setdefault"))
    ensures (&& HasKey(data, outer) && Get(data, outer, JNull).JObj?
             && HasKey(Get(data, outer, JNull).fields, inner)
             && !Get(Get(data, outer, JNull).fields, inner, JNull).JObj?) ==>
      r == Err(NoItemAssignment(Get(Get(data, outer, JNull).fields, inner, JNull)))
  {
    var o := Get(data, outer, JObj([]));
    if !o.JObj? then Err(NoAttribute(o, "setdefault"))
    else
      var n := Get(o.fields, inner, JObj([]));
      if !n.JObj? then Err(NoItemAssignment(n))
      else
        var n' := Put(n.fields, key, value);
        var o' := Put(o.fields, inner, JObj(n'));
        var r := Put(data, outer, JObj(o'));
        PutReadsBack(n.fields, key, value);
        PutReadsBack(o.fields, inner, JObj(n'));
        PutReadsBack(data, outer, JObj(o'));
        PutKeepsOthers(data, outer, JObj(o'));
        ResolveThree(r, outer, inner, key, o', n', value);
        Ok(r)
  }

  /** The TypeError of `v[key] = ...` with a string key on a non-dict `v`. */
  function NoItemAssignment(v: Json): string
  {
    if v.JArr? then "list indices must be integers or slices, not str"
    else "'" + TypeName(v) + "' object does not support item assignment"
  }

  /** Reading `[a, b]` through a dict, with `{}` for a missing one. */
  lemma ResolveTwoThroughDict(d: Fields, a: string, b: string)
    requires Get(d, a, JObj([])).JObj?
    ensures var o := Get(d, a, JObj([])).fields;
      Resolve(JObj(d), [a, b], JNull) == (if HasKey(o, b) then Get(o, b, JNull) else JNull)
  {
    assert [a, b][1..] == [b] && [b][1..] == [];
    if HasKey(d, a) {
      var o := Get(d, a, JNull);
      assert o == Get(d, a, JObj([]));
      assert Resolve(JObj(d), [a, b], JNull) == Resolve(o, [b], JNull);
      if HasKey(o.fields, b) {
        assert Resolve(o, [b], JNull) == Resolve(Get(o.fields, b, JNull), [], JNull);
      }
    }
  }

  /** Reading `[a, b, c]` through dicts, with `{}` for a missing one. */
  lemma ResolveThroughDicts(d: Fields, a: string, b: string, c: string)
    requires Get(d, a, JObj([])).JObj? && Get(Get(d, a, JObj([])).fields, b, JObj([])).JObj?
    ensures Resolve(JObj(d), [a, b, c], JNull) == Get(Get(Get(d, a, JObj([])).fields, b, JObj([])).fields, c, JNull)
  {
    var o := Get(d, a, JObj([]));
    var n := Get(o.fields, b, JObj([]));
    assert [a, b, c][1..] == [b, c] && [b, c][1..] == [c];
    if HasKey(d, a) {
      assert Get(d, a, JNull) == o;
      assert Resolve(JObj(d), [a, b, c], JNull) == Resolve(o, [b, c], JNull);
      if HasKey(o.fields, b) {
        assert Get(o.fields, b, JNull) == n;
        assert Resolve(o, [b, c], JNull) == Resolve(n, [c], JNull);
        if HasKey(n.fields, c) {
          assert Resolve(n, [c], JNull) == Resolve(Get(n.fields, c, JNull), [], JNull);
        }
      }
    }
  }

  /**
    * The assignment changes only the one nested key: every other key of the
    * inner dict, and every other key of the outer dict, reads as before.
    */
  lemma SetNestedKeepsSiblings(data: Fields, outer: string, inner: string, key: string, value: Json)
    requires SetNested(data, outer, inner, key, value).Ok?
    ensures var r := SetNested(data, outer, inner, key, value).value;
      (forall k :: k != key ==> Resolve(JObj(r), [outer, inner, k], JNull) == Resolve(JObj(data), [outer, inner, k], JNull))
      && (forall k :: k != inner ==> Resolve(JObj(r), [outer, k], JNull) == Resolve(JObj(data), [outer, k], JNull))
  {
    var r := SetNested(data, outer, inner, key, value).value;
    var o := Get(data, outer, JObj([]));
    var n := Get(o.fields, inner, JObj([]));
    var n' := Put(n.fields, key, value);
    var o' := Put(o.fields, inner, JObj(n'));
    assert r == Put(data, outer, JObj(o'));
    PutReadsBack(data, outer, JObj(o'));
    PutReadsBack(o.fields, inner, JObj(n'));
    PutKeepsOthers(n.fields, key, value);
    PutKeepsOthers(o.fields, inner, JObj(n'));
    assert Get(r, outer, JObj([])) == JObj(o');
    assert Get(o', inner, JObj([])) == JObj(n');
    forall k | k != key
      ensures Resolve(JObj(r), [outer, inner, k], JNull) == Resolve(JObj(data), [outer, inner, k], JNull)
    {
      ResolveThroughDicts(r, outer, inner, k);
      ResolveThroughDicts(data, outer, inner, k);
    }
    forall k | k != inner
      ensures Resolve(JObj(r), [outer, k], JNull) == Resolve(JObj(data), [outer, k], JNull)
    {
      ResolveTwoThroughDict(r, outer, k);
      ResolveTwoThroughDict(data, outer, k);
    }
  }

  /** One `if value: ...["llm"]["azure"][key] = value` step; unset and empty values are skipped. */
  function Override(data: Result<Fields>, key: string, value: Option<string>): Result<Fields>
  {
    match data
    case Err(e) => Err(e)
    case Ok(d) =>
      if value.Some? && value.value != "" then SetNested(d, "llm", "azure", key, JStr(value.value)) else Ok(d)
  }

  /** The overrides, in the order of the source: key, endpoint, deployment, API version. */
  function ApplyEnv(data: Fields, env: AzureEnv): Result<Fields>
  {
    var a := Override(Ok(data), "apiKey", env.apiKey);
    var b := Override(a, "endpoint", env.endpoint);
    var c := Override(b, "deployment", env.deployment);
    Override(c, "apiVersion", env.apiVersion)
  }

  /** With no Azure variable set, the configuration passes through unchanged. */
  lemma NoEnvNoChange(data: Fields)
    ensures ApplyEnv(data, AzureEnv(None, None, None, None)) == Ok(data)
  {
  }

  /** Keys other than `llm` are never touched by the overrides. */
  lemma {:induction false} EnvLeavesOtherKeys(data: Fields, env: AzureEnv, k: string)
    requires k != "llm" && ApplyEnv(data, env).Ok?
    ensures Lookup(ApplyEnv(data, env).value, k) == Lookup(data, k)
  {
    var a := Override(Ok(data), "apiKey", env.apiKey);
    var b := Override(a, "endpoint", env.endpoint);
    var c := Override(b, "deployment", env.deployment);
    assert a.Ok? && b.Ok? && c.Ok?;
  }

  /** A variable that `if value:` takes: set and non-empty. */
  predicate IsSet(value: Option<string>)
  {
    value.Some? && value.value != ""
  }

  /** The variable that overrides `llm.azure.<key>`, if any. */
  function EnvFor(env: AzureEnv, key: string): Option<string>
  {
    if key == "apiKey" then env.apiKey
    else if key == "endpoint" then env.endpoint
    else if key == "deployment" then env.deployment
    else if key == "apiVersion" then env.apiVersion
    else None
  }

  /** One override sets its own key and no other under `llm.azure`. */
  lemma OverrideEffect(d: Fields, key: string, value: Option<string>, k: string)
    requires Override(Ok(d), key, value).Ok?
    ensures Resolve(JObj(Override(Ok(d), key, value).value), ["llm", "azure", k], JNull)
      == if k == key && IsSet(value) then JStr(value.value) else Resolve(JObj(d), ["llm", "azure", k], JNull)
  {
    if IsSet(value) && k != key {
      SetNestedKeepsSiblings(d, "llm", "azure", key, JStr(value.value));
    }
  }

  /** After the overrides, `llm.azure.<k>` reads its variable when that is set, and otherwise what it read before. */
  lemma {:induction false} ApplyEnvReads(data: Fields, env: AzureEnv, k: string)
    requires ApplyEnv(data, env).Ok?
    ensures Resolve(JObj(ApplyEnv(data, env).value), ["llm", "azure", k], JNull)
      == if IsSet(EnvFor(env, k)) then JStr(EnvFor(env, k).value) else Resolve(JObj(data), ["llm", "azure", k], JNull)
  {
    var a := Override(Ok(data), "apiKey", env.apiKey);
    var b := Override(a, "endpoint", env.endpoint);
    var c := Override(b, "deployment", env.deployment);
    assert a.Ok? && b.Ok? && c.Ok?;
    OverrideEffect(data, "apiKey", env.apiKey, k);
    OverrideEffect(a.value, "endpoint", env.endpoint, k);
    OverrideEffect(b.value, "deployment", env.deployment, k);
    OverrideEffect(c.value, "apiVersion", env.apiVersion, k);
  }

  lemma ResolvedValueAnyDefault(cur: Json, segments: seq<string>, v: Json, default: Json)
    requires Resolve(cur, segments, JNull) == v && v != JNull
    ensures Resolve(cur, segments, default) == v
  {
    ResolveDefault(cur, segments, JNull, default);
  }

  /**
    * Each set, non-empty Azure variable is what `cfg("llm.azure.<key>")`
    * then reads, whatever its default: the later overrides leave the earlier
    * ones alone.
    */
  lemma EnvOverridesWin(data: Fields, env: AzureEnv, default: Json)
    requires ApplyEnv(data, env).Ok?
    ensures var r := JObj(ApplyEnv(data, env).value);
      && (IsSet(env.apiKey) ==> Resolve(r, ["llm", "azure", "apiKey"], default) == JStr(env.apiKey.value))
      && (IsSet(env.endpoint) ==> Resolve(r, ["llm", "azure", "endpoint"], default) == JStr(env.endpoint.value))
      && (IsSet(env.deployment) ==> Resolve(r, ["llm", "azure", "deployment"], default) == JStr(env.deployment.value))
      && (IsSet(env.apiVersion) ==> Resolve(r, ["llm", "azure", "apiVersion"], default) == JStr(env.apiVersion.value))
  {
    var r := JObj(ApplyEnv(data, env).value);
    var keys := ["apiKey", "endpoint", "deployment", "apiVersion"];
    forall i | 0 <= i < 4 && IsSet(EnvFor(env, keys[i]))
      ensures Resolve(r, ["llm", "azure", keys[i]], default) == JStr(EnvFor(env, keys[i]).value)
    {
      ApplyEnvReads(data, env, keys[i]);
      ResolvedValueAnyDefault(r, ["llm", "azure", keys[i]], JStr(EnvFor(env, keys[i]).value), default);
    }
    assert EnvFor(env, keys[0]) == env.apiKey && EnvFor(env, keys[1]) == env.endpoint;
    assert EnvFor(env, keys[2]) == env.deployment && EnvFor(env, keys[3]) == env.apiVersion;
  }

  /** An unset or empty Azure variable leaves its setting as the defaults and the file made it. */
  lemma UnsetEnvKeepsFile(data: Fields, env: AzureEnv, k: string)
    requires ApplyEnv(data, env).Ok? && !IsSet(EnvFor(env, k))
    ensures Resolve(JObj(ApplyEnv(data, env).value), ["llm", "azure", k], JNull) == Resolve(JObj(data), ["llm", "azure", k], JNull)
  {
    ApplyEnvReads(data, env, k);
  }

  // ---------------------------------------------------------------------
  // Loading

  /** The search variables read while the defaults are built; `None` when unset. */
  datatype SearchEnv = SearchEnv(
    provider: Option<string>,
    googleApiKey: Option<string>,
    googleCx: Option<string>,
    dateRestrict: Option<string>)

  /** `os.getenv(name, default)`: an unset variable gives the default (`None` becomes JSON null). */
  function GetEnv(v: Option<string>, default: Json): Json
  {
    match v
    case Some(s) => JStr(s)
    case None => default
  }

  /** `_default_config()`. */
  function DefaultConfig(env: SearchEnv): Fields
  {
    [("llm", JObj(DefaultLlm())),
     ("search", JObj(DefaultSearch(env))),
     ("summarization", JObj([
        ("retryIfShort", JBool(true)),
        ("minChars", JInt(120))])),
     ("verbose", JObj([
        ("plannerRequest", JBool(true)),
        ("plannerResponse", JBool(true)),
        ("maxDocPreviewChars", JInt(300))]))]
  }

  /** The `llm` section of the defaults. */
  function DefaultLlm(): Fields
  {
        [("provider", JStr("ollama")),
        ("ollama", JObj([
          ("baseUrl", JStr("http://127.0.0.1:11434")),
          ("model", JStr("gpt-oss:20b")),
          ("options", JObj([
            ("temperature", JFloat("0.2")),
            ("num_ctx", JInt(8192)),
            ("timeout_s", JInt(60)),
            ("max_retries", JInt(2)),
            ("retry_backoff_s", JFloat("1.5"))]))])),
        ("azure", JObj([
          ("endpoint", JStr("")),
          ("apiKey", JNull),
          ("deployment", JStr("")),
          ("apiVersion", JStr("2024-05-01-preview")),
          ("options", JObj([
            ("temperature", JFloat("0.2")),
            ("timeout_s", JInt(60)),
            ("max_retries", JInt(2)),
            ("retry_backoff_s", JFloat("1.5"))]))]))]
  }

  /** The browser user agent the search sends. */
  const UserAgent: string := "Mozilla/5.0 (Windows NT 10.0; Win64; x64) AppleWebKit/537.36 (KHTML, like Gecko) Chrome/126.0 Safari/537.36"

  /** The `search` section of the defaults, which reads the search variables. */
  function DefaultSearch(env: SearchEnv): Fields
  {
       [("provider", GetEnv(env.provider, JStr("ddg"))),
        ("ddg", JObj([
          ("maxResults", JInt(5)),
          ("fetchMaxPages", JInt(3)),
          ("requestTimeoutS", JInt(20)),
          ("userAgent", JStr(UserAgent))])),
        ("google", JObj([
          ("apiKey", GetEnv(env.googleApiKey, JNull)),
          ("cx", GetEnv(env.googleCx, JNull)),
          ("dateRestrict", GetEnv(env.dateRestrict, JStr("d1")))])),
        ("maxContextDocChars", JInt(8000))]
  }

  /**
    * `_load_json_config()`: `file` is `None` when `appconfig.json` does not
    * exist, otherwise the outcome of reading and parsing it. A file that
    * fails, or whose top level is not a dict, leaves the defaults.
    */
  function LoadConfig(searchEnv: SearchEnv, file: Option<Result<Json>>, azureEnv: AzureEnv): Result<Fields>
  {
    var defaults := DefaultConfig(searchEnv);
    var data :=
      if file.Some? && file.value.Ok? && file.value.value.JObj? then MergeFrom(defaults, file.value.value.fields, 0)
      else defaults;
    ApplyEnv(data, azureEnv)
  }

  /** A missing, unreadable or non-dict file gives the same configuration as no file at all. */
  lemma BrokenFileKeepsDefaults(searchEnv: SearchEnv, file: Option<Result<Json>>, azureEnv: AzureEnv)
    requires file.None? || file.value.Err? || !file.value.value.JObj?
    ensures LoadConfig(searchEnv, file, azureEnv) == ApplyEnv(DefaultConfig(searchEnv), azureEnv)
  {
  }

  /** The provider the client factory reads, as the defaults give it. */
  lemma DefaultProvider(env: SearchEnv, d: Json)
    ensures Resolve(JObj(DefaultConfig(env)), ["llm", "provider"], d) == JStr("ollama")
  {
    var c := DefaultConfig(env);
    assert IndexOf(c, "llm") == Some(0);
    assert IndexOf(DefaultLlm(), "provider") == Some(0);
    assert ["llm", "provider"][1..] == ["provider"];
    assert Resolve(JObj(DefaultLlm()), ["provider"], d) == JStr("ollama");
  }

  /** The page cap the search reads, as the defaults give it. */
  lemma DefaultFetchMaxPages(env: SearchEnv, d: Json)
    ensures Resolve(JObj(DefaultConfig(env)), ["search", "ddg", "fetchMaxPages"], d) == JInt(3)
  {
    var c := DefaultConfig(env);
    var search := c[1].1;
    var ddg := search.fields[1].1;
    assert IndexOf(c, "search") == Some(1);
    assert IndexOf(search.fields, "ddg") == Some(1);
    assert IndexOf(ddg.fields, "fetchMaxPages") == Some(1);
    var q := ["search", "ddg", "fetchMaxPages"];
    assert q[1..] == ["ddg", "fetchMaxPages"];
    assert q[1..][1..] == ["fetchMaxPages"];
    assert Resolve(ddg, ["fetchMaxPages"], d) == JInt(3);
    assert Resolve(search, ["ddg", "fetchMaxPages"], d) == JInt(3);
  }
}
