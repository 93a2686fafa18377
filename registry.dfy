/**
 * `NodeRegistryService` (app/services/node_registry_service.rb): where the
 * list of search nodes comes from. A registry URL answers either with the
 * endpoint list itself or with providers whose own `node_endpoint` tells
 * their "Front Office" URL; every failure falls back to the list in the
 * defaults file, and a defaults file that cannot be read gives no endpoints.
 * The environment variables, the two HTTP replies and the parsed defaults
 * file are the inputs collected in `RegistryEnv`.
 */
module NodeRegistry {
  import opened Wrappers
  import opened Text
  import opened JsonValues
  import opened Sequences

  /** `DEFAULT_CACHE_TTL`, ten minutes, in seconds. */
  const DefaultCacheTtl: int := 600

  /** The `pid` of an endpoint: absent (a bare-string item), nil, or a string. */
  datatype Pid = NoPid | NilPid | PidStr(s: string)

  /** `{name:, url:, pid:}`. */
  datatype Endpoint = Endpoint(name: string, url: string, pid: Pid)

  /** The endpoint as the hash handed on to the aggregator. */
  function EndpointJson(e: Endpoint): (j: Json)
    ensures j.JObj? && Lookup(j.fields, "name") == JStr(e.name) && Lookup(j.fields, "url") == JStr(e.url)
  {
    var base := [("name", JStr(e.name)), ("url", JStr(e.url))];
    var fs := match e.pid
      case NoPid => base
      case NilPid => base + [("pid", JNull)]
      case PidStr(p) => base + [("pid", JStr(p))];
    LookupAt(fs, 0, "name");
    LookupAt(fs, 1, "url");
    JObj(fs)
  }

  // ---------------------------------------------------------------------------
  // normalize_endpoints

  /** The `map` block of `normalize_endpoints`. */
  function NormalizeItem(item: Json): (e: Endpoint)
    ensures !item.JObj? ==> e == Endpoint(ToS(item), ToS(item), NoPid)
    ensures item.JObj? ==> e.url == ToS(Get(item.fields, "url"))
    ensures item.JObj? && Truthy(Lookup(item.fields, "name")) ==> e.name == ToS(Lookup(item.fields, "name"))
    ensures item.JObj? && !Truthy(Lookup(item.fields, "name")) && Truthy(Lookup(item.fields, "service"))
            ==> e.name == ToS(Lookup(item.fields, "service"))
    ensures item.JObj? && !Truthy(Lookup(item.fields, "name")) && !Truthy(Lookup(item.fields, "service")) ==>
              (Truthy(Lookup(item.fields, "id")) ==> e.name == ToS(Lookup(item.fields, "id")))
    ensures item.JObj? && !Truthy(Lookup(item.fields, "name")) && !Truthy(Lookup(item.fields, "service")) ==>
              (!Truthy(Lookup(item.fields, "id")) ==> e.name == e.url)
    ensures item.JObj? ==> e.pid == (if Get(item.fields, "pid").JNull? then NilPid else PidStr(ToS(Get(item.fields, "pid"))))
  {
    if item.JObj? then
      var f := item.fields;
      var name := Or(Or(Lookup(f, "name"), Lookup(f, "service")), Lookup(f, "id"));
      var url := Get(f, "url");
      var pid := Get(f, "pid");
      Endpoint(ToS(Or(name, url)), ToS(url), if pid.JNull? then NilPid else PidStr(ToS(pid)))
    else
      var s := ToS(item);
      Endpoint(s, s, NoPid)
  }

  /** The `reject` test of `normalize_endpoints`, negated: the url is not blank. */
  predicate HasUrl(e: Endpoint) {
    !BlankString(e.url)
  }

  /** `normalize_endpoints(list)`: every item normalised, those with a blank url dropped. */
  function NormalizeEndpoints(list: Json): (r: seq<Endpoint>)
    ensures forall i :: 0 <= i < |r| ==> HasUrl(r[i])
    ensures forall i :: 0 <= i < |r| ==> exists j :: 0 <= j < |ArrayCoerce(list)| && r[i] == NormalizeItem(ArrayCoerce(list)[j])
    ensures forall j :: 0 <= j < |ArrayCoerce(list)| && HasUrl(NormalizeItem(ArrayCoerce(list)[j]))
              ==> NormalizeItem(ArrayCoerce(list)[j]) in r
    ensures |r| <= |ArrayCoerce(list)|
  {
    var items := ArrayCoerce(list);
    var normalized := MapSeq(items, NormalizeItem);
    MapSeqAt(items, NormalizeItem);
    var r := Filter(normalized, HasUrl);
    forall i | 0 <= i < |r| ensures exists j :: 0 <= j < |items| && r[i] == NormalizeItem(items[j]) {
      var j :| 0 <= j < |normalized| && normalized[j] == r[i];
    }
    r
  }

  /** The kept entries keep their order: normalising two lists one after the other is normalising their concatenation. */
  lemma NormalizeEndpointsAppend(a: seq<Json>, b: seq<Json>)
    ensures NormalizeEndpoints(JArr(a + b)) == NormalizeEndpoints(JArr(a)) + NormalizeEndpoints(JArr(b))
  {
    MapSeqAppend(a, b, NormalizeItem);
    FilterAppend(MapSeq(a, NormalizeItem), MapSeq(b, NormalizeItem), HasUrl);
  }

  /** One item gives its normalised entry once, or nothing when that entry's url is blank. */
  lemma NormalizeEndpointsSingle(item: Json)
    ensures NormalizeEndpoints(JArr([item])) == if HasUrl(NormalizeItem(item)) then [NormalizeItem(item)] else []
  {
    assert [item][1..] == [];
    assert MapSeq([item], NormalizeItem) == [NormalizeItem(item)];
    assert [NormalizeItem(item)][1..] == [];
  }

  // ---------------------------------------------------------------------------
  // truthy_env?

  const TruthyWords: seq<string> := ["1", "true", "yes", "on", "y"]

  /** `truthy_env?`: the variable, stripped and downcased, is one of `1 true yes on y`; unset is false. */
  predicate TruthyEnv(v: Option<string>) {
    Downcase(Strip(if v.Some? then v.value else "")) in TruthyWords
  }

  /** The flag ignores letter case. */
  lemma TruthyEnvIgnoresCase(s: string)
    ensures TruthyEnv(Some(Upcase(s))) == TruthyEnv(Some(s))
  {
    StripDowncaseUpcase(s);
  }

  lemma TruthyEnvPaddedYes()
    ensures TruthyEnv(Some(" Yes\n"))
  {
    assert LStrip("Yes\n") == "Yes\n";
    assert LStrip(" Yes\n") == "Yes\n";
    assert "Yes\n"[..3] == "Yes";
    assert RStrip("Yes") == "Yes";
    assert Strip(" Yes\n") == "Yes";
    var d := Downcase("Yes");
    assert d[0] == 'y' && d[1] == 'e' && d[2] == 's';
    assert d == "yes";
  }

  /** Unset, empty, and words outside the list are all false. */
  lemma TruthyEnvFalseExamples()
    ensures !TruthyEnv(None) && !TruthyEnv(Some("")) && !TruthyEnv(Some("enabled"))
  {
    assert Strip("") == "";
    assert LStrip("enabled") == "enabled";
    assert RStrip("enabled") == "enabled";
    assert |Downcase("enabled")| == 7;
  }

  // ---------------------------------------------------------------------------
  // load_default_endpoints

  /** The `case raw` of `load_default_endpoints`: a list as is; a hash's entry for the environment, else `default`. */
  function SelectList(raw: Json, env: string): (list: Json)
    ensures raw.JArr? ==> list == raw
    ensures raw.JObj? && Truthy(Lookup(raw.fields, env)) ==> list == Lookup(raw.fields, env)
    ensures raw.JObj? && !Truthy(Lookup(raw.fields, env)) && Truthy(Lookup(raw.fields, "default"))
            ==> list == Lookup(raw.fields, "default")
    ensures raw.JObj? && !Truthy(Lookup(raw.fields, env)) && !Truthy(Lookup(raw.fields, "default")) ==> list == JArr([])
    ensures !raw.JArr? && !raw.JObj? ==> list == JArr([])
  {
    match raw
    case JArr(_) => raw
    case JObj(fs) => Or(Or(Lookup(fs, env), Lookup(fs, "default")), JArr([]))
    case _ => JArr([])
  }

  /**
   * `load_default_endpoints`: `file` is the parsed defaults file, or the
   * error of a missing or unreadable one.
   */
  function LoadDefaultEndpoints(file: Result<Json>, env: string): (r: Result<seq<Endpoint>>)
    ensures r.Err? <==> file.Err?
    ensures r.Ok? ==> r.value == NormalizeEndpoints(SelectList(file.value, env))
    ensures r.Ok? ==> forall i :: 0 <= i < |r.value| ==> HasUrl(r.value[i])
  {
    match file
    case Err(msg) => Err(msg)
    case Ok(raw) => Ok(NormalizeEndpoints(SelectList(raw, env)))
  }

  /** A list file is used as it is, whatever the environment. */
  lemma DefaultsListIgnoresEnv(xs: seq<Json>, env1: string, env2: string)
    ensures LoadDefaultEndpoints(Ok(JArr(xs)), env1) == LoadDefaultEndpoints(Ok(JArr(xs)), env2)
  {
  }

  /** In a hash file the environment's own entry wins, whatever `default` holds. */
  lemma DefaultsEnvEntryWins(fs: Fields, env: string, d: Json)
    requires Truthy(Lookup(fs, env)) && env != "default"
    ensures LoadDefaultEndpoints(Ok(JObj(fs + [("default", d)])), env) == Ok(NormalizeEndpoints(Lookup(fs, env)))
  {
    LookupPrefix(fs, [("default", d)], env);
  }

  /** Without an entry for the environment, a hash file reads its `default` entry as a list file. */
  lemma DefaultsFallBack(fs: Fields, env: string)
    requires !Truthy(Lookup(fs, env))
    ensures LoadDefaultEndpoints(Ok(JObj(fs)), env) == LoadDefaultEndpoints(Ok(JArr(ArrayCoerce(Get(fs, "default")))), env)
  {
  }

  /** The file system `load_default_endpoints` sees: a path's contents, when the file exists. */
  type FileSystem = string -> Option<string>

  /**
   * Reading the defaults file as `load_default_endpoints` is written: after
   * `File.exist?(path)`, `YAML.safe_load_file(File.read(path))` hands the
   * file's contents to a method that opens its argument as a path.
   */
  function ReadDefaultsAsWritten(files: FileSystem, yaml: string -> Result<Json>, path: string): Result<Json> {
    if files(path).None? then Err("Default endpoints file not found")
    else
      var contents := files(path).value;
      if files(contents).None? then Err("No such file or directory") else yaml(files(contents).value)
  }

  /** As written, the defaults load only when the file's contents name another existing file. */
  lemma ReadDefaultsAsWrittenNeedsPath(files: FileSystem, yaml: string -> Result<Json>, path: string)
    ensures ReadDefaultsAsWritten(files, yaml, path).Ok? ==>
              files(path).Some? && files(files(path).value).Some? && yaml(files(files(path).value).value).Ok?
  {
  }

  /** Reading the defaults file as evidently intended: parse the contents of `path`. */
  function ReadDefaults(files: FileSystem, yaml: string -> Result<Json>, path: string): (r: Result<Json>)
    ensures files(path).None? ==> r.Err?
    ensures files(path).Some? ==> r == yaml(files(path).value)
  {
    if files(path).None? then Err("Default endpoints file not found") else yaml(files(path).value)
  }

  const DefaultsPath: string := "config/default_endpoints.yml"
  const DefaultsText: string := "- https://a.example\n"

  /** A file system holding only the defaults file, a one-item YAML list. */
  function OneFile(): FileSystem {
    (p: string) => if p == DefaultsPath then Some(DefaultsText) else None
  }

  function OneItemYaml(): string -> Result<Json> {
    (s: string) => if s == DefaultsText then Ok(JArr([JStr("https://a.example")])) else Err("syntax error")
  }

  /** With a readable one-item defaults file, the code as written yields no endpoints and the intended reading yields the item. */
  lemma DefaultsFileIgnored()
    ensures LoadDefaultEndpoints(ReadDefaultsAsWritten(OneFile(), OneItemYaml(), DefaultsPath), "production").Err?
    ensures LoadDefaultEndpoints(ReadDefaults(OneFile(), OneItemYaml(), DefaultsPath), "production")
            == Ok([Endpoint("https://a.example", "https://a.example", NoPid)])
  {
    assert DefaultsText[0] != DefaultsPath[0];
    assert OneFile()(DefaultsText).None?;
    var item := JStr("https://a.example");
    assert SelectList(JArr([item]), "production") == JArr([item]);
    var e := NormalizeItem(item);
    assert e == Endpoint("https://a.example", "https://a.example", NoPid);
    assert !IsBlankSpace(e.url[0]);
    assert HasUrl(e);
    assert [item][1..] == [];
    assert MapSeq([item], NormalizeItem) == [e];
    assert [e][1..] == [];
    assert Filter([e], HasUrl) == [e];
  }

  // ---------------------------------------------------------------------------
  // Providers (build_endpoints_from_registry)

  /** The registry answers with providers when its body is a non-empty array whose first item is a hash with `node_endpoint`. */
  predicate IsProviderShape(body: Json) {
    body.JArr? && |body.elems| > 0 && body.elems[0].JObj? && HasKey(body.elems[0].fields, "node_endpoint")
  }

  /** `c["capability_type"].to_s.strip.casecmp("Front Office").zero?`. */
  predicate IsFrontOffice(c: Fields) {
    CaseCmpEqual(Strip(ToS(Get(c, "capability_type"))), "Front Office")
  }

  /** The capability `find` takes: a hash whose type is Front Office. */
  predicate TakesCapability(c: Json) {
    c.JObj? && IsFrontOffice(c.fields)
  }

  /**
   * A capability `find` passes over: a hash of another type, or a string
   * holding "capability_type", whose `[]` yields that substring. On any other
   * string `c["capability_type"]` is nil and `c[:capability_type]` raises.
   */
  predicate SkipsCapability(c: Json) {
    (c.JStr? && HasSubstring(c.s, "capability_type")) || (c.JObj? && !IsFrontOffice(c.fields))
  }

  function Takes(): Json -> bool {
    (c: Json) => TakesCapability(c)
  }

  function Skips(): Json -> bool {
    (c: Json) => SkipsCapability(c)
  }

  /**
   * `Array(caps).find { ... }`: the first Front Office hash; a capability that
   * is neither a hash nor a string holding "capability_type" makes the block
   * raise. `Takes()` is the
   * block answering true, `Skips()` the block answering false without raising.
   */
  function FindFrontOffice(caps: seq<Json>): (r: Result<Option<Json>>)
    ensures r == Ok(None) <==> PassedBefore(caps, |caps|, Takes(), Skips())
    ensures r.Ok? && r.value.Some? ==>
              exists i :: 0 <= i < |caps| && caps[i] == r.value.value && Takes()(caps[i]) && PassedBefore(caps, i, Takes(), Skips())
    ensures r.Err? ==>
              exists i :: 0 <= i < |caps| && !Takes()(caps[i]) && !Skips()(caps[i]) && PassedBefore(caps, i, Takes(), Skips())
  {
    FindFirstOutcomes(caps, Takes(), Skips());
    FindFirst(caps, Takes(), Skips())
  }

  /** The block raises exactly on a capability that is neither a hash nor a string holding "capability_type". */
  lemma BlockRaises(c: Json)
    ensures !Takes()(c) && !Skips()(c) <==> !c.JObj? && !(c.JStr? && HasSubstring(c.s, "capability_type"))
  {
  }

  /** A plain string listed before the Front Office hash makes the search raise. */
  lemma StringCapabilityRaises(front: Fields)
    ensures FindFrontOffice([JStr("web"), JObj(front)]).Err?
  {
    assert !Takes()(JStr("web")) && !Skips()(JStr("web"));
    assert [JStr("web"), JObj(front)][..0] == [];
    assert PassedBefore([JStr("web"), JObj(front)], 0, Takes(), Skips());
  }

  /**
   * `data = resp.body || {}` and `data["capabilities"] || []`, as a list: a
   * hash body gives its capabilities; a string body never has a Front Office
   * capability; any other body raises.
   */
  function CapabilitiesOf(body: Json): (r: Result<seq<Json>>)
    ensures !Truthy(body) ==> r == Ok([])
    ensures body.JObj? ==> r == Ok(ArrayCoerce(Get(body.fields, "capabilities")))
  {
    if !Truthy(body) then Ok([])
    else match body
      case JObj(fs) => Ok(ArrayCoerce(Get(fs, "capabilities")))
      case JStr(_) => Ok([])
      case _ => Err("body is not a hash")
  }

  /** The Front Office `endpoint` of a node's body; None where the source raises or finds none. */
  function FrontOfficeUrl(body: Json): Option<Json> {
    var caps := CapabilitiesOf(body);
    if caps.Err? then None
    else
      var front := FindFrontOffice(caps.value);
      if front.Err? || front.value.None? then None
      else match front.value.value
        case JObj(fs) => Some(Get(fs, "endpoint"))
        case _ => None
  }

  /** A url `build_endpoints_from_registry` accepts: neither blank after `strip`, nor "-". */
  predicate UsableUrl(url: Json) {
    Strip(ToS(url)) != [] && Strip(ToS(url)) != "-"
  }

  /** The thread body of `build_endpoints_from_registry` for one provider; None wherever it raises. */
  function ResolveProvider(item: Json, nodeFetch: Json -> Result<HttpReply>): (r: Option<Endpoint>)
    ensures r.Some? <==>
              && item.JObj?
              && Strip(ToS(Get(item.fields, "node_endpoint"))) != []
              && nodeFetch(Get(item.fields, "node_endpoint")).Ok?
              && nodeFetch(Get(item.fields, "node_endpoint")).value.success
              && FrontOfficeUrl(nodeFetch(Get(item.fields, "node_endpoint")).value.body).Some?
              && UsableUrl(FrontOfficeUrl(nodeFetch(Get(item.fields, "node_endpoint")).value.body).value)
    ensures r.Some? ==>
              var f := item.fields;
              var url := FrontOfficeUrl(nodeFetch(Get(f, "node_endpoint")).value.body).value;
              && r.value.url == ToS(url)
              && r.value.name == (if Truthy(Or(Lookup(f, "name"), Lookup(f, "id"))) then ToS(Or(Lookup(f, "name"), Lookup(f, "id"))) else ToS(url))
              && r.value.pid == PidStr(ToS(Get(f, "pid")))
    ensures r.Some? ==> StrippedUrl(r.value)
  {
    if !item.JObj? then None
    else
      var f := item.fields;
      var name := Or(Lookup(f, "name"), Lookup(f, "id"));
      var pid := Get(f, "pid");
      var nodeEp := Get(f, "node_endpoint");
      if Strip(ToS(nodeEp)) == [] then None
      else
        var resp := nodeFetch(nodeEp);
        if resp.Err? || !resp.value.success then None
        else
          var front := FrontOfficeUrl(resp.value.body);
          var url := if front.Some? then front.value else JNull;
          var url' := if Strip(ToS(url)) == "-" then JNull else url;
          if Strip(ToS(url')) == [] then None
          else Some(Endpoint(ToS(Or(name, url')), ToS(url'), PidStr(ToS(pid))))
  }

  function Resolver(nodeFetch: Json -> Result<HttpReply>): Json -> Option<Endpoint> {
    (item: Json) => ResolveProvider(item, nodeFetch)
  }

  /** The final `reject`: the url is not empty after `strip`. */
  predicate StrippedUrl(e: Endpoint) {
    Strip(e.url) != []
  }

  /** `build_endpoints_from_registry(providers)`: the providers that resolve, in provider order. */
  function BuildEndpointsFromRegistry(providers: Json, nodeFetch: Json -> Result<HttpReply>): (r: seq<Endpoint>)
    ensures forall i :: 0 <= i < |r| ==> StrippedUrl(r[i])
    ensures forall i :: 0 <= i < |r| ==>
              exists j :: 0 <= j < |ArrayCoerce(providers)| && ResolveProvider(ArrayCoerce(providers)[j], nodeFetch) == Some(r[i])
    ensures forall j :: 0 <= j < |ArrayCoerce(providers)| && ResolveProvider(ArrayCoerce(providers)[j], nodeFetch).Some?
              ==> ResolveProvider(ArrayCoerce(providers)[j], nodeFetch).value in r
    ensures |r| <= |ArrayCoerce(providers)|
  {
    var items := ArrayCoerce(providers);
    var survivors := Somes(MapSeq(items, Resolver(nodeFetch)));
    SomesMapSeq(items, Resolver(nodeFetch));
    forall i | 0 <= i < |survivors| ensures StrippedUrl(survivors[i]) {
      var j :| 0 <= j < |items| && Resolver(nodeFetch)(items[j]) == Some(survivors[i]);
    }
    FilterAll(survivors, StrippedUrl);
    Filter(survivors, StrippedUrl)
  }

  /** Providers are resolved one by one: a failing provider removes only itself and the others keep their order. */
  lemma BuildEndpointsAppend(a: seq<Json>, b: seq<Json>, nodeFetch: Json -> Result<HttpReply>)
    ensures BuildEndpointsFromRegistry(JArr(a + b), nodeFetch)
            == BuildEndpointsFromRegistry(JArr(a), nodeFetch) + BuildEndpointsFromRegistry(JArr(b), nodeFetch)
  {
    var f := Resolver(nodeFetch);
    MapSeqAppend(a, b, f);
    SomesAppend(MapSeq(a, f), MapSeq(b, f));
    FilterAppend(Somes(MapSeq(a, f)), Somes(MapSeq(b, f)), StrippedUrl);
  }

  lemma FailedProviderDropped(p: Json, nodeFetch: Json -> Result<HttpReply>)
    requires ResolveProvider(p, nodeFetch).None?
    ensures BuildEndpointsFromRegistry(JArr([p]), nodeFetch) == []
  {
    assert [p][1..] == [];
    assert MapSeq([p], Resolver(nodeFetch)) == [None];
    var none: Option<Endpoint> := None;
    assert Somes([none]) == [];
  }

  /** A provider that resolves contributes its endpoint exactly once. */
  lemma ResolvedProviderKept(p: Json, nodeFetch: Json -> Result<HttpReply>)
    requires ResolveProvider(p, nodeFetch).Some?
    ensures BuildEndpointsFromRegistry(JArr([p]), nodeFetch) == [ResolveProvider(p, nodeFetch).value]
  {
    var e := ResolveProvider(p, nodeFetch).value;
    var r := BuildEndpointsFromRegistry(JArr([p]), nodeFetch);
    assert ArrayCoerce(JArr([p]))[0] == p;
    assert e in r;
    assert |r| <= 1;
  }

  // ---------------------------------------------------------------------------
  // The service

  /** What the service reads from outside: environment, HTTP replies and the defaults file. */
  datatype RegistryEnv = RegistryEnv(
    registryUrl: Option<string>,            // ENV["NODE_REGISTRY_URL"]
    registryReply: Result<HttpReply>,       // the reply to GET registryUrl, or the error raised
    nodeFetch: Json -> Result<HttpReply>,   // the reply to GET node_endpoint, or the error raised
    defaultsFile: Result<Json>,             // the parsed defaults file, or why it could not be read
    railsEnv: string)                       // Rails.env

  /**
   * The url passed one of the two final filters: `normalize_endpoints`
   * rejects a `blank?` url, `build_endpoints_from_registry` one that is
   * empty after `strip`.
   */
  predicate KeptUrl(e: Endpoint) {
    HasUrl(e) || StrippedUrl(e)
  }

  /** `default_endpoints`: the defaults, or none when they cannot be loaded. */
  function DefaultEndpointsOf(env: RegistryEnv): (r: seq<Endpoint>)
    ensures env.defaultsFile.Err? ==> r == []
    ensures env.defaultsFile.Ok? ==> r == NormalizeEndpoints(SelectList(env.defaultsFile.value, env.railsEnv))
    ensures forall i :: 0 <= i < |r| ==> HasUrl(r[i])
  {
    var loaded := LoadDefaultEndpoints(env.defaultsFile, env.railsEnv);
    if loaded.Ok? then loaded.value else []
  }

  /** The registry could be asked, and answered with success. */
  predicate RegistryAnswered(env: RegistryEnv) {
    env.registryUrl.Some? && !BlankString(env.registryUrl.value)
    && env.registryReply.Ok? && env.registryReply.value.success
  }

  /** `fetch_from_registry`: any failure of the registry itself gives the defaults. */
  function FetchFromRegistryOf(env: RegistryEnv): (r: seq<Endpoint>)
    ensures !RegistryAnswered(env) ==> r == DefaultEndpointsOf(env)
    ensures RegistryAnswered(env) && IsProviderShape(env.registryReply.value.body)
            ==> r == BuildEndpointsFromRegistry(env.registryReply.value.body, env.nodeFetch)
    ensures RegistryAnswered(env) && !IsProviderShape(env.registryReply.value.body)
            ==> r == NormalizeEndpoints(env.registryReply.value.body)
    ensures forall i :: 0 <= i < |r| ==> KeptUrl(r[i])
  {
    if !RegistryAnswered(env) then DefaultEndpointsOf(env)
    else
      var body := env.registryReply.value.body;
      if IsProviderShape(body) then BuildEndpointsFromRegistry(body, env.nodeFetch) else NormalizeEndpoints(body)
  }

  /** `endpoints`: the defaults under STATIC_CONFIG, else the registry (the cache always missing). */
  function EndpointsOf(staticConfig: bool, env: RegistryEnv): (r: seq<Endpoint>)
    ensures staticConfig ==> r == DefaultEndpointsOf(env)
    ensures !staticConfig ==> r == FetchFromRegistryOf(env)
    ensures forall i :: 0 <= i < |r| ==> KeptUrl(r[i])
  {
    if staticConfig then DefaultEndpointsOf(env) else FetchFromRegistryOf(env)
  }

  /** Whatever path is taken, no endpoint comes out with an empty url. */
  lemma EndpointsHaveUrls(staticConfig: bool, env: RegistryEnv)
    ensures forall i :: 0 <= i < |EndpointsOf(staticConfig, env)| ==> EndpointsOf(staticConfig, env)[i].url != []
  {
    var r := EndpointsOf(staticConfig, env);
    forall i | 0 <= i < |r| ensures r[i].url != [] {
      assert KeptUrl(r[i]);
      assert Strip([]) == [];
    }
  }

  /**
   * The two filters differ: a url of one NUL is not `blank?`, so a listed
   * endpoint keeps it, although `strip` empties it.
   */
  lemma NulUrlKept()
    ensures NormalizeEndpoints(JArr([JStr("\0")])) == [Endpoint("\0", "\0", NoPid)]
    ensures Strip("\0") == []
  {
    var e := Endpoint("\0", "\0", NoPid);
    assert NormalizeItem(JStr("\0")) == e;
    assert !IsBlankSpace(e.url[0]);
    assert HasUrl(e);
    assert [JStr("\0")][1..] == [];
    assert MapSeq([JStr("\0")], NormalizeItem) == [e];
    assert [e][1..] == [];
    assert Filter([e], HasUrl) == [e];
    assert LStrip("\0"[1..]) == [];
  }

  /** When the registry does not answer, STATIC_CONFIG changes nothing: both give the defaults. */
  lemma FailedRegistryIsStatic(env: RegistryEnv)
    requires !RegistryAnswered(env)
    ensures EndpointsOf(false, env) == EndpointsOf(true, env) == DefaultEndpointsOf(env)
  {
  }

  class NodeRegistryService {
    const cacheTtl: int
    const apiKey: string
    const staticConfig: bool

    /** `NodeRegistryService.new`: the api key stripped, the STATIC_CONFIG flag parsed. */
    constructor (cacheTtl: int, apiKeyVar: Option<string>, staticConfigVar: Option<string>)
      ensures this.cacheTtl == cacheTtl
      ensures apiKey == Strip(if apiKeyVar.Some? then apiKeyVar.value else "")
      ensures staticConfig == TruthyEnv(staticConfigVar)
    {
      this.cacheTtl := cacheTtl;
      apiKey := Strip(if apiKeyVar.Some? then apiKeyVar.value else "");
      staticConfig := TruthyEnv(staticConfigVar);
    }

    /** `default_endpoints`: the `rescue` turns a load failure into no endpoints. */
    method DefaultEndpoints(env: RegistryEnv) returns (r: seq<Endpoint>)
      ensures r == DefaultEndpointsOf(env)
    {
      var loaded := LoadDefaultEndpoints(env.defaultsFile, env.railsEnv);
      if loaded.Err? {
        return [];
      }
      return loaded.value;
    }

    /** `fetch_from_registry`: each `raise` lands in the `rescue`, which returns the defaults. */
    method FetchFromRegistry(env: RegistryEnv) returns (r: seq<Endpoint>)
      ensures r == FetchFromRegistryOf(env)
    {
      var url := env.registryUrl;
      if url.None? || BlankString(url.value) {
        r := DefaultEndpoints(env);
        return;
      }
      var response := env.registryReply;
      if response.Err? || !response.value.success {
        r := DefaultEndpoints(env);
        return;
      }
      var body := response.value.body;
      if IsProviderShape(body) {
        r := BuildEndpointsFromRegistry(body, env.nodeFetch);
      } else {
        r := NormalizeEndpoints(body);
      }
    }

    /** `endpoints`. */
    method Endpoints(env: RegistryEnv) returns (r: seq<Endpoint>)
      ensures r == EndpointsOf(staticConfig, env)
    {
      if staticConfig {
        r := DefaultEndpoints(env);
        return;
      }
      r := FetchFromRegistry(env);
    }
  }
}
