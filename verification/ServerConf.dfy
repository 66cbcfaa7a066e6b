/**
 The repository-owned server.conf: its normal form, and its reconstruction from the registry
 (scripts/server_conf_contract.py, scripts/repair_site.py).
 */
module ServerConf {

  import opened Text
  import opened Wrappers
  import opened Json

  type Fields = map<string, Value>

  /** The USER variable, and how Python shows a value that is not a string. */
  datatype Process = Process(user: string, show: Value -> string)

  ghost predicate ValidProcess(p: Process) {
    forall v: Value :: v.Truthy() ==> p.show(v) != ""
  }

  datatype Hooks = Hooks(preDeploy: Value, build: Value, postDeploy: Value)

  datatype Service = Service(command: string, port: Value)

  datatype Runtime = Runtime(
    service: Option<Service>,
    workingDir: string,
    user: string,
    healthEndpoint: string,
    healthRetries: Value,
    healthInterval: Value,
    envFile: Option<string>)

  datatype Dns = Dns(provider: string, zone: string)

  datatype Conf = Conf(
    name: string,
    domain: string,
    buildOutput: Option<string>,
    webRoot: Option<string>,
    hooks: Hooks,
    runtime: Runtime,
    serviceName: string,
    wwwRedirect: bool,
    tlsHostnames: seq<string>,
    dns: Option<Dns>,
    source: string)

  const ROOT_KEYS: set<string> := {
    "name", "domain", "build_output", "web_root", "deploy_hooks", "deployment_policy", "runtime", "service",
    "nginx", "dns"}
  const HOOK_KEYS: set<string> := {"pre_deploy", "build", "post_deploy"}
  const RUNTIME_KEYS: set<string> := {
    "mode", "command", "port", "working_dir", "user", "env_file", "health_endpoint", "health_retries",
    "health_interval_seconds"}
  const SERVICE_KEYS: set<string> := {"name"}
  const NGINX_KEYS: set<string> := {"www_redirect", "tls_hostnames"}
  const DNS_KEYS: set<string> := {"provider", "zone"}

  /** `_require_object`: missing and null sections are empty. */
  function Section(conf: Fields, key: string): Result<Fields> {
    match Get(conf, key)
    case Null => Ok(map[])
    case Obj(fields) => Ok(fields)
    case _ => Raised(ValidationError)
  }

  predicate Filled(v: Value) {
    v.Str? && Strip(v.s) != ""
  }

  predicate Absolute(path: string) {
    path != "" && path[0] == '/'
  }

  function Default(fields: Fields, key: string, value: Value): Value {
    if key in fields then fields[key] else value
  }

  /** `str(value)`. */
  function Printed(p: Process, v: Value): string {
    if v.Str? then v.s else p.show(v)
  }

  predicate Positive(v: Value) {
    v.IsInt() && v.AsInt() > 0
  }

  /** `_normalize_runtime`. */
  function NormalizeRuntime(p: Process, r: Fields): Result<Runtime> {
    var mode := Default(r, "mode", Str("static"));
    var dir := Default(r, "working_dir", Str("."));
    var retries := Default(r, "health_retries", Int(20));
    var interval := Default(r, "health_interval_seconds", Int(2));
    var env := Get(r, "env_file");
    if !(r.Keys <= RUNTIME_KEYS)
       || (mode != Str("static") && mode != Str("service"))
       || !Filled(dir) || Absolute(dir.s)
       || !Positive(retries) || !Positive(interval)
       || (!env.Null? && !Filled(env))
       || (mode == Str("service") && (!Filled(Get(r, "command")) || !Get(r, "port").IsInt()))
    then Raised(ValidationError)
    else
      Ok(Runtime(
        if mode == Str("service") then Some(Service(Strip(Get(r, "command").s), Get(r, "port"))) else None,
        Strip(dir.s),
        if Get(r, "user").Truthy() then Printed(p, Get(r, "user")) else if p.user != "" then p.user else "root",
        if Get(r, "health_endpoint").Truthy() then Printed(p, Get(r, "health_endpoint")) else "/health",
        retries, interval,
        if env.Str? then Some(Strip(env.s)) else None))
  }

  function NormalizeHooks(h: Fields): Result<Hooks> {
    if h.Keys <= HOOK_KEYS then Ok(Hooks(Get(h, "pre_deploy"), Get(h, "build"), Get(h, "post_deploy")))
    else Raised(ValidationError)
  }

  function NormalizeService(s: Fields, name: string): Result<string> {
    var value := if Get(s, "name").Truthy() then Get(s, "name") else Str(name + ".service");
    if s.Keys <= SERVICE_KEYS && Filled(value) then Ok(Strip(value.s)) else Raised(ValidationError)
  }

  function StripAll(items: seq<Value>): seq<string>
    requires forall i | 0 <= i < |items| :: items[i].Str?
  {
    seq(|items|, i requires 0 <= i < |items| => Strip(items[i].s))
  }

  predicate AllFilled(items: seq<Value>) {
    forall i | 0 <= i < |items| :: Filled(items[i])
  }

  /** The host names, the domain when they are missing or null. */
  function HostNames(n: Fields, domain: string): Value {
    if Get(n, "tls_hostnames").Null? then Arr([Str(domain)]) else Get(n, "tls_hostnames")
  }

  function NormalizeNginx(n: Fields, domain: string): Result<(bool, seq<string>)> {
    var redirect := Default(n, "www_redirect", Bool(false));
    var names := HostNames(n, domain);
    if n.Keys <= NGINX_KEYS && redirect.Bool? && names.Arr? && AllFilled(names.items)
    then Ok((redirect.b, StripAll(names.items)))
    else Raised(ValidationError)
  }

  function NormalizeDns(d: Fields, domain: string): Result<Option<Dns>> {
    if !(d.Keys <= DNS_KEYS) then Raised(ValidationError)
    else if d == map[] then Ok(None)
    else
      var provider := Get(d, "provider");
      var zone := Default(d, "zone", Str(domain));
      if (provider == Str("namecheap") || provider == Str("porkbun")) && Filled(zone)
      then Ok(Some(Dns(provider.s, Lower(Strip(zone.s)))))
      else Raised(ValidationError)
  }

  function OptionalText(v: Value): Result<Option<string>> {
    if v.Null? then Ok(None)
    else if Filled(v) then Ok(Some(Strip(v.s)))
    else Raised(ValidationError)
  }

  function RequiredText(v: Value): Result<string> {
    if Filled(v) then Ok(Strip(v.s)) else Raised(ValidationError)
  }

  /** `normalize_server_conf`, on the decoded file. */
  function Normalize(p: Process, document: Value, source: string): Result<Conf> {
    if !document.Obj? then Raised(ValidationError)
    else
      var conf := document.fields;
      if !(conf.Keys <= ROOT_KEYS) then Raised(ValidationError)
      else
        var name :- RequiredText(Get(conf, "name"));
        var domain :- RequiredText(Get(conf, "domain"));
        var build :- OptionalText(Get(conf, "build_output"));
        var web :- OptionalText(Get(conf, "web_root"));
        if build.None? && web.None? then Raised(ValidationError)
        else NormalizeSections(p, conf, name, domain, build, web, source)
  }

  function NormalizeSections(p: Process, conf: Fields, name: string, domain: string, build: Option<string>,
                             web: Option<string>, source: string): Result<Conf> {
    var hookFields :- Section(conf, "deploy_hooks");
    var runtimeFields :- Section(conf, "runtime");
    var serviceFields :- Section(conf, "service");
    var nginxFields :- Section(conf, "nginx");
    var dnsFields :- Section(conf, "dns");
    var hooks :- NormalizeHooks(hookFields);
    var runtime :- NormalizeRuntime(p, runtimeFields);
    var service :- NormalizeService(serviceFields, name);
    var nginx :- NormalizeNginx(nginxFields, domain);
    var dns :- NormalizeDns(dnsFields, domain);
    Ok(Conf(name, domain, build, web, hooks, runtime, service, nginx.0, nginx.1, dns, source))
  }

  /** `if b: m[key] = v`. */
  function Put(m: Fields, b: bool, key: string, v: Value): Fields {
    if b then m[key := v] else m
  }

  function TextOrNull(s: Option<string>): Value {
    if s.Some? then Str(s.value) else Null
  }

  function RuntimeDict(r: Runtime): Fields {
    var base := map[
      "mode" := Str(if r.service.Some? then "service" else "static"),
      "working_dir" := Str(r.workingDir),
      "user" := Str(r.user),
      "health_endpoint" := Str(r.healthEndpoint),
      "health_retries" := r.healthRetries,
      "health_interval_seconds" := r.healthInterval];
    var withEnv := Put(base, r.envFile.Some?, "env_file", TextOrNull(r.envFile));
    if r.service.Some?
    then withEnv["command" := Str(r.service.value.command)]["port" := r.service.value.port]
    else withEnv
  }

  function HooksDict(h: Hooks): Fields {
    map["pre_deploy" := h.preDeploy, "build" := h.build, "post_deploy" := h.postDeploy]
  }

  function Texts(items: seq<string>): (r: seq<Value>)
    ensures |r| == |items| && forall i | 0 <= i < |items| :: r[i] == Str(items[i])
  {
    seq(|items|, i requires 0 <= i < |items| => Str(items[i]))
  }

  function NginxDict(c: Conf): Fields {
    map["www_redirect" := Bool(c.wwwRedirect), "tls_hostnames" := Arr(Texts(c.tlsHostnames))]
  }

  function DnsDict(d: Dns): Fields {
    map["provider" := Str(d.provider), "zone" := Str(d.zone)]
  }

  /** The dict that normalization returns and that the registry stores as `deploy_config`. */
  function Dict(c: Conf): Fields {
    map["name" := Str(c.name),
        "domain" := Str(c.domain),
        "build_output" := TextOrNull(c.buildOutput),
        "web_root" := TextOrNull(c.webRoot),
        "deploy_hooks" := Obj(HooksDict(c.hooks)),
        "runtime" := Obj(RuntimeDict(c.runtime)),
        "service" := Obj(map["name" := Str(c.serviceName)]),
        "nginx" := Obj(NginxDict(c)),
        "dns" := if c.dns.Some? then Obj(DnsDict(c.dns.value)) else Null,
        "source_server_conf" := Str(c.source)]
  }

  /** `dict(config.get(key) or {})`. */
  function SubDict(dict: Fields, key: string): Result<Fields> {
    var v := Get(dict, key);
    if !v.Truthy() then Ok(map[])
    else if v.Obj? then Ok(v.fields)
    else Raised(ValueError)
  }

  /** The items worth keeping: neither null nor the empty string. */
  predicate Kept(v: Value) {
    v != Null && v != Str("")
  }

  function RenderRuntime(runtime: Fields): Fields {
    map key | key in RUNTIME_KEYS && key in runtime && Kept(runtime[key]) :: runtime[key]
  }

  /** Of the stored runtime section the known keys are written, except those that are null or the empty text. */
  lemma RuntimeWritten(runtime: Fields, key: string)
    ensures key in RenderRuntime(runtime) <==>
              key in RUNTIME_KEYS && key in runtime && runtime[key] != Null && runtime[key] != Str("")
    ensures key in RenderRuntime(runtime) ==> RenderRuntime(runtime)[key] == runtime[key]
  {
    hide RUNTIME_KEYS;
  }

  const RUNTIME_KEY_LIST: seq<string> := [
    "mode", "command", "port", "working_dir", "user", "env_file", "health_endpoint", "health_retries",
    "health_interval_seconds"]

  lemma RuntimeKeysListed()
    ensures forall key :: key in RUNTIME_KEY_LIST <==> key in RUNTIME_KEYS
  {
    var keys := RUNTIME_KEY_LIST;
    forall key | key in RUNTIME_KEYS ensures key in keys {
      assert key == keys[0] || key == keys[1] || key == keys[2] || key == keys[3] || key == keys[4]
             || key == keys[5] || key == keys[6] || key == keys[7] || key == keys[8];
    }
  }

  /** The loop over the runtime keys. */
  method FillRuntime(runtime: Fields) returns (rendered: Fields)
    ensures rendered == RenderRuntime(runtime)
  {
    hide RUNTIME_KEY_LIST, RUNTIME_KEYS;
    var keys := RUNTIME_KEY_LIST;
    RuntimeKeysListed();
    rendered := map[];
    for i := 0 to |keys|
      invariant rendered == map key | key in keys[..i] && key in runtime && Kept(runtime[key]) :: runtime[key]
    {
      assert keys[..i + 1] == keys[..i] + [keys[i]];
      if keys[i] in runtime && Kept(runtime[keys[i]]) {
        rendered := rendered[keys[i] := runtime[keys[i]]];
      }
    }
    assert keys[..|keys|] == keys;
  }

  function RenderHooks(hooks: Fields): Fields {
    map key | key in hooks && key in HOOK_KEYS && hooks[key].Truthy() :: hooks[key]
  }

  /** `_compact_dict` for a known list of keys. */
  predicate Compact(v: Value) {
    v != Null && v != Str("") && v != Arr([]) && v != Obj(map[])
  }

  function RenderService(service: Fields): Fields {
    Put(map[], Compact(Get(service, "name")), "name", Get(service, "name"))
  }

  function RenderNginx(nginx: Fields): Fields {
    var redirect := Put(map[], "www_redirect" in nginx, "www_redirect", Get(nginx, "www_redirect"));
    Put(redirect, Get(nginx, "tls_hostnames").Truthy(), "tls_hostnames", Get(nginx, "tls_hostnames"))
  }

  function RenderDns(dns: Fields): Fields {
    var provider := Put(map[], Compact(Get(dns, "provider")), "provider", Get(dns, "provider"));
    Put(provider, Compact(Get(dns, "zone")), "zone", Get(dns, "zone"))
  }

  function Heads(dict: Fields): Fields {
    var base := map["name" := Get(dict, "name"), "domain" := Get(dict, "domain")];
    var build := Put(base, Get(dict, "build_output").Truthy(), "build_output", Get(dict, "build_output"));
    Put(build, Get(dict, "web_root").Truthy(), "web_root", Get(dict, "web_root"))
  }

  function WithSection(m: Fields, key: string, section: Fields): Fields {
    Put(m, section != map[], key, Obj(section))
  }

  function Rendered(dict: Fields, hooks: Fields, runtime: Fields, service: Fields, nginx: Fields, dns: Fields): Fields {
    var m1 := WithSection(Heads(dict), "deploy_hooks", hooks);
    var m2 := WithSection(m1, "runtime", runtime);
    var m3 := WithSection(m2, "service", service);
    var m4 := WithSection(m3, "nginx", nginx);
    WithSection(m4, "dns", dns)
  }

  /** `server_conf_from_deploy_config`. */
  function ConfFromDict(dict: Fields): Result<Fields> {
    var runtime :- SubDict(dict, "runtime");
    var service :- SubDict(dict, "service");
    var nginx :- SubDict(dict, "nginx");
    var dns :- SubDict(dict, "dns");
    var hooks :- SubDict(dict, "deploy_hooks");
    if !Get(dict, "name").Truthy() || !Get(dict, "domain").Truthy()
       || (!Get(dict, "build_output").Truthy() && !Get(dict, "web_root").Truthy())
    then Raised(RepairError)
    else
      Ok(Rendered(dict, RenderHooks(hooks), RenderRuntime(runtime), RenderService(service), RenderNginx(nginx),
                  RenderDns(dns)))
  }

  predicate Clean(s: string) {
    s != "" && Trimmed(s)
  }

  /** What every normal form satisfies. */
  predicate WellShaped(c: Conf) {
    && Clean(c.name) && Clean(c.domain) && Clean(c.serviceName)
    && (c.buildOutput.Some? || c.webRoot.Some?)
    && (c.buildOutput.Some? ==> Clean(c.buildOutput.value)) && (c.webRoot.Some? ==> Clean(c.webRoot.value))
    && RuntimeShaped(c.runtime)
    && (forall i | 0 <= i < |c.tlsHostnames| :: Clean(c.tlsHostnames[i]))
    && (c.dns.Some? ==> DnsShaped(c.dns.value))
  }

  predicate RuntimeShaped(r: Runtime) {
    && Clean(r.workingDir) && r.user != "" && r.healthEndpoint != ""
    && Positive(r.healthRetries) && Positive(r.healthInterval)
    && (r.envFile.Some? ==> Clean(r.envFile.value))
    && (r.service.Some? ==> Clean(r.service.value.command) && r.service.value.port.IsInt())
  }

  predicate DnsShaped(d: Dns) {
    (d.provider == "namecheap" || d.provider == "porkbun") && Clean(d.zone) && Lower(d.zone) == d.zone
  }

  lemma StrippedIsText(v: Value)
    requires Filled(v)
    ensures Clean(Strip(v.s))
  {
    StripTrims(v.s);
  }

  lemma TextIsFilled(s: string)
    requires Clean(s)
    ensures Filled(Str(s)) && Strip(s) == s
  {
    StripOfTrimmed(s);
  }

  lemma RuntimeShape(p: Process, r: Fields)
    requires ValidProcess(p) && NormalizeRuntime(p, r).Ok?
    ensures RuntimeShaped(NormalizeRuntime(p, r).value)
  {
    hide RUNTIME_KEYS, Strip, Trimmed;
    StrippedIsText(Default(r, "working_dir", Str(".")));
    if Get(r, "env_file").Str? { StrippedIsText(Get(r, "env_file")); }
    if Filled(Get(r, "command")) { StrippedIsText(Get(r, "command")); }
    PrintedNonempty(p, Get(r, "user"));
    PrintedNonempty(p, Get(r, "health_endpoint"));
  }

  lemma PrintedNonempty(p: Process, v: Value)
    requires ValidProcess(p)
    ensures v.Truthy() ==> Printed(p, v) != ""
  {
  }

  lemma DnsShape(d: Fields, domain: string)
    requires NormalizeDns(d, domain).Ok? && NormalizeDns(d, domain).value.Some?
    ensures DnsShaped(NormalizeDns(d, domain).value.value)
  {
    hide Strip, Trimmed, DNS_KEYS;
    var zone := Default(d, "zone", Str(domain));
    StrippedIsText(zone);
    LowerTwice(Strip(zone.s));
  }

  lemma NginxShape(n: Fields, domain: string)
    requires NormalizeNginx(n, domain).Ok?
    ensures forall i | 0 <= i < |NormalizeNginx(n, domain).value.1| :: Clean(NormalizeNginx(n, domain).value.1[i])
    ensures NormalizeNginx(n, domain).value.1 == [] <==> Get(n, "tls_hostnames") == Arr([])
  {
    hide Strip, Trimmed, NGINX_KEYS;
    var names := HostNames(n, domain);
    forall i | 0 <= i < |names.items| ensures Clean(Strip(names.items[i].s)) {
      StrippedIsText(names.items[i]);
    }
  }

  lemma ServiceShape(s: Fields, name: string)
    requires NormalizeService(s, name).Ok?
    ensures Clean(NormalizeService(s, name).value)
  {
    hide Strip, Trimmed, SERVICE_KEYS;
    StrippedIsText(if Get(s, "name").Truthy() then Get(s, "name") else Str(name + ".service"));
  }

  lemma NormalizedShape(p: Process, document: Value, source: string)
    requires ValidProcess(p) && Normalize(p, document, source).Ok?
    ensures WellShaped(Normalize(p, document, source).value)
    ensures Normalize(p, document, source).value.source == source
  {
    hide Strip, Trimmed, NormalizeRuntime, NormalizeHooks, NormalizeService, NormalizeNginx, NormalizeDns;
    hide ROOT_KEYS, RuntimeShaped, DnsShaped;
    var conf := document.fields;
    var c := Normalize(p, document, source).value;
    StrippedIsText(Get(conf, "name"));
    StrippedIsText(Get(conf, "domain"));
    if Filled(Get(conf, "build_output")) { StrippedIsText(Get(conf, "build_output")); }
    if Filled(Get(conf, "web_root")) { StrippedIsText(Get(conf, "web_root")); }
    RuntimeShape(p, Section(conf, "runtime").value);
    ServiceShape(Section(conf, "service").value, c.name);
    NginxShape(Section(conf, "nginx").value, c.domain);
    if c.dns.Some? { DnsShape(Section(conf, "dns").value, c.domain); }
  }

  /** A text other than space. */
  predicate SomeText(fields: Fields, key: string) {
    key in fields && fields[key].Str? && !Blank(fields[key].s)
  }

  predicate WholeNumber(fields: Fields, key: string, above: Option<int>) {
    key in fields
    && match fields[key]
       case Int(n) => above.None? || n > above.value
       case Bool(b) => above.None? || (if b then 1 else 0) > above.value
       case _ => false
  }

  /** Which runtime sections are accepted, key by key. */
  predicate RuntimeAccepted(r: Fields) {
    && r.Keys <= RUNTIME_KEYS
    && ("mode" in r ==> r["mode"] == Str("static") || r["mode"] == Str("service"))
    && ("working_dir" in r ==> SomeText(r, "working_dir") && r["working_dir"].s[0] != '/')
    && ("health_retries" in r ==> WholeNumber(r, "health_retries", Some(0)))
    && ("health_interval_seconds" in r ==> WholeNumber(r, "health_interval_seconds", Some(0)))
    && ("env_file" in r && r["env_file"] != Null ==> SomeText(r, "env_file"))
    && ("mode" in r && r["mode"] == Str("service") ==> SomeText(r, "command") && WholeNumber(r, "port", None))
  }

  /** What an accepted runtime section means, key by key, missing keys included. */
  predicate RuntimeMeans(p: Process, r: Fields, c: Runtime) {
    && (c.service.Some? <==> "mode" in r && r["mode"] == Str("service"))
    && c.workingDir == (if "working_dir" in r && r["working_dir"].Str? then Strip(r["working_dir"].s) else ".")
    && c.healthRetries == (if "health_retries" in r then r["health_retries"] else Int(20))
    && c.healthInterval == (if "health_interval_seconds" in r then r["health_interval_seconds"] else Int(2))
    && c.healthEndpoint ==
         (if "health_endpoint" in r && r["health_endpoint"].Truthy()
          then Printed(p, r["health_endpoint"]) else "/health")
    && c.user == (if "user" in r && r["user"].Truthy() then Printed(p, r["user"])
                  else if p.user != "" then p.user else "root")
    && c.envFile == (if "env_file" in r && r["env_file"].Str? then Some(Strip(r["env_file"].s)) else None)
    && (c.service.Some? ==>
          && "command" in r && r["command"].Str? && c.service.value.command == Strip(r["command"].s)
          && "port" in r && c.service.value.port == r["port"])
  }

  lemma FilledIs(v: Value)
    ensures Filled(v) <==> v.Str? && !Blank(v.s)
  {
    if v.Str? { StripBlank(v.s); }
  }

  lemma RuntimeAcceptedExactly(p: Process, r: Fields)
    ensures NormalizeRuntime(p, r).Ok? <==> RuntimeAccepted(r)
  {
    hide RUNTIME_KEYS, Printed;
    StripOfTrimmed(".");
    FilledIs(Default(r, "working_dir", Str(".")));
    FilledIs(Get(r, "env_file"));
    FilledIs(Get(r, "command"));
    hide Strip, Blank, Filled;
  }

  lemma RuntimeRead(p: Process, r: Fields)
    requires NormalizeRuntime(p, r).Ok?
    ensures RuntimeMeans(p, r, NormalizeRuntime(p, r).value)
  {
    hide RUNTIME_KEYS, Printed;
    StripOfTrimmed(".");
    hide Strip;
  }

  /** The other sections, missing keys included: service name, redirect, host names and DNS zone. */
  lemma SectionsRead(s: Fields, n: Fields, d: Fields, name: string, domain: string)
    ensures NormalizeService(s, name).Ok? && ("name" !in s || !s["name"].Truthy()) ==>
              NormalizeService(s, name).value == Strip(name + ".service")
    ensures NormalizeService(s, name).Ok? && "name" in s && s["name"].Truthy() ==>
              s["name"].Str? && NormalizeService(s, name).value == Strip(s["name"].s)
    ensures NormalizeNginx(n, domain).Ok? ==>
              var (redirect, hosts) := NormalizeNginx(n, domain).value;
              && (redirect <==> "www_redirect" in n && n["www_redirect"] == Bool(true))
              && ("tls_hostnames" !in n || n["tls_hostnames"] == Null ==> hosts == [Strip(domain)])
              && ("tls_hostnames" in n && n["tls_hostnames"] != Null ==>
                    && n["tls_hostnames"].Arr? && |hosts| == |n["tls_hostnames"].items|
                    && forall i | 0 <= i < |hosts| ::
                         n["tls_hostnames"].items[i].Str? && hosts[i] == Strip(n["tls_hostnames"].items[i].s))
    ensures NormalizeDns(d, domain).Ok? ==>
              && (NormalizeDns(d, domain).value.None? <==> d == map[])
              && (d != map[] ==>
                    var dns := NormalizeDns(d, domain).value.value;
                    && "provider" in d && d["provider"] == Str(dns.provider)
                    && (dns.provider == "namecheap" || dns.provider == "porkbun")
                    && ("zone" !in d ==> dns.zone == Lower(Strip(domain)))
                    && ("zone" in d ==> d["zone"].Str? && dns.zone == Lower(Strip(d["zone"].s))))
  {
    hide Strip, SERVICE_KEYS, NGINX_KEYS, DNS_KEYS;
    if HostNames(n, domain) == Arr([Str(domain)]) {
      assert AllFilled([Str(domain)]) ==> StripAll([Str(domain)]) == [Strip(domain)];
    }
  }

  /** A section is missing, null, or an object with these keys only. */
  predicate PlainSection(conf: Fields, key: string, keys: set<string>) {
    key in conf ==> conf[key].Null? || (conf[key].Obj? && conf[key].fields.Keys <= keys)
  }

  function Inside(conf: Fields, key: string): Fields {
    if key in conf && conf[key].Obj? then conf[key].fields else map[]
  }

  predicate Optional(conf: Fields, key: string) {
    key in conf && conf[key] != Null ==> SomeText(conf, key)
  }

  predicate ServiceAccepted(s: Fields) {
    "name" in s && s["name"].Truthy() ==> SomeText(s, "name")
  }

  predicate NginxAccepted(n: Fields) {
    && ("www_redirect" in n ==> n["www_redirect"].Bool?)
    && ("tls_hostnames" in n && n["tls_hostnames"] != Null ==>
          && n["tls_hostnames"].Arr?
          && forall v | v in n["tls_hostnames"].items :: v.Str? && !Blank(v.s))
  }

  predicate DnsAccepted(d: Fields) {
    d == map[]
    || ("provider" in d && (d["provider"] == Str("namecheap") || d["provider"] == Str("porkbun"))
        && ("zone" in d ==> SomeText(d, "zone")))
  }

  /** The sections are plain and each is accepted. */
  predicate SectionsAccepted(conf: Fields) {
    && PlainSection(conf, "deploy_hooks", HOOK_KEYS)
    && PlainSection(conf, "runtime", RUNTIME_KEYS) && RuntimeAccepted(Inside(conf, "runtime"))
    && PlainSection(conf, "service", SERVICE_KEYS) && ServiceAccepted(Inside(conf, "service"))
    && PlainSection(conf, "nginx", NGINX_KEYS) && NginxAccepted(Inside(conf, "nginx"))
    && PlainSection(conf, "dns", DNS_KEYS) && DnsAccepted(Inside(conf, "dns"))
  }

  /** Which server.conf files are accepted. */
  predicate Accepted(conf: Fields) {
    && conf.Keys <= ROOT_KEYS
    && SomeText(conf, "name") && SomeText(conf, "domain")
    && Optional(conf, "build_output") && Optional(conf, "web_root")
    && (SomeText(conf, "build_output") || SomeText(conf, "web_root"))
    && SectionsAccepted(conf)
  }

  lemma ServiceAcceptedExactly(s: Fields, name: string)
    requires Clean(name)
    ensures NormalizeService(s, name).Ok? <==> s.Keys <= SERVICE_KEYS && ServiceAccepted(s)
  {
    var file := name + ".service";
    TextIsFilled(file);
    FilledIs(Get(s, "name"));
    hide Strip, Blank, Filled, SERVICE_KEYS;
  }

  lemma NginxAcceptedExactly(n: Fields, domain: string)
    requires Clean(domain)
    ensures NormalizeNginx(n, domain).Ok? <==> n.Keys <= NGINX_KEYS && NginxAccepted(n)
  {
    TextIsFilled(domain);
    forall v: Value ensures Filled(v) <==> v.Str? && !Blank(v.s) { FilledIs(v); }
    hide Strip, Blank, Filled, NGINX_KEYS;
    if HostNames(n, domain).Arr? {
      var items := HostNames(n, domain).items;
      assert AllFilled(items) <==> forall v | v in items :: Filled(v);
    }
  }

  lemma DnsAcceptedExactly(d: Fields, domain: string)
    requires Clean(domain)
    ensures NormalizeDns(d, domain).Ok? <==> d.Keys <= DNS_KEYS && DnsAccepted(d)
  {
    TextIsFilled(domain);
    FilledIs(Default(d, "zone", Str(domain)));
    hide Strip, Blank, Filled, DNS_KEYS;
  }

  lemma TextsExactly(conf: Fields)
    ensures RequiredText(Get(conf, "name")).Ok? <==> SomeText(conf, "name")
    ensures RequiredText(Get(conf, "domain")).Ok? <==> SomeText(conf, "domain")
    ensures OptionalText(Get(conf, "build_output")).Ok? <==> Optional(conf, "build_output")
    ensures OptionalText(Get(conf, "web_root")).Ok? <==> Optional(conf, "web_root")
    ensures OptionalText(Get(conf, "build_output")).Ok? ==>
              (OptionalText(Get(conf, "build_output")).value.Some? <==> SomeText(conf, "build_output"))
    ensures OptionalText(Get(conf, "web_root")).Ok? ==>
              (OptionalText(Get(conf, "web_root")).value.Some? <==> SomeText(conf, "web_root"))
  {
    forall v: Value ensures Filled(v) <==> v.Str? && !Blank(v.s) { FilledIs(v); }
    hide Strip, Blank, Filled;
  }

  lemma PlainIs(conf: Fields, key: string, keys: set<string>)
    ensures PlainSection(conf, key, keys) <==> Section(conf, key).Ok? && Inside(conf, key).Keys <= keys
    ensures Section(conf, key).Ok? ==> Section(conf, key).value == Inside(conf, key)
  {
  }

  lemma SectionsExactly(p: Process, conf: Fields, name: string, domain: string, build: Option<string>,
                        web: Option<string>, source: string)
    requires Clean(name) && Clean(domain)
    ensures NormalizeSections(p, conf, name, domain, build, web, source).Ok? <==> SectionsAccepted(conf)
  {
    PlainIs(conf, "deploy_hooks", HOOK_KEYS);
    PlainIs(conf, "runtime", RUNTIME_KEYS);
    PlainIs(conf, "service", SERVICE_KEYS);
    PlainIs(conf, "nginx", NGINX_KEYS);
    PlainIs(conf, "dns", DNS_KEYS);
    RuntimeAcceptedExactly(p, Inside(conf, "runtime"));
    ServiceAcceptedExactly(Inside(conf, "service"), name);
    NginxAcceptedExactly(Inside(conf, "nginx"), domain);
    DnsAcceptedExactly(Inside(conf, "dns"), domain);
    assert RuntimeAccepted(Inside(conf, "runtime")) ==> Inside(conf, "runtime").Keys <= RUNTIME_KEYS;
    hide NormalizeRuntime, NormalizeService, NormalizeNginx, NormalizeDns, RuntimeAccepted, ServiceAccepted;
    hide NginxAccepted, DnsAccepted, Section, Inside, PlainSection, Clean;
    hide ROOT_KEYS, HOOK_KEYS, RUNTIME_KEYS, SERVICE_KEYS, NGINX_KEYS, DNS_KEYS;
  }

  /** Exactly the accepted files normalize, whatever USER is. */
  lemma AcceptedExactly(p: Process, conf: Fields, source: string)
    ensures Normalize(p, Obj(conf), source).Ok? <==> Accepted(conf)
  {
    TextsExactly(conf);
    hide NormalizeSections, SectionsAccepted, ROOT_KEYS, SomeText, Optional, OptionalText, Clean;
    var name, domain := RequiredText(Get(conf, "name")), RequiredText(Get(conf, "domain"));
    var build, web := OptionalText(Get(conf, "build_output")), OptionalText(Get(conf, "web_root"));
    if name.Ok? && domain.Ok? && build.Ok? && web.Ok? {
      StrippedIsText(Get(conf, "name"));
      StrippedIsText(Get(conf, "domain"));
      hide Filled, Strip;
      SectionsExactly(p, conf, name.value, domain.value, build.value, web.value, source);
    }
  }

  lemma SectionsMean(p: Process, conf: Fields, name: string, domain: string, build: Option<string>,
                     web: Option<string>, source: string)
    requires NormalizeSections(p, conf, name, domain, build, web, source).Ok?
    ensures var c := NormalizeSections(p, conf, name, domain, build, web, source).value;
            && c.name == name && c.domain == domain && c.buildOutput == build && c.webRoot == web && c.source == source
            && c.hooks.preDeploy == Get(Inside(conf, "deploy_hooks"), "pre_deploy")
            && c.hooks.build == Get(Inside(conf, "deploy_hooks"), "build")
            && c.hooks.postDeploy == Get(Inside(conf, "deploy_hooks"), "post_deploy")
            && RuntimeMeans(p, Inside(conf, "runtime"), c.runtime)
  {
    PlainIs(conf, "deploy_hooks", HOOK_KEYS);
    PlainIs(conf, "runtime", RUNTIME_KEYS);
    hide NormalizeRuntime, NormalizeService, NormalizeNginx, NormalizeDns, RuntimeMeans, Section, Inside, PlainSection;
    hide HOOK_KEYS, RUNTIME_KEYS;
    if NormalizeRuntime(p, Inside(conf, "runtime")).Ok? { RuntimeRead(p, Inside(conf, "runtime")); }
  }

  /** What an accepted file means, key by key. */
  lemma FileRead(p: Process, conf: Fields, source: string)
    requires Accepted(conf)
    ensures var r := Normalize(p, Obj(conf), source);
            && r.Ok?
            && r.value.name == Strip(conf["name"].s) && r.value.domain == Strip(conf["domain"].s)
            && r.value.buildOutput ==
                 (if SomeText(conf, "build_output") then Some(Strip(conf["build_output"].s)) else None)
            && r.value.webRoot == (if SomeText(conf, "web_root") then Some(Strip(conf["web_root"].s)) else None)
            && r.value.hooks.preDeploy == Get(Inside(conf, "deploy_hooks"), "pre_deploy")
            && r.value.hooks.build == Get(Inside(conf, "deploy_hooks"), "build")
            && r.value.hooks.postDeploy == Get(Inside(conf, "deploy_hooks"), "post_deploy")
            && RuntimeMeans(p, Inside(conf, "runtime"), r.value.runtime)
            && r.value.source == source
  {
    AcceptedExactly(p, conf, source);
    TextsExactly(conf);
    hide Blank, NormalizeSections, RuntimeMeans, SectionsAccepted, ROOT_KEYS, Inside, Strip;
    var name, domain := Strip(conf["name"].s), Strip(conf["domain"].s);
    var build, web := OptionalText(Get(conf, "build_output")), OptionalText(Get(conf, "web_root"));
    assert Normalize(p, Obj(conf), source) == NormalizeSections(p, conf, name, domain, build.value, web.value, source);
    SectionsMean(p, conf, name, domain, build.value, web.value, source);
  }

  lemma RuntimeLookups(r: Runtime)
    ensures var d := RuntimeDict(r);
            && Default(d, "mode", Str("static")) == Str(if r.service.Some? then "service" else "static")
            && Default(d, "working_dir", Str(".")) == Str(r.workingDir)
            && Get(d, "user") == Str(r.user) && Get(d, "health_endpoint") == Str(r.healthEndpoint)
            && Default(d, "health_retries", Int(20)) == r.healthRetries
            && Default(d, "health_interval_seconds", Int(2)) == r.healthInterval
            && Get(d, "env_file") == TextOrNull(r.envFile)
            && (r.service.Some? ==>
                  Get(d, "command") == Str(r.service.value.command) && Get(d, "port") == r.service.value.port)
  {
  }

  lemma RuntimeDictKept(r: Runtime)
    requires RuntimeShaped(r)
    ensures RuntimeDict(r).Keys <= RUNTIME_KEYS
    ensures forall key | key in RuntimeDict(r) :: Kept(RuntimeDict(r)[key])
  {
    hide Strip, Trimmed;
  }

  lemma KeptRuntime(m: Fields)
    requires m.Keys <= RUNTIME_KEYS && forall key | key in m :: Kept(m[key])
    ensures RenderRuntime(m) == m
  {
    hide RUNTIME_KEYS;
  }

  /** The rendered runtime section is the stored one, and reads back unless the working directory became absolute. */
  lemma RuntimeBack(p: Process, r: Runtime)
    requires RuntimeShaped(r)
    ensures RenderRuntime(RuntimeDict(r)) == RuntimeDict(r)
    ensures NormalizeRuntime(p, RuntimeDict(r)) == if Absolute(r.workingDir) then Raised(ValidationError) else Ok(r)
  {
    RuntimeDictKept(r);
    RuntimeLookups(r);
    KeptRuntime(RuntimeDict(r));
    TextIsFilled(r.workingDir);
    if r.envFile.Some? { TextIsFilled(r.envFile.value); }
    if r.service.Some? { TextIsFilled(r.service.value.command); }
    hide Strip, Trimmed, RuntimeDict, RenderRuntime, RUNTIME_KEYS, Default, Get;
  }

  /** A hook reads back as it was stored, except that a value that is false in Python reads back as null. */
  function HookBack(v: Value): Value {
    if v.Truthy() then v else Null
  }

  lemma HooksBack(h: Hooks)
    ensures NormalizeHooks(RenderHooks(HooksDict(h))) ==
              Ok(Hooks(HookBack(h.preDeploy), HookBack(h.build), HookBack(h.postDeploy)))
  {
  }

  lemma ServiceBack(name: string, site: string)
    requires Clean(name)
    ensures NormalizeService(RenderService(map["name" := Str(name)]), site) == Ok(name)
  {
    TextIsFilled(name);
    hide Strip, Trimmed;
  }

  lemma NginxBack(c: Conf)
    requires Clean(c.domain) && forall i | 0 <= i < |c.tlsHostnames| :: Clean(c.tlsHostnames[i])
    ensures NormalizeNginx(RenderNginx(NginxDict(c)), c.domain) ==
              Ok((c.wwwRedirect, if c.tlsHostnames == [] then [c.domain] else c.tlsHostnames))
  {
    hide Strip, Trimmed;
    TextIsFilled(c.domain);
    forall i | 0 <= i < |c.tlsHostnames|
      ensures Filled(Str(c.tlsHostnames[i])) && Strip(c.tlsHostnames[i]) == c.tlsHostnames[i]
    {
      TextIsFilled(c.tlsHostnames[i]);
    }
    var n := RenderNginx(NginxDict(c));
    assert Default(n, "www_redirect", Bool(false)) == Bool(c.wwwRedirect);
    if c.tlsHostnames != [] {
      assert Get(n, "tls_hostnames") == Arr(Texts(c.tlsHostnames));
      assert StripAll(Texts(c.tlsHostnames)) == c.tlsHostnames;
    } else {
      assert Get(n, "tls_hostnames") == Null;
      assert StripAll([Str(c.domain)]) == [c.domain];
    }
  }

  lemma DnsBack(d: Dns, domain: string)
    requires DnsShaped(d)
    ensures NormalizeDns(RenderDns(DnsDict(d)), domain) == Ok(Some(d))
    ensures RenderDns(DnsDict(d)) != map[]
  {
    TextIsFilled(d.zone);
    hide Strip, Trimmed;
    var r := RenderDns(DnsDict(d));
    assert Get(r, "provider") == Str(d.provider) && Default(r, "zone", Str(domain)) == Str(d.zone);
  }

  lemma SectionAdded(m: Fields, key: string, section: Fields)
    requires key !in m
    ensures Section(WithSection(m, key, section), key) == Ok(section)
    ensures WithSection(m, key, section).Keys <= m.Keys + {key}
  {
  }

  lemma SectionSurvives(m: Fields, key: string, section: Fields, other: string)
    requires other != key
    ensures Section(WithSection(m, key, section), other) == Section(m, other)
  {
  }

  lemma HeadsSurvive(m: Fields, key: string, section: Fields)
    requires key != "name" && key != "domain" && key != "build_output" && key != "web_root"
    ensures SameHeads(WithSection(m, key, section), m)
  {
  }

  lemma HeadsHold(dict: Fields)
    ensures var m := Heads(dict);
            && m.Keys <= {"name", "domain", "build_output", "web_root"}
            && Get(m, "name") == Get(dict, "name") && Get(m, "domain") == Get(dict, "domain")
            && Get(m, "build_output") ==
               (if Get(dict, "build_output").Truthy() then Get(dict, "build_output") else Null)
            && Get(m, "web_root") == (if Get(dict, "web_root").Truthy() then Get(dict, "web_root") else Null)
  {
  }

  predicate SameHeads(m: Fields, n: Fields) {
    && Get(m, "name") == Get(n, "name") && Get(m, "domain") == Get(n, "domain")
    && Get(m, "build_output") == Get(n, "build_output") && Get(m, "web_root") == Get(n, "web_root")
  }

  /** The sections of a rendered configuration are the sections it was rendered from. */
  lemma RenderedSections(dict: Fields, hooks: Fields, runtime: Fields, service: Fields, nginx: Fields, dns: Fields)
    ensures var r := Rendered(dict, hooks, runtime, service, nginx, dns);
            && r.Keys <= ROOT_KEYS
            && Section(r, "deploy_hooks") == Ok(hooks) && Section(r, "runtime") == Ok(runtime)
            && Section(r, "service") == Ok(service) && Section(r, "nginx") == Ok(nginx) && Section(r, "dns") == Ok(dns)
            && SameHeads(r, Heads(dict))
  {
    HeadsHold(dict);
    hide WithSection, Heads, ROOT_KEYS, Get, Section;
    var m0 := Heads(dict);
    var m1 := WithSection(m0, "deploy_hooks", hooks);
    var m2 := WithSection(m1, "runtime", runtime);
    var m3 := WithSection(m2, "service", service);
    var m4 := WithSection(m3, "nginx", nginx);
    SectionAdded(m0, "deploy_hooks", hooks);
    HeadsSurvive(m0, "deploy_hooks", hooks);
    SectionAdded(m1, "runtime", runtime);
    HeadsSurvive(m1, "runtime", runtime);
    SectionSurvives(m1, "runtime", runtime, "deploy_hooks");
    SectionAdded(m2, "service", service);
    HeadsSurvive(m2, "service", service);
    SectionSurvives(m2, "service", service, "deploy_hooks");
    SectionSurvives(m2, "service", service, "runtime");
    SectionAdded(m3, "nginx", nginx);
    HeadsSurvive(m3, "nginx", nginx);
    SectionSurvives(m3, "nginx", nginx, "deploy_hooks");
    SectionSurvives(m3, "nginx", nginx, "runtime");
    SectionSurvives(m3, "nginx", nginx, "service");
    SectionAdded(m4, "dns", dns);
    HeadsSurvive(m4, "dns", dns);
    SectionSurvives(m4, "dns", dns, "deploy_hooks");
    SectionSurvives(m4, "dns", dns, "runtime");
    SectionSurvives(m4, "dns", dns, "service");
    SectionSurvives(m4, "dns", dns, "nginx");
    AllKeys();
  }

  lemma AllKeys()
    ensures {"name", "domain", "build_output", "web_root"} <= ROOT_KEYS
    ensures {"deploy_hooks", "runtime", "service", "nginx", "dns"} <= ROOT_KEYS
  {
  }

  /** What the registry can give back: no lost hook, no lost host name list, no absolute working directory. */
  predicate Repairable(c: Conf) {
    && HookBack(c.hooks.preDeploy) == c.hooks.preDeploy
    && HookBack(c.hooks.build) == c.hooks.build
    && HookBack(c.hooks.postDeploy) == c.hooks.postDeploy
    && c.tlsHostnames != []
    && !Absolute(c.runtime.workingDir)
  }

  lemma DictSections(c: Conf)
    ensures SubDict(Dict(c), "runtime") == Ok(RuntimeDict(c.runtime))
    ensures SubDict(Dict(c), "deploy_hooks") == Ok(HooksDict(c.hooks))
    ensures SubDict(Dict(c), "service") == Ok(map["name" := Str(c.serviceName)])
    ensures SubDict(Dict(c), "nginx") == Ok(NginxDict(c))
    ensures SubDict(Dict(c), "dns") == Ok(if c.dns.Some? then DnsDict(c.dns.value) else map[])
  {
    hide RuntimeDict;
    assert "mode" in RuntimeDict(c.runtime) by { ModeStored(c.runtime); }
    assert "build" in HooksDict(c.hooks);
    assert "www_redirect" in NginxDict(c);
    if c.dns.Some? { assert "zone" in DnsDict(c.dns.value); }
  }

  lemma ModeStored(r: Runtime)
    ensures "mode" in RuntimeDict(r)
  {
  }

  lemma RenderFromDict(c: Conf)
    requires WellShaped(c)
    ensures ConfFromDict(Dict(c)) ==
              Ok(Rendered(Dict(c), RenderHooks(HooksDict(c.hooks)), RuntimeDict(c.runtime),
                          RenderService(map["name" := Str(c.serviceName)]), RenderNginx(NginxDict(c)),
                          if c.dns.Some? then RenderDns(DnsDict(c.dns.value)) else map[]))
  {
    hide RuntimeDict, HooksDict, NginxDict, DnsDict, RenderHooks, RenderRuntime, RenderNginx, Rendered, RenderService;
    hide Dict, Trimmed, SubDict, RuntimeShaped, DnsShaped, Get;
    DictSections(c);
    DictTexts(c);
    RuntimeBack(Process("", (v: Value) => ""), c.runtime);
    EmptyDns();
  }

  lemma EmptyDns()
    ensures RenderDns(map[]) == map[]
  {
  }

  lemma BackFromRendered(p: Process, c: Conf, r: Fields)
    requires WellShaped(c) && ConfFromDict(Dict(c)) == Ok(r)
    ensures Normalize(p, Obj(r), c.source) ==
              if Absolute(c.runtime.workingDir) then Raised(ValidationError)
              else Ok(c.(hooks := Hooks(
                           HookBack(c.hooks.preDeploy), HookBack(c.hooks.build), HookBack(c.hooks.postDeploy)),
                         tlsHostnames := if c.tlsHostnames == [] then [c.domain] else c.tlsHostnames))
  {
    hide Dict, Rendered, RenderHooks, RenderNginx, RenderService, RenderDns, HooksDict, RuntimeDict, NginxDict, DnsDict;
    hide Section, NormalizeHooks, NormalizeRuntime, NormalizeService, NormalizeNginx, NormalizeDns, ROOT_KEYS, Strip;
    hide Trimmed;
    hide ConfFromDict, RenderRuntime, Heads, Get, DnsShaped, RuntimeShaped, HookBack, Absolute;
    RenderFromDict(c);
    var dns := if c.dns.Some? then RenderDns(DnsDict(c.dns.value)) else map[];
    RenderedSections(Dict(c), RenderHooks(HooksDict(c.hooks)), RuntimeDict(c.runtime),
                     RenderService(map["name" := Str(c.serviceName)]), RenderNginx(NginxDict(c)), dns);
    RuntimeBack(p, c.runtime);
    HooksBack(c.hooks);
    ServiceBack(c.serviceName, c.name);
    NginxBack(c);
    if c.dns.Some? { DnsBack(c.dns.value, c.domain); } else { NoDns(c.domain); }
    TextIsFilled(c.name);
    TextIsFilled(c.domain);
    if c.buildOutput.Some? { TextIsFilled(c.buildOutput.value); }
    if c.webRoot.Some? { TextIsFilled(c.webRoot.value); }
    DictTexts(c);
    HeadsHold(Dict(c));
  }

  lemma NoDns(domain: string)
    ensures NormalizeDns(map[], domain) == Ok(None)
  {
  }

  lemma DictTexts(c: Conf)
    ensures Get(Dict(c), "name") == Str(c.name) && Get(Dict(c), "domain") == Str(c.domain)
    ensures Get(Dict(c), "build_output") == TextOrNull(c.buildOutput)
            && Get(Dict(c), "web_root") == TextOrNull(c.webRoot)
  {
    hide RuntimeDict, HooksDict, NginxDict, DnsDict;
  }

  /**
   Registry repair round trip: for every accepted server.conf, in both runtime modes and whatever USER is at either
   time, the configuration rebuilt from the registry normalizes to the stored normal form exactly when the stored
   form is repairable.
   */
  lemma RepairRoundTrip(p: Process, q: Process, document: Value, source: string)
    requires ValidProcess(p) && Normalize(p, document, source).Ok?
    ensures var c := Normalize(p, document, source).value;
            && ConfFromDict(Dict(c)).Ok?
            && (Normalize(q, Obj(ConfFromDict(Dict(c)).value), source) == Ok(c) <==> Repairable(c))
  {
    hide Normalize, Dict, ConfFromDict, WellShaped;
    var c := Normalize(p, document, source).value;
    NormalizedShape(p, document, source);
    RenderFromDict(c);
    BackFromRendered(q, c, ConfFromDict(Dict(c)).value);
  }

  /** Repairable or not, seen in the file itself before anything is stored. */
  lemma RepairableInFile(p: Process, document: Value, source: string)
    requires Normalize(p, document, source).Ok?
    ensures var conf := document.fields;
            var hooks, runtime := Section(conf, "deploy_hooks").value, Section(conf, "runtime").value;
            var nginx := Section(conf, "nginx").value;
            Repairable(Normalize(p, document, source).value) <==>
              && (forall k | k in HOOK_KEYS :: Get(hooks, k).Truthy() || Get(hooks, k).Null?)
              && Get(nginx, "tls_hostnames") != Arr([])
              && !Absolute(Strip(Default(runtime, "working_dir", Str(".")).s))
  {
    hide Strip, Trimmed, ROOT_KEYS, RUNTIME_KEYS, NormalizeService, NormalizeDns, NormalizeNginx, Absolute;
    var c := Normalize(p, document, source).value;
    NginxShape(Section(document.fields, "nginx").value, c.domain);
  }

  /** The smallest server.conf, with the given nginx section. */
  function Smallest(nginx: Fields): Fields {
    map["name" := Str("a"), "domain" := Str("b"), "web_root" := Str("c"), "nginx" := Obj(nginx)]
  }

  lemma StaticRuntime(p: Process)
    ensures NormalizeRuntime(p, map[]).Ok? && !Absolute(NormalizeRuntime(p, map[]).value.workingDir)
  {
    StripOfTrimmed(".");
    hide Strip;
  }

  lemma ServiceFromName(name: string)
    requires Clean(name)
    ensures NormalizeService(map[], name) == Ok(name + ".service")
  {
    StripOfTrimmed(name + ".service");
    hide Strip;
  }

  lemma SmallestSections(nginx: Fields)
    ensures var conf := Smallest(nginx);
            && conf.Keys <= ROOT_KEYS
            && Section(conf, "nginx") == Ok(nginx) && Section(conf, "runtime") == Ok(map[])
            && Section(conf, "deploy_hooks") == Ok(map[]) && Section(conf, "service") == Ok(map[])
            && Section(conf, "dns") == Ok(map[])
            && Get(conf, "name") == Str("a") && Get(conf, "domain") == Str("b")
            && Get(conf, "build_output") == Null && Get(conf, "web_root") == Str("c")
  {
  }

  lemma EmptyHooks()
    ensures NormalizeHooks(map[]) == Ok(Hooks(Null, Null, Null))
  {
  }

  lemma TextsRead(s: string)
    requires Clean(s)
    ensures RequiredText(Str(s)) == Ok(s) && OptionalText(Str(s)) == Ok(Some(s)) && OptionalText(Null) == Ok(None)
  {
    TextIsFilled(s);
  }

  /** What the other sections make of the smallest server.conf. */
  lemma SmallestRead(p: Process, source: string, nginx: Fields)
    requires NormalizeNginx(nginx, "b").Ok?
    ensures var r := NormalizeSections(p, Smallest(nginx), "a", "b", None, Some("c"), source);
            && r.Ok? && r.value.tlsHostnames == NormalizeNginx(nginx, "b").value.1
            && r.value.hooks == Hooks(Null, Null, Null) && !Absolute(r.value.runtime.workingDir)
  {
    hide Strip, NormalizeRuntime, NormalizeNginx, NormalizeService, NormalizeHooks, NormalizeDns, Absolute;
    hide ROOT_KEYS, Section, Smallest, Get;
    StaticRuntime(p);
    SmallestSections(nginx);
    ServiceFromName("a");
    EmptyHooks();
    NoDns("b");
  }

  lemma SmallestIsAccepted(p: Process, source: string, nginx: Fields)
    requires NormalizeNginx(nginx, "b").Ok?
    ensures var r := Normalize(p, Obj(Smallest(nginx)), source);
            && r.Ok? && r.value.tlsHostnames == NormalizeNginx(nginx, "b").value.1
            && r.value.hooks == Hooks(Null, Null, Null) && !Absolute(r.value.runtime.workingDir)
  {
    hide NormalizeSections, NormalizeNginx, Absolute, ROOT_KEYS, Section, Smallest, Get, RequiredText, OptionalText;
    SmallestSections(nginx);
    TextsRead("a");
    TextsRead("b");
    TextsRead("c");
    SmallestRead(p, source, nginx);
  }

  /** `tls_hostnames: []` is accepted and does not survive the repair; without it the same file does. */
  lemma EmptyHostNamesWitness(p: Process, source: string)
    ensures var lost := Normalize(p, Obj(Smallest(map["tls_hostnames" := Arr([])])), source);
            lost.Ok? && !Repairable(lost.value)
    ensures var kept := Normalize(p, Obj(Smallest(map[])), source);
            kept.Ok? && Repairable(kept.value)
  {
    hide Normalize, Smallest;
    SmallestIsAccepted(p, source, map["tls_hostnames" := Arr([])]) by { StripOfTrimmed("b"); }
    assert NormalizeNginx(map[], "b").Ok? && NormalizeNginx(map[], "b").value.1 != [] by { StripOfTrimmed("b"); }
    SmallestIsAccepted(p, source, map[]);
  }
}

/** Recreating a missing server.conf in a checkout (scripts/repair_site.py:121-135). */
module Repair {

  import opened Wrappers
  import opened Json
  import opened ServerConf

  class Checkout {
    const source: string
    var serverConf: Option<Value>

    constructor (source: string, serverConf: Option<Value>)
      ensures this.source == source && this.serverConf == serverConf
    {
      this.source := source;
      this.serverConf := serverConf;
    }

    /**
     `write_missing_server_conf_from_registry`: keeps an existing file, otherwise writes what the registry gives.
     For the stored form of an accepted configuration the call succeeds exactly when the working directory is still
     relative, and the new file normalizes to the stored form exactly when that is repairable.
     */
    method WriteMissing(p: Process, deployConfig: Option<Value>) returns (r: Result<bool>)
      modifies this`serverConf
      ensures old(serverConf).Some? ==>
                serverConf == old(serverConf) && (r == Ok(false) <==> Normalize(p, serverConf.value, source).Ok?)
      ensures old(serverConf).None? && (deployConfig.None? || !deployConfig.value.Obj?) ==>
                r.Raised? && serverConf == None
      ensures r == Ok(true) ==> old(serverConf).None? && serverConf.Some? && Normalize(p, serverConf.value, source).Ok?
      ensures forall c: Conf
                | old(serverConf).None? && deployConfig == Some(Obj(Dict(c))) && WellShaped(c) && c.source == source ::
                && serverConf.Some?
                && (r == Ok(true) <==> !Absolute(c.runtime.workingDir))
                && (Normalize(p, serverConf.value, source) == Ok(c) <==> Repairable(c))
    {
      hide Normalize, ConfFromDict, WellShaped;
      forall c: Conf | WellShaped(c) && ConfFromDict(Dict(c)).Ok?
        ensures Normalize(p, Obj(ConfFromDict(Dict(c)).value), c.source).Ok? <==> !Absolute(c.runtime.workingDir)
        ensures Normalize(p, Obj(ConfFromDict(Dict(c)).value), c.source) == Ok(c) <==> Repairable(c)
      {
        BackFromRendered(p, c, ConfFromDict(Dict(c)).value);
      }
      forall c: Conf | WellShaped(c) ensures ConfFromDict(Dict(c)).Ok? {
        RenderFromDict(c);
      }
      hide Dict;
      if serverConf.Some? {
        var checked := Normalize(p, serverConf.value, source);
        return if checked.Ok? then Ok(false) else Raised(checked.error);
      }
      if deployConfig.None? || !deployConfig.value.Obj? {
        return Raised(RepairError);
      }
      var rendered := ConfFromDict(deployConfig.value.fields);
      if rendered.Raised? {
        return Raised(rendered.error);
      }
      serverConf := Some(Obj(rendered.value));
      var checked := Normalize(p, serverConf.value, source);
      return if checked.Ok? then Ok(true) else Raised(checked.error);
    }
  }
}
