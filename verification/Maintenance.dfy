/** Snapshots, upgrade and rollback of the managed packages (server_setup/maintenance.py). */
module Maintenance {

  import opened Text
  import opened Wrappers
  import opened Plans
  import opened Host
  import opened SecurityState
  import opened Sorting
  import Json
  import HostModule

  const MANAGED_PACKAGES: seq<string> :=
    HostModule.BASE_PACKAGES + [UNATTENDED_UPGRADES, APT_LISTCHANGES, FAIL2BAN, "ufw"]

  function ManagedFor(cfg: Config): (r: seq<string>)
    ensures forall p | p in r :: p in MANAGED_PACKAGES
  {
    HostModule.BASE_PACKAGES
    + (if cfg.unattendedUpgrades then [UNATTENDED_UPGRADES, APT_LISTCHANGES] else [])
    + (if cfg.fail2ban then [FAIL2BAN] else [])
    + (if cfg.firewall then ["ufw"] else [])
  }

  predicate BasePackage(p: string) {
    p == "ca-certificates" || p == "curl" || p == "git" || p == "jq" || p == "python3" || p == "iproute2"
  }

  /** The packages a configuration manages, and those that any configuration may manage. */
  lemma ManagedExactly(cfg: Config, p: string)
    ensures p in ManagedFor(cfg) <==>
              || BasePackage(p)
              || (cfg.unattendedUpgrades && (p == "unattended-upgrades" || p == "apt-listchanges"))
              || (cfg.fail2ban && p == "fail2ban")
              || (cfg.firewall && p == "ufw")
    ensures p in MANAGED_PACKAGES <==>
              || BasePackage(p) || p == "unattended-upgrades" || p == "apt-listchanges" || p == "fail2ban" || p == "ufw"
  {
  }

  datatype Snapshot = Snapshot(
    configText: string,
    packageVersions: seq<(string, string)>,
    dokployVersion: Option<string>)

  /** `package_version`: an empty version counts as none. */
  function PackageVersion(m: Machine, p: string): Option<string> {
    if p in m.packages && m.packages[p].version != "" then Some(m.packages[p].version) else None
  }

  function VersionsOf(m: Machine, packages: seq<string>): map<string, string> {
    map p | p in packages && PackageVersion(m, p).Some? :: PackageVersion(m, p).value
  }

  /** `current_package_versions`: refuses packages that are not managed at all. */
  method CurrentVersions(m: Machine, packages: seq<string>) returns (r: Result<map<string, string>>)
    ensures r == if forall p | p in packages :: p in MANAGED_PACKAGES then Ok(VersionsOf(m, packages))
                 else Raised(SnapshotError)
  {
    hide MANAGED_PACKAGES;
    var versions: map<string, string> := map[];
    for i := 0 to |packages|
      invariant versions == VersionsOf(m, packages[..i])
      invariant forall p | p in packages[..i] :: p in MANAGED_PACKAGES
    {
      var package := packages[i];
      if package !in MANAGED_PACKAGES {
        return Raised(SnapshotError);
      }
      var version := PackageVersion(m, package);
      assert packages[..i + 1] == packages[..i] + [package];
      if version.Some? {
        versions := versions[package := version.value];
      }
    }
    assert packages[..|packages|] == packages;
    return Ok(versions);
  }

  /** `capture_snapshot`. */
  function Capture(env: Environment, m: Machine, configText: string): Result<Snapshot> {
    match env.parseConfig(configText)
    case None => Raised(ConfigError)
    case Some(cfg) =>
      Ok(Snapshot(configText, SortedItems(VersionsOf(m, ManagedFor(cfg))), DokployVersion(m.docker)))
  }

  method CaptureSnapshot(env: Environment, m: Machine, configText: string) returns (r: Result<Snapshot>)
    ensures r == Capture(env, m, configText)
  {
    hide MANAGED_PACKAGES, ManagedFor, SortedItems;
    var config := env.parseConfig(configText);
    if config.None? {
      return Raised(ConfigError);
    }
    var versions := CurrentVersions(m, ManagedFor(config.value));
    return Ok(Snapshot(configText, SortedItems(versions.value), DokployVersion(m.docker)));
  }

  function Strings(m: map<string, string>): map<string, Json.Value> {
    map k | k in m :: Json.Str(m[k])
  }

  /** `render_snapshot`, as the object it dumps. */
  function Render(s: Snapshot): Json.Value {
    Json.Obj(map[
      "config" := Json.Str(s.configText),
      "dokploy_version" := if s.dokployVersion.Some? then Json.Str(s.dokployVersion.value) else Json.Null,
      "packages" := Json.Obj(Strings(ToMap(s.packageVersions))),
      "schema" := Json.Int(1)])
  }

  predicate VersionChar(c: char) {
    || '0' <= c <= '9' || 'A' <= c <= 'Z' || 'a' <= c <= 'z'
    || c == '.' || c == '+' || c == ':' || c == '~' || c == '_' || c == '-'
  }

  predicate DebianVersion(v: string) {
    v != "" && forall i | 0 <= i < |v| :: VersionChar(v[i])
  }

  /** A package entry of a snapshot that `parse_snapshot` accepts under the packages it allows. */
  predicate GoodEntry(allowed: seq<string>, package: string, version: Json.Value) {
    package in allowed && version.Str? && DebianVersion(version.s)
  }

  predicate IsOne(v: Json.Value) {
    v == Json.Int(1) || v == Json.Bool(true) || v == Json.Float(1.0)
  }

  predicate SnapshotKey(k: string) {
    k == "schema" || k == "config" || k == "packages" || k == "dokploy_version"
  }

  /** `parse_snapshot`; `None` stands for text that is not JSON. */
  function Parse(env: Environment, document: Option<Json.Value>): Result<Snapshot> {
    if document.None? || !document.value.Obj? then Raised(SnapshotError)
    else
      var raw := document.value.fields;
      if exists k | k in raw :: !SnapshotKey(k) then Raised(SnapshotError)
      else if !IsOne(Json.Get(raw, "schema")) then Raised(SnapshotError)
      else
        var config := Json.Get(raw, "config");
        if !config.Str? || Strip(config.s) == "" then Raised(SnapshotError)
        else match env.parseConfig(config.s)
          case None => Raised(ConfigError)
          case Some(cfg) =>
            ParseContents(config.s, ManagedFor(cfg), Json.Get(raw, "packages"), Json.Get(raw, "dokploy_version"))
  }

  function ParseContents(configText: string, allowed: seq<string>, packages: Json.Value,
                         dokploy: Json.Value): Result<Snapshot> {
    if !packages.Obj? then Raised(SnapshotError)
    else if exists p | p in packages.fields :: !GoodEntry(allowed, p, packages.fields[p]) then Raised(SnapshotError)
    else if !dokploy.Null? && (!dokploy.Str? || Strip(dokploy.s) == "") then Raised(SnapshotError)
    else
      var versions := map p | p in packages.fields && packages.fields[p].Str? :: packages.fields[p].s;
      Ok(Snapshot(configText, SortedItems(versions), if dokploy.Str? then Some(dokploy.s) else None))
  }

  /** A version is made of ASCII letters, digits and six other characters. */
  lemma VersionCharExactly(c: char)
    ensures VersionChar(c) <==>
              || 65 <= c as int <= 90 || 97 <= c as int <= 122 || 48 <= c as int <= 57 || c in ".+:~_-"
  {
  }

  /** Which documents parse as a snapshot, key by key. */
  ghost predicate SnapshotAccepted(env: Environment, raw: map<string, Json.Value>) {
    && (forall k | k in raw :: k == "schema" || k == "config" || k == "packages" || k == "dokploy_version")
    && "schema" in raw
    && (raw["schema"] == Json.Int(1) || raw["schema"] == Json.Bool(true) || raw["schema"] == Json.Float(1.0))
    && "config" in raw && raw["config"].Str? && !Blank(raw["config"].s) && env.parseConfig(raw["config"].s).Some?
    && "packages" in raw && raw["packages"].Obj?
    && (forall p | p in raw["packages"].fields ::
          && p in ManagedFor(env.parseConfig(raw["config"].s).value)
          && raw["packages"].fields[p].Str?
          && raw["packages"].fields[p].s != ""
          && forall c | c in raw["packages"].fields[p].s :: VersionChar(c))
    && ("dokploy_version" in raw && raw["dokploy_version"] != Json.Null ==>
          raw["dokploy_version"].Str? && !Blank(raw["dokploy_version"].s))
  }

  /** Exactly the accepted documents parse, and what they say is what the snapshot holds. */
  lemma ParsesExactly(env: Environment, raw: map<string, Json.Value>)
    ensures Parse(env, Some(Json.Obj(raw))).Ok? <==> SnapshotAccepted(env, raw)
    ensures Parse(env, Some(Json.Obj(raw))).Ok? ==>
              var s := Parse(env, Some(Json.Obj(raw))).value;
              && s.configText == raw["config"].s
              && s.dokployVersion == (if "dokploy_version" in raw && raw["dokploy_version"].Str?
                                      then Some(raw["dokploy_version"].s) else None)
              && s.packageVersions == SortedItems(map p | p in raw["packages"].fields
                                                             && raw["packages"].fields[p].Str? ::
                                                    raw["packages"].fields[p].s)
  {
    hide VersionChar, SortedItems, ManagedFor, MANAGED_PACKAGES, Strip, Blank;
    TextsBlank(raw);
    if "packages" in raw && raw["packages"].Obj? {
      forall p | p in raw["packages"].fields && raw["packages"].fields[p].Str?
        ensures DebianVersion(raw["packages"].fields[p].s) <==>
                  raw["packages"].fields[p].s != "" && forall c | c in raw["packages"].fields[p].s :: VersionChar(c)
      {
      }
    }
  }

  lemma TextsBlank(raw: map<string, Json.Value>)
    ensures forall k | k in raw && raw[k].Str? :: Strip(raw[k].s) == "" <==> Blank(raw[k].s)
  {
    forall k | k in raw && raw[k].Str? ensures Strip(raw[k].s) == "" <==> Blank(raw[k].s) {
      StripBlank(raw[k].s);
    }
  }

  /** The recorded versions all look like Debian versions. */
  predicate VersionsPrintable(s: Snapshot) {
    forall i | 0 <= i < |s.packageVersions| :: DebianVersion(s.packageVersions[i].1)
  }

  lemma VersionStartsWithV(image: string)
    ensures ImageVersion(image).Some? ==> Strip(ImageVersion(image).value) != ""
  {
    if ImageVersion(image).Some? {
      var v := ImageVersion(image).value;
      assert !IsSpace(v[0]);
      StripBlank(v);
    }
  }

  lemma CaptureShape(env: Environment, m: Machine, configText: string)
    requires Capture(env, m, configText).Ok?
    ensures var s := Capture(env, m, configText).value;
            && s.configText == configText
            && s.dokployVersion == DokployVersion(m.docker)
            && (s.dokployVersion.Some? ==> Strip(s.dokployVersion.value) != "")
            && StrictlySorted(s.packageVersions)
            && ToMap(s.packageVersions) == VersionsOf(m, ManagedFor(env.parseConfig(configText).value))
            && (forall i | 0 <= i < |s.packageVersions| ::
                  && s.packageVersions[i].0 in ManagedFor(env.parseConfig(configText).value)
                  && PackageVersion(m, s.packageVersions[i].0) == Some(s.packageVersions[i].1))
  {
    hide MANAGED_PACKAGES, ManagedFor, ImageVersion, SortedItems, Strip;
    var cfg := env.parseConfig(configText).value;
    var versions := VersionsOf(m, ManagedFor(cfg));
    SortedItemsOf(versions);
    SortedItemsBack(versions);
    if m.docker.service.Some? { VersionStartsWithV(m.docker.service.value); }
  }

  /**
   Snapshot round trip: a captured snapshot survives rendering and parsing exactly when its configuration is not blank
   and every recorded version looks like a Debian version; otherwise parsing refuses it.
   */
  lemma SnapshotRoundTrip(env: Environment, m: Machine, configText: string)
    requires Capture(env, m, configText).Ok?
    ensures var s := Capture(env, m, configText).value;
            Parse(env, Some(Render(s))) ==
              if Strip(configText) != "" && VersionsPrintable(s) then Ok(s) else Raised(SnapshotError)
  {
    CaptureShape(env, m, configText);
    hide Capture, MANAGED_PACKAGES, ManagedFor, Strip, ParseContents;
    var s := Capture(env, m, configText).value;
    var raw := Render(s).fields;
    var allowed := ManagedFor(env.parseConfig(configText).value);
    assert forall k | k in raw :: SnapshotKey(k);
    assert Parse(env, Some(Render(s))) ==
             if Strip(configText) == "" then Raised(SnapshotError)
             else ParseContents(configText, allowed, raw["packages"], raw["dokploy_version"]);
    ContentsRoundTrip(s, allowed, raw["dokploy_version"]);
  }

  lemma ContentsRoundTrip(s: Snapshot, allowed: seq<string>, dokploy: Json.Value)
    requires StrictlySorted(s.packageVersions)
    requires forall i | 0 <= i < |s.packageVersions| :: s.packageVersions[i].0 in allowed
    requires s.dokployVersion.Some? ==> Strip(s.dokployVersion.value) != ""
    requires dokploy == if s.dokployVersion.Some? then Json.Str(s.dokployVersion.value) else Json.Null
    ensures ParseContents(s.configText, allowed, Json.Obj(Strings(ToMap(s.packageVersions))), dokploy)
              == if VersionsPrintable(s) then Ok(s) else Raised(SnapshotError)
  {
    hide Le, DebianVersion, SortedItems, Strip;
    var pairs, versions := s.packageVersions, ToMap(s.packageVersions);
    var fields := Strings(versions);
    ToMapItems(pairs);
    SortedItemsUnique(pairs, versions);
    StringsBack(versions);
    GoodEntries(pairs, versions, allowed);
  }

  lemma StringsBack(m: map<string, string>)
    ensures (map p | p in Strings(m) && Strings(m)[p].Str? :: Strings(m)[p].s) == m
  {
  }

  lemma GoodEntries(pairs: seq<(string, string)>, versions: map<string, string>, allowed: seq<string>)
    requires forall i | 0 <= i < |pairs| ::
               pairs[i].0 in allowed && pairs[i].0 in versions && versions[pairs[i].0] == pairs[i].1
    requires forall p | p in versions :: exists i | 0 <= i < |pairs| :: pairs[i].0 == p
    ensures (exists p | p in Strings(versions) :: !GoodEntry(allowed, p, Strings(versions)[p])) <==>
              !(forall i | 0 <= i < |pairs| :: DebianVersion(pairs[i].1))
  {
    hide DebianVersion;
    var fields := Strings(versions);
    if i :| 0 <= i < |pairs| && !DebianVersion(pairs[i].1) {
      assert fields[pairs[i].0] == Json.Str(pairs[i].1);
      assert !GoodEntry(allowed, pairs[i].0, fields[pairs[i].0]);
    } else {
      forall p | p in fields ensures GoodEntry(allowed, p, fields[p]) {
        var i :| 0 <= i < |pairs| && pairs[i].0 == p;
        assert fields[p] == Json.Str(pairs[i].1);
      }
    }
  }

  /** A snapshot that parses names only packages managed by the configuration it embeds. */
  lemma ParsedNamesManaged(env: Environment, document: Option<Json.Value>)
    requires Parse(env, document).Ok?
    ensures var s := Parse(env, document).value;
            && env.parseConfig(s.configText).Some?
            && StrictlySorted(s.packageVersions) && VersionsPrintable(s)
            && forall i | 0 <= i < |s.packageVersions| ::
                 s.packageVersions[i].0 in ManagedFor(env.parseConfig(s.configText).value)
  {
    hide MANAGED_PACKAGES, ManagedFor, SortedItems, Strip, Le;
    var fields := Json.Get(document.value.fields, "packages").fields;
    var versions := map p | p in fields && fields[p].Str? :: fields[p].s;
    SortedItemsOf(versions);
  }

  /** `dict.fromkeys(packages)`: the first occurrence of each name. */
  function Dedupe(packages: seq<string>): (r: seq<string>)
    ensures forall p :: p in r <==> p in packages
  {
    if packages == [] then []
    else
      var init, last := Dedupe(packages[..|packages| - 1]), packages[|packages| - 1];
      assert packages == packages[..|packages| - 1] + [last];
      if last in init then init else init + [last]
  }

  function Present(packages: seq<string>, versions: map<string, string>): (r: seq<string>)
    ensures forall p :: p in r <==> p in packages && p in versions
  {
    if packages == [] then []
    else (if packages[0] in versions then [packages[0]] else []) + Present(packages[1..], versions)
  }

  predicate AptCommand(c: Command) {
    c.AptUpdate? || c.AptInstall? || c.AptOnlyUpgrade? || c.AptPin?
  }

  /** `upgrade_managed_packages`: whatever apt does, only the given packages can differ afterwards. */
  method UpgradePackages(sys: System, packages: seq<string>) returns (r: Result<seq<string>>)
    requires forall p | p in packages :: p in MANAGED_PACKAGES
    modifies sys
    ensures old(sys.trace) <= sys.trace
    ensures sys.host == old(sys.host).(packages := sys.host.packages)
    ensures OnlyNamed(Names(packages), old(sys.host).packages, sys.host.packages)
    ensures forall i | |old(sys.trace)| <= i < |sys.trace| :: sys.trace[i].after.files == old(sys.host).files
    ensures forall i | |old(sys.trace)| <= i < |sys.trace| ::
              OnlyNamed(Names(packages), old(sys.host).packages, sys.trace[i].after.packages)
    ensures r.Raised? <==> SomeFailed(sys.trace, |old(sys.trace)|)
    ensures r.Ok? ==> forall p :: p in r.value <==> p in packages && PackageVersion(old(sys.host), p).Some?
    ensures r.Ok? && r.value == [] ==> sys.trace == old(sys.trace)
    ensures r.Ok? && r.value != [] ==> Issued(sys.trace, |old(sys.trace)|, [AptUpdate, AptOnlyUpgrade(r.value)], true)
  {
    hide MANAGED_PACKAGES;
    var selected := Dedupe(packages);
    var versions := CurrentVersions(sys.host, selected);
    var installed := Present(selected, versions.value);
    if installed == [] {
      assert forall p :: p !in installed;
      return Ok([]);
    }
    var ok := sys.Run(AptUpdate);
    if !ok { return Raised(CommandError); }
    ghost var before := sys.host.packages;
    ok := sys.Run(AptOnlyUpgrade(installed));
    WidenNames(Names(installed), Names(packages), before, sys.host.packages);
    if !ok { return Raised(CommandError); }
    return Ok(installed);
  }

  lemma WidenNames(few: set<string>, many: set<string>, before: map<string, Package>, after: map<string, Package>)
    requires few <= many && OnlyNamed(few, before, after)
    ensures OnlyNamed(many, before, after)
  {
    forall p | p !in many
      ensures p in before <==> p in after
      ensures p in before ==> before[p] == after[p]
    {
      UnnamedUnchanged(few, before, after, p);
    }
    assert before - many == after - many;
  }

  function SnapshotNames(s: Snapshot): set<string> {
    Pinned(s.packageVersions)
  }

  /** The recorded versions that the host does not have, in order. */
  function Targets(m: Machine, pairs: seq<(string, string)>): (r: seq<(string, string)>)
    ensures forall t :: t in r <==> t in pairs && PackageVersion(m, t.0) != Some(t.1)
  {
    if pairs == [] then []
    else (if PackageVersion(m, pairs[0].0) != Some(pairs[0].1) then [pairs[0]] else []) + Targets(m, pairs[1..])
  }

  /** The snapshot's versions are the versions on the host. */
  predicate AtSnapshot(m: Machine, s: Snapshot) {
    forall i | 0 <= i < |s.packageVersions| :: PackageVersion(m, s.packageVersions[i].0) == Some(s.packageVersions[i].1)
  }

  /** `package_version_drift`: the recorded packages whose version differs, with both versions. */
  function VersionDrift(m: Machine, s: Snapshot): map<string, (Option<string>, string)> {
    var expected := ToMap(s.packageVersions);
    map p | p in expected && PackageVersion(m, p) != Some(expected[p]) :: (PackageVersion(m, p), expected[p])
  }

  lemma NoDriftIsAtSnapshot(m: Machine, s: Snapshot)
    requires StrictlySorted(s.packageVersions)
    ensures VersionDrift(m, s) == map[] <==> AtSnapshot(m, s)
  {
    hide Le, PackageVersion;
    var pairs, drift := s.packageVersions, VersionDrift(m, s);
    ToMapItems(pairs);
    if drift == map[] {
      forall i | 0 <= i < |pairs| ensures PackageVersion(m, pairs[i].0) == Some(pairs[i].1) {
        assert pairs[i].0 !in drift;
      }
    }
  }

  /** `rollback_package_versions`: a successful call leaves every recorded package at its recorded version. */
  method RollbackPackages(sys: System, s: Snapshot) returns (r: Result<seq<string>>)
    requires StrictlySorted(s.packageVersions) && VersionsPrintable(s)
    requires forall i | 0 <= i < |s.packageVersions| :: s.packageVersions[i].0 in MANAGED_PACKAGES
    modifies sys
    ensures old(sys.trace) <= sys.trace
    ensures sys.host == old(sys.host).(packages := sys.host.packages)
    ensures OnlyNamed(SnapshotNames(s), old(sys.host).packages, sys.host.packages)
    ensures forall i | |old(sys.trace)| <= i < |sys.trace| ::
              OnlyNamed(SnapshotNames(s), old(sys.host).packages, sys.trace[i].after.packages)
    ensures r.Raised? <==> SomeFailed(sys.trace, |old(sys.trace)|)
    ensures r.Ok? ==> AtSnapshot(sys.host, s)
    ensures r.Ok? ==> forall p :: p in r.value <==>
              exists t :: t in s.packageVersions && t.0 == p && PackageVersion(old(sys.host), p) != Some(t.1)
    ensures r.Ok? && r.value == [] ==> sys.trace == old(sys.trace)
    ensures r.Ok? && r.value != [] ==>
              Issued(sys.trace, |old(sys.trace)|, [AptUpdate, AptPin(Targets(old(sys.host), s.packageVersions))], true)
  {
    hide MANAGED_PACKAGES, Le;
    var pairs := s.packageVersions;
    var targets := Targets(sys.host, pairs);
    if targets == [] {
      assert forall t :: t !in targets;
      return Ok([]);
    }
    var ok := sys.Run(AptUpdate);
    if !ok { return Raised(CommandError); }
    ghost var before := sys.host.packages;
    ok := sys.Run(AptPin(targets));
    WidenNames(Pinned(targets), SnapshotNames(s), before, sys.host.packages);
    if !ok { return Raised(CommandError); }
    forall i | 0 <= i < |pairs| ensures PackageVersion(sys.host, pairs[i].0) == Some(pairs[i].1) {
      PinnedOrKept(old(sys.host), sys.host, pairs, targets, i);
    }
    r := Ok(seq(|targets|, i requires 0 <= i < |targets| => targets[i].0));
    forall t | t in targets ensures t.0 in r.value {
      var i :| 0 <= i < |targets| && targets[i] == t;
      assert r.value[i] == t.0;
    }
  }

  lemma PinnedOrKept(m: Machine, n: Machine, pairs: seq<(string, string)>, targets: seq<(string, string)>, i: nat)
    requires i < |pairs| && StrictlySorted(pairs) && DebianVersion(pairs[i].1)
    requires targets == Targets(m, pairs)
    requires OnlyNamed(Pinned(targets), m.packages, n.packages)
    requires forall t | t in targets :: PackageInstalled(n, t.0) && n.packages[t.0].version == t.1
    ensures PackageVersion(n, pairs[i].0) == Some(pairs[i].1)
  {
    hide Le, Targets, VersionChar;
    if pairs[i] in targets {
      assert PackageInstalled(n, pairs[i].0);
    } else {
      forall t | t in targets ensures t.0 != pairs[i].0 {
        var j :| 0 <= j < |pairs| && pairs[j] == t;
      }
      UnnamedUnchanged(Pinned(targets), m.packages, n.packages, pairs[i].0);
    }
  }
}
