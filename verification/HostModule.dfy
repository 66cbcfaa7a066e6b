/** Base packages and time zone (server_setup/modules/host.py). */
module HostModule {

  import opened Text
  import opened Wrappers
  import opened Plans
  import opened Host
  import opened SecurityState
  import opened Progress

  const NAME := "host"

  const BASE_PACKAGES: seq<string> := ["ca-certificates", "curl", "git", "jq", "python3", "iproute2"]

  predicate SupportedRelease(id: string, version: string) {
    (id == "debian" && version == "12") || (id == "ubuntu" && version == "24.04")
  }

  datatype State = State(osId: string, versionId: string, installed: set<string>, timezone: string)

  datatype Desired = Desired(packages: seq<string>, timezone: string)

  predicate Supported(s: State) {
    SupportedRelease(s.osId, s.versionId)
  }

  function StripQuotes(s: string): string
    decreases |s|
  {
    if s != "" && s[0] == '"' then StripQuotes(s[1..])
    else if s != "" && s[|s| - 1] == '"' then StripQuotes(s[..|s| - 1])
    else s
  }

  /** Quotes go on both sides, however many, and nothing else does. */
  lemma {:induction false} QuotesGo(s: string)
    ensures StripQuotes("\"" + s) == StripQuotes(s) == StripQuotes(s + "\"")
    ensures s == "" || (s[0] != '"' && s[|s| - 1] != '"') <==> StripQuotes(s) == s
    decreases |s|
  {
    assert ("\"" + s)[1..] == s;
    if s != "" && s[0] == '"' {
      QuotesGo(s[1..]);
      assert (s + "\"")[1..] == s[1..] + "\"";
      StripQuotesSize(s[1..]);
    } else if s == "" {
      assert s + "\"" == "\"" + s;
    } else {
      assert (s + "\"")[..|s|] == s;
      StripQuotesSize(s[..|s| - 1]);
    }
  }

  lemma {:induction false} StripQuotesSize(s: string)
    ensures |StripQuotes(s)| <= |s|
    decreases |s|
  {
    if s != "" && s[0] == '"' {
      StripQuotesSize(s[1..]);
    } else if s != "" && s[|s| - 1] == '"' {
      StripQuotesSize(s[..|s| - 1]);
    }
  }

  function WithField(fields: map<string, string>, raw: string): map<string, string> {
    var line := Strip(raw);
    var i := IndexOf(line, '=');
    if line == "" || line[0] == '#' || i == |line| then fields
    else fields[line[..i] := StripQuotes(Strip(line[i + 1..]))]
  }

  /** A line `key=value` assigns the value without the quotes around it. */
  lemma AssignmentIsRead(fields: map<string, string>, k: string, v: string)
    requires k != "" && '=' !in k && k[0] != '#' && !IsSpace(k[0])
    requires v != "" && Trimmed(v)
    ensures WithField(fields, k + "=" + v) == fields[k := StripQuotes(v)]
  {
    hide Strip, IsSpace, StripQuotes;
    var line := k + "=" + v;
    assert line[|k|] == '=' && forall j | 0 <= j < |k| :: line[j] == k[j];
    assert IndexOf(line, '=') == |k|;
    assert line[..|k|] == k && line[|k| + 1..] == v;
    assert line[|line| - 1] == v[|v| - 1];
    StripOfTrimmed(line);
    StripOfTrimmed(v);
  }

  /** The assignments of an os-release file; the last one for a key wins. */
  function ReleaseFields(lines: seq<string>): map<string, string> {
    if lines == [] then map[]
    else WithField(ReleaseFields(lines[..|lines| - 1]), lines[|lines| - 1])
  }

  /** Whether a line of an os-release file assigns `key`. */
  predicate Assigns(raw: string, key: string) {
    var line := Strip(raw);
    var i := IndexOf(line, '=');
    i < |line| && line[0] != '#' && line[..i] == key
  }

  function Assigned(raw: string): string {
    var line := Strip(raw);
    StripQuotes(Strip(line[if IndexOf(line, '=') < |line| then IndexOf(line, '=') + 1 else |line|..]))
  }

  /** A key has a value exactly if some line assigns it, and the value is that of the last such line. */
  lemma {:induction false} LastAssignmentWins(lines: seq<string>, key: string)
    ensures key in ReleaseFields(lines) <==> exists n | 0 <= n < |lines| :: Assigns(lines[n], key)
    ensures forall n | && 0 <= n < |lines| && Assigns(lines[n], key)
                       && (forall k | n < k < |lines| :: !Assigns(lines[k], key)) ::
              ReleaseFields(lines)[key] == Assigned(lines[n])
  {
    hide WithField, Assigns, Assigned;
    if lines != [] {
      var init := lines[..|lines| - 1];
      LastAssignmentWins(init, key);
      WithFieldAt(ReleaseFields(init), lines[|lines| - 1], key);
      assert forall n | 0 <= n < |init| :: init[n] == lines[n];
    }
  }

  lemma WithFieldAt(fields: map<string, string>, raw: string, key: string)
    ensures key in WithField(fields, raw) <==> key in fields || Assigns(raw, key)
    ensures key in WithField(fields, raw) ==>
              WithField(fields, raw)[key] == if Assigns(raw, key) then Assigned(raw) else fields[key]
  {
    hide Strip, StripQuotes;
  }

  function Release(text: Option<string>): (string, string) {
    var fields := ReleaseFields(Lines(if text.Some? then text.value else ""));
    (Lower(if "ID" in fields then fields["ID"] else "unknown"),
     if "VERSION_ID" in fields then fields["VERSION_ID"] else "unknown")
  }

  /** `_parse_os_release`: fills the fields line by line. */
  method ParseOsRelease(text: Option<string>) returns (id: string, version: string)
    ensures (id, version) == Release(text)
  {
    var lines := Lines(if text.Some? then text.value else "");
    var fields: map<string, string> := map[];
    for n := 0 to |lines|
      invariant fields == ReleaseFields(lines[..n])
    {
      assert lines[..n + 1][..n] == lines[..n];
      fields := WithField(fields, lines[n]);
    }
    assert lines[..|lines|] == lines;
    id := Lower(if "ID" in fields then fields["ID"] else "unknown");
    version := if "VERSION_ID" in fields then fields["VERSION_ID"] else "unknown";
  }

  function Inspect(env: Environment, m: Machine): State {
    var (id, version) := Release(ReadText(m, OsRelease));
    State(id, version, (set p | p in BASE_PACKAGES && PackageInstalled(m, p)), CurrentTimezone(env, m))
  }

  function DesiredState(cfg: Config): Desired {
    Desired(BASE_PACKAGES, cfg.timezone)
  }

  /** The packages not installed, in order. */
  function Missing(packages: seq<string>, installed: set<string>): (r: seq<string>)
    ensures forall p | p in r :: p in packages && p !in installed
    ensures forall p | p in packages && p !in installed :: p in r
  {
    if packages == [] then []
    else (if packages[0] !in installed then [packages[0]] else []) + Missing(packages[1..], installed)
  }

  function Plan(current: State, desired: Desired): (plan: Plan)
    ensures forall c | c in plan :: c.owner == NAME && c.kind != Noop
  {
    if !Supported(current) then [Change(NAME, Dangerous, UnsupportedHost, "")]
    else
      var missing := Missing(desired.packages, current.installed);
      (if missing != [] then [Change(NAME, Create, InstallPackages, Join(missing, ","))] else [])
      + (if current.timezone != desired.timezone then [Change(NAME, Update, SetTimezone, desired.timezone)] else [])
  }

  function Validate(env: Environment, m: Machine, desired: Desired): (r: Report)
    ensures forall c | c in r :: c.owner == NAME
  {
    var current := Inspect(env, m);
    [Check(NAME, if Supported(current) then Pass else Fail),
     Check(NAME, if Missing(desired.packages, current.installed) == [] then Pass else Fail),
     Check(NAME, if current.timezone == desired.timezone then Pass else Fail)]
  }

  function NonEmpty(parts: seq<string>): (r: seq<string>)
    ensures forall p | p in r :: p in parts && p != ""
    ensures forall p | p in parts && p != "" :: p in r
  {
    if parts == [] then []
    else (if parts[0] != "" then [parts[0]] else []) + NonEmpty(parts[1..])
  }

  predicate Touches(m: Machine, n: Machine) {
    && n == m.(packages := n.packages, timezone := n.timezone, files := n.files)
    && n.files - {EtcTimezone} == m.files - {EtcTimezone}
  }

  lemma InstallProgresses(env: Environment, cfg: Config, names: set<string>, m: Machine, n: Machine)
    requires n == m.(packages := n.packages)
    requires OnlyNamed(names, m.packages, n.packages) && forall p | p in names :: PackageInstalled(n, p)
    ensures Evolves(env, cfg, m, n)
  {
    forall p | p in m.packages && m.packages[p].ok ensures PackageInstalled(n, p) {
      if p !in names { UnnamedUnchanged(names, m.packages, n.packages, p); }
    }
  }

  lemma TimezoneProgresses(env: Environment, cfg: Config, m: Machine, n: Machine)
    requires ValidConfig(cfg)
    requires n == m.(timezone := cfg.timezone, files := m.files[EtcTimezone := Raw(cfg.timezone + "\n")])
    ensures Evolves(env, cfg, m, n) && CurrentTimezone(env, n) == cfg.timezone
  {
    hide PortsUnder, Fail2banConfig, EffectiveUnder, RequiredRules, Strip, Trimmed;
    StripLine(cfg.timezone);
    assert Managed(n) == Managed(m) && Legacy(n) == Legacy(m);
  }

  lemma ZoneShown(env: Environment, n: Machine, zone: string)
    requires zone != "" && Trimmed(zone)
    requires n.timezone == zone && ReadText(n, EtcTimezone) == Some(zone + "\n")
    ensures CurrentTimezone(env, n) == zone
  {
    StripLine(zone);
    hide Strip;
  }

  /** Changing packages leaves the zone alone, and changing the zone leaves the packages alone. */
  lemma Separate(env: Environment, m: Machine, n: Machine)
    ensures n == m.(packages := n.packages) ==> CurrentTimezone(env, n) == CurrentTimezone(env, m)
    ensures n.packages == m.packages ==> PackagesKept(m, n)
  {
    hide Strip;
  }

  method Install(sys: System, change: Change, ghost cfg: Config) returns (r: Outcome)
    requires change.action.InstallPackages?
    modifies sys
    ensures old(sys.trace) <= sys.trace
    ensures Told(r, sys.trace, |old(sys.trace)|)
    ensures Quiet(old(sys.host).ufw, sys.trace, |old(sys.trace)|)
    ensures sys.host == old(sys.host).(packages := sys.host.packages)
    ensures r.Failed? ==> r.error == CommandError
    ensures r.Done? ==> Achieved(sys.env, change, sys.host) && PackagesKept(old(sys.host), sys.host)
    ensures r.Done? ==> Progressed(sys.env, cfg, [change], old(sys.host), sys.host)
    ensures var packages := NonEmpty(Split(change.target, ','));
            Issued(sys.trace, |old(sys.trace)|,
                   if packages == [] then [] else [AptUpdate, AptInstall(packages)], r.Done?)
  {
    hide Split;
    r := Done;
    var packages := NonEmpty(Split(change.target, ','));
    if packages == [] {
      EvolvesReflexive(sys.env, cfg, sys.host);
      return;
    }
    var ok := sys.Run(AptUpdate);
    if !ok { return Failed(CommandError); }
    ok := sys.Run(AptInstall(packages));
    if !ok { return Failed(CommandError); }
    InstallProgresses(sys.env, cfg, Names(packages), old(sys.host), sys.host);
  }

  method SetZone(sys: System, change: Change, ghost cfg: Config) returns (r: Outcome)
    requires change.action.SetTimezone?
    modifies sys
    ensures old(sys.trace) <= sys.trace
    ensures Told(r, sys.trace, |old(sys.trace)|)
    ensures Quiet(old(sys.host).ufw, sys.trace, |old(sys.trace)|)
    ensures Touches(old(sys.host), sys.host)
    ensures sys.host.packages == old(sys.host).packages
    ensures r.Failed? && r.error != CommandError ==> change.target == ""
    ensures r.Done? && Trimmed(change.target) ==> Achieved(sys.env, change, sys.host)
    ensures r.Done? ==> Progressed(sys.env, cfg, [change], old(sys.host), sys.host)
    ensures change.target == "" ==> r == Failed(ModuleApplyError) && sys.trace == old(sys.trace)
    ensures change.target != "" ==> Issued(sys.trace, |old(sys.trace)|, [TimedatectlSet(change.target)], true)
  {
    if change.target == "" {
      return Failed(ModuleApplyError);
    }
    var ok := sys.Run(TimedatectlSet(change.target));
    if !ok { return Failed(CommandError); }
    hide PortsUnder, Fail2banConfig, EffectiveUnder, RequiredRules, Strip, Trimmed;
    if Trimmed(change.target) { ZoneShown(sys.env, sys.host, change.target); }
    if ValidConfig(cfg) && Conforms(cfg, change) {
      TimezoneProgresses(sys.env, cfg, old(sys.host), sys.host);
    }
    return Done;
  }

  /** A change that this module refuses to carry out. */
  predicate Unappliable(c: Change) {
    !c.action.InstallPackages? && (!c.action.SetTimezone? || c.target == "")
  }

  /** Whatever the batch holds: every change that no later one opposes has been achieved. */
  ghost predicate Settled(env: Environment, changes: Plan, m: Machine) {
    forall i | 0 <= i < |changes| && Lasts(changes, i) ::
      (changes[i].action.SetTimezone? ==> Trimmed(changes[i].target)) ==> Achieved(env, changes[i], m)
  }

  lemma NothingSettled(env: Environment, m: Machine)
    ensures Settled(env, [], m)
  {
  }

  lemma SettledStep(env: Environment, done: Plan, c: Change, m: Machine, n: Machine)
    requires Settled(env, done, m) && PackagesKept(m, n)
    requires forall d | d in done + [c] :: d.action.InstallPackages? || d.action.SetTimezone?
    requires c.action.InstallPackages? ==> Achieved(env, c, n) && CurrentTimezone(env, n) == CurrentTimezone(env, m)
    requires c.action.SetTimezone? && Trimmed(c.target) ==> Achieved(env, c, n)
    ensures Settled(env, done + [c], n)
  {
    hide CurrentTimezone, Split, Trimmed;
    var all := done + [c];
    forall i | 0 <= i < |all| && Lasts(all, i) && (all[i].action.SetTimezone? ==> Trimmed(all[i].target))
      ensures Achieved(env, all[i], n)
    {
      if i < |done| {
        assert all[i] == done[i] && !Opposes(all[i], all[|done|]);
        assert Lasts(done, i) by {
          assert forall j | i < j < |done| :: !Opposes(all[i], all[j]) && all[j] == done[j];
        }
        assert Achieved(env, done[i], m);
        assert done[i] in all;
      }
    }
  }

  method Apply(sys: System, changes: Plan, ghost cfg: Config) returns (r: Outcome)
    modifies sys
    ensures old(sys.trace) <= sys.trace
    ensures Told(r, sys.trace, |old(sys.trace)|)
    ensures Quiet(old(sys.host).ufw, sys.trace, |old(sys.trace)|)
    ensures Touches(old(sys.host), sys.host)
    ensures r.Failed? && r.error != CommandError ==> exists c | c in changes :: Unappliable(c)
    ensures changes != [] && changes[0].action.UnsupportedHost? ==>
              r == Failed(ModuleApplyError) && sys.host == old(sys.host) && sys.trace == old(sys.trace)
    ensures r.Done? ==> Settled(sys.env, changes, sys.host)
    ensures r.Done? ==> Progressed(sys.env, cfg, changes, old(sys.host), sys.host)
  {
    hide Progressed, Quiet, Told, Settled, PackagesKept, Achieved, CurrentTimezone, Trimmed;
    ghost var start, n := sys.host, |sys.trace|;
    r := Done;
    NothingProgressed(sys.env, cfg, start);
    QuietStart(sys.host.ufw, sys.trace);
    ToldNothing(Done, sys.trace);
    NothingSettled(sys.env, start);
    for i := 0 to |changes|
      invariant r.Done? && old(sys.trace) <= sys.trace
      invariant i > 0 ==> !changes[0].action.UnsupportedHost?
      invariant i == 0 ==> sys.host == start && sys.trace == old(sys.trace)
      invariant Touches(start, sys.host)
      invariant Quiet(start.ufw, sys.trace, n)
      invariant Told(Done, sys.trace, n)
      invariant Settled(sys.env, changes[..i], sys.host)
      invariant forall d | d in changes[..i] :: d.action.InstallPackages? || d.action.SetTimezone?
      invariant Progressed(sys.env, cfg, changes[..i], start, sys.host)
    {
      var change := changes[i];
      ghost var before, steps := sys.host, sys.trace;
      assert change in changes;
      ToldNothing(Failed(ModuleApplyError), sys.trace);
      ToldJoin(Failed(ModuleApplyError), steps, sys.trace, n);
      if change.action.UnsupportedHost? {
        return Failed(ModuleApplyError);
      } else if change.action.InstallPackages? {
        r := Install(sys, change, cfg);
      } else if change.action.SetTimezone? {
        r := SetZone(sys, change, cfg);
      } else {
        return Failed(ModuleApplyError);
      }
      QuietJoin(start.ufw, steps, sys.trace, n);
      ToldJoin(r, steps, sys.trace, n);
      if r.Failed? { return; }
      Separate(sys.env, before, sys.host);
      SettledStep(sys.env, changes[..i], change, before, sys.host);
      ProgressAdds(sys.env, cfg, changes[..i], [change], start, before, sys.host);
      assert changes[..i + 1] == changes[..i] + [change];
    }
    assert changes[..|changes|] == changes;
  }
}
