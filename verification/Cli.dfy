/** The commands that change the host (server_setup/cli.py). */
module Cli {

  import opened Wrappers
  import opened Plans
  import opened Host
  import opened SecurityState
  import opened Progress
  import opened Modules
  import opened Dispatch
  import opened Core
  import opened Convergence
  import opened PlanLaws
  import opened Sorting
  import opened Maintenance
  import Json
  import HostModule
  import SecurityModule

  /** The flags of a call, whether a terminal is attached, and what the operator answers to the one prompt. */
  datatype Consent = Consent(yes: bool, allowDangerous: bool, terminal: bool, answer: bool)

  /** `_confirm_apply`. */
  function ConfirmApply(p: Plan, c: Consent): Outcome {
    if HasDangerousChanges(p) && !c.allowDangerous then
      if c.terminal && !c.yes && c.answer then Done else Failed(ModuleApplyError)
    else if c.yes || !HasChanges(p) then Done
    else if c.terminal && c.answer then Done
    else Failed(ModuleApplyError)
  }

  /** `_confirm_mutation`. */
  function ConfirmMutation(c: Consent): Outcome {
    if c.yes || (c.terminal && c.answer) then Done else Failed(ModuleApplyError)
  }

  /** Somebody agreed; to a dangerous plan, by its own flag or in person. */
  predicate Consented(p: Plan, c: Consent) {
    && (c.yes || (c.terminal && c.answer))
    && (HasDangerousChanges(p) ==> c.allowDangerous || (c.terminal && c.answer && !c.yes))
  }

  /** A plan with changes is let through exactly with that consent. */
  lemma ConsentIsExplicit(p: Plan, c: Consent)
    requires HasChanges(p)
    ensures ConfirmApply(p, c).Done? <==> Consented(p, c)
  {
    hide HasDangerousChanges;
  }

  ghost predicate Drifted(env: Environment, m: Machine, cfg: Config) {
    DefaultPlan(env, m, cfg) != []
  }

  /** `_drift`: 1 when the plan has changes or validation fails; both halves always agree. */
  method Drift(cfg: Config, sys: System) returns (code: int)
    ensures code == if Drifted(sys.env, sys.host, cfg) then 1 else 0
  {
    hide DefaultPlan, DefaultReport;
    var plan, report := PlanAndReport(cfg, sys);
    DefaultDrift(sys.env, sys.host, cfg);
    DefaultConforms(sys.env, sys.host, cfg);
    SomeChange(plan);
    return if HasChanges(plan) || !Healthy(report) then 1 else 0;
  }

  /** `core.plan()` and `core.validate()` of the default modules. */
  method PlanAndReport(cfg: Config, sys: System) returns (plan: Plan, report: Report)
    ensures plan == DefaultPlan(sys.env, sys.host, cfg)
    ensures report == DefaultReport(sys.env, sys.host, cfg)
  {
    hide PlanOf, ReportOf, Name;
    DefaultIsValid();
    var core := new ServerSetupCore(cfg, DEFAULT_MODULES, sys);
    var planned := core.MakePlan();
    var validated := core.Validate();
    return planned.value, validated.value;
  }

  /**
   What a run relies on to converge: a valid configuration, a well-formed host, and sshd as assumed if it is hardened.
   */
  ghost predicate Sound(env: Environment, m: Machine, cfg: Config) {
    ValidConfig(cfg) && WellFormed(m) && SshAssumed(env, DefaultPlan(env, m, cfg), m)
  }

  /**
   `_apply`: plan, ask, apply, validate. Exit code 0 means that the next plan is empty. It is the exit code of every
   completed run, unless a monitoring service was hidden from the run.
   */
  method Apply(cfg: Config, sys: System, consent: Consent) returns (r: Result<int>)
    modifies sys
    ensures old(sys.trace) <= sys.trace
    ensures Journal(sys.env, old(sys.host), sys.trace, |old(sys.trace)|, sys.host)
    ensures var plan := DefaultPlan(sys.env, old(sys.host), cfg);
            && (!sys.env.root || plan == [] || ConfirmApply(plan, consent).Failed? || HasTerminal(plan)
                || !HostModule.Supported(HostModule.Inspect(sys.env, old(sys.host))) ==>
                  sys.host == old(sys.host) && sys.trace == old(sys.trace) && (r.Ok? <==> sys.env.root && plan == []))
            && (sys.env.root && plan == [] ==> r == Ok(0))
            && (r.Raised? && sys.env.root && ConfirmApply(plan, consent).Done? ==>
                  SomeFailed(sys.trace, |old(sys.trace)|) || HasTerminal(plan) || Refusable(DEFAULT_MODULES, plan))
    ensures cfg.dnsEnabled || DokployBlocks(old(sys.host), cfg) || MonitoringBlocks(old(sys.host), cfg)
            || !SupportedSystem(old(sys.host)) ==>
              r.Raised? && sys.host == old(sys.host) && sys.trace == old(sys.trace)
    ensures sys.trace != old(sys.trace) ==> sys.env.root && Consented(DefaultPlan(sys.env, old(sys.host), cfg), consent)
    ensures SomeFailed(sys.trace, |old(sys.trace)|) ==> r.Raised?
    ensures Retryable(sys.env, old(sys.host), sys.trace, |old(sys.trace)|, sys.host)
    ensures r.Ok? ==> (r.value == 0 <==> !Drifted(sys.env, sys.host, cfg)) && (r.value == 0 || r.value == 1)
    ensures r.Ok? && Sound(sys.env, old(sys.host), cfg) && Drifted(sys.env, old(sys.host), cfg) ==>
              (r.value == 0 <==> !HiddenService(old(sys.host), cfg))
  {
    hide DefaultPlan, DefaultReport, Journal, Progressed, Retryable, Sound, HiddenService, Consented, ConfirmApply;
    hide HostModule.Inspect, HostModule.Supported, OpensUnsupported, Refusable, DokployBlocks, MonitoringBlocks;
    hide SupportedSystem;
    ghost var start := sys.host;
    BlockedExactly(sys.env, start, cfg);
    SupportedSame(sys.env, start, cfg);
    QuietStart(start.ufw, sys.trace);
    QuietJournal(sys.env, start, sys.trace, |sys.trace|, start);
    RetryableBySameParts(sys.env, start, sys.trace, |sys.trace|, start);
    if !sys.env.root {
      return Raised(ModuleApplyError);
    }
    var plan, report := PlanAndReport(cfg, sys);
    DefaultConforms(sys.env, start, cfg);
    SomeChange(plan);
    DefaultDrift(sys.env, start, cfg);
    if !HasChanges(plan) {
      return Ok(if Healthy(report) then 0 else 1);
    }
    ConsentIsExplicit(plan, consent);
    if ConfirmApply(plan, consent).Failed? {
      return Raised(ConfirmApply(plan, consent).error);
    }
    r := ApplyPlan(cfg, sys, plan);
  }

  /** `core.apply(plan)` on the default modules, then `core.validate()`. */
  method ApplyPlan(cfg: Config, sys: System, plan: Plan) returns (r: Result<int>)
    requires plan == DefaultPlan(sys.env, sys.host, cfg)
    modifies sys
    ensures old(sys.trace) <= sys.trace
    ensures Journal(sys.env, old(sys.host), sys.trace, |old(sys.trace)|, sys.host)
    ensures HasTerminal(plan) || OpensUnsupported(DEFAULT_MODULES, plan) ==>
              r.Raised? && sys.host == old(sys.host) && sys.trace == old(sys.trace)
    ensures r.Raised? ==>
              SomeFailed(sys.trace, |old(sys.trace)|) || HasTerminal(plan) || Refusable(DEFAULT_MODULES, plan)
    ensures SomeFailed(sys.trace, |old(sys.trace)|) ==> r.Raised?
    ensures Retryable(sys.env, old(sys.host), sys.trace, |old(sys.trace)|, sys.host)
    ensures r.Ok? ==> (r.value == 0 <==> !Drifted(sys.env, sys.host, cfg)) && (r.value == 0 || r.value == 1)
    ensures r.Ok? && Sound(sys.env, old(sys.host), cfg) ==>
              (r.value == 0 <==> !HiddenService(old(sys.host), cfg))
  {
    ghost var names := ModuleNames(DEFAULT_MODULES);
    DefaultIsValid();
    PlanOfConforms(DEFAULT_MODULES, sys.env, sys.host, cfg);
    assert !HasUnknown(DEFAULT_MODULES, plan);
    PlanIsHandedOut(DEFAULT_MODULES, sys.env, sys.host, cfg);
    assert Flat(Batches(names, plan)) == plan;
    hide PlanOf, ReportOf, ModuleNames, Name, Flat, Batches, Batch, Journal, Progressed, Retryable, SshAssumed;
    hide WellFormed;
    hide HiddenService, OpensUnsupported, HasUnknown, HasTerminal, ValidConfig, Refusable, SomeFailed, Conforms;
    ghost var start := sys.host;
    var core := new ServerSetupCore(cfg, DEFAULT_MODULES, sys);
    var applied := core.Apply(Some(plan));
    if applied.Raised? {
      return Raised(applied.error);
    }
    var validated := core.Validate();
    DefaultDrift(sys.env, sys.host, cfg);
    if Sound(sys.env, start, cfg) {
      Converges(sys.env, cfg, start, sys.host);
    }
    return Ok(if Healthy(validated.value) then 0 else 1);
  }

  /**
   An apply that was aborted anywhere but in the installer can be repeated: a second call that completes leaves the
   plan empty and exits with 0.
   */
  method ApplyTwice(cfg: Config, sys: System, first: Consent, second: Consent)
    returns (r: Result<int>, again: Result<int>)
    modifies sys
    ensures old(sys.trace) <= sys.trace
    ensures ValidConfig(cfg) && WellFormed(old(sys.host)) && HardeningStable(sys.env, old(sys.host))
            && !HiddenService(old(sys.host), cfg) && !InstallerFailed(sys.trace, |old(sys.trace)|) && again.Ok? ==>
              again == Ok(0) && !Drifted(sys.env, sys.host, cfg)
  {
    hide DefaultPlan, Journal, Retryable, HardeningStable, WellFormed, HiddenService, ValidConfig, InstallerFailed;
    hide Consented;
    hide ConfirmApply, HasTerminal, Refusable, SomeFailed, HostModule.Inspect, HostModule.Supported;
    ghost var start, n := sys.host, |sys.trace|;
    r := Apply(cfg, sys, first);
    ghost var between, steps := sys.host, sys.trace;
    again := Apply(cfg, sys, second);
    NoneFailedBefore(steps, sys.trace, n);
    if WellFormed(start) && HardeningStable(sys.env, start)
       && !HiddenService(start, cfg) && !InstallerFailed(steps, n) {
      StaysVisible(sys.env, cfg, start, steps, n, between);
      StaysAssumed(sys.env, start, steps, n, between);
    }
  }

  lemma NoneFailedBefore(before: seq<Step>, trace: seq<Step>, n: nat)
    requires before <= trace
    ensures InstallerFailed(before, n) ==> InstallerFailed(trace, n)
  {
    if i :| n <= i < |before| && before[i].command.RunInstaller? && !before[i].ok {
      assert trace[i] == before[i];
    }
  }

  lemma StaysAssumed(env: Environment, start: Machine, trace: seq<Step>, n: nat, end: Machine)
    requires Retryable(env, start, trace, n, end) && HardeningStable(env, start)
    ensures forall changes: Plan :: SshAssumed(env, changes, end)
  {
    hide HardeningStable;
  }

  ghost predicate SnapshotStored(env: Environment, start: Machine, configText: string, path: Path, m: Machine) {
    && Capture(env, start, configText).Ok?
    && path in m.files && m.files[path] == Document(Render(Capture(env, start, configText).value))
  }

  /** The guards of `_upgrade` before it writes anything. */
  ghost predicate MayUpgrade(env: Environment, m: Machine, cfg: Config, consent: Consent) {
    env.root && !Drifted(env, m, cfg) && (consent.yes || (consent.terminal && consent.answer))
  }

  /** No package that the configuration does not manage differs at any step or at the end. */
  ghost predicate Unmanaged(cfg: Config, start: Machine, trace: seq<Step>, n: nat, end: Machine) {
    && OnlyNamed(Names(ManagedFor(cfg)), start.packages, end.packages)
    && forall i | n <= i < |trace| :: OnlyNamed(Names(ManagedFor(cfg)), start.packages, trace[i].after.packages)
  }

  lemma UnmanagedFrom(cfg: Config, names: set<string>, start: Machine, trace: seq<Step>, n: nat, end: Machine)
    requires names <= Names(ManagedFor(cfg))
    requires OnlyNamed(names, start.packages, end.packages)
    requires forall i | n <= i < |trace| :: OnlyNamed(names, start.packages, trace[i].after.packages)
    ensures Unmanaged(cfg, start, trace, n, end)
  {
    hide ManagedFor, OnlyNamed;
    WidenNames(names, Names(ManagedFor(cfg)), start.packages, end.packages);
    forall i | n <= i < |trace| ensures OnlyNamed(Names(ManagedFor(cfg)), start.packages, trace[i].after.packages) {
      WidenNames(names, Names(ManagedFor(cfg)), start.packages, trace[i].after.packages);
    }
  }

  lemma UnmanagedJoin(cfg: Config, start: Machine, before: seq<Step>, n: nat, mid: Machine, trace: seq<Step>,
                      end: Machine)
    requires before <= trace && n <= |before|
    requires Unmanaged(cfg, start, before, n, mid) && Unmanaged(cfg, mid, trace, |before|, end)
    ensures Unmanaged(cfg, start, trace, n, end)
  {
    hide ManagedFor;
    forall i | n <= i < |trace| ensures OnlyNamed(Names(ManagedFor(cfg)), start.packages, trace[i].after.packages) {
      assert i < |before| ==> trace[i] == before[i];
    }
  }

  /**
   `_upgrade`: refuses a drifted host; otherwise stores a snapshot and then lets apt change the recorded packages.
   Whatever apt does, the stored snapshot is that of the host before, and only recorded packages can differ.
   */
  method Upgrade(cfg: Config, configText: string, sys: System, path: Path, consent: Consent) returns (r: Result<int>)
    requires sys.env.parseConfig(configText) == Some(cfg)
    modifies sys
    ensures old(sys.trace) <= sys.trace
    ensures sys.host == old(sys.host).(packages := sys.host.packages, files := sys.host.files)
    ensures OnlyNamed(SnapshotNames(Capture(sys.env, old(sys.host), configText).value),
                      old(sys.host).packages, sys.host.packages)
    ensures !MayUpgrade(sys.env, old(sys.host), cfg, consent) ==>
              r.Raised? && sys.host == old(sys.host) && sys.trace == old(sys.trace)
    ensures MayUpgrade(sys.env, old(sys.host), cfg, consent) ==>
              SnapshotStored(sys.env, old(sys.host), configText, path, sys.host)
    ensures forall i | |old(sys.trace)| <= i < |sys.trace| && AptCommand(sys.trace[i].command) ::
              SnapshotStored(sys.env, old(sys.host), configText, path, sys.trace[i].after)
    ensures Unmanaged(cfg, old(sys.host), sys.trace, |old(sys.trace)|, sys.host)
    ensures MayUpgrade(sys.env, old(sys.host), cfg, consent) ==>
              (r.Raised? <==> SomeFailed(sys.trace, |old(sys.trace)|))
    ensures r.Ok? ==> (r.value == 0 <==> !Drifted(sys.env, sys.host, cfg))
  {
    hide DefaultPlan, DefaultReport, MANAGED_PACKAGES, ManagedFor, Le, SortedItems, DokployVersion, Render, Unmanaged;
    ghost var start, n := sys.host, |sys.trace|;
    UnmanagedFrom(cfg, {}, start, sys.trace, n, start);
    if !sys.env.root {
      return Raised(ModuleApplyError);
    }
    var plan, report := PlanAndReport(cfg, sys);
    DefaultConforms(sys.env, sys.host, cfg);
    SomeChange(plan);
    DefaultDrift(sys.env, sys.host, cfg);
    if HasChanges(plan) || !Healthy(report) {
      return Raised(ModuleApplyError);
    }
    if ConfirmMutation(consent).Failed? {
      return Raised(ModuleApplyError);
    }
    CaptureShape(sys.env, sys.host, configText);
    var captured := CaptureSnapshot(sys.env, sys.host, configText);
    sys.WriteText(path, Document(Render(captured.value)));
    ghost var stored := sys.host;
    var keys := Keys(captured.value.packageVersions);
    var upgraded := UpgradePackages(sys, keys);
    WidenNames(Names(keys), SnapshotNames(captured.value), stored.packages, sys.host.packages);
    NamesManaged(captured.value, cfg);
    UnmanagedFrom(cfg, Names(keys), start, sys.trace, n, sys.host);
    if upgraded.Raised? {
      return Raised(upgraded.error);
    }
    plan, report := PlanAndReport(cfg, sys);
    DefaultConforms(sys.env, sys.host, cfg);
    SomeChange(plan);
    DefaultDrift(sys.env, sys.host, cfg);
    return Ok(if HasChanges(plan) || !Healthy(report) then 1 else 0);
  }

  /** The package names of a snapshot, in order. */
  function Keys(pairs: seq<(string, string)>): (r: seq<string>)
    ensures |r| == |pairs|
    ensures forall i | 0 <= i < |pairs| :: r[i] == pairs[i].0
    ensures forall k | k in r :: k in Pinned(pairs)
  {
    seq(|pairs|, i requires 0 <= i < |pairs| => pairs[i].0)
  }

  /** What `read_text` and `json.loads` make of the snapshot file. */
  function ReadSnapshot(m: Machine, path: Path): Option<Json.Value> {
    if path in m.files && m.files[path].Document? then Some(m.files[path].root) else None
  }

  /** The guards of `_rollback`: the stored snapshot parses and belongs to this configuration and Dokploy version. */
  ghost predicate MayRollback(env: Environment, m: Machine, configText: string, path: Path, consent: Consent) {
    && env.root && (consent.yes || (consent.terminal && consent.answer))
    && Parse(env, ReadSnapshot(m, path)).Ok?
    && Parse(env, ReadSnapshot(m, path)).value.configText == configText
    && Parse(env, ReadSnapshot(m, path)).value.dokployVersion == DokployVersion(m.docker)
  }

  /**
   `_rollback`: exit code 0 means that the stored snapshot belongs to this configuration and Dokploy version, that
   every recorded package is back at its recorded version, and that nothing has drifted.
   */
  method Rollback(cfg: Config, configText: string, sys: System, path: Path, consent: Consent) returns (r: Result<int>)
    requires sys.env.parseConfig(configText) == Some(cfg)
    modifies sys
    ensures old(sys.trace) <= sys.trace
    ensures sys.host == old(sys.host).(packages := sys.host.packages)
    ensures !MayRollback(sys.env, old(sys.host), configText, path, consent) ==>
              r.Raised? && sys.host == old(sys.host) && sys.trace == old(sys.trace)
    ensures MayRollback(sys.env, old(sys.host), configText, path, consent) ==>
              (r.Raised? <==> SomeFailed(sys.trace, |old(sys.trace)|))
    ensures Parse(sys.env, ReadSnapshot(old(sys.host), path)).Ok? ==>
              var s := Parse(sys.env, ReadSnapshot(old(sys.host), path)).value;
              && OnlyNamed(SnapshotNames(s), old(sys.host).packages, sys.host.packages)
              && (r == Ok(0) ==> AtSnapshot(sys.host, s) && !Drifted(sys.env, sys.host, cfg))
    ensures Unmanaged(cfg, old(sys.host), sys.trace, |old(sys.trace)|, sys.host)
  {
    hide DefaultPlan, DefaultReport, MANAGED_PACKAGES, ManagedFor, Le, Parse, DokployVersion, VersionDrift, AtSnapshot;
    hide SomeFailed, StrictlySorted, VersionsPrintable, SnapshotNames, Unmanaged;
    ghost var start, n := sys.host, |sys.trace|;
    UnmanagedFrom(cfg, {}, start, sys.trace, n, start);
    if !sys.env.root {
      return Raised(ModuleApplyError);
    }
    if path !in sys.host.files {
      NothingParses(sys.env);
      return Raised(SnapshotError);
    }
    var parsed := Parse(sys.env, ReadSnapshot(sys.host, path));
    if parsed.Raised? {
      return Raised(parsed.error);
    }
    ParsedNamesManaged(sys.env, ReadSnapshot(sys.host, path));
    var snapshot := parsed.value;
    if snapshot.configText != configText || snapshot.dokployVersion != DokployVersion(sys.host.docker) {
      return Raised(SnapshotError);
    }
    if ConfirmMutation(consent).Failed? {
      return Raised(ModuleApplyError);
    }
    var restored := RollbackPackages(sys, snapshot);
    NamesManaged(snapshot, cfg);
    UnmanagedFrom(cfg, SnapshotNames(snapshot), start, sys.trace, n, sys.host);
    if restored.Raised? {
      return Raised(restored.error);
    }
    NoDriftIsAtSnapshot(sys.host, snapshot);
    var drift := VersionDrift(sys.host, snapshot);
    var plan, report := PlanAndReport(cfg, sys);
    DefaultConforms(sys.env, sys.host, cfg);
    SomeChange(plan);
    DefaultDrift(sys.env, sys.host, cfg);
    return Ok(if drift != map[] || HasChanges(plan) || !Healthy(report) then 1 else 0);
  }

  lemma NothingParses(env: Environment)
    ensures Parse(env, None).Raised?
  {
  }

  /** A host without drift has every managed package installed. */
  lemma ManagedInstalled(env: Environment, m: Machine, cfg: Config)
    requires !Drifted(env, m, cfg)
    ensures forall p | p in ManagedFor(cfg) :: PackageInstalled(m, p)
  {
    hide DefaultPlan, ModulePlan;
    DefaultPlanSplits(env, m, cfg);
    BaseInstalled(env, m, cfg);
    SecurityInstalled(env, m, cfg);
  }

  lemma BaseInstalled(env: Environment, m: Machine, cfg: Config)
    requires ModulePlan(HostBase, env, m, cfg) == []
    ensures forall p | p in HostModule.BASE_PACKAGES :: PackageInstalled(m, p)
  {
    hide HostModule.BASE_PACKAGES, HostModule.Release, CurrentTimezone;
    var current := HostModule.Inspect(env, m);
    assert HostModule.Missing(HostModule.BASE_PACKAGES, current.installed) == [];
  }

  lemma SecurityInstalled(env: Environment, m: Machine, cfg: Config)
    requires ModulePlan(Security, env, m, cfg) == []
    ensures cfg.unattendedUpgrades ==> PackageInstalled(m, UNATTENDED_UPGRADES) && PackageInstalled(m, APT_LISTCHANGES)
    ensures cfg.fail2ban ==> PackageInstalled(m, FAIL2BAN)
    ensures cfg.firewall ==> PackageInstalled(m, "ufw")
  {
    hide SshPorts, Fail2banConfig, SshHardeningReady;
    SomeSecurityChange(SecurityModule.Inspect(env, m), cfg);
    hide SecurityModule.Plan;
  }

  /**
   Upgrade followed by rollback is the identity on the package database: once the upgrade was allowed to start, and
   however far apt got, a rollback that exits with 0 leaves every package, managed or not, as it was.
   */
  method UpgradeThenRollback(cfg: Config, configText: string, sys: System, path: Path, first: Consent, second: Consent)
    returns (upgrade: Result<int>, rollback: Result<int>)
    requires sys.env.parseConfig(configText) == Some(cfg)
    modifies sys
    ensures MayUpgrade(sys.env, old(sys.host), cfg, first) && rollback == Ok(0) ==>
              sys.host.packages == old(sys.host).packages
    ensures Unmanaged(cfg, old(sys.host), sys.trace, |old(sys.trace)|, sys.host)
  {
    hide Drifted, MANAGED_PACKAGES, ManagedFor, Le, Capture, Parse, Render, VersionsPrintable, DokployVersion;
    hide Unmanaged;
    ghost var start, n := sys.host, |sys.trace|;
    CaptureSucceeds(sys.env, start, configText);
    ghost var s := Capture(sys.env, start, configText).value;
    upgrade := Upgrade(cfg, configText, sys, path, first);
    ghost var between, steps := sys.host, sys.trace;
    rollback := Rollback(cfg, configText, sys, path, second);
    UnmanagedJoin(cfg, start, steps, n, between, sys.trace, sys.host);
    if MayUpgrade(sys.env, start, cfg, first) {
      SnapshotRoundTrip(sys.env, start, configText);
      CaptureShape(sys.env, start, configText);
      NamesManaged(s, cfg);
      assert ReadSnapshot(between, path) == Some(Render(s));
      ghost var names := SnapshotNames(s);
      assert OnlyNamed(names, start.packages, sys.host.packages);
      WidenNames(names, Names(ManagedFor(cfg)), start.packages, sys.host.packages);
      if rollback == Ok(0) {
        ManagedInstalled(sys.env, start, cfg);
        ManagedInstalled(sys.env, sys.host, cfg);
        SamePackages(s, start, sys.host);
      }
    }
  }

  lemma CaptureSucceeds(env: Environment, m: Machine, configText: string)
    requires env.parseConfig(configText).Some?
    ensures Capture(env, m, configText).Ok?
  {
  }

  lemma NamesManaged(s: Snapshot, cfg: Config)
    requires forall i | 0 <= i < |s.packageVersions| :: s.packageVersions[i].0 in ManagedFor(cfg)
    ensures SnapshotNames(s) <= Names(ManagedFor(cfg))
  {
    hide ManagedFor;
  }

  lemma SamePackages(s: Snapshot, m: Machine, n: Machine)
    requires OnlyNamed(SnapshotNames(s), m.packages, n.packages)
    requires AtSnapshot(m, s) && AtSnapshot(n, s)
    requires forall p | p in SnapshotNames(s) :: PackageInstalled(m, p) && PackageInstalled(n, p)
    ensures n.packages == m.packages
  {
    var names := SnapshotNames(s);
    forall p
      ensures p in m.packages <==> p in n.packages
      ensures p in m.packages ==> m.packages[p] == n.packages[p]
    {
      if p in names {
        var i :| 0 <= i < |s.packageVersions| && s.packageVersions[i].0 == p;
        assert PackageInstalled(m, p) && PackageInstalled(n, p);
      } else {
        UnnamedUnchanged(names, m.packages, n.packages, p);
      }
    }
  }
}
