/** The host modules behind one interface, and the default assembly (server_setup/modules/factory.py). */
module Modules {

  import opened Wrappers
  import opened Plans
  import opened Host
  import opened SecurityState
  import opened Progress
  import HostModule
  import SecurityModule
  import DokployModule
  import DeferredFeature
  import MonitoringModule

  datatype Module = HostBase | Security | Dokploy | Dns | Monitoring

  const DNS := "dns"

  const DEFAULT_MODULES: seq<Module> := [HostBase, Security, Dokploy, Dns, Monitoring]

  function Name(mod: Module): string {
    match mod
    case HostBase => HostModule.NAME
    case Security => SecurityModule.NAME
    case Dokploy => DokployModule.NAME
    case Dns => DNS
    case Monitoring => MonitoringModule.NAME
  }

  /** `module.plan(module.inspect(), module.desired(config))`. */
  function ModulePlan(mod: Module, env: Environment, m: Machine, cfg: Config): (p: Plan)
    ensures forall c | c in p :: c.owner == Name(mod) && c.kind != Noop
  {
    match mod
    case HostBase => HostModule.Plan(HostModule.Inspect(env, m), HostModule.DesiredState(cfg))
    case Security => SecurityModule.Plan(SecurityModule.Inspect(env, m), SecurityModule.DesiredState(cfg))
    case Dokploy => DokployModule.Plan(DokployModule.Inspect(m), DokployModule.DesiredState(cfg))
    case Dns => DeferredFeature.Plan(DNS, cfg.dnsEnabled)
    case Monitoring => MonitoringModule.Plan(MonitoringModule.Inspect(m), MonitoringModule.DesiredState(cfg))
  }

  /** `module.validate(module.desired(config))`. */
  function ModuleReport(mod: Module, env: Environment, m: Machine, cfg: Config): (r: Report)
    ensures forall c | c in r :: c.owner == Name(mod)
  {
    match mod
    case HostBase => HostModule.Validate(env, m, HostModule.DesiredState(cfg))
    case Security => SecurityModule.Validate(env, m, SecurityModule.DesiredState(cfg))
    case Dokploy => DokployModule.Validate(m, DokployModule.DesiredState(cfg))
    case Dns => DeferredFeature.Validate(DNS, cfg.dnsEnabled)
    case Monitoring => MonitoringModule.Validate(m, MonitoringModule.DesiredState(cfg))
  }

  /** Every planned change agrees with the configuration it was planned from. */
  lemma PlanConforms(mod: Module, env: Environment, m: Machine, cfg: Config)
    ensures forall c | c in ModulePlan(mod, env, m, cfg) :: Conforms(cfg, c)
  {
    hide HostModule.Plan, SecurityModule.Plan, DokployModule.Plan, MonitoringModule.Plan, Conforms;
    hide HostModule.Inspect, SecurityModule.Inspect, DokployModule.Inspect, MonitoringModule.Inspect;
    match mod
    case HostBase => HostConforms(HostModule.Inspect(env, m), cfg);
    case Security => SecurityConforms(SecurityModule.Inspect(env, m), cfg);
    case Dokploy => DokployConforms(DokployModule.Inspect(m), cfg);
    case Dns => DnsConforms(cfg);
    case Monitoring => MonitoringConforms(MonitoringModule.Inspect(m), cfg);
  }

  lemma HostConforms(current: HostModule.State, cfg: Config)
    ensures forall c | c in HostModule.Plan(current, HostModule.DesiredState(cfg)) :: Conforms(cfg, c)
  {
    hide HostModule.Supported, HostModule.Missing;
  }

  lemma SecurityConforms(current: SecurityModule.State, cfg: Config)
    ensures forall c | c in SecurityModule.Plan(current, SecurityModule.DesiredState(cfg)) :: Conforms(cfg, c)
  {
  }

  lemma DokployConforms(current: DokployModule.State, cfg: Config)
    ensures forall c | c in DokployModule.Plan(current, DokployModule.DesiredState(cfg)) :: Conforms(cfg, c)
  {
    hide DokployModule.StateHealthy, DokployModule.Occupied;
  }

  lemma DnsConforms(cfg: Config)
    ensures forall c | c in DeferredFeature.Plan(DNS, cfg.dnsEnabled) :: Conforms(cfg, c)
  {
  }

  lemma MonitoringConforms(current: MonitoringModule.State, cfg: Config)
    ensures forall c | c in MonitoringModule.Plan(current, MonitoringModule.DesiredState(cfg)) :: Conforms(cfg, c)
  {
  }

  /** A change that its module may refuse although no command fails. */
  predicate MayRefuse(mod: Module, c: Change) {
    match mod
    case HostBase => HostModule.Unappliable(c)
    case Security => SecurityModule.MayRefuse(c)
    case _ => true
  }

  method ApplyModule(mod: Module, sys: System, changes: Plan, ghost cfg: Config) returns (r: Outcome)
    requires changes != []
    modifies sys
    ensures old(sys.trace) <= sys.trace
    ensures Told(r, sys.trace, |old(sys.trace)|)
    ensures r.Failed? && r.error != CommandError ==> exists c | c in changes :: MayRefuse(mod, c)
    ensures Journal(sys.env, old(sys.host), sys.trace, |old(sys.trace)|, sys.host)
    ensures r.Done? ==> Carried(sys.env, old(sys.host), sys.host)
    ensures r.Done? ==> Progressed(sys.env, cfg, changes, old(sys.host), sys.host)
    ensures Retryable(sys.env, old(sys.host), sys.trace, |old(sys.trace)|, sys.host)
    ensures !mod.Monitoring? ==> sys.host.running == old(sys.host).running
    ensures !mod.Dokploy? ==> sys.host.docker == old(sys.host).docker
    ensures mod.HostBase? && changes[0].action.UnsupportedHost? ==>
              r == Failed(ModuleApplyError) && sys.host == old(sys.host) && sys.trace == old(sys.trace)
  {
    hide Progressed, Journal, Carried, Quiet, Told, Retryable, HardeningStable, MonitoringModule.Composed;
    hide HostModule.Settled, MonitoringModule.Settled;
    ghost var start, n := sys.host, |sys.trace|;
    assert changes[0] in changes;
    match mod
    case HostBase =>
      r := HostModule.Apply(sys, changes, cfg);
      QuietJournal(sys.env, start, sys.trace, n, sys.host);
      Untouched({EtcTimezone}, start, sys.host);
      RetryableBySameParts(sys.env, start, sys.trace, n, sys.host);
      CarriedBySameFiles(sys.env, start, sys.host);
    case Security =>
      r := SecurityModule.Apply(sys, changes, cfg);
      RetryableBySecurity(sys.env, start, sys.trace, n, sys.host);
    case Dokploy =>
      r := DokployModule.Apply(sys, changes, cfg);
      QuietJournal(sys.env, start, sys.trace, n, sys.host);
      Untouched({Installer}, start, sys.host);
      CarriedBySameFiles(sys.env, start, sys.host);
    case Dns =>
      QuietStart(start.ufw, sys.trace);
      QuietJournal(sys.env, start, sys.trace, n, sys.host);
      ToldNothing(Failed(ModuleApplyError), sys.trace);
      RetryableBySameParts(sys.env, start, sys.trace, n, sys.host);
      return Failed(ModuleApplyError);
    case Monitoring =>
      r := MonitoringModule.Apply(sys, changes, cfg);
      MonitoringModule.ComposedJournal(sys.env, start, sys.trace, n, sys.host);
      Untouched({}, start, sys.host);
      CarriedBySameFiles(sys.env, start, sys.host);
  }

  lemma RetryableBySecurity(env: Environment, start: Machine, trace: seq<Step>, n: nat, end: Machine)
    requires SecurityModule.Within(start, end)
    requires HardeningStable(env, start) ==> HardeningStable(env, end)
    ensures Retryable(env, start, trace, n, end)
  {
    hide HardeningStable;
    assert ComposeFile in end.files <==> ComposeFile in end.files - SecurityModule.FILES;
    assert ComposeFile in start.files <==> ComposeFile in start.files - SecurityModule.FILES;
  }

  /** A module plans something exactly when its own validation fails. */
  lemma ModuleDrift(mod: Module, env: Environment, m: Machine, cfg: Config)
    ensures HasChanges(ModulePlan(mod, env, m, cfg)) <==> !Healthy(ModuleReport(mod, env, m, cfg))
  {
    match mod
    case HostBase => HostDrift(env, m, cfg);
    case Security => SecurityDrift(env, m, cfg);
    case Dokploy => DokployDrift(m, cfg);
    case Dns =>
      var plan := ModulePlan(mod, env, m, cfg);
      var report := ModuleReport(mod, env, m, cfg);
      assert report[0].status == if cfg.dnsEnabled then Fail else Skip;
      if cfg.dnsEnabled { assert plan[0] in plan; }
    case Monitoring => MonitoringDrift(m, cfg);
  }

  lemma SomeChange(p: Plan)
    requires forall c | c in p :: c.kind != Noop
    ensures HasChanges(p) <==> p != []
  {
    if p != [] { assert p[0] in p; }
  }

  lemma HostDrift(env: Environment, m: Machine, cfg: Config)
    ensures HasChanges(ModulePlan(HostBase, env, m, cfg)) <==> !Healthy(ModuleReport(HostBase, env, m, cfg))
  {
    hide HostModule.Inspect, HostModule.Missing, HostModule.Supported;
    var current := HostModule.Inspect(env, m);
    var report := ModuleReport(HostBase, env, m, cfg);
    SomeChange(ModulePlan(HostBase, env, m, cfg));
    assert report[0].status == if HostModule.Supported(current) then Pass else Fail;
    assert report[1].status ==
           if HostModule.Missing(HostModule.BASE_PACKAGES, current.installed) == [] then Pass else Fail;
    assert report[2].status == if current.timezone == cfg.timezone then Pass else Fail;
  }

  lemma SomeSecurityChange(s: SecurityModule.State, cfg: Config)
    ensures SecurityModule.Plan(s, SecurityModule.DesiredState(cfg)) != [] <==>
              || (cfg.unattendedUpgrades && !s.unattendedReady) || (cfg.fail2ban && !s.fail2banReady)
              || (cfg.firewall && !s.firewallReady) || (cfg.sshHardening && !s.sshHardeningReady)
  {
  }

  lemma SecurityDrift(env: Environment, m: Machine, cfg: Config)
    ensures HasChanges(ModulePlan(Security, env, m, cfg)) <==> !Healthy(ModuleReport(Security, env, m, cfg))
  {
    hide SecurityModule.Inspect;
    SomeSecurityChange(SecurityModule.Inspect(env, m), cfg);
    hide SecurityModule.Plan;
    var current := SecurityModule.Inspect(env, m);
    var report := ModuleReport(Security, env, m, cfg);
    SomeChange(ModulePlan(Security, env, m, cfg));
    assert report[0] == SecurityModule.CheckFeature(cfg.unattendedUpgrades, current.unattendedReady);
    assert report[1] == SecurityModule.CheckFeature(cfg.fail2ban, current.fail2banReady);
    assert report[2] == SecurityModule.CheckFeature(cfg.firewall, current.firewallReady);
    assert report[3] == SecurityModule.CheckFeature(cfg.sshHardening, current.sshHardeningReady);
  }

  lemma DokployDrift(m: Machine, cfg: Config)
    ensures forall env :: HasChanges(ModulePlan(Dokploy, env, m, cfg)) <==> !Healthy(ModuleReport(Dokploy, env, m, cfg))
  {
    hide DokployVersion;
    var current := DokployModule.Inspect(m);
    var desired := DokployModule.DesiredState(cfg);
    var plan := DokployModule.Plan(current, desired);
    var report := DokployModule.Validate(m, desired);
    if plan != [] { assert plan[0] in plan; }
    if cfg.dokployEnabled {
      assert report[0] == DokployModule.PassIf(current.installed);
      if current.installed {
        assert report[1] == if current.version.None? then Check(DokployModule.NAME, Warn)
                            else DokployModule.PassIf(current.version.value == desired.version);
        assert report[2] == DokployModule.PassIf(current.swarmActive);
        assert report[3] == DokployModule.PassIf(current.networkExists);
        assert report[4] == DokployModule.PassIf({80, 443} <= current.ports);
      }
    }
  }

  lemma MonitoringDrift(m: Machine, cfg: Config)
    ensures forall env :: HasChanges(ModulePlan(Monitoring, env, m, cfg)) <==>
              !Healthy(ModuleReport(Monitoring, env, m, cfg))
  {
    var current := MonitoringModule.Inspect(m);
    var desired := MonitoringModule.DesiredState(cfg);
    var plan := MonitoringModule.Plan(current, desired);
    var report := MonitoringModule.Validate(m, desired);
    if plan != [] { assert plan[0] in plan; }
    var k := if MonitoringModule.WantsAny(desired) then 2 else 0;
    if k == 2 {
      assert report[0] == MonitoringModule.PassIf(current.bundlePresent);
      assert report[1] == MonitoringModule.PassIf(current.composeAvailable);
    }
    assert report[k] == MonitoringModule.CheckService(desired.uptimeKuma, UPTIME_KUMA in current.running);
    assert report[k + 1] == MonitoringModule.CheckService(desired.beszel, BESZEL in current.running);
  }
}
