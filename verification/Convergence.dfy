/**
 The idempotency contract (README.md:60-69, ARCHITECTURE.md:75-79): apply, then validation succeeds, then the plan is
 empty.
 */
module Convergence {

  import opened Text
  import opened Plans
  import opened Host
  import opened SecurityState
  import opened Progress
  import opened Modules
  import opened Dispatch
  import opened Core
  import SshdReading
  import HostModule
  import SecurityModule
  import DokployModule
  import MonitoringModule

  function DefaultPlan(env: Environment, m: Machine, cfg: Config): Plan {
    PlanOf(DEFAULT_MODULES, env, m, cfg)
  }

  function DefaultReport(env: Environment, m: Machine, cfg: Config): Report {
    ReportOf(DEFAULT_MODULES, env, m, cfg)
  }

  /**
   A monitoring service runs on a docker without compose, the bundle is there, and Dokploy is about to be installed
   or updated: the run cannot see the service, and its own installer makes the service visible.
   */
  predicate HiddenService(m: Machine, cfg: Config) {
    && ComposeFile in m.files && m.docker.present && !m.docker.compose
    && (UPTIME_KUMA in m.running || BESZEL in m.running)
    && DokployModule.Plan(DokployModule.Inspect(m), DokployModule.DesiredState(cfg)) != []
  }

  /** What `core.plan()` returns is handed out unchanged: its batches, joined, are the plan. */
  lemma {:induction false} PlanIsHandedOut(mods: seq<Module>, env: Environment, m: Machine, cfg: Config)
    requires ValidModules(mods)
    ensures Flat(Batches(ModuleNames(mods), PlanOf(mods, env, m, cfg))) == PlanOf(mods, env, m, cfg)
  {
    hide ModulePlan, Name;
    if mods == [] {
      NoBatches([]);
    } else {
      var init, last := mods[..|mods| - 1], mods[|mods| - 1];
      PlanIsHandedOut(init, env, m, cfg);
      PlanOfConforms(init, env, m, cfg);
      assert ModuleNames(mods) == ModuleNames(init) + [Name(last)];
      HandedOutStep(ModuleNames(init), Name(last), PlanOf(init, env, m, cfg), ModulePlan(last, env, m, cfg));
    }
  }

  /** The default plan is the plans of the five modules, one after the other. */
  lemma DefaultPlanSplits(env: Environment, m: Machine, cfg: Config)
    ensures DefaultPlan(env, m, cfg) ==
              ModulePlan(HostBase, env, m, cfg) + ModulePlan(Security, env, m, cfg) + ModulePlan(Dokploy, env, m, cfg)
              + ModulePlan(Dns, env, m, cfg) + ModulePlan(Monitoring, env, m, cfg)
  {
    hide ModulePlan;
    var one, two, three := [HostBase], [HostBase, Security], [HostBase, Security, Dokploy];
    var four := three + [Dns];
    assert one[..0] == [] && two[..1] == one && three[..2] == two && four[..3] == three && DEFAULT_MODULES[..4] == four;
    assert PlanOf(one, env, m, cfg) == ModulePlan(HostBase, env, m, cfg);
    assert PlanOf(two, env, m, cfg) == PlanOf(one, env, m, cfg) + ModulePlan(Security, env, m, cfg);
    assert PlanOf(three, env, m, cfg) == PlanOf(two, env, m, cfg) + ModulePlan(Dokploy, env, m, cfg);
    assert PlanOf(four, env, m, cfg) == PlanOf(three, env, m, cfg) + ModulePlan(Dns, env, m, cfg);
  }

  lemma DefaultIsValid()
    ensures ValidModules(DEFAULT_MODULES)
  {
    hide Strip;
    forall mod: Module ensures Strip(Name(mod)) != "" {
      StripOfTrimmed(Name(mod));
    }
  }

  lemma BaseNamesHaveNoComma()
    ensures forall p | p in HostModule.BASE_PACKAGES :: ',' !in p && p != ""
  {
  }

  /** All base packages are there once the missing ones have been installed. */
  lemma PackagesSettle(env: Environment, m: Machine, n: Machine)
    requires PackagesKept(m, n)
    requires var missing := HostModule.Missing(HostModule.BASE_PACKAGES, HostModule.Inspect(env, m).installed);
             missing != [] ==> forall p | p in Split(Join(missing, ","), ',') && p != "" :: PackageInstalled(n, p)
    ensures HostModule.Missing(HostModule.BASE_PACKAGES, HostModule.Inspect(env, n).installed) == []
  {
    hide HostModule.Release, CurrentTimezone;
    var missing := HostModule.Missing(HostModule.BASE_PACKAGES, HostModule.Inspect(env, m).installed);
    BaseNamesHaveNoComma();
    if missing != [] { SplitJoin(missing, ','); }
    hide HostModule.BASE_PACKAGES, Join, Split;
    forall p | p in HostModule.BASE_PACKAGES ensures PackageInstalled(n, p) {
      if p !in missing { assert PackageInstalled(m, p); }
    }
    NothingMissing(HostModule.BASE_PACKAGES, HostModule.Inspect(env, n).installed);
  }

  lemma EndsAchieved(env: Environment, plan: Plan, n: Machine)
    requires forall c | c in plan :: Achieved(env, c, n)
    ensures plan != [] ==> Achieved(env, plan[0], n) && Achieved(env, plan[|plan| - 1], n)
  {
  }

  lemma HostSettles(env: Environment, cfg: Config, m: Machine, n: Machine)
    requires ValidConfig(cfg) && Evolves(env, cfg, m, n)
    requires forall c | c in ModulePlan(HostBase, env, m, cfg) :: Achieved(env, c, n)
    ensures ModulePlan(HostBase, env, n, cfg) == []
  {
    hide SecurityProgress, DokployProgress, MonitoringProgress, HardeningStable, PackagesKept, CurrentTimezone;
    hide HostModule.Missing, HostModule.Release, Join, Split, TimezoneProgress;
    var current := HostModule.Inspect(env, m);
    var plan := ModulePlan(HostBase, env, m, cfg);
    EndsAchieved(env, plan, n);
    assert HostModule.Supported(current);
    PackagesSettle(env, m, n);
    TimezoneStays(env, cfg, m, n);
  }

  lemma {:induction false} NothingMissing(packages: seq<string>, installed: set<string>)
    requires forall p | p in packages :: p in installed
    ensures HostModule.Missing(packages, installed) == []
  {
    if packages != [] {
      assert packages[0] in packages;
      assert forall p | p in packages[1..] :: p in packages;
      NothingMissing(packages[1..], installed);
    }
  }

  lemma SecuritySettles(env: Environment, cfg: Config, m: Machine, n: Machine)
    requires Evolves(env, cfg, m, n)
    requires forall c | c in ModulePlan(Security, env, m, cfg) :: Achieved(env, c, n)
    ensures ModulePlan(Security, env, n, cfg) == []
  {
    ConfiguredStays(env, m, n);
    GuardStays(env, m, n);
    hide Evolves, UnattendedReady, Fail2banReady, FirewallReady, SshHardeningReady, FirewallActive, SshPorts;
    var plan := ModulePlan(Security, env, m, cfg);
    var current := SecurityModule.Inspect(env, m);
    SecurityPlanHas(current, cfg);
    SomeSecurityChange(SecurityModule.Inspect(env, n), cfg);
  }

  lemma SecurityPlanHas(s: SecurityModule.State, cfg: Config)
    ensures var plan := SecurityModule.Plan(s, SecurityModule.DesiredState(cfg));
            && (cfg.unattendedUpgrades && !s.unattendedReady ==> exists c | c in plan :: c.action.ConfigureUnattended?)
            && (cfg.fail2ban && !s.fail2banReady ==> exists c | c in plan :: c.action.ConfigureFail2ban?)
            && (cfg.firewall && !s.firewallReady ==> exists c | c in plan :: c.action.ConfigureFirewall?)
            && (cfg.sshHardening && !s.sshHardeningReady ==> exists c | c in plan :: c.action.ConfigureSsh?)
  {
    var plan := SecurityModule.Plan(s, SecurityModule.DesiredState(cfg));
    var a := if cfg.unattendedUpgrades && !s.unattendedReady then 1 else 0;
    var b := a + if cfg.fail2ban && !s.fail2banReady then 1 else 0;
    var c := b + if cfg.firewall && !s.firewallReady then 1 else 0;
    if a == 1 { assert plan[0].action.ConfigureUnattended?; }
    if b == a + 1 { assert plan[a].action.ConfigureFail2ban?; }
    if c == b + 1 { assert plan[b].action.ConfigureFirewall?; }
    if cfg.sshHardening && !s.sshHardeningReady { assert plan[c].action.ConfigureSsh?; }
  }

  lemma DokploySettles(env: Environment, cfg: Config, m: Machine, n: Machine)
    requires Evolves(env, cfg, m, n)
    requires forall c | c in ModulePlan(Dokploy, env, m, cfg) :: Conforms(cfg, c) && Achieved(env, c, n)
    ensures ModulePlan(Dokploy, env, n, cfg) == []
    ensures ModulePlan(Dokploy, env, m, cfg) != [] ==> DokployDelivered(n, cfg.dokployVersion)
    ensures ModulePlan(Dokploy, env, m, cfg) == [] && cfg.dokployEnabled ==> DokployHealthy(m)
  {
    hide TimezoneProgress, SecurityProgress, MonitoringProgress, HardeningStable, DokployVersion;
    var plan := ModulePlan(Dokploy, env, m, cfg);
    if plan != [] {
      assert plan[0] in plan && Achieved(env, plan[0], n);
    }
  }

  /**
   Monitoring settles too, except when the run itself uncovered a service that it could not see. Then, and only
   then, the next plan stops that service.
   */
  lemma MonitoringSettles(env: Environment, cfg: Config, m: Machine, n: Machine)
    requires WellFormed(m) && Evolves(env, cfg, m, n)
    requires ModulePlan(Dokploy, env, m, cfg) != [] ==> DokployDelivered(n, cfg.dokployVersion)
    requires ModulePlan(Dokploy, env, m, cfg) == [] && cfg.dokployEnabled ==> DokployHealthy(m)
    requires forall c | c in ModulePlan(Monitoring, env, m, cfg) :: Achieved(env, c, n)
    requires ModulePlan(Monitoring, env, m, cfg) == [] ==> n.running == m.running
    requires ModulePlan(Dokploy, env, m, cfg) == [] ==> n.docker == m.docker
    ensures ModulePlan(Monitoring, env, n, cfg) == [] <==> !HiddenService(m, cfg)
  {
    DockerStays(env, cfg, m, n);
    hide TimezoneProgress, SecurityProgress, HardeningStable, DokployVersion, PackagesKept;
    var current, later := MonitoringModule.Inspect(m), MonitoringModule.Inspect(n);
    var desired := MonitoringModule.DesiredState(cfg);
    var plan := MonitoringModule.Plan(current, desired);
    EndsAchieved(env, plan, n);
    assert plan != [] ==> !plan[0].action.Blocked?;
    ServiceAchieved(env, n, plan, cfg.uptimeKuma, UPTIME_KUMA in current.running, UPTIME_KUMA);
    ServiceAchieved(env, n, plan, cfg.beszel, BESZEL in current.running, BESZEL);
    assert MonitoredService(UPTIME_KUMA) && MonitoredService(BESZEL);
  }

  lemma ServiceAchieved(env: Environment, n: Machine, plan: Plan, enabled: bool, running: bool, service: string)
    requires MonitoredService(service)
    requires forall c | c in MonitoringModule.ServiceChanges(enabled, running, service) :: c in plan
    requires forall c | c in plan :: Achieved(env, c, n)
    ensures enabled && !running ==> ComposeAvailable(n) && service in n.running
    ensures !enabled && running ==> ComposeAvailable(n) && service !in n.running
  {
    var changes := MonitoringModule.ServiceChanges(enabled, running, service);
    if changes != [] {
      assert changes[0] in plan && Achieved(env, changes[0], n);
    }
  }

  lemma NoOwnBatch(env: Environment, m: Machine, cfg: Config, mod: Module)
    requires ModulePlan(mod, env, m, cfg) == []
    ensures Batch(DefaultPlan(env, m, cfg), Name(mod)) == []
  {
    DefaultPlanSplits(env, m, cfg);
    hide ModulePlan;
    var batch := Batch(DefaultPlan(env, m, cfg), Name(mod));
    forall other: Module | other != mod ensures Name(other) != Name(mod) {
    }
    assert forall c | c in DefaultPlan(env, m, cfg) :: c.owner != Name(mod);
    BatchOfOthers(DefaultPlan(env, m, cfg), Name(mod));
  }

  /**
   Convergence: carrying out the default plan leaves a host on which the plan is empty and validation succeeds, for
   every configuration, exactly when no monitoring service was hidden from the run.
   */
  lemma Converges(env: Environment, cfg: Config, m: Machine, n: Machine)
    requires ValidConfig(cfg) && WellFormed(m) && SshAssumed(env, DefaultPlan(env, m, cfg), m)
    requires Progressed(env, cfg, DefaultPlan(env, m, cfg), m, n)
    requires Batch(DefaultPlan(env, m, cfg), MonitoringModule.NAME) == [] ==> n.running == m.running
    requires Batch(DefaultPlan(env, m, cfg), DokployModule.NAME) == [] ==> n.docker == m.docker
    ensures DefaultPlan(env, n, cfg) == [] <==> !HiddenService(m, cfg)
    ensures Healthy(DefaultReport(env, n, cfg)) <==> !HiddenService(m, cfg)
  {
    hide Evolves, Achieved, Conforms, SshAssumed, HiddenService, DokployDelivered, DokployHealthy, WellFormed;
    hide Batch, ModulePlan, DefaultPlan, DefaultReport;
    DefaultDrift(env, n, cfg);
    DefaultPlanSplits(env, m, cfg);
    DefaultPlanSplits(env, n, cfg);
    DefaultConforms(env, m, cfg);
    hide Healthy, ValidConfig;
    HostSettles(env, cfg, m, n);
    SecuritySettles(env, cfg, m, n);
    DokploySettles(env, cfg, m, n);
    DnsSettles(env, cfg, m, n);
    if ModulePlan(Dokploy, env, m, cfg) == [] { NoOwnBatch(env, m, cfg, Dokploy); }
    if ModulePlan(Monitoring, env, m, cfg) == [] { NoOwnBatch(env, m, cfg, Monitoring); }
    MonitoringSettles(env, cfg, m, n);
  }

  /** A run whose installer did not fail hides no service, wherever it stopped. */
  lemma StaysVisible(env: Environment, cfg: Config, start: Machine, trace: seq<Step>, n: nat, end: Machine)
    requires Retryable(env, start, trace, n, end) && !InstallerFailed(trace, n)
    requires WellFormed(start) && !HiddenService(start, cfg)
    ensures WellFormed(end) && !HiddenService(end, cfg)
  {
    hide HardeningStable, DokployModule.Plan;
    if !end.docker.compose {
      assert DokployModule.Inspect(end) == DokployModule.Inspect(start);
    }
  }

  lemma DefaultDrift(env: Environment, m: Machine, cfg: Config)
    ensures Healthy(DefaultReport(env, m, cfg)) <==> DefaultPlan(env, m, cfg) == []
  {
    hide ModulePlan, ModuleReport, PlanOf, ReportOf, Healthy;
    DriftAgrees(DEFAULT_MODULES, env, m, cfg);
  }

  lemma DefaultConforms(env: Environment, m: Machine, cfg: Config)
    ensures forall c | c in DefaultPlan(env, m, cfg) :: Conforms(cfg, c) && c.kind != Noop
  {
    hide ModulePlan, PlanOf, Conforms;
    PlanOfConforms(DEFAULT_MODULES, env, m, cfg);
  }

  lemma DnsSettles(env: Environment, cfg: Config, m: Machine, n: Machine)
    requires forall c | c in ModulePlan(Dns, env, m, cfg) :: Achieved(env, c, n)
    ensures ModulePlan(Dns, env, n, cfg) == []
  {
    EndsAchieved(env, ModulePlan(Dns, env, m, cfg), n);
  }

  /**
   A default plan that starts a monitoring service on a host without docker, and is not terminal, installs Dokploy
   strictly earlier.
   */
  lemma StartAfterInstall(env: Environment, m: Machine, cfg: Config, j: nat)
    requires var plan := DefaultPlan(env, m, cfg);
             !HasTerminal(plan) && j < |plan| && plan[j].action.StartService?
    requires !m.docker.present
    ensures exists i | 0 <= i < j :: DefaultPlan(env, m, cfg)[i].action.InstallDokploy?
  {
    hide ModulePlan, DefaultPlan;
    var plan := DefaultPlan(env, m, cfg);
    DefaultPlanSplits(env, m, cfg);
    var early := ModulePlan(HostBase, env, m, cfg) + ModulePlan(Security, env, m, cfg);
    var dokploy, dns := ModulePlan(Dokploy, env, m, cfg), ModulePlan(Dns, env, m, cfg);
    var late := ModulePlan(Monitoring, env, m, cfg);
    EarlyStartsNothing(env, m, cfg);
    StartIsLate(early + dokploy + dns, late, j);
    assert plan == early + dokploy + dns + late;
    DockerlessPlans(env, m, cfg, plan);
    assert plan[|early|] == dokploy[0];
  }

  lemma StartIsLate(before: Plan, late: Plan, j: nat)
    requires j < |before + late| && (before + late)[j].action.StartService?
    requires forall c | c in before :: !c.action.StartService?
    ensures |before| <= j && exists c | c in late :: c.action.StartService?
  {
    assert forall i | 0 <= i < |before| :: (before + late)[i] in before;
    assert late[j - |before|] in late;
  }

  lemma EarlyStartsNothing(env: Environment, m: Machine, cfg: Config)
    ensures forall mod: Module, c | !mod.Monitoring? && c in ModulePlan(mod, env, m, cfg) :: !c.action.StartService?
  {
    hide HostModule.Inspect, SecurityModule.Inspect, DokployModule.Inspect, HostModule.Missing, HostModule.Supported;
    hide DokployModule.StateHealthy, DokployModule.Occupied;
  }

  lemma DockerlessPlans(env: Environment, m: Machine, cfg: Config, plan: Plan)
    requires !m.docker.present && !HasTerminal(plan)
    requires forall c | c in ModulePlan(Monitoring, env, m, cfg) + ModulePlan(Dokploy, env, m, cfg) :: c in plan
    requires exists c | c in ModulePlan(Monitoring, env, m, cfg) :: c.action.StartService?
    ensures |ModulePlan(Dokploy, env, m, cfg)| == 1 && ModulePlan(Dokploy, env, m, cfg)[0].action.InstallDokploy?
  {
    var late, dokploy := ModulePlan(Monitoring, env, m, cfg), ModulePlan(Dokploy, env, m, cfg);
    assert late[0] in late + dokploy;
    assert !Terminal(late[0]);
    assert cfg.dokployEnabled;
    assert dokploy[0] in late + dokploy;
    assert !Terminal(dokploy[0]);
  }

  /** On an unsupported host the default plan opens with the refusal, so applying it changes nothing. */
  lemma UnsupportedRefused(env: Environment, m: Machine, cfg: Config)
    requires !HostModule.Supported(HostModule.Inspect(env, m))
    ensures OpensUnsupported(DEFAULT_MODULES, DefaultPlan(env, m, cfg))
  {
    hide HostModule.Inspect, HostModule.Supported;
    DefaultPlanSplits(env, m, cfg);
    var plan := DefaultPlan(env, m, cfg);
    assert plan[0] == ModulePlan(HostBase, env, m, cfg)[0];
  }

  /**
   Firewall safety: in every state of a run that started with UFW inactive, an active firewall allows every SSH port
   detected at the start, 80 and 443, wherever the run stopped.
   */
  lemma NeverLockedOut(env: Environment, start: Machine, trace: seq<Step>, n: nat, end: Machine, i: nat)
    requires Journal(env, start, trace, n, end) && HardeningStable(env, start) && !start.ufw.active
    requires n <= i < |trace| && trace[i].after.ufw.active
    ensures forall p | p in SshPorts(env, start) ::
              exists w :: SshdReading.Names(w, p) && w[0] != '0' && w + "/tcp" in trace[i].after.ufw.rules
    ensures "80/tcp" in trace[i].after.ufw.rules && "443/tcp" in trace[i].after.ufw.rules
  {
    hide PortsUnder, RequiredRules, SshdReading.Names;
    assert StepOk(env, start, trace[i]);
    RequiredMeans(SshPorts(env, start), start.ufw, trace[i].after.ufw);
    assert forall p | p in SshPorts(env, start) :: Allows(trace[i].after.ufw.rules, p);
  }

  /** No run opens anything but the SSH ports, 80 and 443: every rule that a step finds added is for one of them. */
  lemma NothingElseOpened(env: Environment, start: Machine, trace: seq<Step>, n: nat, end: Machine, i: nat,
                          rule: string)
    requires Journal(env, start, trace, n, end) && HardeningStable(env, start)
    requires n <= i < |trace| && rule in trace[i].after.ufw.rules && rule !in start.ufw.rules
    ensures rule == "80/tcp" || rule == "443/tcp"
            || exists p, w :: p in SshPorts(env, start) && SshdReading.Names(w, p) && w[0] != '0' && rule == w + "/tcp"
  {
    hide PortsUnder, RequiredRules, SshdReading.Names;
    assert StepOk(env, start, trace[i]);
    RequiredMeans(SshPorts(env, start), start.ufw, trace[i].after.ufw);
    assert rule == "80/tcp" || rule == "443/tcp" || NamesOne(SshPorts(env, start), rule);
  }
}
