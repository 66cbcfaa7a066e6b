/**
 What the default plan holds, read off the host itself (server_setup/core.py:31-41 over the modules of
 server_setup/modules/factory.py:14-22).
 */
module PlanLaws {

  import opened Text
  import opened Wrappers
  import opened Plans
  import opened Host
  import opened SecurityState
  import opened Progress
  import opened Modules
  import opened Core
  import opened Convergence
  import HostModule
  import SecurityModule
  import DokployModule
  import DeferredFeature
  import MonitoringModule

  /** A change stands in the default plan exactly if the module that owns it planned it. */
  lemma Owned(env: Environment, m: Machine, cfg: Config, mod: Module, c: Change)
    requires c.owner == Name(mod)
    ensures c in DefaultPlan(env, m, cfg) <==> c in ModulePlan(mod, env, m, cfg)
  {
    DefaultPlanSplits(env, m, cfg);
    NamesDiffer();
    hide ModulePlan, DefaultPlan, Name;
  }

  lemma NamesDiffer()
    ensures forall a: Module, b: Module :: Name(a) == Name(b) ==> a == b
    ensures Name(HostBase) == "host" && Name(Security) == "security" && Name(Dokploy) == "dokploy"
    ensures Name(Dns) == "dns" && Name(Monitoring) == "monitoring"
  {
  }

  function Position(mod: Module): nat {
    match mod
    case HostBase => 0
    case Security => 1
    case Dokploy => 2
    case Dns => 3
    case Monitoring => 4
  }

  /** The changes stand in module order: host, security, Dokploy, DNS, monitoring. */
  lemma PlannedInOrder(env: Environment, m: Machine, cfg: Config, i: nat, j: nat, a: Module, b: Module)
    requires i < j < |DefaultPlan(env, m, cfg)|
    requires DefaultPlan(env, m, cfg)[i].owner == Name(a) && DefaultPlan(env, m, cfg)[j].owner == Name(b)
    ensures Position(a) <= Position(b)
  {
    DefaultPlanSplits(env, m, cfg);
    NamesDiffer();
    hide ModulePlan, DefaultPlan, Name;
  }

  // ----- Dokploy -----

  predicate Installed(m: Machine) {
    m.docker.present && (m.docker.service.Some? || m.docker.container)
  }

  predicate Busy(m: Machine) {
    80 in m.ports || 443 in m.ports || 3000 in m.ports || (m.docker.present && m.docker.swarm)
  }

  predicate Unhealthy(m: Machine) {
    !m.docker.swarm || !m.docker.network || 80 !in m.ports || 443 !in m.ports
  }

  /** Dokploy is wanted, and either its ports or a swarm are in its way or it is installed and unhealthy. */
  predicate DokployBlocks(m: Machine, cfg: Config) {
    cfg.dokployEnabled && if Installed(m) then Unhealthy(m) else Busy(m)
  }

  /**
   When Dokploy blocks the plan, is installed or is updated; nothing else is ever planned for it. A planned
   installation is not refused by the check at apply time.
   */
  lemma DokployPlanned(env: Environment, m: Machine, cfg: Config)
    ensures var plan := DefaultPlan(env, m, cfg);
            && (Change("dokploy", Dangerous, Blocked, "") in plan <==> DokployBlocks(m, cfg))
            && (Change("dokploy", Create, InstallDokploy, cfg.dokployVersion) in plan <==>
                  cfg.dokployEnabled && !Installed(m) && !Busy(m))
            && (Change("dokploy", Dangerous, UpdateDokploy, cfg.dokployVersion) in plan <==>
                  && cfg.dokployEnabled && Installed(m) && !Unhealthy(m)
                  && DokployVersion(m.docker).Some? && DokployVersion(m.docker).value != cfg.dokployVersion)
    ensures forall c | c in DefaultPlan(env, m, cfg) && c.owner == "dokploy" ::
              || c == Change("dokploy", Dangerous, Blocked, "")
              || (c == Change("dokploy", Create, InstallDokploy, cfg.dokployVersion)
                  && !DokployModule.InstallRefused(m))
              || c == Change("dokploy", Dangerous, UpdateDokploy, cfg.dokployVersion)
  {
    hide DefaultPlan, DokployVersion;
    forall c: Change | c.owner == "dokploy"
      ensures c in DefaultPlan(env, m, cfg) <==> c in ModulePlan(Dokploy, env, m, cfg)
    {
      Owned(env, m, cfg, Dokploy, c);
    }
    PortsSeen(m);
  }

  lemma PortsSeen(m: Machine)
    ensures DokployModule.Occupied(DokployModule.Inspect(m)) <==> 80 in m.ports || 443 in m.ports || 3000 in m.ports
  {
    if x :| x in {80, 443, 3000} * m.ports {
      assert x == 80 || x == 443 || x == 3000;
    }
    assert 80 in m.ports ==> 80 in {80, 443, 3000} * m.ports;
    assert 443 in m.ports ==> 443 in {80, 443, 3000} * m.ports;
    assert 3000 in m.ports ==> 3000 in {80, 443, 3000} * m.ports;
  }

  /** The check at apply time: an occupied port, or a swarm without Dokploy. */
  lemma RefusedExactly(m: Machine)
    ensures DokployModule.InstallRefused(m) <==>
              || 80 in m.ports || 443 in m.ports || 3000 in m.ports
              || (m.docker.present && m.docker.swarm && !Installed(m))
  {
    PortsSeen(m);
    hide DokployModule.Occupied;
  }

  // ----- host -----

  const BASE: set<string> := {"ca-certificates", "curl", "git", "jq", "python3", "iproute2"}

  lemma BaseListed()
    ensures forall p :: p in HostModule.BASE_PACKAGES <==> p in BASE
  {
  }

  predicate SupportedSystem(m: Machine) {
    var (id, version) := HostModule.Release(ReadText(m, OsRelease));
    (id == "debian" && version == "12") || (id == "ubuntu" && version == "24.04")
  }

  function ReportedZone(env: Environment, m: Machine): string {
    if env.timedatectlShows && m.timezone != "" then m.timezone
    else match ReadText(m, EtcTimezone)
      case None => ""
      case Some(text) => Strip(text)
  }

  /** What is planned for the host: the refusal, the missing base packages in one change, and the time zone. */
  lemma HostPlanned(env: Environment, m: Machine, cfg: Config)
    ensures var plan := DefaultPlan(env, m, cfg);
            && (Change("host", Dangerous, UnsupportedHost, "") in plan <==> !SupportedSystem(m))
            && (Change("host", Update, SetTimezone, cfg.timezone) in plan <==>
                  SupportedSystem(m) && ReportedZone(env, m) != cfg.timezone)
            && ((exists c :: c in plan && c.owner == "host" && c.action.InstallPackages?) <==>
                  SupportedSystem(m) && exists p :: p in BASE && !PackageInstalled(m, p))
    ensures forall c | c in DefaultPlan(env, m, cfg) && c.owner == "host" ::
              || c == Change("host", Dangerous, UnsupportedHost, "")
              || c == Change("host", Update, SetTimezone, cfg.timezone)
              || (c.kind == Create && c.action.InstallPackages?
                  && forall p :: p in Split(c.target, ',') <==> p in BASE && !PackageInstalled(m, p))
  {
    hide DefaultPlan, HostModule.Release, Split, Join, Strip, HostModule.BASE_PACKAGES, BASE;
    forall c: Change | c.owner == "host"
      ensures c in DefaultPlan(env, m, cfg) <==> c in ModulePlan(HostBase, env, m, cfg)
    {
      Owned(env, m, cfg, HostBase, c);
    }
    BaseListed();
    var plan, missing := ModulePlan(HostBase, env, m, cfg), MissingBase(env, m);
    BasePlan(env, m, cfg);
    hide ModulePlan;
    if missing != [] {
      MissingReadBack(env, m);
      assert missing[0] in missing;
    }
  }

  function MissingBase(env: Environment, m: Machine): seq<string> {
    HostModule.Missing(HostModule.BASE_PACKAGES, HostModule.Inspect(env, m).installed)
  }

  lemma BasePlan(env: Environment, m: Machine, cfg: Config)
    ensures var plan, missing := ModulePlan(HostBase, env, m, cfg), MissingBase(env, m);
            && (forall p :: p in missing <==> p in HostModule.BASE_PACKAGES && !PackageInstalled(m, p))
            && plan == if !SupportedSystem(m) then [Change("host", Dangerous, UnsupportedHost, "")]
                       else (if missing != []
                             then [Change("host", Create, InstallPackages, Join(missing, ","))] else [])
                            + (if ReportedZone(env, m) != cfg.timezone
                               then [Change("host", Update, SetTimezone, cfg.timezone)] else [])
  {
    hide HostModule.Release, Split, Join, Strip, HostModule.BASE_PACKAGES, HostModule.Missing;
  }

  lemma MissingReadBack(env: Environment, m: Machine)
    requires MissingBase(env, m) != []
    ensures Split(Join(MissingBase(env, m), ","), ',') == MissingBase(env, m)
  {
    hide HostModule.Release, Split, Join, Strip;
    BaseNamesHaveNoComma();
    SplitJoin(MissingBase(env, m), ',');
  }

  // ----- security -----

  predicate HasPackage(m: Machine, p: string) {
    p in m.packages && m.packages[p].ok
  }

  predicate Holds(m: Machine, p: Path, text: string) {
    p in m.files && m.files[p] == Raw(text)
  }

  predicate Runs(env: Environment, m: Machine, s: string) {
    env.systemctlPresent && s in m.services
  }

  predicate UpdatesSetUp(env: Environment, m: Machine) {
    && HasPackage(m, "unattended-upgrades") && HasPackage(m, "apt-listchanges")
    && Holds(m, AutoUpgrades, env.policy.autoUpgrades) && Holds(m, UnattendedLocal, env.policy.unattendedLocal)
    && Runs(env, m, "unattended-upgrades")
  }

  ghost predicate BanSetUp(env: Environment, m: Machine) {
    && HasPackage(m, "fail2ban") && Runs(env, m, "fail2ban")
    && ReadText(m, Fail2banJail) == Some(Fail2banConfig(env.policy, SshPorts(env, m)))
  }

  ghost predicate FirewallSetUp(env: Environment, m: Machine) {
    && HasPackage(m, "ufw") && m.ufw.active && "80/tcp" in m.ufw.rules && "443/tcp" in m.ufw.rules
    && forall p | p in SshPorts(env, m) :: Decimal(p) + "/tcp" in m.ufw.rules
  }

  ghost predicate SshSetUp(env: Environment, m: Machine) {
    && Holds(m, SshdManaged, env.policy.hardening)
    && forall key | key in env.policy.effective ::
         && env.sshdPresent
         && var settings := env.sshdReport(ReadText(m, SshdManaged), ReadText(m, SshdLegacy)).settings;
            key in settings && settings[key] == env.policy.effective[key]
  }

  /** Each security feature is planned exactly when it is wanted and not set up; nothing else is. */
  lemma SecurityPlanned(env: Environment, m: Machine, cfg: Config)
    ensures var plan := DefaultPlan(env, m, cfg);
            && (Change("security", Update, ConfigureUnattended, "") in plan <==>
                  cfg.unattendedUpgrades && !UpdatesSetUp(env, m))
            && (Change("security", Update, ConfigureFail2ban, "") in plan <==> cfg.fail2ban && !BanSetUp(env, m))
            && (Change("security", if HasPackage(m, "ufw") && m.ufw.active then Update else Dangerous,
                       ConfigureFirewall, "") in plan <==>
                  cfg.firewall && !FirewallSetUp(env, m))
            && (Change("security", Dangerous, ConfigureSsh, "") in plan <==> cfg.sshHardening && !SshSetUp(env, m))
    ensures forall c | c in DefaultPlan(env, m, cfg) && c.owner == "security" ::
              || c == Change("security", Update, ConfigureUnattended, "")
              || c == Change("security", Update, ConfigureFail2ban, "")
              || c == Change("security", if HasPackage(m, "ufw") && m.ufw.active then Update else Dangerous,
                             ConfigureFirewall, "")
              || c == Change("security", Dangerous, ConfigureSsh, "")
  {
    FeaturesRead(env, m);
    assert FirewallActive(m) <==> HasPackage(m, "ufw") && m.ufw.active;
    hide FirewallActive, HasPackage, DefaultPlan, UpdatesSetUp, BanSetUp, FirewallSetUp, SshSetUp;
    hide UnattendedReady, Fail2banReady, FirewallReady, SshHardeningReady, SshPorts, ModulePlan;
    forall c: Change | c.owner == "security"
      ensures c in DefaultPlan(env, m, cfg) <==> c in ModulePlan(Security, env, m, cfg)
    {
      Owned(env, m, cfg, Security, c);
    }
    SecurityIs(env, m, cfg);
  }

  lemma SecurityIs(env: Environment, m: Machine, cfg: Config)
    ensures var plan := ModulePlan(Security, env, m, cfg);
            var kind := if FirewallActive(m) then Update else Dangerous;
            && (Change("security", Update, ConfigureUnattended, "") in plan <==>
                  cfg.unattendedUpgrades && !UnattendedReady(env, m))
            && (Change("security", Update, ConfigureFail2ban, "") in plan <==> cfg.fail2ban && !Fail2banReady(env, m))
            && (Change("security", kind, ConfigureFirewall, "") in plan <==> cfg.firewall && !FirewallReady(env, m))
            && (Change("security", Dangerous, ConfigureSsh, "") in plan <==>
                  cfg.sshHardening && !SshHardeningReady(env, m))
            && forall c | c in plan ::
                 || c == Change("security", Update, ConfigureUnattended, "")
                 || c == Change("security", Update, ConfigureFail2ban, "")
                 || c == Change("security", kind, ConfigureFirewall, "")
                 || c == Change("security", Dangerous, ConfigureSsh, "")
  {
    hide UnattendedReady, Fail2banReady, FirewallReady, SshHardeningReady, FirewallActive, SshPorts;
    var kind := if FirewallActive(m) then Update else Dangerous;
    FourParts(Change("security", Update, ConfigureUnattended, ""), cfg.unattendedUpgrades && !UnattendedReady(env, m),
              Change("security", Update, ConfigureFail2ban, ""), cfg.fail2ban && !Fail2banReady(env, m),
              Change("security", kind, ConfigureFirewall, ""), cfg.firewall && !FirewallReady(env, m),
              Change("security", Dangerous, ConfigureSsh, ""), cfg.sshHardening && !SshHardeningReady(env, m));
  }

  function If(b: bool, c: Change): Plan {
    if b then [c] else []
  }

  /** A plan of four optional changes that differ in their action holds each exactly under its own condition. */
  lemma FourParts(a: Change, ifA: bool, b: Change, ifB: bool, c: Change, ifC: bool, d: Change, ifD: bool)
    requires a.action != b.action && a.action != c.action && a.action != d.action
    requires b.action != c.action && b.action != d.action && c.action != d.action
    ensures var plan := If(ifA, a) + If(ifB, b) + If(ifC, c) + If(ifD, d);
            && (a in plan <==> ifA) && (b in plan <==> ifB) && (c in plan <==> ifC) && (d in plan <==> ifD)
            && forall x | x in plan :: x == a || x == b || x == c || x == d
  {
  }

  lemma FeaturesRead(env: Environment, m: Machine)
    ensures UnattendedReady(env, m) <==> UpdatesSetUp(env, m)
    ensures Fail2banReady(env, m) <==> BanSetUp(env, m)
    ensures FirewallReady(env, m) <==> FirewallSetUp(env, m)
    ensures SshHardeningReady(env, m) <==> SshSetUp(env, m)
  {
    hide Fail2banConfig, PortsUnder, RequiredRules, Decimal;
    RulesRead(SshPorts(env, m), m.ufw.rules);
  }

  lemma RulesRead(ports: set<Port>, rules: set<string>)
    ensures RequiredRules(ports) <= rules <==>
              "80/tcp" in rules && "443/tcp" in rules && forall p | p in ports :: Decimal(p) + "/tcp" in rules
  {
    hide Decimal;
    WebIsRequired(ports);
    forall p | p in ports ensures Decimal(p) + "/tcp" in RequiredRules(ports) {
      PortRuleListed(ports, p);
    }
    forall rule | rule in RequiredRules(ports) && rule != "80/tcp" && rule != "443/tcp"
      ensures exists p :: p in ports && rule == Decimal(p) + "/tcp"
    {
      OnlyPortRules(ports, rule);
    }
    hide RequiredRules;
  }

  // ----- monitoring and DNS -----

  /** The running services that `docker compose ps` shows. */
  predicate Seen(m: Machine, s: string) {
    ComposeFile in m.files && m.docker.present && m.docker.compose && s in m.running
  }

  /** A service is wanted without the bundle, or without compose and without an installation to bring it. */
  predicate MonitoringBlocks(m: Machine, cfg: Config) {
    && (cfg.uptimeKuma || cfg.beszel)
    && (ComposeFile !in m.files || if m.docker.present then !m.docker.compose else !cfg.dokployEnabled)
  }

  /** The plan for a service, wanted or not: blocked, started, stopped, or left alone. */
  lemma MonitoringPlanned(env: Environment, m: Machine, cfg: Config, s: string, wanted: bool)
    requires (s == "uptime-kuma" && wanted == cfg.uptimeKuma) || (s == "beszel" && wanted == cfg.beszel)
    ensures var plan := DefaultPlan(env, m, cfg);
            && (Change("monitoring", Dangerous, Blocked, "") in plan <==> MonitoringBlocks(m, cfg))
            && (Change("monitoring", Create, StartService, s) in plan <==>
                  !MonitoringBlocks(m, cfg) && wanted && !Seen(m, s))
            && (Change("monitoring", Update, StopService, s) in plan <==>
                  !MonitoringBlocks(m, cfg) && !wanted && Seen(m, s))
    ensures forall c | c in DefaultPlan(env, m, cfg) && c.owner == "monitoring" ::
              || c == Change("monitoring", Dangerous, Blocked, "")
              || ((c.target == "uptime-kuma" || c.target == "beszel")
                  && (c == Change("monitoring", Create, StartService, c.target)
                      || c == Change("monitoring", Update, StopService, c.target)))
  {
    hide DefaultPlan;
    forall c: Change | c.owner == "monitoring"
      ensures c in DefaultPlan(env, m, cfg) <==> c in ModulePlan(Monitoring, env, m, cfg)
    {
      Owned(env, m, cfg, Monitoring, c);
    }
  }

  lemma DnsPlanned(env: Environment, m: Machine, cfg: Config)
    ensures Change("dns", Dangerous, Deferred, "") in DefaultPlan(env, m, cfg) <==> cfg.dnsEnabled
    ensures forall c | c in DefaultPlan(env, m, cfg) && c.owner == "dns" :: c == Change("dns", Dangerous, Deferred, "")
  {
    hide DefaultPlan;
    forall c: Change | c.owner == "dns" ensures c in DefaultPlan(env, m, cfg) <==> c in ModulePlan(Dns, env, m, cfg) {
      Owned(env, m, cfg, Dns, c);
    }
  }

  /** Every change belongs to one of the five modules, so the laws above describe the whole plan. */
  lemma NothingElsePlanned(env: Environment, m: Machine, cfg: Config)
    ensures forall c | c in DefaultPlan(env, m, cfg) ::
              c.owner in {"host", "security", "dokploy", "dns", "monitoring"} && c.kind != Noop
  {
    DefaultPlanSplits(env, m, cfg);
    NamesDiffer();
    hide ModulePlan, DefaultPlan, Name;
  }

  lemma HostNeverTerminal(env: Environment, m: Machine, cfg: Config)
    ensures forall c | c in DefaultPlan(env, m, cfg) && (c.owner == "host" || c.owner == "security") :: !Terminal(c)
  {
    HostPlanned(env, m, cfg);
    SecurityPlanned(env, m, cfg);
    hide DefaultPlan, UpdatesSetUp, BanSetUp, FirewallSetUp, SshSetUp, SupportedSystem, ReportedZone, BASE, Split;
  }

  /** When apply refuses the plan before anything runs. */
  lemma BlockedExactly(env: Environment, m: Machine, cfg: Config)
    ensures HasTerminal(DefaultPlan(env, m, cfg)) <==>
              || cfg.dnsEnabled || DokployBlocks(m, cfg) || MonitoringBlocks(m, cfg)
  {
    hide DefaultPlan, DokployBlocks, MonitoringBlocks, Seen, Installed, Busy, Unhealthy, DokployVersion;
    hide DokployModule.InstallRefused;
    HostNeverTerminal(env, m, cfg);
    DokployPlanned(env, m, cfg);
    DnsPlanned(env, m, cfg);
    MonitoringPlanned(env, m, cfg, "beszel", cfg.beszel);
    NothingElsePlanned(env, m, cfg);
  }

  lemma SupportedSame(env: Environment, m: Machine, cfg: Config)
    ensures HostModule.Supported(HostModule.Inspect(env, m)) <==> SupportedSystem(m)
    ensures !SupportedSystem(m) ==>
              OpensUnsupported(DEFAULT_MODULES, DefaultPlan(env, m, cfg)) && DefaultPlan(env, m, cfg) != []
  {
    hide HostModule.Release, CurrentTimezone, DefaultPlan;
    if !SupportedSystem(m) { UnsupportedRefused(env, m, cfg); }
  }

  /** The hidden services, read off the host. */
  lemma HiddenExactly(m: Machine, cfg: Config)
    ensures HiddenService(m, cfg) <==>
              && ComposeFile in m.files && m.docker.present && !m.docker.compose
              && ("uptime-kuma" in m.running || "beszel" in m.running)
              && cfg.dokployEnabled
              && (!Installed(m) || Unhealthy(m)
                  || (DokployVersion(m.docker).Some? && DokployVersion(m.docker).value != cfg.dokployVersion))
  {
    hide DokployVersion, DokployModule.Occupied;
  }

  /** Validation warns of an unknown version, of the admin port and of docker beside a managed firewall. */
  lemma WarnedExactly(env: Environment, m: Machine, cfg: Config)
    ensures Check("dokploy", Warn) in ModuleReport(Dokploy, env, m, cfg) <==>
              cfg.dokployEnabled && Installed(m) && (DokployVersion(m.docker).None? || 3000 in m.ports)
    ensures Check("security", Warn) in ModuleReport(Security, env, m, cfg) <==> cfg.firewall && m.docker.present
  {
    hide DokployVersion, UnattendedReady, Fail2banReady, FirewallReady, SshHardeningReady, SshPorts, FirewallActive;
  }
}
