/**
 How a run moves a host: every component either stays as it was or takes its desired value.

 `Evolves` is that relation, `Achieved` says that a planned change has been carried out, and the lemmas here show
 that later progress never undoes an achieved change.
 */
module Progress {

  import opened Text
  import opened Wrappers
  import opened Plans
  import opened Host
  import opened SecurityState

  const UPTIME_KUMA := "uptime-kuma"
  const BESZEL := "beszel"

  predicate MonitoredService(s: string) {
    s == UPTIME_KUMA || s == BESZEL
  }

  predicate Wanted(cfg: Config, s: string) {
    (s == UPTIME_KUMA && cfg.uptimeKuma) || (s == BESZEL && cfg.beszel)
  }

  /** The time zone the host reports: timedatectl first, then /etc/timezone. */
  function CurrentTimezone(env: Environment, m: Machine): string {
    var shown := if env.timedatectlShows then m.timezone else "";
    if shown != "" then shown
    else match ReadText(m, EtcTimezone)
      case None => ""
      case Some(text) => Strip(text)
  }

  predicate ComposeAvailable(m: Machine) {
    ComposeFile in m.files && m.docker.present && m.docker.compose
  }

  /** The running monitoring services a run can see. */
  function VisibleServices(m: Machine): set<string> {
    if ComposeAvailable(m) then m.running else {}
  }

  predicate DokployDelivered(m: Machine, version: string) {
    DokployHealthy(m) && m.docker.compose && DokployVersion(m.docker) == Some(version)
  }

  /** The change agrees with the configuration, as every change planned from it does. */
  predicate Conforms(cfg: Config, c: Change) {
    match c.action
    case SetTimezone => c.target == cfg.timezone
    case InstallDokploy => c.target == cfg.dokployVersion
    case UpdateDokploy => c.target == cfg.dokployVersion
    case StartService => MonitoredService(c.target) ==> Wanted(cfg, c.target)
    case StopService => MonitoredService(c.target) ==> !Wanted(cfg, c.target)
    case _ => true
  }

  /** The change has been carried out and still stands. */
  ghost predicate Achieved(env: Environment, c: Change, m: Machine) {
    match c.action
    case InstallPackages => forall p | p in Split(c.target, ',') && p != "" :: PackageInstalled(m, p)
    case SetTimezone => CurrentTimezone(env, m) == c.target
    case ConfigureUnattended => UnattendedReady(env, m)
    case ConfigureFail2ban => Fail2banReady(env, m)
    case ConfigureFirewall => FirewallReady(env, m)
    case ConfigureSsh => SshHardeningReady(env, m)
    case InstallDokploy => DokployDelivered(m, c.target)
    case UpdateDokploy => DokployDelivered(m, c.target)
    case StartService => MonitoredService(c.target) && ComposeAvailable(m) && c.target in m.running
    case StopService => MonitoredService(c.target) && ComposeAvailable(m) && c.target !in m.running
    case _ => false
  }

  ghost predicate PackagesKept(m: Machine, n: Machine) {
    forall p | p in m.packages && m.packages[p].ok :: PackageInstalled(n, p)
  }

  ghost predicate TimezoneProgress(cfg: Config, m: Machine, n: Machine) {
    || (n.timezone == m.timezone && ReadText(n, EtcTimezone) == ReadText(m, EtcTimezone))
    || (n.timezone == cfg.timezone && ReadText(n, EtcTimezone) == Some(cfg.timezone + "\n"))
  }

  ghost predicate SecurityProgress(env: Environment, m: Machine, n: Machine) {
    && (ReadText(n, AutoUpgrades) == ReadText(m, AutoUpgrades)
       || ReadText(n, AutoUpgrades) == Some(env.policy.autoUpgrades))
    && (ReadText(n, UnattendedLocal) == ReadText(m, UnattendedLocal)
        || ReadText(n, UnattendedLocal) == Some(env.policy.unattendedLocal))
    && SshPorts(env, n) == SshPorts(env, m)
    && (ReadText(n, Fail2banJail) == ReadText(m, Fail2banJail)
        || ReadText(n, Fail2banJail) == Some(Fail2banConfig(env.policy, SshPorts(env, n))))
    && ((Managed(n) == Managed(m) && Legacy(n) == Legacy(m))
        || (Managed(n) == Some(env.policy.hardening) && Legacy(n) == None && HardeningEffective(env, n)))
    && m.services <= n.services
    && m.ufw.rules <= n.ufw.rules
    && (m.ufw.active ==> n.ufw.active)
  }

  ghost predicate DokployProgress(cfg: Config, m: Machine, n: Machine) {
    || (n.docker == m.docker && n.ports == m.ports)
    || DokployDelivered(n, cfg.dokployVersion)
  }

  ghost predicate MonitoringProgress(cfg: Config, m: Machine, n: Machine) {
    forall s | MonitoredService(s) :: (s in n.running <==> s in m.running) || (s in n.running <==> Wanted(cfg, s))
  }

  /** Every component of the host stayed as it was or took its desired value. */
  ghost predicate Evolves(env: Environment, cfg: Config, m: Machine, n: Machine) {
    && PackagesKept(m, n)
    && ReadText(n, OsRelease) == ReadText(m, OsRelease)
    && (ComposeFile in n.files <==> ComposeFile in m.files)
    && TimezoneProgress(cfg, m, n)
    && SecurityProgress(env, m, n)
    && DokployProgress(cfg, m, n)
    && MonitoringProgress(cfg, m, n)
    && (HardeningStable(env, m) ==> HardeningStable(env, n))
  }

  /** Progress in everything but the files is progress. */
  lemma SameFilesProgress(env: Environment, cfg: Config, m: Machine, n: Machine)
    requires forall p: Path | p != Installer :: ReadText(n, p) == ReadText(m, p)
    requires ComposeFile in n.files <==> ComposeFile in m.files
    requires n.timezone == m.timezone && n.services == m.services && n.ufw == m.ufw
    requires PackagesKept(m, n) && DokployProgress(cfg, m, n) && MonitoringProgress(cfg, m, n)
    ensures Evolves(env, cfg, m, n)
  {
    hide PortsUnder, Fail2banConfig, EffectiveUnder, RequiredRules, PackagesKept, DokployProgress, MonitoringProgress;
    assert Managed(n) == Managed(m) && Legacy(n) == Legacy(m);
    assert ReadText(n, OsRelease) == ReadText(m, OsRelease) && ReadText(n, EtcTimezone) == ReadText(m, EtcTimezone);
    assert ReadText(n, AutoUpgrades) == ReadText(m, AutoUpgrades);
    assert ReadText(n, UnattendedLocal) == ReadText(m, UnattendedLocal);
    assert ReadText(n, Fail2banJail) == ReadText(m, Fail2banJail);
  }

  lemma EvolvesReflexive(env: Environment, cfg: Config, m: Machine)
    ensures Evolves(env, cfg, m, m)
  {
  }

  lemma EvolvesTransitive(env: Environment, cfg: Config, a: Machine, b: Machine, c: Machine)
    requires Evolves(env, cfg, a, b) && Evolves(env, cfg, b, c)
    ensures Evolves(env, cfg, a, c)
  {
  }

  lemma ConfiguredStays(env: Environment, m: Machine, n: Machine)
    requires PackagesKept(m, n) && SecurityProgress(env, m, n)
    ensures UnattendedReady(env, m) ==> UnattendedReady(env, n)
    ensures Fail2banReady(env, m) ==> Fail2banReady(env, n)
  {
  }

  lemma GuardStays(env: Environment, m: Machine, n: Machine)
    requires PackagesKept(m, n) && SecurityProgress(env, m, n)
    ensures FirewallReady(env, m) ==> FirewallReady(env, n)
    ensures SshHardeningReady(env, m) ==> SshHardeningReady(env, n)
  {
  }

  lemma DockerStays(env: Environment, cfg: Config, m: Machine, n: Machine)
    requires Evolves(env, cfg, m, n)
    ensures m.docker.compose ==> n.docker.compose
    ensures ComposeAvailable(m) ==> ComposeAvailable(n)
    ensures DokployHealthy(m) ==> DokployHealthy(n)
  {
  }

  lemma TimezoneStays(env: Environment, cfg: Config, m: Machine, n: Machine)
    requires ValidConfig(cfg) && TimezoneProgress(cfg, m, n)
    ensures CurrentTimezone(env, n) == CurrentTimezone(env, m) || CurrentTimezone(env, n) == cfg.timezone
  {
    StripLine(cfg.timezone);
    StripOfTrimmed(cfg.timezone);
  }

  /** No later progress undoes an achieved change. */
  lemma AchievedStays(env: Environment, cfg: Config, c: Change, m: Machine, n: Machine)
    requires ValidConfig(cfg) && Conforms(cfg, c)
    requires Evolves(env, cfg, m, n)
    requires Achieved(env, c, m)
    ensures Achieved(env, c, n)
  {
    ConfiguredStays(env, m, n);
    GuardStays(env, m, n);
    DockerStays(env, cfg, m, n);
    if c.action.SetTimezone? {
      TimezoneStays(env, cfg, m, n);
    }
  }

  /** What is assumed of sshd, for changes that harden it. */
  ghost predicate SshAssumed(env: Environment, changes: Plan, m: Machine) {
    (exists c :: c in changes && c.action.ConfigureSsh?) ==> HardeningStable(env, m)
  }

  /** Carrying out `d` may undo `c`. */
  predicate Opposes(c: Change, d: Change) {
    || (c.action.SetTimezone? && d.action.SetTimezone? && c.target != d.target)
    || (c.action.StartService? && d.action.StopService? && c.target == d.target)
    || (c.action.StopService? && d.action.StartService? && c.target == d.target)
  }

  /** No later change of the batch opposes change `i`. */
  predicate Lasts(changes: Plan, i: nat)
    requires i < |changes|
  {
    forall j | i < j < |changes| :: !Opposes(changes[i], changes[j])
  }

  /** Carrying out `changes` moved the host forward, whenever they were planned from the configuration. */
  ghost predicate Progressed(env: Environment, cfg: Config, changes: Plan, m: Machine, n: Machine) {
    ValidConfig(cfg) && SshAssumed(env, changes, m) && (forall c | c in changes :: Conforms(cfg, c)) ==>
      Evolves(env, cfg, m, n) && forall c | c in changes :: Achieved(env, c, n)
  }

  lemma NothingProgressed(env: Environment, cfg: Config, m: Machine)
    ensures Progressed(env, cfg, [], m, m)
  {
    EvolvesReflexive(env, cfg, m);
  }

  lemma ProgressAdds(env: Environment, cfg: Config, done: Plan, more: Plan, start: Machine, m: Machine, n: Machine)
    requires Progressed(env, cfg, done, start, m) && Progressed(env, cfg, more, m, n)
    ensures Progressed(env, cfg, done + more, start, n)
  {
    hide Evolves, Achieved, Conforms, HardeningStable;
    var all := done + more;
    if ValidConfig(cfg) && SshAssumed(env, all, start) && (forall c | c in all :: Conforms(cfg, c)) {
      assert forall c | c in done :: c in all;
      assert forall c | c in more :: c in all;
      if HardeningStable(env, start) { StableStays(env, cfg, start, m); }
      EvolvesTransitive(env, cfg, start, m, n);
      forall c | c in all ensures Achieved(env, c, n) {
        if c in done {
          AchievedStays(env, cfg, c, m, n);
        }
      }
    }
  }

  lemma StableStays(env: Environment, cfg: Config, m: Machine, n: Machine)
    requires Evolves(env, cfg, m, n) && HardeningStable(env, m)
    ensures HardeningStable(env, n)
  {
  }

  /**
   What every step of a run keeps, measured against the host the run started from: firewall rules are only added
   and only required ones, a guarded firewall stays guarded, enabling follows all allows, sshd is reloaded only on a
   valid and effective configuration, and compose is used only where it exists.
   */
  ghost predicate StepOk(env: Environment, start: Machine, step: Step) {
    && start.ufw.rules <= step.after.ufw.rules
    && (HardeningStable(env, start) ==>
          && (Guarded(SshPorts(env, start), start.ufw) ==> Guarded(SshPorts(env, start), step.after.ufw))
          && OnlyRequiredAdded(SshPorts(env, start), start.ufw, step.after.ufw)
          && (step.command.UfwEnable? ==> RequiredRules(SshPorts(env, start)) <= step.after.ufw.rules)
          && (step.command.SshReload? ==>
                env.sshdValid(Managed(step.after), Legacy(step.after)) && HardeningEffective(env, step.after)))
    && (step.command.ComposeUp? || step.command.ComposeStop? ==> ComposeAvailable(step.after))
  }

  /** The steps of `trace` from `n` on took the host from `start` to `end` and every one of them was in order. */
  ghost predicate Journal(env: Environment, start: Machine, trace: seq<Step>, n: nat, end: Machine) {
    && n <= |trace|
    && start.ufw.rules <= end.ufw.rules
    && (forall i | n <= i < |trace| :: StepOk(env, start, trace[i]))
    && (forall i | n <= i < |trace| :: trace[i].after.ufw.rules <= end.ufw.rules)
    && (forall i, j | n <= i < j < |trace| :: trace[i].after.ufw.rules <= trace[j].after.ufw.rules)
  }

  /** Steps that leave the firewall alone and neither reload sshd nor touch compose. */
  ghost predicate Quiet(ufw: Ufw, trace: seq<Step>, n: nat) {
    forall i | n <= i < |trace| ::
      && trace[i].after.ufw == ufw
      && !trace[i].command.UfwEnable? && !trace[i].command.SshReload?
      && !trace[i].command.ComposeUp? && !trace[i].command.ComposeStop?
  }

  lemma QuietStart(ufw: Ufw, trace: seq<Step>)
    ensures Quiet(ufw, trace, |trace|)
  {
  }

  lemma QuietJoin(ufw: Ufw, before: seq<Step>, trace: seq<Step>, n: nat)
    requires before <= trace && n <= |before|
    requires Quiet(ufw, before, n) && Quiet(ufw, trace, |before|)
    ensures Quiet(ufw, trace, n)
  {
    assert forall i | n <= i < |before| :: trace[i] == before[i];
  }

  lemma QuietJournal(env: Environment, start: Machine, trace: seq<Step>, n: nat, end: Machine)
    requires n <= |trace| && Quiet(start.ufw, trace, n) && end.ufw == start.ufw
    ensures Journal(env, start, trace, n, end)
  {
  }

  /** Without docker there is no compose and nothing runs. */
  predicate WellFormed(m: Machine) {
    !m.docker.present ==> !m.docker.compose && m.running == {}
  }

  ghost predicate InstallerFailed(trace: seq<Step>, n: nat) {
    exists i :: n <= i < |trace| && trace[i].command.RunInstaller? && !trace[i].ok
  }

  lemma Untouched(files: set<Path>, m: Machine, n: Machine)
    requires n.files - files == m.files - files
    requires SshdManaged !in files && SshdLegacy !in files && ComposeFile !in files
    ensures Managed(n) == Managed(m) && Legacy(n) == Legacy(m)
    ensures ComposeFile in n.files <==> ComposeFile in m.files
  {
    assert forall p: Path | p !in files :: p in n.files <==> p in n.files - files;
    assert forall p: Path | p !in files :: p in m.files <==> p in m.files - files;
  }

  /** Docker, its ports and services, and the presence of the bundle are the same. */
  predicate SameServices(m: Machine, n: Machine) {
    && n.docker == m.docker && n.ports == m.ports && n.running == m.running
    && (ComposeFile in n.files <==> ComposeFile in m.files)
  }

  /**
   Whatever the outcome, the host keeps what a later run relies on, unless the installer itself failed: without compose
   at the end, nothing about the services has changed.
   */
  ghost predicate Retryable(env: Environment, start: Machine, trace: seq<Step>, n: nat, end: Machine) {
    && (HardeningStable(env, start) ==> HardeningStable(env, end))
    && (!InstallerFailed(trace, n) ==>
          && (WellFormed(start) ==> WellFormed(end))
          && (end.docker.compose || SameServices(start, end)))
  }

  lemma RetryableBySameParts(env: Environment, start: Machine, trace: seq<Step>, n: nat, end: Machine)
    requires Managed(end) == Managed(start) && Legacy(end) == Legacy(start)
    requires SameServices(start, end)
    ensures Retryable(env, start, trace, n, end)
  {
  }

  lemma RetryableJoin(env: Environment, start: Machine, before: seq<Step>, n: nat, mid: Machine, trace: seq<Step>,
                      end: Machine)
    requires before <= trace && n <= |before|
    requires Retryable(env, start, before, n, mid) && Retryable(env, mid, trace, |before|, end)
    ensures Retryable(env, start, trace, n, end)
  {
    hide HardeningStable, WellFormed;
    if InstallerFailed(before, n) {
      var i :| n <= i < |before| && before[i].command.RunInstaller? && !before[i].ok;
      assert trace[i] == before[i];
    }
    if InstallerFailed(trace, |before|) {
      var i :| |before| <= i < |trace| && trace[i].command.RunInstaller? && !trace[i].ok;
      assert InstallerFailed(trace, n);
    }
  }

  /** `CommandError` is raised exactly when a command of the run failed. */
  ghost predicate Told(r: Outcome, trace: seq<Step>, n: nat) {
    r == Failed(CommandError) <==> SomeFailed(trace, n)
  }

  lemma ToldNothing(r: Outcome, trace: seq<Step>)
    requires r != Failed(CommandError)
    ensures Told(r, trace, |trace|)
  {
  }

  lemma ToldJoin(r: Outcome, before: seq<Step>, trace: seq<Step>, n: nat)
    requires before <= trace && n <= |before|
    requires Told(Done, before, n) && Told(r, trace, |before|)
    ensures Told(r, trace, n)
  {
    forall i | n <= i < |before| ensures trace[i].ok {
      assert before[i].ok;
    }
  }

  /** What the next module can rely on about the firewall and SSH. */
  ghost predicate Carried(env: Environment, start: Machine, m: Machine) {
    && start.ufw.rules <= m.ufw.rules
    && (HardeningStable(env, start) ==>
          && HardeningStable(env, m)
          && SshPorts(env, m) == SshPorts(env, start)
          && (Guarded(SshPorts(env, start), start.ufw) ==> Guarded(SshPorts(env, start), m.ufw))
          && OnlyRequiredAdded(SshPorts(env, start), start.ufw, m.ufw))
  }

  lemma CarriedBySameFiles(env: Environment, start: Machine, m: Machine)
    requires m.ufw == start.ufw && Managed(m) == Managed(start) && Legacy(m) == Legacy(start)
    ensures Carried(env, start, m)
  {
  }

  lemma CarriedTransitive(env: Environment, a: Machine, b: Machine, c: Machine)
    requires Carried(env, a, b) && Carried(env, b, c)
    ensures Carried(env, a, c)
  {
  }

  lemma StepOkFrom(env: Environment, start: Machine, mid: Machine, step: Step)
    requires Carried(env, start, mid) && StepOk(env, mid, step)
    ensures StepOk(env, start, step)
  {
  }

  lemma JournalJoin(env: Environment, start: Machine, before: seq<Step>, n: nat, mid: Machine, trace: seq<Step>,
                    end: Machine)
    requires Journal(env, start, before, n, mid) && Carried(env, start, mid)
    requires before <= trace && Journal(env, mid, trace, |before|, end)
    ensures Journal(env, start, trace, n, end)
  {
    forall i | n <= i < |trace| ensures StepOk(env, start, trace[i]) {
      if i < |before| {
        assert trace[i] == before[i];
      } else {
        StepOkFrom(env, start, mid, trace[i]);
      }
    }
    forall i, j | n <= i < j < |trace| ensures trace[i].after.ufw.rules <= trace[j].after.ufw.rules {
      if j < |before| {
        assert trace[i] == before[i] && trace[j] == before[j];
      } else if i < |before| {
        assert trace[i] == before[i];
        assert StepOk(env, mid, trace[j]);
      }
    }
    forall i | n <= i < |trace| ensures trace[i].after.ufw.rules <= end.ufw.rules {
      if i < |before| {
        assert trace[i] == before[i];
      }
    }
  }
}
