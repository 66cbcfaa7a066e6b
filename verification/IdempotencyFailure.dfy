/** A run on a supported host after which the idempotency contract (README.md:60-69) does not hold. */
module IdempotencyFailure {

  import opened Text
  import opened Wrappers
  import opened Plans
  import opened Host
  import opened SecurityState
  import opened Progress
  import opened Modules
  import opened Convergence
  import HostModule
  import SecurityModule
  import DokployModule
  import MonitoringModule

  /** A supported host's os-release, as two assignments. */
  const DEBIAN := "ID" + "=" + "debian" + "\n" + ("VERSION_ID" + "=" + "\"12\"")

  lemma TwoLines(a: string, b: string)
    requires SingleLine(a) && SingleLine(b) && b != ""
    ensures Lines(a + "\n" + b) == [a, b]
  {
    hide Lines, FirstBreak;
    var s := a + "\n" + b;
    assert forall k | 0 <= k < |a| :: s[k] == a[k];
    assert s[|a|] == '\n';
    LinesAt(s, |a|);
    assert s[..|a|] == a && s[|a| + 1..] == b;
    WholeLine(b);
  }

  lemma WholeLine(s: string)
    requires s != "" && SingleLine(s)
    ensures Lines(s) == [s]
  {
    assert FirstBreak(s) == |s|;
  }

  lemma DebianIsRead()
    ensures HostModule.Release(Some(DEBIAN)) == ("debian", "12")
  {
    hide HostModule.WithField, Lines;
    var id, version := "ID" + "=" + "debian", "VERSION_ID" + "=" + "\"12\"";
    TwoLines(id, version);
    var fields: map<string, string> := map["ID" := "debian"];
    HostModule.AssignmentIsRead(map[], "ID", "debian");
    HostModule.AssignmentIsRead(fields, "VERSION_ID", "\"12\"");
    HostModule.QuotesGo("debian");
    HostModule.QuotesGo("12");
    HostModule.QuotesGo("12" + "\"");
    assert "\"" + ("12" + "\"") == "\"12\"";
    assert [id, version][..1] == [id];
    assert HostModule.ReleaseFields([id]) == fields;
    assert HostModule.ReleaseFields([id, version]) == fields["VERSION_ID" := "12"];
    assert Lower("debian") == "debian";
  }

  const WITNESS_CONFIG := Config("UTC", false, false, false, false, true, "v1", false, false, false)

  function WitnessEnvironment(): Environment {
    Environment(Policy("", "", "", "", "", map[]), false, true, true, (m, l) => true, (m, l) => SshdReport(map[], {}),
                None, "", "", true, s => None)
  }

  /** Debian 12 with the base packages, a docker without compose and a running monitoring service. */
  function WitnessHost(): Machine {
    Machine((map p | p in HostModule.BASE_PACKAGES :: Package("1", true)),
            map[OsRelease := Raw(DEBIAN), ComposeFile := Raw("")], {}, "UTC", Ufw(false, false, {}),
            Docker(true, false, None, false, false, false), {}, {UPTIME_KUMA})
  }

  /** The same host after the download, after the installer, and after the installer file is removed. */
  function Downloaded(m: Machine): Machine {
    m.(files := m.files[Installer := Script("v1")])
  }

  function Installed(m: Machine): Machine {
    m.(docker := Docker(true, true, Some("dokploy" + ":" + "v1"), false, true, true), ports := {80, 443})
  }

  lemma WitnessSupported()
    ensures HostModule.Supported(HostModule.Inspect(WitnessEnvironment(), WitnessHost()))
    ensures ModulePlan(HostBase, WitnessEnvironment(), WitnessHost(), WITNESS_CONFIG) == []
  {
    hide HostModule.Release, HostModule.BASE_PACKAGES;
    DebianIsRead();
    NothingMissing(HostModule.BASE_PACKAGES, HostModule.Inspect(WitnessEnvironment(), WitnessHost()).installed);
  }

  lemma WitnessOthers()
    ensures ModulePlan(Security, WitnessEnvironment(), WitnessHost(), WITNESS_CONFIG) == []
    ensures ModulePlan(Dns, WitnessEnvironment(), WitnessHost(), WITNESS_CONFIG) == []
  {
    hide SecurityModule.Inspect, WitnessHost, WitnessEnvironment;
  }

  lemma WitnessMonitoring()
    ensures ModulePlan(Monitoring, WitnessEnvironment(), WitnessHost(), WITNESS_CONFIG) == []
  {
    hide HostModule.BASE_PACKAGES, UPTIME_KUMA, BESZEL;
  }

  lemma WitnessDokploy()
    ensures ModulePlan(Dokploy, WitnessEnvironment(), WitnessHost(), WITNESS_CONFIG) ==
              [Change(DokployModule.NAME, Create, InstallDokploy, "v1")]
  {
    hide HostModule.BASE_PACKAGES, UPTIME_KUMA;
  }

  lemma WitnessPlan()
    ensures DefaultPlan(WitnessEnvironment(), WitnessHost(), WITNESS_CONFIG) ==
              [Change(DokployModule.NAME, Create, InstallDokploy, "v1")]
  {
    hide ModulePlan, DefaultPlan, WitnessHost, WitnessEnvironment;
    WitnessSupported();
    WitnessOthers();
    WitnessMonitoring();
    WitnessDokploy();
    DefaultPlanSplits(WitnessEnvironment(), WitnessHost(), WITNESS_CONFIG);
  }

  lemma WitnessDelivered()
    ensures DokployDelivered(Installed(WitnessHost()), "v1")
  {
    hide HostModule.BASE_PACKAGES, UPTIME_KUMA, ImageVersion;
    var name := "dokploy";
    assert Strip(name + ":" + "v1") != "" by { StripOfTrimmed(name + ":" + "v1"); }
    ImageTagIsRead(name, "v1", "");
    assert name + ":" + "v1" + "" == name + ":" + "v1";
  }

  lemma WitnessSteps()
    ensures var env, m := WitnessEnvironment(), WitnessHost();
            && Effect(env, DownloadInstaller("v1"), m, true, Downloaded(m))
            && Effect(env, RunInstaller(false), Downloaded(m), true, Installed(Downloaded(m)))
            && Installed(Downloaded(m)).(files := Downloaded(m).files - {Installer}) == Installed(m)
  {
    hide HostModule.BASE_PACKAGES, UPTIME_KUMA, ImageVersion, Strip;
    var m := WitnessHost();
    WitnessDelivered();
    assert DokployVersion(Installed(Downloaded(m)).docker) == Some("v1");
    assert Downloaded(m).files - {Installer} == m.files;
  }

  lemma WitnessProgress()
    ensures var env, m := WitnessEnvironment(), WitnessHost();
            && Progressed(env, WITNESS_CONFIG, DefaultPlan(env, m, WITNESS_CONFIG), m, Installed(m))
            && Batch(DefaultPlan(env, m, WITNESS_CONFIG), MonitoringModule.NAME) == []
            && Batch(DefaultPlan(env, m, WITNESS_CONFIG), DokployModule.NAME) != []
  {
    hide HostModule.BASE_PACKAGES, UPTIME_KUMA, ImageVersion, Strip, Progressed, DefaultPlan, DokployDelivered;
    var change := Change(DokployModule.NAME, Create, InstallDokploy, "v1");
    WitnessPlan();
    WitnessDelivered();
    DokployModule.DeliveryProgress(WitnessEnvironment(), WITNESS_CONFIG, change,
                                   WitnessHost(), Installed(WitnessHost()));
  }

  lemma WitnessHidden()
    ensures ValidConfig(WITNESS_CONFIG) && WellFormed(WitnessHost())
    ensures HardeningStable(WitnessEnvironment(), WitnessHost())
    ensures HiddenService(WitnessHost(), WITNESS_CONFIG) && !DokployModule.InstallRefused(WitnessHost())
    ensures !HasTerminal([Change(DokployModule.NAME, Create, InstallDokploy, "v1")])
  {
    hide HostModule.BASE_PACKAGES;
    WitnessDokploy();
  }

  /**
   The idempotency contract fails on a supported host. Every command of the run succeeds: the installer is downloaded,
   provides docker compose and a healthy Dokploy at the requested version, and its file is removed. The change that was
   planned is achieved, and yet the next plan is not empty.
   */
  lemma HiddenServiceFails() returns (env: Environment, cfg: Config, m: Machine, n: Machine)
    ensures ValidConfig(cfg) && WellFormed(m) && HardeningStable(env, m)
    ensures HostModule.Supported(HostModule.Inspect(env, m)) && HiddenService(m, cfg)
    ensures DefaultPlan(env, m, cfg) == [Change(DokployModule.NAME, Create, InstallDokploy, cfg.dokployVersion)]
    ensures !HasTerminal(DefaultPlan(env, m, cfg)) && !DokployModule.InstallRefused(m)
    ensures Effect(env, DownloadInstaller(cfg.dokployVersion), m, true, Downloaded(m))
    ensures Effect(env, RunInstaller(false), Downloaded(m), true, Installed(Downloaded(m)))
    ensures n == Installed(Downloaded(m)).(files := Downloaded(m).files - {Installer})
    ensures Progressed(env, cfg, DefaultPlan(env, m, cfg), m, n)
    ensures Batch(DefaultPlan(env, m, cfg), MonitoringModule.NAME) == [] && n.running == m.running
    ensures DokployHealthy(n) && DefaultPlan(env, n, cfg) != [] && !Healthy(DefaultReport(env, n, cfg))
  {
    env, cfg, m := WitnessEnvironment(), WITNESS_CONFIG, WitnessHost();
    n := Installed(m);
    WitnessSupported();
    WitnessPlan();
    WitnessDelivered();
    WitnessSteps();
    WitnessProgress();
    WitnessHidden();
    hide WitnessHost, WitnessEnvironment, HiddenService, Progressed, DefaultPlan, DefaultReport, WellFormed;
    hide HardeningStable;
    Converges(env, cfg, m, n);
  }
}
