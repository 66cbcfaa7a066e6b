/** Host hardening (server_setup/modules/security.py). */
module SecurityModule {

  import opened Text
  import opened Wrappers
  import opened Plans
  import opened Host
  import opened SecurityState
  import opened Progress
  import HostModule

  const NAME := "security"

  datatype Desired = Desired(unattendedUpgrades: bool, fail2ban: bool, firewall: bool, sshHardening: bool)

  datatype State = State(
    unattendedReady: bool,
    fail2banReady: bool,
    firewallReady: bool,
    firewallActive: bool,
    sshHardeningReady: bool,
    sshPorts: set<Port>)

  function Inspect(env: Environment, m: Machine): State {
    State(UnattendedReady(env, m), Fail2banReady(env, m), FirewallReady(env, m), FirewallActive(m),
          SshHardeningReady(env, m), SshPorts(env, m))
  }

  function DesiredState(cfg: Config): Desired {
    Desired(cfg.unattendedUpgrades, cfg.fail2ban, cfg.firewall, cfg.sshHardening)
  }

  function Plan(current: State, desired: Desired): (plan: Plan)
    ensures forall c | c in plan :: c.owner == NAME && c.kind != Noop
  {
    (if desired.unattendedUpgrades && !current.unattendedReady
     then [Change(NAME, Update, ConfigureUnattended, "")] else [])
    + (if desired.fail2ban && !current.fail2banReady
       then [Change(NAME, Update, ConfigureFail2ban, "")] else [])
    + (if desired.firewall && !current.firewallReady
       then [Change(NAME, if current.firewallActive then Update else Dangerous, ConfigureFirewall, "")] else [])
    + (if desired.sshHardening && !current.sshHardeningReady
       then [Change(NAME, Dangerous, ConfigureSsh, "")] else [])
  }

  function CheckFeature(managed: bool, ready: bool): Check {
    Check(NAME, if !managed then Skip else if ready then Pass else Fail)
  }

  function Validate(env: Environment, m: Machine, desired: Desired): (r: Report)
    ensures forall c | c in r :: c.owner == NAME
  {
    var current := Inspect(env, m);
    [CheckFeature(desired.unattendedUpgrades, current.unattendedReady),
     CheckFeature(desired.fail2ban, current.fail2banReady),
     CheckFeature(desired.firewall, current.firewallReady),
     CheckFeature(desired.sshHardening, current.sshHardeningReady)]
    + (if desired.firewall && m.docker.present then [Check(NAME, Warn)] else [])
  }

  /** Only packages, services and the named files differ. */
  predicate Touches(files: set<Path>, m: Machine, n: Machine) {
    && n == m.(packages := n.packages, services := n.services, files := n.files)
    && n.files - files == m.files - files
  }

  lemma UntouchedFile(files: set<Path>, m: Machine, n: Machine, p: Path)
    requires n.files - files == m.files - files && p !in files
    ensures ReadText(n, p) == ReadText(m, p)
    ensures p in n.files <==> p in m.files
  {
    assert p in n.files <==> p in n.files - files;
    assert p in m.files <==> p in m.files - files;
  }

  function InstalledSet(m: Machine, packages: seq<string>): set<string> {
    set p | p in packages && PackageInstalled(m, p)
  }

  /** The commands that install what is missing. */
  function PackageCommands(m: Machine, packages: seq<string>): seq<Command> {
    var missing := HostModule.Missing(packages, InstalledSet(m, packages));
    if missing == [] then [] else [AptUpdate, AptInstall(missing)]
  }

  /** `_ensure_packages`. */
  method EnsurePackages(sys: System, packages: seq<string>) returns (r: Outcome)
    modifies sys
    ensures old(sys.trace) <= sys.trace
    ensures Told(r, sys.trace, |old(sys.trace)|)
    ensures r.Failed? ==> r.error == CommandError
    ensures Quiet(old(sys.host).ufw, sys.trace, |old(sys.trace)|)
    ensures sys.host == old(sys.host).(packages := sys.host.packages)
    ensures r.Done? ==> PackagesKept(old(sys.host), sys.host)
    ensures r.Done? ==> forall p | p in packages :: PackageInstalled(sys.host, p)
    ensures Issued(sys.trace, |old(sys.trace)|, PackageCommands(old(sys.host), packages), r.Done?)
  {
    r := Done;
    var missing := HostModule.Missing(packages, InstalledSet(sys.host, packages));
    if missing == [] {
      return;
    }
    var ok := sys.Run(AptUpdate);
    if !ok { return Failed(CommandError); }
    ok := sys.Run(AptInstall(missing));
    if !ok { return Failed(CommandError); }
    forall p | p !in missing
      ensures p in sys.host.packages <==> p in old(sys.host).packages
      ensures p in sys.host.packages ==> sys.host.packages[p] == old(sys.host).packages[p]
    {
      UnnamedUnchanged(Names(missing), old(sys.host).packages, sys.host.packages, p);
    }
  }

  /** Writes both files of unattended upgrades and enables the service. */
  method ConfigureUpdates(sys: System) returns (r: Outcome)
    modifies sys
    ensures old(sys.trace) <= sys.trace
    ensures Told(r, sys.trace, |old(sys.trace)|)
    ensures r.Failed? ==> r.error == CommandError
    ensures Quiet(old(sys.host).ufw, sys.trace, |old(sys.trace)|)
    ensures Touches({AutoUpgrades, UnattendedLocal}, old(sys.host), sys.host)
    ensures sys.host.packages == old(sys.host).packages
    ensures r.Done? ==>
              && old(sys.host).services + {UNATTENDED_UPGRADES} <= sys.host.services && sys.env.systemctlPresent
              && ReadText(sys.host, AutoUpgrades) == Some(sys.env.policy.autoUpgrades)
              && ReadText(sys.host, UnattendedLocal) == Some(sys.env.policy.unattendedLocal)
    ensures Issued(sys.trace, |old(sys.trace)|,
                   [WriteFile(AutoUpgrades), WriteFile(UnattendedLocal), ServiceEnableNow("unattended-upgrades")], true)
  {
    assert UNATTENDED_UPGRADES == "unattended-upgrades";
    hide UNATTENDED_UPGRADES;
    sys.WriteText(AutoUpgrades, Raw(sys.env.policy.autoUpgrades));
    sys.WriteText(UnattendedLocal, Raw(sys.env.policy.unattendedLocal));
    var ok := sys.Run(ServiceEnableNow(UNATTENDED_UPGRADES));
    r := if ok then Done else Failed(CommandError);
  }

  /** Enables a service and restarts it. */
  method StartAfresh(sys: System, service: string) returns (r: Outcome)
    modifies sys
    ensures old(sys.trace) <= sys.trace
    ensures Told(r, sys.trace, |old(sys.trace)|)
    ensures r.Failed? ==> r.error == CommandError
    ensures Quiet(old(sys.host).ufw, sys.trace, |old(sys.trace)|)
    ensures sys.host == old(sys.host).(services := sys.host.services)
    ensures r.Done? ==> sys.env.systemctlPresent && sys.host.services == old(sys.host).services + {service}
    ensures Issued(sys.trace, |old(sys.trace)|, [ServiceEnableNow(service), ServiceRestart(service)], r.Done?)
  {
    var ok := sys.Run(ServiceEnableNow(service));
    if !ok { return Failed(CommandError); }
    ok := sys.Run(ServiceRestart(service));
    r := if ok then Done else Failed(CommandError);
  }

  /** Writes the jail for the ports detected now, enables the service and restarts it. */
  method ConfigureJail(sys: System) returns (r: Outcome)
    modifies sys
    ensures old(sys.trace) <= sys.trace
    ensures Told(r, sys.trace, |old(sys.trace)|)
    ensures r.Failed? ==> r.error == CommandError
    ensures Quiet(old(sys.host).ufw, sys.trace, |old(sys.trace)|)
    ensures Touches({Fail2banJail}, old(sys.host), sys.host)
    ensures sys.host.packages == old(sys.host).packages
    ensures r.Done? ==>
              && old(sys.host).services + {FAIL2BAN} <= sys.host.services && sys.env.systemctlPresent
              && ReadText(sys.host, Fail2banJail) ==
                   Some(Fail2banConfig(sys.env.policy, SshPorts(sys.env, old(sys.host))))
    ensures Issued(sys.trace, |old(sys.trace)|,
                   [WriteFile(Fail2banJail)] + [ServiceEnableNow(FAIL2BAN), ServiceRestart(FAIL2BAN)], r.Done?)
  {
    hide Fail2banConfig, PortsUnder, FAIL2BAN, Told, Quiet;
    ghost var n := |sys.trace|;
    var text := Fail2banConfig(sys.env.policy, SshPorts(sys.env, sys.host));
    sys.WriteText(Fail2banJail, Raw(text));
    ghost var before := sys.trace;
    WriteOnly(old(sys.host).ufw, before, n);
    r := StartAfresh(sys, FAIL2BAN);
    IssuedJoin(before, n, sys.trace, [WriteFile(Fail2banJail)], [ServiceEnableNow(FAIL2BAN), ServiceRestart(FAIL2BAN)],
               r.Done?);
    ToldJoin(r, before, sys.trace, n);
    QuietJoin(old(sys.host).ufw, before, sys.trace, n);
  }

  /** One written file is a quiet step that did not fail. */
  lemma WriteOnly(ufw: Ufw, trace: seq<Step>, n: nat)
    requires |trace| == n + 1 && trace[n].command.WriteFile? && trace[n].ok && trace[n].after.ufw == ufw
    ensures Quiet(ufw, trace, n) && Told(Done, trace, n) && Issued(trace, n, [trace[n].command], true)
  {
  }

  method SetUpUnattended(sys: System) returns (r: Outcome)
    modifies sys
    ensures old(sys.trace) <= sys.trace
    ensures Told(r, sys.trace, |old(sys.trace)|)
    ensures r.Failed? ==> r.error == CommandError
    ensures Quiet(old(sys.host).ufw, sys.trace, |old(sys.trace)|)
    ensures Touches({AutoUpgrades, UnattendedLocal}, old(sys.host), sys.host)
    ensures r.Done? ==> PackagesKept(old(sys.host), sys.host) && old(sys.host).services <= sys.host.services
    ensures r.Done? ==> UnattendedReady(sys.env, sys.host)
    ensures r.Done? ==>
              Issued(sys.trace, |old(sys.trace)|,
                     PackageCommands(old(sys.host), ["unattended-upgrades", "apt-listchanges"])
                     + [WriteFile(AutoUpgrades), WriteFile(UnattendedLocal), ServiceEnableNow("unattended-upgrades")],
                     true)
  {
    ghost var packages := PackageCommands(sys.host, ["unattended-upgrades", "apt-listchanges"]);
    assert UNATTENDED_UPGRADES == "unattended-upgrades" && APT_LISTCHANGES == "apt-listchanges";
    hide UNATTENDED_UPGRADES, APT_LISTCHANGES, PackageCommands, Issued, Told, Quiet, PackagesKept;
    r := EnsurePackages(sys, [UNATTENDED_UPGRADES, APT_LISTCHANGES]);
    if r.Failed? { return; }
    assert PackageInstalled(sys.host, UNATTENDED_UPGRADES) && PackageInstalled(sys.host, APT_LISTCHANGES);
    ghost var before := sys.trace;
    r := ConfigureUpdates(sys);
    IssuedJoin(before, |old(sys.trace)|, sys.trace, packages,
               [WriteFile(AutoUpgrades), WriteFile(UnattendedLocal), ServiceEnableNow("unattended-upgrades")], true);
    ToldJoin(r, before, sys.trace, |old(sys.trace)|);
    QuietJoin(old(sys.host).ufw, before, sys.trace, |old(sys.trace)|);
  }

  method SetUpFail2ban(sys: System) returns (r: Outcome)
    modifies sys
    ensures old(sys.trace) <= sys.trace
    ensures Told(r, sys.trace, |old(sys.trace)|)
    ensures r.Failed? ==> r.error == CommandError
    ensures Quiet(old(sys.host).ufw, sys.trace, |old(sys.trace)|)
    ensures Touches({Fail2banJail}, old(sys.host), sys.host)
    ensures r.Done? ==> PackagesKept(old(sys.host), sys.host) && old(sys.host).services <= sys.host.services
    ensures r.Done? ==> Fail2banReady(sys.env, sys.host)
    ensures r.Done? ==>
              && ReadText(sys.host, Fail2banJail).Some?
              && JailsPorts(sys.env.policy, SshPorts(sys.env, sys.host), ReadText(sys.host, Fail2banJail).value)
    ensures r.Done? ==>
              Issued(sys.trace, |old(sys.trace)|,
                     PackageCommands(old(sys.host), [FAIL2BAN])
                     + [WriteFile(Fail2banJail), ServiceEnableNow(FAIL2BAN), ServiceRestart(FAIL2BAN)], true)
  {
    ghost var packages := PackageCommands(sys.host, [FAIL2BAN]);
    hide Fail2banConfig, SshPorts, FAIL2BAN, JailsPorts, PackageCommands, Issued, Told, Quiet, PackagesKept;
    hide Touches, Fail2banReady;
    r := EnsurePackages(sys, [FAIL2BAN]);
    TouchesItself(old(sys.host), sys.host);
    if r.Failed? { return; }
    assert PackageInstalled(sys.host, FAIL2BAN);
    ghost var before, m := sys.trace, sys.host;
    r := ConfigureJail(sys);
    IssuedJoin(before, |old(sys.trace)|, sys.trace, packages,
               [WriteFile(Fail2banJail)] + [ServiceEnableNow(FAIL2BAN), ServiceRestart(FAIL2BAN)], r.Done?);
    assert [WriteFile(Fail2banJail)] + [ServiceEnableNow(FAIL2BAN), ServiceRestart(FAIL2BAN)] ==
             [WriteFile(Fail2banJail), ServiceEnableNow(FAIL2BAN), ServiceRestart(FAIL2BAN)];
    ToldJoin(r, before, sys.trace, |old(sys.trace)|);
    QuietJoin(old(sys.host).ufw, before, sys.trace, |old(sys.trace)|);
    if r.Done? { JailStands(sys.env, old(sys.host), m, sys.host); }
    TouchesOnly(old(sys.host), m, sys.host);
  }

  /** The jail was written for the ports that are detected at the end. */
  lemma JailStands(env: Environment, start: Machine, m: Machine, n: Machine)
    requires m == start.(packages := m.packages) && PackagesKept(start, m) && PackageInstalled(m, FAIL2BAN)
    requires Touches({Fail2banJail}, m, n) && n.packages == m.packages
    requires m.services + {FAIL2BAN} <= n.services && env.systemctlPresent
    requires ReadText(n, Fail2banJail) == Some(Fail2banConfig(env.policy, SshPorts(env, m)))
    ensures Fail2banReady(env, n) && PackagesKept(start, n) && start.services <= n.services
    ensures JailsPorts(env.policy, SshPorts(env, n), ReadText(n, Fail2banJail).value)
  {
    hide PortsUnder, Fail2banConfig, JailsPorts;
    UntouchedFile({Fail2banJail}, m, n, SshdManaged);
    UntouchedFile({Fail2banJail}, m, n, SshdLegacy);
    JailNamesPorts(env.policy, SshPorts(env, n));
  }

  lemma TouchesItself(m: Machine, n: Machine)
    requires n == m.(packages := n.packages)
    ensures Touches({Fail2banJail}, m, n)
  {
  }

  lemma TouchesOnly(start: Machine, m: Machine, n: Machine)
    requires m == start.(packages := m.packages) && Touches({Fail2banJail}, m, n)
    ensures Touches({Fail2banJail}, start, n)
  {
  }

  /** Some step from `n` on leaves the host locked out. */
  ghost predicate LocksOut(ports: set<Port>, trace: seq<Step>, n: nat) {
    exists i :: n <= i < |trace| && LockedOut(ports, trace[i].after.ufw)
  }

  /** Enabling comes after every allow, and a firewall that let SSH and web traffic through never stops doing so. */
  ghost predicate FirewallSafe(ports: set<Port>, start: Ufw, trace: seq<Step>, n: nat) {
    forall i | n <= i < |trace| ::
      && (trace[i].command.UfwEnable? ==> RequiredRules(ports) <= trace[i].after.ufw.rules)
      && (Guarded(ports, start) ==> Guarded(ports, trace[i].after.ufw))
      && start.rules <= trace[i].after.ufw.rules
      && OnlyRequiredAdded(ports, start, trace[i].after.ufw)
  }

  /**
   What holds between the first and the last firewall command: the rules grew, nothing was enabled, and a step is
   locked out exactly when the firewall was active with a required rule missing.
   */
  ghost predicate Adding(env: Environment, start: Machine, trace: seq<Step>, n: nat, m: Machine) {
    && n < |trace|
    && m == start.(packages := m.packages, ufw := m.ufw)
    && m.ufw.active == start.ufw.active
    && m.ufw.denyIncoming
    && OnlyRequiredAdded(SshPorts(env, start), start.ufw, m.ufw)
    && Journal(env, start, trace, n, m)
    && FirewallSafe(SshPorts(env, start), start.ufw, trace, n)
    && (LocksOut(SshPorts(env, start), trace, n) <==>
          start.ufw.active && !(RequiredRules(SshPorts(env, start)) <= start.ufw.rules))
  }

  lemma AddStep(env: Environment, start: Machine, trace: seq<Step>, n: nat, m: Machine, step: Step)
    requires Adding(env, start, trace, n, m)
    requires !step.command.UfwEnable? && !step.command.SshReload? && !step.command.ComposeUp?
             && !step.command.ComposeStop?
    requires step.after == m.(ufw := step.after.ufw)
    requires step.after.ufw.active == m.ufw.active && step.after.ufw.denyIncoming && m.ufw.rules <= step.after.ufw.rules
    requires OnlyRequiredAdded(SshPorts(env, start), start.ufw, step.after.ufw)
    ensures Adding(env, start, trace + [step], n, step.after)
  {
    hide PortsUnder, RequiredRules, HardeningStable, HardeningEffective;
    var ports := SshPorts(env, start);
    var longer := trace + [step];
    assert forall i | n <= i < |trace| :: longer[i] == trace[i];
    assert longer[|trace|] == step;
    if LocksOut(ports, trace, n) {
      var i :| n <= i < |trace| && LockedOut(ports, trace[i].after.ufw);
      assert LockedOut(ports, longer[i].after.ufw);
    }
  }

  function AllowCommands(rules: seq<string>): (r: seq<Command>)
    ensures |r| == |rules| && forall i | 0 <= i < |rules| :: r[i] == UfwAllow(rules[i])
  {
    seq(|rules|, i requires 0 <= i < |rules| => UfwAllow(rules[i]))
  }

  /** The commands that set the firewall up on `m`. */
  function FirewallCommands(env: Environment, m: Machine): seq<Command> {
    PackageCommands(m, ["ufw"]) + [UfwDefaultDeny, UfwDefaultAllowOutgoing]
    + AllowCommands(RuleList(SshPorts(env, m))) + [if m.ufw.active then UfwReload else UfwEnable]
  }

  /** `ufw allow` for each rule in turn. */
  method AllowRules(sys: System, rules: seq<string>, ghost start: Machine, ghost n: nat) returns (r: Outcome)
    requires Adding(sys.env, start, sys.trace, n, sys.host)
    requires forall rule | rule in rules :: rule in RequiredRules(SshPorts(sys.env, start))
    modifies sys
    ensures old(sys.trace) <= sys.trace
    ensures Told(r, sys.trace, |old(sys.trace)|)
    ensures r.Failed? ==> r.error == CommandError
    ensures Adding(sys.env, start, sys.trace, n, sys.host)
    ensures sys.host.packages == old(sys.host).packages
    ensures r.Done? ==> forall k | 0 <= k < |rules| :: rules[k] in sys.host.ufw.rules
    ensures r.Done? ==> Issued(sys.trace, |old(sys.trace)|, AllowCommands(rules), true)
  {
    hide PortsUnder, RequiredRules, Journal, LocksOut, FirewallSafe;
    for i := 0 to |rules|
      invariant old(sys.trace) <= sys.trace
      invariant Adding(sys.env, start, sys.trace, n, sys.host)
      invariant sys.host.packages == old(sys.host).packages
      invariant forall k | 0 <= k < i :: rules[k] in sys.host.ufw.rules
      invariant forall k | |old(sys.trace)| <= k < |sys.trace| :: sys.trace[k].ok
      invariant |sys.trace| == |old(sys.trace)| + i
      invariant forall k | 0 <= k < i :: sys.trace[|old(sys.trace)| + k].command == UfwAllow(rules[k])
    {
      ghost var before, m := sys.trace, sys.host;
      var ok := sys.Run(UfwAllow(rules[i]));
      AddStep(sys.env, start, before, n, m, sys.trace[|before|]);
      if !ok { return Failed(CommandError); }
    }
    return Done;
  }

  /** Deny incoming and allow outgoing traffic by default. */
  method SetDefaults(sys: System, ghost start: Machine, ghost n: nat) returns (r: Outcome)
    requires n <= |sys.trace| && Quiet(start.ufw, sys.trace, n)
    requires sys.host == start.(packages := sys.host.packages)
    modifies sys
    ensures old(sys.trace) <= sys.trace
    ensures Told(r, sys.trace, |old(sys.trace)|)
    ensures r.Failed? ==> r.error == CommandError
    ensures sys.host == old(sys.host).(ufw := sys.host.ufw)
    ensures Journal(sys.env, start, sys.trace, n, sys.host)
    ensures FirewallSafe(SshPorts(sys.env, start), start.ufw, sys.trace, n)
    ensures OnlyRequiredAdded(SshPorts(sys.env, start), start.ufw, sys.host.ufw)
    ensures r.Done? ==> Adding(sys.env, start, sys.trace, n, sys.host)
    ensures r.Done? ==> Issued(sys.trace, |old(sys.trace)|, [UfwDefaultDeny, UfwDefaultAllowOutgoing], true)
  {
    hide PortsUnder, RequiredRules, Journal, LocksOut, Quiet, FirewallSafe;
    ghost var before, m := sys.trace, sys.host;
    var ok := sys.Run(UfwDefaultDeny);
    DenyStep(sys.env, start, before, n, m, sys.trace[|before|]);
    if !ok { return Failed(CommandError); }
    before, m := sys.trace, sys.host;
    ok := sys.Run(UfwDefaultAllowOutgoing);
    AddStep(sys.env, start, before, n, m, sys.trace[|before|]);
    if !ok { return Failed(CommandError); }
    return Done;
  }

  /** Reload an active firewall, enable an inactive one. */
  method Activate(sys: System, ghost start: Machine, ghost n: nat) returns (r: Outcome)
    requires Adding(sys.env, start, sys.trace, n, sys.host)
    requires RequiredRules(SshPorts(sys.env, start)) <= sys.host.ufw.rules
    modifies sys
    ensures old(sys.trace) <= sys.trace
    ensures Told(r, sys.trace, |old(sys.trace)|)
    ensures r.Failed? ==> r.error == CommandError
    ensures sys.host == old(sys.host).(ufw := sys.host.ufw)
    ensures sys.host.ufw.rules == old(sys.host).ufw.rules
    ensures OnlyRequiredAdded(SshPorts(sys.env, start), start.ufw, sys.host.ufw)
    ensures Journal(sys.env, start, sys.trace, n, sys.host)
    ensures FirewallSafe(SshPorts(sys.env, start), start.ufw, sys.trace, n)
    ensures r.Done? ==> sys.host.ufw.active
    ensures Issued(sys.trace, |old(sys.trace)|, [if start.ufw.active then UfwReload else UfwEnable], true)
    ensures LocksOut(SshPorts(sys.env, start), sys.trace, n) <==>
              start.ufw.active && !(RequiredRules(SshPorts(sys.env, start)) <= start.ufw.rules)
  {
    hide PortsUnder, RequiredRules, Journal, LocksOut, FirewallSafe;
    ghost var before, m := sys.trace, sys.host;
    var ok;
    if sys.host.ufw.active {
      ok := sys.Run(UfwReload);
      AddStep(sys.env, start, before, n, m, sys.trace[|before|]);
    } else {
      ok := sys.Run(UfwEnable);
      EnableStep(sys.env, start, before, n, m, sys.trace[|before|]);
    }
    return if ok then Done else Failed(CommandError);
  }

  /** Deny by default, allow every required rule, then activate. */
  method PutUpFirewall(sys: System) returns (r: Outcome)
    modifies sys
    ensures old(sys.trace) <= sys.trace
    ensures Told(r, sys.trace, |old(sys.trace)|)
    ensures r.Failed? ==> r.error == CommandError
    ensures sys.host == old(sys.host).(packages := sys.host.packages, ufw := sys.host.ufw)
    ensures Journal(sys.env, old(sys.host), sys.trace, |old(sys.trace)|, sys.host)
    ensures FirewallSafe(SshPorts(sys.env, old(sys.host)), old(sys.host).ufw, sys.trace, |old(sys.trace)|)
    ensures OnlyRequiredAdded(SshPorts(sys.env, old(sys.host)), old(sys.host).ufw, sys.host.ufw)
    ensures r.Done? ==> PackagesKept(old(sys.host), sys.host) && FirewallReady(sys.env, sys.host)
    ensures r.Done? ==>
              (LocksOut(SshPorts(sys.env, old(sys.host)), sys.trace, |old(sys.trace)|) <==>
                 old(sys.host).ufw.active
                 && !(RequiredRules(SshPorts(sys.env, old(sys.host))) <= old(sys.host).ufw.rules))
    ensures r.Done? ==> Issued(sys.trace, |old(sys.trace)|, FirewallCommands(sys.env, old(sys.host)), true)
  {
    hide PortsUnder, RequiredRules, RuleList, Journal, Quiet, LocksOut, FirewallSafe, Issued, PackageCommands;
    hide AllowCommands;
    ghost var start := sys.host;
    ghost var n := |sys.trace|;
    r := EnsurePackages(sys, ["ufw"]);
    QuietJournal(sys.env, start, sys.trace, n, sys.host);
    QuietIsSafe(SshPorts(sys.env, start), start.ufw, sys.trace, n);
    if r.Failed? { return; }
    assert PackageInstalled(sys.host, "ufw");
    ghost var before, planned := sys.trace, PackageCommands(start, ["ufw"]);
    r := SetDefaults(sys, start, n);
    if r.Failed? { return; }
    IssuedJoin(before, n, sys.trace, planned, [UfwDefaultDeny, UfwDefaultAllowOutgoing], true);
    before, planned := sys.trace, planned + [UfwDefaultDeny, UfwDefaultAllowOutgoing];
    assert Adding(sys.env, start, sys.trace, n, sys.host);
    AllRequired(SshPorts(sys.env, start));
    r := AllowRules(sys, RuleList(SshPorts(sys.env, sys.host)), start, n);
    if r.Failed? { return; }
    AllAllowed(SshPorts(sys.env, start), sys.host.ufw.rules);
    ghost var allows := AllowCommands(RuleList(SshPorts(sys.env, start)));
    IssuedJoin(before, n, sys.trace, planned, allows, true);
    before, planned := sys.trace, planned + allows;
    r := Activate(sys, start, n);
    IssuedJoin(before, n, sys.trace, planned, [if start.ufw.active then UfwReload else UfwEnable], true);
  }

  /**
   `_configure_firewall`. On success SSH, 80 and 443 are allowed; UFW is enabled only once they are, and no other rule
   is ever added. A completed run locks SSH or web traffic out exactly when UFW was active with a required rule missing.
   */
  method SetUpFirewall(sys: System) returns (r: Outcome)
    modifies sys
    ensures old(sys.trace) <= sys.trace
    ensures Told(r, sys.trace, |old(sys.trace)|)
    ensures r.Failed? ==> r.error == CommandError
    ensures sys.host == old(sys.host).(packages := sys.host.packages, ufw := sys.host.ufw)
    ensures Journal(sys.env, old(sys.host), sys.trace, |old(sys.trace)|, sys.host)
    ensures FirewallSafe(SshPorts(sys.env, old(sys.host)), old(sys.host).ufw, sys.trace, |old(sys.trace)|)
    ensures OnlyRequiredAdded(SshPorts(sys.env, old(sys.host)), old(sys.host).ufw, sys.host.ufw)
    ensures r.Done? ==> PackagesKept(old(sys.host), sys.host) && FirewallReady(sys.env, sys.host)
    ensures r.Done? ==> sys.host.ufw.active && "80/tcp" in sys.host.ufw.rules && "443/tcp" in sys.host.ufw.rules
    ensures r.Done? ==> forall p | p in SshPorts(sys.env, sys.host) :: Allows(sys.host.ufw.rules, p)
    ensures forall i, p | |old(sys.trace)| <= i < |sys.trace| && sys.trace[i].command.UfwEnable?
                          && p in SshPorts(sys.env, old(sys.host)) :: Allows(sys.trace[i].after.ufw.rules, p)
    ensures forall rule | rule in sys.host.ufw.rules && rule !in old(sys.host).ufw.rules ::
              rule == "80/tcp" || rule == "443/tcp" || NamesOne(SshPorts(sys.env, old(sys.host)), rule)
    ensures r.Done? ==>
              (LocksOut(SshPorts(sys.env, old(sys.host)), sys.trace, |old(sys.trace)|) <==>
                 old(sys.host).ufw.active
                 && !(RequiredRules(SshPorts(sys.env, old(sys.host))) <= old(sys.host).ufw.rules))
    ensures r.Done? ==> Issued(sys.trace, |old(sys.trace)|, FirewallCommands(sys.env, old(sys.host)), true)
  {
    hide PortsUnder, RequiredRules, Journal, LocksOut, Allows, NamesOne, PackagesKept, Issued, FirewallCommands;
    ghost var ports, start, n := SshPorts(sys.env, sys.host), sys.host, |sys.trace|;
    r := PutUpFirewall(sys);
    RequiredMeans(ports, start.ufw, sys.host.ufw);
    RequiredMeans(SshPorts(sys.env, sys.host), start.ufw, sys.host.ufw);
    forall i | n <= i < |sys.trace| && sys.trace[i].command.UfwEnable?
      ensures forall p | p in ports :: Allows(sys.trace[i].after.ufw.rules, p)
    {
      RequiredMeans(ports, start.ufw, sys.trace[i].after.ufw);
    }
  }

  lemma AllRequired(ports: set<Port>)
    ensures forall rule | rule in RuleList(ports) :: rule in RequiredRules(ports)
  {
    hide RuleList;
  }

  lemma QuietIsSafe(ports: set<Port>, start: Ufw, trace: seq<Step>, n: nat)
    requires Quiet(start, trace, n)
    ensures FirewallSafe(ports, start, trace, n)
  {
    hide RequiredRules;
  }

  lemma AllAllowed(ports: set<Port>, rules: set<string>)
    requires forall k | 0 <= k < |RuleList(ports)| :: RuleList(ports)[k] in rules
    ensures RequiredRules(ports) <= rules
  {
    hide RuleList;
  }

  lemma DenyStep(env: Environment, start: Machine, trace: seq<Step>, n: nat, m: Machine, step: Step)
    requires n <= |trace| && Quiet(start.ufw, trace, n)
    requires m == start.(packages := m.packages)
    requires step.command.UfwDefaultDeny? && Atomic(m, step.ok, step.after, m.(ufw := m.ufw.(denyIncoming := true)))
    ensures Journal(env, start, trace + [step], n, step.after)
    ensures FirewallSafe(SshPorts(env, start), start.ufw, trace + [step], n)
    ensures step.ok ==> Adding(env, start, trace + [step], n, step.after)
  {
    hide PortsUnder, RequiredRules, HardeningStable, HardeningEffective;
    var ports := SshPorts(env, start);
    var longer := trace + [step];
    assert forall i | n <= i < |trace| :: longer[i] == trace[i];
    assert longer[|trace|] == step;
    if step.ok && LockedOut(ports, step.after.ufw) {
      assert LockedOut(ports, longer[|trace|].after.ufw);
    }
  }

  lemma EnableStep(env: Environment, start: Machine, trace: seq<Step>, n: nat, m: Machine, step: Step)
    requires Adding(env, start, trace, n, m) && !m.ufw.active
    requires RequiredRules(SshPorts(env, start)) <= m.ufw.rules
    requires step.command.UfwEnable? && Atomic(m, step.ok, step.after, m.(ufw := m.ufw.(active := true)))
    ensures Journal(env, start, trace + [step], n, step.after)
    ensures FirewallSafe(SshPorts(env, start), start.ufw, trace + [step], n)
    ensures !LocksOut(SshPorts(env, start), trace + [step], n)
  {
    hide PortsUnder, RequiredRules, HardeningStable, HardeningEffective;
    var longer := trace + [step];
    assert forall i | n <= i < |trace| :: longer[i] == trace[i];
    assert longer[|trace|] == step;
  }

  /** `_ssh_user_home`. */
  function PasswdHome(lines: seq<string>, user: string): Option<string> {
    if lines == [] then None
    else
      var fields := Split(lines[0], ':');
      if |fields| >= 6 && fields[0] == user then Some(fields[5]) else PasswdHome(lines[1..], user)
  }

  function SshUser(env: Environment): string {
    if env.sudoUser != "" then env.sudoUser else if env.user != "" then env.user else "root"
  }

  function SshUserHome(env: Environment, m: Machine): string {
    if SshUser(env) == "root" then "/root"
    else match PasswdHome(Lines(match ReadText(m, Passwd) case Some(text) => text case None => ""), SshUser(env))
      case Some(home) => home
      case None => "/home/" + SshUser(env)
  }

  /** `_ensure_ssh_key_safety`: no session, or a session of a non-root user that holds an authorized key. */
  predicate KeySafe(env: Environment, m: Machine) {
    env.session.Some? ==>
      && SshUser(env) != "root"
      && match ReadText(m, AuthorizedKeys(SshUserHome(env, m)))
         case Some(text) => Strip(text) != ""
         case None => false
  }

  /** The home directory of the first passwd line for the user that has at least six fields. */
  lemma {:induction false} HomeIsFirst(lines: seq<string>, user: string)
    ensures PasswdHome(lines, user).None? <==> forall i | 0 <= i < |lines| :: !NamesHome(lines[i], user)
    ensures forall i | && 0 <= i < |lines| && NamesHome(lines[i], user)
                       && (forall k | 0 <= k < i :: !NamesHome(lines[k], user)) ::
              PasswdHome(lines, user) == Some(Split(lines[i], ':')[5])
  {
    hide Split;
    if lines != [] {
      var rest := lines[1..];
      HomeIsFirst(rest, user);
      assert forall i | 0 < i < |lines| :: lines[i] == rest[i - 1];
      forall i | 0 < i < |lines| && NamesHome(lines[i], user) && (forall k | 0 <= k < i :: !NamesHome(lines[k], user))
        ensures PasswdHome(lines, user) == Some(Split(lines[i], ':')[5])
      {
        assert !NamesHome(lines[0], user);
        assert NamesHome(rest[i - 1], user);
        forall k | 0 <= k < i - 1 ensures !NamesHome(rest[k], user) {
          assert rest[k] == lines[k + 1];
        }
      }
    }
  }

  predicate NamesHome(line: string, user: string) {
    var fields := Split(line, ':');
    |fields| >= 6 && fields[0] == user
  }

  /** `user` is not root and some text other than space is authorized in its home. */
  predicate HoldsKey(m: Machine, user: string) {
    var lines := Lines(match ReadText(m, Passwd) case Some(text) => text case None => "");
    var home := match PasswdHome(lines, user) case Some(home) => home case None => "/home/" + user;
    && user != "root"
    && AuthorizedKeys(home) in m.files && m.files[AuthorizedKeys(home)].Raw?
    && !Blank(m.files[AuthorizedKeys(home)].text)
  }

  /**
   Whose key makes hardening safe: outside an SSH session nobody's; inside one that of the user who called sudo, or
   else of the user, and never root's.
   */
  lemma KeySafeExactly(env: Environment, m: Machine)
    ensures KeySafe(env, m) <==>
              || env.session.None?
              || (if env.sudoUser != "" then HoldsKey(m, env.sudoUser) else env.user != "" && HoldsKey(m, env.user))
  {
    hide PasswdHome, Strip, Lines;
    var path := AuthorizedKeys(SshUserHome(env, m));
    if ReadText(m, path).Some? { StripBlank(ReadText(m, path).value); }
  }

  /** Everything that must hold for the hardening drop-in to be put into effect on `m`. */
  predicate Hardenable(env: Environment, m: Machine) {
    && KeySafe(env, m)
    && env.sshdPresent
    && env.sshdValid(Some(env.policy.hardening), Legacy(m))
    && EffectiveUnder(env, Some(env.policy.hardening), Legacy(m))
  }

  ghost predicate Reloads(trace: seq<Step>, n: nat) {
    exists i :: n <= i < |trace| && trace[i].command.SshReload?
  }

  /** Both drop-ins read as before and nothing else changed. */
  predicate Restored(m: Machine, n: Machine) {
    && Touches({SshdManaged}, m, n)
    && n.packages == m.packages && n.services == m.services
    && Managed(n) == Managed(m) && Legacy(n) == Legacy(m)
  }

  /** `_restore_ssh_hardening`. */
  method RestoreHardening(sys: System, oldContent: Option<string>)
    modifies sys
    ensures old(sys.trace) <= sys.trace && |sys.trace| == |old(sys.trace)| + 1
    ensures sys.trace[|old(sys.trace)|].after == sys.host && sys.trace[|old(sys.trace)|].ok
    ensures !sys.trace[|old(sys.trace)|].command.SshReload?
    ensures Quiet(old(sys.host).ufw, sys.trace, |old(sys.trace)|)
    ensures sys.host == old(sys.host).(files := sys.host.files)
    ensures sys.host.files - {SshdManaged} == old(sys.host).files - {SshdManaged}
    ensures Managed(sys.host) == oldContent && Legacy(sys.host) == Legacy(old(sys.host))
  {
    if oldContent.None? {
      sys.Remove(SshdManaged);
    } else {
      sys.WriteText(SshdManaged, Raw(oldContent.value));
    }
  }

  /**
   `_configure_ssh`: writes the drop-in, lets sshd judge it, and takes it back when sshd objects. The reload is
   issued exactly on hosts that can be hardened; on all others both drop-ins read as before.
   */
  method HardenSsh(sys: System) returns (r: Outcome)
    modifies sys
    ensures old(sys.trace) <= sys.trace
    ensures Told(r, sys.trace, |old(sys.trace)|)
    ensures Reloads(sys.trace, |old(sys.trace)|) <==> Hardenable(sys.env, old(sys.host))
    ensures !KeySafe(sys.env, old(sys.host)) || !sys.env.sshdPresent ==> sys.trace == old(sys.trace)
    ensures Reloads(sys.trace, |old(sys.trace)|) && sys.env.session.Some? ==>
              if sys.env.sudoUser != "" then HoldsKey(old(sys.host), sys.env.sudoUser)
              else sys.env.user != "" && HoldsKey(old(sys.host), sys.env.user)
    ensures !Hardenable(sys.env, old(sys.host)) ==> r == Failed(ModuleApplyError) && Restored(old(sys.host), sys.host)
    ensures Hardenable(sys.env, old(sys.host)) ==>
              && (r.Done? || r.error == CommandError)
              && Touches({SshdManaged, SshdLegacy}, old(sys.host), sys.host)
              && sys.host.packages == old(sys.host).packages && sys.host.services == old(sys.host).services
              && Managed(sys.host) == Some(sys.env.policy.hardening) && Legacy(sys.host) == None
              && sys.trace[|sys.trace| - 1].after == sys.host
              && Issued(sys.trace, |old(sys.trace)|, [WriteFile(SshdManaged), RemoveFile(SshdLegacy), SshReload], true)
    ensures forall i | |old(sys.trace)| <= i < |sys.trace| ::
              && sys.trace[i].after.ufw == old(sys.host).ufw
              && !sys.trace[i].command.UfwEnable?
              && !sys.trace[i].command.ComposeUp? && !sys.trace[i].command.ComposeStop?
              && (sys.trace[i].command.SshReload? ==> sys.trace[i].after == sys.host)
  {
    hide EffectiveUnder, KeySafe, HoldsKey;
    KeySafeExactly(sys.env, sys.host);
    if !KeySafe(sys.env, sys.host) || !sys.env.sshdPresent {
      return Failed(ModuleApplyError);
    }
    ghost var n := |sys.trace|;
    var oldContent := Managed(sys.host);
    sys.WriteText(SshdManaged, Raw(sys.env.policy.hardening));
    if !sys.env.sshdValid(Managed(sys.host), Legacy(sys.host)) || !HardeningEffective(sys.env, sys.host) {
      RestoreHardening(sys, oldContent);
      return Failed(ModuleApplyError);
    }
    sys.Remove(SshdLegacy);
    var ok := sys.Run(SshReload);
    assert sys.trace[n + 2].command.SshReload?;
    return if ok then Done else Failed(CommandError);
  }

  /** Writing the given managed files to their desired texts is progress. */
  lemma FileProgress(env: Environment, cfg: Config, files: set<Path>, m: Machine, n: Machine)
    requires files <= {AutoUpgrades, UnattendedLocal, Fail2banJail}
    requires Touches(files, m, n) && PackagesKept(m, n) && m.services <= n.services
    requires AutoUpgrades in files ==> ReadText(n, AutoUpgrades) == Some(env.policy.autoUpgrades)
    requires UnattendedLocal in files ==> ReadText(n, UnattendedLocal) == Some(env.policy.unattendedLocal)
    requires Fail2banJail in files ==> ReadText(n, Fail2banJail) == Some(Fail2banConfig(env.policy, SshPorts(env, n)))
    ensures Evolves(env, cfg, m, n) && Carried(env, m, n)
  {
    hide Fail2banConfig, PortsUnder, EffectiveUnder, PackagesKept, RequiredRules;
    forall p: Path | p !in files ensures ReadText(n, p) == ReadText(m, p) && (p in n.files <==> p in m.files) {
      UntouchedFile(files, m, n, p);
    }
    assert ReadText(n, SshdManaged) == ReadText(m, SshdManaged);
    assert ReadText(n, SshdLegacy) == ReadText(m, SshdLegacy);
    assert ReadText(n, EtcTimezone) == ReadText(m, EtcTimezone);
  }

  lemma FirewallProgress(env: Environment, cfg: Config, m: Machine, n: Machine)
    requires n == m.(packages := n.packages, ufw := n.ufw)
    requires PackagesKept(m, n) && m.ufw.rules <= n.ufw.rules && FirewallReady(env, n)
    requires OnlyRequiredAdded(SshPorts(env, m), m.ufw, n.ufw)
    ensures Evolves(env, cfg, m, n) && Carried(env, m, n)
  {
    hide Fail2banConfig, PortsUnder, EffectiveUnder, PackagesKept, RequiredRules;
  }

  lemma HardeningProgress(env: Environment, cfg: Config, m: Machine, n: Machine)
    requires HardeningStable(env, m) && Hardenable(env, m)
    requires Touches({SshdManaged, SshdLegacy}, m, n) && n.packages == m.packages && n.services == m.services
    requires Managed(n) == Some(env.policy.hardening) && Legacy(n) == None
    ensures Evolves(env, cfg, m, n) && Carried(env, m, n) && SshHardeningReady(env, n)
    ensures env.sshdValid(Managed(n), Legacy(n))
  {
    hide Fail2banConfig, PortsUnder, EffectiveUnder, KeySafe, RequiredRules;
    forall p: Path | p != SshdManaged && p != SshdLegacy
      ensures ReadText(n, p) == ReadText(m, p) && (p in n.files <==> p in m.files)
    {
      UntouchedFile({SshdManaged, SshdLegacy}, m, n, p);
    }
  }

  /** The steps of an SSH hardening are in order, whatever its outcome. */
  lemma HardeningJournal(env: Environment, m: Machine, trace: seq<Step>, n: nat, end: Machine)
    requires n <= |trace| && end.ufw == m.ufw
    requires Reloads(trace, n) ==> HardeningStable(env, m) ==>
               env.sshdValid(Managed(end), Legacy(end)) && HardeningEffective(env, end)
    requires forall i | n <= i < |trace| ::
               && trace[i].after.ufw == m.ufw
               && !trace[i].command.UfwEnable?
               && !trace[i].command.ComposeUp? && !trace[i].command.ComposeStop?
               && (trace[i].command.SshReload? ==> trace[i].after == end)
    ensures Journal(env, m, trace, n, end)
  {
    hide HardeningStable, EffectiveUnder, PortsUnder, RequiredRules;
  }

  /** The files the module may write. */
  const FILES: set<Path> := {AutoUpgrades, UnattendedLocal, Fail2banJail, SshdManaged, SshdLegacy}

  predicate Within(m: Machine, n: Machine) {
    && n == m.(packages := n.packages, services := n.services, files := n.files, ufw := n.ufw)
    && n.files - FILES == m.files - FILES
  }

  lemma TouchesWithin(files: set<Path>, m: Machine, n: Machine)
    requires Touches(files, m, n) && files <= FILES
    ensures Within(m, n)
  {
    forall p: Path | p !in FILES
      ensures p in n.files <==> p in m.files
      ensures p in n.files ==> n.files[p] == m.files[p]
    {
      assert p in n.files <==> p in n.files - files;
      assert p in m.files <==> p in m.files - files;
    }
    assert n.files - FILES == m.files - FILES;
  }

  lemma WithinTransitive(a: Machine, b: Machine, c: Machine)
    requires Within(a, b) && Within(b, c)
    ensures Within(a, c)
  {
  }

  /** A change that this module does not know, or that a host may not be ready for. */
  predicate MayRefuse(c: Change) {
    !c.action.ConfigureUnattended? && !c.action.ConfigureFail2ban? && !c.action.ConfigureFirewall?
  }

  predicate Refused(env: Environment, c: Change, m: Machine) {
    MayRefuse(c) && (c.action.ConfigureSsh? ==> !Hardenable(env, m))
  }

  method ApplyOne(sys: System, change: Change, ghost cfg: Config) returns (r: Outcome)
    modifies sys
    ensures old(sys.trace) <= sys.trace
    ensures Told(r, sys.trace, |old(sys.trace)|)
    ensures HardeningStable(sys.env, old(sys.host)) ==> HardeningStable(sys.env, sys.host)
    ensures r.Failed? && r.error != CommandError <==> Refused(sys.env, change, old(sys.host))
    ensures r.Done? && SshAssumed(sys.env, [change], old(sys.host)) ==> Achieved(sys.env, change, sys.host)
    ensures Within(old(sys.host), sys.host)
    ensures Journal(sys.env, old(sys.host), sys.trace, |old(sys.trace)|, sys.host)
    ensures r.Done? ==> Carried(sys.env, old(sys.host), sys.host)
    ensures r.Done? ==> Progressed(sys.env, cfg, [change], old(sys.host), sys.host)
  {
    hide Evolves, Carried, StepOk, Quiet, HardeningStable, Hardenable, UnattendedReady, PackagesKept;
    hide Fail2banConfig, PortsUnder, EffectiveUnder, RequiredRules, Reloads, LocksOut, Within, Told;
    ghost var start, n := sys.host, |sys.trace|;
    if change.action.ConfigureUnattended? {
      r := ApplyUnattended(sys, cfg);
    } else if change.action.ConfigureFail2ban? {
      r := ApplyFail2ban(sys, cfg);
    } else if change.action.ConfigureFirewall? {
      r := ApplyFirewall(sys, cfg);
    } else if change.action.ConfigureSsh? {
      r := ApplySsh(sys, cfg);
    } else {
      QuietStart(start.ufw, sys.trace);
      QuietJournal(sys.env, start, sys.trace, n, sys.host);
      SameWithin(start);
      ToldNothing(Failed(ModuleApplyError), sys.trace);
      return Failed(ModuleApplyError);
    }
  }

  lemma SameWithin(m: Machine)
    ensures Within(m, m)
  {
  }

  lemma StableBySameSsh(env: Environment, m: Machine, n: Machine)
    ensures Managed(n) == Managed(m) && Legacy(n) == Legacy(m) ==>
              (HardeningStable(env, m) <==> HardeningStable(env, n))
  {
  }

  lemma StableOnceHardened(env: Environment, n: Machine)
    ensures Managed(n) == Some(env.policy.hardening) && Legacy(n) == None ==> HardeningStable(env, n)
  {
  }

  lemma SshUntouched(env: Environment, files: set<Path>, m: Machine, n: Machine)
    requires Touches(files, m, n) && SshdManaged !in files && SshdLegacy !in files
    ensures HardeningStable(env, m) <==> HardeningStable(env, n)
  {
    hide HardeningStable;
    UntouchedFile(files, m, n, SshdManaged);
    UntouchedFile(files, m, n, SshdLegacy);
    StableBySameSsh(env, m, n);
  }

  method ApplyUnattended(sys: System, ghost cfg: Config) returns (r: Outcome)
    modifies sys
    ensures Told(r, sys.trace, |old(sys.trace)|)
    ensures HardeningStable(sys.env, old(sys.host)) ==> HardeningStable(sys.env, sys.host)
    ensures r.Failed? ==> r.error == CommandError
    ensures old(sys.trace) <= sys.trace && Within(old(sys.host), sys.host)
    ensures Journal(sys.env, old(sys.host), sys.trace, |old(sys.trace)|, sys.host)
    ensures r.Done? ==> Carried(sys.env, old(sys.host), sys.host)
    ensures r.Done? ==> Evolves(sys.env, cfg, old(sys.host), sys.host) && UnattendedReady(sys.env, sys.host)
  {
    hide Evolves, Carried, Journal, Quiet, Within, PackagesKept, Fail2banConfig, PortsUnder;
    r := SetUpUnattended(sys);
    TouchesWithin({AutoUpgrades, UnattendedLocal}, old(sys.host), sys.host);
    SshUntouched(sys.env, {AutoUpgrades, UnattendedLocal}, old(sys.host), sys.host);
    QuietJournal(sys.env, old(sys.host), sys.trace, |old(sys.trace)|, sys.host);
    if r.Done? {
      FileProgress(sys.env, cfg, {AutoUpgrades, UnattendedLocal}, old(sys.host), sys.host);
    }
  }

  method ApplyFail2ban(sys: System, ghost cfg: Config) returns (r: Outcome)
    modifies sys
    ensures Told(r, sys.trace, |old(sys.trace)|)
    ensures HardeningStable(sys.env, old(sys.host)) ==> HardeningStable(sys.env, sys.host)
    ensures r.Failed? ==> r.error == CommandError
    ensures old(sys.trace) <= sys.trace && Within(old(sys.host), sys.host)
    ensures Journal(sys.env, old(sys.host), sys.trace, |old(sys.trace)|, sys.host)
    ensures r.Done? ==> Carried(sys.env, old(sys.host), sys.host)
    ensures r.Done? ==> Evolves(sys.env, cfg, old(sys.host), sys.host) && Fail2banReady(sys.env, sys.host)
  {
    hide Evolves, Carried, Journal, Quiet, Within, PackagesKept, Fail2banConfig, PortsUnder;
    r := SetUpFail2ban(sys);
    TouchesWithin({Fail2banJail}, old(sys.host), sys.host);
    SshUntouched(sys.env, {Fail2banJail}, old(sys.host), sys.host);
    QuietJournal(sys.env, old(sys.host), sys.trace, |old(sys.trace)|, sys.host);
    if r.Done? {
      FileProgress(sys.env, cfg, {Fail2banJail}, old(sys.host), sys.host);
    }
  }

  method ApplyFirewall(sys: System, ghost cfg: Config) returns (r: Outcome)
    modifies sys
    ensures Told(r, sys.trace, |old(sys.trace)|)
    ensures HardeningStable(sys.env, old(sys.host)) ==> HardeningStable(sys.env, sys.host)
    ensures r.Failed? ==> r.error == CommandError
    ensures old(sys.trace) <= sys.trace && Within(old(sys.host), sys.host)
    ensures Journal(sys.env, old(sys.host), sys.trace, |old(sys.trace)|, sys.host)
    ensures r.Done? ==> Carried(sys.env, old(sys.host), sys.host)
    ensures r.Done? ==> Evolves(sys.env, cfg, old(sys.host), sys.host) && FirewallReady(sys.env, sys.host)
  {
    hide Evolves, Carried, StepOk, PackagesKept, PortsUnder, RequiredRules, LocksOut, FirewallSafe;
    r := SetUpFirewall(sys);
    StableBySameSsh(sys.env, old(sys.host), sys.host);
    if r.Done? {
      FirewallProgress(sys.env, cfg, old(sys.host), sys.host);
    }
  }

  method ApplySsh(sys: System, ghost cfg: Config) returns (r: Outcome)
    modifies sys
    ensures Told(r, sys.trace, |old(sys.trace)|)
    ensures HardeningStable(sys.env, old(sys.host)) ==> HardeningStable(sys.env, sys.host)
    ensures r.Failed? && r.error != CommandError <==> !Hardenable(sys.env, old(sys.host))
    ensures old(sys.trace) <= sys.trace && Within(old(sys.host), sys.host)
    ensures Journal(sys.env, old(sys.host), sys.trace, |old(sys.trace)|, sys.host)
    ensures r.Done? ==> Carried(sys.env, old(sys.host), sys.host)
    ensures r.Done? && HardeningStable(sys.env, old(sys.host)) ==>
              Evolves(sys.env, cfg, old(sys.host), sys.host) && SshHardeningReady(sys.env, sys.host)
  {
    hide Evolves, Journal, Within, Hardenable, PortsUnder, EffectiveUnder, RequiredRules, Reloads;
    ghost var start, n := sys.host, |sys.trace|;
    r := HardenSsh(sys);
    StableOnceHardened(sys.env, sys.host);
    StableBySameSsh(sys.env, start, sys.host);
    if Hardenable(sys.env, start) {
      TouchesWithin({SshdManaged, SshdLegacy}, start, sys.host);
      if HardeningStable(sys.env, start) {
        HardeningProgress(sys.env, cfg, start, sys.host);
      }
    } else {
      TouchesWithin({SshdManaged}, start, sys.host);
    }
    HardeningJournal(sys.env, start, sys.trace, n, sys.host);
  }

  method Apply(sys: System, changes: Plan, ghost cfg: Config) returns (r: Outcome)
    modifies sys
    ensures old(sys.trace) <= sys.trace
    ensures Told(r, sys.trace, |old(sys.trace)|)
    ensures HardeningStable(sys.env, old(sys.host)) ==> HardeningStable(sys.env, sys.host)
    ensures r.Failed? && r.error != CommandError ==> exists c | c in changes :: MayRefuse(c)
    ensures Within(old(sys.host), sys.host)
    ensures Journal(sys.env, old(sys.host), sys.trace, |old(sys.trace)|, sys.host)
    ensures r.Done? ==> Carried(sys.env, old(sys.host), sys.host)
    ensures r.Done? ==> Progressed(sys.env, cfg, changes, old(sys.host), sys.host)
  {
    hide Progressed, Journal, Carried, Within, Quiet, Told, HardeningStable, SshAssumed;
    ghost var start, n := sys.host, |sys.trace|;
    r := Done;
    NothingProgressed(sys.env, cfg, start);
    ToldNothing(Done, sys.trace);
    QuietStart(start.ufw, sys.trace);
    QuietJournal(sys.env, start, sys.trace, n, sys.host);
    SameWithin(start);
    CarriedBySameFiles(sys.env, start, start);
    for i := 0 to |changes|
      invariant r.Done? && old(sys.trace) <= sys.trace
      invariant Within(start, sys.host)
      invariant Journal(sys.env, start, sys.trace, n, sys.host)
      invariant Told(Done, sys.trace, n)
      invariant HardeningStable(sys.env, start) ==> HardeningStable(sys.env, sys.host)
      invariant Carried(sys.env, start, sys.host)
      invariant Progressed(sys.env, cfg, changes[..i], start, sys.host)
    {
      ghost var before, steps := sys.host, sys.trace;
      r := ApplyOne(sys, changes[i], cfg);
      assert changes[i] in changes;
      WithinTransitive(start, before, sys.host);
      JournalJoin(sys.env, start, steps, n, before, sys.trace, sys.host);
      ToldJoin(r, steps, sys.trace, n);
      if r.Failed? { return; }
      CarriedTransitive(sys.env, start, before, sys.host);
      ProgressAdds(sys.env, cfg, changes[..i], [changes[i]], start, before, sys.host);
      assert changes[..i + 1] == changes[..i] + [changes[i]];
    }
    assert changes[..|changes|] == changes;
  }
}
