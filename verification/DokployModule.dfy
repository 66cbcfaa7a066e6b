/** Dokploy installation, update and health (server_setup/modules/dokploy.py). */
module DokployModule {

  import opened Wrappers
  import opened Plans
  import opened Host
  import opened SecurityState
  import opened Progress

  const NAME := "dokploy"

  /** How often the wait looks at the host before it gives up. */
  const ATTEMPTS: nat := 60

  datatype Desired = Desired(enabled: bool, version: string)

  datatype State = State(
    installed: bool, version: Option<string>, swarmActive: bool, networkExists: bool, ports: set<int>)

  function Inspect(m: Machine): State {
    State(DokployInstalled(m.docker), DokployVersion(m.docker),
          m.docker.present && m.docker.swarm, m.docker.present && m.docker.network, m.ports)
  }

  predicate StateHealthy(s: State) {
    s.installed && s.swarmActive && s.networkExists && {80, 443} <= s.ports
  }

  function DesiredState(cfg: Config): Desired {
    Desired(cfg.dokployEnabled, cfg.dokployVersion)
  }

  predicate Occupied(s: State) {
    {80, 443, 3000} * s.ports != {}
  }

  function Plan(current: State, desired: Desired): (plan: Plan)
    ensures forall c | c in plan :: c.owner == NAME && c.kind != Noop
  {
    if !desired.enabled then []
    else if !current.installed then
      if Occupied(current) || current.swarmActive then [Change(NAME, Dangerous, Blocked, "")]
      else [Change(NAME, Create, InstallDokploy, desired.version)]
    else if !StateHealthy(current) then [Change(NAME, Dangerous, Blocked, "")]
    else if current.version.Some? && current.version.value != desired.version
    then [Change(NAME, Dangerous, UpdateDokploy, desired.version)]
    else []
  }

  function PassIf(b: bool): Check {
    Check(NAME, if b then Pass else Fail)
  }

  function Validate(m: Machine, desired: Desired): (r: Report)
    ensures forall c | c in r :: c.owner == NAME
  {
    var current := Inspect(m);
    if !desired.enabled then [Check(NAME, Skip)]
    else
      [PassIf(current.installed)]
      + (if !current.installed then []
         else
           [if current.version.None? then Check(NAME, Warn) else PassIf(current.version.value == desired.version),
            PassIf(current.swarmActive), PassIf(current.networkExists), PassIf({80, 443} <= current.ports)]
           + (if 3000 in current.ports then [Check(NAME, Warn)] else []))
  }

  predicate Touches(m: Machine, n: Machine) {
    && n == m.(packages := n.packages, files := n.files, docker := n.docker, ports := n.ports)
    && n.files - {Installer} == m.files - {Installer}
  }

  /**
   `_wait_until_healthy`: looks up to 60 times, two seconds apart. It gives up only after 60 looks at a host that
   was unhealthy each time.
   */
  method WaitUntilHealthy(sys: System) returns (r: Outcome)
    modifies sys
    ensures old(sys.trace) <= sys.trace
    ensures Told(r, sys.trace, |old(sys.trace)|)
    ensures Quiet(old(sys.host).ufw, sys.trace, |old(sys.trace)|)
    ensures sys.host == old(sys.host).(
                docker := old(sys.host).docker.(swarm := sys.host.docker.swarm, network := sys.host.docker.network),
                ports := sys.host.ports)
    ensures forall i | |old(sys.trace)| <= i < |sys.trace| :: sys.trace[i].command.Sleep?
    ensures r.Done? ==> DokployHealthy(sys.host)
    ensures r.Failed? ==>
              && r.error == ModuleApplyError
              && |sys.trace| == |old(sys.trace)| + ATTEMPTS
              && !DokployHealthy(old(sys.host))
              && forall i | |old(sys.trace)| <= i < |sys.trace| - 1 :: !DokployHealthy(sys.trace[i].after)
  {
    ghost var n := |sys.trace|;
    for attempt := 0 to ATTEMPTS
      invariant old(sys.trace) <= sys.trace && |sys.trace| == n + attempt
      invariant Quiet(old(sys.host).ufw, sys.trace, n)
      invariant sys.host == old(sys.host).(
                  docker := old(sys.host).docker.(swarm := sys.host.docker.swarm, network := sys.host.docker.network),
                  ports := sys.host.ports)
      invariant forall i | n <= i < |sys.trace| :: sys.trace[i].command.Sleep? && sys.trace[i].ok
      invariant attempt > 0 ==> !DokployHealthy(old(sys.host)) && sys.trace[n + attempt - 1].after == sys.host
      invariant attempt == 0 ==> sys.host == old(sys.host)
      invariant forall i | n <= i < |sys.trace| - 1 :: !DokployHealthy(sys.trace[i].after)
    {
      if StateHealthy(Inspect(sys.host)) {
        return Done;
      }
      var _ := sys.Run(Sleep);
    }
    return Failed(ModuleApplyError);
  }

  /** What the apply-time check sees: an occupied port, or a swarm that is not Dokploy's. */
  predicate InstallRefused(m: Machine) {
    Occupied(Inspect(m)) || (Inspect(m).swarmActive && !Inspect(m).installed)
  }

  /** Runs the downloaded installer and waits; the installer file goes whatever the outcome. */
  method RunAndWait(sys: System, update: bool, version: string) returns (r: Outcome)
    requires Installer in sys.host.files && sys.host.files[Installer] == Script(version)
    modifies sys
    ensures old(sys.trace) <= sys.trace
    ensures Told(r, sys.trace, |old(sys.trace)|)
    ensures Quiet(old(sys.host).ufw, sys.trace, |old(sys.trace)|)
    ensures Touches(old(sys.host), sys.host)
    ensures Installer !in sys.host.files
    ensures Retryable(sys.env, old(sys.host), sys.trace, |old(sys.trace)|, sys.host)
    ensures r.Failed? && r.error != CommandError ==> LeftUnhealthy(sys.trace, |old(sys.trace)|)
    ensures |sys.trace| >= |old(sys.trace)| + 2 && sys.trace[|old(sys.trace)|].command == RunInstaller(update)
    ensures sys.trace[|sys.trace| - 1].command == RemoveFile(Installer)
    ensures forall i | |old(sys.trace)| < i < |sys.trace| - 1 :: sys.trace[i].command.Sleep?
    ensures r.Done? ==>
              && DokployDelivered(sys.host, version)
              && forall p | p in old(sys.host).packages ::
                   p in sys.host.packages && sys.host.packages[p] == old(sys.host).packages[p]
  {
    hide DokployVersion, PortsUnder, EffectiveUnder;
    ghost var n := |sys.trace|;
    var ok := sys.Run(RunInstaller(update));
    ghost var ran := sys.trace;
    if ok {
      ghost var delivered := sys.host;
      r := WaitUntilHealthy(sys);
      VersionKept(delivered.docker, sys.host.docker);
    } else {
      r := Failed(CommandError);
    }
    ghost var steps := sys.trace;
    sys.Remove(Installer);
    assert ran[n].ok == ok && steps[n] == ran[n] && sys.trace[n] == steps[n];
  }

  ghost predicate RanInstaller(trace: seq<Step>, n: nat) {
    exists i :: n <= i < |trace| && trace[i].command.RunInstaller?
  }

  /** `_download_installer`: whatever is there is removed before the download. */
  method Download(sys: System, version: string) returns (r: Outcome)
    modifies sys
    ensures old(sys.trace) <= sys.trace
    ensures Told(r, sys.trace, |old(sys.trace)|)
    ensures Quiet(old(sys.host).ufw, sys.trace, |old(sys.trace)|)
    ensures Retryable(sys.env, old(sys.host), sys.trace, |old(sys.trace)|, sys.host)
    ensures !RanInstaller(sys.trace, |old(sys.trace)|)
    ensures sys.host == old(sys.host).(files := sys.host.files)
    ensures sys.host.files - {Installer} == old(sys.host).files - {Installer}
    ensures r.Failed? ==> r.error == CommandError
    ensures r.Done? ==> Installer in sys.host.files && sys.host.files[Installer] == Script(version)
    ensures Issued(sys.trace, |old(sys.trace)|, [RemoveFile(Installer), DownloadInstaller(version)], true)
  {
    hide HardeningStable;
    ghost var start := sys.host;
    sys.Remove(Installer);
    var ok := sys.Run(DownloadInstaller(version));
    Untouched({Installer}, start, sys.host);
    RetryableBySameParts(sys.env, start, sys.trace, |old(sys.trace)|, sys.host);
    return if ok then Done else Failed(CommandError);
  }

  predicate Malformed(c: Change) {
    (!c.action.InstallDokploy? && !c.action.UpdateDokploy?) || c.target == ""
  }

  /** The installer succeeded and left Dokploy unhealthy. */
  ghost predicate LeftUnhealthy(trace: seq<Step>, n: nat) {
    exists i :: n <= i < |trace| && trace[i].command.RunInstaller? && trace[i].ok && !DokployHealthy(trace[i].after)
  }

  /** One install or update: re-check, download, run and wait. */
  method ApplyOne(sys: System, change: Change, ghost cfg: Config) returns (r: Outcome)
    modifies sys
    ensures old(sys.trace) <= sys.trace
    ensures Told(r, sys.trace, |old(sys.trace)|)
    ensures Quiet(old(sys.host).ufw, sys.trace, |old(sys.trace)|)
    ensures Touches(old(sys.host), sys.host)
    ensures change.action.InstallDokploy? && InstallRefused(old(sys.host)) ==>
              r == Failed(ModuleApplyError) && sys.host == old(sys.host) && sys.trace == old(sys.trace)
    ensures Malformed(change) ==> r == Failed(ModuleApplyError) && sys.trace == old(sys.trace)
    ensures sys.trace == old(sys.trace) <==>
              || (!change.action.InstallDokploy? && !change.action.UpdateDokploy?) || change.target == ""
              || (change.action.InstallDokploy? && InstallRefused(old(sys.host)))
    ensures r.Failed? && r.error != CommandError ==>
              || Malformed(change) || (change.action.InstallDokploy? && InstallRefused(old(sys.host)))
              || LeftUnhealthy(sys.trace, |old(sys.trace)|)
    ensures Retryable(sys.env, old(sys.host), sys.trace, |old(sys.trace)|, sys.host)
    ensures RanInstaller(sys.trace, |old(sys.trace)|) ==> Installer !in sys.host.files
    ensures r.Done? ==> Achieved(sys.env, change, sys.host)
    ensures r.Done? ==> Progressed(sys.env, cfg, [change], old(sys.host), sys.host)
  {
    hide Progressed, DokployDelivered, InstallRefused, Retryable, Quiet, Told;
    ghost var start, n := sys.host, |sys.trace|;
    QuietStart(start.ufw, sys.trace);
    ToldNothing(Failed(ModuleApplyError), sys.trace);
    RetryableBySameParts(sys.env, start, sys.trace, n, start);
    if Malformed(change) {
      return Failed(ModuleApplyError);
    }
    if change.action.InstallDokploy? && InstallRefused(sys.host) {
      return Failed(ModuleApplyError);
    }
    r := Download(sys, change.target);
    if r.Failed? { return; }
    ghost var steps, mid := sys.trace, sys.host;
    r := RunAndWait(sys, change.action.UpdateDokploy?, change.target);
    QuietJoin(start.ufw, steps, sys.trace, n);
    ToldJoin(r, steps, sys.trace, n);
    RetryableJoin(sys.env, start, steps, n, mid, sys.trace, sys.host);
    if r.Done? {
      DeliveryProgress(sys.env, cfg, change, old(sys.host), sys.host);
    }
  }

  lemma VersionKept(d: Docker, e: Docker)
    requires e == d.(swarm := e.swarm, network := e.network)
    ensures DokployVersion(e) == DokployVersion(d)
  {
    hide ImageVersion;
  }

  lemma DeliveryProgress(env: Environment, cfg: Config, change: Change, m: Machine, n: Machine)
    requires change.action.InstallDokploy? || change.action.UpdateDokploy?
    requires Touches(m, n) && DokployDelivered(n, change.target)
    requires forall p | p in m.packages :: p in n.packages && n.packages[p] == m.packages[p]
    ensures Progressed(env, cfg, [change], m, n)
  {
    hide DokployVersion, PortsUnder, Fail2banConfig, EffectiveUnder, RequiredRules;
    forall p: Path | p != Installer ensures ReadText(n, p) == ReadText(m, p) && (p in n.files <==> p in m.files) {
      assert p in n.files <==> p in n.files - {Installer};
      assert p in m.files <==> p in m.files - {Installer};
    }
    if Conforms(cfg, change) {
      SameFilesProgress(env, cfg, m, n);
    }
  }

  method Apply(sys: System, changes: Plan, ghost cfg: Config) returns (r: Outcome)
    modifies sys
    ensures old(sys.trace) <= sys.trace
    ensures Told(r, sys.trace, |old(sys.trace)|)
    ensures Quiet(old(sys.host).ufw, sys.trace, |old(sys.trace)|)
    ensures Touches(old(sys.host), sys.host)
    ensures Retryable(sys.env, old(sys.host), sys.trace, |old(sys.trace)|, sys.host)
    ensures r.Done? && changes != [] ==> Achieved(sys.env, changes[|changes| - 1], sys.host)
    ensures r.Done? ==> Progressed(sys.env, cfg, changes, old(sys.host), sys.host)
  {
    hide Progressed, Quiet, Told, Retryable, Achieved;
    ghost var start, n := sys.host, |sys.trace|;
    r := Done;
    NothingProgressed(sys.env, cfg, start);
    ToldNothing(Done, sys.trace);
    RetryableBySameParts(sys.env, start, sys.trace, n, start);
    QuietStart(start.ufw, sys.trace);
    for i := 0 to |changes|
      invariant r.Done? && old(sys.trace) <= sys.trace
      invariant Touches(start, sys.host)
      invariant Quiet(start.ufw, sys.trace, n)
      invariant Told(Done, sys.trace, n)
      invariant Retryable(sys.env, start, sys.trace, n, sys.host)
      invariant i > 0 ==> Achieved(sys.env, changes[i - 1], sys.host)
      invariant Progressed(sys.env, cfg, changes[..i], start, sys.host)
    {
      ghost var before, steps := sys.host, sys.trace;
      r := ApplyOne(sys, changes[i], cfg);
      QuietJoin(start.ufw, steps, sys.trace, n);
      ToldJoin(r, steps, sys.trace, n);
      RetryableJoin(sys.env, start, steps, n, before, sys.trace, sys.host);
      if r.Failed? { return; }
      ProgressAdds(sys.env, cfg, changes[..i], [changes[i]], start, before, sys.host);
      assert changes[..i + 1] == changes[..i] + [changes[i]];
    }
    assert changes[..|changes|] == changes;
  }
}
