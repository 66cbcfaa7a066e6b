/** The bundled monitoring services (server_setup/modules/monitoring.py) and the deferred DNS feature (deferred.py). */
module MonitoringModule {

  import opened Wrappers
  import opened Plans
  import opened Host
  import opened SecurityState
  import opened Progress

  const NAME := "monitoring"

  datatype Desired = Desired(uptimeKuma: bool, beszel: bool, dokployEnabled: bool)

  datatype State = State(bundlePresent: bool, dockerPresent: bool, composeAvailable: bool, running: set<string>)

  function Inspect(m: Machine): State {
    State(ComposeFile in m.files, m.docker.present, ComposeAvailable(m), VisibleServices(m))
  }

  function DesiredState(cfg: Config): Desired {
    Desired(cfg.uptimeKuma, cfg.beszel, cfg.dokployEnabled)
  }

  predicate WantsAny(desired: Desired) {
    desired.uptimeKuma || desired.beszel
  }

  function ServiceChanges(enabled: bool, running: bool, service: string): (plan: Plan)
    ensures forall c | c in plan :: c.owner == NAME && c.kind != Noop
  {
    if enabled && !running then [Change(NAME, Create, StartService, service)]
    else if !enabled && running then [Change(NAME, Update, StopService, service)]
    else []
  }

  function Plan(current: State, desired: Desired): (plan: Plan)
    ensures forall c | c in plan :: c.owner == NAME && c.kind != Noop
  {
    if WantsAny(desired) && !current.bundlePresent then [Change(NAME, Dangerous, Blocked, "")]
    else if WantsAny(desired) && !current.composeAvailable && !(!current.dockerPresent && desired.dokployEnabled)
    then [Change(NAME, Dangerous, Blocked, "")]
    else
      ServiceChanges(desired.uptimeKuma, UPTIME_KUMA in current.running, UPTIME_KUMA)
      + ServiceChanges(desired.beszel, BESZEL in current.running, BESZEL)
  }

  function PassIf(b: bool): Check {
    Check(NAME, if b then Pass else Fail)
  }

  function CheckService(enabled: bool, running: bool): Check {
    if enabled then PassIf(running) else Check(NAME, if running then Fail else Skip)
  }

  function Validate(m: Machine, desired: Desired): (r: Report)
    ensures forall c | c in r :: c.owner == NAME
  {
    var current := Inspect(m);
    (if WantsAny(desired) then [PassIf(current.bundlePresent), PassIf(current.composeAvailable)] else [])
    + [CheckService(desired.uptimeKuma, UPTIME_KUMA in current.running),
       CheckService(desired.beszel, BESZEL in current.running)]
  }

  /** Steps that leave the firewall alone, do not reload sshd, and use compose only where it exists. */
  ghost predicate Composed(start: Machine, trace: seq<Step>, n: nat) {
    forall i | n <= i < |trace| ::
      && trace[i].after.ufw == start.ufw
      && !trace[i].command.UfwEnable? && !trace[i].command.SshReload?
      && ComposeAvailable(trace[i].after)
  }

  lemma ServiceProgress(env: Environment, cfg: Config, c: Change, m: Machine, n: Machine)
    requires MonitoredService(c.target) && ComposeAvailable(m)
    requires c.action.StartService? || c.action.StopService?
    requires n == m.(running := if c.action.StartService? then m.running + {c.target} else m.running - {c.target})
    ensures Progressed(env, cfg, [c], m, n)
  {
    hide Evolves, DokployDelivered, HardeningStable;
    if Conforms(cfg, c) {
      SameFilesProgress(env, cfg, m, n);
    }
  }

  /** A change that this module refuses to carry out. */
  predicate Unservable(c: Change) {
    !MonitoredService(c.target) || (!c.action.StartService? && !c.action.StopService?)
  }

  method ApplyOne(sys: System, change: Change, ghost cfg: Config) returns (r: Outcome)
    requires ComposeAvailable(sys.host)
    modifies sys
    ensures old(sys.trace) <= sys.trace
    ensures Told(r, sys.trace, |old(sys.trace)|)
    ensures Composed(old(sys.host), sys.trace, |old(sys.trace)|)
    ensures sys.host == old(sys.host).(running := sys.host.running)
    ensures r.Failed? && r.error != CommandError <==> Unservable(change)
    ensures sys.host.running - {change.target} == old(sys.host).running - {change.target}
    ensures r.Done? ==> Achieved(sys.env, change, sys.host)
    ensures r.Done? ==> Progressed(sys.env, cfg, [change], old(sys.host), sys.host)
    ensures Unservable(change) ==> sys.trace == old(sys.trace)
    ensures !Unservable(change) ==>
              Issued(sys.trace, |old(sys.trace)|,
                     [if change.action.StartService? then ComposeUp(change.target) else ComposeStop(change.target)],
                     true)
  {
    hide Progressed;
    if change.action.Blocked? || !MonitoredService(change.target) {
      return Failed(ModuleApplyError);
    }
    var ok;
    if change.action.StartService? {
      ok := sys.Run(ComposeUp(change.target));
    } else if change.action.StopService? {
      ok := sys.Run(ComposeStop(change.target));
    } else {
      return Failed(ModuleApplyError);
    }
    if !ok { return Failed(CommandError); }
    ServiceProgress(sys.env, cfg, change, old(sys.host), sys.host);
    return Done;
  }

  /** Whatever the batch holds: every change that no later one opposes has been achieved. */
  ghost predicate Settled(env: Environment, changes: Plan, m: Machine) {
    forall i | 0 <= i < |changes| && Lasts(changes, i) :: Achieved(env, changes[i], m)
  }

  lemma NothingSettled(env: Environment, m: Machine)
    ensures Settled(env, [], m)
  {
  }

  lemma SettledStep(env: Environment, done: Plan, c: Change, m: Machine, n: Machine)
    requires Settled(env, done, m) && n == m.(running := n.running)
    requires forall d | d in done :: d.action.StartService? || d.action.StopService?
    requires n.running - {c.target} == m.running - {c.target}
    requires (c.action.StartService? || c.action.StopService?) && Achieved(env, c, n)
    ensures Settled(env, done + [c], n)
  {
    var all := done + [c];
    forall i | 0 <= i < |all| && Lasts(all, i) ensures Achieved(env, all[i], n) {
      if i < |done| {
        assert all[i] == done[i] && !Opposes(all[i], all[|done|]);
        assert Lasts(done, i) by {
          assert forall j | i < j < |done| :: !Opposes(all[i], all[j]) && all[j] == done[j];
        }
        var d := done[i];
        assert d in done && Achieved(env, d, m);
        assert d.target != c.target ==> (d.target in n.running <==> d.target in n.running - {c.target});
        assert d.target != c.target ==> (d.target in m.running <==> d.target in m.running - {c.target});
      }
    }
  }

  method Apply(sys: System, changes: Plan, ghost cfg: Config) returns (r: Outcome)
    modifies sys
    ensures old(sys.trace) <= sys.trace
    ensures Told(r, sys.trace, |old(sys.trace)|)
    ensures Composed(old(sys.host), sys.trace, |old(sys.trace)|)
    ensures sys.host == old(sys.host).(running := sys.host.running)
    ensures !ComposeAvailable(old(sys.host)) ==>
              r == Failed(ModuleApplyError) && sys.host == old(sys.host) && sys.trace == old(sys.trace)
    ensures Retryable(sys.env, old(sys.host), sys.trace, |old(sys.trace)|, sys.host)
    ensures r.Done? ==> Settled(sys.env, changes, sys.host)
    ensures r.Failed? && r.error != CommandError ==>
              !ComposeAvailable(old(sys.host)) || exists c | c in changes :: Unservable(c)
    ensures r.Done? ==> Progressed(sys.env, cfg, changes, old(sys.host), sys.host)
  {
    hide Progressed, Told, Settled, Retryable, Achieved;
    ToldNothing(Done, sys.trace);
    RetryableBySameParts(sys.env, sys.host, sys.trace, |sys.trace|, sys.host);
    NothingSettled(sys.env, sys.host);
    ToldNothing(Failed(ModuleApplyError), sys.trace);
    if !ComposeAvailable(sys.host) {
      return Failed(ModuleApplyError);
    }
    ghost var start, n := sys.host, |sys.trace|;
    r := Done;
    NothingProgressed(sys.env, cfg, start);
    for i := 0 to |changes|
      invariant r.Done? && old(sys.trace) <= sys.trace
      invariant sys.host == start.(running := sys.host.running)
      invariant Composed(start, sys.trace, n)
      invariant Told(Done, sys.trace, n)
      invariant Settled(sys.env, changes[..i], sys.host)
      invariant forall d | d in changes[..i] :: d.action.StartService? || d.action.StopService?
      invariant Progressed(sys.env, cfg, changes[..i], start, sys.host)
    {
      ghost var before, steps := sys.host, sys.trace;
      r := ApplyOne(sys, changes[i], cfg);
      assert changes[i] in changes;
      assert forall j | n <= j < |steps| :: sys.trace[j] == steps[j];
      ToldJoin(r, steps, sys.trace, n);
      RunningRetryable(sys.env, start, sys.trace, n, sys.host);
      if r.Failed? { return; }
      SettledStep(sys.env, changes[..i], changes[i], before, sys.host);
      ProgressAdds(sys.env, cfg, changes[..i], [changes[i]], start, before, sys.host);
      assert changes[..i + 1] == changes[..i] + [changes[i]];
    }
    assert changes[..|changes|] == changes;
    RunningRetryable(sys.env, start, sys.trace, n, sys.host);
  }

  lemma RunningRetryable(env: Environment, start: Machine, trace: seq<Step>, n: nat, end: Machine)
    requires ComposeAvailable(start) && end == start.(running := end.running)
    ensures Retryable(env, start, trace, n, end)
  {
    hide PortsUnder, EffectiveUnder;
    assert Managed(end) == Managed(start) && Legacy(end) == Legacy(start);
  }

  lemma ComposedJournal(env: Environment, start: Machine, trace: seq<Step>, n: nat, end: Machine)
    requires n <= |trace| && Composed(start, trace, n) && end.ufw == start.ufw
    ensures Journal(env, start, trace, n, end)
  {
    hide HardeningStable, RequiredRules, PortsUnder;
  }
}

/** A feature that is configured but not managed yet (server_setup/modules/deferred.py). */
module DeferredFeature {

  import opened Plans

  function Plan(name: string, desired: bool): (plan: Plan)
    ensures forall c | c in plan :: c.owner == name && c.kind != Noop
  {
    if desired then [Change(name, Dangerous, Deferred, "")] else []
  }

  function Validate(name: string, desired: bool): Report {
    [Check(name, if desired then Fail else Skip)]
  }
}
