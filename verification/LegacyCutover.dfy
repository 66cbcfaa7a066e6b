/**
 The cut-over from the legacy edge to Dokploy (scripts/legacy_setup.sh).

 Every command may succeed or fail, the installer may do anything to the units, and other processes may change what
 listens and what runs while a command works. `events` records what the script did and saw.
 */
module LegacyCutover {

  import opened Wrappers

  datatype LegacyUnit = Nginx | WebhookReceiver | StatusWebapp

  const LEGACY_UNITS: seq<LegacyUnit> := [Nginx, WebhookReceiver, StatusWebapp]

  const EDGE_PORTS: seq<nat> := [80, 443, 3000]

  const READY_ATTEMPTS: nat := 30

  datatype Event =
    | Stop(u: LegacyUnit, ok: bool)
    | Start(u: LegacyUnit, ok: bool)
    | Disable(u: LegacyUnit, ok: bool)
    | Download(ok: bool)
    | Install(ok: bool)
    | RemoveInstaller(ok: bool)
    | PortsSeen(busy: seq<nat>)
    | ReadySeen(ready: bool)

  datatype Reason =
    | AlreadyInstalled
    | CannotSkip
    | ForeignSwarm
    | NotReviewed
    | PortsBusy
    | NoInstaller
    | StopFailed
    | InstallFailed
    | CleanupFailed
    | NotReady
    | DisableFailed

  datatype Exit = Finished | Died(reason: Reason)

  /** What must have been seen for the script to die for a reason. */
  predicate Justified(reason: Reason, ev: seq<Event>) {
    match reason
    case AlreadyInstalled | CannotSkip | ForeignSwarm | NotReviewed => ev == []
    case PortsBusy => exists e :: e in ev && e.PortsSeen? && e.busy != []
    case NoInstaller => Download(true) !in ev
    case StopFailed => exists e :: e in ev && e.Stop? && !e.ok
    case InstallFailed => Install(false) in ev
    case CleanupFailed => RemoveInstaller(false) in ev
    case NotReady => ReadySeen(false) in ev && ReadySeen(true) !in ev
    case DisableFailed => exists e :: e in ev && e.Disable? && !e.ok
  }

  /** The reasons given before anything is fetched. */
  predicate Refusal(reason: Reason) {
    reason.AlreadyInstalled? || reason.CannotSkip? || reason.ForeignSwarm? || reason.NotReviewed?
  }

  lemma EdgeIs()
    ensures forall u: LegacyUnit :: u in LEGACY_UNITS
    ensures forall p :: p in EDGE_PORTS <==> p == 80 || p == 443 || p == 3000
  {
    forall u: LegacyUnit ensures u in LEGACY_UNITS {
      match u
      case Nginx => assert LEGACY_UNITS[0] == u;
      case WebhookReceiver => assert LEGACY_UNITS[1] == u;
      case StatusWebapp => assert LEGACY_UNITS[2] == u;
    }
    assert EDGE_PORTS[0] == 80 && EDGE_PORTS[1] == 443 && EDGE_PORTS[2] == 3000;
  }

  predicate UnitEvent(e: Event) {
    e.Stop? || e.Start? || e.Disable?
  }

  predicate NoUnitTouched(ev: seq<Event>) {
    forall e | e in ev :: !UnitEvent(e)
  }

  /** After event `i`, a start of `u` was issued or Dokploy was seen ready. */
  predicate CoveredAfter(ev: seq<Event>, i: int, u: LegacyUnit) {
    exists j :: 0 <= j < |ev| && i < j && ((ev[j].Start? && ev[j].u == u) || ev[j] == ReadySeen(true))
  }

  /** Every stop is followed by a start of the same unit or by a ready Dokploy. */
  predicate Covered(ev: seq<Event>) {
    forall i | 0 <= i < |ev| && ev[i].Stop? :: CoveredAfter(ev, i, ev[i].u)
  }

  /** Dokploy was seen ready before any unit was disabled. */
  predicate DisabledWhenReady(ev: seq<Event>) {
    forall i | 0 <= i < |ev| && ev[i].Disable? :: ReadySeen(true) in ev[..i]
  }

  /** The installer may run: it was downloaded and its ports were seen free after the last stop. */
  predicate Cleared(ev: seq<Event>) {
    && Download(true) in ev
    && exists j :: 0 <= j < |ev| && ev[j] == PortsSeen([]) && forall k | j < k < |ev| :: !ev[k].Stop?
  }

  /** The installer never ran otherwise. */
  predicate InstalledWhenFree(ev: seq<Event>) {
    forall i | 0 <= i < |ev| && ev[i].Install? ::
      Cleared(ev[..i])
  }

  /** The one run that leaves the edge down: the installer's file could not be removed after it had succeeded. */
  predicate Abandoned(ev: seq<Event>) {
    && (exists e :: e in ev && e.Stop?)
    && |ev| >= 2 && ev[|ev| - 2..] == [Install(true), RemoveInstaller(false)]
  }

  /** Nothing but downloads, looks at the ports and stops. */
  predicate OnlyStops(ev: seq<Event>) {
    forall e | e in ev :: Preparing(e)
  }

  predicate Preparing(e: Event) {
    e.Stop? || e == Download(true) || e.PortsSeen?
  }

  predicate Stopped(ev: seq<Event>, u: LegacyUnit) {
    exists e :: e in ev && e.Stop? && e.u == u
  }

  predicate StopsWithin(ev: seq<Event>, us: seq<LegacyUnit>) {
    forall e | e in ev && e.Stop? :: e.u in us
  }

  predicate AreStarts(ev: seq<Event>, us: seq<LegacyUnit>) {
    |ev| == |us| && forall k | 0 <= k < |us| :: ev[k].Start? && ev[k].u == us[k]
  }

  lemma RestartCovers(ev: seq<Event>, us: seq<LegacyUnit>, starts: seq<Event>)
    requires StopsWithin(ev, us) && AreStarts(starts, us)
    ensures Covered(ev + starts)
  {
    var all := ev + starts;
    assert forall i | |ev| <= i < |all| :: all[i] == starts[i - |ev|];
    forall i | 0 <= i < |all| && all[i].Stop? ensures CoveredAfter(all, i, all[i].u) {
      assert ev[i] in ev;
      var k :| 0 <= k < |us| && us[k] == ev[i].u;
      assert all[|ev| + k] == starts[k];
    }
  }

  lemma CoveredExtends(ev: seq<Event>, more: seq<Event>)
    requires forall e | e in more :: !e.Stop?
    requires Covered(ev) || ReadySeen(true) in more
    ensures Covered(ev + more)
  {
    var all := ev + more;
    assert forall i | |ev| <= i < |all| :: all[i] in more;
    forall i | 0 <= i < |all| && all[i].Stop? ensures CoveredAfter(all, i, all[i].u) {
      if i < |ev| {
        assert all[i] == ev[i];
        if Covered(ev) {
          var j :| 0 <= j < |ev| && i < j && ((ev[j].Start? && ev[j].u == ev[i].u) || ev[j] == ReadySeen(true));
          assert all[j] == ev[j];
        } else {
          var k :| 0 <= k < |more| && more[k] == ReadySeen(true);
          assert all[|ev| + k] == more[k];
        }
      }
    }
  }

  /** Nothing but stops, and no ready Dokploy: a stopped unit is not covered. */
  lemma UncoveredStop(ev: seq<Event>)
    requires exists e :: e in ev && e.Stop?
    requires forall e | e in ev :: !e.Start? && e != ReadySeen(true)
    ensures !Covered(ev)
  {
    var e :| e in ev && e.Stop?;
    var i :| 0 <= i < |ev| && ev[i] == e;
    assert !CoveredAfter(ev, i, e.u);
  }

  /** How the history of a run ends up: see `Script.InstallDokploy`. */
  predicate Accounted(ev: seq<Event>) {
    && (Covered(ev) <==> !Abandoned(ev))
    && DisabledWhenReady(ev)
    && InstalledWhenFree(ev)
  }

  predicate StartsWorked(ev: seq<Event>) {
    forall e | e in ev && e.Start? :: e.ok
  }

  lemma NoDisables(ev: seq<Event>)
    requires forall e | e in ev :: !e.Disable?
    ensures DisabledWhenReady(ev)
  {
    forall i | 0 <= i < |ev| ensures !ev[i].Disable? {
      assert ev[i] in ev;
    }
  }

  lemma NotInstalled(ev: seq<Event>)
    requires Covered(ev) && forall e | e in ev :: !e.Install? && !e.Disable?
    ensures Accounted(ev)
  {
    assert |ev| >= 2 ==> ev[|ev| - 2..][0] == ev[|ev| - 2] && ev[|ev| - 2] in ev;
  }

  lemma InstalledOnce(ev: seq<Event>, ok: bool, more: seq<Event>)
    requires OnlyStops(ev) && Cleared(ev) && forall e | e in more :: !e.Install?
    ensures InstalledWhenFree(ev + [Install(ok)] + more)
  {
    var all := ev + [Install(ok)] + more;
    assert forall i | 0 <= i < |ev| :: all[i] in ev;
    assert forall i | |ev| < i < |all| :: all[i] in more;
    forall i | 0 <= i < |all| && all[i].Install? ensures Cleared(all[..i]) {
      assert all[..|ev|] == ev;
    }
  }

  class Script {
    const dryRun: bool
    const installDokploy: bool
    const replaceLegacy: bool
    const confirmed: bool
    const haveSystemctl: bool
    const haveSs: bool
    /** Whether the old registry is absent or a readable JSON array. */
    const inventoryReadable: bool
    const existing: set<LegacyUnit>

    var active: set<LegacyUnit>
    var enabled: set<LegacyUnit>
    var dokploy: bool
    var swarm: bool
    var listening: set<nat>
    var activeLegacyUnits: seq<LegacyUnit>
    ghost var events: seq<Event>

    constructor (dryRun: bool, installDokploy: bool, replaceLegacy: bool, confirmed: bool,
                 haveSystemctl: bool, haveSs: bool, inventoryReadable: bool,
                 existing: set<LegacyUnit>, active: set<LegacyUnit>, enabled: set<LegacyUnit>,
                 dokploy: bool, swarm: bool, listening: set<nat>)
      ensures this.replaceLegacy == replaceLegacy && this.dryRun == dryRun && this.existing == existing
      ensures this.active == active && this.enabled == enabled
      ensures activeLegacyUnits == [] && events == []
    {
      this.dryRun, this.installDokploy := dryRun, installDokploy;
      this.replaceLegacy, this.confirmed := replaceLegacy, confirmed;
      this.haveSystemctl, this.haveSs, this.inventoryReadable := haveSystemctl, haveSs, inventoryReadable;
      this.existing, this.active, this.enabled := existing, active, enabled;
      this.dokploy, this.swarm, this.listening := dokploy, swarm, listening;
      activeLegacyUnits, events := [], [];
    }

    /** `unit_exists` */
    predicate Exists(u: LegacyUnit) {
      haveSystemctl && u in existing
    }

    /** `port_in_use` */
    predicate PortInUse(port: nat)
      reads this
    {
      haveSs && port in listening
    }

    /** `dokploy_ready` */
    predicate Ready()
      reads this
    {
      dokploy && PortInUse(80) && PortInUse(443) && PortInUse(3000)
    }

    /** Time passes: other processes may change what listens and what runs. */
    method Pass()
      modifies this`dokploy, this`swarm, this`listening
    {
      dokploy, swarm, listening := *, *, *;
    }

    method StopUnit(u: LegacyUnit) returns (ok: bool)
      modifies this`active, this`events, this`dokploy, this`swarm, this`listening
      ensures events == old(events) + [Stop(u, ok)]
      ensures active == old(active) - {u} || (!ok && active == old(active))
    {
      ok := *;
      var stopped: bool := *;
      if ok || stopped {
        active := active - {u};
      }
      events := events + [Stop(u, ok)];
      Pass();
    }

    method StartUnit(u: LegacyUnit) returns (ok: bool)
      modifies this`active, this`events, this`dokploy, this`swarm, this`listening
      ensures events == old(events) + [Start(u, ok)]
      ensures active == old(active) + {u} || (!ok && active == old(active) - {u})
    {
      ok := *;
      var started: bool := *;
      active := if ok || started then active + {u} else active - {u};
      events := events + [Start(u, ok)];
      Pass();
    }

    method DisableUnit(u: LegacyUnit) returns (ok: bool)
      modifies this`enabled, this`events, this`dokploy, this`swarm, this`listening
      ensures events == old(events) + [Disable(u, ok)]
      ensures enabled == old(enabled) - {u} || (!ok && enabled == old(enabled))
    {
      ok := *;
      var disabled: bool := *;
      if ok || disabled {
        enabled := enabled - {u};
      }
      events := events + [Disable(u, ok)];
      Pass();
    }

    /** `dokploy_busy_ports` */
    method BusyPorts() returns (busy: seq<nat>)
      modifies this`events
      ensures events == old(events) + [PortsSeen(busy)]
      ensures forall p :: p in busy <==> (p == 80 || p == 443 || p == 3000) && haveSs && p in listening
    {
      EdgeIs();
      busy := [];
      for i := 0 to |EDGE_PORTS|
        invariant forall p :: p in busy <==> p in EDGE_PORTS[..i] && PortInUse(p)
      {
        if PortInUse(EDGE_PORTS[i]) {
          busy := busy + [EDGE_PORTS[i]];
        }
      }
      assert EDGE_PORTS[..|EDGE_PORTS|] == EDGE_PORTS;
      events := events + [PortsSeen(busy)];
    }

    /** `restart_active_legacy_edge`: tries every unit, whatever the outcome of the others. */
    method RestartActiveLegacyEdge()
      modifies this`active, this`events, this`dokploy, this`swarm, this`listening
      ensures |events| == |old(events)| + |activeLegacyUnits| && events[..|old(events)|] == old(events)
      ensures AreStarts(events[|old(events)|..], activeLegacyUnits)
      ensures forall e | e in events[|old(events)|..] :: e.Start?
      ensures forall u | u !in activeLegacyUnits :: u in active <==> u in old(active)
      ensures StartsWorked(events[|old(events)|..]) ==> forall u | u in activeLegacyUnits :: u in active
    {
      var n := |activeLegacyUnits|;
      ghost var before := events;
      ghost var starts: seq<Event> := [];
      for i := 0 to n
        invariant events == before + starts
        invariant AreStarts(starts, activeLegacyUnits[..i])
        invariant forall u | u !in activeLegacyUnits[..i] :: u in active <==> u in old(active)
        invariant StartsWorked(starts) ==> forall u | u in activeLegacyUnits[..i] :: u in active
      {
        var ok := StartUnit(activeLegacyUnits[i]);
        ghost var more := starts + [Start(activeLegacyUnits[i], ok)];
        assert more[..i] == starts;
        assert StartsWorked(more) ==> StartsWorked(starts) && ok by {
          assert Start(activeLegacyUnits[i], ok) in more;
          assert forall e | e in starts :: e in more;
        }
        starts := more;
      }
      assert activeLegacyUnits[..n] == activeLegacyUnits;
      assert events[|before|..] == starts;
    }

    /** `stop_legacy_edge`: stops the active units in order; a failure restarts all it had stopped and gives up. */
    method StopLegacyEdge() returns (ok: bool)
      requires OnlyStops(events) && StopsWithin(events, [])
      modifies this`active, this`events, this`dokploy, this`swarm, this`listening, this`activeLegacyUnits
      ensures dryRun ==> ok && events == old(events) && active == old(active)
      ensures ok ==> OnlyStops(events) && old(events) <= events && StopsWithin(events, activeLegacyUnits)
      ensures ok ==> forall u | haveSystemctl && u in existing && u in old(active) :: u in activeLegacyUnits
      ensures ok ==> forall u | u in old(active) && u !in activeLegacyUnits :: u in active
      ensures forall u | u in activeLegacyUnits :: haveSystemctl && u in existing
      ensures ok && !dryRun ==> forall u | u in activeLegacyUnits ::
                Stopped(events, u) && u in old(active) && u !in active
      ensures !ok ==>
                Justified(StopFailed, events) && Covered(events) && forall e | e in events :: Preparing(e) || e.Start?
      ensures !ok ==> StartsWorked(events) ==> forall u | u in old(active) :: u in active
    {
      activeLegacyUnits := [];
      for i := 0 to |LEGACY_UNITS|
        invariant dryRun ==> events == old(events) && active == old(active)
        invariant OnlyStops(events) && old(events) <= events
        invariant StopsWithin(events, activeLegacyUnits)
        invariant forall u | u in LEGACY_UNITS[..i] && Exists(u) && u in old(active) :: u in activeLegacyUnits
        invariant forall u | u in activeLegacyUnits :: u in LEGACY_UNITS[..i] && Exists(u) && u in old(active)
        invariant forall u | u !in activeLegacyUnits :: u in active <==> u in old(active)
        invariant !dryRun ==> forall u | u in activeLegacyUnits :: Stopped(events, u) && u !in active
      {
        var unit := LEGACY_UNITS[i];
        assert unit !in LEGACY_UNITS[..i];
        if Exists(unit) && unit in active {
          activeLegacyUnits := activeLegacyUnits + [unit];
          var stopped := true;
          if !dryRun {
            stopped := StopUnit(unit);
          }
          if !stopped {
            ghost var before := events;
            RestartActiveLegacyEdge();
            assert events == before + events[|before|..];
            RestartCovers(before, activeLegacyUnits, events[|before|..]);
            return false;
          }
        }
      }
      assert LEGACY_UNITS[..|LEGACY_UNITS|] == LEGACY_UNITS;
      EdgeIs();
      return true;
    }

    /** What must hold before anything is fetched. */
    predicate MayInstall()
      reads this
    {
      && !dokploy && installDokploy && !swarm
      && if replaceLegacy then inventoryReadable && confirmed
         else !haveSs || (80 !in listening && 443 !in listening && 3000 !in listening)
    }

    /** The refusals at the head of `install_dokploy`. */
    method CheckGuards() returns (exit: Option<Exit>)
      requires events == []
      modifies this`events
      ensures exit.None? <==> MayInstall()
      ensures exit == Some(Finished) <==> !replaceLegacy && (dokploy || !installDokploy)
      ensures exit == Some(Died(AlreadyInstalled)) <==> replaceLegacy && dokploy
      ensures exit == Some(Died(CannotSkip)) <==> replaceLegacy && !dokploy && !installDokploy
      ensures exit == Some(Died(ForeignSwarm)) <==> !dokploy && installDokploy && swarm
      ensures exit == Some(Died(NotReviewed)) <==>
                !dokploy && installDokploy && !swarm && replaceLegacy && !(inventoryReadable && confirmed)
      ensures exit.Some? && exit.value.Died? ==> Justified(exit.value.reason, events)
      ensures events == [] || (!replaceLegacy && exists b :: events == [PortsSeen(b)])
      ensures exit.None? && !replaceLegacy ==> events == [PortsSeen([])]
    {
      if dokploy {
        return Some(if replaceLegacy then Died(AlreadyInstalled) else Finished);
      }
      if !installDokploy {
        return Some(if replaceLegacy then Died(CannotSkip) else Finished);
      }
      if swarm {
        return Some(Died(ForeignSwarm));
      }
      if replaceLegacy {
        if !inventoryReadable || !confirmed {
          return Some(Died(NotReviewed));
        }
      } else {
        var busy := BusyPorts();
        if busy != [] {
          assert busy[0] in busy;
          return Some(Died(PortsBusy));
        }
      }
      return None;
    }

    method RemoveFile() returns (ok: bool)
      modifies this`events
      ensures events == old(events) + [RemoveInstaller(ok)]
    {
      ok := *;
      events := events + [RemoveInstaller(ok)];
    }

    /** Makes the temporary file and downloads into it. */
    method FetchInstaller() returns (exit: Option<Exit>)
      modifies this`events, this`dokploy, this`swarm, this`listening
      ensures exit.None? ==> events == old(events) + [Download(true)]
      requires Download(true) !in events
      ensures exit.Some? ==> exit.value.Died? && Justified(exit.value.reason, events) && !Refusal(exit.value.reason)
      ensures exit.Some? ==>
                events == old(events) || exists r :: events == old(events) + [Download(false), RemoveInstaller(r)]
    {
      var made: bool := *;
      if !made {
        return Some(Died(NoInstaller));
      }
      var downloaded: bool := *;
      events := events + [Download(downloaded)];
      Pass();
      if !downloaded {
        var removed := RemoveFile();
        assert events == old(events) + [Download(false), RemoveInstaller(removed)];
        return Some(Died(if removed then NoInstaller else CleanupFailed));
      }
      return None;
    }

    /** Stops the old edge and looks at the ports again. */
    method ClearEdge() returns (exit: Option<Exit>)
      requires !dryRun && OnlyStops(events) && StopsWithin(events, []) && Download(true) in events
      modifies this`active, this`events, this`dokploy, this`swarm, this`listening, this`activeLegacyUnits
      ensures exit.None? ==> OnlyStops(events) && StopsWithin(events, activeLegacyUnits) && Cleared(events)
      ensures exit.None? ==> forall u | u in activeLegacyUnits :: Stopped(events, u)
      ensures exit.None? ==> forall u | haveSystemctl && u in existing && u in old(active) :: u in activeLegacyUnits
      ensures exit.Some? ==> exit.value.Died? && Justified(exit.value.reason, events) && Covered(events)
      ensures exit.Some? ==> !Refusal(exit.value.reason)
      ensures exit.Some? ==> forall e | e in events ::
                !e.Install? && !e.Disable? && !e.ReadySeen? && e != Download(false)
      ensures exit.Some? ==> StartsWorked(events) ==> forall u | u in old(active) :: u in active
    {
      hide Covered, StopsWithin, AreStarts, Stopped, Cleared;
      var stopped := StopLegacyEdge();
      if !stopped {
        return Some(Died(StopFailed));
      }
      ghost var afterStops := events;
      var busy := BusyPorts();
      assert events == afterStops + [PortsSeen(busy)];
      PortsLooked(afterStops, activeLegacyUnits, busy);
      if busy != [] {
        ghost var before := events;
        RestartActiveLegacyEdge();
        assert events == before + events[|before|..];
        RestartCovers(before, activeLegacyUnits, events[|before|..]);
        assert StartsWorked(events) ==> StartsWorked(events[|before|..]);
        ghost var restarted := events;
        var removed := RemoveFile();
        CoveredExtends(restarted, [RemoveInstaller(removed)]);
        assert forall e | e in events :: e in restarted || e == RemoveInstaller(removed);
        assert StartsWorked(events) ==> StartsWorked(restarted);
        return Some(Died(if removed then PortsBusy else CleanupFailed));
      }
      return None;
    }

    /** Runs the installer, which may do anything to the units; its failure restarts what was stopped. */
    method RunInstaller() returns (exit: Option<Exit>)
      requires OnlyStops(events) && StopsWithin(events, activeLegacyUnits) && Cleared(events)
      requires !replaceLegacy ==> activeLegacyUnits == []
      requires forall u | u in activeLegacyUnits :: Stopped(events, u)
      modifies this`active, this`events, this`dokploy, this`swarm, this`listening
      ensures exit.None? ==> events == old(events) + [Install(true), RemoveInstaller(true)]
      ensures exit.Some? ==> exit.value.Died? && Justified(exit.value.reason, events) && Accounted(events)
      ensures exit.Some? ==> !Refusal(exit.value.reason)
      ensures exit.Some? ==> forall e | e in events :: !e.Disable? && !e.ReadySeen? && e != Download(false)
      ensures exit.Some? && !replaceLegacy ==> NoUnitTouched(events)
      ensures exit.Some? && Abandoned(events) ==> exit == Some(Died(CleanupFailed))
      ensures exit.Some? && !Abandoned(events) && StartsWorked(events) ==>
                forall u | u in activeLegacyUnits :: u in active
    {
      hide Accounted, Cleared, OnlyStops, StopsWithin, AreStarts, Abandoned, Stopped, Justified;
      ghost var before := events;
      var installed: bool := *;
      active := *;
      events := events + [Install(installed)];
      Pass();
      if !installed {
        ghost var starts: seq<Event> := [];
        if replaceLegacy {
          RestartActiveLegacyEdge();
          starts := events[|before| + 1..];
          assert events == before + [Install(false)] + starts;
        } else {
          NoStarts();
          assert events == before + [Install(false)] + starts;
        }
        ghost var run := events;
        var removed := RemoveFile();
        assert events == run + [RemoveInstaller(removed)];
        FailedInstall(before, activeLegacyUnits, starts, removed);
        return Some(Died(if removed then InstallFailed else CleanupFailed));
      }
      var removed := RemoveFile();
      assert events == before + [Install(true), RemoveInstaller(removed)];
      if !removed {
        LeftBehind(before, activeLegacyUnits);
        return Some(Died(CleanupFailed));
      }
      return None;
    }

    /** `dokploy_ready`, as one look. */
    method DokployReady() returns (ready: bool)
      modifies this`events
      ensures ready <==> old(dokploy) && haveSs && old(80 in listening && 443 in listening && 3000 in listening)
      ensures events == old(events) + [ReadySeen(ready)]
    {
      ready := Ready();
      events := events + [ReadySeen(ready)];
    }

    /** `wait_for_dokploy_ready`: gives up only after 30 looks, none of which saw Dokploy ready. */
    method WaitForDokployReady() returns (ready: bool, ghost looks: seq<Event>)
      modifies this`events, this`dokploy, this`swarm, this`listening
      ensures events == old(events) + looks
      ensures AreLooks(looks, ready) && |looks| <= 30 && (!ready ==> |looks| == 30)
      ensures ready ==> dokploy && haveSs && 80 in listening && 443 in listening && 3000 in listening
    {
      looks := [];
      for attempt := 0 to READY_ATTEMPTS
        invariant events == old(events) + looks
        invariant |looks| == attempt
        invariant forall k | 0 <= k < attempt :: looks[k] == ReadySeen(false)
      {
        ready := DokployReady();
        looks := looks + [ReadySeen(ready)];
        if ready {
          return;
        }
        Pass();
      }
      ready := false;
    }

    /** Waits; when Dokploy never gets ready, restarts what was stopped. */
    method AwaitDokploy(ghost before: seq<Event>) returns (exit: Option<Exit>, ghost looks: seq<Event>)
      requires events == before + [Install(true), RemoveInstaller(true)]
      requires OnlyStops(before) && Cleared(before) && StopsWithin(before, activeLegacyUnits)
      requires !replaceLegacy ==> activeLegacyUnits == []
      modifies this`active, this`events, this`dokploy, this`swarm, this`listening
      ensures exit.None? ==> AreLooks(looks, true) && events == before + [Install(true), RemoveInstaller(true)] + looks
      ensures exit.Some? ==>
                && exit == Some(Died(NotReady)) && Justified(NotReady, events)
                && Accounted(events) && !Abandoned(events)
      ensures exit.Some? ==> forall e | e in events :: !e.Disable? && e != ReadySeen(true) && e != Download(false)
      ensures exit.Some? && !replaceLegacy ==> NoUnitTouched(events)
      ensures exit.Some? && StartsWorked(events) ==> forall u | u in activeLegacyUnits :: u in active
    {
      hide Accounted, Cleared, OnlyStops, StopsWithin, AreStarts, Abandoned, AreLooks;
      var ready;
      ready, looks := WaitForDokployReady();
      if !ready {
        ghost var waited := events;
        ghost var starts: seq<Event> := [];
        if replaceLegacy {
          RestartActiveLegacyEdge();
          starts := events[|waited|..];
        } else {
          NoStarts();
        }
        assert events == waited + starts;
        NeverReady(before, activeLegacyUnits, looks, starts);
        return Some(Died(NotReady)), looks;
      }
      return None, looks;
    }

    /** `disable_legacy_edge`: the first unit that cannot be disabled ends the script. */
    method DisableLegacyEdge() returns (ok: bool, ghost disables: seq<Event>)
      requires !dryRun
      modifies this`enabled, this`events, this`dokploy, this`swarm, this`listening
      ensures events == old(events) + disables
      ensures forall e | e in disables :: e.Disable? && haveSystemctl && e.u in existing
      ensures ok ==> forall u | haveSystemctl && u in existing :: Disable(u, true) in disables && u !in enabled
      ensures !ok ==> disables != [] && !disables[|disables| - 1].ok
    {
      disables := [];
      for i := 0 to |LEGACY_UNITS|
        invariant events == old(events) + disables
        invariant forall e | e in disables :: e.Disable? && haveSystemctl && e.u in existing
        invariant forall u | u in LEGACY_UNITS[..i] && Exists(u) :: Disable(u, true) in disables && u !in enabled
      {
        if Exists(LEGACY_UNITS[i]) {
          var disabled := DisableUnit(LEGACY_UNITS[i]);
          disables := disables + [Disable(LEGACY_UNITS[i], disabled)];
          if !disabled {
            return false, disables;
          }
        }
      }
      assert LEGACY_UNITS[..|LEGACY_UNITS|] == LEGACY_UNITS;
      EdgeIs();
      ok := true;
    }

    /**
     `install_dokploy`. Whatever the commands do: every stopped unit has had a start issued, or Dokploy was seen ready,
     unless the script died on removing the installer's file; no unit is disabled before Dokploy was seen ready; a
     failed download, a refusal, a dry run and a run without --replace-legacy issue no unit command.
     */
    method InstallDokploy() returns (exit: Exit)
      requires events == [] && activeLegacyUnits == []
      modifies this
      ensures Accounted(events)
      ensures dryRun || !replaceLegacy || !old(MayInstall()) || Download(false) in events ==> NoUnitTouched(events)
      ensures dryRun || !old(MayInstall()) || Download(false) in events ==>
                active == old(active) && enabled == old(enabled) && forall e | e in events :: !e.Install?
      ensures exit == Finished && !old(MayInstall()) <==> !replaceLegacy && (old(dokploy) || !installDokploy)
      ensures exit == Finished && replaceLegacy && !dryRun ==>
                && ReadySeen(true) in events
                && forall u | haveSystemctl && u in existing :: Disable(u, true) in events && u !in enabled
      ensures && exit.Died? && replaceLegacy && ReadySeen(true) !in events
              && !Abandoned(events) && StartsWorked(events) ==>
                forall u | haveSystemctl && u in existing && u in old(active) :: u in active
      ensures Abandoned(events) ==> exit == Died(CleanupFailed)
      ensures exit.Died? ==> Justified(exit.reason, events)
      ensures old(MayInstall()) && dryRun ==> exit == Finished
      ensures old(MayInstall()) && !dryRun && exit == Finished ==> Install(true) in events && ReadySeen(true) in events
      ensures exit == Died(AlreadyInstalled) <==> replaceLegacy && old(dokploy)
      ensures exit == Died(CannotSkip) <==> replaceLegacy && !old(dokploy) && !installDokploy
      ensures exit == Died(ForeignSwarm) <==> !old(dokploy) && installDokploy && old(swarm)
      ensures exit == Died(NotReviewed) <==>
                !old(dokploy) && installDokploy && !old(swarm) && replaceLegacy && !(inventoryReadable && confirmed)
    {
      hide Accounted, Cleared, OnlyStops, StopsWithin, AreStarts, Abandoned, AreLooks, Justified;
      var guard := CheckGuards();
      ghost var guarded := events;
      if guard.Some? {
        Untouched(guarded);
        return guard.value;
      }
      if dryRun {
        if replaceLegacy {
          Untouched(guarded);
          var _ := StopLegacyEdge();
        }
        Untouched(guarded);
        return Finished;
      }
      var fetched := FetchInstaller();
      if fetched.Some? {
        Untouched(events);
        return fetched.value;
      }
      Fetched(guarded);
      if replaceLegacy {
        var cleared := ClearEdge();
        if cleared.Some? {
          NotInstalled(events);
          return cleared.value;
        }
      }
      ghost var before := events;
      var ran := RunInstaller();
      if ran.Some? {
        return ran.value;
      }
      var ready, looks := AwaitDokploy(before);
      if ready.Some? {
        return ready.value;
      }
      ghost var disables: seq<Event> := [];
      var disabled := true;
      if replaceLegacy {
        disabled, disables := DisableLegacyEdge();
      }
      assert events == before + [Install(true), RemoveInstaller(true)] + looks + disables;
      SeenReady(before, activeLegacyUnits, looks, disables);
      if !disabled { LastFailed(before + [Install(true), RemoveInstaller(true)] + looks, disables); }
      return if disabled then Finished else Died(DisableFailed);
    }
  }

  /** At most 30 looks, of which only the last may have seen Dokploy ready; 30 if it did not. */
  predicate AreLooks(looks: seq<Event>, ready: bool) {
    && 1 <= |looks| <= READY_ATTEMPTS
    && (forall k | 0 <= k < |looks| - 1 :: looks[k] == ReadySeen(false))
    && looks[|looks| - 1] == ReadySeen(ready)
    && (!ready ==> |looks| == READY_ATTEMPTS)
  }

  /** Nothing but a look at the ports and a download happened. */
  lemma Untouched(ev: seq<Event>)
    requires forall e | e in ev :: e.PortsSeen? || e.Download? || e.RemoveInstaller?
    ensures Accounted(ev) && NoUnitTouched(ev) && !Abandoned(ev)
    ensures Download(false) !in ev && (forall e | e in ev :: !e.RemoveInstaller?) ==>
              OnlyStops(ev) && StopsWithin(ev, [])
  {
    NoStops(ev);
    NotInstalled(ev);
  }

  lemma Fetched(guarded: seq<Event>)
    requires guarded == [] || guarded == [PortsSeen([])]
    ensures var ev := guarded + [Download(true)];
            && OnlyStops(ev) && StopsWithin(ev, []) && Download(true) in ev
            && (guarded != [] ==> Cleared(ev))
  {
    var ev := guarded + [Download(true)];
    assert ev[|guarded|] == Download(true);
    if guarded != [] {
      assert ev[0] == PortsSeen([]);
    }
  }

  lemma NeverReady(before: seq<Event>, us: seq<LegacyUnit>, looks: seq<Event>, starts: seq<Event>)
    requires OnlyStops(before) && Cleared(before) && StopsWithin(before, us)
    requires AreLooks(looks, false) && AreStarts(starts, us)
    ensures var ev := before + [Install(true), RemoveInstaller(true)] + looks + starts;
            && Accounted(ev) && !Abandoned(ev)
            && (forall e | e in ev :: !e.Disable? && e != ReadySeen(true) && e != Download(false))
            && (us == [] ==> NoUnitTouched(ev))
            && (StartsWorked(ev) ==> StartsWorked(starts))
  {
    hide Cleared, InstalledWhenFree, Covered, DisabledWhenReady;
    var waited := before + [Install(true), RemoveInstaller(true)] + looks;
    var ev := waited + starts;
    assert forall e :: e in ev <==>
      e in before || e == Install(true) || e == RemoveInstaller(true) || e in looks || e in starts;
    assert forall e | e in looks :: e == ReadySeen(false);
    RestartCovers(waited, us, starts);
    InstalledOnce(before, true, [RemoveInstaller(true)] + looks + starts);
    assert ev == before + [Install(true)] + ([RemoveInstaller(true)] + looks + starts);
    NoDisables(ev);
    assert ev[|ev| - 2..][1] == ev[|ev| - 1] && (ev[|ev| - 1] in looks || ev[|ev| - 1] in starts);
  }

  lemma SeenReady(before: seq<Event>, us: seq<LegacyUnit>, looks: seq<Event>, disables: seq<Event>)
    requires OnlyStops(before) && Cleared(before)
    requires AreLooks(looks, true) && forall e | e in disables :: e.Disable?
    ensures var ev := before + [Install(true), RemoveInstaller(true)] + looks + disables;
            && Accounted(ev) && !Abandoned(ev) && ReadySeen(true) in ev && Download(false) !in ev
            && (forall e | e in disables :: e in ev)
            && (us == [] && StopsWithin(before, us) && disables == [] ==> NoUnitTouched(ev))
  {
    hide Cleared, InstalledWhenFree, Covered, DisabledWhenReady, Abandoned;
    var tail := [RemoveInstaller(true)] + looks;
    var seen := before + [Install(true)] + tail;
    var ev := before + [Install(true), RemoveInstaller(true)] + looks + disables;
    assert ev == before + [Install(true)] + (tail + disables) && ev == seen + disables;
    assert looks[|looks| - 1] in looks && forall e | e in looks :: e.ReadySeen?;
    assert forall e :: e in tail <==> e == RemoveInstaller(true) || e in looks;
    assert forall e :: e in tail + disables <==> e in tail || e in disables;
    SeenBefore(before, tail, disables);
    var end := tail + disables;
    assert ev[|ev| - 1] == end[|end| - 1] && end[|end| - 1] in end && RemoveInstaller(false) !in end;
    EndsOtherwise(ev);
  }

  lemma LastFailed(ev: seq<Event>, disables: seq<Event>)
    requires disables != [] && disables[|disables| - 1].Disable? && !disables[|disables| - 1].ok
    ensures Justified(DisableFailed, ev + disables)
  {
    assert disables[|disables| - 1] in ev + disables;
  }

  lemma SeenBefore(before: seq<Event>, tail: seq<Event>, disables: seq<Event>)
    requires OnlyStops(before) && Cleared(before)
    requires ReadySeen(true) in tail && forall e | e in tail :: e.ReadySeen? || e.RemoveInstaller?
    requires forall e | e in disables :: e.Disable?
    ensures var ev := before + [Install(true)] + (tail + disables);
            && Covered(ev) && DisabledWhenReady(ev) && InstalledWhenFree(ev)
            && forall e :: e in ev <==> e in before || e == Install(true) || e in tail || e in disables
  {
    hide Cleared, InstalledWhenFree, Covered, DisabledWhenReady;
    var more := tail + disables;
    var ev := before + [Install(true)] + more;
    InstalledOnce(before, true, more);
    CoveredExtends(before + [Install(true)], more);
    DisabledLater(before + [Install(true)] + tail, disables);
    assert ev == before + [Install(true)] + tail + disables;
  }

  lemma EndsOtherwise(ev: seq<Event>)
    requires ev != [] && ev[|ev| - 1] != RemoveInstaller(false)
    ensures !Abandoned(ev)
  {
    assert |ev| >= 2 ==> ev[|ev| - 2..][1] == ev[|ev| - 1];
  }

  lemma DisabledLater(seen: seq<Event>, disables: seq<Event>)
    requires ReadySeen(true) in seen && forall e | e in seen :: !e.Disable?
    ensures DisabledWhenReady(seen + disables)
  {
    var ev := seen + disables;
    assert forall i | 0 <= i < |seen| :: ev[i] in seen;
    forall i | 0 <= i < |ev| && ev[i].Disable? ensures ReadySeen(true) in ev[..i] {
      assert ev[..i][..|seen|] == seen;
    }
  }

  lemma PortsLooked(ev: seq<Event>, us: seq<LegacyUnit>, busy: seq<nat>)
    requires OnlyStops(ev) && StopsWithin(ev, us)
    requires forall u | u in us :: Stopped(ev, u)
    ensures OnlyStops(ev + [PortsSeen(busy)]) && StopsWithin(ev + [PortsSeen(busy)], us)
    ensures forall u | u in us :: Stopped(ev + [PortsSeen(busy)], u)
    ensures Download(true) in ev && busy == [] ==> Cleared(ev + [PortsSeen(busy)])
  {
    var all := ev + [PortsSeen(busy)];
    assert all[|ev|] == PortsSeen(busy);
    forall u | u in us ensures Stopped(all, u) {
      var e :| e in ev && e.Stop? && e.u == u;
      assert e in all;
    }
  }

  lemma NoStarts()
    ensures AreStarts([], [])
  {
  }

  lemma FailedInstall(before: seq<Event>, us: seq<LegacyUnit>, starts: seq<Event>, removed: bool)
    requires OnlyStops(before) && Cleared(before)
    requires StopsWithin(before, us) && AreStarts(starts, us)
    ensures var ev := before + [Install(false)] + starts + [RemoveInstaller(removed)];
            && Accounted(ev) && !Abandoned(ev)
            && (forall e | e in ev :: !e.Disable? && !e.ReadySeen? && e != Download(false))
            && (us == [] ==> NoUnitTouched(ev))
            && (StartsWorked(ev) ==> StartsWorked(starts))
            && Justified(if removed then InstallFailed else CleanupFailed, ev)
  {
    hide Cleared, InstalledWhenFree, Covered, DisabledWhenReady;
    var run := before + [Install(false)] + starts;
    var ev := run + [RemoveInstaller(removed)];
    RestartCovers(before + [Install(false)], us, starts);
    CoveredExtends(run, [RemoveInstaller(removed)]);
    InstalledOnce(before, false, starts + [RemoveInstaller(removed)]);
    assert ev == before + [Install(false)] + (starts + [RemoveInstaller(removed)]);
    assert ev[|ev| - 2..][0] == ev[|ev| - 2] && ev[|ev| - 2] in run;
    assert forall e :: e in ev <==> e in before || e == Install(false) || e in starts || e == RemoveInstaller(removed);
    NoDisables(ev);
  }

  lemma AbandonedTail(before: seq<Event>)
    ensures Abandoned(before + [Install(true), RemoveInstaller(false)]) <==> exists e :: e in before && e.Stop?
  {
    var tail := [Install(true), RemoveInstaller(false)];
    var ev := before + tail;
    assert ev[|ev| - 2..] == tail;
    assert forall e :: e in ev <==> e in before || e in tail;
  }

  lemma LeftBehind(before: seq<Event>, us: seq<LegacyUnit>)
    requires OnlyStops(before) && Cleared(before)
    requires StopsWithin(before, us)
    requires forall u | u in us :: Stopped(before, u)
    ensures var ev := before + [Install(true), RemoveInstaller(false)];
            && Accounted(ev)
            && (Abandoned(ev) <==> us != [])
            && (forall e | e in ev :: !e.Disable? && !e.ReadySeen? && e != Download(false))
            && (us == [] ==> NoUnitTouched(ev))
            && Justified(CleanupFailed, ev)
  {
    hide Cleared, InstalledWhenFree, Covered, DisabledWhenReady, Abandoned;
    var ev := before + [Install(true), RemoveInstaller(false)];
    AbandonedTail(before);
    InstalledOnce(before, true, [RemoveInstaller(false)]);
    assert ev == before + [Install(true)] + [RemoveInstaller(false)];
    assert forall e :: e in ev <==> e in before || e == Install(true) || e == RemoveInstaller(false);
    NoDisables(ev);
    if us == [] {
      NoStops(ev);
    } else {
      assert Stopped(before, us[0]);
      UncoveredStop(ev);
    }
  }

  lemma NoStops(ev: seq<Event>)
    requires forall e | e in ev :: !e.Stop?
    ensures Covered(ev)
  {
  }
}
