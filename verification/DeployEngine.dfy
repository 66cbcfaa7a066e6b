/**
 One deploy of one site as a transaction over its unit file, nginx configuration and enabled link
 (scripts/deploy_engine.py).

 Hooks, certbot and failing steps may do anything to the files; the engine promises what its rollback restores.
 */
module DeployEngine {

  import opened Wrappers
  import opened DeployRecord

  /** A path that a symlink can hold. */
  type LinkTarget = t: string | t != "" witness "/"

  datatype Link = NoLink | Symlink(target: LinkTarget) | RegularFile(content: string)

  datatype Artefact = UnitFile | NginxConf | EnabledLink

  datatype ServiceSnapshot = ServiceSnapshot(existed: bool, content: string)

  datatype NginxSnapshot = NginxSnapshot(existed: bool, content: string, linkExisted: bool, linkTarget: string)

  /** The parts of a deploy configuration that steer the engine, with the texts it renders. */
  datatype DeployConfig = DeployConfig(
    service: bool,
    unitText: string,
    confText: string,
    confPath: LinkTarget,
    healthRetries: nat,
    skipTls: bool)

  datatype Attempt = Finished | FailedAt(stage: Stage, rollback: RollbackStatus) | Aborted

  /** One operation of an attempt or of its rollback. */
  datatype Op =
    | Hook(stage: Stage)
    | ReadUnit | WriteUnit | RemoveUnit
    | DaemonReload | EnableUnit | RestartUnit | StopUnit | DisableUnit
    | CheckHealth
    | ReadSite | CheckRoot | BackUp | WriteConf | RemoveConf | Unlink | Relink | RemoveDefault
    | NginxTest | NginxReload | CopyBack
    | CheckDns

  /** An operation that returned or raised, and the configuration and enabled link it left. */
  datatype Entry = Entry(op: Op, ok: bool, conf: Option<string>, link: Link)

  /** The stage that reports a failure of the operation. */
  function StageOf(op: Op): Stage {
    match op
    case Hook(stage) => stage
    case CheckHealth => HealthCheck
    case CheckDns => DnsVerification
    case ReadSite | CheckRoot | BackUp | WriteConf | RemoveConf | Unlink | Relink | RemoveDefault => NginxConfig
    case NginxTest | NginxReload | CopyBack => NginxConfig
    case _ => RuntimeService
  }

  /** The operations ran in order, all of them or up to and including the first that raised. */
  predicate Ran(steps: seq<Entry>, ops: seq<Op>, ok: bool) {
    && |steps| <= |ops|
    && (forall i | 0 <= i < |steps| :: steps[i].op == ops[i])
    && (forall i | 0 <= i < |steps| - 1 :: steps[i].ok)
    && (if ok then |steps| == |ops| && (steps != [] ==> steps[|steps| - 1].ok)
        else steps != [] && !steps[|steps| - 1].ok)
  }

  /** Nginx is reloaded only right after a test that passed, with the configuration and link that were tested. */
  predicate Tested(steps: seq<Entry>) {
    forall i | 0 <= i < |steps| && steps[i].op.NginxReload? ::
      && i > 0 && steps[i - 1].op.NginxTest? && steps[i - 1].ok
      && steps[i - 1].conf == steps[i].conf && steps[i - 1].link == steps[i].link
  }

  lemma RanJoin(a: seq<Entry>, first: seq<Op>, b: seq<Entry>, second: seq<Op>, ok: bool)
    requires Ran(a, first, true) && Ran(b, second, ok)
    ensures Ran(a + b, first + second, ok)
  {
  }

  lemma RanShort(a: seq<Entry>, first: seq<Op>, second: seq<Op>)
    requires Ran(a, first, false)
    ensures Ran(a, first + second, false)
  {
  }

  /** The first operation that raised ends the run, whatever would have followed. */
  lemma JoinShort(a: seq<Entry>, first: seq<Op>, b: seq<Entry>, second: seq<Op>, rest: seq<Op>)
    requires Ran(a, first, true) && Ran(b, second, false)
    ensures Ran(a + b, first + second + rest, false)
    ensures (a + b)[|a + b| - 1] == b[|b| - 1]
  {
    RanJoin(a, first, b, second, false);
    RanShort(a + b, first + second, rest);
  }

  lemma OneRan(step: Entry)
    ensures Ran([step], [step.op], step.ok) && (!step.op.NginxReload? ==> Tested([step]))
  {
  }

  lemma NothingRan()
    ensures Ran([], [], true) && Tested([])
  {
  }

  lemma SomeRan(steps: seq<Entry>, ops: seq<Op>)
    requires Ran(steps, ops, false)
    ensures steps != []
  {
  }

  lemma LastAmong(steps: seq<Entry>, ops: seq<Op>)
    requires Ran(steps, ops, false)
    ensures steps != [] && steps[|steps| - 1].op in ops
  {
  }

  lemma LastOf(steps: seq<Entry>, ops: seq<Op>, stage: Stage)
    requires Ran(steps, ops, false) && forall op | op in ops :: StageOf(op) == stage
    ensures StageOf(steps[|steps| - 1].op) == stage
  {
  }

  lemma UnitStages(changed: bool)
    ensures forall op | op in UnitOps(changed) :: StageOf(op) == RuntimeService
  {
  }

  lemma SiteStages(existed: bool)
    ensures forall op | op in SiteOps(existed) :: StageOf(op) == NginxConfig
  {
  }

  lemma UnitNeverReloads(service: Option<ServiceSnapshot>)
    ensures service.Some? ==> NginxReload !in UndoUnitOps(service.value.existed)
  {
  }

  lemma ServiceNeverReloads(cfg: DeployConfig, unitAt: Option<Option<string>>)
    ensures NginxReload !in ServiceOps(cfg, unitAt)
  {
  }

  lemma TestedJoin(a: seq<Entry>, b: seq<Entry>)
    requires Tested(a) && Tested(b)
    ensures Tested(a + b)
  {
  }

  lemma NothingReloaded(steps: seq<Entry>, ops: seq<Op>, ok: bool)
    requires Ran(steps, ops, ok) && NginxReload !in ops
    ensures Tested(steps)
  {
  }

  /** Ensuring the service: a changed unit file is made known to systemd before the restart. */
  function UnitOps(changed: bool): seq<Op> {
    [WriteUnit] + (if changed then [DaemonReload, EnableUnit] else []) + [RestartUnit]
  }

  function SiteOps(existed: bool): seq<Op> {
    [CheckRoot] + (if existed then [BackUp] else [])
    + [WriteConf, Unlink, Relink, RemoveDefault, NginxTest, NginxReload]
  }

  /** The operations of the service stages, given the unit file that the snapshot saw. */
  function ServiceOps(cfg: DeployConfig, unitAt: Option<Option<string>>): seq<Op> {
    [Hook(PreDeployHook), Hook(DependencyInstall), Hook(BuildHook)] + OwnServiceOps(cfg, unitAt)
  }

  function OwnServiceOps(cfg: DeployConfig, unitAt: Option<Option<string>>): seq<Op> {
    if !cfg.service then []
    else [ReadUnit] + UnitOps(unitAt != Some(Some(cfg.unitText))) + [CheckHealth]
  }

  /** The operations of a whole attempt, in the order of its stages. */
  function PlannedOps(cfg: DeployConfig, unitAt: Option<Option<string>>, nginxAt: Option<(Option<string>, Link)>)
    : seq<Op>
  {
    ServiceOps(cfg, unitAt) + ([ReadSite] + SiteOps(nginxAt.Some? && nginxAt.value.0.Some?) + TailOps(cfg))
  }

  function TailOps(cfg: DeployConfig): seq<Op> {
    (if cfg.skipTls then [] else [CheckDns, Hook(TlsSetup)]) + [Hook(PostDeployHook)]
  }

  function UndoUnitOps(existed: bool): seq<Op> {
    if existed then [WriteUnit, DaemonReload, RestartUnit] else [RemoveUnit, DaemonReload, StopUnit, DisableUnit]
  }

  function UndoSiteOps(existed: bool, relinks: bool): seq<Op> {
    [if existed then WriteConf else RemoveConf, Unlink] + (if relinks then [Relink] else []) + [NginxTest, NginxReload]
  }

  /** The operations of a rollback to what the snapshots saw: the service first, then the site. */
  function UndoOps(unitAt: Option<Option<string>>, nginxAt: Option<(Option<string>, Link)>): seq<Op> {
    (if unitAt.None? then [] else UndoUnitOps(unitAt.value.Some?))
    + (if nginxAt.None? then []
       else UndoSiteOps(nginxAt.value.0.Some?,
                        nginxAt.value.1.Symlink? || (nginxAt.value.1.RegularFile? && nginxAt.value.0.Some?)))
  }

  /** The operations of a rollback to the given snapshots. */
  function SnapshotOps(service: Option<ServiceSnapshot>, nginx: Option<NginxSnapshot>): seq<Op> {
    (if service.None? then [] else UndoUnitOps(service.value.existed)) + SiteUndo(nginx)
  }

  function SiteUndo(nginx: Option<NginxSnapshot>): seq<Op> {
    if nginx.None? then []
    else
      UndoSiteOps(nginx.value.existed,
                  nginx.value.linkExisted && (nginx.value.linkTarget != "" || nginx.value.existed))
  }

  predicate EndsWithNewline(s: string) {
    s != "" && s[|s| - 1] == '\n'
  }

  function WithNewline(s: string): string {
    if EndsWithNewline(s) then s else s + "\n"
  }

  function FileSnapshot(f: Option<string>): ServiceSnapshot {
    match f
    case None => ServiceSnapshot(false, "")
    case Some(content) => ServiceSnapshot(true, content)
  }

  function SiteSnapshot(conf: Option<string>, link: Link): NginxSnapshot {
    NginxSnapshot(
      conf.Some?, if conf.Some? then conf.value else "",
      !link.NoLink?, if link.Symlink? then link.target else "")
  }

  /** What restoring a file makes of its present content. */
  function RestoredFile(existed: bool, content: string, now: Option<string>): Option<string> {
    if !existed then None
    else if now == Some(content) then now
    else Some(WithNewline(content))
  }

  function RestoredLink(s: NginxSnapshot, conf: Option<string>, confPath: LinkTarget): Link {
    if !s.linkExisted then NoLink
    else if s.linkTarget != "" then Symlink(s.linkTarget)
    else if conf.Some? then Symlink(confPath)
    else NoLink
  }

  /** A file comes back exactly if it was absent, ends in a newline, or was not changed in the first place. */
  lemma FileRestoredExactly(before: Option<string>, now: Option<string>)
    ensures var s := FileSnapshot(before);
            RestoredFile(s.existed, s.content, now) == before <==>
              before.None? || EndsWithNewline(before.value) || now == before
  {
    if before.Some? && !EndsWithNewline(before.value) {
      assert |WithNewline(before.value)| != |before.value|;
    }
  }

  /** A unit file without a final newline that was changed comes back with one. */
  lemma NewlineWitness()
    ensures RestoredFile(FileSnapshot(Some("a")).existed, FileSnapshot(Some("a")).content, Some("b")) == Some("a\n")
  {
    assert "a" + "\n" == "a\n" && "a" != "b";
  }

  /** The enabled link comes back exactly if it was absent or a symlink; a regular file never does. */
  lemma LinkRestoredExactly(conf: Option<string>, link: Link, restored: Option<string>, confPath: LinkTarget)
    ensures RestoredLink(SiteSnapshot(conf, link), restored, confPath) == link <==> !link.RegularFile?
  {
  }

  /**
   `write_if_changed`: leaves equal content alone, otherwise writes the content with a final newline. A write that
   fails may leave anything behind.
   */
  method WriteIfChanged(current: Option<string>, content: string)
    returns (ok: bool, changed: bool, next: Option<string>)
    ensures ok ==> changed == (current != Some(content))
    ensures ok ==> next == RestoredFile(true, content, current)
    ensures current == Some(content) && ok ==> next == current
  {
    next := current;
    changed := false;
    ok := *;
    if !ok {
      return;  // the directory or the old content could not be read
    }
    if current == Some(content) {
      return;
    }
    changed := true;
    ok := *;
    if ok {
      next := Some(WithNewline(content));
    } else {
      next := *;
    }
  }

  class Engine {
    var unit: Option<string>
    var conf: Option<string>
    var link: Link
    var lastGood: Option<string>
    var record: Record
    /** The operations of this attempt and of its rollback. */
    ghost var forward: seq<Entry>
    ghost var undone: seq<Entry>
    /** What the engine itself has written or removed during this attempt. */
    ghost var touched: set<Artefact>
    /** The files as they were when their snapshot was taken during this attempt. */
    ghost var unitAt: Option<Option<string>>
    ghost var nginxAt: Option<(Option<string>, Link)>
    /** What the service and nginx stages of this attempt left in place, and the unit file that answered a probe. */
    ghost var servedUnit: Option<string>
    ghost var servedSite: (Option<string>, Link)
    ghost var probed: Option<Option<string>>
    /** The unit file and configuration as the rollback found them. */
    ghost var unitThen: Option<string>
    ghost var confThen: Option<string>

    constructor (unit: Option<string>, conf: Option<string>, link: Link, lastGood: Option<string>, record: Record)
      ensures this.unit == unit && this.conf == conf && this.link == link && this.lastGood == lastGood
      ensures this.record == record
    {
      this.unit, this.conf, this.link, this.lastGood, this.record := unit, conf, link, lastGood, record;
      touched, unitAt, nginxAt, servedUnit, servedSite, probed := {}, None, None, None, (None, NoLink), None;
      unitThen, confThen, forward, undone := unit, conf, [], [];
    }

    /** The entry that an operation leaves behind. */
    ghost function Logged(op: Op, ok: bool): Entry
      reads this
    {
      Entry(op, ok, conf, link)
    }

    /** An operation that may raise and does not touch the files. */
    method Try(op: Op) returns (ok: bool, ghost step: seq<Entry>)
      ensures step == [Logged(op, ok)]
    {
      ok := *;
      step := [Logged(op, ok)];
    }

    /** Someone else's code runs: a hook or certbot. The files may be anything afterwards. */
    method RunForeign(stage: Stage) returns (ok: bool, ghost step: seq<Entry>)
      modifies this`unit, this`conf, this`link, this`lastGood
      ensures step == [Logged(Hook(stage), ok)]
    {
      unit := *;
      conf := *;
      link := *;
      lastGood := *;
      ok, step := Try(Hook(stage));
    }

    /** `capture_runtime_service_snapshot`; reading the file may raise, and a static site has no unit file. */
    method CaptureService(cfg: DeployConfig) returns (ok: bool, s: Option<ServiceSnapshot>, ghost steps: seq<Entry>)
      modifies this`unitAt
      ensures steps == if cfg.service then [Logged(ReadUnit, ok)] else []
      ensures !cfg.service ==> ok
      ensures ok && cfg.service ==> s == Some(FileSnapshot(unit)) && unitAt == Some(unit)
      ensures !ok || !cfg.service ==> s == None && unitAt == old(unitAt)
    {
      if !cfg.service {
        return true, None, [];
      }
      s := None;
      ok, steps := Try(ReadUnit);
      if ok {
        s := Some(FileSnapshot(unit));
        unitAt := Some(unit);
      }
    }

    /** `ensure_runtime_service`: systemd is told about a changed unit file before the restart. */
    method EnsureService(cfg: DeployConfig) returns (ok: bool, ghost steps: seq<Entry>)
      modifies this`unit, this`touched, this`servedUnit
      ensures !cfg.service ==> ok && unit == old(unit) && touched == old(touched) && steps == []
      ensures cfg.service ==> Ran(steps, UnitOps(old(unit) != Some(cfg.unitText)), ok)
      ensures touched <= old(touched) + {UnitFile}
      ensures unit != old(unit) ==> UnitFile in touched
      ensures ok && cfg.service ==> unit == RestoredFile(true, cfg.unitText, old(unit)) && servedUnit == unit
    {
      if !cfg.service {
        return true, [];
      }
      var changed;
      ghost var step;
      ok, changed, unit := WriteIfChanged(unit, cfg.unitText);
      steps := [Logged(WriteUnit, ok)];
      if !ok || changed {
        touched := touched + {UnitFile};
      }
      if !ok { return; }
      if changed {
        ok, step := Try(DaemonReload);
        steps := steps + step;
        if !ok { return; }
        ok, step := Try(EnableUnit);
        steps := steps + step;
        if !ok { return; }
      }
      ok, step := Try(RestartUnit);
      steps := steps + step;
      servedUnit := unit;
    }

    /** `wait_for_service_health`: as many probes as configured; a static site is not probed. */
    method WaitForHealth(cfg: DeployConfig) returns (ok: bool, ghost probes: nat, ghost steps: seq<Entry>)
      modifies this`probed
      ensures steps == if cfg.service then [Logged(CheckHealth, ok)] else []
      ensures ok && cfg.service ==> probed == Some(unit)
      ensures !cfg.service ==> ok && probes == 0
      ensures cfg.service ==> probes <= cfg.healthRetries && (!ok ==> probes == cfg.healthRetries)
    {
      probes := 0;
      if !cfg.service {
        return true, 0, [];
      }
      for attempt := 0 to cfg.healthRetries
        invariant probes == attempt
      {
        var healthy: bool := *;
        probes := probes + 1;
        if healthy {
          probed := Some(unit);
          return true, probes, [Logged(CheckHealth, true)];
        }
      }
      ok, steps := false, [Logged(CheckHealth, false)];
    }

    /** `capture_nginx_site_snapshot`. */
    method CaptureNginx() returns (ok: bool, s: Option<NginxSnapshot>, ghost steps: seq<Entry>)
      modifies this`nginxAt
      ensures steps == [Logged(ReadSite, ok)]
      ensures ok ==> s == Some(SiteSnapshot(conf, link)) && nginxAt == Some((conf, link))
      ensures !ok ==> s == None && nginxAt == old(nginxAt)
    {
      s := None;
      ok, steps := Try(ReadSite);
      if ok {
        s := Some(SiteSnapshot(conf, link));
        nginxAt := Some((conf, link));
      }
    }

    /** Removes the enabled link, if there is one, and sets it anew when that is wanted. */
    method SetLink(target: Option<LinkTarget>) returns (ok: bool, ghost steps: seq<Entry>)
      modifies this`link
      ensures Ran(steps, [Unlink] + (if target.Some? then [Relink] else []), ok) && Tested(steps)
      ensures ok ==> link == if target.Some? then Symlink(target.value) else NoLink
    {
      ok := *;
      if ok { link := NoLink; }
      steps := [Logged(Unlink, ok)];
      if !ok || target.None? { return; }
      ok := *;
      if ok { link := Symlink(target.value); }
      steps := steps + [Logged(Relink, ok)];
    }

    /** `nginx -t`, and the reload when it passes. */
    method TestThenReload() returns (passed: bool, ok: bool, ghost steps: seq<Entry>)
      ensures Ran(steps, [NginxTest, NginxReload], ok) && Tested(steps)
      ensures steps[0].op.NginxTest? && (passed <==> steps[0].ok)
      ensures !ok ==> steps[|steps| - 1].op == if passed then NginxReload else NginxTest
    {
      ghost var step;
      passed, steps := Try(NginxTest);
      ok := passed;
      if !passed { return; }
      ok, step := Try(NginxReload);
      steps := steps + step;
    }

    /** Checks the root and backs up the present configuration. */
    method BackUpSite() returns (ok: bool, ghost steps: seq<Entry>)
      modifies this`lastGood
      ensures Ran(steps, [CheckRoot] + (if conf.Some? then [BackUp] else []), ok) && Tested(steps)
      ensures ok ==> lastGood == if conf.Some? then conf else old(lastGood)
    {
      ghost var step;
      ok, steps := Try(CheckRoot);
      if !ok || conf.None? { return; }
      ok, step := Try(BackUp);
      steps := steps + step;
      lastGood := conf;
      if !ok { lastGood := *; }
    }

    /** Writes the configuration and links it. */
    method PlaceSite(cfg: DeployConfig) returns (ok: bool, ghost steps: seq<Entry>)
      modifies this`conf, this`link, this`touched
      ensures Ran(steps, [WriteConf, Unlink, Relink, RemoveDefault], ok) && Tested(steps)
      ensures touched <= old(touched) + {NginxConf, EnabledLink}
      ensures conf != old(conf) ==> NginxConf in touched
      ensures link != old(link) ==> EnabledLink in touched
      ensures ok ==> conf == RestoredFile(true, cfg.confText, old(conf)) && link == Symlink(cfg.confPath)
    {
      hide WithNewline, Ran, Tested;
      var changed;
      ghost var step;
      ok, changed, conf := WriteIfChanged(conf, cfg.confText);
      steps := [Logged(WriteConf, ok)];
      OneRan(steps[0]);
      if !ok || changed {
        touched := touched + {NginxConf};
      }
      if !ok {
        RanShort(steps, [WriteConf], [Unlink, Relink, RemoveDefault]);
        assert [WriteConf] + [Unlink, Relink, RemoveDefault] == [WriteConf, Unlink, Relink, RemoveDefault];
        return;
      }
      touched := touched + {EnabledLink};
      ok, step := SetLink(Some(cfg.confPath));
      assert [Unlink] + [Relink] == [Unlink, Relink];
      TestedJoin(steps, step);
      RanJoin(steps, [WriteConf], step, [Unlink, Relink], ok);
      steps := steps + step;
      if !ok {
        RanShort(steps, [WriteConf] + [Unlink, Relink], [RemoveDefault]);
        assert [WriteConf] + [Unlink, Relink] + [RemoveDefault] == [WriteConf, Unlink, Relink, RemoveDefault];
        return;
      }
      ok, step := Try(RemoveDefault);
      OneRan(step[0]);
      TestedJoin(steps, step);
      RanJoin(steps, [WriteConf] + [Unlink, Relink], step, [RemoveDefault], ok);
      assert [WriteConf] + [Unlink, Relink] + [RemoveDefault] == [WriteConf, Unlink, Relink, RemoveDefault];
      steps := steps + step;
    }

    /**
     `apply_nginx_site_config`: back up, write, relink, test, reload; any step may raise half-way. When the test fails,
     the last good configuration, if there is one, is copied back.
     */
    method ApplyNginx(cfg: DeployConfig) returns (ok: bool, ghost steps: seq<Entry>, ghost back: seq<Entry>)
      modifies this`conf, this`link, this`lastGood, this`touched, this`servedSite
      ensures Ran(steps, SiteOps(old(conf).Some?), ok) && Tested(steps)
      ensures touched <= old(touched) + {NginxConf, EnabledLink}
      ensures conf != old(conf) ==> NginxConf in touched
      ensures link != old(link) ==> EnabledLink in touched
      ensures ok ==> conf == RestoredFile(true, cfg.confText, old(conf)) && link == Symlink(cfg.confPath)
      ensures ok ==> servedSite == (conf, link)
      ensures ok ==> lastGood == if old(conf).Some? then old(conf) else old(lastGood)
      ensures ok || !steps[|steps| - 1].op.NginxTest? ==> back == []
      ensures !ok && steps[|steps| - 1].op.NginxTest? ==>
                && lastGood == (if old(conf).Some? then old(conf) else old(lastGood))
                && link == Symlink(cfg.confPath)
                && if lastGood.None? then back == [] && conf == RestoredFile(true, cfg.confText, old(conf))
                   else |back| == 1 && back[0].op.CopyBack? && (back[0].ok ==> conf == lastGood)
    {
      hide Ran, Tested, RestoredFile;
      ghost var step;
      ghost var backed := [CheckRoot] + (if conf.Some? then [BackUp] else []);
      ghost var placed, last := [WriteConf, Unlink, Relink, RemoveDefault], [NginxTest, NginxReload];
      assert backed + placed + last == SiteOps(conf.Some?);
      assert backed + (placed + last) == SiteOps(conf.Some?);
      back := [];
      ok, steps := BackUpSite();
      if !ok {
        RanShort(steps, backed, placed + last);
        LastAmong(steps, backed);
        return;
      }
      ok, step := PlaceSite(cfg);
      TestedJoin(steps, step);
      if !ok {
        JoinShort(steps, backed, step, placed, last);
        LastAmong(step, placed);
        steps := steps + step;
        return;
      }
      RanJoin(steps, backed, step, placed, true);
      steps := steps + step;
      var passed;
      passed, ok, step := TestThenReload();
      TestedJoin(steps, step);
      RanJoin(steps, backed + placed, step, last, ok);
      assert (steps + step)[|steps + step| - 1] == step[|step| - 1];
      steps := steps + step;
      if !passed {
        if lastGood.Some? {
          touched := touched + {NginxConf};
          var copied: bool := *;
          conf := lastGood;
          if !copied {
            conf := *;
          }
          back := [Logged(CopyBack, copied)];
        }
        return;
      }
      servedSite := (conf, link);
    }

    /** `restore_runtime_service_snapshot`; the flag says whether anything was attempted. */
    method RestoreService(s: Option<ServiceSnapshot>) returns (ok: bool, attempted: bool, ghost steps: seq<Entry>)
      modifies this`unit, this`touched
      ensures s.None? ==> steps == []
      ensures s.Some? ==> Ran(steps, UndoUnitOps(s.value.existed), ok)
      ensures ok ==> attempted == s.Some?
      ensures ok && s.Some? ==> unit == RestoredFile(s.value.existed, s.value.content, old(unit))
      ensures s.None? ==> ok && unit == old(unit) && touched == old(touched)
      ensures unit != old(unit) ==> UnitFile in touched
      ensures touched <= old(touched) + {UnitFile}
    {
      attempted := false;
      if s.None? {
        return true, false, [];
      }
      ghost var step;
      touched := touched + {UnitFile};
      if s.value.existed {
        var changed;
        ok, changed, unit := WriteIfChanged(unit, s.value.content);
        steps := [Logged(WriteUnit, ok)];
        if !ok { return; }
      } else {
        ok, steps := Try(RemoveUnit);
        if !ok { return; }
        unit := None;
      }
      ok, step := Try(DaemonReload);
      steps := steps + step;
      if !ok { return; }
      if s.value.existed {
        ok, step := Try(RestartUnit);
        steps := steps + step;
        if !ok { return; }
      } else {
        // neither command is checked
        steps := steps + [Logged(StopUnit, true), Logged(DisableUnit, true)];
      }
      attempted := true;
    }

    /** Puts the old configuration back, or removes the present one. */
    method RestoreConf(s: NginxSnapshot) returns (ok: bool, ghost steps: seq<Entry>)
      modifies this`conf
      ensures Ran(steps, [if s.existed then WriteConf else RemoveConf], ok) && Tested(steps)
      ensures ok ==> conf == RestoredFile(s.existed, s.content, old(conf))
    {
      if s.existed {
        var changed;
        ok, changed, conf := WriteIfChanged(conf, s.content);
        steps := [Logged(WriteConf, ok)];
      } else {
        ok := *;
        if ok { conf := None; }
        steps := [Logged(RemoveConf, ok)];
      }
    }

    /** `restore_nginx_site_snapshot`. */
    method RestoreNginx(s: Option<NginxSnapshot>, confPath: LinkTarget)
      returns (ok: bool, attempted: bool, ghost steps: seq<Entry>)
      modifies this`conf, this`link, this`touched
      ensures Ran(steps, SiteUndo(s), ok) && Tested(steps)
      ensures ok ==> attempted == s.Some?
      ensures ok && s.Some? ==>
                && conf == RestoredFile(s.value.existed, s.value.content, old(conf))
                && link == RestoredLink(s.value, conf, confPath)
      ensures s.None? ==> ok && conf == old(conf) && link == old(link) && touched == old(touched)
      ensures (conf != old(conf) ==> NginxConf in touched) && (link != old(link) ==> EnabledLink in touched)
      ensures touched <= old(touched) + {NginxConf, EnabledLink}
    {
      attempted := false;
      if s.None? {
        NothingRan();
        return true, false, [];
      }
      hide Ran, Tested, WithNewline;
      ghost var step;
      ghost var first, last := [if s.value.existed then WriteConf else RemoveConf], [NginxTest, NginxReload];
      touched := touched + {NginxConf, EnabledLink};
      ok, steps := RestoreConf(s.value);
      var relinks := s.value.linkExisted && (s.value.linkTarget != "" || s.value.existed);
      ghost var links := [Unlink] + (if relinks then [Relink] else []);
      assert first + links + last == SiteUndo(s);
      if !ok {
        RanShort(steps, first, links + last);
        assert first + (links + last) == SiteUndo(s);
        return;
      }
      assert conf.Some? <==> s.value.existed;
      ok, step := SetLink(if !s.value.linkExisted then None
                          else if s.value.linkTarget != "" then Some(s.value.linkTarget)
                          else if conf.Some? then Some(confPath) else None);
      TestedJoin(steps, step);
      if !ok {
        JoinShort(steps, first, step, links, last);
        steps := steps + step;
        return;
      }
      RanJoin(steps, first, step, links, true);
      steps := steps + step;
      var passed;
      passed, ok, step := TestThenReload();
      TestedJoin(steps, step);
      RanJoin(steps, first + links, step, last, ok);
      steps := steps + step;
      attempted := ok;
    }

    /** `rollback_deployment`: service first, then nginx; an exception in either makes the rollback failed. */
    method Rollback(service: Option<ServiceSnapshot>, nginx: Option<NginxSnapshot>, confPath: LinkTarget)
      returns (status: RollbackStatus, ghost steps: seq<Entry>)
      modifies this`unit, this`conf, this`link, this`touched
      ensures Ran(steps, SnapshotOps(service, nginx), !status.RollbackFailed?) && Tested(steps)
      ensures status.NotNeeded? <==> service.None? && nginx.None?
      ensures service.None? ==> unit == old(unit)
      ensures nginx.None? ==> conf == old(conf) && link == old(link)
      ensures touched <= old(touched) + (if service.Some? then {UnitFile} else {})
                         + (if nginx.Some? then {NginxConf, EnabledLink} else {})
      ensures status.Succeeded? && service.Some? ==>
                unit == RestoredFile(service.value.existed, service.value.content, old(unit))
      ensures status.Succeeded? && nginx.Some? ==>
                && conf == RestoredFile(nginx.value.existed, nginx.value.content, old(conf))
                && link == RestoredLink(nginx.value, conf, confPath)
    {
      hide RestoredFile, RestoredLink, UndoUnitOps, SiteUndo;
      var ok, first, second;
      ghost var more;
      ghost var unitOps := if service.None? then [] else UndoUnitOps(service.value.existed);
      ok, first, steps := RestoreService(service);
      UnitNeverReloads(service);
      NothingReloaded(steps, unitOps, ok);
      if !ok {
        RanShort(steps, unitOps, SiteUndo(nginx));
        return RollbackFailed, steps;
      }
      ok, second, more := RestoreNginx(nginx, confPath);
      RanJoin(steps, unitOps, more, SiteUndo(nginx), ok);
      TestedJoin(steps, more);
      steps := steps + more;
      if !ok { return RollbackFailed, steps; }
      status := if first || second then Succeeded else NotNeeded;
    }

    /** The engine touches a file only after its snapshot has been taken. */
    ghost predicate Guarded()
      reads this`touched, this`unitAt, this`nginxAt
    {
      && (UnitFile in touched ==> unitAt.Some?)
      && (NginxConf in touched || EnabledLink in touched ==> nginxAt.Some?)
    }

    /** The snapshots held by the attempt are those of the files at the time they were taken. */
    ghost predicate Holds(service: Option<ServiceSnapshot>, nginx: Option<NginxSnapshot>)
      reads this`touched, this`unitAt, this`nginxAt
    {
      && (service.Some? <==> unitAt.Some?) && (service.Some? ==> service.value == FileSnapshot(unitAt.value))
      && (nginx.Some? <==> nginxAt.Some?)
      && (nginx.Some? ==> nginx.value == SiteSnapshot(nginxAt.value.0, nginxAt.value.1))
      && Guarded()
    }

    /** The service stages put the rendered unit in place and it answered. */
    ghost predicate ServiceUp(cfg: DeployConfig)
      reads this`unitAt, this`probed, this`servedUnit
    {
      cfg.service ==> unitAt.Some? && probed == Some(servedUnit) && Carries(servedUnit, cfg.unitText)
    }

    /** The service and nginx stages put the rendered texts in place and the service answered. */
    ghost predicate Served(cfg: DeployConfig)
      reads this`unitAt, this`probed, this`servedUnit, this`nginxAt, this`servedSite
    {
      && ServiceUp(cfg)
      && nginxAt.Some? && Carries(servedSite.0, cfg.confText) && servedSite.1 == Symlink(cfg.confPath)
    }

    /** The three hooks before the service. */
    method RunHooks() returns (failed: Option<Stage>, ghost steps: seq<Entry>)
      modifies this`unit, this`conf, this`link, this`lastGood
      ensures Ran(steps, [Hook(PreDeployHook), Hook(DependencyInstall), Hook(BuildHook)], failed.None?)
      ensures failed.Some? ==> steps[|steps| - 1].op == Hook(failed.value)
    {
      ghost var step;
      var ok;
      ok, steps := RunForeign(PreDeployHook);
      if !ok { return Some(PreDeployHook), steps; }
      ok, step := RunForeign(DependencyInstall);
      steps := steps + step;
      if !ok { return Some(DependencyInstall), steps; }
      ok, step := RunForeign(BuildHook);
      steps := steps + step;
      failed := if ok then None else Some(BuildHook);
    }

    /** The snapshot of the unit file, then the service; nothing for a static site. */
    method SetUpService(cfg: DeployConfig)
      returns (ok: bool, service: Option<ServiceSnapshot>, ghost steps: seq<Entry>)
      requires touched == {} && unitAt.None?
      modifies this`unit, this`touched, this`unitAt, this`servedUnit
      ensures cfg.service ==> Ran(steps, [ReadUnit] + UnitOps(unitAt != Some(Some(cfg.unitText))), ok)
      ensures !cfg.service ==> ok && steps == [] && touched == {} && unitAt.None?
      ensures !ok ==> StageOf(steps[|steps| - 1].op) == RuntimeService
      ensures service.Some? <==> unitAt.Some?
      ensures service.Some? ==> cfg.service && service.value == FileSnapshot(unitAt.value)
      ensures touched <= if unitAt.Some? then {UnitFile} else {}
      ensures ok && cfg.service ==> unitAt.Some? && servedUnit == unit && Carries(servedUnit, cfg.unitText)
    {
      hide Ran, UnitOps, WithNewline;
      ghost var step;
      ok, service, steps := CaptureService(cfg);
      if !cfg.service {
        var _, _ := EnsureService(cfg);
        return;
      }
      OneRan(steps[0]);
      ghost var own := UnitOps(unitAt != Some(Some(cfg.unitText)));
      if !ok {
        RanShort(steps, [ReadUnit], own);
        return;
      }
      ok, step := EnsureService(cfg);
      if !ok {
        UnitStages(unitAt != Some(Some(cfg.unitText)));
        LastOf(step, own, RuntimeService);
        JoinShort(steps, [ReadUnit], step, own, []);
      }
      RanJoin(steps, [ReadUnit], step, own, ok);
      steps := steps + step;
    }

    /** The service and its health check; nothing for a static site. */
    method RunService(cfg: DeployConfig)
      returns (failed: Option<Stage>, service: Option<ServiceSnapshot>, ghost steps: seq<Entry>)
      requires touched == {} && unitAt.None? && nginxAt.None? && probed.None?
      modifies this`unit, this`touched, this`unitAt, this`servedUnit, this`probed
      ensures Ran(steps, OwnServiceOps(cfg, unitAt), failed.None?)
      ensures failed.Some? ==> StageOf(steps[|steps| - 1].op) == failed.value
      ensures Holds(service, None)
      ensures failed.None? ==> ServiceUp(cfg)
      ensures service.Some? ==> cfg.service
    {
      hide Ran, UnitOps, Carries;
      ghost var step;
      var ok;
      ok, service, steps := SetUpService(cfg);
      ghost var own := [ReadUnit] + UnitOps(unitAt != Some(Some(cfg.unitText)));
      if !ok {
        RanShort(steps, own, [CheckHealth]);
        return Some(RuntimeService), service, steps;
      }
      ghost var probes;
      ok, probes, step := WaitForHealth(cfg);
      if cfg.service {
        OneRan(step[0]);
        RanJoin(steps, own, step, [CheckHealth], ok);
      } else {
        NothingRan();
      }
      steps := steps + step;
      failed := if ok then None else Some(HealthCheck);
    }

    /** The hooks, the runtime service and its health check, up to the first failure. */
    method RunServiceStages(cfg: DeployConfig)
      returns (failed: Option<Stage>, service: Option<ServiceSnapshot>, ghost steps: seq<Entry>)
      requires touched == {} && unitAt.None? && nginxAt.None? && probed.None?
      modifies this`unit, this`conf, this`link, this`lastGood, this`touched, this`unitAt, this`servedUnit, this`probed
      ensures Ran(steps, ServiceOps(cfg, unitAt), failed.None?)
      ensures failed.Some? ==> StageOf(steps[|steps| - 1].op) == failed.value
      ensures Holds(service, None)
      ensures failed.None? ==> ServiceUp(cfg)
      ensures service.Some? ==> cfg.service
    {
      hide Ran, UnitOps, Carries;
      service := None;
      ghost var step;
      ghost var hooks := [Hook(PreDeployHook), Hook(DependencyInstall), Hook(BuildHook)];
      failed, steps := RunHooks();
      if failed.Some? {
        RanShort(steps, hooks, OwnServiceOps(cfg, unitAt));
        return;
      }
      failed, service, step := RunService(cfg);
      RanJoin(steps, hooks, step, OwnServiceOps(cfg, unitAt), failed.None?);
      if failed.Some? {
        SomeRan(step, OwnServiceOps(cfg, unitAt));
        assert (steps + step)[|steps + step| - 1] == step[|step| - 1];
      }
      steps := steps + step;
    }

    /** The snapshot of the site, then its configuration. */
    method RunSite(cfg: DeployConfig, ghost service: Option<ServiceSnapshot>)
      returns (ok: bool, nginx: Option<NginxSnapshot>, ghost steps: seq<Entry>)
      requires Holds(service, None)
      modifies this`conf, this`link, this`lastGood, this`touched, this`nginxAt, this`servedSite
      ensures Ran(steps, [ReadSite] + SiteOps(nginxAt.Some? && nginxAt.value.0.Some?), ok) && Tested(steps)
      ensures !ok ==> StageOf(steps[|steps| - 1].op) == NginxConfig
      ensures Holds(service, nginx) && (ok ==> nginx.Some?)
      ensures ok ==> nginxAt.Some? && Carries(servedSite.0, cfg.confText) && servedSite.1 == Symlink(cfg.confPath)
    {
      hide Ran, Tested, SiteOps, WithNewline;
      ghost var step;
      ok, nginx, steps := CaptureNginx();
      OneRan(steps[0]);
      if !ok {
        RanShort(steps, [ReadSite], SiteOps(false));
        return;
      }
      ghost var site := SiteOps(nginxAt.value.0.Some?);
      ghost var back;
      ok, step, back := ApplyNginx(cfg);
      TestedJoin(steps, step);
      RanJoin(steps, [ReadSite], step, site, ok);
      if !ok {
        SiteStages(nginxAt.value.0.Some?);
        LastOf(step, site, NginxConfig);
        JoinShort(steps, [ReadSite], step, site, []);
      }
      steps := steps + step;
    }

    /** DNS, TLS and the last hook. */
    method RunTail(cfg: DeployConfig) returns (failed: Option<Stage>, aborted: bool, ghost steps: seq<Entry>)
      modifies this`unit, this`conf, this`link, this`lastGood
      ensures Ran(steps, TailOps(cfg), failed.None? && !aborted) && Tested(steps)
      ensures failed.Some? ==> StageOf(steps[|steps| - 1].op) == failed.value
      ensures aborted ==> failed.None? && !cfg.skipTls && steps[|steps| - 1].op == CheckDns
    {
      aborted, steps := false, [];
      ghost var step;
      var ok;
      if !cfg.skipTls {
        ok, steps := Try(CheckDns);
        if !ok {
          // DNS is not ready: SystemExit, which the handler does not catch
          aborted := *;
          failed := if aborted then None else Some(DnsVerification);
          return;
        }
        ok, step := RunForeign(TlsSetup);
        steps := steps + step;
        if !ok { return Some(TlsSetup), false, steps; }
      }
      ok, step := RunForeign(PostDeployHook);
      steps := steps + step;
      failed := if ok then None else Some(PostDeployHook);
    }

    /** The stages of an attempt up to the first failure; `None` means that every stage passed. */
    method RunStages(cfg: DeployConfig)
      returns (failed: Option<Stage>, aborted: bool, service: Option<ServiceSnapshot>, nginx: Option<NginxSnapshot>,
               ghost steps: seq<Entry>)
      requires touched == {} && unitAt.None? && nginxAt.None? && probed.None?
      modifies this`unit, this`conf, this`link, this`lastGood, this`touched, this`unitAt, this`nginxAt
      modifies this`servedUnit, this`servedSite, this`probed
      ensures Ran(steps, PlannedOps(cfg, unitAt, nginxAt), failed.None? && !aborted) && Tested(steps)
      ensures failed.Some? ==> StageOf(steps[|steps| - 1].op) == failed.value
      ensures aborted ==> steps[|steps| - 1].op == CheckDns
      ensures Holds(service, nginx)
      ensures failed.None? && !aborted ==> Served(cfg)
      ensures aborted ==> failed.None? && !cfg.skipTls && nginx.Some?
      ensures service.Some? ==> cfg.service
    {
      hide Ran, Tested, ServiceOps, SiteOps, TailOps, Carries, StageOf, FileSnapshot, SiteSnapshot, ServiceUp, Holds;
      nginx, aborted := None, false;
      ghost var step;
      failed, service, steps := RunServiceStages(cfg);
      ServiceNeverReloads(cfg, unitAt);
      NothingReloaded(steps, ServiceOps(cfg, unitAt), failed.None?);
      if failed.Some? {
        RanShort(steps, ServiceOps(cfg, unitAt), [ReadSite] + SiteOps(false) + TailOps(cfg));
        return;
      }
      var ok;
      ghost var done := ServiceOps(cfg, unitAt);
      ok, nginx, step := RunSite(cfg, service);
      TestedJoin(steps, step);
      ghost var site := [ReadSite] + SiteOps(nginxAt.Some? && nginxAt.value.0.Some?);
      assert done + (site + TailOps(cfg)) == done + site + TailOps(cfg);
      if !ok {
        JoinShort(steps, done, step, site, TailOps(cfg));
        return Some(NginxConfig), false, service, nginx, steps + step;
      }
      RanJoin(steps, done, step, site, true);
      steps := steps + step;
      failed, aborted, step := RunTail(cfg);
      TestedJoin(steps, step);
      RanJoin(steps, done + site, step, TailOps(cfg), failed.None? && !aborted);
      if failed.Some? || aborted { JoinShort(steps, done + site, step, TailOps(cfg), []); }
      steps := steps + step;
    }

    /**
     What a successful rollback comes to: a snapshotted file is as it was exactly if it was absent, ended in a newline
     or had not been changed; the enabled link is as it was exactly unless it was a regular file.
     */
    ghost predicate RestoredExactly()
      reads this`unit, this`conf, this`link, this`unitAt, this`nginxAt, this`unitThen, this`confThen
    {
      && (unitAt.Some? ==> (unit == unitAt.value <==> Restorable(unitAt.value) || unitThen == unitAt.value))
      && (nginxAt.Some? ==>
            && (conf == nginxAt.value.0 <==> Restorable(nginxAt.value.0) || confThen == nginxAt.value.0)
            && (link == nginxAt.value.1 <==> !nginxAt.value.1.RegularFile?))
    }

    /** Rolls an attempt back to the snapshots it holds. */
    method RollBackAttempt(service: Option<ServiceSnapshot>, nginx: Option<NginxSnapshot>, confPath: LinkTarget)
      returns (status: RollbackStatus)
      requires Holds(service, nginx)
      modifies this`unit, this`conf, this`link, this`touched, this`undone, this`unitThen, this`confThen
      ensures unitThen == old(unit) && confThen == old(conf)
      ensures Ran(undone, UndoOps(unitAt, nginxAt), !status.RollbackFailed?) && Tested(undone)
      ensures Guarded()
      ensures unitAt.None? && UnitFile !in old(touched) ==> UnitFile !in touched
      ensures status.NotNeeded? <==> unitAt.None? && nginxAt.None?
      ensures status.NotNeeded? ==> touched == {}
      ensures status.Succeeded? ==> RestoredExactly()
    {
      hide WithNewline, EndsWithNewline, RestoredLink, Ran, Tested, UndoUnitOps, UndoSiteOps;
      unitThen, confThen := unit, conf;
      status, undone := Rollback(service, nginx, confPath);
      assert SnapshotOps(service, nginx) == UndoOps(unitAt, nginxAt);
      if status.NotNeeded? { NoArtefact(touched); }
      if unitAt.Some? { FileRestoredExactly(unitAt.value, unitThen); }
      if nginxAt.Some? {
        FileRestoredExactly(nginxAt.value.0, confThen);
        LinkRestoredExactly(nginxAt.value.0, nginxAt.value.1, conf, confPath);
      }
    }

    /** The stages, and on an exception the rollback. */
    method RunAttempt(cfg: DeployConfig) returns (a: Attempt)
      modifies this`unit, this`conf, this`link, this`lastGood, this`touched, this`unitAt, this`nginxAt
      modifies this`servedUnit, this`servedSite, this`probed, this`forward, this`undone, this`unitThen, this`confThen
      ensures Guarded()
      ensures a.Finished? ==> Served(cfg)
      ensures Ran(forward, PlannedOps(cfg, unitAt, nginxAt), a.Finished?) && Tested(forward)
      ensures a.FailedAt? ==> StageOf(forward[|forward| - 1].op) == a.stage
      ensures a.Aborted? ==> forward[|forward| - 1].op == CheckDns
      ensures a.FailedAt? ==>
                Ran(undone, UndoOps(unitAt, nginxAt), !a.rollback.RollbackFailed?) && Tested(undone)
      ensures !a.FailedAt? ==> undone == []
      ensures a.FailedAt? && a.rollback.NotNeeded? ==> touched == {} && unitAt.None? && nginxAt.None?
      ensures a.FailedAt? && a.rollback.Succeeded? ==>
                && (unitAt.Some? || nginxAt.Some?) && RestoredExactly()
                && (unitAt.None? ==> UnitFile !in touched)
                && (nginxAt.None? ==> NginxConf !in touched && EnabledLink !in touched)
      ensures a.Aborted? ==> !cfg.skipTls && nginxAt.Some?
      ensures !cfg.service ==> unitAt.None? && UnitFile !in touched
    {
      hide Ran, Tested, PlannedOps, UndoOps, StageOf, RestoredExactly, Served, FileSnapshot, SiteSnapshot;
      touched, unitAt, nginxAt, probed, undone := {}, None, None, None, [];
      var failed, aborted, service, nginx;
      failed, aborted, service, nginx, forward := RunStages(cfg);
      HoldsGuards(service, nginx);
      if aborted {
        return Aborted;
      }
      if failed.Some? {
        var status := RollBackAttempt(service, nginx, cfg.confPath);
        return FailedAt(failed.value, status);
      }
      return Finished;
    }

    lemma HoldsGuards(service: Option<ServiceSnapshot>, nginx: Option<NginxSnapshot>)
      requires Holds(service, nginx)
      ensures Guarded()
    {
    }

    /**
     `deploy_registry_entry`: records the attempt, runs the stages, and on an exception rolls back and records that.
     A rollback that succeeded left a snapshotted file as it was exactly if it was absent, ended in a newline or had not
     been changed, and the enabled link exactly unless it was a regular file; when none was needed, the engine had
     touched nothing.
     */
    method Deploy(path: string, cfg: DeployConfig) returns (a: Attempt)
      modifies this
      ensures record == After(old(record), EventOf(path, a))
      ensures record.lastAttempted == Some(path) && record.checkoutPath == Some(path)
      ensures a.Finished? ==>
                && record.status == Some(Success) && record.failure == None
                && record.currentRelease == Some(path) && record.lastSuccessful == Some(path)
                && record.rollback == Some(NotNeeded) && record.rollbackReason == None
      ensures a.FailedAt? ==>
                && record.status == Some(Failure) && record.failure == Some(a.stage)
                && record.rollback == Some(a.rollback)
                && record.rollbackReason == (if a.rollback == NotNeeded then None else Some(a.stage))
                && record.lastSuccessful == old(record.lastSuccessful)
      ensures a.Aborted? ==>
                && record.status == Some(Running) && record.failure == old(record.failure)
                && record.rollback == Some(NotNeeded) && record.rollbackReason == None
                && record.lastSuccessful == old(record.lastSuccessful)
      ensures !a.Finished? && old(record.currentRelease).Some? && old(record.currentRelease).value != "" ==>
                record.currentRelease == old(record.currentRelease)
      ensures Guarded()
      ensures a.Finished? ==> Served(cfg)
      ensures Ran(forward, PlannedOps(cfg, unitAt, nginxAt), a.Finished?) && Tested(forward)
      ensures a.FailedAt? ==> StageOf(forward[|forward| - 1].op) == a.stage
      ensures a.Aborted? ==> forward[|forward| - 1].op == CheckDns
      ensures a.FailedAt? ==>
                Ran(undone, UndoOps(unitAt, nginxAt), !a.rollback.RollbackFailed?) && Tested(undone)
      ensures !a.FailedAt? ==> undone == []
      ensures a.FailedAt? && a.rollback.NotNeeded? ==> touched == {} && unitAt.None? && nginxAt.None?
      ensures a.FailedAt? && a.rollback.Succeeded? ==>
                && (unitAt.Some? || nginxAt.Some?) && RestoredExactly()
                && (unitAt.None? ==> UnitFile !in touched)
                && (nginxAt.None? ==> NginxConf !in touched && EnabledLink !in touched)
      ensures a.Aborted? ==> !cfg.skipTls && nginxAt.Some?
      ensures !cfg.service ==> unitAt.None? && UnitFile !in touched
    {
      hide Ran, Tested, PlannedOps, UndoOps, StageOf, RestoredExactly, Served, Guarded, Usable;
      var previous := record;
      record := Started(previous, path);
      a := RunAttempt(cfg);
      match a
      case Aborted =>
      case FailedAt(stage, status) => record := After(previous, DeployFailed(path, stage, status));
      case Finished => record := After(previous, Deployed(path));
    }
  }

  lemma NoArtefact(s: set<Artefact>)
    requires UnitFile !in s && NginxConf !in s && EnabledLink !in s
    ensures s == {}
  {
    forall a: Artefact ensures a !in s {
      match a
      case UnitFile =>
      case NginxConf =>
      case EnabledLink =>
    }
  }

  /** The file holds the text, up to a final newline. */
  predicate Carries(f: Option<string>, text: string) {
    f == Some(text) || f == Some(WithNewline(text))
  }

  function EventOf(path: string, a: Attempt): Event {
    match a
    case Finished => Deployed(path)
    case FailedAt(stage, rollback) => DeployFailed(path, stage, rollback)
    case Aborted => DeployAborted(path)
  }

  predicate Restorable(f: Option<string>) {
    f.None? || EndsWithNewline(f.value)
  }

}
