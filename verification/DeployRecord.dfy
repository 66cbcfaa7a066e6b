/** The persistent record of a site's deploys (scripts/deploy_engine.py:596-622, scripts/webhook-receiver.py:95-112). */
module DeployRecord {

  import opened Text
  import opened Wrappers

  datatype Status = Running | Success | Failure

  datatype RollbackStatus = Succeeded | RollbackFailed | NotNeeded

  datatype Stage =
    | PreDeployHook
    | DependencyInstall
    | BuildHook
    | RuntimeService
    | HealthCheck
    | NginxConfig
    | DnsVerification
    | TlsSetup
    | PostDeployHook
    | BeforeDeploy  // reported by the webhook receiver

  /** The stored keys; a missing key and a null read the same. */
  datatype Record = Record(
    status: Option<Status>,
    currentRelease: Option<string>,
    lastSuccessful: Option<string>,
    previousSuccessful: Option<string>,
    lastAttempted: Option<string>,
    checkoutPath: Option<string>,
    failure: Option<Stage>,
    rollback: Option<RollbackStatus>,
    rollbackReason: Option<Stage>)

  const EMPTY: Record := Record(None, None, None, None, None, None, None, None, None)

  predicate Usable(release: Option<string>) {
    release.Some? && Strip(release.value) != ""
  }

  /** `previous_successful_release`. */
  function PreviousSuccessful(r: Record): Option<string> {
    if Usable(r.lastSuccessful) then r.lastSuccessful
    else if r.status == Some(Success) && Usable(r.currentRelease) then r.currentRelease
    else None
  }

  /** `previous_state.get("current_release") or path`. */
  function CurrentOr(r: Record, path: string): string {
    if r.currentRelease.Some? && r.currentRelease.value != "" then r.currentRelease.value else path
  }

  /** What one attempt, or the webhook receiver, did to the record. */
  datatype Event =
    | Deployed(path: string)
    | DeployFailed(path: string, stage: Stage, rollback: RollbackStatus)
    | DeployAborted(path: string)
    | PreDeployFailed(path: string)

  /** The first write of an attempt. */
  function Started(r: Record, path: string): Record {
    r.(status := Some(Running), currentRelease := Some(CurrentOr(r, path)), checkoutPath := Some(path),
       lastAttempted := Some(path), previousSuccessful := PreviousSuccessful(r),
       rollback := Some(NotNeeded), rollbackReason := None)
  }

  /** The record after an event; an aborted attempt leaves the first write in place. */
  function After(r: Record, e: Event): Record {
    match e
    case DeployAborted(path) => Started(r, path)
    case Deployed(path) =>
      Started(r, path).(status := Some(Success), currentRelease := Some(path), lastSuccessful := Some(path),
        failure := None)
    case DeployFailed(path, stage, rollback) =>
      Started(r, path).(status := Some(Failure), failure := Some(stage), rollback := Some(rollback),
                        rollbackReason := if rollback.NotNeeded? then None else Some(stage))
    case PreDeployFailed(path) =>
      r.(status := Some(Failure), checkoutPath := Some(path), lastAttempted := Some(path),
        failure := Some(BeforeDeploy))
  }

  function Run(r: Record, es: seq<Event>): Record {
    if es == [] then r else After(Run(r, es[..|es| - 1]), es[|es| - 1])
  }

  /** The path of the latest success, if there was one. */
  function LastSuccess(es: seq<Event>): Option<string> {
    if es == [] then None
    else if es[|es| - 1].Deployed? then Some(es[|es| - 1].path)
    else LastSuccess(es[..|es| - 1])
  }

  /** An attempt has a checkout path; the webhook also records entries without one. */
  predicate UsablePaths(es: seq<Event>) {
    forall i | 0 <= i < |es| :: es[i].PreDeployFailed? || Strip(es[i].path) != ""
  }

  /**
   The record over all runs from an empty one: the last successful release is that of the latest success, the current
   release equals it from the first success on, the next attempt will see it as its predecessor, and the predecessor
   stored by an attempt is the last success before that attempt.
   */
  lemma {:induction false} RecordTracksRuns(es: seq<Event>)
    requires UsablePaths(es)
    ensures var r := Run(EMPTY, es);
            && r.lastSuccessful == LastSuccess(es)
            && (LastSuccess(es).Some? ==> r.currentRelease == LastSuccess(es) && Usable(r.lastSuccessful))
            && PreviousSuccessful(r) == LastSuccess(es)
            && (r.status == Some(Success) <==> es != [] && es[|es| - 1].Deployed?)
            && (es != [] && !es[|es| - 1].PreDeployFailed? ==> r.previousSuccessful == LastSuccess(es[..|es| - 1]))
  {
    StripBlank("");
    hide Strip;
    if es != [] {
      RecordTracksRuns(es[..|es| - 1]);
    }
  }

  /**
   What the last event of any run wrote, field by field: its path, its status, the failed stage and the outcome of the
   rollback. A pre-deploy failure leaves the rollback fields and the releases alone.
   */
  lemma LastEventWritten(es: seq<Event>)
    requires es != []
    ensures var r, before, e := Run(EMPTY, es), Run(EMPTY, es[..|es| - 1]), es[|es| - 1];
            && r.lastAttempted == Some(e.path) && r.checkoutPath == Some(e.path)
            && (e.DeployFailed? ==>
                  && r.status == Some(Failure) && r.failure == Some(e.stage) && r.rollback == Some(e.rollback)
                  && r.rollbackReason == (if e.rollback == NotNeeded then None else Some(e.stage)))
            && (e.DeployAborted? ==>
                  && r.status == Some(Running) && r.failure == before.failure
                  && r.rollback == Some(NotNeeded) && r.rollbackReason == None)
            && (e.Deployed? ==>
                  && r.status == Some(Success) && r.failure == None
                  && r.rollback == Some(NotNeeded) && r.rollbackReason == None
                  && r.currentRelease == Some(e.path) && r.lastSuccessful == Some(e.path))
            && (e.PreDeployFailed? ==>
                  && r.status == Some(Failure) && r.failure == Some(BeforeDeploy)
                  && r.rollback == before.rollback && r.rollbackReason == before.rollbackReason
                  && r.currentRelease == before.currentRelease
                  && r.previousSuccessful == before.previousSuccessful)
            && (!e.Deployed? ==> r.lastSuccessful == before.lastSuccessful)
            && (!e.Deployed? && before.currentRelease.Some? && before.currentRelease.value != "" ==>
                  r.currentRelease == before.currentRelease)
  {
    hide Strip;
  }

  /** Before any success the current release is the path of the first attempt. */
  lemma {:induction false} FirstAttemptIsCurrent(es: seq<Event>, first: nat)
    requires UsablePaths(es) && LastSuccess(es) == None
    requires first < |es| && !es[first].PreDeployFailed? && forall i | 0 <= i < first :: es[i].PreDeployFailed?
    ensures Run(EMPTY, es).currentRelease == Some(es[first].path)
    decreases |es|
  {
    var init := es[..|es| - 1];
    NeverBlank(es, first);
    if first < |init| {
      FirstAttemptIsCurrent(init, first);
    } else {
      OnlyPreFailures(init);
    }
  }

  lemma {:induction false} OnlyPreFailures(es: seq<Event>)
    requires forall i | 0 <= i < |es| :: es[i].PreDeployFailed?
    ensures Run(EMPTY, es).currentRelease == None
  {
    if es != [] { OnlyPreFailures(es[..|es| - 1]); }
  }

  lemma NeverBlank(es: seq<Event>, i: nat)
    requires UsablePaths(es) && i < |es| && !es[i].PreDeployFailed?
    ensures es[i].path != ""
  {
    StripBlank("");
  }

  /**
   A failed attempt keeps the release that the next attempt will fall back on exactly when that release is stored as
   the last successful one, or there is none. A record that knows it only through its status forgets it.
   */
  lemma FailureKeepsRelease(r: Record, e: Event)
    requires !e.Deployed?
    ensures PreviousSuccessful(After(r, e)) == PreviousSuccessful(r) <==>
              Usable(r.lastSuccessful) || PreviousSuccessful(r).None?
  {
    hide Strip;
  }

  /** Such a record: written before last successful releases were stored. */
  lemma LegacyRecordForgets(path: string, e: Event)
    requires Strip(path) != "" && !e.Deployed?
    ensures var legacy := EMPTY.(status := Some(Success), currentRelease := Some(path));
            PreviousSuccessful(legacy) == Some(path) && PreviousSuccessful(After(legacy, e)) == None
  {
    hide Strip;
  }
}
