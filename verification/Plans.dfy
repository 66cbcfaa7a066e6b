/** Configuration, planned changes and validation results (server_setup/config.py, server_setup/plan.py). */
module Plans {

  import opened Text

  datatype Config = Config(
    timezone: string,
    unattendedUpgrades: bool,
    firewall: bool,
    fail2ban: bool,
    sshHardening: bool,
    dokployEnabled: bool,
    dokployVersion: string,
    dnsEnabled: bool,
    uptimeKuma: bool,
    beszel: bool)

  /** What the configuration parser accepts: both strings are stripped and non-empty. */
  predicate ValidConfig(c: Config) {
    c.timezone != "" && Trimmed(c.timezone) && c.dokployVersion != "" && Trimmed(c.dokployVersion)
  }

  datatype ChangeKind = Noop | Create | Update | Restart | Dangerous

  datatype Action =
    | NoAction
    | Blocked
    | Deferred
    | UnsupportedHost
    | InstallPackages
    | SetTimezone
    | ConfigureUnattended
    | ConfigureFail2ban
    | ConfigureFirewall
    | ConfigureSsh
    | InstallDokploy
    | UpdateDokploy
    | StartService
    | StopService
    | OtherAction(name: string)

  datatype Change = Change(owner: string, kind: ChangeKind, action: Action, target: string)

  type Plan = seq<Change>

  predicate Terminal(c: Change) {
    c.action.Blocked? || c.action.Deferred?
  }

  predicate HasChanges(p: Plan) {
    exists c | c in p :: c.kind != Noop
  }

  predicate HasDangerousChanges(p: Plan) {
    exists c | c in p :: c.kind == Dangerous
  }

  predicate HasTerminal(p: Plan) {
    exists c | c in p :: Terminal(c)
  }

  /** The changes a module is handed: its own, in plan order, without the no-ops. */
  function Batch(p: Plan, name: string): (r: Plan)
    ensures forall c | c in r :: c in p && c.owner == name && c.kind != Noop
    ensures forall c | c in p && c.owner == name && c.kind != Noop :: c in r
  {
    if p == [] then []
    else if p[0].owner == name && p[0].kind != Noop then [p[0]] + Batch(p[1..], name)
    else Batch(p[1..], name)
  }

  function WithoutNoops(p: Plan): Plan {
    if p == [] then []
    else if p[0].kind != Noop then [p[0]] + WithoutNoops(p[1..])
    else WithoutNoops(p[1..])
  }

  datatype Status = Pass | Warn | Fail | Skip

  datatype Check = Check(owner: string, status: Status)

  type Report = seq<Check>

  predicate Healthy(r: Report) {
    forall i | 0 <= i < |r| :: r[i].status != Fail
  }
}
