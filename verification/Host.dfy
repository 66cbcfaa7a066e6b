/**
 The host that every module shares, and the commands that change it
 (server_setup/system.py; reference semantics in tests/fake_system.py).

 A `Machine` is what the modules can observe. `System.Run` executes one command: `Effect` says which hosts
 may result. A command that fails may still have done its work, or, for apt and the installer, any part of it.
 Read-only queries are functions of the machine.
 */
module Host {

  import opened Text
  import opened Wrappers
  import opened Plans
  import Json

  datatype Path =
    | OsRelease
    | EtcTimezone
    | Passwd
    | AutoUpgrades
    | UnattendedLocal
    | Fail2banJail
    | SshdManaged
    | SshdLegacy
    | Installer
    | ComposeFile
    | AuthorizedKeys(home: string)
    | OtherPath(name: string)

  datatype Body = Raw(text: string) | Script(version: string) | Document(root: Json.Value)

  /** A package known to dpkg; `ok` is the status "install ok installed". */
  datatype Package = Package(version: string, ok: bool)

  datatype Ufw = Ufw(active: bool, denyIncoming: bool, rules: set<string>)

  datatype Docker = Docker(
    present: bool,
    compose: bool,
    service: Option<string>,  // the image of the dokploy service
    container: bool,          // some container is named after dokploy
    swarm: bool,
    network: bool)

  datatype Machine = Machine(
    packages: map<string, Package>,
    files: map<Path, Body>,
    services: set<string>,
    timezone: string,
    ufw: Ufw,
    docker: Docker,
    ports: set<int>,
    running: set<string>)  // compose services of the monitoring bundle

  type Port = p: nat | 1 <= p <= 65535 witness 1

  /** What `sshd -T` says: effective settings and ports (nothing at all when it fails). */
  datatype SshdReport = SshdReport(settings: map<string, string>, ports: set<Port>)

  /** The managed file texts, and what `sshd -T` must report once SSH is hardened. */
  datatype Policy = Policy(
    autoUpgrades: string,
    unattendedLocal: string,
    jailHead: string,
    jailTail: string,
    hardening: string,
    effective: map<string, string>)

  /**
   What no command changes: the tools on the path, the process environment, and how sshd reads its two
   drop-ins (the managed one and the legacy one) on top of the rest of its configuration.
   */
  datatype Environment = Environment(
    policy: Policy,
    sshdPresent: bool,
    systemctlPresent: bool,
    timedatectlShows: bool,
    sshdValid: (Option<string>, Option<string>) -> bool,
    sshdReport: (Option<string>, Option<string>) -> SshdReport,
    session: Option<set<Port>>,  // of an SSH session: the server port it came in on, if readable
    sudoUser: string,
    user: string,
    root: bool,
    parseConfig: string -> Option<Config>)

  datatype Command =
    | AptUpdate
    | AptInstall(packages: seq<string>)
    | AptOnlyUpgrade(packages: seq<string>)
    | AptPin(targets: seq<(string, string)>)
    | TimedatectlSet(zone: string)
    | ServiceEnableNow(service: string)
    | ServiceRestart(service: string)
    | SshReload
    | UfwDefaultDeny
    | UfwDefaultAllowOutgoing
    | UfwAllow(rule: string)
    | UfwReload
    | UfwEnable
    | DownloadInstaller(version: string)
    | RunInstaller(update: bool)
    | ComposeUp(service: string)
    | ComposeStop(service: string)
    | Sleep
    | WriteFile(path: Path)
    | RemoveFile(path: Path)

  /** One executed command: its exit and the host it left. */
  datatype Step = Step(command: Command, ok: bool, after: Machine)

  /** A command from step `n` on failed. */
  ghost predicate SomeFailed(trace: seq<Step>, n: nat) {
    exists i :: n <= i < |trace| && !trace[i].ok
  }

  /** From step `n` on, the planned commands were issued in order: all of them when `all`, otherwise the first few. */
  ghost predicate Issued(trace: seq<Step>, n: nat, planned: seq<Command>, all: bool) {
    && n <= |trace| <= n + |planned|
    && (forall i | n <= i < |trace| :: trace[i].command == planned[i - n])
    && (all ==> |trace| == n + |planned|)
  }

  lemma IssuedJoin(before: seq<Step>, n: nat, trace: seq<Step>, first: seq<Command>, second: seq<Command>, all: bool)
    requires Issued(before, n, first, true) && before <= trace && Issued(trace, |before|, second, all)
    ensures Issued(trace, n, first + second, all)
  {
  }

  function ReadText(m: Machine, p: Path): Option<string> {
    if p in m.files && m.files[p].Raw? then Some(m.files[p].text) else None
  }

  predicate PackageInstalled(m: Machine, p: string) {
    p in m.packages && m.packages[p].ok
  }

  predicate ServiceActive(env: Environment, m: Machine, s: string) {
    env.systemctlPresent && s in m.services
  }

  /** `_image_version`: the tag of an image reference, when it looks like a release. */
  function ImageVersion(image: string): Option<string> {
    var s := Strip(image);
    var bare := s[..IndexOf(s, '@')];
    if ':' !in bare then None
    else
      var parts := Split(bare, ':');
      var candidate := parts[|parts| - 1];
      if candidate != "" && candidate[0] == 'v' then Some(candidate) else None
  }

  /** What is behind the last separator is the last part. */
  lemma {:induction false} LastPart(before: string, sep: char, last: string)
    requires sep !in last
    ensures var parts := Split(before + [sep] + last, sep);
            parts[|parts| - 1] == last
    decreases |before|
  {
    var s := before + [sep] + last;
    var i := IndexOf(s, sep);
    assert s[|before|] == sep;
    if i < |before| {
      assert s[i + 1..] == before[i + 1..] + [sep] + last;
      LastPart(before[i + 1..], sep, last);
    } else {
      assert s[i + 1..] == last;
      assert IndexOf(last, sep) == |last|;
    }
  }

  /** The version of an image is its tag if that begins with a v, whatever registry and digest stand around it. */
  lemma ImageTagIsRead(name: string, tag: string, digest: string)
    requires name != "" && '@' !in name && !IsSpace(name[0])
    requires tag != "" && '@' !in tag && ':' !in tag && !IsSpace(tag[|tag| - 1])
    requires digest == "" || (digest[0] == '@' && !IsSpace(digest[|digest| - 1]))
    ensures ImageVersion(name + ":" + tag + digest) == if tag[0] == 'v' then Some(tag) else None
  {
    hide Strip, IsSpace, Split;
    var bare := name + ":" + tag;
    var image := bare + digest;
    assert image[0] == name[0];
    assert image[|image| - 1] == if digest == "" then tag[|tag| - 1] else digest[|digest| - 1];
    StripOfTrimmed(image);
    assert forall c | c in bare :: c in name || c == ':' || c in tag;
    assert forall j | 0 <= j < |bare| :: image[j] == bare[j] && bare[j] in bare;
    if digest == "" {
      assert image == bare;
    } else {
      assert image[|bare|] == '@';
    }
    assert '@' !in bare;
    assert IndexOf(image, '@') == |bare|;
    assert image[..|bare|] == bare && bare[|name|] == ':';
    LastPart(name, ':', tag);
  }

  predicate DokployInstalled(d: Docker) {
    d.present && (d.service.Some? || d.container)
  }

  function DokployVersion(d: Docker): Option<string> {
    if DokployInstalled(d) && d.service.Some? && Strip(d.service.value) != ""
    then ImageVersion(d.service.value) else None
  }

  predicate DokployHealthy(m: Machine) {
    DokployInstalled(m.docker) && m.docker.swarm && m.docker.network && 80 in m.ports && 443 in m.ports
  }

  function Names(packages: seq<string>): set<string> {
    set p | p in packages
  }

  function Pinned(targets: seq<(string, string)>): set<string> {
    set t | t in targets :: t.0
  }

  /** Only the named packages differ. */
  predicate OnlyNamed(names: set<string>, before: map<string, Package>, after: map<string, Package>) {
    before - names == after - names
  }

  lemma UnnamedUnchanged(names: set<string>, before: map<string, Package>, after: map<string, Package>, p: string)
    requires OnlyNamed(names, before, after) && p !in names
    ensures p in before <==> p in after
    ensures p in before ==> before[p] == after[p]
  {
    assert p in before <==> p in before - names;
    assert p in after <==> p in after - names;
  }

  /** `done` when the command succeeded; the old host or `done` when it failed. */
  predicate Atomic(before: Machine, ok: bool, after: Machine, done: Machine) {
    after == done || (!ok && after == before)
  }

  /** Which hosts may result from a command. */
  predicate Effect(env: Environment, c: Command, before: Machine, ok: bool, after: Machine) {
    match c
    case AptUpdate => after == before
    case AptInstall(ps) =>
      && after == before.(packages := after.packages)
      && OnlyNamed(Names(ps), before.packages, after.packages)
      && (ok ==> forall p | p in ps :: PackageInstalled(after, p))
    case AptOnlyUpgrade(ps) =>
      && after == before.(packages := after.packages)
      && OnlyNamed(Names(ps), before.packages, after.packages)
      && (ok ==> forall p | p in ps :: p in before.packages ==> PackageInstalled(after, p))
      && (ok ==> forall p | p in ps :: p !in before.packages ==> p !in after.packages)
    case AptPin(ts) =>
      && after == before.(packages := after.packages)
      && OnlyNamed(Pinned(ts), before.packages, after.packages)
      && (ok ==> forall t | t in ts :: PackageInstalled(after, t.0) && after.packages[t.0].version == t.1)
    case TimedatectlSet(zone) =>
      Atomic(before, ok, after, before.(timezone := zone, files := before.files[EtcTimezone := Raw(zone + "\n")]))
    case ServiceEnableNow(s) =>
      && (ok ==> env.systemctlPresent && after == before.(services := before.services + {s}))
      && (!ok ==> after == before || after == before.(services := before.services + {s}))
    case ServiceRestart(s) =>
      && (ok ==> env.systemctlPresent && after == before.(services := before.services + {s}))
      && (!ok ==> after == before || after == before.(services := before.services - {s}))
    case SshReload => after == before
    case UfwDefaultDeny => Atomic(before, ok, after, before.(ufw := before.ufw.(denyIncoming := true)))
    case UfwDefaultAllowOutgoing => after == before
    case UfwAllow(rule) => Atomic(before, ok, after, before.(ufw := before.ufw.(rules := before.ufw.rules + {rule})))
    case UfwReload => after == before
    case UfwEnable => Atomic(before, ok, after, before.(ufw := before.ufw.(active := true)))
    case DownloadInstaller(version) =>
      && (ok ==> after == before.(files := before.files[Installer := Script(version)]))
      && (!ok ==> after == before.(files := after.files) && after.files - {Installer} == before.files - {Installer})
    case RunInstaller(_) =>
      && after == before.(packages := after.packages, docker := after.docker, ports := after.ports)
      && (forall p | p in before.packages :: p in after.packages && after.packages[p] == before.packages[p])
      && (ok ==>
            && after.docker.present && after.docker.compose
            && (Installer in before.files && before.files[Installer].Script? ==>
                  DokployVersion(after.docker) == Some(before.files[Installer].version)))
    case ComposeUp(s) => Atomic(before, ok, after, before.(running := before.running + {s}))
    case ComposeStop(s) => Atomic(before, ok, after, before.(running := before.running - {s}))
    case Sleep =>
      && ok
      && after == before.(docker := before.docker.(swarm := after.docker.swarm, network := after.docker.network),
                          ports := after.ports)
    case WriteFile(_) => after == before
    case RemoveFile(_) => after == before
  }

  class System {
    const env: Environment
    var host: Machine
    ghost var trace: seq<Step>

    constructor (env: Environment, host: Machine)
      ensures this.env == env && this.host == host && trace == []
    {
      this.env := env;
      this.host := host;
      trace := [];
    }

    /** `run(args)`: any host that `Effect` allows may result, and the command may fail. */
    method Run(c: Command) returns (ok: bool)
      modifies this
      ensures Effect(env, c, old(host), ok, host)
      ensures trace == old(trace) + [Step(c, ok, host)] && trace[|old(trace)|].ok == ok
    {
      var next: Machine := *;
      ok := *;
      if !Effect(env, c, host, ok, next) {
        next, ok := host, c.Sleep?;
      }
      host := next;
      trace := trace + [Step(c, ok, host)];
    }

    /** `write_text`: replaces the file in one step. */
    method WriteText(p: Path, body: Body)
      modifies this
      ensures host == old(host).(files := old(host).files[p := body])
      ensures trace == old(trace) + [Step(WriteFile(p), true, host)]
    {
      host := host.(files := host.files[p := body]);
      trace := trace + [Step(WriteFile(p), true, host)];
    }

    /** `remove`: a missing file is not an error. */
    method Remove(p: Path)
      modifies this
      ensures host == old(host).(files := old(host).files - {p})
      ensures trace == old(trace) + [Step(RemoveFile(p), true, host)]
    {
      host := host.(files := host.files - {p});
      trace := trace + [Step(RemoveFile(p), true, host)];
    }
  }
}
