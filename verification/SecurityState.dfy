/**
 What the security features mean on a host: managed files, SSH ports, firewall rules, effective sshd settings
 (server_setup/modules/security.py, the reading half).
 */
module SecurityState {

  import opened Text
  import opened Wrappers
  import opened Host
  import SshdReading

  function Managed(m: Machine): Option<string> {
    ReadText(m, SshdManaged)
  }

  function Legacy(m: Machine): Option<string> {
    ReadText(m, SshdLegacy)
  }

  /** `sshd -T` under given drop-ins; empty when sshd is missing. */
  function ReportUnder(env: Environment, managed: Option<string>, legacy: Option<string>): SshdReport {
    if env.sshdPresent then env.sshdReport(managed, legacy) else SshdReport(map[], {})
  }

  /** `_ssh_hardening_effective` for given drop-ins. */
  predicate EffectiveUnder(env: Environment, managed: Option<string>, legacy: Option<string>) {
    var settings := ReportUnder(env, managed, legacy).settings;
    forall key | key in env.policy.effective :: key in settings && settings[key] == env.policy.effective[key]
  }

  predicate HardeningEffective(env: Environment, m: Machine) {
    EffectiveUnder(env, Managed(m), Legacy(m))
  }

  /** `_ssh_ports` for given drop-ins: what sshd reports plus the port of the current session, else 22. */
  function PortsUnder(env: Environment, managed: Option<string>, legacy: Option<string>): set<Port> {
    var found := ReportUnder(env, managed, legacy).ports + (if env.session.Some? then env.session.value else {});
    if found == {} then {22} else found
  }

  function SshPorts(env: Environment, m: Machine): set<Port> {
    PortsUnder(env, Managed(m), Legacy(m))
  }

  /** The members of `ports` from `lo` up to 65535, in order. */
  function Ascending(ports: set<Port>, lo: nat): (r: seq<nat>)
    ensures forall i | 0 <= i < |r| :: lo <= r[i] <= 65535 && r[i] in ports
    decreases 65536 - lo
  {
    if lo > 65535 then []
    else (if lo in ports then [lo] else []) + Ascending(ports, lo + 1)
  }

  /** `sorted(ports)` lists every port once, in increasing order. */
  lemma {:induction false} AscendingIsSorted(ports: set<Port>, lo: nat)
    ensures forall p | p in ports && lo <= p <= 65535 :: p in Ascending(ports, lo)
    ensures forall i, j | 0 <= i < j < |Ascending(ports, lo)| :: Ascending(ports, lo)[i] < Ascending(ports, lo)[j]
    decreases 65536 - lo
  {
    if lo <= 65535 {
      AscendingIsSorted(ports, lo + 1);
    }
  }

  function PortTexts(ports: seq<nat>): (r: seq<string>)
    ensures |r| == |ports|
    ensures forall i | 0 <= i < |ports| :: r[i] == Decimal(ports[i])
  {
    seq(|ports|, i requires 0 <= i < |ports| => Decimal(ports[i]))
  }

  /** `rules` hold the port, written as its decimal digits without a leading zero, for TCP. */
  ghost predicate Allows(rules: set<string>, p: Port) {
    exists w :: SshdReading.Names(w, p) && w[0] != '0' && w + "/tcp" in rules
  }

  /** The text is a jail for exactly the given ports, in increasing order. */
  ghost predicate JailsPorts(policy: Policy, ports: set<Port>, text: string) {
    exists words: seq<string>, numbers: seq<nat> ::
      && Spells(words, numbers)
      && text == policy.jailHead + Join(words, ",") + policy.jailTail
      && (forall p: Port :: p in numbers <==> p in ports)
      && forall i, j | 0 <= i < j < |numbers| :: numbers[i] < numbers[j]
  }

  /** The words are the decimal texts of the port numbers. */
  ghost predicate Spells(words: seq<string>, numbers: seq<nat>) {
    && |words| == |numbers|
    && forall i | 0 <= i < |words| ::
         1 <= numbers[i] <= 65535 && SshdReading.Names(words[i], numbers[i]) && words[i][0] != '0'
  }

  /** `_fail2ban_sshd_config`. */
  function Fail2banConfig(policy: Policy, ports: set<Port>): string {
    policy.jailHead + Join(PortTexts(Ascending(ports, 1)), ",") + policy.jailTail
  }

  const HTTP_RULE := "80/tcp"
  const HTTPS_RULE := "443/tcp"

  function TcpRule(port: nat): string {
    Decimal(port) + "/tcp"
  }

  function TcpRules(ports: seq<nat>): (r: seq<string>)
    ensures |r| == |ports|
    ensures forall i | 0 <= i < |ports| :: r[i] == TcpRule(ports[i])
  {
    seq(|ports|, i requires 0 <= i < |ports| => TcpRule(ports[i]))
  }

  /** The rules the firewall must allow, in the order they are requested. */
  function RuleList(ports: set<Port>): seq<string> {
    TcpRules(Ascending(ports, 1)) + [HTTP_RULE, HTTPS_RULE]
  }

  function RequiredRules(ports: set<Port>): set<string> {
    set rule | rule in RuleList(ports)
  }

  lemma DecimalNames(p: Port)
    ensures SshdReading.Names(Decimal(p), p) && Decimal(p)[0] != '0'
  {
    DecimalReads(p);
  }

  /** Every port is named by a rule of the list. */
  lemma PortsAreRequired(ports: set<Port>, p: Port)
    requires p in ports
    ensures exists w :: SshdReading.Names(w, p) && w[0] != '0' && w + "/tcp" in RequiredRules(ports)
  {
    DecimalNames(p);
    PortRuleListed(ports, p);
  }

  lemma PortRuleListed(ports: set<Port>, p: Port)
    requires p in ports
    ensures TcpRule(p) in RequiredRules(ports)
  {
    hide TcpRule;
    var ascending := Ascending(ports, 1);
    AscendingIsSorted(ports, 1);
    assert p in ascending;
    var i :| 0 <= i < |ascending| && ascending[i] == p;
    var rules := TcpRules(ascending);
    assert RuleList(ports) == rules + [HTTP_RULE, HTTPS_RULE];
    assert rules[i] in rules;
  }

  lemma WebIsRequired(ports: set<Port>)
    ensures "80/tcp" in RequiredRules(ports) && "443/tcp" in RequiredRules(ports)
  {
    var rules := TcpRules(Ascending(ports, 1));
    assert (rules + [HTTP_RULE, HTTPS_RULE])[|rules|] == HTTP_RULE;
    assert (rules + [HTTP_RULE, HTTPS_RULE])[|rules| + 1] == HTTPS_RULE;
  }

  /** Every rule of the list but those for 80 and 443 names one of the ports. */
  lemma OnlyPortsAreRequired(ports: set<Port>, rule: string)
    requires rule in RequiredRules(ports) && rule != "80/tcp" && rule != "443/tcp"
    ensures NamesOne(ports, rule)
  {
    hide RequiredRules, SshdReading.Names, Decimal;
    OnlyPortRules(ports, rule);
    var p :| p in ports && rule == TcpRule(p);
    DecimalNames(p);
  }

  /** The rule is for TCP and one of the ports. */
  ghost predicate NamesOne(ports: set<Port>, rule: string) {
    exists p, w :: p in ports && SshdReading.Names(w, p) && w[0] != '0' && rule == w + "/tcp"
  }

  /** Firewall rules that hold the required ones, read as ports; what was added besides is for those ports. */
  lemma RequiredMeans(ports: set<Port>, start: Ufw, ufw: Ufw)
    ensures RequiredRules(ports) <= ufw.rules ==>
              "80/tcp" in ufw.rules && "443/tcp" in ufw.rules && forall p | p in ports :: Allows(ufw.rules, p)
    ensures OnlyRequiredAdded(ports, start, ufw) ==>
              forall rule | rule in ufw.rules && rule !in start.rules ::
                rule == "80/tcp" || rule == "443/tcp" || NamesOne(ports, rule)
  {
    hide RequiredRules, SshdReading.Names;
    WebIsRequired(ports);
    forall p | p in ports && RequiredRules(ports) <= ufw.rules ensures Allows(ufw.rules, p) {
      PortsAreRequired(ports, p);
    }
    forall rule | rule in RequiredRules(ports) && rule != "80/tcp" && rule != "443/tcp" ensures NamesOne(ports, rule) {
      OnlyPortsAreRequired(ports, rule);
    }
  }

  lemma OnlyPortRules(ports: set<Port>, rule: string)
    requires rule in RequiredRules(ports) && rule != HTTP_RULE && rule != HTTPS_RULE
    ensures exists p | p in ports :: rule == TcpRule(p)
  {
    hide TcpRule;
    var ascending := Ascending(ports, 1);
    var rules := TcpRules(ascending);
    assert RuleList(ports) == rules + [HTTP_RULE, HTTPS_RULE];
    assert rule in rules;
    var i :| 0 <= i < |rules| && rules[i] == rule;
    var p: Port := ascending[i];
    assert p in ports && rule == TcpRule(p);
  }

  /** The detected ports: all that sshd reports and that of the session, and 22 when there is none. */
  lemma DetectedPorts(env: Environment, m: Machine, p: Port)
    ensures var reported := env.sshdReport(ReadText(m, SshdManaged), ReadText(m, SshdLegacy)).ports;
            p in SshPorts(env, m) <==>
              || (env.sshdPresent && p in reported)
              || (env.session.Some? && p in env.session.value)
              || (p == 22 && (env.sshdPresent ==> reported == {}) && (env.session.Some? ==> env.session.value == {}))
  {
  }

  /** The jail text names exactly the ports it was made for. */
  lemma JailNamesPorts(policy: Policy, ports: set<Port>)
    ensures JailsPorts(policy, ports, Fail2banConfig(policy, ports))
  {
    hide Decimal, Join, Ascending, ParseNat;
    var ascending := Ascending(ports, 1);
    AscendingIsSorted(ports, 1);
    forall i | 0 <= i < |ascending|
      ensures SshdReading.Names(Decimal(ascending[i]), ascending[i]) && Decimal(ascending[i])[0] != '0'
    {
      DecimalNames(ascending[i]);
    }
    assert Spells(PortTexts(ascending), ascending);
  }

  const UNATTENDED_UPGRADES := "unattended-upgrades"
  const APT_LISTCHANGES := "apt-listchanges"
  const FAIL2BAN := "fail2ban"

  predicate UnattendedReady(env: Environment, m: Machine) {
    && PackageInstalled(m, UNATTENDED_UPGRADES)
    && PackageInstalled(m, APT_LISTCHANGES)
    && ReadText(m, AutoUpgrades) == Some(env.policy.autoUpgrades)
    && ReadText(m, UnattendedLocal) == Some(env.policy.unattendedLocal)
    && ServiceActive(env, m, UNATTENDED_UPGRADES)
  }

  predicate Fail2banReady(env: Environment, m: Machine) {
    && PackageInstalled(m, FAIL2BAN)
    && ReadText(m, Fail2banJail) == Some(Fail2banConfig(env.policy, SshPorts(env, m)))
    && ServiceActive(env, m, FAIL2BAN)
  }

  predicate FirewallReady(env: Environment, m: Machine) {
    PackageInstalled(m, "ufw") && m.ufw.active && RequiredRules(SshPorts(env, m)) <= m.ufw.rules
  }

  predicate FirewallActive(m: Machine) {
    PackageInstalled(m, "ufw") && m.ufw.active
  }

  predicate SshHardeningReady(env: Environment, m: Machine) {
    Managed(m) == Some(env.policy.hardening) && HardeningEffective(env, m)
  }

  /** An active firewall lets the given SSH ports and web traffic through. */
  predicate Guarded(ports: set<Port>, ufw: Ufw) {
    ufw.active ==> RequiredRules(ports) <= ufw.rules
  }

  /** Nothing but the required rules has been added. */
  predicate OnlyRequiredAdded(ports: set<Port>, start: Ufw, ufw: Ufw) {
    ufw.rules <= start.rules + RequiredRules(ports)
  }

  /** An active firewall denies by default and some required rule is missing. */
  predicate LockedOut(ports: set<Port>, ufw: Ufw) {
    ufw.active && ufw.denyIncoming && !(RequiredRules(ports) <= ufw.rules)
  }

  /**
   What is assumed of sshd: when the hardening drop-in is valid and effective beside the legacy drop-in, it stays
   so once the legacy one is gone, and the reported ports are those reported before.
   */
  predicate HardeningStable(env: Environment, m: Machine) {
    env.sshdPresent && env.sshdValid(Some(env.policy.hardening), Legacy(m))
    && EffectiveUnder(env, Some(env.policy.hardening), Legacy(m)) ==>
      && env.sshdValid(Some(env.policy.hardening), None)
      && EffectiveUnder(env, Some(env.policy.hardening), None)
      && PortsUnder(env, Some(env.policy.hardening), None) == SshPorts(env, m)
  }
}
