/** Reading the output of `sshd -T` and the session variable (server_setup/modules/security.py:101-143). */
module SshdReading {

  import opened Text
  import opened Wrappers
  import opened Host

  /** The key and value of a line, split at the first blank; None when there is no blank. */
  function Setting(line: string): Option<(string, string)> {
    var i := IndexOf(line, ' ');
    if i == |line| then None else Some((line[..i], line[i + 1..]))
  }

  function WithSetting(settings: map<string, string>, line: string): map<string, string> {
    match Setting(line)
    case None => settings
    case Some((key, value)) => settings[Lower(Strip(key)) := Lower(Strip(value))]
  }

  /** `_sshd_effective_settings`: the last line for a key wins. */
  function Settings(lines: seq<string>): map<string, string> {
    if lines == [] then map[]
    else WithSetting(Settings(lines[..|lines| - 1]), lines[|lines| - 1])
  }

  /** The port a word names: a number from 1 to 65535. */
  function PortWord(w: string): set<Port> {
    if IsDigits(w) && 1 <= ParseNat(w) <= 65535 then {ParseNat(w)} else {}
  }

  function PortWords(words: seq<string>): set<Port> {
    if words == [] then {} else PortWords(words[..|words| - 1]) + PortWord(words[|words| - 1])
  }

  function PortLine(line: string): set<Port> {
    match Setting(line)
    case Some((key, value)) => if key == "port" then PortWord(Strip(value)) else {}
    case None => {}
  }

  function PortLines(lines: seq<string>): set<Port> {
    if lines == [] then {} else PortLines(lines[..|lines| - 1]) + PortLine(lines[|lines| - 1])
  }

  /** What a host report stands for when `sshd -T` prints `text`. */
  function Decode(text: string): SshdReport {
    var settings := Settings(Lines(text));
    SshdReport(settings, PortWords(Words(if "port" in settings then settings["port"] else "")) + PortLines(Lines(text)))
  }

  /** A word, or a line of the report, that names port `p`. */
  predicate Names(w: string, p: Port) {
    IsDigits(w) && ParseNat(w) == p
  }

  predicate SetsPort(line: string, p: Port) {
    Setting(line).Some? && Setting(line).value.0 == "port" && Names(Strip(Setting(line).value.1), p)
  }

  predicate Sets(line: string, key: string) {
    Setting(line).Some? && Lower(Strip(Setting(line).value.0)) == key
  }

  function SetTo(line: string): string {
    if Setting(line).Some? then Lower(Strip(Setting(line).value.1)) else ""
  }

  lemma {:induction false} WordPorts(words: seq<string>, p: Port)
    ensures p in PortWords(words) <==> exists n | 0 <= n < |words| :: Names(words[n], p)
  {
    if words != [] {
      var init := words[..|words| - 1];
      WordPorts(init, p);
      assert forall n | 0 <= n < |init| :: init[n] == words[n];
    }
  }

  lemma PortLineNames(line: string, p: Port)
    ensures p in PortLine(line) <==> SetsPort(line, p)
  {
  }

  lemma WithSettingAt(settings: map<string, string>, line: string, key: string)
    ensures key in WithSetting(settings, line) <==> key in settings || Sets(line, key)
    ensures key in WithSetting(settings, line) ==>
              WithSetting(settings, line)[key] == if Sets(line, key) then SetTo(line) else settings[key]
  {
    hide Strip, Lower;
  }

  lemma {:induction false} LinePorts(lines: seq<string>, p: Port)
    ensures p in PortLines(lines) <==> exists n | 0 <= n < |lines| :: SetsPort(lines[n], p)
  {
    hide PortLine, SetsPort;
    if lines != [] {
      var init := lines[..|lines| - 1];
      LinePorts(init, p);
      PortLineNames(lines[|lines| - 1], p);
      assert forall n | 0 <= n < |init| :: init[n] == lines[n];
    }
  }

  /** A key is set exactly if some line sets it, and its value is that of the last such line. */
  lemma {:induction false} LastSettingWins(lines: seq<string>, key: string)
    ensures key in Settings(lines) <==> exists n | 0 <= n < |lines| :: Sets(lines[n], key)
    ensures forall n | && 0 <= n < |lines| && Sets(lines[n], key)
                       && (forall k | n < k < |lines| :: !Sets(lines[k], key)) ::
              Settings(lines)[key] == SetTo(lines[n])
  {
    hide Sets, SetTo, WithSetting;
    if lines != [] {
      var init := lines[..|lines| - 1];
      LastSettingWins(init, key);
      WithSettingAt(Settings(init), lines[|lines| - 1], key);
      assert forall n | 0 <= n < |init| :: init[n] == lines[n];
    }
  }

  /**
   The ports of a report: those that a `port` line of its own names, and those among the words of the last value
   given to the key `port`, however that key is spelled.
   */
  lemma DecodedPorts(text: string, p: Port)
    ensures var lines, settings := Lines(text), Settings(Lines(text));
            p in Decode(text).ports <==>
              || (exists n | 0 <= n < |lines| :: SetsPort(lines[n], p))
              || ("port" in settings
                  && exists n | 0 <= n < |Words(settings["port"])| :: Names(Words(settings["port"])[n], p))
  {
    hide Names, SetsPort, Settings, Lines, PortWords, PortLines, Words;
    var lines, settings := Lines(text), Settings(Lines(text));
    LinePorts(lines, p);
    if "port" in settings {
      assert Decode(text).ports == PortWords(Words(settings["port"])) + PortLines(lines);
      WordPorts(Words(settings["port"]), p);
    } else {
      NoWords();
      assert Decode(text).ports == PortLines(lines);
    }
  }

  lemma NoWords()
    ensures Words("") == [] && PortWords([]) == {}
  {
  }

  /** What a session stands for when SSH_CONNECTION holds `connection`. */
  function DecodeSession(connection: string): Option<set<Port>> {
    var fields := Words(connection);
    if connection == "" then None
    else Some(if |fields| >= 4 then PortWord(fields[3]) else {})
  }

  method ReadSettings(lines: seq<string>) returns (settings: map<string, string>)
    ensures settings == Settings(lines)
  {
    settings := map[];
    for n := 0 to |lines|
      invariant settings == Settings(lines[..n])
    {
      assert lines[..n + 1][..n] == lines[..n];
      settings := WithSetting(settings, lines[n]);
    }
    assert lines[..|lines|] == lines;
  }

  method AddWordPorts(ports: set<Port>, words: seq<string>) returns (all: set<Port>)
    ensures all == ports + PortWords(words)
  {
    all := ports;
    for n := 0 to |words|
      invariant all == ports + PortWords(words[..n])
    {
      assert words[..n + 1][..n] == words[..n];
      all := all + PortWord(words[n]);
    }
    assert words[..|words|] == words;
  }

  method AddLinePorts(ports: set<Port>, lines: seq<string>) returns (all: set<Port>)
    ensures all == ports + PortLines(lines)
  {
    all := ports;
    for n := 0 to |lines|
      invariant all == ports + PortLines(lines[..n])
    {
      assert lines[..n + 1][..n] == lines[..n];
      all := all + PortLine(lines[n]);
    }
    assert lines[..|lines|] == lines;
  }

  /** `_ssh_ports`: collects the ports of one report and session, and falls back to 22. */
  method CollectPorts(text: string, connection: string) returns (ports: set<Port>)
    ensures var session := DecodeSession(connection);
            var found := Decode(text).ports + (if session.Some? then session.value else {});
            ports == if found == {} then {22} else found
  {
    var lines := Lines(text);
    var settings := ReadSettings(lines);
    ports := AddWordPorts({}, Words(if "port" in settings then settings["port"] else ""));
    ports := AddLinePorts(ports, lines);
    var fields := Words(connection);
    if |fields| >= 4 {
      ports := ports + PortWord(fields[3]);
    }
    if ports == {} {
      ports := {22};
    }
  }
}
