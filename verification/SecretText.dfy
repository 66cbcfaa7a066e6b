/** What a secret's text in an environment file stands for (scripts/repository_secrets.py:100-106). */
module SecretText {

  import opened Text
  import opened Wrappers

  // ----- writing -----

  function HexDigit(n: nat): char
    requires n < 16
  {
    if n < 10 then ('0' as int + n) as char else ('a' as int + n - 10) as char
  }

  /** `\\uXXXX`. */
  function Unicode(n: nat): string
    requires n < 0x10000
  {
    "\\u" + [HexDigit(n / 4096), HexDigit(n / 256 % 16), HexDigit(n / 16 % 16), HexDigit(n % 16)]
  }

  function EscapeChar(c: char): string {
    var n := c as int;
    if c == '"' then "\\\""
    else if c == '\\' then "\\\\"
    else if c == '\n' then "\\n"
    else if c == '\r' then "\\r"
    else if c == '\t' then "\\t"
    else if n == 8 then "\\b"
    else if n == 12 then "\\f"
    else if 32 <= n < 127 then [c]
    else if n < 0x10000 then Unicode(n)
    else Unicode(0xd800 + (n - 0x10000) / 1024) + Unicode(0xdc00 + (n - 0x10000) % 1024)
  }

  function Escape(s: string): string {
    if s == "" then "" else EscapeChar(s[0]) + Escape(s[1..])
  }

  /** `json.dumps` of a string. */
  function Quoted(s: string): string {
    "\"" + Escape(s) + "\""
  }

  predicate Special(c: char) {
    c == '\n' || c == '\r' || c == '#' || c == '"' || c == '\'' || c == ' '
  }

  predicate NeedsQuotes(v: string) {
    (exists i | 0 <= i < |v| :: Special(v[i])) || v != Strip(v)
  }

  /** `_render_env_value`. */
  function RenderValue(v: string): string {
    if v != "" && NeedsQuotes(v) then Quoted(v) else v
  }

  lemma HexIsPrintable(n: nat)
    requires n < 16
    ensures !IsBreak(HexDigit(n))
  {
  }

  lemma UnicodeIsSingle(n: nat)
    requires n < 0x10000
    ensures SingleLine(Unicode(n))
  {
    hide HexDigit;
    HexIsPrintable(n / 4096);
    HexIsPrintable(n / 256 % 16);
    HexIsPrintable(n / 16 % 16);
    HexIsPrintable(n % 16);
  }

  lemma EscapeCharIsSingle(c: char)
    ensures SingleLine(EscapeChar(c))
  {
    hide Unicode;
    var n := c as int;
    if n < 0x10000 {
      UnicodeIsSingle(n);
    } else {
      UnicodeIsSingle(0xd800 + (n - 0x10000) / 1024);
      UnicodeIsSingle(0xdc00 + (n - 0x10000) % 1024);
    }
  }

  lemma {:induction false} EscapeIsSingle(s: string)
    ensures SingleLine(Escape(s))
  {
    hide EscapeChar;
    if s != "" {
      EscapeCharIsSingle(s[0]);
      EscapeIsSingle(s[1..]);
    }
  }

  /** A rendered value is trimmed, and a quoted one is on a single line whatever it quotes. */
  lemma RenderedShape(v: string)
    ensures Trimmed(RenderValue(v))
    ensures v != "" && NeedsQuotes(v) ==> SingleLine(RenderValue(v))
  {
    hide Strip;
    EscapeIsSingle(v);
    StripTrims(v);
    hide Escape;
  }

  /** How a character is written: seven have a short escape, printable ASCII stays, all others are spelled out. */
  lemma EscapesAre(c: char)
    ensures c == '"' ==> EscapeChar(c) == "\\\""
    ensures c == '\\' ==> EscapeChar(c) == "\\\\"
    ensures c == '\n' ==> EscapeChar(c) == "\\n"
    ensures c == '\r' ==> EscapeChar(c) == "\\r"
    ensures c == '\t' ==> EscapeChar(c) == "\\t"
    ensures c == '\U{08}' ==> EscapeChar(c) == "\\b"
    ensures c == '\U{0C}' ==> EscapeChar(c) == "\\f"
    ensures ' ' <= c <= '~' && c != '"' && c != '\\' ==> EscapeChar(c) == [c]
    ensures (c < ' ' || c > '~') && c !in "\n\r\t\U{08}\U{0C}" ==> |EscapeChar(c)| >= 6 && EscapeChar(c)[..2] == "\\u"
  {
  }

  // ----- reading a JSON string (RFC 8259, section 7) -----

  function HexValue(c: char): (n: int)
    ensures -1 <= n < 16
  {
    if '0' <= c <= '9' then c as int - '0' as int
    else if 'a' <= c <= 'f' then c as int - 'a' as int + 10
    else if 'A' <= c <= 'F' then c as int - 'A' as int + 10
    else -1
  }

  /** The number that four hexadecimal digits spell. */
  function CodeUnit(s: string): Option<nat>
    requires |s| == 4
  {
    var a, b, c, d := HexValue(s[0]), HexValue(s[1]), HexValue(s[2]), HexValue(s[3]);
    if a < 0 || b < 0 || c < 0 || d < 0 then None else Some(a * 4096 + b * 256 + c * 16 + d)
  }

  /** The character of a `\\u` escape and its width; a high surrogate needs a low one behind it. */
  function ReadUnicode(s: string): Option<(char, nat)> {
    if |s| < 6 || CodeUnit(s[2..6]).None? then None
    else
      var high := CodeUnit(s[2..6]).value;
      if high < 0xd800 || 0xe000 <= high < 0x10000 then Some((high as char, 6))
      else if high < 0xdc00 && |s| >= 12 && s[6] == '\\' && s[7] == 'u' && CodeUnit(s[8..12]).Some?
              && 0xdc00 <= CodeUnit(s[8..12]).value < 0xe000
      then Some(((0x10000 + (high - 0xd800) * 0x400 + (CodeUnit(s[8..12]).value - 0xdc00)) as char, 12))
      else None
  }

  /** The character that the text begins with, escaped or not, and its width. */
  function ReadChar(s: string): Option<(char, nat)>
    requires s != ""
  {
    if s[0] != '\\' then if s[0] < ' ' || s[0] == '"' then None else Some((s[0], 1))
    else if |s| < 2 then None
    else match s[1]
      case '"' => Some(('"', 2))
      case '\\' => Some(('\\', 2))
      case '/' => Some(('/', 2))
      case 'b' => Some((8 as char, 2))
      case 'f' => Some((12 as char, 2))
      case 'n' => Some(('\n', 2))
      case 'r' => Some(('\r', 2))
      case 't' => Some(('\t', 2))
      case 'u' => ReadUnicode(s)
      case _ => None
  }

  /** The rest of a JSON string up to its closing quote, which must be the end. */
  function ReadRest(s: string): Option<string>
    decreases |s|
  {
    if s == "" then None
    else if s[0] == '"' then if |s| == 1 then Some("") else None
    else match ReadChar(s)
      case None => None
      case Some((c, width)) =>
        if width == 0 || width > |s| then None
        else match ReadRest(s[width..])
          case None => None
          case Some(rest) => Some([c] + rest)
  }

  /** The text that a JSON string stands for. */
  function Read(s: string): Option<string> {
    if |s| < 2 || s[0] != '"' then None else ReadRest(s[1..])
  }

  // ----- what is written can be read -----

  lemma HexReads(n: nat)
    requires n < 16
    ensures HexValue(HexDigit(n)) == n
  {
  }

  /** The four hexadecimal digits of a number. */
  lemma FourDigits(n: nat)
    requires n < 0x10000
    ensures n / 4096 < 16
    ensures n / 4096 * 4096 + n / 256 % 16 * 256 + n / 16 % 16 * 16 + n % 16 == n
  {
    var q, r := n / 16, n / 256;
    assert n == q * 16 + n % 16;
    assert q == r * 16 + q % 16 && q / 16 == r;
    assert r == n / 4096 * 16 + r % 16 && r / 16 == n / 4096;
  }

  lemma DigitsRead(a: nat, b: nat, c: nat, d: nat)
    requires a < 16 && b < 16 && c < 16 && d < 16
    ensures CodeUnit([HexDigit(a), HexDigit(b), HexDigit(c), HexDigit(d)]) == Some(a * 4096 + b * 256 + c * 16 + d)
  {
    HexReads(a);
    HexReads(b);
    HexReads(c);
    HexReads(d);
    hide HexDigit, HexValue;
  }

  lemma UnicodeReads(n: nat)
    requires n < 0x10000
    ensures |Unicode(n)| == 6 && Unicode(n)[0] == '\\' && Unicode(n)[1] == 'u'
    ensures CodeUnit(Unicode(n)[2..6]) == Some(n)
  {
    FourDigits(n);
    var a, b, c, d := n / 4096, n / 256 % 16, n / 16 % 16, n % 16;
    DigitsRead(a, b, c, d);
    hide HexDigit, CodeUnit;
    assert Unicode(n) == "\\u" + [HexDigit(a), HexDigit(b), HexDigit(c), HexDigit(d)];
    assert Unicode(n)[2..6] == [HexDigit(a), HexDigit(b), HexDigit(c), HexDigit(d)];
  }

  lemma ShortEscapeReads(c: char, t: string)
    requires c as int < 0x10000 && !(32 <= c as int < 127) && c !in "\n\r\t" && c as int != 8 && c as int != 12
    ensures ReadChar(EscapeChar(c) + t) == Some((c, |EscapeChar(c)|))
  {
    var n, e := c as int, EscapeChar(c);
    UnicodeReads(n);
    assert e == Unicode(n);
    hide Unicode, EscapeChar, CodeUnit;
    assert (e + t)[2..6] == e[2..6];
  }

  lemma PairIs(high: string, low: string, t: string, a: nat, b: nat)
    requires |high| == 6 && |low| == 6 && low[0] == '\\' && low[1] == 'u'
    requires CodeUnit(high[2..6]) == Some(a) && 0xd800 <= a < 0xdc00
    requires CodeUnit(low[2..6]) == Some(b) && 0xdc00 <= b < 0xe000
    ensures ReadUnicode(high + low + t) == Some(((0x10000 + (a - 0xd800) * 0x400 + (b - 0xdc00)) as char, 12))
  {
    hide CodeUnit;
    var s := high + low + t;
    assert s[2..6] == high[2..6] && s[8..12] == low[2..6];
    assert s[6] == low[0] && s[7] == low[1];
  }

  lemma Halves(n: nat)
    requires n < 0x100000
    ensures n / 1024 < 1024 && n / 1024 * 0x400 + n % 1024 == n
  {
  }

  lemma PairWritten(c: char)
    requires c as int >= 0x10000
    ensures var n := c as int - 0x10000;
            n < 0x100000 && EscapeChar(c) == Unicode(0xd800 + n / 1024) + Unicode(0xdc00 + n % 1024)
  {
    hide Unicode;
  }

  lemma UnicodeStep(s: string)
    requires |s| >= 2 && s[0] == '\\' && s[1] == 'u'
    ensures ReadChar(s) == ReadUnicode(s)
  {
    hide ReadUnicode;
  }

  lemma PairReads(c: char, t: string)
    requires c as int >= 0x10000
    ensures ReadChar(EscapeChar(c) + t) == Some((c, |EscapeChar(c)|))
  {
    hide Unicode, EscapeChar, CodeUnit, ReadUnicode, ReadChar;
    var n := c as int - 0x10000;
    PairWritten(c);
    Halves(n);
    var a, b := 0xd800 + n / 1024, 0xdc00 + n % 1024;
    var high, low := Unicode(a), Unicode(b);
    UnicodeReads(a);
    UnicodeReads(b);
    PairIs(high, low, t, a, b);
    PairValue(c, a, b);
    var s := high + low + t;
    assert s[0] == high[0] && s[1] == high[1];
    UnicodeStep(s);
  }

  lemma PairValue(c: char, a: nat, b: nat)
    requires c as int >= 0x10000
    requires a == 0xd800 + (c as int - 0x10000) / 1024 && b == 0xdc00 + (c as int - 0x10000) % 1024
    ensures 0x10000 + (a - 0xd800) * 0x400 + (b - 0xdc00) == c as int
  {
    Halves(c as int - 0x10000);
  }

  /** An escaped character, whatever follows, reads as the character. */
  lemma EscapeReads(c: char, t: string)
    ensures EscapeChar(c) != "" && EscapeChar(c)[0] != '"'
    ensures ReadChar(EscapeChar(c) + t) == Some((c, |EscapeChar(c)|))
  {
    var n := c as int;
    if n >= 0x10000 {
      PairReads(c, t);
      UnicodeReads(0xd800 + (n - 0x10000) / 1024);
    } else if !(32 <= n < 127) && c !in "\n\r\t" && n != 8 && n != 12 {
      ShortEscapeReads(c, t);
      UnicodeReads(n);
    } else {
      hide Unicode, ReadUnicode;
    }
  }

  lemma {:induction false} EscapedReads(v: string)
    ensures ReadRest(Escape(v) + "\"") == Some(v)
  {
    if v == "" {
      assert Escape(v) + "\"" == "\"";
    } else {
      var e, rest := EscapeChar(v[0]), Escape(v[1..]) + "\"";
      EscapedReads(v[1..]);
      EscapeReads(v[0], rest);
      hide EscapeChar, ReadChar;
      assert Escape(v) + "\"" == e + rest;
      assert (e + rest)[|e|..] == rest;
      assert v == [v[0]] + v[1..];
    }
  }

  /** A quoted value reads back, whatever it holds. */
  lemma QuotedReads(v: string)
    ensures Read(Quoted(v)) == Some(v)
  {
    EscapedReads(v);
    assert Quoted(v)[1..] == Escape(v) + "\"";
  }

  /** A value is written as it is exactly when it is trimmed and holds none of six characters. */
  lemma PlainExactly(v: string)
    ensures RenderValue(v) == v <==>
              && Trimmed(v)
              && '\n' !in v && '\r' !in v && '#' !in v && '"' !in v && '\'' !in v && ' ' !in v
  {
    hide Strip, Escape;
    if RenderValue(v) != v {
      if v == Strip(v) {
        var i :| 0 <= i < |v| && Special(v[i]);
        assert v[i] in v;
      } else if Trimmed(v) {
        StripOfTrimmed(v);
      }
    } else {
      StripTrims(v);
      QuotedIsLonger(v);
      assert forall c | c in v :: !Special(c);
    }
  }

  lemma QuotedIsLonger(v: string)
    ensures |Quoted(v)| > |v|
  {
    EscapeSize(v);
  }

  lemma {:induction false} EscapeSize(v: string)
    ensures |Escape(v)| >= |v|
  {
    if v != "" {
      EscapeReads(v[0], "");
      hide EscapeChar;
      EscapeSize(v[1..]);
    }
  }

  /** What a stored text stands for: a JSON string if it begins with a quote, otherwise itself. */
  function Meaning(text: string): Option<string> {
    if text != "" && text[0] == '"' then Read(text) else Some(text)
  }

  /** Every value, rendered, stands for itself. */
  lemma RenderedMeans(v: string)
    ensures Meaning(RenderValue(v)) == Some(v)
  {
    hide Strip, Escape;
    PlainExactly(v);
    QuotedReads(v);
  }
}
