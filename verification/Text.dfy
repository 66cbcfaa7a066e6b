/** The Python string operations that the modelled code relies on. */
module Text {

  /** `str.isspace` for one character. */
  predicate IsSpace(c: char) {
    var n := c as int;
    || 9 <= n <= 13 || 28 <= n <= 32 || n == 0x85 || n == 0xa0 || n == 0x1680
    || 0x2000 <= n <= 0x200a || n == 0x2028 || n == 0x2029 || n == 0x202f || n == 0x205f || n == 0x3000
  }

  /** The characters at which `str.splitlines` ends a line. */
  predicate IsBreak(c: char) {
    var n := c as int;
    10 <= n <= 13 || 28 <= n <= 30 || n == 0x85 || n == 0x2028 || n == 0x2029
  }

  /** The characters that Python strips, and those at which it ends a line. */
  lemma SpacesAndBreaks(c: char)
    ensures IsSpace(c) <==>
              || c in "\t\n\U{0B}\U{0C}\r\U{1C}\U{1D}\U{1E}\U{1F} \U{85}\U{A0}\U{1680}"
              || c in "\U{2000}\U{2001}\U{2002}\U{2003}\U{2004}\U{2005}\U{2006}\U{2007}\U{2008}\U{2009}\U{200A}"
              || c in "\U{2028}\U{2029}\U{202F}\U{205F}\U{3000}"
    ensures IsBreak(c) <==> c in "\n\U{0B}\U{0C}\r\U{1C}\U{1D}\U{1E}\U{85}\U{2028}\U{2029}"
    ensures IsBreak(c) ==> IsSpace(c)
  {
  }

  predicate SingleLine(s: string) {
    forall i | 0 <= i < |s| :: !IsBreak(s[i])
  }

  function LStrip(s: string): (r: string)
    ensures |r| <= |s|
  {
    if s == "" || !IsSpace(s[0]) then s else LStrip(s[1..])
  }

  function RStrip(s: string): (r: string)
    ensures |r| <= |s|
  {
    if s == "" || !IsSpace(s[|s| - 1]) then s else RStrip(s[..|s| - 1])
  }

  lemma {:induction false} LStripCuts(s: string)
    ensures LStrip(s) == s[|s| - |LStrip(s)|..]
    ensures LStrip(s) != "" ==> !IsSpace(LStrip(s)[0])
    ensures Blank(s[..|s| - |LStrip(s)|])
  {
    if s != "" && IsSpace(s[0]) {
      LStripCuts(s[1..]);
      assert forall i | 0 < i < |s| - |LStrip(s)| :: s[i] == s[1..][i - 1];
    }
  }

  lemma {:induction false} RStripCuts(s: string)
    ensures RStrip(s) == s[..|RStrip(s)|]
    ensures RStrip(s) != "" ==> !IsSpace(RStrip(s)[|RStrip(s)| - 1])
    ensures Blank(s[|RStrip(s)|..])
  {
    var cut := s[|RStrip(s)|..];
    if s != "" && IsSpace(s[|s| - 1]) {
      var init := s[..|s| - 1];
      RStripCuts(init);
      assert cut == init[|RStrip(init)|..] + [s[|s| - 1]];
    } else {
      assert cut == "";
    }
  }

  /** `str.strip()`. */
  function Strip(s: string): string {
    RStrip(LStrip(s))
  }

  predicate Trimmed(s: string) {
    s == "" || (!IsSpace(s[0]) && !IsSpace(s[|s| - 1]))
  }

  predicate Blank(s: string) {
    forall i | 0 <= i < |s| :: IsSpace(s[i])
  }

  lemma StripTrims(s: string)
    ensures Trimmed(Strip(s))
    ensures |Strip(s)| <= |s|
    ensures forall c | c in Strip(s) :: c in s
  {
    var l := LStrip(s);
    LStripCuts(s);
    RStripCuts(l);
  }

  lemma StripIsSingle(s: string)
    requires SingleLine(s)
    ensures SingleLine(Strip(s))
  {
    hide IsBreak;
    StripTrims(s);
    forall i | 0 <= i < |Strip(s)| ensures !IsBreak(Strip(s)[i]) {
      assert Strip(s)[i] in s;
    }
  }

  /** What a stripped string starts with is what any longer one starts with. */
  lemma StripStarts(s: string, after: string)
    requires Strip(s) != ""
    ensures Strip(s + after) != "" && Strip(s + after)[0] == Strip(s)[0]
  {
    StripBlank(s);
    LStripSuffix(s, after);
    StripBlank(s + after);
    assert !Blank(s + after) by {
      var i :| 0 <= i < |s| && !IsSpace(s[i]);
      assert (s + after)[i] == s[i];
    }
    RStripCuts(LStrip(s));
    RStripCuts(LStrip(s + after));
  }

  lemma StripOfTrimmed(s: string)
    requires Trimmed(s)
    ensures Strip(s) == s
  {
  }

  lemma StripBlank(s: string)
    ensures Strip(s) == "" <==> Blank(s)
  {
    var l := LStrip(s);
    LStripCuts(s);
    RStripCuts(l);
    assert s == s[..|s| - |l|] + l;
    assert l == RStrip(l) + l[|RStrip(l)|..];
    if l != "" {
      assert l[0] == s[|s| - |l|];
    }
  }

  /** Stripping a trimmed line that ends in a newline gives the line back. */
  lemma StripLine(s: string)
    requires Trimmed(s)
    ensures Strip(s + "\n") == s
  {
    StripSuffix(s, "\n");
    StripOfTrimmed(s);
  }

  /** Space at the end does not survive stripping. */
  lemma {:induction false} StripSuffix(s: string, after: string)
    requires Blank(after)
    ensures Strip(s + after) == Strip(s)
  {
    if Blank(s) {
      StripBlank(s);
      StripBlank(s + after);
    } else {
      LStripSuffix(s, after);
      RStripSuffix(LStrip(s), after);
    }
  }

  lemma {:induction false} LStripSuffix(s: string, after: string)
    requires !Blank(s)
    ensures LStrip(s + after) == LStrip(s) + after
    decreases |s|
  {
    if IsSpace(s[0]) {
      assert (s + after)[1..] == s[1..] + after;
      LStripSuffix(s[1..], after);
    }
  }

  lemma {:induction false} RStripSuffix(s: string, after: string)
    requires Blank(after)
    ensures RStrip(s + after) == RStrip(s)
    decreases |after|
  {
    if after == "" {
      assert s + after == s;
    } else {
      assert (s + after)[..|s + after| - 1] == s + after[..|after| - 1];
      RStripSuffix(s, after[..|after| - 1]);
    }
  }

  lemma {:induction false} RStripConcat(a: string, b: string)
    ensures RStrip(a + b) == if RStrip(b) == "" then RStrip(a) else a + RStrip(b)
    decreases |b|
  {
    if RStrip(b) == "" {
      RStripCuts(b);
      RStripSuffix(a, b);
    } else if IsSpace(b[|b| - 1]) {
      assert (a + b)[..|a + b| - 1] == a + b[..|b| - 1];
      RStripConcat(a, b[..|b| - 1]);
    }
  }

  /** `str.lower()` restricted to ASCII. */
  function LowerChar(c: char): char {
    if 'A' <= c <= 'Z' then (c as int + 32) as char else c
  }

  lemma LowerExactly(c: char)
    ensures 65 <= c as int <= 90 ==> LowerChar(c) as int == c as int + 32
    ensures c as int < 65 || 90 < c as int ==> LowerChar(c) == c
  {
  }

  function Lower(s: string): (r: string)
    ensures |r| == |s|
    ensures forall i | 0 <= i < |s| :: r[i] == LowerChar(s[i])
  {
    seq(|s|, i requires 0 <= i < |s| => LowerChar(s[i]))
  }

  lemma LowerTwice(s: string)
    ensures Lower(Lower(s)) == Lower(s)
    ensures Trimmed(s) ==> Trimmed(Lower(s))
  {
  }

  /** The position of the first `sep` in `s`, or `|s|`. */
  function IndexOf(s: string, sep: char): (i: nat)
    ensures i <= |s|
    ensures forall k | 0 <= k < i :: s[k] != sep
    ensures i < |s| ==> s[i] == sep
    ensures sep in s <==> i < |s|
  {
    if s == "" || s[0] == sep then 0 else 1 + IndexOf(s[1..], sep)
  }

  /** `s.split(sep)` for a one-character separator. */
  function Split(s: string, sep: char): (parts: seq<string>)
    ensures parts != []
    decreases |s|
  {
    var i := IndexOf(s, sep);
    if i == |s| then [s] else [s[..i]] + Split(s[i + 1..], sep)
  }

  /** `sep.join(parts)`. */
  function Join(parts: seq<string>, sep: string): string {
    if parts == [] then ""
    else if |parts| == 1 then parts[0]
    else parts[0] + sep + Join(parts[1..], sep)
  }

  lemma {:induction false} SplitHead(a: string, sep: char, rest: string)
    requires sep !in a
    ensures Split(a + [sep] + rest, sep) == [a] + Split(rest, sep)
  {
    var s := a + [sep] + rest;
    assert s[|a|] == sep;
    assert forall k | 0 <= k < |a| :: s[k] == a[k];
    assert IndexOf(s, sep) == |a|;
    assert s[..|a|] == a && s[|a| + 1..] == rest;
  }

  /** Splitting what was joined gives the parts back, provided no part holds the separator. */
  lemma {:induction false} SplitJoin(parts: seq<string>, sep: char)
    requires parts != []
    requires forall p | p in parts :: sep !in p
    ensures Split(Join(parts, [sep]), sep) == parts
  {
    if |parts| == 1 {
      assert parts[0] in parts;
      assert parts == [parts[0]];
    } else {
      SplitJoin(parts[1..], sep);
      SplitHead(parts[0], sep, Join(parts[1..], [sep]));
    }
  }

  predicate IsDigits(s: string) {
    s != "" && forall i | 0 <= i < |s| :: '0' <= s[i] <= '9'
  }

  /** `int(s)` for a string of ASCII digits. */
  function ParseNat(s: string): nat
    requires forall i | 0 <= i < |s| :: '0' <= s[i] <= '9'
  {
    if s == "" then 0 else 10 * ParseNat(s[..|s| - 1]) + (s[|s| - 1] as int - '0' as int)
  }

  /** `str(n)`. */
  function Decimal(n: nat): string {
    var digit := [('0' as int + n % 10) as char];
    if n < 10 then digit else Decimal(n / 10) + digit
  }

  function Power10(k: nat): (r: nat)
    ensures r >= 1
  {
    if k == 0 then 1 else 10 * Power10(k - 1)
  }

  /** The decimal text of a number is its digits: without leading zeros, and read back by `ParseNat`. */
  lemma {:induction false} DecimalReads(n: nat)
    ensures IsDigits(Decimal(n)) && ParseNat(Decimal(n)) == n
    ensures Decimal(n)[0] == '0' <==> n == 0
  {
    var digit := [('0' as int + n % 10) as char];
    if n >= 10 {
      DecimalReads(n / 10);
      var d := Decimal(n / 10) + digit;
      assert d[..|d| - 1] == Decimal(n / 10);
    } else {
      assert digit[..0] == "";
    }
  }

  /** The k-th digit from the end is that of the number. */
  lemma {:induction false} DecimalDigit(n: nat, k: nat)
    requires k < |Decimal(n)|
    ensures Decimal(n)[|Decimal(n)| - 1 - k] as int == '0' as int + n / Power10(k) % 10
  {
    if k > 0 {
      DecimalDigit(n / 10, k - 1);
      DivideTwice(n, Power10(k - 1));
    }
  }

  lemma DivideTwice(n: nat, p: nat)
    requires p >= 1
    ensures n / 10 / p == n / (10 * p)
  {
    var q, r := n / (10 * p), n % (10 * p);
    assert n == 10 * p * q + r;
    var a, b := r / 10, r % 10;
    assert n == 10 * (p * q + a) + b;
    assert n / 10 == p * q + a;
    assert 0 <= a < p;
    QuotientIs(p, q, a);
  }

  lemma QuotientIs(p: nat, q: nat, a: nat)
    requires a < p
    ensures (p * q + a) / p == q
  {
    var x := p * q + a;
    var e := x / p - q;
    assert x == p * (x / p) + x % p;
    assert p * (x / p) == p * q + p * e;
    TimesAtLeast(p, e);
  }

  lemma TimesAtLeast(p: nat, e: int)
    ensures e >= 1 ==> p * e >= p
    ensures e <= -1 ==> p * e + p <= 0
  {
    if e <= -1 { assert p * e == -(p * -e); }
  }

  /** `str.split()`: the maximal runs of non-space characters. */
  function Words(s: string): seq<string>
    decreases |s|
  {
    var t := LStrip(s);
    if t == "" then []
    else
      var i := WordEnd(t);
      [t[..i]] + Words(t[i..])
  }

  function WordEnd(t: string): (i: nat)
    ensures i <= |t|
    ensures t != "" && !IsSpace(t[0]) ==> 0 < i
  {
    if t == "" || IsSpace(t[0]) then 0 else 1 + WordEnd(t[1..])
  }

  /** The position of the first line break, or `|s|`. */
  function FirstBreak(s: string): (i: nat)
    ensures i <= |s|
    ensures forall k | 0 <= k < i :: !IsBreak(s[k])
    ensures i < |s| ==> IsBreak(s[i])
  {
    if s == "" || IsBreak(s[0]) then 0 else 1 + FirstBreak(s[1..])
  }

  /** CR LF is one break of two characters. */
  function BreakWidth(s: string, i: nat): (w: nat)
    requires i < |s|
    ensures 1 <= w <= |s| - i
  {
    if s[i] == '\r' && i + 1 < |s| && s[i + 1] == '\n' then 2 else 1
  }

  /** `str.splitlines()`: a final break opens no line. */
  function Lines(s: string): seq<string>
    decreases |s|
  {
    if s == "" then []
    else
      var i := FirstBreak(s);
      if i == |s| then [s] else [s[..i]] + Lines(s[i + BreakWidth(s, i)..])
  }

  lemma FirstBreakIs(s: string, i: nat)
    requires i < |s| && IsBreak(s[i])
    requires forall k | 0 <= k < i :: !IsBreak(s[k])
    ensures FirstBreak(s) == i
  {
    hide IsBreak;
    assert forall k | 0 <= k < FirstBreak(s) :: !IsBreak(s[k]);
  }

  lemma LinesAt(s: string, i: nat)
    requires i < |s| && IsBreak(s[i])
    requires forall k | 0 <= k < i :: !IsBreak(s[k])
    ensures FirstBreak(s) == i
    ensures Lines(s) == [s[..i]] + Lines(s[i + BreakWidth(s, i)..])
  {
    hide *;
    FirstBreakIs(s, i);
    LinesBreak(s);
  }

  lemma LinesStep(s: string, i: nat, rest: string)
    requires FirstBreak(s) == i < |s| && rest == s[i + BreakWidth(s, i)..]
    ensures Lines(s) == [s[..i]] + Lines(rest)
  {
    hide IsBreak, FirstBreak, BreakWidth;
  }

  lemma LinesBreak(s: string)
    requires FirstBreak(s) < |s|
    ensures Lines(s) == [s[..FirstBreak(s)]] + Lines(s[FirstBreak(s) + BreakWidth(s, FirstBreak(s))..])
  {
    hide Lines, FirstBreak, BreakWidth;
    LinesStep(s, FirstBreak(s), s[FirstBreak(s) + BreakWidth(s, FirstBreak(s))..]);
  }

  /** CR LF ends one line. */
  lemma LinesCrLf(a: string, b: string)
    requires SingleLine(a)
    ensures Lines(a + "\r\n" + b) == [a] + Lines(b)
  {
    var s := a + "\r\n" + b;
    assert s[|a|] == '\r' && s[|a| + 1] == '\n' && forall k | 0 <= k < |a| :: s[k] == a[k];
    assert IsBreak('\r');
    LinesAt(s, |a|);
    assert s[..|a|] == a && s[|a| + 2..] == b;
    hide Lines, IsBreak;
  }

  lemma {:induction false} LinesAreSingle(s: string)
    ensures forall l | l in Lines(s) :: SingleLine(l)
    decreases |s|
  {
    hide IsBreak;
    if FirstBreak(s) == |s| {
      assert s == "" || Lines(s) == [s];
    } else {
      var i := FirstBreak(s);
      LinesAreSingle(s[i + BreakWidth(s, i)..]);
      LinesBreak(s);
      hide Lines, FirstBreak, BreakWidth;
    }
  }
}
