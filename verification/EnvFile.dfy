/** Environment files as maps: what loading sees after an update (scripts/simple_setup_common.py:81-118). */
module EnvFile {

  import opened Text
  import opened Wrappers
  import opened Sorting

  /** The key and value of a line; None for blank lines, comments and lines without `=`. */
  function ParseLine(line: string): Option<(string, string)> {
    var stripped := Strip(line);
    var i := IndexOf(line, '=');
    if stripped == "" || stripped[0] == '#' || i == |line| then None
    else Some((Strip(line[..i]), Strip(line[i + 1..])))
  }

  predicate HasKey(line: string, k: string) {
    ParseLine(line).Some? && ParseLine(line).value.0 == k
  }

  /** `load_env_file` on the lines of the file: the last line for a key wins. */
  function Load(lines: seq<string>): map<string, string> {
    if lines == [] then map[]
    else
      var rest := Load(lines[..|lines| - 1]);
      match ParseLine(lines[|lines| - 1])
      case None => rest
      case Some((key, value)) => rest[key := value]
  }

  /** The value that loading gives a key. */
  function Lookup(lines: seq<string>, k: string): Option<string> {
    if lines == [] then None
    else
      var later := Lookup(lines[1..], k);
      if later.Some? then later
      else if HasKey(lines[0], k) then Some(ParseLine(lines[0]).value.1)
      else None
  }

  function Count(lines: seq<string>, k: string): nat {
    if lines == [] then 0 else (if HasKey(lines[0], k) then 1 else 0) + Count(lines[1..], k)
  }

  lemma {:induction false} LookupConcat(a: seq<string>, b: seq<string>, k: string)
    ensures Lookup(a + b, k) == if Lookup(b, k).Some? then Lookup(b, k) else Lookup(a, k)
    ensures Count(a + b, k) == Count(a, k) + Count(b, k)
  {
    hide ParseLine;
    if a == [] {
      assert a + b == b;
    } else {
      assert (a + b)[1..] == a[1..] + b;
      LookupConcat(a[1..], b, k);
    }
  }

  lemma {:induction false} LoadIsLookup(lines: seq<string>, k: string)
    ensures k in Load(lines) <==> Lookup(lines, k).Some?
    ensures k in Load(lines) ==> Load(lines)[k] == Lookup(lines, k).value
    ensures Count(lines, k) == 0 <==> Lookup(lines, k).None?
  {
    hide ParseLine;
    if lines != [] {
      var init, last := lines[..|lines| - 1], lines[|lines| - 1];
      LoadIsLookup(init, k);
      assert lines == init + [last];
      LookupConcat(init, [last], k);
      assert [last][1..] == [];
    }
  }

  /** A key that can stand before `=`: trimmed, on one line, no `=`, not a comment. */
  predicate PlainKey(k: string) {
    Trimmed(k) && SingleLine(k) && '=' !in k && (k != "" ==> k[0] != '#')
  }

  predicate PlainValue(v: string) {
    Trimmed(v) && SingleLine(v)
  }

  /** Whatever a line says, its key and value are plain. */
  lemma ParsedIsPlain(line: string)
    requires SingleLine(line) && ParseLine(line).Some?
    ensures PlainKey(ParseLine(line).value.0) && PlainValue(ParseLine(line).value.1)
  {
    hide Strip, Trimmed, IsBreak;
    var i := IndexOf(line, '=');
    var before, after := line[..i], line[i + 1..];
    StripTrims(before);
    StripTrims(after);
    StripIsSingle(before);
    StripIsSingle(after);
    assert line == before + line[i..];
    if Strip(before) != "" { StripStarts(before, line[i..]); }
  }

  lemma {:induction false} LoadedIsPlain(lines: seq<string>, k: string)
    requires (forall l | l in lines :: SingleLine(l)) && Lookup(lines, k).Some?
    ensures PlainKey(k) && PlainValue(Lookup(lines, k).value)
  {
    hide ParseLine, PlainKey, PlainValue, SingleLine;
    assert lines[0] in lines && forall l | l in lines[1..] :: l in lines;
    if Lookup(lines[1..], k).Some? {
      LoadedIsPlain(lines[1..], k);
    } else {
      ParsedIsPlain(lines[0]);
    }
  }

  /** Updates that a later load finds under their keys; space around a value does not survive. */
  predicate Readable(updates: map<string, string>) {
    forall k | k in updates :: PlainKey(k) && SingleLine(updates[k])
  }

  predicate OneLine(updates: map<string, string>) {
    forall k | k in updates :: SingleLine(k) && SingleLine(updates[k])
  }

  function Format(k: string, v: string): string {
    k + "=" + v
  }

  lemma FormatReads(k: string, v: string)
    requires PlainKey(k)
    ensures ParseLine(Format(k, v)) == Some((k, Strip(v)))
  {
    hide Strip, IsSpace, IsBreak;
    var line := Format(k, v);
    assert line[|k|] == '=' && forall j | 0 <= j < |k| :: line[j] == k[j];
    assert IndexOf(line, '=') == |k|;
    assert line[..|k|] == k && line[|k| + 1..] == v;
    StripOfTrimmed(k);
    StartsPlain(k, v);
  }

  /** A written line is not blank and does not start a comment. */
  lemma StartsPlain(k: string, v: string)
    requires PlainKey(k)
    ensures Strip(Format(k, v)) != "" && Strip(Format(k, v))[0] != '#'
  {
    var start := k + "=";
    assert Trimmed(start) by { assert start[0] == if k == "" then '=' else k[0]; }
    StripOfTrimmed(start);
    hide Strip;
    StripStarts(start, v);
    assert Format(k, v) == start + v;
    assert start[0] != '#';
  }

  lemma FormatParses(k: string, v: string)
    requires PlainKey(k) && Trimmed(v)
    ensures ParseLine(Format(k, v)) == Some((k, v))
    ensures RStrip(Format(k, v)) == Format(k, v)
  {
    FormatReads(k, v);
    StripOfTrimmed(v);
    hide ParseLine, Strip, PlainKey;
    var line := Format(k, v);
    assert line[|line| - 1] == if v == "" then '=' else v[|v| - 1];
  }

  /** One line of the loop: the first line for a pending key is rewritten and the key is no longer pending. */
  function RewriteLine(line: string, pending: map<string, string>): (string, map<string, string>) {
    match ParseLine(line)
    case None => (line, pending)
    case Some((key, _)) => if key in pending then (Format(key, pending[key]), pending - {key}) else (line, pending)
  }

  function Rewrite(lines: seq<string>, pending: map<string, string>): (seq<string>, map<string, string>) {
    if lines == [] then ([], pending)
    else
      var (line, left) := RewriteLine(lines[0], pending);
      var (rest, final) := Rewrite(lines[1..], left);
      ([line] + rest, final)
  }

  /** Lines for the updates that are still pending, in their order. */
  function Appended(updates: seq<(string, string)>, pending: map<string, string>): seq<string> {
    if updates == [] then []
    else if updates[0].0 in pending
    then [Format(updates[0].0, pending[updates[0].0])] + Appended(updates[1..], pending)
    else Appended(updates[1..], pending)
  }

  predicate Distinct(updates: seq<(string, string)>) {
    forall i, j | 0 <= i < j < |updates| :: updates[i].0 != updates[j].0
  }

  function Separator(lines: seq<string>, pending: map<string, string>): seq<string> {
    if pending != map[] && lines != [] && lines[|lines| - 1] != "" then [""] else []
  }

  function UpdatedLines(lines: seq<string>, updates: seq<(string, string)>): seq<string> {
    var (rewritten, pending) := Rewrite(lines, ToMap(updates));
    rewritten + Separator(rewritten, pending) + Appended(updates, pending)
  }

  /** `"\n".join(lines).rstrip() + "\n"`. */
  function Body(lines: seq<string>): string {
    RStrip(Join(lines, "\n")) + "\n"
  }

  function LinesOf(text: Option<string>): seq<string> {
    if text.Some? then Lines(text.value) else []
  }

  // ----- what splitting the written body gives back -----

  function Pieces(line: string): seq<string> {
    if line == "" then [""] else Lines(line)
  }

  predicate EndsOpen(line: string) {
    line == "" || !IsBreak(line[|line| - 1])
  }

  lemma {:induction false} LinesHead(line: string, rest: string)
    requires EndsOpen(line)
    ensures Lines(line + "\n" + rest) == Pieces(line) + Lines(rest)
    decreases |line|
  {
    hide FirstBreak, Lines, IsBreak;
    var s := line + "\n" + rest;
    var i := FirstBreak(line);
    assert forall j | 0 <= j < |line| :: s[j] == line[j];
    assert s[|line|] == '\n' && IsBreak('\n') by { NewlineBreaks(); }
    LinesAt(s, i);
    assert s[..i] == line[..i];
    if i == |line| {
      assert s[i + 1..] == rest;
      assert line[..i] == line;
      WholeLine(line);
    } else {
      LinesAt(line, i);
      var tail := line[i + BreakWidth(line, i)..];
      assert s[i + BreakWidth(line, i)..] == tail + "\n" + rest;
      LinesHead(tail, rest);
    }
  }

  lemma NewlineBreaks()
    ensures IsBreak('\n')
  {
  }

  lemma WholeLine(line: string)
    requires FirstBreak(line) == |line|
    ensures Pieces(line) == [line]
  {
  }

  lemma SinglePiece(line: string)
    requires SingleLine(line)
    ensures Pieces(line) == [line] && EndsOpen(line)
  {
    if line != "" { assert FirstBreak(line) == |line|; }
  }

  /** Lines without breaks, written and split again, are the lines. */
  lemma {:induction false} LinesOfJoin(lines: seq<string>)
    requires lines != [] && forall l | l in lines :: SingleLine(l)
    ensures Lines(Join(lines, "\n") + "\n") == lines
  {
    hide Lines, Pieces, SingleLine, EndsOpen;
    SinglePiece(lines[0]);
    if |lines| == 1 {
      LinesHead(lines[0], "");
      assert lines[0] + "\n" + "" == lines[0] + "\n";
      NoLines();
      assert lines == [lines[0]] + [];
    } else {
      var rest := lines[1..];
      assert forall l | l in rest :: l in lines;
      LinesOfJoin(rest);
      LinesHead(lines[0], Join(rest, "\n") + "\n");
      assert Join(lines, "\n") + "\n" == lines[0] + "\n" + (Join(rest, "\n") + "\n");
      assert lines == [lines[0]] + rest;
    }
  }

  lemma NoLines()
    ensures Lines("") == []
  {
  }

  /** The lines that survive the final `rstrip`. */
  function TrimLines(lines: seq<string>): seq<string> {
    if lines == [] then []
    else
      var rest := TrimLines(lines[1..]);
      if rest != [] then [lines[0]] + rest
      else if RStrip(lines[0]) == "" then []
      else [RStrip(lines[0])]
  }

  lemma {:induction false} RStripJoin(lines: seq<string>)
    ensures RStrip(Join(lines, "\n")) == Join(TrimLines(lines), "\n")
    ensures TrimLines(lines) == [] <==> RStrip(Join(lines, "\n")) == ""
    ensures TrimLines(lines) != [] ==> Join(TrimLines(lines), "\n") != ""
  {
    hide RStrip;
    if lines == [] {
      RStripNothing();
    } else if |lines| == 1 {
      assert lines[1..] == [];
    } else {
      var rest := lines[1..];
      var tail := Join(rest, "\n");
      RStripJoin(rest);
      RStripConcat("\n", tail);
      RStripConcat(lines[0], "\n" + tail);
      assert lines[0] + "\n" + tail == lines[0] + ("\n" + tail);
      RStripNewline();
      var trimmed := TrimLines(rest);
      if trimmed != [] {
        assert ([lines[0]] + trimmed)[1..] == trimmed;
        assert lines[0] + ("\n" + Join(trimmed, "\n")) == lines[0] + "\n" + Join(trimmed, "\n");
      }
    }
  }

  lemma RStripNothing()
    ensures RStrip("") == ""
  {
  }

  lemma RStripNewline()
    ensures RStrip("\n") == ""
  {
    assert "\n"[..0] == "";
  }

  lemma {:induction false} TrimKeeps(lines: seq<string>)
    requires forall l | l in lines :: SingleLine(l)
    ensures forall l | l in TrimLines(lines) :: SingleLine(l)
  {
    if lines != [] {
      assert forall l | l in lines[1..] :: l in lines;
      TrimKeeps(lines[1..]);
      RStripCuts(lines[0]);
      assert lines[0] in lines;
      assert SingleLine(RStrip(lines[0]));
      hide RStrip, SingleLine;
    }
  }

  /** Space at the end of a line does not change what it says. */
  lemma ParseRStrip(line: string)
    ensures ParseLine(RStrip(line)) == ParseLine(line)
    ensures RStrip(line) == "" ==> ParseLine(line) == None
  {
    hide Strip, RStrip, ParseLine;
    var r := RStrip(line);
    RStripCuts(line);
    assert line == r + line[|r|..];
    ParsePadded(r, line[|r|..]);
    EmptySaysNothing();
  }

  lemma EmptySaysNothing()
    ensures ParseLine("") == None
  {
    assert Strip("") == "";
  }

  lemma ParsePadded(r: string, gap: string)
    requires Blank(gap)
    ensures ParseLine(r + gap) == ParseLine(r)
  {
    hide Strip, IndexOf;
    var line := r + gap;
    StripSuffix(r, gap);
    var i := IndexOf(r, '=');
    assert forall j | 0 <= j < |r| :: line[j] == r[j];
    if i < |r| {
      assert IndexOf(line, '=') == i;
      assert line[..i] == r[..i] && line[i + 1..] == r[i + 1..] + gap;
      StripSuffix(r[i + 1..], gap);
    } else {
      assert forall j | 0 <= j < |gap| :: IsSpace(gap[j]) && gap[j] != '=';
      assert forall j | |r| <= j < |line| :: line[j] == gap[j - |r|];
      assert IndexOf(line, '=') == |line|;
    }
  }

  lemma StripEmpty()
    ensures Strip("") == ""
  {
  }

  lemma {:induction false} TrimLookup(lines: seq<string>, k: string)
    ensures Lookup(TrimLines(lines), k) == Lookup(lines, k)
  {
    hide ParseLine, RStrip;
    if lines != [] {
      TrimLookup(lines[1..], k);
      ParseRStrip(lines[0]);
      var rest := TrimLines(lines[1..]);
      assert rest != [] ==> ([lines[0]] + rest)[1..] == rest;
      assert [RStrip(lines[0])][1..] == [];
    }
  }

  /** What loading finds in a written body. */
  lemma BodyLookup(lines: seq<string>, k: string)
    requires forall l | l in lines :: SingleLine(l)
    ensures Lookup(Lines(Body(lines)), k) == Lookup(lines, k)
    ensures Lines(Body(lines)) == if TrimLines(lines) == [] then [""] else TrimLines(lines)
  {
    hide Lines, RStrip, ParseLine, TrimLines;
    RStripJoin(lines);
    TrimKeeps(lines);
    TrimLookup(lines, k);
    if TrimLines(lines) == [] {
      BlankBody(k);
      assert "" + "\n" == "\n";
    } else {
      LinesOfJoin(TrimLines(lines));
    }
  }

  lemma BlankBody(k: string)
    ensures Lines("\n") == [""] && Lookup([""], k) == None && Lookup([], k) == None
  {
    assert FirstBreak("\n") == 0 && "\n"[..0] == "" && "\n"[1..] == "";
    StripEmpty();
  }

  // ----- what an update does -----

  lemma {:induction false} RewriteLookup(lines: seq<string>, pending: map<string, string>, k: string)
    requires Readable(pending)
    ensures var (rewritten, left) := Rewrite(lines, pending);
            && Lookup(rewritten, k) ==
                 (if k in pending && Count(lines, k) == 1 then Some(Strip(pending[k])) else Lookup(lines, k))
            && (k in left <==> k in pending && Count(lines, k) == 0)
  {
    hide ParseLine, PlainKey, SingleLine, Format, Strip;
    if lines != [] {
      var (line, left) := RewriteLine(lines[0], pending);
      RewriteLookup(lines[1..], left, k);
      LoadIsLookup(lines[1..], k);
      if ParseLine(lines[0]).Some? && ParseLine(lines[0]).value.0 in pending {
        var key := ParseLine(lines[0]).value.0;
        ReadsBack(key, pending);
      }
      var rest := Rewrite(lines[1..], left).0;
      assert ([line] + rest)[1..] == rest;
    }
  }

  /** What is still pending is part of what was. */
  lemma {:induction false} LeftAmong(lines: seq<string>, pending: map<string, string>)
    ensures var left := Rewrite(lines, pending).1;
            left.Keys <= pending.Keys && forall k | k in left :: left[k] == pending[k]
  {
    hide ParseLine, Format;
    if lines != [] { LeftAmong(lines[1..], RewriteLine(lines[0], pending).1); }
  }

  lemma ReadsBack(k: string, pending: map<string, string>)
    requires Readable(pending) && k in pending
    ensures ParseLine(Format(k, pending[k])) == Some((k, Strip(pending[k])))
  {
    FormatReads(k, pending[k]);
  }

  lemma FormatIsSingle(k: string, v: string)
    requires SingleLine(k) && SingleLine(v)
    ensures SingleLine(Format(k, v))
  {
  }

  lemma {:induction false} AppendedLookup(updates: seq<(string, string)>, pending: map<string, string>, k: string)
    requires Readable(pending) && Distinct(updates)
    ensures Lookup(Appended(updates, pending), k) ==
              if k in pending && (exists i | 0 <= i < |updates| :: updates[i].0 == k)
              then Some(Strip(pending[k])) else None
  {
    hide ParseLine, PlainKey, Format, SingleLine, Strip;
    if updates != [] {
      var rest := updates[1..];
      AppendedLookup(rest, pending, k);
      var key := updates[0].0;
      if key in pending {
        ReadsBack(key, pending);
        assert ([Format(key, pending[key])] + Appended(rest, pending))[1..] == Appended(rest, pending);
      }
      if i :| 0 <= i < |updates| && updates[i].0 == k {
        assert i > 0 ==> rest[i - 1].0 == k;
      }
      if i :| 0 <= i < |rest| && rest[i].0 == k {
        assert updates[i + 1].0 == k;
      }
    }
  }

  lemma {:induction false} AppendedSingle(updates: seq<(string, string)>, pending: map<string, string>)
    requires OneLine(pending)
    ensures forall l | l in Appended(updates, pending) :: SingleLine(l)
  {
    hide SingleLine, Format;
    if updates != [] {
      AppendedSingle(updates[1..], pending);
      var key := updates[0].0;
      if key in pending { FormatIsSingle(key, pending[key]); }
    }
  }

  lemma {:induction false} RewriteSingle(lines: seq<string>, pending: map<string, string>)
    requires OneLine(pending) && forall l | l in lines :: SingleLine(l)
    ensures forall l | l in Rewrite(lines, pending).0 :: SingleLine(l)
  {
    hide ParseLine, Format, SingleLine;
    if lines != [] {
      var (_, left) := RewriteLine(lines[0], pending);
      assert forall l | l in lines[1..] :: l in lines;
      RewriteSingle(lines[1..], left);
      if ParseLine(lines[0]).Some? && ParseLine(lines[0]).value.0 in pending {
        var key := ParseLine(lines[0]).value.0;
        FormatIsSingle(key, pending[key]);
      }
    }
  }

  lemma UpdatedSingle(lines: seq<string>, updates: seq<(string, string)>)
    requires OneLine(ToMap(updates)) && forall l | l in lines :: SingleLine(l)
    ensures forall l | l in UpdatedLines(lines, updates) :: SingleLine(l)
  {
    hide SingleLine, Rewrite, Appended, ToMap;
    var pending := ToMap(updates);
    RewriteSingle(lines, pending);
    LeftAmong(lines, pending);
    AppendedSingle(updates, Rewrite(lines, pending).1);
    SeparatorSays(Rewrite(lines, pending).0, Rewrite(lines, pending).1, "");
  }

  /** Each key once, as in a dict, and every pair readable. */
  predicate ReadableUpdates(updates: seq<(string, string)>) {
    Distinct(updates) && forall i | 0 <= i < |updates| :: PlainKey(updates[i].0) && SingleLine(updates[i].1)
  }

  /** In addition, no space around the values. */
  predicate PlainUpdates(updates: seq<(string, string)>) {
    ReadableUpdates(updates) && forall i | 0 <= i < |updates| :: Trimmed(updates[i].1)
  }

  lemma UpdatesAsMap(updates: seq<(string, string)>)
    requires ReadableUpdates(updates)
    ensures Readable(ToMap(updates)) && OneLine(ToMap(updates))
    ensures forall k :: k in ToMap(updates) <==> exists i | 0 <= i < |updates| :: updates[i].0 == k
  {
    hide SingleLine, Trimmed;
    ToMapItems(updates);
    hide ToMap;
  }

  /**
   What an update does to the map: every updated key that occurs at most once takes its new value, without the space
   around it; a key that occurs several times keeps the value of its last line, and all other keys keep theirs. Whatever
   the updates are, only plain keys and values are ever loaded.
   */
  lemma UpdateLaw(lines: seq<string>, updates: seq<(string, string)>, k: string)
    requires Distinct(updates) && forall l | l in lines :: SingleLine(l)
    ensures var after := Lookup(Lines(Body(UpdatedLines(lines, updates))), k);
            && (ReadableUpdates(updates) ==>
                  after == if k in ToMap(updates) && Count(lines, k) <= 1 then Some(Strip(ToMap(updates)[k]))
                           else Lookup(lines, k))
            && (after.Some? ==> PlainKey(k) && PlainValue(after.value))
  {
    hide PlainKey, PlainValue, SingleLine, Lines, Body, UpdatedLines, ToMap, Lookup, Count, ReadableUpdates;
    var text := Body(UpdatedLines(lines, updates));
    LinesAreSingle(text);
    if Lookup(Lines(text), k).Some? { LoadedIsPlain(Lines(text), k); }
    if ReadableUpdates(updates) { ReadableUpdateLaw(lines, updates, k); }
  }

  lemma ReadableUpdateLaw(lines: seq<string>, updates: seq<(string, string)>, k: string)
    requires ReadableUpdates(updates) && forall l | l in lines :: SingleLine(l)
    ensures Lookup(Lines(Body(UpdatedLines(lines, updates))), k) ==
              if k in ToMap(updates) && Count(lines, k) <= 1 then Some(Strip(ToMap(updates)[k])) else Lookup(lines, k)
  {
    hide ParseLine, PlainKey, SingleLine, Lines, Body, Rewrite, Appended, ToMap, Lookup, Count, Strip;
    var pending := ToMap(updates);
    UpdatesAsMap(updates);
    UpdatedSingle(lines, updates);
    var (rewritten, left) := Rewrite(lines, pending);
    RewriteLookup(lines, pending, k);
    LeftAmong(lines, pending);
    AppendedLookup(updates, left, k);
    var sep, tail := Separator(rewritten, left), Appended(updates, left);
    SeparatorSays(rewritten, left, k);
    LookupConcat(rewritten, sep, k);
    LookupConcat(rewritten + sep, tail, k);
    LoadIsLookup(lines, k);
    BodyLookup(UpdatedLines(lines, updates), k);
  }

  lemma SeparatorSays(lines: seq<string>, pending: map<string, string>, k: string)
    ensures Lookup(Separator(lines, pending), k) == None
    ensures forall l | l in Separator(lines, pending) :: SingleLine(l)
  {
    BlankBody(k);
  }

  /**
   Updating refines adding to a map, for whatever is updated: loading the updated file gives the old map plus the
   updates exactly when every updated key and value can be read back, and every updated key occurs at most once or
   already has its new value in its last line.
   */
  lemma UpdateRefinesMap(lines: seq<string>, updates: seq<(string, string)>)
    requires Distinct(updates) && forall l | l in lines :: SingleLine(l)
    ensures Load(Lines(Body(UpdatedLines(lines, updates)))) == Load(lines) + ToMap(updates) <==>
              && PlainUpdates(updates)
              && forall k | k in ToMap(updates) :: Count(lines, k) <= 1 || Lookup(lines, k) == Some(ToMap(updates)[k])
  {
    hide UpdatedLines, Lines, Body, Load, Lookup, Count, PlainUpdates, SingleLine;
    var text := Body(UpdatedLines(lines, updates));
    if PlainUpdates(updates) {
      PlainUpdateRefines(lines, updates);
    } else if Load(Lines(text)) == Load(lines) + ToMap(updates) {
      LinesAreSingle(text);
      UnreadableUpdate(lines, Lines(text), updates);
    }
  }

  /** A map that holds all the updates and was loaded from a file shows that they are plain. */
  lemma UnreadableUpdate(lines: seq<string>, after: seq<string>, updates: seq<(string, string)>)
    requires Distinct(updates) && forall l | l in after :: SingleLine(l)
    requires Load(after) == Load(lines) + ToMap(updates)
    ensures PlainUpdates(updates)
  {
    hide Load, Lookup, SingleLine, PlainKey, ToMap;
    ToMapItems(updates);
    forall i | 0 <= i < |updates| ensures PlainKey(updates[i].0) && PlainValue(updates[i].1) {
      var k := updates[i].0;
      assert (Load(lines) + ToMap(updates))[k] == updates[i].1;
      LoadIsLookup(after, k);
      LoadedIsPlain(after, k);
    }
  }

  lemma OnlyReadable(updates: seq<(string, string)>)
    requires PlainUpdates(updates)
    ensures ReadableUpdates(updates)
  {
  }

  lemma ValueIsTrimmed(updates: seq<(string, string)>, k: string)
    requires PlainUpdates(updates)
    ensures k in ToMap(updates) ==> Strip(ToMap(updates)[k]) == ToMap(updates)[k]
  {
    hide Strip, PlainKey, SingleLine, Trimmed;
    ToMapItems(updates);
    hide ToMap;
    if k in ToMap(updates) {
      assert Occurs(updates, k);
      var i :| 0 <= i < |updates| && updates[i].0 == k;
      StripOfTrimmed(updates[i].1);
    }
  }

  lemma PlainUpdateRefines(lines: seq<string>, updates: seq<(string, string)>)
    requires PlainUpdates(updates) && forall l | l in lines :: SingleLine(l)
    ensures Load(Lines(Body(UpdatedLines(lines, updates)))) == Load(lines) + ToMap(updates) <==>
              forall k | k in ToMap(updates) :: Count(lines, k) <= 1 || Lookup(lines, k) == Some(ToMap(updates)[k])
  {
    hide ParseLine, ReadableUpdates, PlainUpdates, SingleLine, Lines, Body, UpdatedLines, ToMap, Lookup, Count, Load;
    hide Strip;
    OnlyReadable(updates);
    var after, u := Lines(Body(UpdatedLines(lines, updates))), ToMap(updates);
    forall k
      ensures k in Load(after) <==> (k in u && Count(lines, k) <= 1) || k in Load(lines)
      ensures k in Load(after) ==>
                Some(Load(after)[k]) == if k in u && Count(lines, k) <= 1 then Some(u[k]) else Lookup(lines, k)
      ensures k in Load(lines) ==> Some(Load(lines)[k]) == Lookup(lines, k)
      ensures Count(lines, k) > 1 ==> k in Load(lines)
    {
      ReadableUpdateLaw(lines, updates, k);
      ValueIsTrimmed(updates, k);
      LoadIsLookup(after, k);
      LoadIsLookup(lines, k);
    }
    if Load(after) == Load(lines) + u {
      forall k | k in u ensures Count(lines, k) <= 1 || Lookup(lines, k) == Some(u[k]) {
        assert (Load(lines) + u)[k] == u[k];
      }
    }
  }
}
