/** Setting the same secret again (scripts/repository_secrets.py:109-113, scripts/simple_setup_common.py:94-118). */
module SecretRepeats {

  import opened Text
  import opened Sorting
  import opened EnvFile
  import opened EnvEdits
  import opened EnvSecrets
  import opened SecretText

  /** The first line for a key is the one that is rewritten. */
  lemma {:induction false} RewriteAt(before: seq<string>, line: string, rest: seq<string>, k: string, v: string)
    requires Count(before, k) == 0 && HasKey(line, k)
    ensures Rewrite(before + [line] + rest, map[k := v]) == (before + [Format(k, v)] + rest, map[])
    decreases |before|
  {
    hide ParseLine, Format;
    var all := before + [line] + rest;
    if before == [] {
      assert all == [line] + rest && all[1..] == rest;
      assert map[k := v] - {k} == map[];
      RewriteNothing(rest);
      assert [] + [Format(k, v)] + rest == [Format(k, v)] + rest;
    } else {
      assert all[0] == before[0] && all[1..] == before[1..] + [line] + rest;
      RewriteAt(before[1..], line, rest, k, v);
      assert before + [Format(k, v)] + rest == [before[0]] + (before[1..] + [Format(k, v)] + rest);
    }
  }

  /** Behind the first break of a text that does not end in space there is more of the same text. */
  lemma BehindBreak(s: string)
    requires s != "" && !IsSpace(s[|s| - 1]) && FirstBreak(s) < |s|
    ensures var rest := s[FirstBreak(s) + BreakWidth(s, FirstBreak(s))..];
            rest != "" && |rest| < |s| && rest[|rest| - 1] == s[|s| - 1]
  {
    hide FirstBreak;
    var next := FirstBreak(s) + BreakWidth(s, FirstBreak(s));
    assert IsBreak(s[next - 1]) && IsSpace(s[next - 1]);
  }

  /** A text that does not end in space has a last line that is not blank. */
  lemma {:induction false} PiecesEnd(s: string)
    requires s != "" && !IsSpace(s[|s| - 1])
    ensures Lines(s) != [] && RStrip(Lines(s)[|Lines(s)| - 1]) != ""
    ensures FirstBreak(s) < |s| ==> |Lines(s)| >= 2
    decreases |s|
  {
    hide FirstBreak, BreakWidth, IsSpace, IsBreak;
    var i := FirstBreak(s);
    if i == |s| {
      assert Lines(s) == [s];
    } else {
      var next := s[i + BreakWidth(s, i)..];
      BehindBreak(s);
      LinesStep(s, i, next);
      hide Lines, RStrip;
      PiecesEnd(next);
      var rest := Lines(next);
      assert ([s[..i]] + rest)[|rest|] == rest[|rest| - 1];
    }
  }

  /** What is left after trimming does not end blank. */
  lemma {:induction false} TrimEnds(lines: seq<string>)
    ensures var t := TrimLines(lines);
            t != [] ==> RStrip(t[|t| - 1]) != ""
  {
    if lines != [] {
      TrimEnds(lines[1..]);
      RStripCuts(lines[0]);
    }
  }

  /** A name that cannot be read back is appended by every call. */
  lemma UnreadableAgain(lines: seq<string>, k: string, v: string)
    requires !PlainKey(k) && Trimmed(v) && forall l | l in lines :: SingleLine(l)
    ensures |Lines(Body(UpdatedLines(lines, [(k, v)])))| > |lines|
  {
    hide PlainKey, Trimmed, SingleLine, Lines, Body, UpdatedLines, Lookup, Count, TrimLines, RStrip, EndsOpen;
    LoadIsLookup(lines, k);
    if Lookup(lines, k).Some? { LoadedIsPlain(lines, k); }
    var before, after := SetAround(lines, k, v);
    FormatOpen(k, v);
    WrittenLines(before, Format(k, v), after);
    SomeLine(Format(k, v));
  }

  lemma SomeLine(s: string)
    requires s != ""
    ensures Lines(s) != []
  {
  }

  /** Nothing is trimmed from the lines that follow a rewritten one. */
  lemma LeftBehind(pieces: seq<string>, after: seq<string>)
    requires |pieces| >= 2 && RStrip(pieces[|pieces| - 1]) != ""
    ensures var extra := pieces[1..] + TrimLines(after);
            |TrimLines(extra)| == |extra|
  {
    hide TrimLines, RStrip;
    var tail := TrimLines(after);
    var extra := pieces[1..] + tail;
    TrimEnds(after);
    assert extra[|extra| - 1] == if tail != [] then tail[|tail| - 1] else pieces[|pieces| - 1];
    TrimSize(extra);
  }

  lemma UpdatedAgain(before: seq<string>, pieces: seq<string>, tail: seq<string>, k: string, v: string)
    requires Count(before, k) == 0 && pieces != [] && HasKey(pieces[0], k)
    ensures UpdatedLines(before + pieces + tail, [(k, v)]) == before + [Format(k, v)] + (pieces[1..] + tail)
  {
    hide HasKey, Format, Rewrite, UpdatedLines, Count;
    var extra := pieces[1..] + tail;
    assert before + pieces + tail == before + [pieces[0]] + extra;
    RewriteAt(before, pieces[0], extra, k, v);
    UpdateOne(before + pieces + tail, k, v, before + [Format(k, v)] + extra);
  }

  lemma RewrittenAgain(before: seq<string>, after: seq<string>, k: string, v: string)
    requires PlainKey(k) && Trimmed(v) && !SingleLine(v) && Count(before, k) == 0
    requires (forall l | l in before :: SingleLine(l)) && (forall l | l in after :: SingleLine(l))
    ensures var pieces := Lines(Format(k, v));
            var once := before + pieces + TrimLines(after);
            |pieces| >= 2
            && Lines(Body(UpdatedLines(once, [(k, v)]))) == before + pieces + TrimLines(pieces[1..] + TrimLines(after))
  {
    var line, tail := Format(k, v), TrimLines(after);
    var pieces := Lines(line);
    FormatBreaks(k, v);
    FormatOpen(k, v);
    hide PlainKey, Trimmed, SingleLine, Lines, Body, Rewrite, UpdatedLines, ParseLine, Count, TrimLines, RStrip;
    hide Format, EndsOpen;
    UpdatedAgain(before, pieces, tail, k, v);
    LinesAreSingle(line);
    TrimKeeps(after);
    WrittenLines(before, line, pieces[1..] + tail);
  }

  /** The pieces of a value that breaks are left behind by every call. */
  lemma BrokenAgain(lines: seq<string>, k: string, v: string)
    requires PlainKey(k) && Trimmed(v) && !SingleLine(v) && forall l | l in lines :: SingleLine(l)
    ensures var once := Lines(Body(UpdatedLines(lines, [(k, v)])));
            |Lines(Body(UpdatedLines(once, [(k, v)])))| > |once|
  {
    hide PlainKey, Trimmed, SingleLine, Lines, Body, UpdatedLines, ParseLine, Count, TrimLines, RStrip, EndsOpen;
    hide Format, Lookup;
    var before, after := SetAround(lines, k, v);
    FormatBreaks(k, v);
    FormatOpen(k, v);
    WrittenLines(before, Format(k, v), after);
    RewrittenAgain(before, after, k, v);
    LeftBehind(Lines(Format(k, v)), after);
  }

  lemma PlainIsSingle(k: string)
    requires PlainKey(k)
    ensures SingleLine(k)
  {
  }

  lemma BreaksInside(k: string, v: string)
    requires Trimmed(v) && !SingleLine(v)
    ensures FirstBreak(v) < |v| && FirstBreak(Format(k, v)) < |Format(k, v)|
    ensures !IsSpace(Format(k, v)[|Format(k, v)| - 1])
  {
    hide IsSpace, IsBreak;
    var line := Format(k, v);
    var j :| 0 <= j < |v| && IsBreak(v[j]);
    assert line[|k| + 1 + j] == v[j] && line[|line| - 1] == v[|v| - 1];
    hide FirstBreak;
  }

  lemma FormatBreaks(k: string, v: string)
    requires PlainKey(k) && Trimmed(v) && !SingleLine(v)
    ensures var pieces := Lines(Format(k, v));
            |pieces| >= 2 && HasKey(pieces[0], k) && RStrip(pieces[|pieces| - 1]) != ""
  {
    PlainIsSingle(k);
    BreaksInside(k, v);
    hide Lines, FirstBreak, RStrip, Trimmed, SingleLine, PlainKey, IsSpace, ParseLine;
    var i := FirstBreak(v);
    PiecesEnd(Format(k, v));
    var rest := BreakSplits(k, v, i);
    FormatReads(k, v[..i]);
    assert k + "=" + v[..i] == Format(k, v[..i]);
  }

  lemma UpdateOne(lines: seq<string>, k: string, v: string, rewritten: seq<string>)
    requires Rewrite(lines, map[k := v]) == (rewritten, map[])
    ensures UpdatedLines(lines, [(k, v)]) == rewritten
  {
    hide Rewrite;
    OneUpdate(k, v);
    var updates := [(k, v)];
    assert updates[1..] == [] && Appended(updates, map[]) == [];
    assert rewritten + [] + [] == rewritten;
  }

  lemma OneUpdate(k: string, v: string)
    ensures ToMap([(k, v)]) == map[k := v]
  {
    assert [(k, v)][..0] == [];
  }

  /**
   Setting the same secret again, under whatever name and value, leaves the file as it is exactly when the name can be
   read back and the value comes on one line; otherwise every call leaves lines behind.
   */
  lemma SecretTwice(lines: seq<string>, k: string, v: string)
    requires forall l | l in lines :: SingleLine(l)
    ensures var update := [(k, RenderValue(v))];
            var once := Body(UpdatedLines(lines, update));
            && (Body(UpdatedLines(Lines(once), update)) == once <==> PlainKey(k) && Comes(v))
            && (!PlainKey(k) || !Comes(v) ==> |Lines(Body(UpdatedLines(Lines(once), update)))| > |Lines(once)|)
  {
    hide Lines, Body, UpdatedLines, RenderValue, PlainKey, Comes, SingleLine, Trimmed;
    var value := RenderValue(v);
    RenderedShape(v);
    ComesOnOneLine(v);
    OneUpdate(k, value);
    LinesAreSingle(Body(UpdatedLines(lines, [(k, value)])));
    if !PlainKey(k) {
      UnreadableAgain(Lines(Body(UpdatedLines(lines, [(k, value)]))), k, value);
    } else if !Comes(v) {
      BrokenAgain(lines, k, value);
    } else {
      assert OneLine(map[k := value]) by { PlainIsSingle(k); }
      UpdateIdempotent(lines, [(k, value)]);
    }
  }
}
