/** Secrets in environment files, and the file store itself (scripts/repository_secrets.py:100-184). */
module EnvSecrets {

  import opened Text
  import opened Wrappers
  import opened Sorting
  import opened EnvFile
  import opened EnvEdits
  import opened SecretText

  lemma {:induction false} PiecesAreShort(s: string)
    ensures forall l | l in Lines(s) :: |l| <= |s|
    decreases |s|
  {
    if FirstBreak(s) == |s| {
      assert s == "" || Lines(s) == [s];
    } else {
      var i := FirstBreak(s);
      PiecesAreShort(s[i + BreakWidth(s, i)..]);
      LinesBreak(s);
      hide Lines, FirstBreak, BreakWidth;
    }
  }

  lemma ValueIsShort(line: string)
    ensures ParseLine(line).Some? ==> |ParseLine(line).value.1| < |line|
  {
    var i := IndexOf(line, '=');
    if i < |line| { StripTrims(line[i + 1..]); }
    hide Strip;
  }

  lemma {:induction false} LookupIsShort(lines: seq<string>, k: string, n: nat)
    requires forall l | l in lines :: |l| <= n
    ensures Lookup(lines, k).Some? ==> |Lookup(lines, k).value| < n
  {
    hide ParseLine;
    if lines != [] {
      assert forall l | l in lines[1..] :: l in lines;
      LookupIsShort(lines[1..], k, n);
      ValueIsShort(lines[0]);
    }
  }

  /** The first piece of a broken value is shorter than the value. */
  lemma FirstPiece(k: string, part: string)
    requires PlainKey(k)
    ensures ParseLine(k + "=" + part).Some? ==> |ParseLine(k + "=" + part).value.1| <= |part|
  {
    var line := k + "=" + part;
    assert line[|k|] == '=';
    assert forall j | 0 <= j < |k| :: line[j] == k[j];
    assert IndexOf(line, '=') == |k|;
    assert line[|k| + 1..] == part;
    StripTrims(part);
    hide Strip;
  }

  /** A value with a line break inside does not come back: what is read is shorter. */
  lemma BrokenValue(k: string, v: string)
    requires PlainKey(k) && !SingleLine(v)
    ensures Lookup(Lines(Format(k, v)), k) != Some(v)
  {
    var i := FirstBreak(v);
    assert i < |v| by {
      var j :| 0 <= j < |v| && IsBreak(v[j]);
    }
    var first := k + "=" + v[..i];
    var rest := BreakSplits(k, v, i);
    FirstPiece(k, v[..i]);
    hide Lines, ParseLine, PlainKey, SingleLine;
    LookupIsShort(rest, k, |v|);
    LookupConcat([first], rest, k);
    assert [first][1..] == [];
  }

  lemma BreakSplits(k: string, v: string, i: nat) returns (rest: seq<string>)
    requires SingleLine(k) && i == FirstBreak(v) < |v|
    ensures Lines(Format(k, v)) == [k + "=" + v[..i]] + rest
    ensures forall l | l in rest :: |l| <= |v|
  {
    hide FirstBreak, Lines, IsBreak;
    var line := Format(k, v);
    var j := |k| + 1 + i;
    assert forall x | 0 <= x < |k| :: line[x] == k[x];
    assert forall x | |k| < x < |line| :: line[x] == v[x - |k| - 1];
    EqualsIsNoBreak();
    LinesAt(line, j);
    assert line[..j] == k + "=" + v[..i];
    rest := Lines(line[j + BreakWidth(line, j)..]);
    PiecesAreShort(line[j + BreakWidth(line, j)..]);
  }

  lemma EqualsIsNoBreak()
    ensures !IsBreak('=')
  {
  }

  /** The lines of a file around the one line that carries a key. */
  lemma {:induction false} LinesOfJoinAround(before: seq<string>, line: string, after: seq<string>)
    requires forall l | l in before :: SingleLine(l)
    requires forall l | l in after :: SingleLine(l)
    requires line != "" && EndsOpen(line)
    ensures Lines(Join(before + [line] + after, "\n") + "\n") == before + Lines(line) + after
    decreases |before|
  {
    hide Lines, SingleLine, EndsOpen;
    if before == [] {
      assert [] + [line] + after == [line] + after;
      if after == [] {
        LinesHead(line, "");
        NoLines();
        assert line + "\n" + "" == line + "\n";
        assert [line] + [] == [line];
        assert [] + Lines(line) + [] == Lines(line) + [];
      } else {
        LinesOfJoin(after);
        LinesHead(line, Join(after, "\n") + "\n");
        assert ([line] + after)[1..] == after;
        assert line + "\n" + Join(after, "\n") + "\n" == line + "\n" + (Join(after, "\n") + "\n");
        assert [] + Lines(line) + after == Lines(line) + after;
      }
    } else {
      var rest := before[1..];
      assert forall l | l in rest :: l in before;
      LinesOfJoinAround(rest, line, after);
      var all, tail := before + [line] + after, rest + [line] + after;
      assert all[1..] == tail && all[0] == before[0];
      SinglePiece(before[0]);
      LinesHead(before[0], Join(tail, "\n") + "\n");
      assert before[0] + "\n" + Join(tail, "\n") + "\n" == before[0] + "\n" + (Join(tail, "\n") + "\n");
      assert before + Lines(line) + after == [before[0]] + (rest + Lines(line) + after);
    }
  }

  lemma {:induction false} TrimAround(before: seq<string>, line: string, after: seq<string>)
    requires RStrip(line) == line && line != ""
    ensures TrimLines(before + [line] + after) == before + [line] + TrimLines(after)
    decreases |before|
  {
    hide RStrip;
    if before == [] {
      assert ([] + [line] + after)[1..] == after && ([] + [line] + after)[0] == line;
      assert [line] + [] == [] + [line] + [];
      assert [] + [line] + TrimLines(after) == [line] + TrimLines(after);
    } else {
      var all := before + [line] + after;
      assert all[1..] == before[1..] + [line] + after;
      TrimAround(before[1..], line, after);
      assert before + [line] + TrimLines(after) == [before[0]] + (before[1..] + [line] + TrimLines(after));
    }
  }

  lemma {:induction false} RewriteNothing(lines: seq<string>)
    ensures Rewrite(lines, map[]) == (lines, map[])
  {
    hide ParseLine;
    if lines != [] {
      RewriteNothing(lines[1..]);
      assert [lines[0]] + lines[1..] == lines;
    }
  }

  lemma RewriteHead(lines: seq<string>, k: string, v: string)
    requires lines != []
    ensures var (rest, left) := Rewrite(lines[1..], map[k := v]);
            Rewrite(lines, map[k := v]) ==
              if HasKey(lines[0], k) then ([Format(k, v)] + lines[1..], map[]) else ([lines[0]] + rest, left)
  {
    hide ParseLine, Format;
    assert map[k := v] - {k} == map[];
    RewriteNothing(lines[1..]);
  }

  /** Where a single update puts its line; later lines for the key stay. */
  lemma {:induction false} UpdateAround(lines: seq<string>, k: string, v: string)
    returns (before: seq<string>, after: seq<string>)
    requires forall l | l in lines :: SingleLine(l)
    ensures Rewrite(lines, map[k := v]).0 == if Count(lines, k) >= 1 then before + [Format(k, v)] + after else lines
    ensures Rewrite(lines, map[k := v]).1 == if Count(lines, k) >= 1 then map[] else map[k := v]
    ensures Count(lines, k) == 0 ==> before == [] && after == []
    ensures Count(before, k) == 0
    ensures Lookup(after, k) == if Count(lines, k) <= 1 then None else Lookup(lines, k)
    ensures (forall l | l in before :: SingleLine(l)) && (forall l | l in after :: SingleLine(l))
  {
    hide HasKey, Format, SingleLine, Rewrite, Load;
    before, after := [], [];
    if lines == [] {
      NothingRewritten(k, v);
    } else {
      assert lines[0] in lines && forall l | l in lines[1..] :: l in lines;
      LoadIsLookup(lines[1..], k);
      RewriteHead(lines, k, v);
      if HasKey(lines[0], k) {
        after := lines[1..];
        assert [Format(k, v)] + after == [] + [Format(k, v)] + after;
      } else {
        before, after := UpdateAround(lines[1..], k, v);
        if Count(lines, k) >= 1 {
          assert [lines[0]] + (before + [Format(k, v)] + after) == [lines[0]] + before + [Format(k, v)] + after;
          assert ([lines[0]] + before)[1..] == before;
          before := [lines[0]] + before;
        }
      }
    }
  }

  lemma NothingRewritten(k: string, v: string)
    ensures Rewrite([], map[k := v]) == ([], map[k := v])
  {
  }

  /** Setting one key writes its line between lines of which only later ones may mention the key. */
  lemma SetAround(lines: seq<string>, k: string, v: string) returns (before: seq<string>, after: seq<string>)
    requires forall l | l in lines :: SingleLine(l)
    ensures UpdatedLines(lines, [(k, v)]) == before + [Format(k, v)] + after
    ensures Count(before, k) == 0
    ensures Count(lines, k) == 0 ==> lines <= before
    ensures Lookup(after, k) == if Count(lines, k) <= 1 then None else Lookup(lines, k)
    ensures (forall l | l in before :: SingleLine(l)) && (forall l | l in after :: SingleLine(l))
  {
    hide ParseLine, PlainKey, Format, SingleLine, Rewrite;
    before, after := UpdateAround(lines, k, v);
    var updates := [(k, v)];
    assert ToMap(updates) == map[k := v] by { assert updates[..0] == []; }
    assert updates[1..] == [];
    var (rewritten, left) := Rewrite(lines, map[k := v]);
    assert Appended([], left) == [];
    if Count(lines, k) >= 1 {
      assert Appended(updates, left) == [];
      assert UpdatedLines(lines, updates) == rewritten + [] + [];
    } else {
      var sep := Separator(lines, left);
      SeparatorSays(lines, left, k);
      assert Appended(updates, left) == [Format(k, v)] + [];
      LookupConcat(lines, sep, k);
      LoadIsLookup(sep, k);
      before, after := lines + sep, [];
      assert UpdatedLines(lines, updates) == before + [Format(k, v)] + after;
    }
  }

  /** The value is written on one line: quoted, or without a line break of any kind. */
  predicate Comes(v: string) {
    (v != "" && NeedsQuotes(v)) || SingleLine(v)
  }

  lemma ComesOnOneLine(v: string)
    ensures SingleLine(RenderValue(v)) <==> Comes(v)
  {
    hide NeedsQuotes, SingleLine, Quoted;
    RenderedShape(v);
  }

  /**
   After a secret is set, under whatever name and value, loading returns its rendered value, from which the value can be
   read, exactly when the name can be read back and the value comes on one line or, for a name that occurs several
   times, its last line already says it.
   */
  lemma SecretRoundTrip(lines: seq<string>, k: string, v: string)
    requires forall l | l in lines :: SingleLine(l)
    ensures Lookup(Lines(Body(UpdatedLines(lines, [(k, RenderValue(v))]))), k) == Some(RenderValue(v)) <==>
              PlainKey(k) && if Count(lines, k) <= 1 then Comes(v) else Lookup(lines, k) == Some(RenderValue(v))
    ensures Meaning(RenderValue(v)) == Some(v)
  {
    RenderedMeans(v);
    hide PlainKey, SingleLine, Lines, Body, RenderValue, UpdatedLines, Lookup, Count, Comes, Meaning;
    var text := Body(UpdatedLines(lines, [(k, RenderValue(v))]));
    if PlainKey(k) {
      PlainNameRoundTrip(lines, k, v);
      ComesOnOneLine(v);
    } else {
      LinesAreSingle(text);
      if Lookup(Lines(text), k).Some? { LoadedIsPlain(Lines(text), k); }
    }
  }

  /** The lines of a written file around one that may break. */
  lemma WrittenLines(before: seq<string>, line: string, after: seq<string>)
    requires (forall l | l in before :: SingleLine(l)) && (forall l | l in after :: SingleLine(l))
    requires line != "" && RStrip(line) == line && EndsOpen(line)
    ensures Lines(Body(before + [line] + after)) == before + Lines(line) + TrimLines(after)
  {
    hide Lines, SingleLine, RStrip, TrimLines;
    RStripJoin(before + [line] + after);
    TrimAround(before, line, after);
    TrimKeeps(after);
    LinesOfJoinAround(before, line, TrimLines(after));
  }

  lemma PlainNameRoundTrip(lines: seq<string>, k: string, v: string)
    requires PlainKey(k) && forall l | l in lines :: SingleLine(l)
    ensures Lookup(Lines(Body(UpdatedLines(lines, [(k, RenderValue(v))]))), k) == Some(RenderValue(v)) <==>
              if Count(lines, k) <= 1 then SingleLine(RenderValue(v)) else Lookup(lines, k) == Some(RenderValue(v))
  {
    hide ParseLine, PlainKey, SingleLine, Trimmed, Rewrite, Lines, RStrip, TrimLines, RenderValue;
    hide UpdatedLines, Lookup, Count, NeedsQuotes, Format;
    var value := RenderValue(v);
    RenderedShape(v);
    var before, after := SetAround(lines, k, value);
    var line, tail := Format(k, value), TrimLines(after);
    FormatParses(k, value);
    FormatOpen(k, value);
    WrittenLines(before, line, after);
    LookupConcat(before, Lines(line), k);
    LookupConcat(before + Lines(line), tail, k);
    TrimLookup(after, k);
    LoadIsLookup(before, k);
    LoadIsLookup(lines, k);
    if SingleLine(value) {
      WholeValue(k, value);
    } else {
      BrokenValue(k, value);
    }
  }

  lemma FormatOpen(k: string, v: string)
    requires Trimmed(v)
    ensures Format(k, v) != "" && EndsOpen(Format(k, v)) && RStrip(Format(k, v)) == Format(k, v)
  {
    var line := Format(k, v);
    assert line[|line| - 1] == if v == "" then '=' else v[|v| - 1];
  }

  lemma WholeValue(k: string, v: string)
    requires PlainKey(k) && Trimmed(v) && SingleLine(v)
    ensures Lookup(Lines(Format(k, v)), k) == Some(v)
  {
    FormatParses(k, v);
    SinglePiece(Format(k, v));
    hide Lines, ParseLine, RStrip;
    assert [Format(k, v)][1..] == [];
  }

  /** A value with a vertical tab is written unquoted and does not come back. */
  lemma UnquotedBreak()
    ensures RenderValue("a\U{0B}b") == "a\U{0B}b" && !SingleLine("a\U{0B}b")
  {
    var v := "a\U{0B}b";
    StripOfTrimmed(v);
    hide Strip;
    assert IsBreak(v[1]);
  }

  /** The loop over the existing lines. */
  method RewriteAll(lines: seq<string>, updates: map<string, string>)
    returns (rendered: seq<string>, pending: map<string, string>)
    ensures (rendered, pending) == Rewrite(lines, updates)
  {
    hide ParseLine, Format;
    rendered, pending := [], updates;
    assert lines[0..] == lines;
    for i := 0 to |lines|
      invariant Rewrite(lines[i..], pending).1 == Rewrite(lines, updates).1
      invariant rendered + Rewrite(lines[i..], pending).0 == Rewrite(lines, updates).0
    {
      assert lines[i..][0] == lines[i] && lines[i..][1..] == lines[i + 1..];
      var (line, left) := RewriteLine(lines[i], pending);
      var rest := Rewrite(lines[i + 1..], left).0;
      assert rendered + ([line] + rest) == rendered + [line] + rest;
      rendered, pending := rendered + [line], left;
    }
    assert lines[|lines|..] == [] && rendered + [] == rendered;
  }

  /** The loop over the updates that are still pending. */
  method AppendAll(updates: seq<(string, string)>, pending: map<string, string>) returns (tail: seq<string>)
    ensures tail == Appended(updates, pending)
  {
    hide Format;
    tail := [];
    assert updates[0..] == updates;
    for i := 0 to |updates|
      invariant tail + Appended(updates[i..], pending) == Appended(updates, pending)
    {
      assert updates[i..][0] == updates[i] && updates[i..][1..] == updates[i + 1..];
      if updates[i].0 in pending {
        var line := Format(updates[i].0, pending[updates[i].0]);
        var rest := Appended(updates[i + 1..], pending);
        assert tail + ([line] + rest) == tail + [line] + rest;
        tail := tail + [line];
      }
    }
    assert updates[|updates|..] == [] && tail + [] == tail;
  }

  /** The loop over the lines of a file from which keys are deleted. */
  method KeepOthers(lines: seq<string>, keys: set<string>) returns (rendered: seq<string>)
    ensures rendered == WithoutKeys(lines, keys)
  {
    hide ParseLine;
    rendered := [];
    assert lines[0..] == lines;
    for i := 0 to |lines|
      invariant rendered + WithoutKeys(lines[i..], keys) == WithoutKeys(lines, keys)
    {
      assert lines[i..][0] == lines[i] && lines[i..][1..] == lines[i + 1..];
      var entry := ParseLine(lines[i]);
      if entry.None? || entry.value.0 !in keys {
        var rest := WithoutKeys(lines[i + 1..], keys);
        assert rendered + ([lines[i]] + rest) == rendered + [lines[i]] + rest;
        rendered := rendered + [lines[i]];
      }
    }
    assert lines[|lines|..] == [] && rendered + [] == rendered;
  }

  /** The file, read and rewritten by each operation. */
  /** `seed_env_file_from_example`: a missing file starts as its example, if there is one. */
  function Seeded(text: Option<string>, example: Option<string>): Option<string> {
    if text.None? then example else text
  }

  /** The condition under which a secret comes back: see `SecretRoundTrip`. */
  predicate ComesBack(lines: seq<string>, k: string, v: string) {
    PlainKey(k) && if Count(lines, k) <= 1 then Comes(v) else Lookup(lines, k) == Some(RenderValue(v))
  }

  /** An environment file and the example beside it. */
  class Store {
    const example: Option<string>
    var text: Option<string>

    constructor (text: Option<string>, example: Option<string>)
      ensures this.text == text && this.example == example
    {
      this.text, this.example := text, example;
    }

    /** `load_env_file`: the loop over the lines. */
    method LoadAll() returns (values: map<string, string>)
      ensures values == Load(LinesOf(text))
    {
      hide Lines, ParseLine;
      var lines := LinesOf(text);
      values := map[];
      for i := 0 to |lines|
        invariant values == Load(lines[..i])
      {
        assert lines[..i + 1][..i] == lines[..i];
        var entry := ParseLine(lines[i]);
        if entry.Some? {
          values := values[entry.value.0 := entry.value.1];
        }
      }
      assert lines[..|lines|] == lines;
    }

    /** `update_env_file`: pending keys are popped as they are met, and the rest are appended. */
    method Update(updates: seq<(string, string)>)
      requires Distinct(updates)
      modifies this
      ensures text == Some(Body(UpdatedLines(old(LinesOf(text)), updates)))
    {
      hide Lines, Body, Rewrite, Appended, ToMap;
      var rendered, pending := RewriteAll(LinesOf(text), ToMap(updates));
      rendered := rendered + Separator(rendered, pending);
      var tail := AppendAll(updates, pending);
      text := Some(Body(rendered + tail));
    }

    /** `delete_env_keys`: a missing file and an empty list of keys change nothing. */
    method Delete(keys: seq<string>)
      modifies this
      ensures old(text).None? || StripKeys(keys) == {} ==> text == old(text)
      ensures old(text).Some? && StripKeys(keys) != {} ==> text == Some(DeletedText(old(text).value, StripKeys(keys)))
      ensures Load(LinesOf(text)) == Load(LinesOf(old(text))) - StripKeys(keys)
    {
      hide Lines, Load, StripKeys, WithoutKeys;
      if text.None? {
        EmptyLoad();
        return;
      }
      var gone := StripKeys(keys);
      if gone == {} {
        return;
      }
      var rendered := KeepOthers(Lines(text.value), gone);
      var body := RStrip(Join(rendered, "\n"));
      DeleteRefinesMap(text.value, gone);
      text := Some(if body == "" then "" else body + "\n");
    }

    /**
     `set_repository_secret`, the writing part: an empty name or value is refused; otherwise loading returns the
     rendered value exactly when `ComesBack` holds of the seeded file.
     */
    method SetSecret(name: string, value: string) returns (r: Outcome)
      modifies this
      ensures Strip(name) == "" || value == "" ==> r == Failed(ValueError) && text == old(text)
      ensures Strip(name) != "" && value != "" ==>
                && r.Done?
                && text == Some(Body(UpdatedLines(LinesOf(Seeded(old(text), example)),
                                                  [(Strip(name), RenderValue(value))])))
      ensures r.Done? ==>
                (Lookup(LinesOf(text), Strip(name)) == Some(RenderValue(value)) <==>
                   ComesBack(LinesOf(Seeded(old(text), example)), Strip(name), value))
      ensures r.Done? && ComesBack(LinesOf(Seeded(old(text), example)), Strip(name), value) ==>
                && Lookup(LinesOf(text), Strip(name)).Some?
                && Meaning(Lookup(LinesOf(text), Strip(name)).value) == Some(value)
    {
      hide Lines, Body, UpdatedLines, Lookup, Count, PlainKey, Comes, RenderValue, Strip, Meaning;
      var trimmed := Strip(name);
      if trimmed == "" || value == "" {
        return Failed(ValueError);
      }
      ghost var seeded := Seeded(text, example);
      SingleLines(seeded);
      SecretRoundTrip(LinesOf(seeded), trimmed, value);
      RenderedMeans(value);
      WriteKeys([(trimmed, RenderValue(value))]);
      return Done;
    }

    /** `write_env_keys`, on rendered values: seeds a missing file, then updates it. */
    method WriteKeys(updates: seq<(string, string)>)
      requires Distinct(updates)
      modifies this
      ensures text == Some(Body(UpdatedLines(LinesOf(Seeded(old(text), example)), updates)))
    {
      if text.None? && example.Some? {
        text := example;
      }
      Update(updates);
    }
  }

  lemma SingleLines(text: Option<string>)
    ensures forall l | l in LinesOf(text) :: SingleLine(l)
  {
    hide Lines, SingleLine;
    if text.Some? { LinesAreSingle(text.value); }
  }

  /** A name with an equals sign in it sets another name, and is never loaded. */
  lemma NameWithEquals(a: string, b: string, v: string)
    requires PlainKey(a)
    ensures ParseLine(Format(a + "=" + b, v)) == Some((a, Strip(b + "=" + v)))
    ensures forall lines | (forall l | l in lines :: SingleLine(l)) :: Lookup(lines, a + "=" + b) == None
  {
    hide ParseLine, SingleLine, Strip, Lookup;
    assert Format(a + "=" + b, v) == Format(a, b + "=" + v);
    FormatReads(a, b + "=" + v);
    assert (a + "=" + b)[|a|] == '=';
    forall lines | forall l | l in lines :: SingleLine(l) ensures Lookup(lines, a + "=" + b) == None {
      if Lookup(lines, a + "=" + b).Some? { LoadedIsPlain(lines, a + "=" + b); }
    }
  }

  lemma WitnessTexts()
    ensures RenderValue("x") == "x" && Strip("B=x") == "B=x"
  {
    StripOfTrimmed("x");
    StripOfTrimmed("B=x");
    hide Strip;
  }

  /** Setting the secret "A=B" to "x" in an empty file: it loads as A with the value "B=x". */
  lemma EqualsWitness()
    ensures UpdatedLines([], [("A=B", RenderValue("x"))]) == ["A=B=x"]
    ensures Load(["A=B=x"]) == map["A" := "B=x"]
  {
    hide ParseLine, RenderValue, Strip;
    WitnessTexts();
    var name, line := "A" + "=" + "B", "A=B=x";
    var updates, pending := [(name, "x")], map[name := "x"];
    assert ToMap(updates) == pending by { assert updates[..0] == []; }
    assert updates[1..] == [] && Appended([], pending) == [];
    assert Format(name, "x") == line;
    assert Appended(updates, pending) == [line] + [];
    assert Rewrite([], pending) == ([], pending) && Separator([], pending) == [];
    assert [] + [] + ([line] + []) == [line];
    assert name == "A=B" && updates == [("A=B", RenderValue("x"))];
    assert UpdatedLines([], updates) == [line];
    NameWithEquals("A", "B", "x");
    assert "B" + "=" + "x" == "B=x" && Format(name, "x") == "A" + "=" + "B=x";
    assert [line][..0] == [];
  }

  /** Updating a key that occurs twice: the first line is rewritten, and loading still takes the last. */
  lemma DuplicateWitness()
    ensures UpdatedLines(["A=1", "A=2"], [("A", "3")]) == ["A=3", "A=2"]
    ensures Load(["A=3", "A=2"]) == map["A" := "2"]
  {
    hide ParseLine, Strip;
    forall v | v in {"1", "2", "3"} ensures ParseLine("A" + "=" + v) == Some(("A", v)) {
      FormatParses("A", v);
    }
    var updates, pending := [("A", "3")], map["A" := "3"];
    assert ToMap(updates) == pending by { assert updates[..0] == []; }
    assert pending - {"A"} == map[];
    assert "A" + "=" + "1" == "A=1" && "A" + "=" + "2" == "A=2" && Format("A", "3") == "A=3";
    assert ["A=1", "A=2"][1..] == ["A=2"] && ["A=2"][1..] == [] && updates[1..] == [];
    assert Rewrite(["A=2"], map[]) == (["A=2"], map[]) by { RewriteNothing(["A=2"]); }
    assert Rewrite(["A=1", "A=2"], pending) == (["A=3"] + ["A=2"], map[]);
    assert Appended(updates, map[]) == [];
    assert ["A=3", "A=2"][..1] == ["A=3"] && ["A=3"][..0] == [];
  }

  lemma EmptyLoad()
    ensures Load([]) == map[]
  {
  }
}
