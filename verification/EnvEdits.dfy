/** Environment files: updating twice, the lines left alone, deleting keys (scripts/repository_secrets.py:116-138). */
module EnvEdits {

  import opened Text
  import opened Wrappers
  import opened Sorting
  import opened EnvFile

  lemma {:induction false} RewriteConcat(a: seq<string>, b: seq<string>, pending: map<string, string>)
    ensures var (first, left) := Rewrite(a, pending);
            var (second, final) := Rewrite(b, left);
            Rewrite(a + b, pending) == (first + second, final)
  {
    hide RewriteLine;
    if a == [] {
      assert a + b == b;
      assert [] + Rewrite(b, pending).0 == Rewrite(b, pending).0;
    } else {
      var (line, left) := RewriteLine(a[0], pending);
      assert (a + b)[1..] == a[1..] + b && (a + b)[0] == a[0];
      RewriteConcat(a[1..], b, left);
      var first, second := Rewrite(a[1..], left).0, Rewrite(b, Rewrite(a[1..], left).1).0;
      assert [line] + (first + second) == [line] + first + second;
    }
  }

  lemma {:induction false} RewriteAgain(lines: seq<string>, pending: map<string, string>)
    requires Readable(pending)
    ensures Rewrite(Rewrite(lines, pending).0, pending) == Rewrite(lines, pending)
  {
    hide ParseLine, PlainKey, Format, SingleLine, RStrip, Strip;
    if lines != [] {
      var (line, left) := RewriteLine(lines[0], pending);
      RewriteAgain(lines[1..], left);
      if ParseLine(lines[0]).Some? && ParseLine(lines[0]).value.0 in pending {
        ReadsBack(ParseLine(lines[0]).value.0, pending);
      }
      assert ([line] + Rewrite(lines[1..], left).0)[1..] == Rewrite(lines[1..], left).0;
    }
  }

  lemma {:induction false} AppendedSettles(updates: seq<(string, string)>, pending: map<string, string>)
    requires Readable(pending) && Distinct(updates)
    requires forall k | k in pending :: exists i | 0 <= i < |updates| :: updates[i].0 == k
    ensures Rewrite(Appended(updates, pending), pending) == (Appended(updates, pending), map[])
  {
    hide ParseLine, PlainKey, Format, SingleLine, RStrip, Strip;
    if updates == [] {
      assert pending.Keys == {};
    } else {
      var key, rest := updates[0].0, updates[1..];
      var left := pending - {key};
      forall k | k in left ensures exists i | 0 <= i < |rest| :: rest[i].0 == k {
        var i :| 0 <= i < |updates| && updates[i].0 == k;
        assert rest[i - 1].0 == k;
      }
      AppendedSettles(rest, left);
      AppendedWithout(rest, pending, key);
      if key in pending {
        ReadsBack(key, pending);
        assert ([Format(key, pending[key])] + Appended(rest, pending))[1..] == Appended(rest, pending);
      } else {
        assert left == pending;
      }
    }
  }

  lemma {:induction false} AppendedWithout(updates: seq<(string, string)>, pending: map<string, string>, key: string)
    requires forall i | 0 <= i < |updates| :: updates[i].0 != key
    ensures Appended(updates, pending - {key}) == Appended(updates, pending)
  {
    hide Format;
    if updates != [] {
      AppendedWithout(updates[1..], pending, key);
    }
  }

  /** Lines that a rewrite leaves alone, with nothing pending at the end. */
  predicate Settled(lines: seq<string>, pending: map<string, string>) {
    Rewrite(lines, pending) == (lines, map[])
  }

  /** Rewriting settled lines whose end was trimmed finds every key again and differs from them at the end only. */
  lemma {:induction false} TrimSettled(lines: seq<string>, pending: map<string, string>)
    requires Readable(pending) && Settled(lines, pending)
    ensures Rewrite(TrimLines(lines), pending).1 == map[]
    ensures TrimLines(Rewrite(TrimLines(lines), pending).0) == TrimLines(lines)
  {
    hide ParseLine, PlainKey, Format, SingleLine, RStrip, Strip;
    if lines != [] {
      var (line, left) := RewriteLine(lines[0], pending);
      var rest := lines[1..];
      assert Rewrite(rest, left).0 == rest && line == lines[0] by {
        assert [line] + Rewrite(rest, left).0 == lines;
        assert ([line] + Rewrite(rest, left).0)[1..] == Rewrite(rest, left).0;
      }
      TrimSettled(rest, left);
      ParseRStrip(lines[0]);
      RStripTwice(lines[0]);
      var trimmed := TrimLines(rest);
      if trimmed != [] {
        assert ([lines[0]] + trimmed)[1..] == trimmed;
        var again := Rewrite(trimmed, left).0;
        assert ([lines[0]] + again)[1..] == again;
      } else if RStrip(lines[0]) != "" {
        RewriteOne(RStrip(lines[0]), pending);
        TrimOne(lines[0]);
        TrimOne(RStrip(lines[0]));
      }
    }
  }

  lemma RewriteOne(line: string, pending: map<string, string>)
    ensures Rewrite([line], pending) == ([RewriteLine(line, pending).0], RewriteLine(line, pending).1)
  {
    hide RewriteLine;
    assert [line][1..] == [];
    assert [RewriteLine(line, pending).0] + [] == [RewriteLine(line, pending).0];
  }

  lemma TrimOne(line: string)
    ensures TrimLines([line]) == if RStrip(line) == "" then [] else [RStrip(line)]
  {
    hide RStrip;
    assert [line][1..] == [];
  }

  lemma {:induction false} TrimTwice(lines: seq<string>)
    ensures TrimLines(TrimLines(lines)) == TrimLines(lines)
  {
    hide RStrip;
    if lines != [] {
      TrimTwice(lines[1..]);
      var rest := TrimLines(lines[1..]);
      RStripTwice(lines[0]);
      assert ([lines[0]] + rest)[1..] == rest;
      assert [RStrip(lines[0])][1..] == [];
    }
  }

  lemma RStripTwice(s: string)
    ensures RStrip(RStrip(s)) == RStrip(s)
  {
    RStripCuts(s);
  }

  lemma UpdatedSettled(lines: seq<string>, updates: seq<(string, string)>)
    requires ReadableUpdates(updates)
    ensures Settled(UpdatedLines(lines, updates), ToMap(updates))
  {
    hide ParseLine, PlainKey, Format, SingleLine, Rewrite, Appended, ToMap;
    var pending := ToMap(updates);
    UpdatesAsMap(updates);
    var (rewritten, left) := Rewrite(lines, pending);
    RewriteAgain(lines, pending);
    LeftAmong(lines, pending);
    var sep, tail := Separator(rewritten, left), Appended(updates, left);
    SeparatorStays(rewritten, left);
    AppendedSettles(updates, left);
    RewriteConcat(rewritten, sep, pending);
    RewriteConcat(rewritten + sep, tail, pending);
  }

  lemma SeparatorStays(lines: seq<string>, pending: map<string, string>)
    ensures Rewrite(Separator(lines, pending), pending) == (Separator(lines, pending), pending)
  {
    BlankStays(pending);
  }

  lemma BlankStays(pending: map<string, string>)
    ensures Rewrite([""], pending) == ([""], pending) && Rewrite([], pending) == ([], pending)
  {
    StripEmpty();
    assert [""][1..] == [];
    assert Rewrite([""][1..], pending) == ([], pending);
    assert [""] + [] == [""];
  }

  lemma NothingPending(lines: seq<string>, updates: seq<(string, string)>)
    requires Rewrite(lines, ToMap(updates)).1 == map[]
    ensures UpdatedLines(lines, updates) == Rewrite(lines, ToMap(updates)).0
  {
    hide ToMap, Rewrite;
    NothingAppended(updates);
  }

  lemma {:induction false} NothingAppended(updates: seq<(string, string)>)
    ensures Appended(updates, map[]) == []
  {
    if updates != [] { NothingAppended(updates[1..]); }
  }

  /** Updating twice with the same readable updates writes the same text. */
  lemma ReadableIdempotent(lines: seq<string>, updates: seq<(string, string)>)
    requires ReadableUpdates(updates) && forall l | l in lines :: SingleLine(l)
    ensures var text := Body(UpdatedLines(lines, updates));
            Body(UpdatedLines(Lines(text), updates)) == text
  {
    hide ParseLine, PlainKey, SingleLine, Lines, UpdatedLines, Rewrite, ToMap, RStrip, TrimLines, Settled, Lookup;
    var first, pending := UpdatedLines(lines, updates), ToMap(updates);
    var trimmed := TrimLines(first);
    UpdatesAsMap(updates);
    UpdatedSettled(lines, updates);
    TrimSettled(first, pending);
    UpdatedSingle(lines, updates);
    BodyLookup(first, "");
    RStripJoin(first);
    if trimmed == [] {
      BlankStays(pending);
      NothingPending([""], updates);
      BlankJoin();
    } else {
      NothingPending(trimmed, updates);
      RStripJoin(Rewrite(trimmed, pending).0);
    }
  }

  lemma BlankJoin()
    ensures RStrip(Join([""], "\n")) == ""
  {
  }

  lemma {:induction false} RewriteSize(lines: seq<string>, pending: map<string, string>)
    ensures |Rewrite(lines, pending).0| == |lines|
  {
    hide RewriteLine;
    if lines != [] { RewriteSize(lines[1..], RewriteLine(lines[0], pending).1); }
  }

  /** A key that no line can have stays pending. */
  lemma {:induction false} StaysPending(lines: seq<string>, pending: map<string, string>, k: string)
    requires k in pending && !PlainKey(k) && forall l | l in lines :: SingleLine(l)
    ensures k in Rewrite(lines, pending).1
  {
    hide ParseLine, PlainKey, PlainValue, SingleLine, Format;
    if lines != [] {
      assert lines[0] in lines && forall l | l in lines[1..] :: l in lines;
      if ParseLine(lines[0]).Some? { ParsedIsPlain(lines[0]); }
      StaysPending(lines[1..], RewriteLine(lines[0], pending).1, k);
    }
  }

  /** Lines that are appended end in one that is not blank. */
  lemma {:induction false} AppendedEnd(updates: seq<(string, string)>, pending: map<string, string>, i: nat)
    requires i < |updates| && updates[i].0 in pending
    ensures var tail := Appended(updates, pending);
            tail != [] && RStrip(tail[|tail| - 1]) != ""
  {
    hide Format, RStrip;
    var rest := updates[1..];
    assert forall j | 0 < j < |updates| :: updates[j] == rest[j - 1];
    if j :| 0 <= j < |rest| && rest[j].0 in pending {
      AppendedEnd(rest, pending, j);
    } else {
      forall j | 0 <= j < |rest| ensures rest[j].0 !in pending {
      }
      NoneAppended(rest, pending);
      FormatIsInk(updates[0].0, pending[updates[0].0]);
    }
  }

  lemma {:induction false} NoneAppended(updates: seq<(string, string)>, pending: map<string, string>)
    requires forall j | 0 <= j < |updates| :: updates[j].0 !in pending
    ensures Appended(updates, pending) == []
  {
    if updates != [] { NoneAppended(updates[1..], pending); }
  }

  lemma FormatIsInk(k: string, v: string)
    ensures RStrip(Format(k, v)) != ""
  {
    RStripCuts(Format(k, v));
    assert Format(k, v)[|k|] == '=';
  }

  /** Lines that do not end blank keep their number when the end is trimmed. */
  lemma {:induction false} TrimSize(lines: seq<string>)
    requires lines != [] && RStrip(lines[|lines| - 1]) != ""
    ensures |TrimLines(lines)| == |lines|
  {
    hide RStrip;
    if |lines| == 1 {
      TrimOne(lines[0]);
      assert lines == [lines[0]];
    } else {
      TrimSize(lines[1..]);
    }
  }

  /** An update with an unreadable key adds at least one line. */
  lemma UnreadableGrows(lines: seq<string>, updates: seq<(string, string)>, i: nat)
    requires Distinct(updates) && OneLine(ToMap(updates)) && forall l | l in lines :: SingleLine(l)
    requires i < |updates| && !PlainKey(updates[i].0)
    ensures |Lines(Body(UpdatedLines(lines, updates)))| > |lines|
  {
    hide PlainKey, SingleLine, Lines, Body, Rewrite, Appended, RStrip, TrimLines, ParseLine, Lookup;
    var pending := ToMap(updates);
    ToMapItems(updates);
    hide ToMap;
    var (rewritten, left) := Rewrite(lines, pending);
    RewriteSize(lines, pending);
    StaysPending(lines, pending, updates[i].0);
    AppendedEnd(updates, left, i);
    var all := UpdatedLines(lines, updates);
    assert all[|all| - 1] == Appended(updates, left)[|Appended(updates, left)| - 1];
    UpdatedSingle(lines, updates);
    BodyLookup(all, "");
    TrimSize(all);
  }

  /**
   For updates without line breaks: updating twice writes the same text exactly when every key can be read back. An
   unreadable key is appended again by every update.
   */
  lemma UpdateIdempotent(lines: seq<string>, updates: seq<(string, string)>)
    requires Distinct(updates) && OneLine(ToMap(updates)) && forall l | l in lines :: SingleLine(l)
    ensures var text := Body(UpdatedLines(lines, updates));
            Body(UpdatedLines(Lines(text), updates)) == text <==>
              forall i | 0 <= i < |updates| :: PlainKey(updates[i].0)
  {
    hide PlainKey, SingleLine, Lines, Body, UpdatedLines;
    var text := Body(UpdatedLines(lines, updates));
    LinesAreSingle(text);
    if i :| 0 <= i < |updates| && !PlainKey(updates[i].0) {
      UnreadableGrows(Lines(text), updates, i);
    } else {
      ToMapItems(updates);
      assert ReadableUpdates(updates);
      ReadableIdempotent(lines, updates);
    }
  }

  /** Appended updates are set off by one blank line, unless the file is empty or already ends in one. */
  lemma OneBlankLine(lines: seq<string>, updates: seq<(string, string)>)
    ensures var all := UpdatedLines(lines, updates);
            && |all| >= |lines|
            && (lines == [] && all != [] ==> all[0] != "")
            && (lines != [] && |all| > |lines| ==> (all[|lines|] == "" <==> all[|lines| - 1] != ""))
  {
    hide RewriteLine, Format;
    var (rewritten, pending) := Rewrite(lines, ToMap(updates));
    RewriteSize(lines, ToMap(updates));
    AppendedNotEmpty(updates, pending);
    var tail := Appended(updates, pending);
    assert tail != [] ==> tail[0] in tail;
  }

  lemma {:induction false} AppendedNotEmpty(updates: seq<(string, string)>, pending: map<string, string>)
    ensures forall l | l in Appended(updates, pending) :: l != ""
    ensures pending == map[] ==> Appended(updates, pending) == []
  {
    if updates != [] {
      AppendedNotEmpty(updates[1..], pending);
      assert Format(updates[0].0, "")[|updates[0].0|] == '=';
    }
  }

  // ----- the other lines -----

  function StripKeys(keys: seq<string>): set<string> {
    set k | k in keys && Strip(k) != "" :: Strip(k)
  }

  /** The keys that are deleted: those given that are not blank, without the space around them. */
  lemma StrippedExactly(keys: seq<string>, x: string)
    ensures x in StripKeys(keys) <==> x != "" && exists k :: k in keys && Strip(k) == x
  {
    hide Strip;
  }

  function WithoutKeys(lines: seq<string>, keys: set<string>): seq<string> {
    if lines == [] then []
    else if ParseLine(lines[0]).Some? && ParseLine(lines[0]).value.0 in keys then WithoutKeys(lines[1..], keys)
    else [lines[0]] + WithoutKeys(lines[1..], keys)
  }

  function DeletedText(text: string, keys: set<string>): string {
    var body := RStrip(Join(WithoutKeys(Lines(text), keys), "\n"));
    if body == "" then "" else body + "\n"
  }

  lemma {:induction false} WithoutLookup(lines: seq<string>, keys: set<string>, k: string)
    ensures Lookup(WithoutKeys(lines, keys), k) == if k in keys then None else Lookup(lines, k)
    ensures forall l | l in WithoutKeys(lines, keys) :: l in lines
  {
    hide ParseLine;
    if lines != [] {
      WithoutLookup(lines[1..], keys, k);
      assert ([lines[0]] + WithoutKeys(lines[1..], keys))[1..] == WithoutKeys(lines[1..], keys);
      assert lines == [lines[0]] + lines[1..];
    }
  }

  lemma {:induction false} WithoutConcat(a: seq<string>, b: seq<string>, keys: set<string>)
    ensures WithoutKeys(a + b, keys) == WithoutKeys(a, keys) + WithoutKeys(b, keys)
  {
    hide ParseLine;
    if a == [] {
      assert a + b == b;
    } else {
      assert (a + b)[1..] == a[1..] + b;
      WithoutConcat(a[1..], b, keys);
    }
  }

  lemma {:induction false} RewriteOthers(lines: seq<string>, pending: map<string, string>, keys: set<string>)
    requires Readable(pending) && pending.Keys <= keys
    ensures WithoutKeys(Rewrite(lines, pending).0, keys) == WithoutKeys(lines, keys)
  {
    hide ParseLine, PlainKey, Format, SingleLine, Strip;
    if lines != [] {
      var (line, left) := RewriteLine(lines[0], pending);
      RewriteOthers(lines[1..], left, keys);
      if ParseLine(lines[0]).Some? && ParseLine(lines[0]).value.0 in pending {
        ReadsBack(ParseLine(lines[0]).value.0, pending);
      }
      assert ([line] + Rewrite(lines[1..], left).0)[1..] == Rewrite(lines[1..], left).0;
    }
  }

  lemma {:induction false} AppendedOthers(updates: seq<(string, string)>, pending: map<string, string>,
                                          keys: set<string>)
    requires Readable(pending) && pending.Keys <= keys
    ensures WithoutKeys(Appended(updates, pending), keys) == []
  {
    hide ParseLine, PlainKey, Format, SingleLine, Strip;
    if updates != [] {
      AppendedOthers(updates[1..], pending, keys);
      var key := updates[0].0;
      if key in pending {
        ReadsBack(key, pending);
        assert ([Format(key, pending[key])] + Appended(updates[1..], pending))[1..] == Appended(updates[1..], pending);
      }
    }
  }

  lemma SeparatorOthers(lines: seq<string>, pending: map<string, string>, keys: set<string>)
    ensures WithoutKeys(Separator(lines, pending), keys) == Separator(lines, pending)
  {
    StripEmpty();
    assert [""][1..] == [] && [""] + [] == [""];
  }

  /** `r` is `all` without the blank lines at its end and without the space at the end of its last line. */
  predicate UpToEnd(all: seq<string>, r: seq<string>) {
    && |r| <= |all|
    && (forall i | |r| <= i < |all| :: RStrip(all[i]) == "")
    && (r != [] ==> r[..|r| - 1] == all[..|r| - 1] && r[|r| - 1] == RStrip(all[|r| - 1]) && r[|r| - 1] != "")
  }

  lemma {:induction false} TrimIsUpToEnd(all: seq<string>)
    ensures UpToEnd(all, TrimLines(all))
  {
    hide RStrip;
    if all != [] {
      var rest := all[1..];
      TrimIsUpToEnd(rest);
      assert forall i | 0 < i < |all| :: all[i] == rest[i - 1];
    }
  }

  /**
   Comments, blank lines and the lines of all other keys come through an update exactly and in their order, with at most
   one blank line added before appended updates; only the end of the file is trimmed.
   */
  lemma UpdateKeepsLines(lines: seq<string>, updates: seq<(string, string)>)
    requires ReadableUpdates(updates) && forall l | l in lines :: SingleLine(l)
    ensures var all, keys := UpdatedLines(lines, updates), ToMap(updates).Keys;
            var after := Lines(Body(all));
            && (WithoutKeys(all, keys) == WithoutKeys(lines, keys)
               || WithoutKeys(all, keys) == WithoutKeys(lines, keys) + [""])
            && UpToEnd(all, if after == [""] then [] else after)
  {
    hide ParseLine, PlainKey, SingleLine, Lines, Body, Rewrite, ToMap, Lookup, Appended, TrimLines, WithoutKeys;
    hide UpToEnd;
    var pending := ToMap(updates);
    var keys := pending.Keys;
    var (rewritten, left) := Rewrite(lines, pending);
    var sep, tail := Separator(rewritten, left), Appended(updates, left);
    UpdatesAsMap(updates);
    RewriteOthers(lines, pending, keys);
    LeftAmong(lines, pending);
    AppendedOthers(updates, left, keys);
    SeparatorOthers(rewritten, left, keys);
    WithoutConcat(rewritten, sep, keys);
    WithoutConcat(rewritten + sep, tail, keys);
    var all := UpdatedLines(lines, updates);
    UpdatedSingle(lines, updates);
    BodyLookup(all, "");
    TrimIsUpToEnd(all);
    TrimNotBlank(all);
  }

  lemma {:induction false} TrimNotBlank(lines: seq<string>)
    ensures TrimLines(lines) != [""]
  {
    hide RStrip;
    if lines != [] {
      TrimNotBlank(lines[1..]);
      var rest := TrimLines(lines[1..]);
      assert |[lines[0]] + rest| == 1 + |rest|;
    }
  }

  /** Deleting leaves exactly the lines of other keys, comments and blank lines, in order, up to the end of the file. */
  lemma DeleteKeepsLines(text: string, keys: set<string>)
    ensures UpToEnd(WithoutKeys(Lines(text), keys), Lines(DeletedText(text, keys)))
  {
    hide ParseLine, Lines, RStrip, WithoutKeys, Lookup, TrimLines, UpToEnd;
    var kept := WithoutKeys(Lines(text), keys);
    LinesAreSingle(text);
    WithoutLookup(Lines(text), keys, "");
    BodyLookup(kept, "");
    RStripJoin(kept);
    NoLines();
    TrimIsUpToEnd(kept);
  }

  /** Deleting refines removing from a map, however often the keys occur. */
  lemma DeleteRefinesMap(text: string, keys: set<string>)
    ensures Load(Lines(DeletedText(text, keys))) == Load(Lines(text)) - keys
  {
    hide ParseLine, Lines, RStrip, WithoutKeys, Load, Lookup, Count, TrimLines;
    var lines := Lines(text);
    var kept := WithoutKeys(lines, keys);
    var after := Lines(DeletedText(text, keys));
    LinesAreSingle(text);
    forall k
      ensures k in Load(after) <==> k in Load(lines) && k !in keys
      ensures k in Load(after) ==> Load(after)[k] == Load(lines)[k]
    {
      WithoutLookup(lines, keys, k);
      BodyLookup(kept, k);
      RStripJoin(kept);
      TrimLookup(kept, k);
      NoLines();
      BlankBody(k);
      LoadIsLookup(after, k);
      LoadIsLookup(lines, k);
    }
  }
}
