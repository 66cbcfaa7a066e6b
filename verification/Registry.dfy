/** The registry of deployed sites (scripts/registry_contract.py). */
module Registry {

  import opened Wrappers
  import opened Sorting
  import Json

  /** The keys of an entry that the registry itself reads; a missing key and a null read the same. */
  datatype Entry = Entry(
    name: Option<string>,
    checkoutPath: Option<string>,
    webhookRepo: Option<string>,
    branch: Option<string>,
    deployConfig: Json.Value)

  function Key(e: Entry): string {
    if e.name.Some? then e.name.value else ""
  }

  /** Inserts behind every entry whose key is not greater, as a stable sort of `s + [e]` does for a sorted `s`. */
  function Insert(s: seq<Entry>, e: Entry): seq<Entry> {
    if s == [] then [e]
    else if Le(Key(s[|s| - 1]), Key(e)) then s + [e]
    else Insert(s[..|s| - 1], e) + [s[|s| - 1]]
  }

  /** `list.sort(key=...)`: stable. */
  function Sort(s: seq<Entry>): seq<Entry> {
    if s == [] then [] else Insert(Sort(s[..|s| - 1]), s[|s| - 1])
  }

  /** The entries that share neither name nor checkout path with `e`. */
  function Others(s: seq<Entry>, e: Entry): seq<Entry> {
    if s == [] then []
    else
      var last := s[|s| - 1];
      Others(s[..|s| - 1], e) + (if last.name != e.name && last.checkoutPath != e.checkoutPath then [last] else [])
  }

  function Upserted(s: seq<Entry>, e: Entry): seq<Entry> {
    Sort(Others(s, e) + [e])
  }

  predicate Sorted(s: seq<Entry>) {
    forall i, j | 0 <= i < j < |s| :: Le(Key(s[i]), Key(s[j]))
  }

  predicate Distinct(s: seq<Entry>) {
    forall i, j | 0 <= i < j < |s| :: s[i].name != s[j].name && s[i].checkoutPath != s[j].checkoutPath
  }

  lemma {:induction false} InsertSorts(s: seq<Entry>, e: Entry)
    requires Sorted(s)
    ensures Sorted(Insert(s, e))
    ensures multiset(Insert(s, e)) == multiset(s) + multiset{e}
    decreases |s|
  {
    hide Le;
    if s != [] {
      var init, last := s[..|s| - 1], s[|s| - 1];
      assert s == init + [last];
      if Le(Key(last), Key(e)) {
        AppendSorted(s, e);
      } else {
        InsertSorts(init, e);
        LeTotal(Key(last), Key(e));
        LastStaysGreatest(init, last, e, Insert(init, e));
      }
    }
  }

  lemma LastStaysGreatest(init: seq<Entry>, last: Entry, e: Entry, t: seq<Entry>)
    requires Sorted(init + [last]) && Le(Key(e), Key(last))
    requires Sorted(t) && multiset(t) == multiset(init) + multiset{e}
    ensures Sorted(t + [last])
  {
    hide Le;
    forall i | 0 <= i < |t| ensures Le(Key(t[i]), Key(last)) {
      assert t[i] in multiset(t) && t[i] in multiset(init) + multiset{e};
      if t[i] != e {
        var all := init + [last];
        var k :| 0 <= k < |init| && init[k] == t[i];
        assert Le(Key(all[k]), Key(all[|init|]));
      }
    }
  }

  lemma AppendSorted(s: seq<Entry>, e: Entry)
    requires Sorted(s) && s != [] && Le(Key(s[|s| - 1]), Key(e))
    ensures Sorted(s + [e])
  {
    hide Le;
    forall i | 0 <= i < |s| ensures Le(Key(s[i]), Key(e)) {
      if i < |s| - 1 { LeTransitive(Key(s[i]), Key(s[|s| - 1]), Key(e)); }
    }
  }

  lemma {:induction false} SortSorts(s: seq<Entry>)
    ensures Sorted(Sort(s))
    ensures multiset(Sort(s)) == multiset(s)
  {
    if s != [] {
      var init, last := s[..|s| - 1], s[|s| - 1];
      assert s == init + [last];
      SortSorts(init);
      InsertSorts(Sort(init), last);
    }
  }

  lemma {:induction false} SortOfSorted(s: seq<Entry>)
    requires Sorted(s)
    ensures Sort(s) == s
  {
    if s != [] {
      var init, last := s[..|s| - 1], s[|s| - 1];
      assert s == init + [last];
      SortOfSorted(init);
      if init != [] { assert Le(Key(s[|s| - 2]), Key(last)); }
    }
  }

  lemma {:induction false} OthersConcat(a: seq<Entry>, b: seq<Entry>, e: Entry)
    ensures Others(a + b, e) == Others(a, e) + Others(b, e)
    decreases |b|
  {
    if b == [] {
      assert a + b == a;
    } else {
      assert (a + b)[..|a + b| - 1] == a + b[..|b| - 1];
      OthersConcat(a, b[..|b| - 1], e);
    }
  }

  predicate Foreign(x: Entry, e: Entry) {
    x.name != e.name && x.checkoutPath != e.checkoutPath
  }

  lemma {:induction false} OthersAre(s: seq<Entry>, e: Entry)
    ensures forall x :: x in Others(s, e) <==> x in s && Foreign(x, e)
    ensures Distinct(s) ==> Distinct(Others(s, e))
  {
    if s != [] {
      var init, last := s[..|s| - 1], s[|s| - 1];
      assert s == init + [last];
      OthersAre(init, e);
      if Distinct(s) {
        var rest := Others(init, e);
        forall i | 0 <= i < |rest| ensures rest[i].name != last.name && rest[i].checkoutPath != last.checkoutPath {
          assert rest[i] in init;
          var k :| 0 <= k < |init| && init[k] == rest[i];
          assert s[k] == rest[i];
        }
      }
    }
  }

  lemma {:induction false} AllForeign(s: seq<Entry>, e: Entry)
    requires forall x | x in s :: Foreign(x, e)
    ensures Others(s, e) == s
  {
    if s != [] {
      var init, last := s[..|s| - 1], s[|s| - 1];
      assert s == init + [last];
      assert forall x | x in init :: x in s;
      AllForeign(init, e);
      assert Foreign(last, e);
    }
  }

  /** Taking the inserted entry out again gives the list back. */
  lemma {:induction false} OthersOfInsert(s: seq<Entry>, e: Entry)
    requires forall x | x in s :: Foreign(x, e)
    ensures Others(Insert(s, e), e) == s
    decreases |s|
  {
    hide Le;
    AllForeign(s, e);
    OthersConcat(s, [e], e);
    assert Others([e], e) == [] by { assert [e][..0] == []; }
    if s != [] && !Le(Key(s[|s| - 1]), Key(e)) {
      var init, last := s[..|s| - 1], s[|s| - 1];
      assert s == init + [last];
      OthersOfInsert(init, e);
      AllForeign([last], e);
      OthersConcat(Insert(init, e), [last], e);
    }
  }

  lemma UpsertInserts(s: seq<Entry>, e: Entry)
    ensures Upserted(s, e) == Insert(Sort(Others(s, e)), e)
    ensures forall x | x in Sort(Others(s, e)) :: Foreign(x, e)
  {
    var others := Others(s, e);
    assert (others + [e])[..|others|] == others;
    OthersAre(s, e);
    SortSorts(others);
    forall x | x in Sort(others) ensures x in others {
      assert x in multiset(Sort(others));
    }
  }

  /**
   What an upsert leaves: the list is sorted, the new entry is there once, exactly the entries sharing neither key
   with it survive, unchanged, and distinct names and checkout paths stay distinct.
   */
  lemma UpsertResult(s: seq<Entry>, e: Entry)
    ensures Sorted(Upserted(s, e))
    ensures multiset(Upserted(s, e)) == multiset(Others(s, e)) + multiset{e}
    ensures forall x :: x in Upserted(s, e) <==> x == e || (x in s && Foreign(x, e))
    ensures Others(Upserted(s, e), e) == Sort(Others(s, e))
    ensures Distinct(s) ==> Distinct(Upserted(s, e))
  {
    hide Le, Insert;
    var others := Others(s, e);
    UpsertInserts(s, e);
    OthersAre(s, e);
    SortSorts(others);
    InsertSorts(Sort(others), e);
    OthersOfInsert(Sort(others), e);
    forall x ensures x in Upserted(s, e) <==> x == e || (x in s && Foreign(x, e)) {
      assert x in Upserted(s, e) <==> x in multiset(Upserted(s, e));
      assert x in others <==> x in multiset(others);
    }
    if Distinct(s) {
      AppendDistinct(others, e);
      DistinctByBag(others + [e], Upserted(s, e));
    }
  }

  lemma AppendDistinct(s: seq<Entry>, e: Entry)
    requires Distinct(s) && forall x | x in s :: Foreign(x, e)
    ensures Distinct(s + [e])
  {
    forall i | 0 <= i < |s| ensures Foreign(s[i], e) {
      assert s[i] in s;
    }
  }

  lemma {:induction false} DistinctByBag(a: seq<Entry>, b: seq<Entry>)
    requires Distinct(a) && multiset(a) == multiset(b)
    ensures Distinct(b)
  {
    forall i, j | 0 <= i < j < |b|
      ensures b[i].name != b[j].name && b[i].checkoutPath != b[j].checkoutPath
    {
      var x, y := b[i], b[j];
      assert x in multiset(b) && y in multiset(b);
      assert x in a && y in a;
      var p :| 0 <= p < |a| && a[p] == x;
      var q :| 0 <= q < |a| && a[q] == y;
      if p == q {
        OneEach(a, p);
        Twice(b, i, j);
      }
    }
  }

  lemma OneEach(a: seq<Entry>, p: nat)
    requires Distinct(a) && p < |a|
    ensures multiset(a)[a[p]] == 1
  {
    var before, after := a[..p], a[p + 1..];
    assert a == before + [a[p]] + after;
    assert a[p] !in before && a[p] !in after;
  }

  lemma Twice(b: seq<Entry>, i: nat, j: nat)
    requires i < j < |b| && b[i] == b[j]
    ensures multiset(b)[b[i]] >= 2
  {
    assert b == b[..j] + b[j..];
    assert b[i] in b[..j] && b[i] in b[j..];
  }

  /** Repeating an upsert changes nothing. */
  lemma UpsertTwice(s: seq<Entry>, e: Entry)
    ensures Upserted(Upserted(s, e), e) == Upserted(s, e)
  {
    hide Le, Insert, Others, Sort;
    var sorted := Sort(Others(s, e));
    UpsertInserts(s, e);
    UpsertInserts(Upserted(s, e), e);
    UpsertResult(s, e);
    SortSorts(Others(s, e));
    SortOfSorted(sorted);
  }

  function Run(es: seq<Entry>): seq<Entry> {
    if es == [] then [] else Upserted(Run(es[..|es| - 1]), es[|es| - 1])
  }

  /** Any run of upserts from an empty registry keeps it sorted with distinct names and distinct checkout paths. */
  lemma {:induction false} RunKeepsInvariant(es: seq<Entry>)
    ensures Sorted(Run(es)) && Distinct(Run(es))
    ensures es != [] ==> es[|es| - 1] in Run(es)
  {
    if es != [] {
      RunKeepsInvariant(es[..|es| - 1]);
      UpsertResult(Run(es[..|es| - 1]), es[|es| - 1]);
    }
  }

  /** Survivors of an upsert into a sorted registry keep their order. */
  lemma {:induction false} SurvivorsKeepOrder(s: seq<Entry>, e: Entry)
    requires Sorted(s)
    ensures Others(Upserted(s, e), e) == Others(s, e)
  {
    UpsertResult(s, e);
    OthersSorted(s, e);
    SortOfSorted(Others(s, e));
  }

  lemma {:induction false} OthersSorted(s: seq<Entry>, e: Entry)
    requires Sorted(s)
    ensures Sorted(Others(s, e))
  {
    hide Le;
    if s != [] {
      var init, last := s[..|s| - 1], s[|s| - 1];
      OthersSorted(init, e);
      OthersAre(init, e);
      var rest := Others(init, e);
      forall i | 0 <= i < |rest| ensures Le(Key(rest[i]), Key(last)) {
        assert rest[i] in init;
        var k :| 0 <= k < |init| && init[k] == rest[i];
        assert s[k] == rest[i];
      }
    }
  }

  /** In a sorted registry the entries without a name come first. */
  lemma NamelessFirst(s: seq<Entry>, i: nat, j: nat)
    requires Sorted(s) && i < j < |s| && s[j].name.None?
    ensures s[i].name.None? || s[i].name == Some("")
  {
    assert Le(Key(s[i]), Key(s[j]));
  }

  predicate Pushed(e: Entry, repo: string, branch: string) {
    e.webhookRepo == Some(repo) && e.branch == Some(branch)
  }

  class Store {
    var entries: seq<Entry>

    constructor (entries: seq<Entry>)
      ensures this.entries == entries
    {
      this.entries := entries;
    }

    /** `upsert_registry_entry`: filter, append, sort in place, save. */
    method Upsert(e: Entry)
      modifies this
      ensures entries == Upserted(old(entries), e)
      ensures Sorted(entries) && e in entries
      ensures forall x | x in old(entries) && Foreign(x, e) :: x in entries
      ensures Distinct(old(entries)) ==> Distinct(entries)
    {
      var filtered: seq<Entry> := [];
      for i := 0 to |entries|
        invariant filtered == Others(entries[..i], e)
      {
        assert entries[..i + 1][..i] == entries[..i];
        if entries[i].name != e.name && entries[i].checkoutPath != e.checkoutPath {
          filtered := filtered + [entries[i]];
        }
      }
      assert entries[..|entries|] == entries;
      UpsertResult(entries, e);
      entries := Sort(filtered + [e]);
    }

    /** `find_registry_entry_by_push`: the first entry for the repository and branch. */
    method FindByPush(repo: string, branch: string) returns (found: Option<Entry>)
      ensures found.None? <==> forall x | x in entries :: x.webhookRepo != Some(repo) || x.branch != Some(branch)
      ensures found.Some? ==> found.value.webhookRepo == Some(repo) && found.value.branch == Some(branch)
      ensures found.Some? ==>
                exists i :: 0 <= i < |entries| && entries[i] == found.value
                            && forall j | 0 <= j < i ::
                                 entries[j].webhookRepo != Some(repo) || entries[j].branch != Some(branch)
    {
      for i := 0 to |entries|
        invariant forall j | 0 <= j < i :: !Pushed(entries[j], repo, branch)
      {
        if Pushed(entries[i], repo, branch) {
          return Some(entries[i]);
        }
      }
      found := None;
    }
  }
}
