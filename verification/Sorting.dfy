/** Python's ordering of strings and `sorted` on the items of a dict. */
module Sorting {

  /** `a <= b`: lexicographic by code point. */
  predicate Le(a: string, b: string) {
    if a == "" then true
    else if b == "" then false
    else if a[0] != b[0] then a[0] < b[0]
    else Le(a[1..], b[1..])
  }

  /** The order is that of Python's strings: by the first character that differs, a prefix first. */
  lemma {:induction false} LeExactly(a: string, b: string)
    ensures Le(a, b) <==> a <= b || exists i :: 0 <= i < |a| && i < |b| && a[..i] == b[..i] && a[i] < b[i]
  {
    if a != "" && b != "" && a[0] == b[0] {
      LeExactly(a[1..], b[1..]);
      if i :| 0 <= i < |a| - 1 && i < |b| - 1 && a[1..][..i] == b[1..][..i] && a[1..][i] < b[1..][i] {
        assert a[..i + 1] == [a[0]] + a[1..][..i] && b[..i + 1] == [b[0]] + b[1..][..i];
        assert a[i + 1] < b[i + 1];
      }
      if i :| 0 <= i < |a| && i < |b| && a[..i] == b[..i] && a[i] < b[i] {
        assert i > 0;
        assert a[1..][..i - 1] == a[..i][1..] && b[1..][..i - 1] == b[..i][1..];
        assert a[1..][i - 1] < b[1..][i - 1];
      }
    } else if a != "" && b != "" && a[0] < b[0] {
      assert a[..0] == b[..0];
    }
  }

  lemma {:induction false} LeTotal(a: string, b: string)
    ensures Le(a, b) || Le(b, a)
  {
    if a != "" && b != "" && a[0] == b[0] {
      LeTotal(a[1..], b[1..]);
    }
  }

  lemma {:induction false} LeAntisymmetric(a: string, b: string)
    requires Le(a, b) && Le(b, a)
    ensures a == b
  {
    if a != "" && b != "" {
      LeAntisymmetric(a[1..], b[1..]);
      assert a == [a[0]] + a[1..] && b == [b[0]] + b[1..];
    }
  }

  lemma {:induction false} LeTransitive(a: string, b: string, c: string)
    requires Le(a, b) && Le(b, c)
    ensures Le(a, c)
  {
    if a != "" && b != "" && c != "" && a[0] == b[0] == c[0] {
      LeTransitive(a[1..], b[1..], c[1..]);
    }
  }

  lemma {:induction false} LeReflexive(a: string)
    ensures Le(a, a)
  {
    if a != "" { LeReflexive(a[1..]); }
  }

  predicate Least(k: string, keys: set<string>) {
    k in keys && forall x | x in keys :: Le(k, x)
  }

  lemma {:induction false} LeastExists(keys: set<string>)
    requires keys != {}
    ensures exists k :: Least(k, keys)
    decreases |keys|
  {
    var some :| some in keys;
    var rest := keys - {some};
    LeReflexive(some);
    if rest == {} {
      assert keys == {some};
      assert Least(some, keys);
    } else {
      LeastExists(rest);
      var k :| Least(k, rest);
      LeTotal(k, some);
      if Le(k, some) {
        assert Least(k, keys);
      } else {
        forall x | x in keys ensures Le(some, x) {
          if x != some { LeTransitive(some, k, x); }
        }
        assert Least(some, keys);
      }
    }
  }

  lemma LeastIsUnique(keys: set<string>)
    ensures forall a, b | Least(a, keys) && Least(b, keys) :: a == b
  {
    forall a, b | Least(a, keys) && Least(b, keys) ensures a == b {
      LeAntisymmetric(a, b);
    }
  }

  function LeastKey(keys: set<string>): (k: string)
    requires keys != {}
    ensures Least(k, keys)
  {
    LeastExists(keys);
    LeastIsUnique(keys);
    var k :| k in keys && Least(k, keys);
    k
  }

  /** `sorted(m.items())`. */
  function SortedItems<V>(m: map<string, V>): seq<(string, V)>
    decreases |m|
  {
    if m == map[] then []
    else
      var k := LeastKey(m.Keys);
      SmallerMap(m, k);
      [(k, m[k])] + SortedItems(m - {k})
  }

  lemma SmallerMap<V>(m: map<string, V>, k: string)
    requires k in m
    ensures |m - {k}| < |m|
  {
    assert (m - {k}).Keys == m.Keys - {k};
    assert |(m - {k}).Keys| == |m.Keys| - 1;
  }

  ghost predicate StrictlySorted<V>(s: seq<(string, V)>) {
    forall i, j | 0 <= i < j < |s| :: s[i].0 != s[j].0 && Le(s[i].0, s[j].0)
  }

  ghost predicate Occurs<V>(s: seq<(string, V)>, k: string) {
    exists i | 0 <= i < |s| :: s[i].0 == k
  }

  /** The pairs of `s` are the items of `m`. */
  ghost predicate ItemsOf<V>(s: seq<(string, V)>, m: map<string, V>) {
    && (forall i | 0 <= i < |s| :: s[i].0 in m && m[s[i].0] == s[i].1)
    && (forall k | k in m :: Occurs(s, k))
  }

  /** `dict(s)`: the last pair for a key wins. */
  function ToMap<V>(s: seq<(string, V)>): map<string, V> {
    if s == [] then map[] else ToMap(s[..|s| - 1])[s[|s| - 1].0 := s[|s| - 1].1]
  }

  lemma {:induction false} ToMapKeys<V>(s: seq<(string, V)>)
    ensures forall k :: k in ToMap(s) <==> Occurs(s, k)
  {
    if s != [] {
      var init, last := s[..|s| - 1], s[|s| - 1];
      ToMapKeys(init);
      forall k ensures Occurs(s, k) <==> Occurs(init, k) || k == last.0 {
        if Occurs(init, k) {
          var i :| 0 <= i < |init| && init[i].0 == k;
          assert s[i].0 == k;
        }
      }
    }
  }

  lemma {:induction false} ToMapItems<V>(s: seq<(string, V)>)
    requires forall i, j | 0 <= i < j < |s| :: s[i].0 != s[j].0
    ensures ItemsOf(s, ToMap(s))
  {
    ToMapKeys(s);
    if s != [] {
      var init := s[..|s| - 1];
      ToMapItems(init);
      forall i | 0 <= i < |s| ensures s[i].0 in ToMap(s) && ToMap(s)[s[i].0] == s[i].1 {
        if i < |init| { assert init[i] == s[i]; }
      }
    }
  }

  /** Sorting the items keeps them, and they come strictly sorted. */
  lemma {:induction false} SortedItemsOf<V>(m: map<string, V>)
    ensures StrictlySorted(SortedItems(m))
    ensures ItemsOf(SortedItems(m), m)
    decreases |m|
  {
    hide StrictlySorted, ItemsOf, Least, Le;
    if m == map[] {
      NoItems(m);
    } else {
      var k := LeastKey(m.Keys);
      var n := m - {k};
      SmallerMap(m, k);
      SortedItemsOf(n);
      ConsItems(m, k, SortedItems(n));
      ConsStrict(m, k, SortedItems(n));
    }
  }

  lemma NoItems<V>(m: map<string, V>)
    requires m == map[]
    ensures StrictlySorted<V>([]) && ItemsOf([], m)
  {
  }

  lemma ConsItems<V>(m: map<string, V>, k: string, t: seq<(string, V)>)
    requires k in m && ItemsOf(t, m - {k})
    ensures ItemsOf([(k, m[k])] + t, m)
  {
    var s := [(k, m[k])] + t;
    assert s[0].0 == k && forall i | 1 <= i < |s| :: s[i] == t[i - 1];
    forall x | x in m ensures Occurs(s, x) {
      if x != k {
        assert x in m - {k} && Occurs(t, x);
        var i :| 0 <= i < |t| && t[i].0 == x;
        assert s[i + 1].0 == x;
      }
    }
  }

  lemma ConsStrict<V>(m: map<string, V>, k: string, t: seq<(string, V)>)
    requires Least(k, m.Keys) && StrictlySorted(t) && ItemsOf(t, m - {k})
    ensures StrictlySorted([(k, m[k])] + t)
  {
    hide Le;
    forall i | 0 <= i < |t| ensures t[i].0 != k && Le(k, t[i].0) {
      assert t[i].0 in m - {k} && t[i].0 in m.Keys;
    }
  }

  lemma SortedItemsBack<V>(m: map<string, V>)
    ensures ToMap(SortedItems(m)) == m
  {
    var s := SortedItems(m);
    SortedItemsOf(m);
    ToMapItems(s);
  }

  /** A strictly sorted list is what sorting its own dict gives. */
  lemma {:induction false} SortedItemsUnique<V>(s: seq<(string, V)>, m: map<string, V>)
    requires StrictlySorted(s) && ItemsOf(s, m)
    ensures SortedItems(m) == s
    decreases |s|
  {
    hide StrictlySorted, ItemsOf, Least, Le, SortedItems;
    if s == [] {
      NothingSorted(m);
    } else {
      FirstIsLeast(s, m);
      LeastIsUnique(m.Keys);
      TailItems(s, m);
      SortedItemsUnique(s[1..], m - {s[0].0});
      SortedItemsStep(m, s[0].0);
      assert s == [s[0]] + s[1..];
    }
  }

  lemma NothingSorted<V>(m: map<string, V>)
    requires ItemsOf([], m)
    ensures SortedItems(m) == []
  {
    assert m.Keys == {};
  }

  lemma SortedItemsStep<V>(m: map<string, V>, k: string)
    requires m.Keys != {} && Least(k, m.Keys) && LeastKey(m.Keys) == k
    ensures SortedItems(m) == [(k, m[k])] + SortedItems(m - {k})
  {
    hide Le;
  }

  lemma FirstIsLeast<V>(s: seq<(string, V)>, m: map<string, V>)
    requires s != [] && StrictlySorted(s) && ItemsOf(s, m)
    ensures s[0].0 in m && m[s[0].0] == s[0].1
    ensures Least(s[0].0, m.Keys)
  {
    forall x | x in m.Keys ensures Le(s[0].0, x) {
      assert Occurs(s, x);
      var i :| 0 <= i < |s| && s[i].0 == x;
      LeReflexive(s[0].0);
      hide Le;
    }
  }

  lemma TailItems<V>(s: seq<(string, V)>, m: map<string, V>)
    requires s != [] && StrictlySorted(s) && ItemsOf(s, m)
    ensures StrictlySorted(s[1..]) && ItemsOf(s[1..], m - {s[0].0})
  {
    hide Le;
    var n, rest := m - {s[0].0}, s[1..];
    forall x | x in n ensures Occurs(rest, x) {
      assert Occurs(s, x);
      var i :| 0 <= i < |s| && s[i].0 == x;
      assert rest[i - 1].0 == x;
    }
  }
}
