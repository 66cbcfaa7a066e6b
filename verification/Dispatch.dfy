/** Which changes reach which module (server_setup/core.py:56-59, server_setup/plan.py:45-46). */
module Dispatch {

  import opened Plans

  /** The batches handed out: for each name in order, its changes, unless there are none. */
  function Batches(names: seq<string>, p: Plan): seq<(string, Plan)> {
    if names == [] then []
    else
      var name := names[|names| - 1];
      Batches(names[..|names| - 1], p) + (if Batch(p, name) != [] then [(name, Batch(p, name))] else [])
  }

  /** All changes handed out, in order. */
  function Flat(batches: seq<(string, Plan)>): Plan {
    if batches == [] then [] else Flat(batches[..|batches| - 1]) + batches[|batches| - 1].1
  }

  lemma NoBatches(p: Plan)
    ensures Batches([], p) == [] && Flat([]) == []
  {
  }

  lemma FlatStep(batches: seq<(string, Plan)>, b: (string, Plan))
    ensures Flat(batches + [b]) == Flat(batches) + b.1
  {
    assert (batches + [b])[..|batches|] == batches;
  }

  lemma BatchesStep(names: seq<string>, i: nat, p: Plan)
    requires i < |names|
    ensures Batches(names[..i + 1], p) ==
              Batches(names[..i], p) + (if Batch(p, names[i]) != [] then [(names[i], Batch(p, names[i]))] else [])
  {
    assert names[..i + 1][..i] == names[..i];
  }

  /** Once a batch has been handed out, the whole list of batches is not empty. */
  lemma {:induction false} BatchesNonempty(names: seq<string>, i: nat, p: Plan)
    requires i < |names| && Batch(p, names[i]) != []
    ensures Batches(names, p) != []
    decreases |names|
  {
    if i < |names| - 1 {
      BatchesNonempty(names[..|names| - 1], i, p);
    }
  }

  predicate Unique(names: seq<string>) {
    forall i, j | 0 <= i < j < |names| :: names[i] != names[j]
  }

  /** What a list of batches holds for one name. */
  function HandedTo(batches: seq<(string, Plan)>, name: string): Plan {
    if batches == [] then []
    else
      var last := batches[|batches| - 1];
      HandedTo(batches[..|batches| - 1], name) + (if last.0 == name then last.1 else [])
  }

  lemma HandedToStep(batches: seq<(string, Plan)>, b: (string, Plan), name: string)
    ensures HandedTo(batches + [b], name) == HandedTo(batches, name) + (if b.0 == name then b.1 else [])
  {
    assert (batches + [b])[..|batches|] == batches;
  }

  /** A module receives exactly its own changes, without the no-ops, in plan order, and in one batch. */
  lemma {:induction false} HandedExactly(names: seq<string>, p: Plan, name: string)
    requires Unique(names)
    ensures HandedTo(Batches(names, p), name) == if name in names then Batch(p, name) else []
    ensures |Batches(names, p)| <= |names|
  {
    if names != [] {
      var init, last := names[..|names| - 1], names[|names| - 1];
      HandedExactly(init, p, name);
      assert names == init + [last];
      var batches := Batches(init, p);
      HandedToStep(batches, (last, Batch(p, last)), name);
      assert batches + [] == batches;
      hide HandedTo, Batch;
    }
  }

  /** The changes of `p` whose owner is among `names`, without the no-ops. */
  function Known(p: Plan, names: set<string>): Plan {
    if p == [] then []
    else if p[0].owner in names && p[0].kind != Noop then [p[0]] + Known(p[1..], names)
    else Known(p[1..], names)
  }

  lemma {:induction false} KnownIsWithoutNoops(p: Plan, names: set<string>)
    requires forall c | c in p :: c.owner in names
    ensures Known(p, names) == WithoutNoops(p)
  {
    if p != [] {
      assert forall c | c in p[1..] :: c in p;
      KnownIsWithoutNoops(p[1..], names);
    }
  }

  lemma {:induction false} KnownSplits(p: Plan, names: set<string>, name: string)
    requires name !in names
    ensures multiset(Known(p, names + {name})) == multiset(Known(p, names)) + multiset(Batch(p, name))
  {
    if p != [] {
      KnownSplits(p[1..], names, name);
      var c := p[0];
      assert p == [c] + p[1..];
    }
  }

  /**
   Every change that is not a no-op is handed out exactly once and nothing else is: the changes handed out are the
   plan without its no-ops, up to the order of the modules.
   */
  lemma {:induction false} HandedOnce(names: seq<string>, p: Plan)
    requires Unique(names)
    ensures multiset(Flat(Batches(names, p))) == multiset(Known(p, set n | n in names))
  {
    hide Known, Batch, Unique, Flat, Batches;
    if names == [] {
      NoBatches(p);
      KnownOfNothing(p, set n | n in names);
    } else {
      UniqueInit(names);
      var init, last := names[..|names| - 1], names[|names| - 1];
      HandedOnce(init, p);
      var known := set n | n in init;
      assert names == init + [last];
      assert (set n | n in names) == known + {last};
      KnownSplits(p, known, last);
      FlatOfBatches(names, p);
    }
  }

  lemma UniqueInit(names: seq<string>)
    requires Unique(names) && names != []
    ensures Unique(names[..|names| - 1]) && names[|names| - 1] !in names[..|names| - 1]
  {
  }

  lemma FlatOfBatches(names: seq<string>, p: Plan)
    requires names != []
    ensures Flat(Batches(names, p)) == Flat(Batches(names[..|names| - 1], p)) + Batch(p, names[|names| - 1])
  {
    var init, last := names[..|names| - 1], names[|names| - 1];
    assert Batches(init, p) + [] == Batches(init, p);
    FlatStep(Batches(init, p), (last, Batch(p, last)));
  }

  lemma {:induction false} KnownOfNothing(p: Plan, names: set<string>)
    requires names == {}
    ensures Known(p, names) == []
  {
    if p != [] {
      KnownOfNothing(p[1..], names);
    }
  }

  lemma {:induction false} BatchConcat(p: Plan, q: Plan, name: string)
    ensures Batch(p + q, name) == Batch(p, name) + Batch(q, name)
  {
    if p == [] {
      assert p + q == q;
    } else {
      assert (p + q)[1..] == p[1..] + q;
      BatchConcat(p[1..], q, name);
    }
  }

  lemma {:induction false} BatchOfOthers(p: Plan, name: string)
    requires forall c | c in p :: c.owner != name
    ensures Batch(p, name) == []
  {
    if p != [] {
      assert forall c | c in p[1..] :: c in p;
      BatchOfOthers(p[1..], name);
    }
  }

  lemma {:induction false} BatchOfOwn(p: Plan, name: string)
    requires forall c | c in p :: c.owner == name && c.kind != Noop
    ensures Batch(p, name) == p
  {
    if p != [] {
      assert p[0] in p;
      assert forall c | c in p[1..] :: c in p;
      BatchOfOwn(p[1..], name);
    }
  }

  /** Appending one module's own changes leaves the batches of the modules before it alone. */
  lemma {:induction false} BatchesOfPrefix(names: seq<string>, p: Plan, own: Plan, name: string)
    requires name !in names && forall c | c in own :: c.owner == name
    ensures Batches(names, p + own) == Batches(names, p)
  {
    if names != [] {
      var init, last := names[..|names| - 1], names[|names| - 1];
      assert last in names;
      assert forall n | n in init :: n in names;
      BatchesOfPrefix(init, p, own, name);
      BatchConcat(p, own, last);
      BatchOfOthers(own, last);
      assert Batch(p + own, last) == Batch(p, last);
    }
  }

  /** Appending one module's own changes to a plan that is handed out unchanged gives such a plan again. */
  lemma HandedOutStep(names: seq<string>, name: string, p: Plan, own: Plan)
    requires name !in names && Flat(Batches(names, p)) == p
    requires forall c | c in p :: c.owner in names
    requires forall c | c in own :: c.owner == name && c.kind != Noop
    ensures Flat(Batches(names + [name], p + own)) == p + own
  {
    hide Batches, Flat, Batch;
    var all := names + [name];
    assert all[..|all| - 1] == names && all[|all| - 1] == name;
    BatchesOfPrefix(names, p, own, name);
    BatchConcat(p, own, name);
    BatchOfOthers(p, name);
    BatchOfOwn(own, name);
    FlatOfBatches(all, p + own);
  }
}
