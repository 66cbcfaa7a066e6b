/** Previewing DNS changes (scripts/manage_dns_records.py). */
module Dns {

  import opened Wrappers
  import opened Json

  /** A record as the clients build them: always with a string id; the other keys are kept as a map. */
  datatype Rec = Rec(id: string, fields: map<string, Value>)

  datatype Diff = Diff(created: seq<Rec>, updated: seq<(Rec, Rec)>, deleted: seq<Rec>)

  datatype Action = CreateRecord(record: Rec) | UpdateRecord(record: Rec) | DeleteRecord(id: string)

  /** `{**existing, **record}` */
  function Merge(existing: Rec, record: Rec): Rec {
    Rec(record.id, existing.fields + record.fields)
  }

  /** `find_record`: the first record with the id. */
  function Find(records: seq<Rec>, id: string): Result<Rec> {
    if records == [] then Raised(DnsError)
    else if records[0].id == id then Ok(records[0])
    else Find(records[1..], id)
  }

  /** Every record with the id becomes the given record. */
  function Replaced(records: seq<Rec>, id: string, target: Rec): seq<Rec> {
    if records == [] then []
    else [if records[0].id == id then target else records[0]] + Replaced(records[1..], id, target)
  }

  function Without(records: seq<Rec>, id: string): seq<Rec> {
    if records == [] then []
    else if records[0].id == id then Without(records[1..], id)
    else [records[0]] + Without(records[1..], id)
  }

  /** `proposed_record_change`. */
  function Propose(action: Action, before: seq<Rec>): Result<(seq<Rec>, Diff)> {
    match action
    case CreateRecord(record) => Ok((before + [record], Diff([record], [], [])))
    case UpdateRecord(record) =>
      var existing :- Find(before, record.id);
      var updated := Merge(existing, record);
      Ok((Replaced(before, record.id, updated), Diff([], [(existing, updated)], [])))
    case DeleteRecord(id) =>
      var existing :- Find(before, id);
      Ok((Without(before, id), Diff([], [], [existing])))
  }

  /** The records with the id, in order: more than one when a provider repeats an id. */
  function Matching(records: seq<Rec>, id: string): seq<Rec> {
    if records == [] then []
    else (if records[0].id == id then [records[0]] else []) + Matching(records[1..], id)
  }

  lemma {:induction false} FindIsFirst(records: seq<Rec>, id: string)
    ensures Find(records, id) == if Matching(records, id) == [] then Raised(DnsError) else Ok(Matching(records, id)[0])
  {
    if records != [] { FindIsFirst(records[1..], id); }
  }

  /** `updated` has the fields of `record`, over those that `existing` had. */
  ghost predicate Overlaid(existing: Rec, record: Rec, updated: Rec) {
    && updated.id == record.id
    && (forall key | key in record.fields :: key in updated.fields && updated.fields[key] == record.fields[key])
    && (forall key | key in existing.fields && key !in record.fields ::
          key in updated.fields && updated.fields[key] == existing.fields[key])
    && forall key | key in updated.fields :: key in record.fields || key in existing.fields
  }

  /** Every record with the id is one such update of the first of them, and all others are as they were. */
  ghost predicate UpdatesAll(before: seq<Rec>, record: Rec, after: seq<Rec>) {
    && |after| == |before|
    && (forall i | 0 <= i < |before| && before[i].id != record.id :: after[i] == before[i])
    && forall i, first | 0 <= first < |before| && 0 <= i < |before| && before[i].id == record.id
                         && First(before, record.id, first) :: Overlaid(before[first], record, after[i])
  }

  /** Every record with the id is updated over its own old fields, and all others are as they were. */
  ghost predicate UpdatesEach(before: seq<Rec>, record: Rec, after: seq<Rec>) {
    && |after| == |before|
    && forall i | 0 <= i < |before| ::
         if before[i].id == record.id then Overlaid(before[i], record, after[i]) else after[i] == before[i]
  }

  /** The records with other ids, each as often as before and in the order they had, and no others. */
  ghost predicate KeepsOthers(before: seq<Rec>, id: string, after: seq<Rec>) {
    && (forall x: Rec :: multiset(after)[x] == if x.id == id then 0 else multiset(before)[x])
    && forall p, q | 0 <= p < q < |after| :: InOrder(before, after[p], after[q])
  }

  /** Some occurrence of `x` stands before some occurrence of `y`. */
  ghost predicate InOrder(records: seq<Rec>, x: Rec, y: Rec) {
    exists i, j :: 0 <= i < j < |records| && records[i] == x && records[j] == y
  }

  predicate First(records: seq<Rec>, id: string, i: nat)
    requires i < |records|
  {
    records[i].id == id && forall k | 0 <= k < i :: records[k].id != id
  }

  lemma {:induction false} FindsFirst(records: seq<Rec>, id: string)
    ensures Find(records, id).Ok? <==> exists i | 0 <= i < |records| :: records[i].id == id
    ensures forall i | 0 <= i < |records| && First(records, id, i) :: Find(records, id) == Ok(records[i])
  {
    if records != [] {
      FindsFirst(records[1..], id);
      assert forall i | 0 < i < |records| :: records[i] == records[1..][i - 1];
      forall i | 0 <= i < |records| && First(records, id, i) ensures Find(records, id) == Ok(records[i]) {
        if i > 0 { assert records[0].id != id && First(records[1..], id, i - 1); }
      }
    }
  }

  lemma {:induction false} ReplacedAt(records: seq<Rec>, id: string, target: Rec)
    ensures |Replaced(records, id, target)| == |records|
    ensures forall i | 0 <= i < |records| ::
              Replaced(records, id, target)[i] == if records[i].id == id then target else records[i]
  {
    if records != [] { ReplacedAt(records[1..], id, target); }
  }

  lemma {:induction false} WithoutCounts(records: seq<Rec>, id: string, x: Rec)
    ensures multiset(Without(records, id))[x] == if x.id == id then 0 else multiset(records)[x]
  {
    if records != [] {
      assert records == [records[0]] + records[1..];
      WithoutCounts(records[1..], id, x);
    }
  }

  lemma WithoutHas(records: seq<Rec>, id: string, x: Rec)
    requires x in Without(records, id)
    ensures x in records && x.id != id
  {
    WithoutCounts(records, id, x);
    assert x in multiset(Without(records, id));
    assert x in multiset(records);
  }

  lemma {:induction false} WithoutInOrder(records: seq<Rec>, id: string, p: nat, q: nat)
    requires p < q < |Without(records, id)|
    ensures InOrder(records, Without(records, id)[p], Without(records, id)[q])
  {
    var rest := records[1..];
    var x, y := Without(records, id)[p], Without(records, id)[q];
    if records[0].id == id {
      WithoutInOrder(rest, id, p, q);
      OrderLater(records, x, y);
    } else if p > 0 {
      WithoutInOrder(rest, id, p - 1, q - 1);
      OrderLater(records, x, y);
    } else {
      assert y in Without(rest, id);
      WithoutHas(rest, id, y);
      var j :| 0 <= j < |rest| && rest[j] == y;
      assert records[0] == x && records[j + 1] == y;
    }
  }

  lemma WithoutKeeps(records: seq<Rec>, id: string)
    ensures KeepsOthers(records, id, Without(records, id))
  {
    hide Without, InOrder;
    forall x: Rec ensures multiset(Without(records, id))[x] == if x.id == id then 0 else multiset(records)[x] {
      WithoutCounts(records, id, x);
    }
    forall p, q | 0 <= p < q < |Without(records, id)|
      ensures InOrder(records, Without(records, id)[p], Without(records, id)[q])
    {
      WithoutInOrder(records, id, p, q);
    }
  }

  lemma OrderLater(records: seq<Rec>, x: Rec, y: Rec)
    requires records != [] && InOrder(records[1..], x, y)
    ensures InOrder(records, x, y)
  {
    var i, j :| 0 <= i < j < |records| - 1 && records[1..][i] == x && records[1..][j] == y;
    assert records[i + 1] == x && records[j + 1] == y;
  }

  /**
   What a proposal is, record by record: a created record comes last, an update carries every field of the given record
   over those of the first record with its id, and a deletion keeps exactly the records with other ids.
   */
  lemma ProposalMeans(action: Action, before: seq<Rec>)
    requires Propose(action, before).Ok?
    ensures var after := Propose(action, before).value.0;
            match action
            case CreateRecord(record) => after == before + [record]
            case UpdateRecord(record) => UpdatesAll(before, record, after)
            case DeleteRecord(id) => KeepsOthers(before, id, after)
  {
    match action
    case CreateRecord(_) =>
    case UpdateRecord(record) =>
      FindsFirst(before, record.id);
      ReplacedAt(before, record.id, Merge(Find(before, record.id).value, record));
    case DeleteRecord(id) =>
      WithoutKeeps(before, id);
  }

  /** What is reported: what was created, the first record with the id before and after, or the one deleted. */
  lemma DiffMeans(action: Action, before: seq<Rec>)
    requires Propose(action, before).Ok?
    ensures var d := Propose(action, before).value.1;
            match action
            case CreateRecord(record) => d == Diff([record], [], [])
            case UpdateRecord(record) =>
              && d.created == [] && d.deleted == [] && |d.updated| == 1
              && Overlaid(d.updated[0].0, record, d.updated[0].1)
              && forall i | 0 <= i < |before| && First(before, record.id, i) :: d.updated[0].0 == before[i]
            case DeleteRecord(id) =>
              && d.created == [] && d.updated == [] && |d.deleted| == 1
              && forall i | 0 <= i < |before| && First(before, id, i) :: d.deleted[0] == before[i]
  {
    match action
    case CreateRecord(_) =>
    case UpdateRecord(record) => FindsFirst(before, record.id);
    case DeleteRecord(id) => FindsFirst(before, id);
  }

  ghost function Froms(pairs: seq<(Rec, Rec)>): multiset<Rec> {
    if pairs == [] then multiset{} else multiset{pairs[0].0} + Froms(pairs[1..])
  }

  ghost function Tos(pairs: seq<(Rec, Rec)>): multiset<Rec> {
    if pairs == [] then multiset{} else multiset{pairs[0].1} + Tos(pairs[1..])
  }

  /** What was there, was created or was updated to is what is there, was deleted or was updated from. */
  ghost predicate Conserves(before: seq<Rec>, after: seq<Rec>, d: Diff) {
    multiset(before) + multiset(d.created) + Tos(d.updated) == multiset(after) + multiset(d.deleted) + Froms(d.updated)
  }

  lemma {:induction false} WithoutBag(records: seq<Rec>, id: string)
    ensures multiset(records) == multiset(Without(records, id)) + multiset(Matching(records, id))
  {
    if records != [] {
      assert records == [records[0]] + records[1..];
      WithoutBag(records[1..], id);
    }
  }

  lemma {:induction false} ReplacedBag(records: seq<Rec>, id: string, target: Rec)
    ensures multiset(Replaced(records, id, target)) ==
              multiset(Without(records, id)) + multiset{}[target := |Matching(records, id)|]
  {
    if records != [] {
      var rest := records[1..];
      ReplacedBag(rest, id, target);
      ghost var n := |Matching(rest, id)|;
      assert multiset{}[target := n + 1] == multiset{}[target := n] + multiset{target};
    }
  }

  /** A sequence is made of copies of one element exactly if its multiset says so. */
  lemma AllCopies(s: seq<Rec>, target: Rec)
    ensures multiset(s) == multiset{}[target := |s|] <==> forall x | x in s :: x == target
  {
    if multiset(s) == multiset{}[target := |s|] {
      forall x | x in s ensures x == target {
        assert x in multiset(s);
      }
    }
    if forall x | x in s :: x == target {
      SizeOfCopies(s, target);
      forall x | x != target ensures multiset(s)[x] == 0 {
        assert x !in s;
      }
    }
  }

  lemma {:induction false} SizeOfCopies(s: seq<Rec>, target: Rec)
    requires forall x | x in s :: x == target
    ensures multiset(s)[target] == |s|
  {
    if s != [] {
      assert s == [s[0]] + s[1..];
      assert s[0] in s && forall x | x in s[1..] :: x in s;
      SizeOfCopies(s[1..], target);
    }
  }

  /** The id an action is about, if a record with it must exist. */
  function Target(action: Action): Option<string> {
    match action
    case CreateRecord(_) => None
    case UpdateRecord(record) => Some(record.id)
    case DeleteRecord(id) => Some(id)
  }

  /**
   When a preview conserves the records: a creation always; a deletion if the id occurs once; an update if every later
   record with the id already is what the first becomes.
   */
  predicate Countable(action: Action, before: seq<Rec>) {
    match action
    case CreateRecord(_) => true
    case UpdateRecord(record) =>
      var same := Matching(before, record.id);
      same != [] ==> forall x | x in same[1..] :: x == Merge(same[0], record)
    case DeleteRecord(id) => |Matching(before, id)| <= 1
  }

  lemma Cancel(common: multiset<Rec>, a: multiset<Rec>, b: multiset<Rec>)
    ensures common + a == common + b <==> a == b
  {
    if common + a == common + b {
      forall x ensures a[x] == b[x] {
        assert (common + a)[x] == (common + b)[x];
      }
    }
  }

  /** Replacing `first` and every record of `later` by `target`, beside the records of `w`. */
  lemma UpdateBags(w: multiset<Rec>, first: Rec, later: seq<Rec>, target: Rec)
    ensures w + multiset([first] + later) + multiset{target} ==
              w + multiset{}[target := |later| + 1] + multiset{first} <==>
              forall x | x in later :: x == target
  {
    ghost var common := w + multiset{first} + multiset{target};
    AllCopies(later, target);
    assert w + multiset([first] + later) + multiset{target} == common + multiset(later);
    assert multiset{}[target := |later| + 1] == multiset{}[target := |later|] + multiset{target};
    assert w + multiset{}[target := |later| + 1] + multiset{first} == common + multiset{}[target := |later|];
    Cancel(common, multiset(later), multiset{}[target := |later|]);
  }

  lemma UpdateConserves(before: seq<Rec>, record: Rec)
    requires Matching(before, record.id) != []
    ensures var p := Propose(UpdateRecord(record), before);
            p.Ok? && (Conserves(before, p.value.0, p.value.1) <==> Countable(UpdateRecord(record), before))
  {
    hide Matching, Without, Replaced, Find, Merge;
    var id, same := record.id, Matching(before, record.id);
    var target, later := Merge(same[0], record), same[1..];
    FindIsFirst(before, id);
    WithoutBag(before, id);
    ReplacedBag(before, id, target);
    assert same == [same[0]] + later;
    UpdateBags(multiset(Without(before, id)), same[0], later, target);
    var (after, d) := Propose(UpdateRecord(record), before).value;
    assert Tos(d.updated) == multiset{target} && Froms(d.updated) == multiset{same[0]} by {
      assert d.updated[1..] == [];
    }
    assert multiset(before) + multiset(d.created) + Tos(d.updated) == multiset(before) + multiset{target};
    assert multiset(after) + multiset(d.deleted) + Froms(d.updated) == multiset(after) + multiset{same[0]};
    assert |same| == |later| + 1;
  }

  lemma DeleteConserves(before: seq<Rec>, id: string)
    requires Matching(before, id) != []
    ensures var p := Propose(DeleteRecord(id), before);
            p.Ok? && (Conserves(before, p.value.0, p.value.1) <==> Countable(DeleteRecord(id), before))
  {
    var same := Matching(before, id);
    FindIsFirst(before, id);
    WithoutBag(before, id);
    assert same == [same[0]] + same[1..];
    ghost var w := multiset(Without(before, id));
    assert multiset(before) == (w + multiset{same[0]}) + multiset(same[1..]);
    Cancel(w + multiset{same[0]}, multiset(same[1..]), multiset{});
    assert |multiset(same[1..])| == |same| - 1;
  }

  /** A preview exists exactly when the record it is about does, and conserves the records exactly when `Countable`. */
  lemma PreviewConserves(action: Action, before: seq<Rec>)
    ensures Propose(action, before).Ok? <==> Target(action).None? || Matching(before, Target(action).value) != []
    ensures var p := Propose(action, before);
            p.Ok? ==> (Conserves(before, p.value.0, p.value.1) <==> Countable(action, before))
  {
    match action
    case CreateRecord(_) =>
    case UpdateRecord(record) =>
      FindIsFirst(before, record.id);
      if Matching(before, record.id) != [] { UpdateConserves(before, record); }
    case DeleteRecord(id) =>
      FindIsFirst(before, id);
      if Matching(before, id) != [] { DeleteConserves(before, id); }
  }

  /** The records other than those with the id, in order. */
  lemma {:induction false} OthersUntouched(records: seq<Rec>, id: string, target: Rec)
    requires target.id == id
    ensures Without(Replaced(records, id, target), id) == Without(records, id)
    ensures Without(Without(records, id), id) == Without(records, id)
  {
    if records != [] {
      OthersUntouched(records[1..], id, target);
      assert Replaced(records, id, target)[1..] == Replaced(records[1..], id, target);
      assert ([records[0]] + Without(records[1..], id))[1..] == Without(records[1..], id);
    }
  }

  /** A preview keeps every record it is not about, with its value and its place among the others. */
  lemma PreviewKeepsOthers(action: Action, before: seq<Rec>)
    requires Propose(action, before).Ok?
    ensures action.CreateRecord? ==> Propose(action, before).value.0 == before + [action.record]
    ensures Target(action).Some? ==>
              Without(Propose(action, before).value.0, Target(action).value) == Without(before, Target(action).value)
  {
    match action
    case CreateRecord(_) =>
    case UpdateRecord(record) =>
      OthersUntouched(before, record.id, Merge(Find(before, record.id).value, record));
    case DeleteRecord(id) =>
      OthersUntouched(before, id, Rec(id, map[]));
  }

  // ----- what is sent -----

  datatype Provider = Porkbun | Namecheap

  datatype Payload = Payload(before: Option<seq<Rec>>, after: Option<seq<Rec>>, diff: Option<Diff>, records: seq<Rec>)

  /** One zone: what its provider lists, and what the program has sent. */
  class Zone {
    const provider: Provider
    var records: seq<Rec>
    /** The full host lists sent with `set_records`, and the calls that edit a single record. */
    ghost var sent: seq<seq<Rec>>
    ghost var edits: seq<Action>

    constructor (provider: Provider, records: seq<Rec>)
      ensures this.provider == provider && this.records == records && sent == [] && edits == []
    {
      this.provider, this.records, sent, edits := provider, records, [], [];
    }

    /** `list_records`; the request may fail. */
    method ListRecords() returns (r: Result<seq<Rec>>)
      ensures r.Ok? ==> r.value == records
    {
      var reached: bool := *;
      return if reached then Ok(records) else Raised(DnsError);
    }

    /** `set_records`: replaces the host list; whatever the answer, the provider then lists what it likes. */
    method SetRecords(next: seq<Rec>) returns (r: Result<seq<Rec>>)
      modifies this
      ensures sent == old(sent) + [next] && edits == old(edits)
    {
      sent := sent + [next];
      records := *;
      var confirmed: bool := *;
      if !confirmed {
        return Raised(DnsError);
      }
      r := ListRecords();
    }

    /** `create_record`, `update_record` and `delete_record` of a provider that edits single records. */
    method EditRecord(action: Action) returns (r: Result<seq<Rec>>)
      modifies this
      ensures edits == old(edits) + [action] && sent == old(sent)
    {
      edits := edits + [action];
      records := *;
      var answered: bool := *;
      if !answered {
        return Raised(DnsError);
      }
      r := ListRecords();
    }

    /**
     `run` for an action that changes records. A dry run sends nothing and shows the proposed change; for Namecheap the
     list sent is the proposed one, whatever the records, and nothing is sent without a proposal.
     */
    method Run(action: Action, dryRun: bool) returns (r: Result<Payload>)
      modifies this
      ensures dryRun ==> sent == old(sent) && edits == old(edits) && records == old(records)
      ensures provider.Namecheap? ==> edits == old(edits)
      ensures sent != old(sent) ==>
                && provider.Namecheap? && !dryRun && Propose(action, old(records)).Ok?
                && sent == old(sent) + [Propose(action, old(records)).value.0]
      ensures sent != old(sent) ==>
                && |sent| == |old(sent)| + 1
                && match action
                   case CreateRecord(record) => sent[|old(sent)|] == old(records) + [record]
                   case UpdateRecord(record) => UpdatesAll(old(records), record, sent[|old(sent)|])
                   case DeleteRecord(id) => KeepsOthers(old(records), id, sent[|old(sent)|])
      ensures r.Ok? && (dryRun || provider.Namecheap?) ==>
                && Propose(action, old(records)).Ok?
                && r.value.before == Some(old(records)) && r.value.diff == Some(Propose(action, old(records)).value.1)
      ensures r.Ok? && dryRun ==> r.value.after == Some(Propose(action, old(records)).value.0)
      ensures r.Ok? && !dryRun ==> if provider.Namecheap? then sent != old(sent) else edits == old(edits) + [action]
    {
      hide Propose, UpdatesAll, KeepsOthers;
      if Propose(action, records).Ok? { ProposalMeans(action, records); }
      if dryRun || provider.Namecheap? {
        var before :- ListRecords();
        var proposed :- Propose(action, before);
        var after := proposed.0;
        if !dryRun {
          after :- SetRecords(proposed.0);
        }
        return Ok(Payload(Some(before), Some(after), Some(proposed.1), after));
      }
      var left :- EditRecord(action);
      return Ok(Payload(None, None, None, left));
    }

    /** Previewing and then carrying out a change at Namecheap sends exactly the list that was shown. */
    method PreviewThenRun(action: Action) returns (preview: Result<Payload>, applied: Result<Payload>)
      modifies this
      ensures provider.Namecheap? && preview.Ok? && applied.Ok? ==>
                preview.value.after.Some? && sent == old(sent) + [preview.value.after.value]
      ensures provider.Namecheap? && preview.Ok? && applied.Ok? ==> applied.value.diff == preview.value.diff
    {
      hide Propose;
      preview := Run(action, true);
      applied := Run(action, false);
    }
  }

  lemma OfTwo(a: Rec, b: Rec, t: Rec)
    requires a.id == b.id
    ensures Matching([a, b], a.id) == [a, b] && Without([a, b], a.id) == [] && Replaced([a, b], a.id, t) == [t, t]
  {
    var id := a.id;
    assert [a, b][1..] == [b] && [b][1..] == [];
    assert Matching([b], id) == [b] + [] && Replaced([b], id, t) == [t] + [] && Without([b], id) == [];
    assert Matching([a, b], id) == [a] + [b] && Replaced([a, b], id, t) == [t] + [t];
  }

  /**
   Two records under one id: an update drops the second unless it already is the result, and a deletion drops it without
   reporting it.
   */
  lemma RepeatedId(a: Rec, b: Rec, record: Rec)
    requires a.id == b.id == record.id && b != Merge(a, record)
    ensures var p := Propose(UpdateRecord(record), [a, b]);
            p.Ok? && b !in p.value.0 && p.value.1.deleted == [] && !Conserves([a, b], p.value.0, p.value.1)
    ensures var p := Propose(DeleteRecord(record.id), [a, b]);
            p.Ok? && p.value.0 == [] && p.value.1.deleted == [a] && !Conserves([a, b], p.value.0, p.value.1)
  {
    hide Matching, Without, Replaced, Find, Merge, Conserves;
    OfTwo(a, b, Merge(a, record));
    FindIsFirst([a, b], record.id);
    assert b in [a, b][1..];
    UpdateConserves([a, b], record);
    DeleteConserves([a, b], record.id);
  }

  lemma RepeatedIdWitness() returns (a: Rec, b: Rec, record: Rec)
    ensures a.id == b.id == record.id && b != Merge(a, record)
  {
    a, b := Rec("1", map["content" := Str("a")]), Rec("1", map["content" := Str("b")]);
    record := Rec("1", map["content" := Str("c")]);
    assert Merge(a, record).fields["content"] == Str("c") && b.fields["content"] == Str("b");
  }

  // ----- the client's own update and delete, which `run` does not call for Namecheap -----

  /** What `NamecheapClient.update_record` would send: each record with the id merged with the new one. */
  function Merged(records: seq<Rec>, record: Rec): seq<Rec> {
    if records == [] then []
    else [if records[0].id == record.id then Merge(records[0], record) else records[0]] + Merged(records[1..], record)
  }

  lemma {:induction false} MergedConcat(a: seq<Rec>, b: seq<Rec>, record: Rec)
    ensures Merged(a + b, record) == Merged(a, record) + Merged(b, record)
    ensures Matching(a + b, record.id) == Matching(a, record.id) + Matching(b, record.id)
  {
    if a == [] {
      assert a + b == b;
    } else {
      assert (a + b)[1..] == a[1..] + b;
      MergedConcat(a[1..], b, record);
    }
  }

  lemma {:induction false} MergedAt(records: seq<Rec>, record: Rec)
    ensures UpdatesEach(records, record, Merged(records, record))
  {
    if records != [] {
      MergedAt(records[1..], record);
      assert forall i | 0 < i < |records| :: records[i] == records[1..][i - 1];
    }
  }

  lemma {:induction false} AnyMatching(records: seq<Rec>, id: string)
    ensures Matching(records, id) != [] <==> exists i :: 0 <= i < |records| && records[i].id == id
  {
    if records != [] {
      AnyMatching(records[1..], id);
      assert forall i | 0 < i < |records| :: records[i] == records[1..][i - 1];
    }
  }

  /** The loop of `update_record`. */
  method NamecheapUpdate(records: seq<Rec>, record: Rec) returns (r: Result<seq<Rec>>)
    ensures r == if Matching(records, record.id) != [] then Ok(Merged(records, record)) else Raised(DnsError)
    ensures r.Ok? <==> exists i :: 0 <= i < |records| && records[i].id == record.id
    ensures r.Ok? ==> UpdatesEach(records, record, r.value)
  {
    MergedAt(records, record);
    AnyMatching(records, record.id);
    var updated := false;
    var next: seq<Rec> := [];
    for i := 0 to |records|
      invariant next == Merged(records[..i], record)
      invariant updated <==> Matching(records[..i], record.id) != []
    {
      assert records[..i + 1] == records[..i] + [records[i]];
      MergedConcat(records[..i], [records[i]], record);
      if records[i].id == record.id {
        next := next + [Merge(records[i], record)];
        updated := true;
      } else {
        next := next + [records[i]];
      }
    }
    assert records[..|records|] == records;
    if !updated {
      return Raised(DnsError);
    }
    return Ok(next);
  }

  lemma {:induction false} WithoutSize(records: seq<Rec>, id: string)
    ensures |records| == |Without(records, id)| + |Matching(records, id)|
  {
    if records != [] { WithoutSize(records[1..], id); }
  }

  /** `delete_record`: the records kept; an error when nothing was removed. */
  method NamecheapDelete(records: seq<Rec>, id: string) returns (r: Result<seq<Rec>>)
    ensures r == if Matching(records, id) != [] then Ok(Without(records, id)) else Raised(DnsError)
    ensures r.Ok? <==> exists i :: 0 <= i < |records| && records[i].id == id
    ensures r.Ok? ==> KeepsOthers(records, id, r.value)
  {
    WithoutKeeps(records, id);
    AnyMatching(records, id);
    var kept := Without(records, id);
    WithoutSize(records, id);
    if |kept| == |records| {
      return Raised(DnsError);
    }
    return Ok(kept);
  }

  lemma {:induction false} MergedIsReplaced(records: seq<Rec>, record: Rec, target: Rec)
    ensures Merged(records, record) == Replaced(records, record.id, target) <==>
              forall m | m in Matching(records, record.id) :: Merge(m, record) == target
  {
    if records != [] {
      var head, rest := records[0], records[1..];
      MergedIsReplaced(rest, record, target);
      var merged, replaced := Merged(records, record), Replaced(records, record.id, target);
      assert merged[1..] == Merged(rest, record) && replaced[1..] == Replaced(rest, record.id, target);
      assert merged == replaced <==> merged[0] == replaced[0] && merged[1..] == replaced[1..] by {
        assert merged == [merged[0]] + merged[1..] && replaced == [replaced[0]] + replaced[1..];
      }
      assert forall m :: m in Matching(records, record.id) <==>
        (m == head && head.id == record.id) || m in Matching(rest, record.id);
    }
  }

  /**
   The update preview is what the client's own `update_record` would send exactly when all records with the id merge
   alike, so whenever ids are unique; both fail together. The delete preview always is what `delete_record` would send.
   */
  lemma PreviewMatchesClient(before: seq<Rec>, record: Rec)
    ensures Propose(UpdateRecord(record), before).Ok? <==> Matching(before, record.id) != []
    ensures Propose(UpdateRecord(record), before).Ok? ==>
              (Propose(UpdateRecord(record), before).value.0 == Merged(before, record) <==>
               forall m | m in Matching(before, record.id) ::
                 Merge(m, record) == Merge(Matching(before, record.id)[0], record))
    ensures |Matching(before, record.id)| == 1 ==>
              Propose(UpdateRecord(record), before).value.0 == Merged(before, record)
    ensures Propose(DeleteRecord(record.id), before).Ok? ==>
              Propose(DeleteRecord(record.id), before).value.0 == Without(before, record.id)
  {
    hide Matching, Without, Replaced, Find, Merge, Merged;
    FindIsFirst(before, record.id);
    var same := Matching(before, record.id);
    if same != [] {
      MergedIsReplaced(before, record, Merge(same[0], record));
    }
  }
}
