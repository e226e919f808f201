/** The registry as the source of the expected baseline: committing a verified preview and
    regenerating the snapshot from what was committed. */
module Baseline {
  import opened Ordering
  import opened Keyed
  import opened Resources
  import opened Ownership
  import opened DesiredState
  import opened Integrity
  import opened Diff
  import opened Closure

  function RuleRecordFor(rule: Rule, paired: Option<AddressList>, existing: Option<RuleRecord>, now: int): RuleRecord {
    RuleRecord(
      rule.id,
      rule.name,
      if paired.Some? then paired.value.name else if rule.listNames != [] then rule.listNames[0] else "",
      rule.ou,
      if existing.Some? then existing.value.createdAt else now,
      Some(rule),
      paired)
  }

  function ListRecordFor(list: AddressList, ou: string, existing: Option<ListRecord>, now: int): ListRecord {
    ListRecord(list.id, list.name, ou, if existing.Some? then existing.value.createdAt else now, Some(list))
  }

  ghost function RecordedRules<R>(g: Registry<R>, cs: ChangeSet, now: int): map<Uid, RuleRecord> {
    var kept := Index(g.resources, RuleRecordId) - IdSet(cs.rules.removed, RuleId);
    kept + map k | k in RuleMap(cs.after) :: RuleRecordFor(RuleMap(cs.after)[k], Lookup(ListMap(cs.after), k),
        Lookup(kept, k), now)
  }

  ghost function RecordedLists<R>(g: Registry<R>, cs: ChangeSet, now: int): map<Uid, ListRecord> {
    var kept := Index(g.lists, ListRecordId) - IdSet(cs.lists.removed, ListId);
    var paired := RecordedRules(g, cs, now).Keys;
    kept + map j | j in ListMap(cs.after) && j !in paired :: ListRecordFor(ListMap(cs.after)[j], cs.after.ou,
        Lookup(kept, j), now)
  }

  /** `_commit_ownership` of a blocked-sender preview. */
  ghost function CommitPreview<R>(g: Registry<R>, cs: ChangeSet, now: int): Outcome<Registry<R>> {
    var stored := Registry(Listing(RecordedRules(g, cs, now)), Listing(RecordedLists(g, cs, now)), g.compliance);
    var _ :- Check(ValidRegistry(stored), IdTaken);
    Ok(stored)
  }

  function Select<T>(s: seq<T>, p: T -> bool): seq<T> {
    if s == [] then [] else (if p(s[0]) then [s[0]] else []) + Select(s[1..], p)
  }

  function RuleSnapshots(records: seq<RuleRecord>): seq<Rule>
    requires forall r :: r in records ==> r.ruleSnapshot.Some?
  {
    seq(|records|, i requires 0 <= i < |records| => records[i].ruleSnapshot.value)
  }

  function PairedSnapshots(records: seq<RuleRecord>): seq<AddressList> {
    if records == [] then []
    else (if records[0].listSnapshot.Some? then [records[0].listSnapshot.value] else []) + PairedSnapshots(records[1..])
  }

  function ListSnapshots(records: seq<ListRecord>): seq<AddressList> {
    if records == [] then []
    else (if records[0].snapshot.Some? then [records[0].snapshot.value] else []) + ListSnapshots(records[1..])
  }

  function Referenced(rules: seq<Rule>): set<string> { set i, n | 0 <= i < |rules| && n in Refs(rules[i]) :: n }

  function NamesOf(lists: seq<AddressList>): set<string> { set i | 0 <= i < |lists| :: lists[i].name }

  function OfUnit(ou: string): RuleRecord -> bool { (r: RuleRecord) => r.ou == ou }

  function ListOfUnit(ou: string): ListRecord -> bool { (r: ListRecord) => r.ou == ou }

  function NamedIn(names: set<string>): AddressList -> bool { (l: AddressList) => l.name in names }

  /** The recorded lists of a unit with a name the rules use: paired ones first. */
  function UnitLists<R>(g: Registry<R>, ou: string, names: set<string>): seq<AddressList> {
    Select(PairedSnapshots(Select(g.resources, OfUnit(ou))), NamedIn(names))
    + Select(ListSnapshots(Select(g.lists, ListOfUnit(ou))), NamedIn(names))
  }

  /** `_standard_snapshot` */
  ghost function Snapshot<R>(g: Registry<R>, ou: string): Outcome<State> {
    var records := Select(g.resources, OfUnit(ou));
    var _ :- Check(forall r :: r in records ==> r.ruleSnapshot.Some?, AmbiguousTarget);
    var rules := RuleSnapshots(records);
    var names := Referenced(rules);
    var lists := UnitLists(g, ou, names);
    var _ :- Check(NamesOf(lists) == names, AmbiguousTarget);
    var s := State(ou, rules, lists, []);
    var _ :- Check(UniqueIds(s), IdTaken);
    Ok(s)
  }

  /** The registry describes the unit as it was read: its rule records are the rules', and a
      list it remembers but did not read has a name of its own. */
  ghost predicate Remembers<R>(g: Registry<R>, s: State) {
    && ValidRegistry(g) && LinkedState(s)
    && (forall k :: k in RuleMap(s) ==> k in Index(g.resources, RuleRecordId) && RuleMap(s)[k].ou == s.ou)
    && (forall r :: r in g.resources ==> (r.ou == s.ou <==> r.id in RuleMap(s)))
    && (forall j :: j in ListMap(s) && j !in RuleMap(s) ==> j !in Index(g.resources, RuleRecordId))
    && (forall j :: j in ListMap(s) ==> forall c :: c in g.compliance ==> c.id != j)
    && (forall r, j :: r in g.lists && r.ou == s.ou && r.snapshot.Some? && r.id !in ListMap(s) && j in ListMap(s) ==> r.snapshot.value.name != ListMap(s)[j].name)
    && (forall r :: r in g.lists && r.snapshot.Some? ==> r.snapshot.value.id == r.id)
    && (forall r :: r in g.lists && r.id in ListMap(s) ==> r.ou == s.ou)
  }

  ghost predicate NamesUnknown<R>(g: Registry<R>, ids: seq<Uid>, prefix: string) {
    forall r, id :: r in g.lists && r.snapshot.Some? && id in ids ==> !NewName(r.snapshot.value.name, id, ids, prefix)
  }

  lemma {:induction false} SelectFacts<T>(s: seq<T>, p: T -> bool)
    ensures forall x :: x in Select(s, p) ==> x in s && p(x)
    ensures forall x :: x in s && p(x) ==> x in Select(s, p)
    ensures |Select(s, p)| <= |s|
  {
    if s != [] {
      SelectFacts(s[1..], p);
      assert s == [s[0]] + s[1..];
    }
  }

  lemma PrependAscending(id: string, ids: seq<string>)
    requires StrictlyAscending(ids) && forall j :: 0 <= j < |ids| ==> Below(id, ids[j]) && id != ids[j]
    ensures StrictlyAscending([id] + ids)
  {
  }

  lemma {:induction false} SelectAscending<T>(s: seq<T>, p: T -> bool, key: T -> Uid)
    requires StrictlyAscending(Keys(s, key))
    ensures StrictlyAscending(Keys(Select(s, p), key))
  {
    if s != [] {
      var ids, rest := Keys(s, key), Select(s[1..], p);
      assert Keys(s[1..], key) == ids[1..];
      SelectAscending(s[1..], p, key);
      SelectFacts(s[1..], p);
      forall j | 0 <= j < |rest| ensures Below(ids[0], Keys(rest, key)[j]) && ids[0] != Keys(rest, key)[j] {
        assert rest[j] in rest && rest[j] in s[1..];
        var n :| 0 <= n < |s[1..]| && s[1..][n] == rest[j];
        assert Below(ids[0], ids[n + 1]) && ids[0] != ids[n + 1];
      }
      PrependAscending(ids[0], Keys(rest, key));
      assert Keys([s[0]] + rest, key) == [ids[0]] + Keys(rest, key);
      assert Keys([] + rest, key) == Keys(rest, key);
    }
  }

  function Restrict<T>(m: map<Uid, T>, p: T -> bool): map<Uid, T> { map k | k in m && p(m[k]) :: m[k] }

  lemma SelectIndex<T>(m: map<Uid, T>, p: T -> bool, key: T -> Uid)
    requires KeyedBy(m, key)
    ensures Index(Select(Listing(m), p), key) == Restrict(m, p)
    ensures StrictlyAscending(Keys(Select(Listing(m), p), key))
  {
    ListingFacts(m, key);
    SelectAscending(Listing(m), p, key);
    SelectFacts(Listing(m), p);
    ListingOfIndex(Select(Listing(m), p), key);
    IndexIs(Select(Listing(m), p), Restrict(m, p), key);
  }

  lemma IndexIs<T>(s: seq<T>, n: map<Uid, T>, key: T -> Uid)
    requires UniqueKeys(s, key) && KeyedBy(n, key)
    requires forall x :: x in s ==> key(x) in n && n[key(x)] == x
    requires forall k :: k in n ==> n[k] in s
    ensures Index(s, key) == n
  {
    IndexFacts(s, key);
    var i := Index(s, key);
    forall k | k in i ensures k in n && i[k] == n[k] {
      assert i[k] in s && key(i[k]) == k;
    }
    forall k | k in n ensures k in i {
      assert n[k] in s && key(n[k]) == k;
      var j :| 0 <= j < |s| && s[j] == n[k];
      assert key(s[j]) in i;
    }
  }

  /** Choosing from a sorted dictionary is the sorted dictionary of the chosen. */
  lemma SelectListing<T>(m: map<Uid, T>, p: T -> bool, key: T -> Uid)
    requires KeyedBy(m, key)
    ensures Select(Listing(m), p) == Listing(Restrict(m, p))
  {
    SelectIndex(m, p, key);
    ListingOfIndex(Select(Listing(m), p), key);
  }

  lemma {:induction false} PairedSnapshotFacts(records: seq<RuleRecord>)
    ensures forall l :: l in PairedSnapshots(records) <==> exists i :: 0 <= i < |records| && records[i].listSnapshot == Some(l)
  {
    if records != [] {
      PairedSnapshotFacts(records[1..]);
      var rest := records[1..];
      forall l ensures l in PairedSnapshots(records) <==> exists i :: 0 <= i < |records| && records[i].listSnapshot == Some(l) {
        if l in PairedSnapshots(rest) { var i :| 0 <= i < |rest| && rest[i].listSnapshot == Some(l); assert records[i + 1].listSnapshot == Some(l); }
        if i :| 0 <= i < |records| && records[i].listSnapshot == Some(l) { if i > 0 { assert rest[i - 1].listSnapshot == Some(l); } }
      }
    }
  }

  lemma {:induction false} ListSnapshotFacts(records: seq<ListRecord>)
    ensures forall l :: l in ListSnapshots(records) <==> exists i :: 0 <= i < |records| && records[i].snapshot == Some(l)
  {
    if records != [] {
      ListSnapshotFacts(records[1..]);
      var rest := records[1..];
      forall l ensures l in ListSnapshots(records) <==> exists i :: 0 <= i < |records| && records[i].snapshot == Some(l) {
        if l in ListSnapshots(rest) { var i :| 0 <= i < |rest| && rest[i].snapshot == Some(l); assert records[i + 1].snapshot == Some(l); }
        if i :| 0 <= i < |records| && records[i].snapshot == Some(l) { if i > 0 { assert rest[i - 1].snapshot == Some(l); } }
      }
    }
  }

  /** Each record's list snapshot, when present, has the record's ID; so the lists are distinct. */
  lemma {:induction false} PairedSnapshotsUnique(records: seq<RuleRecord>)
    requires UniqueKeys(records, RuleRecordId)
    requires forall i :: 0 <= i < |records| && records[i].listSnapshot.Some? ==> records[i].listSnapshot.value.id == records[i].id
    ensures UniqueKeys(PairedSnapshots(records), ListId)
  {
    if records != [] {
      var rest := records[1..];
      PairedSnapshotsUnique(rest);
      PairedSnapshotFacts(rest);
      assert forall i :: 0 <= i < |rest| ==> RuleRecordId(rest[i]) != RuleRecordId(records[0]);
      forall l | l in PairedSnapshots(rest) && records[0].listSnapshot.Some? ensures ListId(l) != ListId(records[0].listSnapshot.value) {
        var i :| 0 <= i < |rest| && rest[i].listSnapshot == Some(l);
      }
    }
  }

  lemma {:induction false} ListSnapshotsUnique(records: seq<ListRecord>)
    requires UniqueKeys(records, ListRecordId)
    requires forall i :: 0 <= i < |records| && records[i].snapshot.Some? ==> records[i].snapshot.value.id == records[i].id
    ensures UniqueKeys(ListSnapshots(records), ListId)
  {
    if records != [] {
      var rest := records[1..];
      ListSnapshotsUnique(rest);
      ListSnapshotFacts(rest);
      assert forall i :: 0 <= i < |rest| ==> ListRecordId(rest[i]) != ListRecordId(records[0]);
      forall l | l in ListSnapshots(rest) && records[0].snapshot.Some? ensures ListId(l) != ListId(records[0].snapshot.value) {
        var i :| 0 <= i < |rest| && rest[i].snapshot == Some(l);
      }
    }
  }
}
