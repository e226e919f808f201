/** What an attended commit records, field by field: its evidence owns the whole approved state, for
    every plan, and keeps the time each resource was first recorded. */
module AttendedClosure {
  import opened Keyed
  import opened Resources
  import opened Ownership
  import opened DesiredState
  import opened Integrity
  import opened Diff
  import opened Lifecycle
  import opened Succession
  import opened Baseline
  import opened BaselineRoundTrip
  import opened DriverRead
  import opened ReadablePlans

  /** The evidence stored for rule `k`: its name, unit, list and both snapshots, and the time it was
      first recorded. */
  ghost predicate RuleEvidenced<R>(g: Registry<R>, g': Registry<R>, a: State, k: Uid, now: int)
    requires k in RuleMap(a)
  {
    && k in ListMap(a) && k in Index(g'.resources, RuleRecordId)
    && var (r, e) := (RuleMap(a)[k], Index(g'.resources, RuleRecordId)[k]);
    && e.id == k && e.ruleName == r.name && e.listName == ListMap(a)[k].name && e.ou == r.ou
    && e.ruleSnapshot == Some(r) && e.listSnapshot == Some(ListMap(a)[k])
    && e.createdAt == if k in Index(g.resources, RuleRecordId) then Index(g.resources, RuleRecordId)[k].createdAt else now
  }

  /** The same for a list that is not a rule's own. */
  ghost predicate ListEvidenced<R>(g: Registry<R>, g': Registry<R>, a: State, j: Uid, now: int)
    requires j in ListMap(a)
  {
    && j !in Index(g'.resources, RuleRecordId) && j in Index(g'.lists, ListRecordId)
    && var (l, e) := (ListMap(a)[j], Index(g'.lists, ListRecordId)[j]);
    && e.id == j && e.name == l.name && e.ou == a.ou && e.snapshot == Some(l)
    && e.createdAt == if j in Index(g.lists, ListRecordId) then Index(g.lists, ListRecordId)[j].createdAt else now
  }

  lemma RuleFields<R>(g: Registry<R>, cs: ChangeSet, now: int, k: Uid)
    requires k in RuleMap(cs.after) && k !in IdSet(cs.rules.removed, RuleId) && k in ListMap(cs.after)
    ensures k in RecordedRules(g, cs, now)
    ensures var (r, e) := (RuleMap(cs.after)[k], RecordedRules(g, cs, now)[k]);
      && e.id == r.id && e.ruleName == r.name && e.listName == ListMap(cs.after)[k].name && e.ou == r.ou
      && e.ruleSnapshot == Some(r) && e.listSnapshot == Some(ListMap(cs.after)[k])
      && e.createdAt == if k in Index(g.resources, RuleRecordId) then Index(g.resources, RuleRecordId)[k].createdAt else now
  {
  }

  lemma ListFields<R>(g: Registry<R>, cs: ChangeSet, now: int, j: Uid)
    requires j in ListMap(cs.after) && j !in IdSet(cs.lists.removed, ListId) && j !in RecordedRules(g, cs, now)
    ensures j in RecordedLists(g, cs, now)
    ensures var (l, e) := (ListMap(cs.after)[j], RecordedLists(g, cs, now)[j]);
      && e.id == l.id && e.name == l.name && e.ou == cs.after.ou && e.snapshot == Some(l)
      && e.createdAt == if j in Index(g.lists, ListRecordId) then Index(g.lists, ListRecordId)[j].createdAt else now
  {
  }

  lemma StoredIs<R>(g: Registry<R>, b: State, a: State, now: int)
    requires Ending(g, b, a)
    ensures var cs := CalculateChangeSet(b, a);
      && CommitPreview(g, cs, now).Ok?
      && Index(CommitPreview(g, cs, now).value.resources, RuleRecordId) == RecordedRules(g, cs, now)
      && Index(CommitPreview(g, cs, now).value.lists, ListRecordId) == RecordedLists(g, cs, now)
      && (forall j :: j in ListMap(a) && j !in RuleMap(a) ==> j !in RecordedRules(g, cs, now))
      && ValidRegistry(CommitPreview(g, cs, now).value)
  {
    var cs := CalculateChangeSet(b, a);
    CommitAndSnapshot(g, b, a, now);
    CommitRecords(g, b, a, now);
    RecordedRulesFacts(g, b, a, RecordedRules(g, cs, now), RecordedLists(g, cs, now));
    RecordedListsFacts(g, b, a, RecordedRules(g, cs, now), RecordedLists(g, cs, now));
    IndexOfListing(RecordedRules(g, cs, now), RuleRecordId);
    IndexOfListing(RecordedLists(g, cs, now), ListRecordId);
  }

  lemma OwnListExists(a: State, k: Uid)
    requires LinkedState(a) && k in RuleMap(a)
    ensures k in ListMap(a)
  {
    assert RuleLinked(RuleMap(a)[k], k, ListMap(a));
  }

  /** Each expected rule and list is recorded with its snapshot. */
  lemma CommitIsEvidence<R>(g: Registry<R>, b: State, a: State, now: int)
    requires Ending(g, b, a)
    ensures var stored := CommitPreview(g, CalculateChangeSet(b, a), now);
      && stored.Ok?
      && (forall k :: k in RuleMap(a) ==> RuleEvidenced(g, stored.value, a, k, now))
      && forall j :: j in ListMap(a) && j !in RuleMap(a) ==> ListEvidenced(g, stored.value, a, j, now)
  {
    var cs := CalculateChangeSet(b, a);
    StoredIs(g, b, a, now);
    PartitionMembers(b.rules, a.rules, RuleId);
    PartitionMembers(b.lists, a.lists, ListId);
    PartIds(cs.rules.removed, RuleMap(b) - RuleMap(a).Keys, RuleId);
    PartIds(cs.lists.removed, ListMap(b) - ListMap(a).Keys, ListId);
    var stored := CommitPreview(g, cs, now).value;
    forall k | k in RuleMap(a) ensures RuleEvidenced(g, stored, a, k, now) {
      OwnListExists(a, k);
      RuleFields(g, cs, now, k);
      IndexFacts(a.rules, RuleId);
      assert RuleId(RuleMap(a)[k]) == k;
    }
    forall j | j in ListMap(a) && j !in RuleMap(a) ensures ListEvidenced(g, stored, a, j, now) {
      ListFields(g, cs, now, j);
      IndexFacts(a.lists, ListId);
      assert ListId(ListMap(a)[j]) == j;
    }
  }

  lemma EvidenceOwns<R>(g: Registry<R>, g': Registry<R>, a: State, now: int, prefix: string)
    requires ValidRegistry(g') && UniqueIds(a)
    requires forall k :: k in RuleMap(a) ==> RuleEvidenced(g, g', a, k, now)
    requires forall j :: j in ListMap(a) && j !in RuleMap(a) ==> ListEvidenced(g, g', a, j, now)
    requires EveryRuleMarked(a, prefix) && forall j :: j in ListMap(a) ==> Marked(ListMap(a)[j].name, prefix)
    ensures AllOwned(a, g', prefix)
  {
    IndexFacts(a.rules, RuleId);
    IndexFacts(a.lists, ListId);
    forall k | k in RuleMap(a) ensures OwnedRule(RuleMap(a)[k], g', prefix) {
      OwnedRuleIsLookup(RuleMap(a)[k], g', prefix);
      assert RuleMap(a)[k] in a.rules && RuleId(RuleMap(a)[k]) == k && RuleEvidenced(g, g', a, k, now);
    }
    forall j | j in ListMap(a) ensures OwnedList(ListMap(a)[j], g', prefix) {
      RecordedNameIsLookup(g', j);
      assert ListId(ListMap(a)[j]) == j;
      if j in RuleMap(a) { assert RuleEvidenced(g, g', a, j, now); } else { assert ListEvidenced(g, g', a, j, now); }
    }
  }

  lemma ListsMarked<R>(before: State, plan: seq<Action>, registry: Registry<R>, ids: seq<Uid>, prefix: string)
    requires Prepared(before, registry, ids, prefix) && AllOwned(before, registry, prefix)
    requires Calculate(before, plan, registry, ids, prefix).Ok?
    ensures var lists := ListMap(Calculate(before, plan, registry, ids, prefix).value.state); forall j :: j in lists ==> Marked(lists[j].name, prefix)
  {
    var a := PlanEnds(before, plan, registry, ids, prefix);
    forall j | j in a.lists ensures Marked(a.lists[j].name, prefix) {
      ListMarkedAt(Start(before, ids), a, Env(before.ou, registry, prefix), j);
    }
  }

  /** After every attended plan the commit succeeds and everything in the approved state is owned:
      here, unlike in the commit of a separate verification, no condition is left. */
  lemma AttendedClosure<R>(before: State, plan: seq<Action>, g: Registry<R>, ids: seq<Uid>, prefix: string, now: int)
    requires Prepared(before, g, ids, prefix) && Remembers(g, before) && NamesUnknown(g, ids, prefix)
    requires AllOwned(before, g, prefix) && Calculate(before, plan, g, ids, prefix).Ok?
    ensures var after := Calculate(before, plan, g, ids, prefix).value.state;
      var stored := CommitPreview(g, CalculateChangeSet(before, after), now);
      stored.Ok? && AllOwned(after, stored.value, prefix)
  {
    var after := Calculate(before, plan, g, ids, prefix).value.state;
    PlanEnding(before, plan, g, ids, prefix);
    CommitIsEvidence(g, before, after, now);
    StoredIs(g, before, after, now);
    PlanMarks(before, plan, g, ids, prefix);
    ListsMarked(before, plan, g, ids, prefix);
    EvidenceOwns(g, CommitPreview(g, CalculateChangeSet(before, after), now).value, after, now, prefix);
  }

  ghost predicate UnitList<R>(g: Registry<R>, ou: string, l: AddressList) {
    || (exists r :: r in g.resources && r.ou == ou && r.listSnapshot == Some(l))
    || (exists r :: r in g.lists && r.ou == ou && r.snapshot == Some(l))
  }

  lemma PairedOfUnit<R>(g: Registry<R>, ou: string, l: AddressList)
    ensures l in PairedSnapshots(Select(g.resources, OfUnit(ou))) <==> exists r :: r in g.resources && r.ou == ou && r.listSnapshot == Some(l)
  {
    var records := Select(g.resources, OfUnit(ou));
    SelectFacts(g.resources, OfUnit(ou));
    PairedSnapshotFacts(records);
    if r :| r in g.resources && r.ou == ou && r.listSnapshot == Some(l) {
      assert r in records;
      var i :| 0 <= i < |records| && records[i] == r;
    }
    if l in PairedSnapshots(records) {
      var i :| 0 <= i < |records| && records[i].listSnapshot == Some(l);
      assert records[i] in records;
    }
  }

  lemma ListOfUnitRecords<R>(g: Registry<R>, ou: string, l: AddressList)
    ensures l in ListSnapshots(Select(g.lists, ListOfUnit(ou))) <==> exists r :: r in g.lists && r.ou == ou && r.snapshot == Some(l)
  {
    var records := Select(g.lists, ListOfUnit(ou));
    SelectFacts(g.lists, ListOfUnit(ou));
    ListSnapshotFacts(records);
    if r :| r in g.lists && r.ou == ou && r.snapshot == Some(l) {
      assert r in records;
      var i :| 0 <= i < |records| && records[i] == r;
    }
    if l in ListSnapshots(records) {
      var i :| 0 <= i < |records| && records[i].snapshot == Some(l);
      assert records[i] in records;
    }
  }

  lemma UnitListsHold<R>(g: Registry<R>, ou: string, names: set<string>)
    ensures forall l :: l in UnitLists(g, ou, names) <==> UnitList(g, ou, l) && l.name in names
  {
    var paired, own := PairedSnapshots(Select(g.resources, OfUnit(ou))), ListSnapshots(Select(g.lists, ListOfUnit(ou)));
    SelectFacts(paired, NamedIn(names));
    SelectFacts(own, NamedIn(names));
    forall l ensures l in UnitLists(g, ou, names) <==> UnitList(g, ou, l) && l.name in names {
      PairedOfUnit(g, ou, l);
      ListOfUnitRecords(g, ou, l);
      assert NamedIn(names)(l) <==> l.name in names;
    }
  }

  ghost predicate UnitRule<R>(g: Registry<R>, ou: string, rule: Rule) {
    exists r :: r in g.resources && r.ou == ou && r.ruleSnapshot == Some(rule)
  }

  /** The regenerated baseline of a unit holds exactly the recorded rules of the unit and the recorded
      lists they name; it is refused when a record has no snapshot, when a name has no list, or
      when two lists would share an ID. */
  lemma SnapshotOutcome<R>(g: Registry<R>, ou: string)
    requires Snapshot(g, ou).Ok?
    ensures var s := Snapshot(g, ou).value;
      && s.ou == ou && s.unmanaged == [] && UniqueIds(s)
      && (forall r :: r in g.resources && r.ou == ou ==> r.ruleSnapshot.Some?)
      && (forall rule :: rule in s.rules <==> UnitRule(g, ou, rule))
      && (forall l :: l in s.lists <==> UnitList(g, ou, l) && l.name in Referenced(s.rules))
      && forall n :: n in Referenced(s.rules) ==> HasList(s.lists, n)
  {
    var s := Snapshot(g, ou).value;
    var records := Select(g.resources, OfUnit(ou));
    SelectFacts(g.resources, OfUnit(ou));
    UnitListsHold(g, ou, Referenced(s.rules));
    forall rule ensures rule in s.rules <==> UnitRule(g, ou, rule) {
      if rule in s.rules {
        var i :| 0 <= i < |s.rules| && s.rules[i] == rule;
        assert records[i] in records;
      }
      if UnitRule(g, ou, rule) {
        var r :| r in g.resources && r.ou == ou && r.ruleSnapshot == Some(rule);
        assert r in records;
        var i :| 0 <= i < |records| && records[i] == r;
        assert s.rules[i] == rule;
      }
    }
    forall n | n in Referenced(s.rules) ensures HasList(s.lists, n) {
      assert n in NamesOf(s.lists);
    }
  }

  /** A unit without recorded snapshots cannot be previewed. */
  lemma MissingSnapshotRefused<R>(g: Registry<R>, ou: string, r: RuleRecord)
    requires r in g.resources && r.ou == ou && r.ruleSnapshot == None
    ensures Snapshot(g, ou).Err?
  {
    SelectFacts(g.resources, OfUnit(ou));
  }
}
