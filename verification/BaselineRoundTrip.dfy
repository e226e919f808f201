/** Committing a preview and regenerating the unit's baseline gives back the after state,
    and the registry keeps describing the unit: the property is an invariant over runs. */
module BaselineRoundTrip {
  import opened Keyed
  import opened Resources
  import opened Ownership
  import opened DesiredState
  import opened Integrity
  import opened Authorization
  import opened Diff
  import opened Closure
  import opened Succession
  import opened Baseline

  ghost predicate Unrecorded<R>(g: Registry<R>, id: Uid) {
    && id !in Index(g.resources, RuleRecordId) && id !in Index(g.lists, ListRecordId)
    && forall c :: c in g.compliance ==> c.id != id
  }

  /** The states `b` before and `a` after a verified run on a registry that described `b`. */
  ghost predicate Ending<R>(g: Registry<R>, b: State, a: State) {
    && Remembers(g, b) && LinkedState(a) && UniqueListNames(ListMap(a)) && a.ou == b.ou
    && StrictlyAscending(Keys(a.rules, RuleId))
    && (forall k :: k in RuleMap(a) ==> RuleMap(a)[k].ou == a.ou)
    && (forall k :: k in RuleMap(a) && k !in RuleMap(b) ==> Unrecorded(g, k) && k !in ListMap(b))
    && (forall j :: j in ListMap(a) && j !in ListMap(b) ==> Unrecorded(g, j))
    && (forall j, r :: j in ListMap(a) && j !in ListMap(b) && r in g.lists && r.snapshot.Some? ==> r.snapshot.value.name != ListMap(a)[j].name)
    && (forall j :: j in ListMap(a) && j in ListMap(b) ==> ListMap(a)[j].name == ListMap(b)[j].name)
  }

  /** The dictionaries the commit stores. */
  ghost predicate RecordedR<R>(g: Registry<R>, b: State, a: State, R1: map<Uid, RuleRecord>) {
    var R0, A, AL := Index(g.resources, RuleRecordId), RuleMap(a), ListMap(a);
    && R1.Keys == (R0.Keys - (RuleMap(b).Keys - A.Keys)) + A.Keys
    && (forall k :: k in R1 && k !in A ==> R1[k] == R0[k])
    && (forall k :: k in A ==> R1[k].id == k && R1[k].ou == A[k].ou && R1[k].ruleSnapshot == Some(A[k]) && R1[k].listSnapshot == Lookup(AL, k))
  }

  ghost predicate RecordedL<R>(g: Registry<R>, b: State, a: State, R1: map<Uid, RuleRecord>, L1: map<Uid, ListRecord>) {
    var L0, AL := Index(g.lists, ListRecordId), ListMap(a);
    && L1.Keys == (L0.Keys - (ListMap(b).Keys - AL.Keys)) + (AL.Keys - R1.Keys)
    && (forall j :: j in L1 && (j !in AL || j in R1) ==> L1[j] == L0[j])
    && (forall j :: j in AL && j !in R1 ==> L1[j].id == j && L1[j].ou == a.ou && L1[j].snapshot == Some(AL[j]))
  }

  ghost predicate Recorded<R>(g: Registry<R>, b: State, a: State, R1: map<Uid, RuleRecord>, L1: map<Uid, ListRecord>) {
    RecordedR(g, b, a, R1) && RecordedL(g, b, a, R1, L1)
  }

  lemma CommitRecordsRules<R>(g: Registry<R>, b: State, a: State, cs: ChangeSet, now: int)
    requires cs.after == a && IdSet(cs.rules.removed, RuleId) == RuleMap(b).Keys - RuleMap(a).Keys
    ensures RecordedR(g, b, a, RecordedRules(g, cs, now))
  {
    IndexFacts(a.rules, RuleId);
    assert forall k :: k in RuleMap(a) ==> RuleId(RuleMap(a)[k]) == k;
  }

  lemma CommitRecordsLists<R>(g: Registry<R>, b: State, a: State, cs: ChangeSet, now: int)
    requires cs.after == a && IdSet(cs.lists.removed, ListId) == ListMap(b).Keys - ListMap(a).Keys
    ensures RecordedL(g, b, a, RecordedRules(g, cs, now), RecordedLists(g, cs, now))
  {
    IndexFacts(a.lists, ListId);
    assert forall j :: j in ListMap(a) ==> ListId(ListMap(a)[j]) == j;
  }

  lemma CommitRecords<R>(g: Registry<R>, b: State, a: State, now: int)
    requires UniqueIds(b) && UniqueIds(a)
    ensures var cs := CalculateChangeSet(b, a);
      Recorded(g, b, a, RecordedRules(g, cs, now), RecordedLists(g, cs, now))
  {
    PartitionMembers(b.rules, a.rules, RuleId);
    PartitionMembers(b.lists, a.lists, ListId);
    var cs := CalculateChangeSet(b, a);
    PartIds(cs.rules.removed, RuleMap(b) - RuleMap(a).Keys, RuleId);
    PartIds(cs.lists.removed, ListMap(b) - ListMap(a).Keys, ListId);
    CommitRecordsRules(g, b, a, cs, now);
    CommitRecordsLists(g, b, a, cs, now);
  }

  /** The three kinds of evidence never share an ID. */
  lemma RegistryApart<R>(g: Registry<R>)
    requires ValidRegistry(g)
    ensures var R0, L0 := Index(g.resources, RuleRecordId), Index(g.lists, ListRecordId);
      && (forall k :: k in R0 ==> R0[k] in g.resources && R0[k].id == k && k !in L0 && forall c :: c in g.compliance ==> c.id != k)
      && (forall j :: j in L0 ==> L0[j] in g.lists && L0[j].id == j && forall c :: c in g.compliance ==> c.id != j)
  {
    IndexFacts(g.resources, RuleRecordId);
    IndexFacts(g.lists, ListRecordId);
    var R0, L0 := Index(g.resources, RuleRecordId), Index(g.lists, ListRecordId);
    assert forall k :: k in R0 ==> R0[k] in g.resources && RuleRecordId(R0[k]) == k;
    assert forall j :: j in L0 ==> L0[j] in g.lists && ListRecordId(L0[j]) == j;
  }

  /** The pure facts about the records before and after. */
  ghost predicate Facts<R>(g: Registry<R>, b: State, a: State, R1: map<Uid, RuleRecord>, L1: map<Uid, ListRecord>) {
    var A, AL := RuleMap(a), ListMap(a);
    && KeyedBy(R1, RuleRecordId) && KeyedBy(L1, ListRecordId)
    && (forall k :: k in R1 ==> (R1[k].ou == a.ou <==> k in A))
    && (forall k :: k in A ==> k in R1 && R1[k].ruleSnapshot == Some(A[k]) && R1[k].listSnapshot == Lookup(AL, k))
    && (forall j :: j in AL && j !in A ==> j !in R1 && j in L1 && L1[j].ou == a.ou && L1[j].snapshot == Some(AL[j]))
    && (forall j :: j in L1 ==> j !in A)
    && (forall j :: j in L1 && j !in AL && L1[j].ou == a.ou && L1[j].snapshot.Some? ==> forall i :: i in AL ==> L1[j].snapshot.value.name != AL[i].name)
    && (forall j :: j in L1 && L1[j].snapshot.Some? ==> L1[j].snapshot.value.id == j)
  }

  lemma RecordedRulesFacts<R>(g: Registry<R>, b: State, a: State, R1: map<Uid, RuleRecord>, L1: map<Uid, ListRecord>)
    requires Ending(g, b, a) && Recorded(g, b, a, R1, L1)
    ensures KeyedBy(R1, RuleRecordId)
    ensures forall k :: k in R1 ==> (R1[k].ou == a.ou <==> k in RuleMap(a))
    ensures forall j :: j in ListMap(a) && j !in RuleMap(a) ==> j !in R1
  {
    IndexFacts(g.resources, RuleRecordId);
    var R0, A := Index(g.resources, RuleRecordId), RuleMap(a);
    forall k | k in R1 ensures R1[k].id == k && (R1[k].ou == a.ou <==> k in A) {
      if k !in A { assert R0[k] in g.resources && RuleRecordId(R0[k]) == k; }
    }
    forall j | j in ListMap(a) && j !in A ensures j !in R1 {
      if j !in ListMap(b) { assert Unrecorded(g, j); }
    }
  }

  lemma ListRecordNotRule<R>(g: Registry<R>, b: State, a: State, j: Uid)
    requires Ending(g, b, a) && j in Index(g.lists, ListRecordId)
    ensures j !in RuleMap(a)
  {
    RegistryApart(g);
    assert forall k :: k in RuleMap(a) && k !in RuleMap(b) ==> Unrecorded(g, k);
  }

  lemma RecordedListsFacts<R>(g: Registry<R>, b: State, a: State, R1: map<Uid, RuleRecord>, L1: map<Uid, ListRecord>)
    requires Ending(g, b, a) && Recorded(g, b, a, R1, L1)
    ensures KeyedBy(L1, ListRecordId)
    ensures forall j :: j in L1 ==> j !in RuleMap(a)
    ensures forall j :: j in L1 && L1[j].snapshot.Some? ==> L1[j].snapshot.value.id == j
  {
    RegistryApart(g);
    IndexFacts(a.lists, ListId);
    forall j | j in L1 ensures L1[j].id == j && j !in RuleMap(a) && (L1[j].snapshot.Some? ==> L1[j].snapshot.value.id == j) {
      if j in ListMap(a) && j !in R1 {
        assert ListId(ListMap(a)[j]) == j;
      } else {
        ListRecordNotRule(g, b, a, j);
      }
    }
  }

  /** A remembered list that the run did not read keeps a name of its own. */
  lemma StaleNames<R>(g: Registry<R>, b: State, a: State, R1: map<Uid, RuleRecord>, L1: map<Uid, ListRecord>, j: Uid, i: Uid)
    requires Ending(g, b, a) && Recorded(g, b, a, R1, L1)
    requires j in L1 && j !in ListMap(a) && L1[j].ou == a.ou && L1[j].snapshot.Some? && i in ListMap(a)
    ensures L1[j].snapshot.value.name != ListMap(a)[i].name
  {
    IndexFacts(g.lists, ListRecordId);
    var L0 := Index(g.lists, ListRecordId);
    assert L1[j] == L0[j] && L0[j] in g.lists && ListRecordId(L0[j]) == j;
  }

  lemma EndingFacts<R>(g: Registry<R>, b: State, a: State, R1: map<Uid, RuleRecord>, L1: map<Uid, ListRecord>)
    requires Ending(g, b, a) && Recorded(g, b, a, R1, L1)
    ensures Facts(g, b, a, R1, L1)
  {
    RecordedRulesFacts(g, b, a, R1, L1);
    RecordedListsFacts(g, b, a, R1, L1);
    forall j, i | j in L1 && j !in ListMap(a) && L1[j].ou == a.ou && L1[j].snapshot.Some? && i in ListMap(a)
      ensures L1[j].snapshot.value.name != ListMap(a)[i].name
    {
      StaleNames(g, b, a, R1, L1, j, i);
    }
  }

  lemma SetsApart(r0: set<Uid>, l0: set<Uid>, a: set<Uid>, al: set<Uid>, r1: set<Uid>, l1: set<Uid>)
    requires r0 !! l0 && a !! l0 && r1 <= r0 + a && l1 <= l0 + (al - r1)
    ensures r1 !! l1
  {
  }

  lemma RegistryKeysApart<R>(g: Registry<R>)
    requires ValidRegistry(g)
    ensures Index(g.resources, RuleRecordId).Keys !! Index(g.lists, ListRecordId).Keys
  {
    RegistryApart(g);
  }

  lemma ListKeysNotRules<R>(g: Registry<R>, b: State, a: State)
    requires Ending(g, b, a)
    ensures RuleMap(a).Keys !! Index(g.lists, ListRecordId).Keys
  {
    forall j | j in Index(g.lists, ListRecordId).Keys ensures j !in RuleMap(a).Keys { ListRecordNotRule(g, b, a, j); }
  }

  lemma RecordedKeys<R>(g: Registry<R>, b: State, a: State, R1: map<Uid, RuleRecord>, L1: map<Uid, ListRecord>)
    requires Recorded(g, b, a, R1, L1)
    ensures R1.Keys <= Index(g.resources, RuleRecordId).Keys + RuleMap(a).Keys
    ensures L1.Keys <= Index(g.lists, ListRecordId).Keys + (ListMap(a).Keys - R1.Keys)
  {
  }

  lemma RecordsApart<R>(g: Registry<R>, b: State, a: State, R1: map<Uid, RuleRecord>, L1: map<Uid, ListRecord>)
    requires Ending(g, b, a) && Recorded(g, b, a, R1, L1)
    ensures R1.Keys !! L1.Keys
  {
    RegistryKeysApart(g);
    ListKeysNotRules(g, b, a);
    RecordedKeys(g, b, a, R1, L1);
    SetsApart(Index(g.resources, RuleRecordId).Keys, Index(g.lists, ListRecordId).Keys, RuleMap(a).Keys,
        ListMap(a).Keys, R1.Keys, L1.Keys);
  }

  ghost predicate NotCompliance<R>(g: Registry<R>, id: Uid) { forall c :: c in g.compliance ==> c.id != id }

  lemma ObservedNotCompliance<R>(g: Registry<R>, b: State, a: State, id: Uid)
    requires Ending(g, b, a) && (id in RuleMap(a) || id in ListMap(a))
    ensures NotCompliance(g, id)
  {
    RegistryApart(g);
    if id in RuleMap(a) && id !in RuleMap(b) {
      assert Unrecorded(g, id);
    } else if id in ListMap(a) && id !in ListMap(b) {
      assert Unrecorded(g, id);
    }
  }

  lemma ComplianceApart<R>(g: Registry<R>, b: State, a: State, R1: map<Uid, RuleRecord>, L1: map<Uid, ListRecord>, id: Uid)
    requires Ending(g, b, a) && Recorded(g, b, a, R1, L1)
    requires id in R1 || id in L1
    ensures NotCompliance(g, id)
  {
    if id in RuleMap(a) || id in ListMap(a) {
      ObservedNotCompliance(g, b, a, id);
    } else {
      RegistryApart(g);
      assert id in Index(g.resources, RuleRecordId) || id in Index(g.lists, ListRecordId);
    }
  }

  lemma StoredIsValid<R>(g: Registry<R>, b: State, a: State, R1: map<Uid, RuleRecord>, L1: map<Uid, ListRecord>)
    requires Ending(g, b, a) && Recorded(g, b, a, R1, L1) && Facts(g, b, a, R1, L1)
    ensures ValidRegistry(Registry(Listing(R1), Listing(L1), g.compliance))
  {
    RecordsApart(g, b, a, R1, L1);
    assert forall k :: k in R1 ==> k !in L1;
    forall id | id in R1 || id in L1 ensures NotCompliance(g, id) { ComplianceApart(g, b, a, R1, L1, id); }
    ListingFacts(R1, RuleRecordId);
    ListingFacts(L1, ListRecordId);
    forall x | x in Listing(R1) ensures x.id in R1 { assert RuleRecordId(x) in R1; }
    forall x | x in Listing(L1) ensures x.id in L1 { assert ListRecordId(x) in L1; }
  }

  lemma SnapshotsPresent(n: map<Uid, RuleRecord>, A: map<Uid, Rule>)
    requires n.Keys == A.Keys && forall k :: k in n ==> n[k].ruleSnapshot == Some(A[k])
    ensures forall r :: r in Listing(n) ==> r.ruleSnapshot.Some?
  {
    ListingMembers(n);
  }

  lemma ListingAt<T>(m: map<Uid, T>, i: nat)
    requires i < |Enumerate(m.Keys)|
    ensures |Listing(m)| == |Enumerate(m.Keys)| && Enumerate(m.Keys)[i] in m && Listing(m)[i] == m[Enumerate(m.Keys)[i]]
  {
    EnumerateFacts(m.Keys);
    assert Enumerate(m.Keys)[i] in Enumerate(m.Keys);
  }

  lemma SnapshotsOfListing(n: map<Uid, RuleRecord>, A: map<Uid, Rule>)
    requires n.Keys == A.Keys && forall k :: k in n ==> n[k].ruleSnapshot == Some(A[k])
    requires forall r :: r in Listing(n) ==> r.ruleSnapshot.Some?
    ensures RuleSnapshots(Listing(n)) == Listing(A)
  {
    var s, t := RuleSnapshots(Listing(n)), Listing(A);
    assert |s| == |Enumerate(n.Keys)| && |t| == |s|;
    forall i | 0 <= i < |s| ensures s[i] == t[i] {
      ListingAt(n, i);
      ListingAt(A, i);
    }
  }

  /** The unit's rule records, in order, are the after state's rules. */
  lemma UnitRules<R>(g: Registry<R>, b: State, a: State, R1: map<Uid, RuleRecord>, L1: map<Uid, ListRecord>)
    requires Facts(g, b, a, R1, L1) && StrictlyAscending(Keys(a.rules, RuleId))
    ensures var records := Select(Listing(R1), OfUnit(a.ou));
      && (forall r :: r in records ==> r.ruleSnapshot.Some? && r.id in RuleMap(a) && r == R1[r.id])
      && (forall k :: k in RuleMap(a) ==> R1[k] in records)
      && RuleSnapshots(records) == a.rules
      && UniqueKeys(records, RuleRecordId)
  {
    var n := Restrict(R1, OfUnit(a.ou));
    SelectListing(R1, OfUnit(a.ou), RuleRecordId);
    ListingOfIndex(a.rules, RuleId);
    assert n.Keys == RuleMap(a).Keys;
    SnapshotsPresent(n, RuleMap(a));
    SnapshotsOfListing(n, RuleMap(a));
    ListingFacts(n, RuleRecordId);
    forall r | r in Listing(n) ensures r.id in RuleMap(a) && r == R1[r.id] { assert RuleRecordId(r) in n; }
    forall k | k in RuleMap(a) ensures R1[k] in Listing(n) { assert n[k] == R1[k]; }
  }

  lemma ReferencedMembers(rules: seq<Rule>)
    ensures forall n :: n in Referenced(rules) <==> exists i :: 0 <= i < |rules| && n in Refs(rules[i])
  {
  }

  lemma UnitListsFacts<R>(g: Registry<R>, b: State, a: State, R1: map<Uid, RuleRecord>, L1: map<Uid, ListRecord>,
      records: seq<RuleRecord>)
    requires Facts(g, b, a, R1, L1) && LinkedState(a)
    requires UniqueKeys(records, RuleRecordId)
    requires forall r :: r in records ==> r.id in RuleMap(a) && r == R1[r.id]
    requires forall k :: k in RuleMap(a) ==> R1[k] in records
    ensures var named := NamedIn(Referenced(a.rules));
      var lists := Select(PairedSnapshots(records), named) + Select(ListSnapshots(Select(Listing(L1), ListOfUnit(a.ou))), named);
      && UniqueKeys(lists, ListId)
      && (forall l :: l in lists ==> l.id in ListMap(a) && ListMap(a)[l.id] == l && l.name in Referenced(a.rules))
      && (forall j :: j in ListMap(a) && ListMap(a)[j].name in Referenced(a.rules) ==> ListMap(a)[j] in lists)
  {
    PairedPart(g, b, a, R1, L1, records);
    RestPart(g, b, a, R1, L1);
    var named := NamedIn(Referenced(a.rules));
    var paired, rest := PairedSnapshots(records), ListSnapshots(Select(Listing(L1), ListOfUnit(a.ou)));
    SelectFacts(paired, named);
    SelectFacts(rest, named);
    SelectUniqueLists(paired, named);
    SelectUniqueLists(rest, named);
    JoinUnique(Select(paired, named), Select(rest, named));
  }

  lemma {:induction false} SelectUniqueLists(s: seq<AddressList>, p: AddressList -> bool)
    requires UniqueKeys(s, ListId)
    ensures UniqueKeys(Select(s, p), ListId)
  {
    if s != [] {
      var rest := Select(s[1..], p);
      SelectUniqueLists(s[1..], p);
      SelectFacts(s[1..], p);
      forall j | 0 <= j < |rest| ensures ListId(rest[j]) != ListId(s[0]) {
        assert rest[j] in rest && rest[j] in s[1..];
        var n :| 0 <= n < |s[1..]| && s[1..][n] == rest[j];
        assert s[n + 1] == rest[j];
      }
    }
  }

  lemma JoinUnique(s: seq<AddressList>, t: seq<AddressList>)
    requires UniqueKeys(s, ListId) && UniqueKeys(t, ListId)
    requires forall x, y :: x in s && y in t ==> x.id != y.id
    ensures UniqueKeys(s + t, ListId)
  {
    var u := s + t;
    forall i, j | 0 <= i < j < |u| ensures ListId(u[i]) != ListId(u[j]) {
      if i < |s| && j >= |s| { assert u[i] in s && u[j] == t[j - |s|] && t[j - |s|] in t; }
    }
  }

  lemma PairedPart<R>(g: Registry<R>, b: State, a: State, R1: map<Uid, RuleRecord>, L1: map<Uid, ListRecord>,
      records: seq<RuleRecord>)
    requires Facts(g, b, a, R1, L1) && LinkedState(a)
    requires UniqueKeys(records, RuleRecordId)
    requires forall r :: r in records ==> r.id in RuleMap(a) && r == R1[r.id]
    requires forall k :: k in RuleMap(a) ==> R1[k] in records
    ensures UniqueKeys(PairedSnapshots(records), ListId)
    ensures forall l :: l in PairedSnapshots(records) ==> l.id in RuleMap(a) && l.id in ListMap(a) && ListMap(a)[l.id] == l
    ensures forall j :: j in ListMap(a) && j in RuleMap(a) ==> ListMap(a)[j] in PairedSnapshots(records)
  {
    IndexFacts(a.lists, ListId);
    PairedSnapshotFacts(records);
    assert forall j :: j in ListMap(a) ==> ListId(ListMap(a)[j]) == j;
    forall i | 0 <= i < |records| && records[i].listSnapshot.Some? ensures records[i].listSnapshot.value.id == records[i].id {
      assert records[i] in records;
    }
    PairedSnapshotsUnique(records);
    forall l | l in PairedSnapshots(records) ensures l.id in RuleMap(a) && l.id in ListMap(a) && ListMap(a)[l.id] == l {
      var i :| 0 <= i < |records| && records[i].listSnapshot == Some(l);
      assert records[i] in records;
    }
    forall j | j in ListMap(a) && j in RuleMap(a) ensures ListMap(a)[j] in PairedSnapshots(records) {
      var i :| 0 <= i < |records| && records[i] == R1[j];
      assert records[i].listSnapshot == Some(ListMap(a)[j]);
    }
  }

  lemma UnitListRecords<R>(g: Registry<R>, b: State, a: State, R1: map<Uid, RuleRecord>, L1: map<Uid, ListRecord>)
    requires Facts(g, b, a, R1, L1)
    ensures var records := Select(Listing(L1), ListOfUnit(a.ou));
      && UniqueKeys(records, ListRecordId)
      && (forall r :: r in records ==> r.id in L1 && L1[r.id] == r && r.ou == a.ou)
      && (forall j :: j in L1 && L1[j].ou == a.ou ==> L1[j] in records)
  {
    var p := ListOfUnit(a.ou);
    ListingFacts(L1, ListRecordId);
    SelectIndex(L1, p, ListRecordId);
    ListingOfIndex(Select(Listing(L1), p), ListRecordId);
    SelectFacts(Listing(L1), p);
    forall r | r in Select(Listing(L1), p) ensures r.id in L1 && L1[r.id] == r { assert ListRecordId(r) in L1; }
  }

  lemma RestPart<R>(g: Registry<R>, b: State, a: State, R1: map<Uid, RuleRecord>, L1: map<Uid, ListRecord>)
    requires Facts(g, b, a, R1, L1) && LinkedState(a)
    ensures var rest := ListSnapshots(Select(Listing(L1), ListOfUnit(a.ou)));
      && UniqueKeys(rest, ListId)
      && (forall l :: l in rest ==> l.id !in RuleMap(a) && (l.name in Referenced(a.rules) ==> l.id in ListMap(a) && ListMap(a)[l.id] == l))
      && (forall j :: j in ListMap(a) && j !in RuleMap(a) ==> ListMap(a)[j] in rest)
  {
    var records := Select(Listing(L1), ListOfUnit(a.ou));
    UnitListRecords(g, b, a, R1, L1);
    ListSnapshotFacts(records);
    forall i | 0 <= i < |records| && records[i].snapshot.Some? ensures records[i].snapshot.value.id == records[i].id {
      assert records[i] in records;
    }
    ListSnapshotsUnique(records);
    forall l | l in ListSnapshots(records)
      ensures l.id !in RuleMap(a) && (l.name in Referenced(a.rules) ==> l.id in ListMap(a) && ListMap(a)[l.id] == l)
    {
      var i :| 0 <= i < |records| && records[i].snapshot == Some(l);
      assert records[i] in records;
      UnitListIsCurrent(g, b, a, R1, L1, records[i].id);
    }
    forall j | j in ListMap(a) && j !in RuleMap(a) ensures ListMap(a)[j] in ListSnapshots(records) {
      assert L1[j] in records;
      var i :| 0 <= i < |records| && records[i] == L1[j];
    }
  }

  lemma UnitListIsCurrent<R>(g: Registry<R>, b: State, a: State, R1: map<Uid, RuleRecord>, L1: map<Uid, ListRecord>, j: Uid)
    requires Facts(g, b, a, R1, L1) && LinkedState(a)
    requires j in L1 && L1[j].ou == a.ou && L1[j].snapshot.Some?
    ensures j !in RuleMap(a) && L1[j].snapshot.value.id == j
    ensures L1[j].snapshot.value.name in Referenced(a.rules) ==> j in ListMap(a) && ListMap(a)[j] == L1[j].snapshot.value
  {
    if L1[j].snapshot.value.name in Referenced(a.rules) {
      ReferencedIsListed(a, L1[j].snapshot.value.name);
    }
  }

  lemma ReferencedIsListed(a: State, n: string)
    requires LinkedState(a) && n in Referenced(a.rules)
    ensures exists j :: j in ListMap(a) && ListMap(a)[j].name == n
  {
    ReferencedMembers(a.rules);
    IndexFacts(a.rules, RuleId);
    var i :| 0 <= i < |a.rules| && n in Refs(a.rules[i]);
    var k := RuleId(a.rules[i]);
    assert RuleLinked(RuleMap(a)[k], k, ListMap(a));
    var j :| IsOnlyNamed(ListMap(a), n, j);
  }

  function NamedLists(a: State): map<Uid, AddressList> {
    map j | j in ListMap(a) && ListMap(a)[j].name in Referenced(a.rules) :: ListMap(a)[j]
  }

  lemma NamesMatch(a: State, lists: seq<AddressList>)
    requires LinkedState(a)
    requires forall l :: l in lists ==> l.id in ListMap(a) && ListMap(a)[l.id] == l && l.name in Referenced(a.rules)
    requires forall j :: j in ListMap(a) && ListMap(a)[j].name in Referenced(a.rules) ==> ListMap(a)[j] in lists
    ensures NamesOf(lists) == Referenced(a.rules)
  {
    forall n | n in Referenced(a.rules) ensures n in NamesOf(lists) {
      ReferencedIsListed(a, n);
      var j :| j in ListMap(a) && ListMap(a)[j].name == n;
      var i :| 0 <= i < |lists| && lists[i] == ListMap(a)[j];
    }
    forall n | n in NamesOf(lists) ensures n in Referenced(a.rules) {
      var i :| 0 <= i < |lists| && lists[i].name == n;
      assert lists[i] in lists;
    }
  }

  /** The regenerated baseline of the committed registry. */
  lemma SnapshotOfRecorded<R>(g: Registry<R>, b: State, a: State, R1: map<Uid, RuleRecord>, L1: map<Uid, ListRecord>)
    requires Ending(g, b, a) && Facts(g, b, a, R1, L1)
    ensures var r := Snapshot(Registry(Listing(R1), Listing(L1), g.compliance), a.ou);
      && r.Ok? && r.value.ou == a.ou && r.value.rules == a.rules && r.value.unmanaged == []
      && UniqueIds(r.value) && ListMap(r.value) == NamedLists(a)
  {
    var stored := Registry(Listing(R1), Listing(L1), g.compliance);
    UnitRules(g, b, a, R1, L1);
    UnitListsFacts(g, b, a, R1, L1, Select(Listing(R1), OfUnit(a.ou)));
    var lists := UnitLists(stored, a.ou, Referenced(a.rules));
    NamesMatch(a, lists);
    NamedAreIndexed(a, lists);
    ListingOfIndex(a.rules, RuleId);
    SnapshotIs(stored, State(a.ou, a.rules, lists, []));
  }

  lemma NamedAreIndexed(a: State, lists: seq<AddressList>)
    requires UniqueIds(a) && UniqueKeys(lists, ListId)
    requires forall l :: l in lists ==> l.id in ListMap(a) && ListMap(a)[l.id] == l && l.name in Referenced(a.rules)
    requires forall j :: j in ListMap(a) && ListMap(a)[j].name in Referenced(a.rules) ==> ListMap(a)[j] in lists
    ensures Index(lists, ListId) == NamedLists(a)
  {
    IndexFacts(a.lists, ListId);
    IndexIs(lists, NamedLists(a), ListId);
  }

  /** A snapshot is what the records say when no check stops it. */
  lemma SnapshotIs<R>(g: Registry<R>, s: State)
    requires forall r :: r in Select(g.resources, OfUnit(s.ou)) ==> r.ruleSnapshot.Some?
    requires RuleSnapshots(Select(g.resources, OfUnit(s.ou))) == s.rules && s.unmanaged == []
    requires UnitLists(g, s.ou, Referenced(s.rules)) == s.lists && NamesOf(s.lists) == Referenced(s.rules) && UniqueIds(s)
    ensures Snapshot(g, s.ou) == Ok(s)
  {
  }

  /** What other units have on record stays as it was. */
  ghost predicate OtherUnitsKept<R>(g: Registry<R>, g': Registry<R>, ou: string) {
    && (forall r :: r in g.resources && r.ou != ou ==> Lookup(Index(g'.resources, RuleRecordId), r.id) == Some(r))
    && (forall r :: r in g.lists && r.ou != ou ==> Lookup(Index(g'.lists, ListRecordId), r.id) == Some(r))
    && g'.compliance == g.compliance
  }

  lemma OtherUnits<R>(g: Registry<R>, b: State, a: State, R1: map<Uid, RuleRecord>, L1: map<Uid, ListRecord>)
    requires Ending(g, b, a) && Recorded(g, b, a, R1, L1) && Facts(g, b, a, R1, L1)
    ensures OtherUnitsKept(g, Registry(Listing(R1), Listing(L1), g.compliance), a.ou)
  {
    IndexOfListing(R1, RuleRecordId);
    IndexOfListing(L1, ListRecordId);
    forall r | r in g.resources && r.ou != a.ou ensures Lookup(R1, r.id) == Some(r) { OtherRuleRecord(g, b, a, R1, r); }
    forall r | r in g.lists && r.ou != a.ou ensures Lookup(L1, r.id) == Some(r) { OtherListRecord(g, b, a, R1, L1, r); }
  }

  lemma RecordIndexed<T>(s: seq<T>, key: T -> Uid, r: T)
    requires UniqueKeys(s, key) && r in s
    ensures Lookup(Index(s, key), key(r)) == Some(r)
  {
    IndexFacts(s, key);
    var i :| 0 <= i < |s| && s[i] == r;
    assert Index(s, key)[key(s[i])] == s[i];
  }

  lemma OtherRuleRecord<R>(g: Registry<R>, b: State, a: State, R1: map<Uid, RuleRecord>, r: RuleRecord)
    requires Ending(g, b, a) && RecordedR(g, b, a, R1) && r in g.resources && r.ou != a.ou
    ensures Lookup(R1, r.id) == Some(r)
  {
    RecordIndexed(g.resources, RuleRecordId, r);
    assert r.id !in RuleMap(b);
  }

  lemma OtherListRecord<R>(g: Registry<R>, b: State, a: State, R1: map<Uid, RuleRecord>, L1: map<Uid, ListRecord>, r: ListRecord)
    requires Ending(g, b, a) && RecordedL(g, b, a, R1, L1) && r in g.lists && r.ou != a.ou
    ensures Lookup(L1, r.id) == Some(r)
  {
    RecordIndexed(g.lists, ListRecordId, r);
    assert r.id !in ListMap(b);
  }

  lemma LinkedAmongNamed(a: State, k: Uid)
    requires LinkedState(a) && k in RuleMap(a)
    ensures RuleLinked(RuleMap(a)[k], k, NamedLists(a))
  {
    var r, AL, N := RuleMap(a)[k], ListMap(a), NamedLists(a);
    IndexFacts(a.rules, RuleId);
    ReferencedMembers(a.rules);
    assert RuleLinked(r, k, AL) && r in a.rules;
    var i :| 0 <= i < |a.rules| && a.rules[i] == r;
    forall n | n in Refs(r) ensures exists j :: IsOnlyNamed(N, n, j) && IsOnlyNamed(AL, n, j) {
      assert n in Refs(a.rules[i]);
      var j :| IsOnlyNamed(AL, n, j);
      assert IsOnlyNamed(N, n, j);
    }
    assert r.listNames[0] in Refs(r);
  }

  lemma SnapshotLinked(a: State, s: State)
    requires LinkedState(a) && UniqueIds(s) && s.rules == a.rules && ListMap(s) == NamedLists(a)
    ensures LinkedState(s)
  {
    forall k | k in RuleMap(a) ensures RuleLinked(RuleMap(a)[k], k, NamedLists(a)) { LinkedAmongNamed(a, k); }
  }

  /** The registry goes on describing the unit. */
  lemma StillRemembers<R>(g: Registry<R>, b: State, a: State, R1: map<Uid, RuleRecord>, L1: map<Uid, ListRecord>, s: State)
    requires Ending(g, b, a) && Recorded(g, b, a, R1, L1) && Facts(g, b, a, R1, L1)
    requires s.ou == a.ou && s.rules == a.rules && UniqueIds(s) && ListMap(s) == NamedLists(a)
    ensures Remembers(Registry(Listing(R1), Listing(L1), g.compliance), s)
  {
    StoredIsValid(g, b, a, R1, L1);
    SnapshotLinked(a, s);
    IndexOfListing(R1, RuleRecordId);
    ListingFacts(R1, RuleRecordId);
    ListingFacts(L1, ListRecordId);
    forall r | r in Listing(R1) ensures r.ou == s.ou <==> r.id in RuleMap(s) { assert RuleRecordId(r) in R1 && R1[r.id] == r; }
    forall r | r in Listing(L1) ensures r.id in L1 && L1[r.id] == r { assert ListRecordId(r) in L1; }
    forall j | j in ListMap(s) ensures NotCompliance(g, j) { ObservedNotCompliance(g, b, a, j); }
    forall r, j | r in Listing(L1) && r.ou == s.ou && r.snapshot.Some? && r.id !in ListMap(s) && j in ListMap(s)
      ensures r.snapshot.value.name != ListMap(s)[j].name
    {
      if r.id in ListMap(a) { assert r.id !in RuleMap(a); }
    }
  }

  lemma PlanEnding<R>(before: State, plan: seq<Action>, g: Registry<R>, ids: seq<Uid>, prefix: string)
    requires Prepared(before, g, ids, prefix) && Remembers(g, before) && NamesUnknown(g, ids, prefix)
    requires Calculate(before, plan, g, ids, prefix).Ok?
    ensures Ending(g, before, Calculate(before, plan, g, ids, prefix).value.state)
  {
    var after := Calculate(before, plan, g, ids, prefix).value.state;
    var a := PlanEnds(before, plan, g, ids, prefix);
    PlanKeepsIntegrity(before, plan, g, ids, prefix);
    PlanTouchesOnlyOwned(before, plan, g, ids, prefix);
    PlanAscending(before, plan, g, ids, prefix);
    NewAreUnrecorded(before, g, ids, prefix, a);
    PlanKeepsUnit(before, g, ids, prefix, a);
    PlanKeepsListNames(before, g, ids, prefix, a);
  }

  lemma PlanKeepsUnit<R>(before: State, g: Registry<R>, ids: seq<Uid>, prefix: string, a: Work)
    requires Remembers(g, before) && Setting(Start(before, ids), a, Env(before.ou, g, prefix))
    ensures forall k :: k in a.rules ==> a.rules[k].ou == before.ou
  {
    forall k | k in a.rules ensures a.rules[k].ou == before.ou {
      if k in RuleMap(before) { assert RuleFramed(RuleMap(before)[k], Lookup(a.rules, k), Env(before.ou, g, prefix)); }
    }
  }

  lemma PlanKeepsListNames<R>(before: State, g: Registry<R>, ids: seq<Uid>, prefix: string, a: Work)
    requires NamesUnknown(g, ids, prefix) && Setting(Start(before, ids), a, Env(before.ou, g, prefix))
    ensures forall j :: j in a.lists && j in ListMap(before) ==> a.lists[j].name == ListMap(before)[j].name
    ensures forall j, r :: j in a.lists && j !in ListMap(before) && r in g.lists && r.snapshot.Some? ==> r.snapshot.value.name != a.lists[j].name
  {
    forall j | j in a.lists && j in ListMap(before) ensures a.lists[j].name == ListMap(before)[j].name {
      assert ListFramed(ListMap(before)[j], Lookup(a.lists, j), Env(before.ou, g, prefix));
    }
    forall j, r | j in a.lists && j !in ListMap(before) && r in g.lists && r.snapshot.Some? ensures r.snapshot.value.name != a.lists[j].name {
      assert NewName(a.lists[j].name, j, ids, prefix);
      assert !NewName(r.snapshot.value.name, j, ids, prefix);
    }
  }

  lemma PlanAscending<R>(before: State, plan: seq<Action>, g: Registry<R>, ids: seq<Uid>, prefix: string)
    requires Calculate(before, plan, g, ids, prefix).Ok?
    ensures StrictlyAscending(Keys(Calculate(before, plan, g, ids, prefix).value.state.rules, RuleId))
  {
    StartKeyed(before, ids);
    RunKeyed(Start(before, ids), plan, Env(before.ou, g, prefix));
    ListingFacts(Run(Start(before, ids), plan, Env(before.ou, g, prefix)).value.rules, RuleId);
  }

  lemma NewAreUnrecorded<R>(before: State, g: Registry<R>, ids: seq<Uid>, prefix: string, a: Work)
    requires Prepared(before, g, ids, prefix) && Setting(Start(before, ids), a, Env(before.ou, g, prefix))
    ensures forall k :: k in a.rules && k !in RuleMap(before) ==> Unrecorded(g, k) && k !in ListMap(before)
    ensures forall j :: j in a.lists && j !in ListMap(before) ==> Unrecorded(g, j)
  {
    IndexFacts(g.resources, RuleRecordId);
    IndexFacts(g.lists, ListRecordId);
    forall id | id in ids ensures Unrecorded(g, id) {}
    forall j | j in a.lists && j !in ListMap(before) ensures j in ids { assert NewName(a.lists[j].name, j, ids, prefix); }
  }

  /** Committing a verified plan cannot fail; the snapshot then regenerated for the unit is the
      after state's rules in order with exactly the lists some rule names; every other unit's
      records are as they were; and the new registry describes the new snapshot, so the next
      run starts from the same premise. */
  lemma CommitThenSnapshot<R>(before: State, plan: seq<Action>, g: Registry<R>, ids: seq<Uid>, prefix: string, now: int)
    requires Prepared(before, g, ids, prefix) && Remembers(g, before) && NamesUnknown(g, ids, prefix)
    requires Calculate(before, plan, g, ids, prefix).Ok?
    ensures var after := Calculate(before, plan, g, ids, prefix).value.state;
      var stored := CommitPreview(g, CalculateChangeSet(before, after), now);
      && stored.Ok? && OtherUnitsKept(g, stored.value, before.ou)
      && var s := Snapshot(stored.value, before.ou);
         s.Ok? && s.value.rules == after.rules && ListMap(s.value) == NamedLists(after) && Remembers(stored.value, s.value)
  {
    var after := Calculate(before, plan, g, ids, prefix).value.state;
    PlanEnding(before, plan, g, ids, prefix);
    CommitAndSnapshot(g, before, after, now);
  }

  /** What a stored pair of dictionaries gives back for the unit. */
  lemma RecordsGiveBack<R>(g: Registry<R>, b: State, a: State, R1: map<Uid, RuleRecord>, L1: map<Uid, ListRecord>)
    requires Ending(g, b, a) && Recorded(g, b, a, R1, L1)
    ensures var stored := Registry(Listing(R1), Listing(L1), g.compliance);
      && ValidRegistry(stored) && OtherUnitsKept(g, stored, a.ou)
      && var s := Snapshot(stored, a.ou);
         s.Ok? && s.value.rules == a.rules && ListMap(s.value) == NamedLists(a) && Remembers(stored, s.value)
  {
    EndingFacts(g, b, a, R1, L1);
    StoredIsValid(g, b, a, R1, L1);
    OtherUnits(g, b, a, R1, L1);
    SnapshotOfRecorded(g, b, a, R1, L1);
    StillRemembers(g, b, a, R1, L1, Snapshot(Registry(Listing(R1), Listing(L1), g.compliance), a.ou).value);
  }

  lemma CommitAndSnapshot<R>(g: Registry<R>, b: State, a: State, now: int)
    requires Ending(g, b, a)
    ensures var stored := CommitPreview(g, CalculateChangeSet(b, a), now);
      && stored.Ok? && OtherUnitsKept(g, stored.value, a.ou)
      && var s := Snapshot(stored.value, a.ou);
         s.Ok? && s.value.rules == a.rules && ListMap(s.value) == NamedLists(a) && Remembers(stored.value, s.value)
  {
    var cs := CalculateChangeSet(b, a);
    CommitRecords(g, b, a, now);
    RecordsGiveBack(g, b, a, RecordedRules(g, cs, now), RecordedLists(g, cs, now));
  }
}
