/** The content-compliance fold as the program runs it, and the registry as the source of the
    expected compliance rules. */
module ComplianceFold {
  import opened Keyed
  import opened Ownership
  import opened DesiredState
  import opened Diff
  import opened Compliance

  class ComplianceFold<!C> {
    const env: CEnv<C>
    var rules: map<Uid, CRule<C>>
    var ids: seq<Uid>

    ghost function View(): CWork<C>
      reads this
    {
      CWork(rules, ids)
    }

    constructor (before: CState<C>, ids: seq<Uid>, env: CEnv<C>)
      ensures View() == CWork(Index(before.rules, CRuleId), ids) && this.env == env
    {
      this.env, rules, this.ids := env, Index(before.rules, CRuleId), ids;
    }

    /** Looks a target up and insists that it is owned and not inherited. */
    method Require(id: Uid) returns (r: Outcome<CRule<C>>)
      ensures r == Editable(id, View(), env)
    {
      if id !in rules { return Err(AmbiguousTarget); }
      if !OwnedCompliance(rules[id], env.registry, env.prefix) { return Err(OwnershipNotEstablished); }
      if rules[id].inherited { return Err(AmbiguousTarget); }
      return Ok(rules[id]);
    }

    method CreateRule(d: Draft<C>) returns (r: Outcome<()>)
      modifies this
      ensures r.Ok? ==> CStep(old(View()), CreateCompliance(d), env) == Ok(View())
      ensures r.Err? ==> CStep(old(View()), CreateCompliance(d), env) == Err(r.error)
    {
      if ids == [] { return Err(IdsExhausted); }
      var id := ids[0];
      ids := ids[1..];
      if id in rules { return Err(IdTaken); }
      var rule := CRule(id, ComplianceName(env.prefix, id), d.unit, d.content, d.enabled || d.inherited, d.inherited);
      if !env.accepted(d.content) { return Err(AmbiguousTarget); }
      rules := rules[id := rule];
      return Ok(());
    }

    method Apply(a: CAction<C>) returns (r: Outcome<()>)
      modifies this
      ensures r.Ok? ==> CStep(old(View()), a, env) == Ok(View())
      ensures r.Err? ==> CStep(old(View()), a, env) == Err(r.error)
    {
      match a {
        case CreateCompliance(d) => r := CreateRule(d);
        case UpdateCompliance(target, rule) =>
          var current :- Require(target);
          if rule.unit != current.unit { return Err(AmbiguousTarget); }
          if !env.accepted(rule.content) { return Err(AmbiguousTarget); }
          rules := rules[current.id := rule.(name := current.name)];
          r := Ok(());
        case RemoveCompliance(target) =>
          var current :- Require(target);
          rules := rules - {current.id};
          r := Ok(());
        case EnableCompliance(target, enabled) =>
          var current :- Require(target);
          rules := rules[current.id := current.(enabled := enabled)];
          r := Ok(());
        case ListCompliance => r := Ok(());
        case OtherAction => r := Ok(());
      }
    }

    /** The action loop of `calculate_compliance_desired_state`. */
    method ApplyAll(plan: seq<CAction<C>>) returns (r: Outcome<()>)
      modifies this
      ensures r.Ok? ==> CRun(old(View()), plan, env) == Ok(View())
      ensures r.Err? ==> CRun(old(View()), plan, env) == Err(r.error)
    {
      for n := 0 to |plan|
        invariant CRun(old(View()), plan, env) == CRun(View(), plan[n..], env)
      {
        assert plan[n..][0] == plan[n] && plan[n..][1..] == plan[n + 1..];
        r := Apply(plan[n]);
        if r.Err? { return r; }
      }
      assert plan[|plan|..] == [];
      return Ok(());
    }
  }

  function RecordFor<C>(rule: CRule<C>, existing: Option<ComplianceRecord<CRule<C>>>, now: int): ComplianceRecord<CRule<C>> {
    ComplianceRecord(rule.id, rule.name, rule.unit.path, if existing.Some? then existing.value.createdAt else now, Some(rule))
  }

  ghost function KeptRecords<C>(g: CRegistry<C>, removed: set<Uid>): map<Uid, ComplianceRecord<CRule<C>>> {
    Index(g.compliance, ComplianceRecordId) - removed
  }

  ghost function RecordedCompliance<C>(g: CRegistry<C>, removed: set<Uid>, after: CState<C>, now: int): map<Uid,
      ComplianceRecord<CRule<C>>> {
    var kept, rules := KeptRecords(g, removed), Index(after.rules, CRuleId);
    kept + map k | k in rules :: RecordFor(rules[k], Lookup(kept, k), now)
  }

  /** `_commit_ownership` of a content-compliance preview. */
  ghost function CommitCompliance<C>(g: CRegistry<C>, removed: set<Uid>, after: CState<C>, now: int): Outcome<CRegistry<C>> {
    var stored := g.(compliance := Listing(RecordedCompliance(g, removed, after, now)));
    var _ :- Check(ValidRegistry(stored), IdTaken);
    Ok(stored)
  }

  function Snapshots<C>(records: seq<ComplianceRecord<CRule<C>>>): seq<CRule<C>>
    requires forall r :: r in records ==> r.snapshot.Some?
  {
    seq(|records|, i requires 0 <= i < |records| => records[i].snapshot.value)
  }

  /** `_compliance_snapshot` */
  ghost function ComplianceSnapshot<C>(g: CRegistry<C>): Outcome<seq<CRule<C>>> {
    var _ :- Check(forall r :: r in g.compliance ==> r.snapshot.Some?, AmbiguousTarget);
    Ok(Snapshots(g.compliance))
  }

  lemma RecordedKeyed<C>(g: CRegistry<C>, removed: set<Uid>, after: CState<C>, now: int)
    ensures KeyedBy(RecordedCompliance(g, removed, after, now), ComplianceRecordId)
    ensures RecordedCompliance(g, removed, after, now).Keys == KeptRecords(g, removed).Keys + Index(after.rules, CRuleId).Keys
  {
    IndexFacts(g.compliance, ComplianceRecordId);
    IndexFacts(after.rules, CRuleId);
  }

  /** No rule of the expected state has an ID recorded for another kind of resource. */
  ghost predicate Apart<C>(g: CRegistry<C>, after: CState<C>) {
    forall k :: k in Index(after.rules, CRuleId) ==>
      (forall r :: r in g.resources ==> r.id != k) && (forall r :: r in g.lists ==> r.id != k)
  }

  /** A recorded compliance ID is not recorded for another kind of resource. */
  lemma RecordedApart<C>(g: CRegistry<C>, removed: set<Uid>, after: CState<C>, now: int, k: Uid)
    requires ValidRegistry(g) && Apart(g, after) && k in RecordedCompliance(g, removed, after, now)
    ensures (forall r :: r in g.resources ==> r.id != k) && (forall r :: r in g.lists ==> r.id != k)
  {
    if k !in Index(after.rules, CRuleId) {
      IndexFacts(g.compliance, ComplianceRecordId);
      assert k in KeptRecords(g, removed);
      var r := Index(g.compliance, ComplianceRecordId)[k];
      assert r in g.compliance && ComplianceRecordId(r) == k;
    }
  }

  lemma ValidWith<C>(g: CRegistry<C>, records: seq<ComplianceRecord<CRule<C>>>)
    requires ValidRegistry(g) && UniqueKeys(records, ComplianceRecordId)
    requires forall x :: x in records ==> (forall r :: r in g.resources ==> r.id != x.id) && (forall r :: r in g.lists ==> r.id != x.id)
    ensures ValidRegistry(g.(compliance := records))
  {
  }

  lemma RecordedAllApart<C>(g: CRegistry<C>, removed: set<Uid>, after: CState<C>, now: int, x: ComplianceRecord<CRule<C>>)
    requires ValidRegistry(g) && Apart(g, after) && x in Listing(RecordedCompliance(g, removed, after, now))
    ensures (forall r :: r in g.resources ==> r.id != x.id) && (forall r :: r in g.lists ==> r.id != x.id)
  {
    RecordedKeyed(g, removed, after, now);
    ListingFacts(RecordedCompliance(g, removed, after, now), ComplianceRecordId);
    assert ComplianceRecordId(x) == x.id;
    RecordedApart(g, removed, after, now, x.id);
  }

  lemma CommitComplianceWorks<C>(g: CRegistry<C>, removed: set<Uid>, after: CState<C>, now: int)
    requires ValidRegistry(g) && Apart(g, after)
    ensures CommitCompliance(g, removed, after, now).Ok?
  {
    var m := RecordedCompliance(g, removed, after, now);
    forall x | x in Listing(m) ensures (forall r :: r in g.resources ==> r.id != x.id) && (forall r :: r in g.lists ==> r.id != x.id) {
      RecordedAllApart(g, removed, after, now, x);
    }
    RecordedKeyed(g, removed, after, now);
    ListingFacts(m, ComplianceRecordId);
    ValidWith(g, Listing(m));
  }

  /** Dictionaries over the same IDs whose records snapshot the rules list in step. */
  lemma ListingAt<T>(m: map<Uid, T>, i: nat)
    requires i < |Listing(m)|
    ensures |Enumerate(m.Keys)| == |Listing(m)| && Enumerate(m.Keys)[i] in m && Listing(m)[i] == m[Enumerate(m.Keys)[i]]
  {
    EnumerateFacts(m.Keys);
    assert Enumerate(m.Keys)[i] in Enumerate(m.Keys);
  }

  lemma SnapshotsOfListing<C>(m: map<Uid, ComplianceRecord<CRule<C>>>, rules: map<Uid, CRule<C>>)
    requires m.Keys == rules.Keys && forall k :: k in m ==> m[k].snapshot == Some(rules[k])
    ensures forall r :: r in Listing(m) ==> r.snapshot.Some?
    ensures Snapshots(Listing(m)) == Listing(rules)
  {
    ListingLength(m);
    ListingLength(rules);
    forall i | 0 <= i < |Listing(m)| ensures Listing(m)[i].snapshot == Some(Listing(rules)[i]) {
      ListingAt(m, i);
      ListingAt(rules, i);
    }
  }

  lemma Smaller(a: set<Uid>, b: set<Uid>)
    requires a < b
    ensures |a| < |b|
  {
    assert |b| == |a| + |b - a| by { assert b == a + (b - a); }
    assert b - a != {};
  }

  lemma RecordedSnapshots<C>(g: CRegistry<C>, removed: set<Uid>, after: CState<C>, now: int)
    ensures forall k :: k in Index(after.rules, CRuleId) ==>
      RecordedCompliance(g, removed, after, now)[k].snapshot == Some(Index(after.rules, CRuleId)[k])
  {
  }

  lemma RoundTripIf<C>(g: CRegistry<C>, removed: set<Uid>, after: CState<C>, now: int)
    requires StrictlyAscending(Keys(after.rules, CRuleId))
    requires KeptRecords(g, removed).Keys <= Index(after.rules, CRuleId).Keys
    ensures ComplianceSnapshot(g.(compliance := Listing(RecordedCompliance(g, removed, after, now)))) == Ok(after.rules)
  {
    RecordedKeyed(g, removed, after, now);
    RecordedSnapshots(g, removed, after, now);
    ListingOfIndex(after.rules, CRuleId);
    SnapshotsOfListing(RecordedCompliance(g, removed, after, now), Index(after.rules, CRuleId));
  }

  lemma LongerSnapshotDiffers<C>(g: CRegistry<C>, rules: seq<CRule<C>>)
    requires |g.compliance| != |rules|
    ensures ComplianceSnapshot(g) != Ok(rules)
  {
  }

  lemma RoundTripOnlyIf<C>(g: CRegistry<C>, removed: set<Uid>, after: CState<C>, now: int)
    requires StrictlyAscending(Keys(after.rules, CRuleId))
    requires !(KeptRecords(g, removed).Keys <= Index(after.rules, CRuleId).Keys)
    ensures ComplianceSnapshot(g.(compliance := Listing(RecordedCompliance(g, removed, after, now)))) != Ok(after.rules)
  {
    RecordedKeyed(g, removed, after, now);
    ListingOfIndex(after.rules, CRuleId);
    var m, rules := RecordedCompliance(g, removed, after, now), Index(after.rules, CRuleId);
    assert rules.Keys < m.Keys;
    Smaller(rules.Keys, m.Keys);
    ListingLength(m);
    ListingLength(rules);
    LongerSnapshotDiffers(g.(compliance := Listing(m)), after.rules);
  }

  lemma ListingLength<T>(m: map<Uid, T>)
    ensures |Listing(m)| == |m.Keys|
  {
    EnumerateFacts(m.Keys);
  }

  /** The snapshot regenerated after a commit is exactly the expected rules in order, if and only
      if no record survives of a rule that is neither expected nor removed. */
  lemma ComplianceRoundTrip<C>(g: CRegistry<C>, removed: set<Uid>, after: CState<C>, now: int)
    requires ValidRegistry(g) && Apart(g, after) && StrictlyAscending(Keys(after.rules, CRuleId))
    ensures var stored := CommitCompliance(g, removed, after, now);
      stored.Ok? &&
      (ComplianceSnapshot(stored.value) == Ok(after.rules) <==> KeptRecords(g, removed).Keys <= Index(after.rules, CRuleId).Keys)
  {
    CommitComplianceWorks(g, removed, after, now);
    if KeptRecords(g, removed).Keys <= Index(after.rules, CRuleId).Keys {
      RoundTripIf(g, removed, after, now);
    } else {
      RoundTripOnlyIf(g, removed, after, now);
    }
  }

  /** Every compliance record names a rule of the state, and no rule of the state is recorded as
      another kind of resource. A read against the registry's own snapshot covers it or raises. */
  ghost predicate Covers<C>(g: CRegistry<C>, s: CState<C>) {
    ValidRegistry(g) && Index(g.compliance, ComplianceRecordId).Keys <= Index(s.rules, CRuleId).Keys && Apart(g, s)
  }

  /** The drawn IDs are new UUIDs. */
  ghost predicate NewToAll<C>(ids: seq<Uid>, g: CRegistry<C>, s: CState<C>) {
    forall id :: id in ids ==>
      && id !in Index(s.rules, CRuleId)
      && (forall r :: r in g.resources ==> r.id != id) && (forall r :: r in g.lists ==> r.id != id)
  }

  lemma CStepKeys<C>(w: CWork<C>, a: CAction<C>, env: CEnv<C>)
    requires CKeyed(w) && ValidUpdate(a) && CStep(w, a, env).Ok?
    ensures var w' := CStep(w, a, env).value;
      && CKeyed(w')
      && (forall k :: k in w'.rules ==> k in w.rules || k in w.ids)
      && (forall id :: id in w'.ids ==> id in w.ids)
  {
  }

  lemma {:induction false} CRunKeys<C>(w: CWork<C>, plan: seq<CAction<C>>, env: CEnv<C>)
    requires CKeyed(w) && CRun(w, plan, env).Ok?
    requires forall i :: 0 <= i < |plan| ==> ValidUpdate(plan[i])
    ensures CKeyed(CRun(w, plan, env).value)
    ensures forall k :: k in CRun(w, plan, env).value.rules ==> k in w.rules || k in w.ids
    decreases |plan|
  {
    if plan != [] {
      CStepKeys(w, plan[0], env);
      CRunKeys(CStep(w, plan[0], env).value, plan[1..], env);
    }
  }

  lemma StartsKeyed<C>(before: CState<C>, ids: seq<Uid>)
    ensures CKeyed(CWork(Index(before.rules, CRuleId), ids))
  {
    IndexFacts(before.rules, CRuleId);
    var m := Index(before.rules, CRuleId);
    forall k | k in m ensures m[k].id == k { assert CRuleId(m[k]) == k; }
  }

  lemma KeyedListing<C>(w: CWork<C>)
    requires CKeyed(w)
    ensures StrictlyAscending(Keys(Listing(w.rules), CRuleId)) && Index(Listing(w.rules), CRuleId) == w.rules
  {
    forall k | k in w.rules ensures CRuleId(w.rules[k]) == k {}
    ListingFacts(w.rules, CRuleId);
  }

  /** The state a plan leads to is in ID order and holds only observed and new IDs. */
  lemma CompliancePlanEnds<C>(before: CState<C>, plan: seq<CAction<C>>, ids: seq<Uid>, env: CEnv<C>)
    requires forall i :: 0 <= i < |plan| ==> ValidUpdate(plan[i])
    requires CCalculate(before, plan, ids, env).Ok?
    ensures var after := CCalculate(before, plan, ids, env).value;
      && StrictlyAscending(Keys(after.rules, CRuleId))
      && forall k :: k in Index(after.rules, CRuleId) ==> k in Index(before.rules, CRuleId) || k in ids
  {
    var w := CWork(Index(before.rules, CRuleId), ids);
    StartsKeyed(before, ids);
    CRunKeys(w, plan, env);
    KeyedListing(CRun(w, plan, env).value);
  }

  lemma StaysApart<C>(g: CRegistry<C>, before: CState<C>, ids: seq<Uid>, after: CState<C>)
    requires Apart(g, before) && NewToAll(ids, g, before)
    requires forall k :: k in Index(after.rules, CRuleId) ==> k in Index(before.rules, CRuleId) || k in ids
    ensures Apart(g, after)
  {
  }

  /** The records left after dropping those of removed rules are of expected rules. */
  lemma RemovedAreForgotten<C>(g: CRegistry<C>, before: CState<C>, after: CState<C>)
    requires Covers(g, before)
    ensures KeptRecords(g, IdSet(Partition(before.rules, after.rules, CRuleId).removed, CRuleId)).Keys <= Index(after.rules, CRuleId).Keys
  {
    PartitionMembers(before.rules, after.rules, CRuleId);
    PartIds(Partition(before.rules, after.rules, CRuleId).removed, Index(before.rules, CRuleId) - Index(after.rules, CRuleId).Keys, CRuleId);
  }

  lemma StoredCovers<C>(g: CRegistry<C>, removed: set<Uid>, after: CState<C>, now: int)
    requires ValidRegistry(g) && Apart(g, after)
    requires KeptRecords(g, removed).Keys <= Index(after.rules, CRuleId).Keys
    ensures CommitCompliance(g, removed, after, now).Ok? && Covers(CommitCompliance(g, removed, after, now).value, after)
  {
    CommitComplianceWorks(g, removed, after, now);
    RecordedKeyed(g, removed, after, now);
    IndexOfListing(RecordedCompliance(g, removed, after, now), ComplianceRecordId);
  }

  /** Plan, commit and snapshot: after every plan computed from a state the registry covers, the
      commit succeeds, the regenerated snapshot is exactly the approved rules in order, and the
      stored registry covers the state it describes, so the next plan can start there. */
  lemma CompliancePlanRoundTrip<C>(before: CState<C>, plan: seq<CAction<C>>, ids: seq<Uid>, env: CEnv<C>, now: int)
    requires forall i :: 0 <= i < |plan| ==> ValidUpdate(plan[i])
    requires Covers(env.registry, before) && NewToAll(ids, env.registry, before)
    requires CCalculate(before, plan, ids, env).Ok?
    ensures var after := CCalculate(before, plan, ids, env).value;
      var removed := IdSet(Partition(before.rules, after.rules, CRuleId).removed, CRuleId);
      var stored := CommitCompliance(env.registry, removed, after, now);
      stored.Ok? && ComplianceSnapshot(stored.value) == Ok(after.rules) && Covers(stored.value, after)
  {
    var after := CCalculate(before, plan, ids, env).value;
    var removed := IdSet(Partition(before.rules, after.rules, CRuleId).removed, CRuleId);
    CompliancePlanEnds(before, plan, ids, env);
    StaysApart(env.registry, before, ids, after);
    RemovedAreForgotten(env.registry, before, after);
    StoredCovers(env.registry, removed, after, now);
    RoundTripIf(env.registry, removed, after, now);
  }
}
