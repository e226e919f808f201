/** What each compliance action does and what a compliance commit records, told field by field. */
module ComplianceOutcomes {
  import opened Ordering
  import opened Keyed
  import opened Ownership
  import opened Diff
  import opened Compliance
  import opened ComplianceFold

  ghost predicate OthersKept<C>(w: CWork<C>, w': CWork<C>, id: Uid) {
    forall k :: k != id ==> Lookup(w'.rules, k) == Lookup(w.rules, k)
  }

  /** A rule can be edited: it is there, owned and not inherited. */
  ghost predicate MayEdit<C>(w: CWork<C>, id: Uid, env: CEnv<C>) {
    id in w.rules && OwnedCompliance(w.rules[id], env.registry, env.prefix) && !w.rules[id].inherited
  }

  /** Exactly when a compliance action succeeds. */
  ghost predicate CAccepted<C>(w: CWork<C>, a: CAction<C>, env: CEnv<C>) {
    match a
    case CreateCompliance(d) => w.ids != [] && w.ids[0] !in w.rules && env.accepted(d.content)
    case UpdateCompliance(target, rule) => MayEdit(w, target, env) && rule.unit == w.rules[target].unit && env.accepted(rule.content)
    case RemoveCompliance(target) => MayEdit(w, target, env)
    case EnableCompliance(target, _) => MayEdit(w, target, env)
    case ListCompliance => true
    case OtherAction => true
  }

  ghost predicate CDone<C>(w: CWork<C>, w': CWork<C>, a: CAction<C>, env: CEnv<C>) {
    match a
    case CreateCompliance(d) =>
      && w.ids != [] && w.ids[0] in w'.rules && w'.ids == w.ids[1..] && OthersKept(w, w', w.ids[0])
      && var r := w'.rules[w.ids[0]];
      && r.id == w.ids[0] && r.name == ComplianceName(env.prefix, w.ids[0]) && r.unit == d.unit && r.content == d.content
      && r.inherited == d.inherited && (r.enabled <==> d.enabled || d.inherited)
    case UpdateCompliance(target, rule) =>
      && target in w.rules && target in w'.rules && w'.ids == w.ids && OthersKept(w, w', target)
      && var (was, r) := (w.rules[target], w'.rules[target]);
      && r.name == was.name && r.unit == was.unit && r.content == rule.content && r.enabled == rule.enabled
      && r.id == rule.id && r.inherited == rule.inherited
    case RemoveCompliance(target) => target in w.rules && target !in w'.rules && w'.ids == w.ids && OthersKept(w, w', target)
    case EnableCompliance(target, enabled) =>
      && target in w.rules && target in w'.rules && w'.ids == w.ids && OthersKept(w, w', target)
      && var (was, r) := (w.rules[target], w'.rules[target]);
      && r.enabled == enabled && r.id == was.id && r.name == was.name && r.unit == was.unit && r.content == was.content && r.inherited == was.inherited
    case ListCompliance => w' == w
    case OtherAction => w' == w
  }

  /** An action succeeds exactly when it is acceptable, and then does what it says to its own rule
      and nothing to any other. */
  lemma ComplianceOutcome<C>(w: CWork<C>, a: CAction<C>, env: CEnv<C>)
    requires CKeyed(w)
    ensures CStep(w, a, env).Ok? <==> CAccepted(w, a, env)
    ensures CStep(w, a, env).Ok? ==> CDone(w, CStep(w, a, env).value, a, env)
  {
  }

  /** Every display name belongs to one rule or to one unmanaged rule. */
  ghost predicate NamesApart<C>(rules: map<Uid, CRule<C>>, unmanaged: seq<string>) {
    && (forall k, i :: k in rules && i in rules && rules[k].name == rules[i].name ==> k == i)
    && (forall k, n :: k in rules && 0 <= n < |unmanaged| ==> rules[k].name != unmanaged[n])
    && forall n, m :: 0 <= n < m < |unmanaged| ==> unmanaged[n] != unmanaged[m]
  }

  lemma UniqueNamesAreApart<C>(rules: map<Uid, CRule<C>>, unmanaged: seq<string>)
    ensures UniqueCompliance(rules, unmanaged) <==> NamesApart(rules, unmanaged)
  {
  }

  lemma SortedIsBag(s: seq<string>)
    ensures multiset(Sort(s, Below)) == multiset(s) && Ascending(Sort(s, Below), Below)
  {
    BelowIsTotalPreorder();
    SortFacts(s, Below);
  }

  /** A compliance plan succeeds exactly when its actions do and leave no display name ambiguous. */
  lemma ComplianceCalculates<C>(before: CState<C>, plan: seq<CAction<C>>, ids: seq<Uid>, env: CEnv<C>)
    requires forall i :: 0 <= i < |plan| ==> ValidUpdate(plan[i])
    ensures var run := CRun(CWork(Index(before.rules, CRuleId), ids), plan, env);
      var r := CCalculate(before, plan, ids, env);
      && (r.Ok? <==> run.Ok? && NamesApart(run.value.rules, before.unmanaged))
      && (r.Ok? ==>
          && Index(r.value.rules, CRuleId) == run.value.rules && StrictlyAscending(Keys(r.value.rules, CRuleId))
          && multiset(r.value.unmanaged) == multiset(before.unmanaged) && Ascending(r.value.unmanaged, Below))
  {
    var w := CWork(Index(before.rules, CRuleId), ids);
    if CRun(w, plan, env).Ok? {
      StartsKeyed(before, ids);
      CRunKeys(w, plan, env);
      KeyedListing(CRun(w, plan, env).value);
      SortedIsBag(before.unmanaged);
      UniqueNamesAreApart(CRun(w, plan, env).value.rules, before.unmanaged);
    }
  }

  /** The evidence stored for a compliance rule. */
  ghost predicate ComplianceEvidenced<C>(g: CRegistry<C>, g': CRegistry<C>, rule: CRule<C>, now: int) {
    && rule.id in Index(g'.compliance, ComplianceRecordId)
    && var e := Index(g'.compliance, ComplianceRecordId)[rule.id];
    && e.id == rule.id && e.name == rule.name && e.ou == rule.unit.path && e.snapshot == Some(rule)
    && e.createdAt == if rule.id in Index(g.compliance, ComplianceRecordId) then Index(g.compliance, ComplianceRecordId)[rule.id].createdAt else now
  }

  lemma ComplianceFields<C>(g: CRegistry<C>, removed: set<Uid>, after: CState<C>, now: int, k: Uid)
    requires k in Index(after.rules, CRuleId) && k !in removed
    ensures k in RecordedCompliance(g, removed, after, now)
    ensures var (r, e) := (Index(after.rules, CRuleId)[k], RecordedCompliance(g, removed, after, now)[k]);
      && e.id == r.id && e.name == r.name && e.ou == r.unit.path && e.snapshot == Some(r)
      && e.createdAt == if k in Index(g.compliance, ComplianceRecordId) then Index(g.compliance, ComplianceRecordId)[k].createdAt else now
  {
  }

  lemma ComplianceStored<C>(g: CRegistry<C>, removed: set<Uid>, after: CState<C>, now: int)
    requires ValidRegistry(g) && Apart(g, after)
    requires removed !! Index(after.rules, CRuleId).Keys
    ensures CommitCompliance(g, removed, after, now).Ok?
    ensures var g' := CommitCompliance(g, removed, after, now).value;
      && ValidRegistry(g') && g'.resources == g.resources && g'.lists == g.lists
      && forall k :: k in Index(after.rules, CRuleId) ==> ComplianceEvidenced(g, g', Index(after.rules, CRuleId)[k], now)
  {
    CommitComplianceWorks(g, removed, after, now);
    RecordedKeyed(g, removed, after, now);
    IndexOfListing(RecordedCompliance(g, removed, after, now), ComplianceRecordId);
    IndexFacts(after.rules, CRuleId);
    forall k | k in Index(after.rules, CRuleId)
      ensures ComplianceEvidenced(g, CommitCompliance(g, removed, after, now).value, Index(after.rules, CRuleId)[k], now)
    {
      ComplianceFields(g, removed, after, now, k);
      assert CRuleId(Index(after.rules, CRuleId)[k]) == k;
    }
  }

  lemma EvidencedIsOwned<C>(g: CRegistry<C>, g': CRegistry<C>, rule: CRule<C>, now: int, prefix: string)
    requires ValidRegistry(g') && ComplianceEvidenced(g, g', rule, now)
    ensures OwnedCompliance(rule, g', prefix) <==> Marked(rule.name, prefix)
  {
    FindIsLookup(g'.compliance, ComplianceRecordId, rule.id);
  }

  ghost predicate AllMarked<C>(w: CWork<C>, prefix: string) { forall k :: k in w.rules ==> Marked(w.rules[k].name, prefix) }

  lemma {:induction false} RunMarks<C>(w: CWork<C>, plan: seq<CAction<C>>, env: CEnv<C>)
    requires CKeyed(w) && AllMarked(w, env.prefix) && CRun(w, plan, env).Ok?
    requires forall i :: 0 <= i < |plan| ==> ValidUpdate(plan[i])
    ensures AllMarked(CRun(w, plan, env).value, env.prefix)
    decreases |plan|
  {
    if plan != [] {
      CStepKeys(w, plan[0], env);
      RunMarks(CStep(w, plan[0], env).value, plan[1..], env);
    }
  }

  lemma PlanIsMarked<C>(before: CState<C>, plan: seq<CAction<C>>, ids: seq<Uid>, env: CEnv<C>)
    requires forall i :: 0 <= i < |plan| ==> ValidUpdate(plan[i])
    requires forall k :: k in Index(before.rules, CRuleId) ==> Marked(Index(before.rules, CRuleId)[k].name, env.prefix)
    requires CCalculate(before, plan, ids, env).Ok?
    ensures var rules := Index(CCalculate(before, plan, ids, env).value.rules, CRuleId); forall k :: k in rules ==> Marked(rules[k].name, env.prefix)
  {
    var w := CWork(Index(before.rules, CRuleId), ids);
    StartsKeyed(before, ids);
    RunMarks(w, plan, env);
    CRunKeys(w, plan, env);
    KeyedListing(CRun(w, plan, env).value);
  }

  /** After every compliance plan on managed rules, the committed registry owns every approved rule. */
  lemma ComplianceClosure<C>(before: CState<C>, plan: seq<CAction<C>>, ids: seq<Uid>, env: CEnv<C>, now: int)
    requires forall i :: 0 <= i < |plan| ==> ValidUpdate(plan[i])
    requires Covers(env.registry, before) && NewToAll(ids, env.registry, before)
    requires forall k :: k in Index(before.rules, CRuleId) ==> Marked(Index(before.rules, CRuleId)[k].name, env.prefix)
    requires CCalculate(before, plan, ids, env).Ok?
    ensures var after := CCalculate(before, plan, ids, env).value;
      var stored := CommitCompliance(env.registry, IdSet(Partition(before.rules, after.rules, CRuleId).removed, CRuleId), after, now);
      stored.Ok? && forall k :: k in Index(after.rules, CRuleId) ==> OwnedCompliance(Index(after.rules, CRuleId)[k], stored.value, env.prefix)
  {
    var g, after := env.registry, CCalculate(before, plan, ids, env).value;
    var removed := IdSet(Partition(before.rules, after.rules, CRuleId).removed, CRuleId);
    CompliancePlanEnds(before, plan, ids, env);
    StaysApart(g, before, ids, after);
    PartitionMembers(before.rules, after.rules, CRuleId);
    PartIds(Partition(before.rules, after.rules, CRuleId).removed, Index(before.rules, CRuleId) - Index(after.rules, CRuleId).Keys, CRuleId);
    ComplianceStored(g, removed, after, now);
    PlanIsMarked(before, plan, ids, env);
    forall k | k in Index(after.rules, CRuleId)
      ensures OwnedCompliance(Index(after.rules, CRuleId)[k], CommitCompliance(g, removed, after, now).value, env.prefix)
    {
      EvidencedIsOwned(g, CommitCompliance(g, removed, after, now).value, Index(after.rules, CRuleId)[k], now, env.prefix);
    }
  }
}
