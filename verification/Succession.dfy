/** The committed registry owns the state the plan reached. */
module Succession {
  import opened Keyed
  import opened Resources
  import opened Ownership
  import opened DesiredState
  import opened Changes
  import opened Integrity
  import opened Authorization
  import opened Diff
  import opened Lifecycle
  import opened Closure
  import opened CommitClosure

  /** Facts of the commit in terms of the two ends of the plan. */
  ghost predicate Committing<R>(b: Work, a: Work, cs: ChangeSet, env: Env<R>) {
    && Related(b, a) && Describes(cs, b, a)
    && CreationsPaired(cs) && RemovalsPaired(cs)
    && ValidRegistry(env.registry)
    && (forall k :: k in a.rules && k !in b.rules ==> k in b.ids)
    && (forall j :: j in a.lists && j !in b.lists ==> j in b.ids)
    && UnknownIds(b.ids, env.registry)
  }

  lemma NewIdsUnknown<R>(b: Work, a: Work, cs: ChangeSet, env: Env<R>, now: int)
    requires Committing(b, a, cs, env)
    ensures var records, lists := Index(env.registry.resources, RuleRecordId), Index(env.registry.lists, ListRecordId);
      forall id :: id in NewPairs(cs, now) || id in NewBypasses(cs, now) ==>
        id !in records && id !in lists && forall r :: r in env.registry.compliance ==> r.id != id
  {
    IndexFacts(env.registry.resources, RuleRecordId);
    IndexFacts(env.registry.lists, ListRecordId);
    var records, lists := Index(env.registry.resources, RuleRecordId), Index(env.registry.lists, ListRecordId);
    forall id | id in NewPairs(cs, now) || id in NewBypasses(cs, now)
      ensures id !in records && id !in lists && forall r :: r in env.registry.compliance ==> r.id != id
    {
      assert id in b.ids;
    }
  }

  lemma CommittedKeyed<R>(b: Work, a: Work, cs: ChangeSet, env: Env<R>, now: int)
    requires Committing(b, a, cs, env)
    ensures KeyedBy(CommittedPairs(env.registry, cs, now), RuleRecordId)
    ensures KeyedBy(CommittedLists(env.registry, cs, now), ListRecordId)
    ensures NoConflict(env.registry, cs, now)
  {
    NewIdsUnknown(b, a, cs, env, now);
    NewRecordsKeyed(cs, now);
    CommittedKeyedBy(env.registry, cs, now);
  }

  lemma NewRecordsKeyed(cs: ChangeSet, now: int)
    requires CreationsPaired(cs)
    ensures KeyedBy(NewPairs(cs, now), RuleRecordId) && KeyedBy(NewBypasses(cs, now), ListRecordId)
  {
    IndexFacts(cs.rules.created, RuleId);
    IndexFacts(cs.lists.created, ListId);
  }

  lemma CommittedKeyedBy<R>(g: Registry<R>, cs: ChangeSet, now: int)
    requires CreationsPaired(cs) && KeyedBy(NewPairs(cs, now), RuleRecordId) && KeyedBy(NewBypasses(cs, now), ListRecordId)
    ensures KeyedBy(CommittedPairs(g, cs, now), RuleRecordId) && KeyedBy(CommittedLists(g, cs, now), ListRecordId)
  {
    IndexFacts(g.resources, RuleRecordId);
    IndexFacts(g.lists, ListRecordId);
  }

  lemma CommittedApart<R>(b: Work, a: Work, cs: ChangeSet, env: Env<R>, now: int)
    requires Committing(b, a, cs, env)
    ensures var p, l := CommittedPairs(env.registry, cs, now), CommittedLists(env.registry, cs, now);
      && (forall k :: k in p ==> k !in l)
      && (forall k, c :: k in p && c in env.registry.compliance ==> c.id != k)
      && (forall k, c :: k in l && c in env.registry.compliance ==> c.id != k)
  {
    NewIdsUnknown(b, a, cs, env, now);
    var g := env.registry;
    IndexFacts(g.resources, RuleRecordId);
    IndexFacts(g.lists, ListRecordId);
    var records, lists := Index(g.resources, RuleRecordId), Index(g.lists, ListRecordId);
    assert forall j :: j in lists ==> lists[j] in g.lists && lists[j].id == j;
    forall k | k in records ensures k !in lists && forall c :: c in g.compliance ==> c.id != k {
      assert records[k] in g.resources && records[k].id == k;
    }
    forall k | k in lists ensures forall c :: c in g.compliance ==> c.id != k {
      assert lists[k] in g.lists;
    }
  }

  lemma StoredIsValid<R>(b: Work, a: Work, cs: ChangeSet, env: Env<R>, now: int)
    requires Committing(b, a, cs, env)
    ensures ValidRegistry(Registry(Listing(CommittedPairs(env.registry, cs, now)),
        Listing(CommittedLists(env.registry, cs, now)), env.registry.compliance))
  {
    CommittedKeyed(b, a, cs, env, now);
    CommittedApart(b, a, cs, env, now);
    var p, l := CommittedPairs(env.registry, cs, now), CommittedLists(env.registry, cs, now);
    ListingFacts(p, RuleRecordId);
    ListingFacts(l, ListRecordId);
    forall x | x in Listing(p) ensures x.id in p { assert RuleRecordId(x) in p; }
    forall x | x in Listing(l) ensures x.id in l { assert ListRecordId(x) in l; }
  }

  lemma CommitIs<R>(g: Registry<R>, cs: ChangeSet, now: int)
    requires CreationsPaired(cs) && RemovalsPaired(cs) && NoConflict(g, cs, now)
    ensures var p, l := CommittedPairs(g, cs, now), CommittedLists(g, cs, now);
      var stored := Registry(Listing(p), Listing(l), g.compliance);
      Commit(g, cs, now) == if p == Index(g.resources, RuleRecordId) && l == Index(g.lists, ListRecordId) then Ok(g)
                            else if ValidRegistry(stored) then Ok(stored) else Err(IdTaken)
  {
  }

  lemma CommitStores<R>(b: Work, a: Work, cs: ChangeSet, env: Env<R>, now: int)
    requires Committing(b, a, cs, env)
    ensures Commit(env.registry, cs, now).Ok?
    ensures var g := Commit(env.registry, cs, now).value;
      && ValidRegistry(g)
      && Index(g.resources, RuleRecordId) == CommittedPairs(env.registry, cs, now)
      && Index(g.lists, ListRecordId) == CommittedLists(env.registry, cs, now)
  {
    CommittedKeyed(b, a, cs, env, now);
    StoredIsValid(b, a, cs, env, now);
    IndexOfListing(CommittedPairs(env.registry, cs, now), RuleRecordId);
    IndexOfListing(CommittedLists(env.registry, cs, now), ListRecordId);
    CommitIs(env.registry, cs, now);
  }

  /** The pair evidence of a rule that is still there, or new. */
  lemma PairAt<R>(b: Work, a: Work, cs: ChangeSet, env: Env<R>, now: int, k: Uid)
    requires Committing(b, a, cs, env) && k in a.rules
    ensures var was := Lookup(Index(env.registry.resources, RuleRecordId), k);
      && (k in b.rules && was.Some? ==> Lookup(CommittedPairs(env.registry, cs, now), k) == was)
      && (k !in b.rules ==> k in a.lists && Lookup(CommittedPairs(env.registry, cs, now), k) == Some(PairRecord(a.rules[k], a.lists[k], now)))
  {
    NewIdsUnknown(b, a, cs, env, now);
    PrimaryIsOwn(a.rules, a.lists, k);
  }

  lemma OwnedRuleIsLookup<R>(rule: Rule, g: Registry<R>, prefix: string)
    requires ValidRegistry(g)
    ensures OwnedRule(rule, g, prefix) <==> Marked(rule.name, prefix) && RuleEvidence(Lookup(Index(g.resources,
        RuleRecordId), rule.id), rule)
  {
    FindIsLookup(g.resources, RuleRecordId, rule.id);
  }

  ghost predicate RuleEvidence(r: Option<RuleRecord>, rule: Rule) {
    r.Some? && r.value.ruleName == rule.name && r.value.ou == rule.ou
  }

  /** `g` is what the commit stored. */
  ghost predicate Stored<R>(g: Registry<R>, cs: ChangeSet, env: Env<R>, now: int)
    requires CreationsPaired(cs)
  {
    && ValidRegistry(g)
    && Index(g.resources, RuleRecordId) == CommittedPairs(env.registry, cs, now)
    && Index(g.lists, ListRecordId) == CommittedLists(env.registry, cs, now)
  }

  lemma RuleStaysOwned<R>(b: Work, a: Work, cs: ChangeSet, env: Env<R>, now: int, g: Registry<R>, k: Uid)
    requires Committing(b, a, cs, env) && WellKeyed(a) && WellKeyed(b) && Stored(g, cs, env, now)
    requires k in a.rules
    requires k in b.rules ==> OwnedRule(b.rules[k], env.registry, env.prefix) && SameIdentity(b.rules[k], a.rules[k])
    requires k !in b.rules ==> BornRule(a.rules[k], env)
    ensures OwnedRule(a.rules[k], g, env.prefix)
  {
    PairAt(b, a, cs, env, now, k);
    OwnedRuleIsLookup(a.rules[k], g, env.prefix);
    if k in b.rules { OwnedRuleIsLookup(b.rules[k], env.registry, env.prefix); }
    NamesAreMarked(env.prefix, k);
  }

  lemma OldListEvidence<R>(b: Work, a: Work, cs: ChangeSet, env: Env<R>, now: int, j: Uid)
    requires Committing(b, a, cs, env) && j in a.lists && j in b.lists
    ensures var p, l := CommittedPairs(env.registry, cs, now), CommittedLists(env.registry, cs, now);
      var p0, l0 := Index(env.registry.resources, RuleRecordId), Index(env.registry.lists, ListRecordId);
      && (j in p0 ==> j in p && p[j] == p0[j])
      && (j !in p0 && j in l0 ==> j !in p && j in l && l[j] == l0[j])
  {
  }

  lemma NewPairEvidence<R>(b: Work, a: Work, cs: ChangeSet, env: Env<R>, now: int, j: Uid)
    requires Committing(b, a, cs, env) && j in a.lists && j !in b.lists && j in Index(cs.rules.created, RuleId)
    ensures var p := CommittedPairs(env.registry, cs, now); j in p && p[j].listName == a.lists[j].name
  {
    NewIdsUnknown(b, a, cs, env, now);
    assert j in NewPairs(cs, now) && Index(cs.lists.created, ListId)[j] == a.lists[j];
  }

  lemma NewBypassEvidence<R>(b: Work, a: Work, cs: ChangeSet, env: Env<R>, now: int, j: Uid)
    requires Committing(b, a, cs, env) && j in a.lists && j !in b.lists && j !in Index(cs.rules.created, RuleId)
    ensures var p, l := CommittedPairs(env.registry, cs, now), CommittedLists(env.registry, cs, now);
      j !in p && j in l && l[j].name == a.lists[j].name
  {
    NewIdsUnknown(b, a, cs, env, now);
    assert j in NewBypasses(cs, now) && Index(cs.lists.created, ListId)[j] == a.lists[j];
  }

  /** The evidence of a list that is still there, or new. */
  lemma ListEvidenceAt<R>(b: Work, a: Work, cs: ChangeSet, env: Env<R>, now: int, j: Uid)
    requires Committing(b, a, cs, env) && j in a.lists && WellKeyed(a)
    ensures var p, l := CommittedPairs(env.registry, cs, now), CommittedLists(env.registry, cs, now);
      var p0, l0 := Index(env.registry.resources, RuleRecordId), Index(env.registry.lists, ListRecordId);
      && (j in b.lists && j in p0 ==> j in p && p[j] == p0[j])
      && (j in b.lists && j !in p0 && j in l0 ==> j !in p && j in l && l[j] == l0[j])
      && (j !in b.lists ==> if j in p then p[j].listName == a.lists[j].name else j in l && l[j].name == a.lists[j].name)
  {
    if j in b.lists {
      OldListEvidence(b, a, cs, env, now, j);
    } else if j in Index(cs.rules.created, RuleId) {
      NewPairEvidence(b, a, cs, env, now, j);
    } else {
      NewBypassEvidence(b, a, cs, env, now, j);
    }
  }

  lemma ListStaysOwned<R>(b: Work, a: Work, cs: ChangeSet, env: Env<R>, now: int, g: Registry<R>, j: Uid)
    requires Committing(b, a, cs, env) && WellKeyed(a) && WellKeyed(b) && Stored(g, cs, env, now)
    requires j in a.lists
    requires j in b.lists ==> OwnedList(b.lists[j], env.registry, env.prefix)
    requires j !in b.lists ==> NewName(a.lists[j].name, j, b.ids, env.prefix)
    ensures OwnedList(a.lists[j], g, env.prefix)
  {
    ListEvidenceAt(b, a, cs, env, now, j);
    RecordedNameIsLookup(g, j);
    RecordedNameIsLookup(env.registry, j);
    NamesAreMarked(env.prefix, j);
  }

  lemma RecordedNameIsLookup<R>(g: Registry<R>, j: Uid)
    requires ValidRegistry(g)
    ensures var p, l := Index(g.resources, RuleRecordId), Index(g.lists, ListRecordId);
      RecordedListName(j, g) == if j in p then Some(p[j].listName) else if j in l then Some(l[j].name) else None
  {
    FindIsLookup(g.resources, RuleRecordId, j);
    FindIsLookup(g.lists, ListRecordId, j);
  }

  lemma SettingIsCommitting<R>(b: Work, a: Work, cs: ChangeSet, env: Env<R>)
    requires Setting(b, a, env) && Related(b, a) && Describes(cs, b, a) && ValidRegistry(env.registry)
    requires CreationsPaired(cs) && RemovalsPaired(cs)
    ensures Committing(b, a, cs, env)
  {
    forall j | j in a.lists && j !in b.lists ensures j in b.ids {
      assert NewName(a.lists[j].name, j, b.ids, env.prefix);
    }
  }

  lemma StoredOwns<R>(b: Work, a: Work, cs: ChangeSet, env: Env<R>, now: int, g: Registry<R>)
    requires Setting(b, a, env) && Linked(a.rules, a.lists) && Committing(b, a, cs, env)
    requires Commit(env.registry, cs, now) == Ok(g)
    requires forall k :: k in b.rules ==> OwnedRule(b.rules[k], env.registry, env.prefix)
    requires forall j :: j in b.lists ==> OwnedList(b.lists[j], env.registry, env.prefix)
    ensures forall k :: k in a.rules ==> OwnedRule(a.rules[k], g, env.prefix)
    ensures forall j :: j in a.lists ==> OwnedList(a.lists[j], g, env.prefix)
  {
    CommitStores(b, a, cs, env, now);
    forall k | k in a.rules ensures OwnedRule(a.rules[k], g, env.prefix) {
      if k in b.rules { assert RuleFramed(b.rules[k], Lookup(a.rules, k), env); }
      RuleStaysOwned(b, a, cs, env, now, g, k);
    }
    forall j | j in a.lists ensures OwnedList(a.lists[j], g, env.prefix) {
      if j !in b.lists { assert NewName(a.lists[j].name, j, b.ids, env.prefix); }
      ListStaysOwned(b, a, cs, env, now, g, j);
    }
  }

  lemma SettingCommits<R>(b: Work, a: Work, cs: ChangeSet, env: Env<R>, now: int)
    requires Setting(b, a, env) && Linked(a.rules, a.lists) && Describes(cs, b, a) && ValidRegistry(env.registry)
    requires forall k :: k in b.rules ==> OwnedRule(b.rules[k], env.registry, env.prefix)
    requires forall j :: j in b.lists ==> OwnedList(b.lists[j], env.registry, env.prefix)
    ensures Commit(env.registry, cs, now).Ok? <==> BypassesKept(b.rules, a.rules) && NoOrphans(b, a)
    ensures Commit(env.registry, cs, now).Ok? ==> var g := Commit(env.registry, cs, now).value;
      && ValidRegistry(g)
      && (forall k :: k in a.rules ==> OwnedRule(a.rules[k], g, env.prefix))
      && (forall j :: j in a.lists ==> OwnedList(a.lists[j], g, env.prefix))
  {
    SettingRelates(b, a, env);
    PairedIffKept(b, a, cs);
    CommitNeedsPairs(env.registry, cs, now);
    if CreationsPaired(cs) && RemovalsPaired(cs) { SettingStores(b, a, cs, env, now); }
  }

  lemma CommitNeedsPairs<R>(g: Registry<R>, cs: ChangeSet, now: int)
    ensures Commit(g, cs, now).Ok? ==> CreationsPaired(cs) && RemovalsPaired(cs)
  {
  }

  lemma SettingStores<R>(b: Work, a: Work, cs: ChangeSet, env: Env<R>, now: int)
    requires Setting(b, a, env) && Linked(a.rules, a.lists) && Describes(cs, b, a) && ValidRegistry(env.registry)
    requires Related(b, a) && CreationsPaired(cs) && RemovalsPaired(cs)
    requires forall k :: k in b.rules ==> OwnedRule(b.rules[k], env.registry, env.prefix)
    requires forall j :: j in b.lists ==> OwnedList(b.lists[j], env.registry, env.prefix)
    ensures Commit(env.registry, cs, now).Ok?
    ensures var g := Commit(env.registry, cs, now).value;
      && ValidRegistry(g)
      && (forall k :: k in a.rules ==> OwnedRule(a.rules[k], g, env.prefix))
      && (forall j :: j in a.lists ==> OwnedList(a.lists[j], g, env.prefix))
  {
    SettingIsCommitting(b, a, cs, env);
    CommitStores(b, a, cs, env, now);
    StoredOwns(b, a, cs, env, now, Commit(env.registry, cs, now).value);
  }

  /** What is observed is linked, and the injected IDs are new UUIDs. */
  ghost predicate Prepared<R>(before: State, registry: Registry<R>, ids: seq<Uid>, prefix: string) {
    && LinkedState(before) && ValidRegistry(registry)
    && FreshIds(Start(before, ids)) && UnknownIds(ids, registry)
    && FreshNames(ListMap(before), ids, prefix)
  }

  lemma StartSetting<R>(before: State, registry: Registry<R>, ids: seq<Uid>, prefix: string)
    requires Prepared(before, registry, ids, prefix)
    ensures Setting(Start(before, ids), Start(before, ids), Env(before.ou, registry, prefix))
  {
    StartKeyed(before, ids);
  }

  lemma PlanSettles<R>(before: State, plan: seq<Action>, registry: Registry<R>, ids: seq<Uid>, prefix: string)
    requires Prepared(before, registry, ids, prefix)
    requires Run(Start(before, ids), plan, Env(before.ou, registry, prefix)).Ok?
    ensures Setting(Start(before, ids), Run(Start(before, ids), plan, Env(before.ou, registry, prefix)).value,
        Env(before.ou, registry, prefix))
  {
    var b := Start(before, ids);
    StartSetting(before, registry, ids, prefix);
    RunKeepsSetting(b, b, plan, Env(before.ou, registry, prefix));
  }

  lemma PartsDescribe(before: State, after: State, b: Work, a: Work)
    requires b.rules == RuleMap(before) && b.lists == ListMap(before) && a.rules == RuleMap(after) && a.lists == ListMap(after)
    ensures Describes(CalculateChangeSet(before, after), b, a)
  {
    PartitionMembers(before.rules, after.rules, RuleId);
    PartitionMembers(before.lists, after.lists, ListId);
  }

  /** The two ends of a successful plan and the change set between them. */
  lemma PlanEnds<R>(before: State, plan: seq<Action>, registry: Registry<R>, ids: seq<Uid>, prefix: string) returns (a: Work)
    requires Prepared(before, registry, ids, prefix)
    requires Calculate(before, plan, registry, ids, prefix).Ok?
    ensures var after := Calculate(before, plan, registry, ids, prefix).value.state;
      var env := Env(before.ou, registry, prefix);
      && Setting(Start(before, ids), a, env) && Linked(a.rules, a.lists)
      && RuleMap(after) == a.rules && ListMap(after) == a.lists
      && Describes(CalculateChangeSet(before, after), Start(before, ids), a)
  {
    var b := Start(before, ids);
    a := Run(b, plan, Env(before.ou, registry, prefix)).value;
    var after := Calculate(before, plan, registry, ids, prefix).value.state;
    PlanSettles(before, plan, registry, ids, prefix);
    PlanKeepsIntegrity(before, plan, registry, ids, prefix);
    StateOfMaps(a, before.ou, before.unmanaged);
    PartsDescribe(before, after, b, a);
  }

  /** The commit of a plan's change set stores evidence exactly when no surviving rule changed its
      bypass lists and no created list is left over; and then the stored registry owns every
      rule and list of the expected state. */
  lemma PlanCommits<R>(before: State, plan: seq<Action>, registry: Registry<R>, ids: seq<Uid>, prefix: string, now: int)
    requires Prepared(before, registry, ids, prefix) && AllOwned(before, registry, prefix)
    requires Calculate(before, plan, registry, ids, prefix).Ok?
    ensures var after := Calculate(before, plan, registry, ids, prefix).value.state;
      var r := Commit(registry, CalculateChangeSet(before, after), now);
      && (r.Ok? <==> Closes(before, after, ids))
      && (r.Ok? ==> ValidRegistry(r.value) && AllOwned(after, r.value, prefix))
  {
    var a := PlanEnds(before, plan, registry, ids, prefix);
    var after := Calculate(before, plan, registry, ids, prefix).value.state;
    var cs := CalculateChangeSet(before, after);
    SettingCommits(Start(before, ids), a, cs, Env(before.ou, registry, prefix), now);
    assert NoOrphans(Start(before, ids), Start(after, [])) <==> NoOrphans(Start(before, ids), a);
  }

  /** No surviving rule's bypass lists changed, and every created list is used. */
  ghost predicate Closes(before: State, after: State, ids: seq<Uid>) {
    BypassesKept(RuleMap(before), RuleMap(after)) && NoOrphans(Start(before, ids), Start(after, []))
  }
}
