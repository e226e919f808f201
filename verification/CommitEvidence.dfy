/** What the commit of a separately verified plan records, field by field. */
module CommitEvidence {
  import opened Keyed
  import opened Resources
  import opened Ownership
  import opened DesiredState
  import opened Diff
  import opened Lifecycle
  import opened Closure
  import opened CommitClosure
  import opened Succession

  /** The registry after a commit between two working sets, resource by resource. */
  ghost predicate Evidence<R>(b: Work, a: Work, g: Registry<R>, g': Registry<R>, ou: string, now: int) {
    var (p, p', l, l') := (Index(g.resources, RuleRecordId), Index(g'.resources, RuleRecordId), Index(g.lists, ListRecordId), Index(g'.lists, ListRecordId));
    && (forall k :: k in a.rules && k !in b.rules ==>
        k in a.lists && Lookup(p', k) == Some(RuleRecord(k, a.rules[k].name, a.lists[k].name, ou, now, None, None)))
    && (forall j :: j in a.lists && j !in b.lists && j !in a.rules ==>
        Lookup(l', j) == Some(ListRecord(j, a.lists[j].name, ou, now, None)))
    && (forall k :: k in b.rules && k !in a.rules && k in b.lists && k !in a.lists ==> k !in p')
    && (forall j :: j in b.lists && j !in a.lists ==> j !in l')
    && (forall k :: k !in a.rules - b.rules.Keys && !(k in b.rules && k !in a.rules && k in b.lists && k !in a.lists) ==> Lookup(p', k) == Lookup(p, k))
    && (forall j :: j !in a.lists - b.lists.Keys && !(j in b.lists && j !in a.lists) ==> Lookup(l', j) == Lookup(l, j))
    && g'.compliance == g.compliance
  }

  /** Verified evidence that contradicts a record under the same ID is refused. */
  lemma ConflictRefused<R>(g: Registry<R>, cs: ChangeSet, now: int, k: Uid)
    requires CreationsPaired(cs) && k in Index(cs.rules.created, RuleId)
    requires k in Index(g.resources, RuleRecordId)
    requires var (e, r) := (Index(g.resources, RuleRecordId)[k], Index(cs.rules.created, RuleId)[k]);
      e.ruleName != r.name || [e.listName] != r.listNames || e.ou != r.ou
    ensures Commit(g, cs, now).Err?
  {
    assert k in NewPairs(cs, now);
  }

  lemma ListConflictRefused<R>(g: Registry<R>, cs: ChangeSet, now: int, j: Uid)
    requires j in Index(cs.lists.created, ListId) && j !in Index(cs.rules.created, RuleId)
    requires j in Index(g.lists, ListRecordId) && Index(g.lists, ListRecordId)[j].name != Index(cs.lists.created, ListId)[j].name
    ensures Commit(g, cs, now).Err?
  {
    assert j in NewBypasses(cs, now);
  }

  /** What was recorded before a commit is never rewritten by it: a record stays as it is or goes. */
  lemma RecordsAreFinal<R>(g: Registry<R>, cs: ChangeSet, now: int)
    requires ValidRegistry(g) && Commit(g, cs, now).Ok?
    ensures var g' := Commit(g, cs, now).value;
      && (forall r, e :: r in g.resources && e in g'.resources && r.id == e.id ==> r == e)
      && (forall r, e :: r in g.lists && e in g'.lists && r.id == e.id ==> r == e)
      && g'.compliance == g.compliance
  {
    CommitNeedsPairs(g, cs, now);
    UnchangedOrStored(g, cs, now);
    PairsAreFinal(g, cs, now);
    ListsAreFinal(g, cs, now);
  }

  lemma PairsAreFinal<R>(g: Registry<R>, cs: ChangeSet, now: int)
    requires ValidRegistry(g) && CreationsPaired(cs)
    ensures forall r, e :: r in g.resources && e in g.resources + Listing(CommittedPairs(g, cs, now)) && r.id == e.id ==> r == e
  {
    NewRecordsKeyed(cs, now);
    CommittedKeyedBy(g, cs, now);
    var m := CommittedPairs(g, cs, now);
    assert forall k :: k in m && k in Index(g.resources, RuleRecordId) ==> m[k] == Index(g.resources, RuleRecordId)[k];
    forall r, e | r in g.resources && e in g.resources + Listing(m) && r.id == e.id ensures r == e {
      Final(g.resources, m, RuleRecordId, r, e);
    }
  }

  lemma ListsAreFinal<R>(g: Registry<R>, cs: ChangeSet, now: int)
    requires ValidRegistry(g) && CreationsPaired(cs)
    ensures forall r, e :: r in g.lists && e in g.lists + Listing(CommittedLists(g, cs, now)) && r.id == e.id ==> r == e
  {
    NewRecordsKeyed(cs, now);
    CommittedKeyedBy(g, cs, now);
    var m := CommittedLists(g, cs, now);
    assert forall k :: k in m && k in Index(g.lists, ListRecordId) ==> m[k] == Index(g.lists, ListRecordId)[k];
    forall r, e | r in g.lists && e in g.lists + Listing(m) && r.id == e.id ensures r == e {
      Final(g.lists, m, ListRecordId, r, e);
    }
  }

  lemma UnchangedOrStored<R>(g: Registry<R>, cs: ChangeSet, now: int)
    requires Commit(g, cs, now).Ok? && CreationsPaired(cs)
    ensures Commit(g, cs, now).value == g
         || Commit(g, cs, now).value == Registry(Listing(CommittedPairs(g, cs, now)), Listing(CommittedLists(g, cs, now)), g.compliance)
  {
  }

  /** Where a dictionary agrees with a table, its listing repeats the table's items. */
  lemma Final<T>(s: seq<T>, m: map<Uid, T>, key: T -> Uid, r: T, e: T)
    requires UniqueKeys(s, key) && KeyedBy(m, key)
    requires forall k :: k in m && k in Index(s, key) ==> m[k] == Index(s, key)[k]
    requires r in s && e in s + Listing(m) && key(r) == key(e)
    ensures r == e
  {
    IndexFacts(s, key);
    ListingMembers(m);
    if e in Listing(m) {
      var k :| k in m && m[k] == e;
      assert key(m[k]) == k;
    }
  }

  lemma {:induction false} UnitOfName(rules: seq<Rule>, name: string, ou: string)
    requires forall i :: 0 <= i < |rules| ==> rules[i].ou == ou
    requires exists i :: 0 <= i < |rules| && name in rules[i].bypassNames
    ensures BypassUnit(rules, name) == ou
  {
    if name !in rules[|rules| - 1].bypassNames {
      var i :| 0 <= i < |rules| && name in rules[i].bypassNames;
      assert rules[..|rules| - 1][i] == rules[i];
      UnitOfName(rules[..|rules| - 1], name, ou);
    }
  }

  /** Every created bypass list takes the unit of the plan. */
  lemma UnitOfCreated(rules: seq<Rule>, name: string, ou: string)
    requires UniqueKeys(rules, RuleId)
    requires forall k :: k in Index(rules, RuleId) ==> Index(rules, RuleId)[k].ou == ou
    requires exists k :: k in Index(rules, RuleId) && name in Index(rules, RuleId)[k].bypassNames
    ensures BypassUnit(rules, name) == ou
  {
    var m := Index(rules, RuleId);
    IndexFacts(rules, RuleId);
    forall n | 0 <= n < |rules| ensures rules[n].ou == ou { assert m[RuleId(rules[n])] == rules[n]; }
    var k :| k in m && name in m[k].bypassNames;
    var i :| 0 <= i < |rules| && rules[i] == m[k];
    UnitOfName(rules, name, ou);
  }

  lemma BypassUnits<R>(b: Work, a: Work, cs: ChangeSet, env: Env<R>, j: Uid)
    requires Describes(cs, b, a) && CreationsPaired(cs) && j in a.lists && j !in b.lists && j !in a.rules
    requires UniqueKeys(cs.rules.created, RuleId)
    requires forall k :: k in a.rules && k !in b.rules ==> a.rules[k].ou == env.ou
    ensures BypassUnit(cs.rules.created, a.lists[j].name) == env.ou
  {
    assert j in Index(cs.lists.created, ListId) && j !in Index(cs.rules.created, RuleId);
    UnitOfCreated(cs.rules.created, a.lists[j].name, env.ou);
  }

  lemma CreatedPairEvidence<R>(b: Work, a: Work, cs: ChangeSet, env: Env<R>, now: int)
    requires Committing(b, a, cs, env) && WellKeyed(a)
    requires forall k :: k in a.rules && k !in b.rules ==> a.rules[k].ou == env.ou
    ensures forall k :: k in a.rules && k !in b.rules ==>
      k in a.lists && Lookup(CommittedPairs(env.registry, cs, now), k) == Some(RuleRecord(k, a.rules[k].name, a.lists[k].name, env.ou, now, None, None))
  {
    forall k | k in a.rules && k !in b.rules
      ensures k in a.lists && Lookup(CommittedPairs(env.registry, cs, now), k) == Some(RuleRecord(k, a.rules[k].name, a.lists[k].name, env.ou, now, None, None))
    {
      PairAt(b, a, cs, env, now, k);
    }
  }

  lemma CreatedListEvidence<R>(b: Work, a: Work, cs: ChangeSet, env: Env<R>, now: int)
    requires Committing(b, a, cs, env) && WellKeyed(a) && UniqueKeys(cs.rules.created, RuleId)
    requires forall k :: k in a.rules && k !in b.rules ==> a.rules[k].ou == env.ou
    ensures forall j :: j in a.lists && j !in b.lists && j !in a.rules ==>
      Lookup(CommittedLists(env.registry, cs, now), j) == Some(ListRecord(j, a.lists[j].name, env.ou, now, None))
  {
    NewIdsUnknown(b, a, cs, env, now);
    forall j | j in a.lists && j !in b.lists && j !in a.rules
      ensures Lookup(CommittedLists(env.registry, cs, now), j) == Some(ListRecord(j, a.lists[j].name, env.ou, now, None))
    {
      BypassUnits(b, a, cs, env, j);
      assert j in NewBypasses(cs, now);
    }
  }

  lemma KeptEvidence<R>(b: Work, a: Work, cs: ChangeSet, env: Env<R>, now: int)
    requires Committing(b, a, cs, env)
    ensures var (p, p') := (Index(env.registry.resources, RuleRecordId), CommittedPairs(env.registry, cs, now));
      && (forall k :: k in b.rules && k !in a.rules && k in b.lists && k !in a.lists ==> k !in p')
      && forall k :: k !in a.rules - b.rules.Keys && !(k in b.rules && k !in a.rules && k in b.lists && k !in a.lists) ==> Lookup(p', k) == Lookup(p, k)
  {
  }

  lemma KeptListEvidence<R>(b: Work, a: Work, cs: ChangeSet, env: Env<R>, now: int)
    requires Committing(b, a, cs, env)
    ensures var (l, l') := (Index(env.registry.lists, ListRecordId), CommittedLists(env.registry, cs, now));
      && (forall j :: j in b.lists && j !in a.lists ==> j !in l')
      && forall j :: j !in a.lists - b.lists.Keys && !(j in b.lists && j !in a.lists) ==> Lookup(l', j) == Lookup(l, j)
  {
  }

  lemma CommitLeaves<R>(b: Work, a: Work, cs: ChangeSet, env: Env<R>, now: int)
    requires Committing(b, a, cs, env) && WellKeyed(a) && UniqueKeys(cs.rules.created, RuleId)
    requires forall k :: k in a.rules && k !in b.rules ==> a.rules[k].ou == env.ou
    ensures Commit(env.registry, cs, now).Ok? && Evidence(b, a, env.registry, Commit(env.registry, cs, now).value, env.ou, now)
  {
    CommitStores(b, a, cs, env, now);
    CreatedPairEvidence(b, a, cs, env, now);
    CreatedListEvidence(b, a, cs, env, now);
    KeptEvidence(b, a, cs, env, now);
    KeptListEvidence(b, a, cs, env, now);
  }

  /** What a successful commit of a plan's change set records: each created rule with its own list
      and each created bypass list, by name, unit and time; a rule removed with its list and each
      removed list are forgotten; every other record stays as it was. */
  lemma PlanEvidence<R>(before: State, plan: seq<Action>, registry: Registry<R>, ids: seq<Uid>, prefix: string, now: int)
    requires Prepared(before, registry, ids, prefix)
    requires Calculate(before, plan, registry, ids, prefix).Ok?
    requires Commit(registry, CalculateChangeSet(before, Calculate(before, plan, registry, ids, prefix).value.state), now).Ok?
    ensures var after := Calculate(before, plan, registry, ids, prefix).value.state;
      Evidence(Start(before, []), Start(after, []), registry, Commit(registry, CalculateChangeSet(before, after), now).value, before.ou, now)
  {
    var a := PlanEnds(before, plan, registry, ids, prefix);
    var after := Calculate(before, plan, registry, ids, prefix).value.state;
    var (b, env, cs) := (Start(before, ids), Env(before.ou, registry, prefix), CalculateChangeSet(before, after));
    SettingRelates(b, a, env);
    PartitionMembers(before.rules, after.rules, RuleId);
    forall j | j in a.lists && j !in b.lists ensures j in b.ids { assert NewName(a.lists[j].name, j, b.ids, env.prefix); }
    CommitLeaves(b, a, cs, env, now);
  }
}
