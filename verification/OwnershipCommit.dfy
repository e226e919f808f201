/** The loops that turn a verified change into ownership records. */
module OwnershipCommit {
  import opened Keyed
  import opened Resources
  import opened Ownership
  import opened DesiredState
  import opened Diff
  import opened Lifecycle
  import opened Baseline

  ghost predicate Named(rules: seq<Rule>, name: string) {
    exists i :: 0 <= i < |rules| && name in rules[i].bypassNames
  }

  ghost predicate BypassedBy(rules: map<Uid, Rule>, name: string) {
    exists k :: k in rules && name in rules[k].bypassNames
  }

  lemma ReferencedByCreated(rules: seq<Rule>)
    requires UniqueKeys(rules, RuleId)
    ensures var m := Index(rules, RuleId);
      forall name :: Named(rules, name) <==> BypassedBy(m, name)
  {
    var m := Index(rules, RuleId);
    IndexFacts(rules, RuleId);
    forall name | Named(rules, name) ensures BypassedBy(m, name) {
      var i :| 0 <= i < |rules| && name in rules[i].bypassNames;
      assert m[RuleId(rules[i])] == rules[i];
    }
    forall name, k | k in m && name in m[k].bypassNames ensures Named(rules, name) {
      assert m[k] in rules;
    }
  }

  /** `referenced_bypass_names` */
  method ReferencedUnits(rules: seq<Rule>) returns (units: map<string, string>)
    ensures forall name :: name in units <==> Named(rules, name)
    ensures forall name :: name in units ==> units[name] == BypassUnit(rules, name)
  {
    units := map[];
    for n := 0 to |rules|
      invariant forall name :: name in units <==> exists i :: 0 <= i < n && name in rules[i].bypassNames
      invariant forall name :: name in units ==> units[name] == BypassUnit(rules[..n], name)
    {
      assert rules[..n + 1][..n] == rules[..n];
      units := units + map name | name in rules[n].bypassNames :: rules[n].ou;
    }
    assert rules[..|rules|] == rules;
  }

  /** `_created_resources`, first loop: one pair for each created rule. */
  method CreatedPairs(cs: ChangeSet, now: int) returns (r: Outcome<map<Uid, RuleRecord>>)
    ensures r.Ok? <==> PairsExact(cs)
    ensures r.Ok? ==> CreationPairs(cs, r.value, now)
  {
    var rules, lists := Index(cs.rules.created, RuleId), Index(cs.lists.created, ListId);
    if !(rules.Keys <= lists.Keys) { return Err(OwnershipNotEstablished); }
    var pairs: map<Uid, RuleRecord> := map[];
    var rest := rules.Keys;
    while rest != {}
      invariant rest <= rules.Keys
      invariant forall k :: k in rules && k !in rest ==> rules[k].listNames == [lists[k].name]
      invariant pairs == map k | k in rules && k !in rest :: PairRecord(rules[k], lists[k], now)
      decreases |rest|
    {
      var k :| k in rest;
      if rules[k].listNames != [lists[k].name] { return Err(OwnershipNotEstablished); }
      pairs := pairs[k := PairRecord(rules[k], lists[k], now)];
      rest := rest - {k};
    }
    return Ok(pairs);
  }

  ghost predicate CreationPairs(cs: ChangeSet, pairs: map<Uid, RuleRecord>, now: int) {
    var rules, lists := Index(cs.rules.created, RuleId), Index(cs.lists.created, ListId);
    rules.Keys <= lists.Keys && pairs == map k | k in rules :: PairRecord(rules[k], lists[k], now)
  }

  ghost predicate PairsExact(cs: ChangeSet) {
    var rules, lists := Index(cs.rules.created, RuleId), Index(cs.lists.created, ListId);
    forall k :: k in rules ==> k in lists && rules[k].listNames == [lists[k].name]
  }

  ghost predicate BypassesReferenced(cs: ChangeSet) {
    var rules, lists := Index(cs.rules.created, RuleId), Index(cs.lists.created, ListId);
    forall j :: j in lists && j !in rules ==> BypassedBy(rules, lists[j].name)
  }

  method NameBypasses(rules: map<Uid, Rule>, lists: map<Uid, AddressList>, units: map<string, string>,
      now: int) returns (r: Outcome<map<Uid, ListRecord>>)
    ensures r.Ok? <==> forall j :: j in lists && j !in rules ==> lists[j].name in units
    ensures r.Ok? ==> forall j :: j in r.value <==> j in lists && j !in rules
    ensures r.Ok? ==> forall j :: j in r.value ==> r.value[j] == BypassRecord(lists[j], units[lists[j].name], now)
  {
    var found: map<Uid, ListRecord> := map[];
    var rest := lists.Keys - rules.Keys;
    while rest != {}
      invariant rest <= lists.Keys - rules.Keys
      invariant forall j :: j in lists && j !in rules && j !in rest ==> lists[j].name in units
      invariant forall j :: j in found <==> j in lists && j !in rules && j !in rest
      invariant forall j :: j in found ==> found[j] == BypassRecord(lists[j], units[lists[j].name], now)
      decreases |rest|
    {
      var j :| j in rest;
      if lists[j].name !in units { return Err(OwnershipNotEstablished); }
      found := found[j := BypassRecord(lists[j], units[lists[j].name], now)];
      rest := rest - {j};
    }
    return Ok(found);
  }

  /** `_created_resources`, second loop: every other created list is a created rule's bypass list. */
  method CreatedBypasses(cs: ChangeSet, now: int) returns (r: Outcome<map<Uid, ListRecord>>)
    requires UniqueKeys(cs.rules.created, RuleId)
    ensures r.Ok? <==> BypassesReferenced(cs)
    ensures r.Ok? ==> r.value == NewBypasses(cs, now)
  {
    var units := ReferencedUnits(cs.rules.created);
    ReferencedByCreated(cs.rules.created);
    r := NameBypasses(Index(cs.rules.created, RuleId), Index(cs.lists.created, ListId), units, now);
  }

  /** Adds proposed records: one already there must say the same and stays. */
  method AddRecords<T(==)>(records: map<Uid, T>, proposed: map<Uid, T>, same: (T, T) -> bool) returns (r: Outcome<map<Uid, T>>)
    ensures r.Ok? <==> forall k :: k in proposed && k in records ==> same(records[k], proposed[k])
    ensures r.Ok? ==> r.value == KeepLeft(records, proposed)
  {
    var grown := records;
    var rest := proposed.Keys;
    while rest != {}
      invariant rest <= proposed.Keys
      invariant forall k :: k in proposed && k !in rest && k in records ==> same(records[k], proposed[k])
      invariant forall k :: k in grown <==> k in records || (k in proposed && k !in rest)
      invariant forall k :: k in grown ==> grown[k] == if k in records then records[k] else proposed[k]
      decreases |rest|
    {
      var k :| k in rest;
      rest := rest - {k};
      if k in records && !same(records[k], proposed[k]) { return Err(OwnershipNotEstablished); }
      if k !in records { grown := grown[k := proposed[k]]; }
    }
    return Ok(grown);
  }

  method RemoveRecords<T>(records: map<Uid, T>, doomed: set<Uid>) returns (kept: map<Uid, T>)
    ensures kept == records - doomed
  {
    kept := records;
    var rest := doomed;
    while rest != {}
      invariant rest <= doomed
      invariant kept == records - (doomed - rest)
      decreases |rest|
    {
      var k :| k in rest;
      rest := rest - {k};
      kept := kept - {k};
    }
  }

  /** The two dictionaries of `commit_verified` before they are sorted and saved. */
  method CommittedRecords<R>(g: Registry<R>, cs: ChangeSet, now: int) returns (r: Outcome<(map<Uid, RuleRecord>,
      map<Uid, ListRecord>)>)
    requires UniqueKeys(cs.rules.created, RuleId)
    ensures r.Ok? <==> CreationsPaired(cs) && RemovalsPaired(cs) && NoConflict(g, cs, now)
    ensures r.Ok? ==> r.value == (CommittedPairs(g, cs, now), CommittedLists(g, cs, now))
  {
    assert CreationsPaired(cs) <==> PairsExact(cs) && BypassesReferenced(cs);
    var pairs := CreatedPairs(cs, now);
    if pairs.Err? { return Err(pairs.error); }
    var bypasses := CreatedBypasses(cs, now);
    if bypasses.Err? { return Err(bypasses.error); }
    var removedRules, removedLists := Index(cs.rules.removed, RuleId), Index(cs.lists.removed, ListId);
    if exists j :: j in removedLists && j !in removedRules && !(exists k :: k in removedRules && removedLists[j].name in removedRules[k].bypassNames) {
      return Err(OwnershipNotEstablished);
    }
    var records, lists := Index(g.resources, RuleRecordId), Index(g.lists, ListRecordId);
    var grown := AddRecords(records, pairs.value, SamePair);
    if grown.Err? { return Err(grown.error); }
    var grownLists := AddRecords(lists, bypasses.value, SameList);
    if grownLists.Err? { return Err(grownLists.error); }
    var keptPairs := RemoveRecords(grown.value, removedRules.Keys * removedLists.Keys);
    var keptLists := RemoveRecords(grownLists.value, removedLists.Keys * lists.Keys);
    return Ok((keptPairs, keptLists));
  }

  /** The rule loop of `_commit_ownership`: every rule of the expected state is recorded with its
      snapshot, keeping the creation time of a record already there. */
  method RecordRules(kept: map<Uid, RuleRecord>, rules: seq<Rule>, byId: map<Uid, AddressList>,
      now: int) returns (resources: map<Uid, RuleRecord>)
    ensures var done := Index(rules, RuleId);
      && (forall k :: k in resources <==> k in kept || k in done)
      && forall k :: k in resources ==> resources[k] == RuleRecordAt(kept, done, byId, k, now)
  {
    ghost var done: map<Uid, Rule> := map[];
    resources := kept;
    for n := 0 to |rules|
      invariant done == Index(rules[..n], RuleId)
      invariant forall k :: k in resources <==> k in kept || k in done
      invariant forall k :: k in resources ==> resources[k] == RuleRecordAt(kept, done, byId, k, now)
    {
      var rule := rules[n];
      assert rules[..n + 1][..n] == rules[..n];
      resources := resources[rule.id := RuleRecordFor(rule, Lookup(byId, rule.id), Lookup(resources, rule.id), now)];
      done := done[rule.id := rule];
    }
    assert rules[..|rules|] == rules;
  }

  ghost function RuleRecordAt(kept: map<Uid, RuleRecord>, done: map<Uid, Rule>, byId: map<Uid, AddressList>, k: Uid,
      now: int): RuleRecord
    requires k in kept || k in done
  {
    if k in done then RuleRecordFor(done[k], Lookup(byId, k), Lookup(kept, k), now) else kept[k]
  }

  /** The list loop: a list that belongs to no recorded rule is recorded on its own. */
  method RecordLists(kept: map<Uid, ListRecord>, byId: map<Uid, AddressList>, ou: string, paired: set<Uid>,
      now: int) returns (lists: map<Uid, ListRecord>)
    ensures forall j :: j in lists <==> j in kept || (j in byId && j !in paired)
    ensures forall j :: j in lists ==> lists[j] == if j in byId && j !in paired then ListRecordFor(byId[j], ou,
        Lookup(kept, j), now) else kept[j]
  {
    lists := kept;
    var rest := byId.Keys;
    while rest != {}
      invariant rest <= byId.Keys
      invariant forall j :: j in lists <==> j in kept || (j in byId && j !in rest && j !in paired)
      invariant forall j :: j in lists ==>
        lists[j] == if j in byId && j !in rest && j !in paired then ListRecordFor(byId[j], ou, Lookup(kept, j), now) else kept[j]
      decreases |rest|
    {
      var j :| j in rest;
      rest := rest - {j};
      if j !in paired {
        lists := lists[j := ListRecordFor(byId[j], ou, Lookup(lists, j), now)];
      }
    }
  }

  lemma RulesRecorded<R>(g: Registry<R>, cs: ChangeSet, now: int, kept: map<Uid, RuleRecord>, resources: map<Uid, RuleRecord>)
    requires kept == Index(g.resources, RuleRecordId) - IdSet(cs.rules.removed, RuleId)
    requires forall k :: k in resources <==> k in kept || k in RuleMap(cs.after)
    requires forall k :: k in resources ==> resources[k] == RuleRecordAt(kept, RuleMap(cs.after), ListMap(cs.after), k, now)
    ensures resources == RecordedRules(g, cs, now)
  {
  }

  lemma ListsRecorded<R>(g: Registry<R>, cs: ChangeSet, now: int, kept: map<Uid, ListRecord>, paired: set<Uid>,
      lists: map<Uid, ListRecord>)
    requires kept == Index(g.lists, ListRecordId) - IdSet(cs.lists.removed, ListId) && paired == RecordedRules(g, cs, now).Keys
    requires forall j :: j in lists <==> j in kept || (j in ListMap(cs.after) && j !in paired)
    requires forall j :: j in lists ==>
      lists[j] == if j in ListMap(cs.after) && j !in paired then ListRecordFor(ListMap(cs.after)[j], cs.after.ou,
          Lookup(kept, j), now) else kept[j]
    ensures lists == RecordedLists(g, cs, now)
  {
  }

  /** The dictionaries `_commit_ownership` sorts and saves for a blocked-sender preview. */
  method PreviewRecords<R>(g: Registry<R>, cs: ChangeSet, now: int) returns (resources: map<Uid, RuleRecord>,
      lists: map<Uid, ListRecord>)
    ensures resources == RecordedRules(g, cs, now)
    ensures lists == RecordedLists(g, cs, now)
  {
    var kept := RemoveRecords(Index(g.resources, RuleRecordId), IdSet(cs.rules.removed, RuleId));
    var byId := ListMap(cs.after);
    resources := RecordRules(kept, cs.after.rules, byId, now);
    RulesRecorded(g, cs, now, kept, resources);
    var keptLists := RemoveRecords(Index(g.lists, ListRecordId), IdSet(cs.lists.removed, ListId));
    lists := RecordLists(keptLists, byId, cs.after.ou, resources.Keys, now);
    ListsRecorded(g, cs, now, keptLists, resources.Keys, lists);
  }
}
