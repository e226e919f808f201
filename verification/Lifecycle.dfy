/** Committing ownership evidence after a verified write. */
module Lifecycle {
  import opened Keyed
  import opened Resources
  import opened Ownership
  import opened DesiredState
  import opened Diff

  /** Every created rule comes with its own list; every other created list is the bypass
      list of a created rule. */
  ghost predicate CreationsPaired(cs: ChangeSet) {
    var rules, lists := Index(cs.rules.created, RuleId), Index(cs.lists.created, ListId);
    && (forall k :: k in rules ==> k in lists && rules[k].listNames == [lists[k].name])
    && (forall j :: j in lists && j !in rules ==> exists k :: k in rules && lists[j].name in rules[k].bypassNames)
  }

  /** Every removed list belonged to a removed rule. */
  ghost predicate RemovalsPaired(cs: ChangeSet) {
    var rules, lists := Index(cs.rules.removed, RuleId), Index(cs.lists.removed, ListId);
    forall j :: j in lists ==> j in rules || exists k :: k in rules && lists[j].name in rules[k].bypassNames
  }

  /** `referenced_bypass_names[name]`: the unit of the last created rule naming the list. */
  function BypassUnit(rules: seq<Rule>, name: string): string {
    if rules == [] then ""
    else if name in rules[|rules| - 1].bypassNames then rules[|rules| - 1].ou
    else BypassUnit(rules[..|rules| - 1], name)
  }

  function PairRecord(rule: Rule, list: AddressList, now: int): RuleRecord {
    RuleRecord(rule.id, rule.name, list.name, rule.ou, now, None, None)
  }

  function BypassRecord(list: AddressList, ou: string, now: int): ListRecord {
    ListRecord(list.id, list.name, ou, now, None)
  }

  predicate SamePair(a: RuleRecord, b: RuleRecord) {
    a.ruleName == b.ruleName && a.listName == b.listName && a.ou == b.ou
  }

  predicate SameList(a: ListRecord, b: ListRecord) { a.name == b.name && a.ou == b.ou }

  ghost function NewPairs(cs: ChangeSet, now: int): map<Uid, RuleRecord>
    requires CreationsPaired(cs)
  {
    var rules, lists := Index(cs.rules.created, RuleId), Index(cs.lists.created, ListId);
    map k | k in rules :: PairRecord(rules[k], lists[k], now)
  }

  ghost function NewBypasses(cs: ChangeSet, now: int): map<Uid, ListRecord> {
    var rules, lists := Index(cs.rules.created, RuleId), Index(cs.lists.created, ListId);
    map j | j in lists && j !in rules :: BypassRecord(lists[j], BypassUnit(cs.rules.created, lists[j].name), now)
  }

  ghost function RemovedPairs(cs: ChangeSet): set<Uid> {
    Index(cs.rules.removed, RuleId).Keys * Index(cs.lists.removed, ListId).Keys
  }

  ghost predicate NoConflict<R>(g: Registry<R>, cs: ChangeSet, now: int)
    requires CreationsPaired(cs)
  {
    var pairs, bypasses := NewPairs(cs, now), NewBypasses(cs, now);
    var records, lists := Index(g.resources, RuleRecordId), Index(g.lists, ListRecordId);
    && (forall k :: k in pairs && k in records ==> SamePair(records[k], pairs[k]))
    && (forall j :: j in bypasses && j in lists ==> SameList(lists[j], bypasses[j]))
  }

  /** Dictionary union in which the left operand's entries survive. */
  function KeepLeft<T>(m: map<Uid, T>, n: map<Uid, T>): map<Uid, T> { n + m }

  ghost function CommittedPairs<R>(g: Registry<R>, cs: ChangeSet, now: int): map<Uid, RuleRecord>
    requires CreationsPaired(cs)
  {
    KeepLeft(Index(g.resources, RuleRecordId), NewPairs(cs, now)) - RemovedPairs(cs)
  }

  ghost function CommittedLists<R>(g: Registry<R>, cs: ChangeSet, now: int): map<Uid, ListRecord> {
    var lists := Index(g.lists, ListRecordId);
    KeepLeft(lists, NewBypasses(cs, now)) - (Index(cs.lists.removed, ListId).Keys * lists.Keys)
  }

  /** The registry `commit_verified` stores for a change set whose expected state was read back. */
  ghost function Commit<R>(g: Registry<R>, cs: ChangeSet, now: int): Outcome<Registry<R>> {
    var _ :- Check(CreationsPaired(cs), OwnershipNotEstablished);
    var _ :- Check(RemovalsPaired(cs), OwnershipNotEstablished);
    var _ :- Check(NoConflict(g, cs, now), OwnershipNotEstablished);
    var pairs, lists := CommittedPairs(g, cs, now), CommittedLists(g, cs, now);
    if pairs == Index(g.resources, RuleRecordId) && lists == Index(g.lists, ListRecordId) then Ok(g)
    else
      var stored := Registry(Listing(pairs), Listing(lists), g.compliance);
      var _ :- Check(ValidRegistry(stored), IdTaken);
      Ok(stored)
  }

  datatype Verdict = Matched | Mismatched | TargetMissing | DuplicateTarget | Indeterminate

  /** `commit_verified`: nothing without a match, and nothing for a state that was not expected. */
  ghost function CommitVerified<R>(g: Registry<R>, cs: ChangeSet, verdict: Verdict, desired: State,
      observed: Option<State>, now: int): Outcome<Registry<R>> {
    if verdict != Matched then Ok(g)
    else
      var _ :- Check(desired == cs.after && observed == Some(cs.after), OwnershipNotEstablished);
      Commit(g, cs, now)
  }

  ghost predicate AllOwned<R>(s: State, g: Registry<R>, prefix: string) {
    && (forall k :: k in RuleMap(s) ==> OwnedRule(RuleMap(s)[k], g, prefix))
    && (forall j :: j in ListMap(s) ==> OwnedList(ListMap(s)[j], g, prefix))
  }
}
