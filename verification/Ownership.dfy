/** The local ownership registry and the two-sided evidence every change needs. */
module Ownership {
  import opened Keyed
  import opened Resources

  datatype RuleRecord = RuleRecord(
    id: Uid,
    ruleName: string,
    listName: string,
    ou: string,
    createdAt: int,
    ruleSnapshot: Option<Rule>,
    listSnapshot: Option<AddressList>
  )

  datatype ListRecord = ListRecord(id: Uid, name: string, ou: string, createdAt: int, snapshot: Option<AddressList>)

  datatype ComplianceRecord<R> = ComplianceRecord(id: Uid, name: string, ou: string, createdAt: int, snapshot: Option<R>)

  datatype Registry<R> = Registry(
    resources: seq<RuleRecord>,
    lists: seq<ListRecord>,
    compliance: seq<ComplianceRecord<R>>
  )

  function RuleRecordId(r: RuleRecord): Uid { r.id }

  function ListRecordId(r: ListRecord): Uid { r.id }

  function ComplianceRecordId<R>(r: ComplianceRecord<R>): Uid { r.id }

  /** The registry validator: no ownership ID occurs twice in the whole registry. */
  ghost predicate ValidRegistry<R>(g: Registry<R>) {
    && UniqueKeys(g.resources, RuleRecordId)
    && UniqueKeys(g.lists, ListRecordId)
    && UniqueKeys(g.compliance, ComplianceRecordId)
    && (forall a, b :: a in g.resources && b in g.lists ==> a.id != b.id)
    && (forall a, b :: a in g.resources && b in g.compliance ==> a.id != b.id)
    && (forall a, b :: a in g.lists && b in g.compliance ==> a.id != b.id)
  }

  /** `id.hex[:8]` */
  function Short(id: Uid): string { if |id| <= 8 then id else id[..8] }

  function RuleName(prefix: string, id: Uid): string { prefix + " Block rule " + Short(id) }

  function ListName(prefix: string, id: Uid): string { prefix + " Addresses " + Short(id) }

  function BypassName(prefix: string, id: Uid): string { ListName(prefix, id) + " bypass" }

  predicate Marked(name: string, prefix: string) { prefix + " " <= name }

  predicate OwnedRule<R>(rule: Rule, g: Registry<R>, prefix: string) {
    var record := Find(g.resources, RuleRecordId, rule.id);
    && record.Some?
    && Marked(rule.name, prefix)
    && record.value.ruleName == rule.name
    && record.value.ou == rule.ou
  }

  /** The recorded name of a list: the paired record wins over the independent one. */
  function RecordedListName<R>(id: Uid, g: Registry<R>): Option<string> {
    var paired := Find(g.resources, RuleRecordId, id);
    if paired.Some? then Some(paired.value.listName)
    else
      var independent := Find(g.lists, ListRecordId, id);
      if independent.Some? then Some(independent.value.name) else None
  }

  predicate OwnedList<R>(list: AddressList, g: Registry<R>, prefix: string) {
    Marked(list.name, prefix) && RecordedListName(list.id, g) == Some(list.name)
  }

  lemma NamesAreMarked(prefix: string, id: Uid)
    ensures Marked(RuleName(prefix, id), prefix)
    ensures Marked(ListName(prefix, id), prefix)
    ensures Marked(BypassName(prefix, id), prefix)
  {
  }

}
