/** Gmail resources, the observed state of one organizational unit, and plan actions. */
module Resources {
  import opened Ordering
  import opened Keyed

  datatype Kind = Domain | Email

  /** `normalized` is the comparison value the application derives from `value`. */
  datatype Entry = Entry(kind: Kind, value: string, normalized: string)

  datatype AddressList = AddressList(id: Uid, name: string, entries: seq<Entry>)

  datatype Rule = Rule(
    id: Uid,
    name: string,
    ou: string,
    listNames: seq<string>,
    bypassNames: seq<string>,
    notice: Option<string>,
    enabled: bool,
    inherited: bool
  )

  datatype State = State(ou: string, rules: seq<Rule>, lists: seq<AddressList>, unmanaged: seq<string>)

  datatype Action =
    | AddEntries(entries: seq<Entry>, maybeTarget: Option<Uid>, ou: string, notice: Option<string>)
    | RemoveEntries(entries: seq<Entry>, target: Uid)
    | SetNotice(target: Uid, text: string)
    | CreateRule(entries: seq<Entry>, ou: string, bypass: seq<Entry>, notice: Option<string>, enabled: bool)
    | UpdateRule(target: Uid, entries: seq<Entry>, bypass: seq<Entry>, notice: Option<string>, enabled: bool)
    | RemoveRule(target: Uid, withList: bool)
    | SetEnabled(target: Uid, enabled: bool)
    | ListRules
    | OtherSurface // an action of the content-compliance surface

  function RuleId(r: Rule): Uid { r.id }

  function ListId(l: AddressList): Uid { l.id }

  /** Every list name a rule uses. */
  function Refs(r: Rule): seq<string> { r.listNames + r.bypassNames }

  predicate NoDuplicates<T(==)>(s: seq<T>) {
    forall i, j :: 0 <= i < j < |s| ==> s[i] != s[j]
  }

  predicate UniqueEntries(entries: seq<Entry>) {
    forall i, j :: 0 <= i < j < |entries| ==> entries[i].normalized != entries[j].normalized
  }

  predicate EntryLe(a: Entry, b: Entry) {
    if a.normalized == b.normalized then a.kind == Domain || b.kind == Email
    else Below(a.normalized, b.normalized)
  }

  function SortEntries(entries: seq<Entry>): seq<Entry> { Sort(entries, EntryLe) }

  function Normalized(entries: seq<Entry>): set<string> {
    set e | e in entries :: e.normalized
  }

  /** What the state model's validator demands. */
  ghost predicate UniqueIds(s: State) {
    UniqueKeys(s.rules, RuleId) && UniqueKeys(s.lists, ListId)
  }

  function RuleMap(s: State): map<Uid, Rule> { Index(s.rules, RuleId) }

  function ListMap(s: State): map<Uid, AddressList> { Index(s.lists, ListId) }

  lemma EntryLeIsTotalPreorder()
    ensures TotalPreorder(EntryLe)
  {
    forall x, y ensures EntryLe(x, y) || EntryLe(y, x) { BelowTotal(x.normalized, y.normalized); }
    forall x, y, z | EntryLe(x, y) && EntryLe(y, z) ensures EntryLe(x, z) {
      BelowTotal(x.normalized, x.normalized);
      if Below(x.normalized, y.normalized) && Below(y.normalized, z.normalized) {
        BelowTransitive(x.normalized, y.normalized, z.normalized);
        if x.normalized == z.normalized { BelowAntisymmetric(x.normalized, y.normalized); }
      }
    }
  }

  lemma SortEntriesFacts(entries: seq<Entry>)
    ensures Ascending(SortEntries(entries), EntryLe)
    ensures multiset(SortEntries(entries)) == multiset(entries)
    ensures |SortEntries(entries)| == |entries|
    ensures forall e :: e in SortEntries(entries) <==> e in entries
  {
    EntryLeIsTotalPreorder();
    SortFacts(entries, EntryLe);
    assert forall e :: e in SortEntries(entries) <==> e in multiset(SortEntries(entries));
    assert forall e :: e in entries <==> e in multiset(entries);
  }
}
