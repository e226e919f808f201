/** What the browser driver reads back after a write, and exactly when a complete write reads as the
    expected state. */
module DriverRead {
  import opened Ordering
  import opened Keyed
  import opened Resources
  import opened Ownership
  import opened DesiredState
  import opened Integrity
  import opened Authorization
  import opened Reconciliation
  import opened Baseline

  /** The fields of one setting as its editor shows them. */
  datatype Editor = Editor(
    ou: string,
    listNames: seq<string>,
    bypassNames: seq<string>,
    notice: Option<string>,
    enabled: bool,
    inherited: bool
  )

  /** The console pages: the names on the index, and what opens under a display name. */
  datatype Page = Page(index: seq<string>, settings: map<string, Editor>, lists: map<string, seq<Entry>>)

  /** What the loops of the driver collect; the lists are kept by display name. */
  datatype Reading = Reading(rules: seq<Rule>, lists: map<string, AddressList>, unmanaged: seq<string>)

  function DisplayName(l: AddressList): string { l.name }

  function RuleNames(rules: seq<Rule>): seq<string> { seq(|rules|, i requires 0 <= i < |rules| => rules[i].name) }

  function Filled(template: Rule, s: Editor): Rule {
    template.(listNames := s.listNames, bypassNames := s.bypassNames, notice := s.notice, enabled := s.enabled, inherited := s.inherited)
  }

  predicate Opens(template: Rule, page: Page) {
    template.name in page.settings && page.settings[template.name].ou == template.ou
  }

  /** The setting opens under its own name and unit, and every list it names is expected and opens. */
  ghost predicate Reads(template: Rule, page: Page, known: map<string, AddressList>) {
    && Opens(template, page)
    && forall n :: n in Refs(Filled(template, page.settings[template.name])) ==> n in known && n in page.lists
  }

  ghost predicate AllRead(templates: seq<Rule>, page: Page, known: map<string, AddressList>) {
    forall i :: 0 <= i < |templates| ==> Reads(templates[i], page, known)
  }

  ghost function RulesRead(templates: seq<Rule>, page: Page, known: map<string, AddressList>): seq<Rule>
    requires AllRead(templates, page, known)
  {
    seq(|templates|, i requires 0 <= i < |templates| => Filled(templates[i], page.settings[templates[i].name]))
  }

  ghost function ListRead(n: string, page: Page, known: map<string, AddressList>): AddressList
    requires n in known && n in page.lists
  {
    known[n].(entries := page.lists[n])
  }

  ghost function ListsRead(templates: seq<Rule>, page: Page, known: map<string, AddressList>): map<string, AddressList>
    requires AllRead(templates, page, known)
  {
    var names := Referenced(RulesRead(templates, page, known));
    map n | n in names && n in known && n in page.lists :: ListRead(n, page, known)
  }

  /** A name on the index that is not the managed name of an expected rule. */
  function Foreign(names: seq<string>, prefix: string): string -> bool {
    (n: string) => n !in names || !Marked(n, prefix)
  }

  /** `read_blocked_sender_state` before it sorts the lists; nothing when the read raises. */
  ghost function Read(expected: State, page: Page, prefix: string): Option<Reading> {
    var known := Index(expected.lists, DisplayName);
    if AllRead(expected.rules, page, known) then
      Some(Reading(RulesRead(expected.rules, page, known), ListsRead(expected.rules, page, known),
           Sort(Select(page.index, Foreign(RuleNames(expected.rules), prefix)), Below)))
    else None
  }

  /** `read_blocked_sender_state`: the lists in the order of their display names. */
  ghost function ReadBack(expected: State, page: Page, prefix: string): Option<State> {
    var r := Read(expected, page, prefix);
    if r.None? then None else Some(State(expected.ou, r.value.rules, Listing(r.value.lists), r.value.unmanaged))
  }

  lemma ReferencedGrows(rules: seq<Rule>, rule: Rule)
    ensures Referenced(rules + [rule]) == Referenced(rules) + AsSet(Refs(rule))
  {
    var more := rules + [rule];
    assert forall i :: 0 <= i < |rules| ==> more[i] == rules[i];
    assert more[|rules|] == rule;
    forall n ensures n in Referenced(more) <==> n in Referenced(rules) || n in Refs(rule) {
      if n in Referenced(rules) { var i :| 0 <= i < |rules| && n in Refs(rules[i]); assert n in Refs(more[i]); }
      if n in Refs(rule) { assert n in Refs(more[|rules|]); }
    }
  }

  /** The lists of one setting: each is read once, and an unexpected one stops the read. */
  method ReadListsOf(names: seq<string>, page: Page, known: map<string, AddressList>,
      before: map<string, AddressList>) returns (lists: Option<map<string, AddressList>>)
    ensures lists.Some? <==> forall n :: n in names ==> n in known && (n in before || n in page.lists)
    ensures lists.Some? ==> forall n :: n in lists.value <==> n in before || n in names
    ensures lists.Some? ==> forall n :: n in lists.value ==>
      lists.value[n] == if n in before then before[n] else ListRead(n, page, known)
  {
    var found := before;
    for i := 0 to |names|
      invariant forall n :: n in names[..i] ==> n in known && (n in before || n in page.lists)
      invariant forall n :: n in found <==> n in before || n in names[..i]
      invariant forall n :: n in found ==> found[n] == if n in before then before[n] else ListRead(n, page, known)
    {
      var n := names[i];
      if n !in known { return None; }
      if n !in found {
        if n !in page.lists { return None; }
        found := found[n := known[n].(entries := page.lists[n])];
      }
    }
    assert names[..|names|] == names;
    return Some(found);
  }

  /** What the lists read so far are after the first `k` settings. */
  ghost predicate ReadSoFar(templates: seq<Rule>, page: Page, known: map<string, AddressList>, rules: seq<Rule>,
      lists: map<string, AddressList>) {
    && AllRead(templates, page, known)
    && rules == RulesRead(templates, page, known)
    && lists == ListsRead(templates, page, known)
  }

  lemma OneMoreRule(templates: seq<Rule>, t: Rule, page: Page, known: map<string, AddressList>)
    requires AllRead(templates, page, known) && Reads(t, page, known)
    ensures AllRead(templates + [t], page, known)
    ensures RulesRead(templates + [t], page, known) == RulesRead(templates, page, known) + [Filled(t, page.settings[t.name])]
  {
  }

  lemma OneMoreRead(templates: seq<Rule>, t: Rule, page: Page, known: map<string, AddressList>, rules: seq<Rule>,
      lists: map<string, AddressList>, more: map<string, AddressList>)
    requires ReadSoFar(templates, page, known, rules, lists) && Reads(t, page, known)
    requires var names := Refs(Filled(t, page.settings[t.name]));
      && (forall n :: n in more <==> n in lists || n in names)
      && (forall n :: n in more ==> n in known && n in page.lists && more[n] == if n in lists then lists[n] else ListRead(n, page, known))
    ensures ReadSoFar(templates + [t], page, known, rules + [Filled(t, page.settings[t.name])], more)
  {
    OneMoreRule(templates, t, page, known);
    ReferencedGrows(rules, Filled(t, page.settings[t.name]));
    SameLists(Referenced(rules + [Filled(t, page.settings[t.name])]), page, known, more);
  }

  lemma SameLists(names: set<string>, page: Page, known: map<string, AddressList>, lists: map<string, AddressList>)
    requires forall n :: n in lists <==> n in names && n in known && n in page.lists
    requires forall n :: n in lists ==> lists[n] == ListRead(n, page, known)
    ensures lists == map n | n in names && n in known && n in page.lists :: ListRead(n, page, known)
  {
  }

  method ReadBlockedSenders(expected: State, page: Page, prefix: string) returns (r: Option<Reading>)
    ensures r == Read(expected, page, prefix)
  {
    var known := Index(expected.lists, DisplayName);
    var rules: seq<Rule> := [];
    var lists: map<string, AddressList> := map[];
    for i := 0 to |expected.rules|
      invariant ReadSoFar(expected.rules[..i], page, known, rules, lists)
    {
      var t := expected.rules[i];
      assert expected.rules[..i + 1] == expected.rules[..i] + [t];
      if !Opens(t, page) { return None; }
      var observed := Filled(t, page.settings[t.name]);
      var more := ReadListsOf(Refs(observed), page, known, lists);
      if more == None {
        assert !Reads(expected.rules[i], page, known);
        return None;
      }
      OneMoreRead(expected.rules[..i], t, page, known, rules, lists, more.value);
      rules, lists := rules + [observed], more.value;
    }
    assert expected.rules[..|expected.rules|] == expected.rules;
    return Some(Reading(rules, lists, Sort(Select(page.index, Foreign(RuleNames(expected.rules), prefix)), Below)));
  }

  /** Whatever the pages show, a state the driver reads has only lists that its rules name. */
  lemma ReadIsNamed(expected: State, page: Page, prefix: string)
    requires ReadBack(expected, page, prefix).Some?
    ensures EveryListNamed(ReadBack(expected, page, prefix).value)
  {
    var known := Index(expected.lists, DisplayName);
    var lists := ListsRead(expected.rules, page, known);
    IndexFacts(expected.lists, DisplayName);
    ListingMembers(lists);
    forall n | n in lists ensures lists[n].name == n {
      assert DisplayName(known[n]) == n;
    }
  }

  /** A read goes through exactly when every expected rule opens under its name and unit, and every
      list its editor names is an expected list that opens. */
  lemma ReadSucceedsIff(expected: State, page: Page, prefix: string)
    ensures ReadBack(expected, page, prefix).Some? <==>
      forall i :: 0 <= i < |expected.rules| ==> Legible(expected.rules[i], expected.lists, page)
  {
    var known := Index(expected.lists, DisplayName);
    IndexFacts(expected.lists, DisplayName);
    forall n ensures n in known <==> HasList(expected.lists, n) {
      if n in known { assert known[n] in expected.lists && DisplayName(known[n]) == n; }
      if HasList(expected.lists, n) {
        var l :| l in expected.lists && l.name == n;
        var i :| 0 <= i < |expected.lists| && expected.lists[i] == l;
        assert DisplayName(expected.lists[i]) in known;
      }
    }
    forall i | 0 <= i < |expected.rules| ensures Reads(expected.rules[i], page, known) <==> Legible(expected.rules[i], expected.lists, page) {
      LegibleReads(expected.rules[i], expected.lists, page, known);
    }
  }

  ghost predicate Legible(r: Rule, lists: seq<AddressList>, page: Page) {
    && r.name in page.settings && page.settings[r.name].ou == r.ou
    && forall n :: n in page.settings[r.name].listNames || n in page.settings[r.name].bypassNames ==> HasList(lists, n) && n in page.lists
  }

  lemma LegibleReads(r: Rule, lists: seq<AddressList>, page: Page, known: map<string, AddressList>)
    requires forall n :: n in known <==> HasList(lists, n)
    ensures Reads(r, page, known) <==> Legible(r, lists, page)
  {
    if r.name in page.settings {
      var s := page.settings[r.name];
      assert forall n :: n in Refs(Filled(r, s)) <==> n in s.listNames || n in s.bypassNames;
    }
  }

  /** A rule as its editor shows it, under the identity of the expected rule. */
  ghost predicate ShownBy(r: Rule, template: Rule, page: Page) {
    && r.id == template.id && r.name == template.name && r.ou == template.ou
    && r.name in page.settings
    && var s := page.settings[r.name];
    && s.ou == r.ou && r.listNames == s.listNames && r.bypassNames == s.bypassNames && r.notice == s.notice
    && r.enabled == s.enabled && r.inherited == s.inherited
  }

  ghost predicate ListShownBy(l: AddressList, expected: State, page: Page) {
    && l.name in page.lists && l.entries == page.lists[l.name]
    && exists e :: e in expected.lists && e.name == l.name && e.id == l.id
  }

  /** Whatever is read is what the pages show: every rule field and every entry comes from them, only
      identities come from the expected state. */
  ghost predicate HasList(lists: seq<AddressList>, n: string) { exists l :: l in lists && l.name == n }

  lemma ListsAreShown(expected: State, page: Page, known: map<string, AddressList>)
    requires known == Index(expected.lists, DisplayName) && AllRead(expected.rules, page, known)
    ensures var lists := Listing(ListsRead(expected.rules, page, known));
      && (forall l :: l in lists ==> ListShownBy(l, expected, page))
      && forall n :: n in Referenced(RulesRead(expected.rules, page, known)) ==> HasList(lists, n)
  {
    var lists := ListsRead(expected.rules, page, known);
    IndexFacts(expected.lists, DisplayName);
    ListingMembers(lists);
    forall n | n in lists ensures lists[n].name == n && ListShownBy(lists[n], expected, page) {
      assert known[n] in expected.lists && DisplayName(known[n]) == n;
    }
    var rules := RulesRead(expected.rules, page, known);
    forall n | n in Referenced(rules) ensures HasList(Listing(lists), n) { assert lists[n] in Listing(lists); }
  }

  lemma UnmanagedIsShown(index: seq<string>, names: seq<string>, prefix: string)
    ensures forall n :: n in Sort(Select(index, Foreign(names, prefix)), Below) <==> n in index && (n !in names || !Marked(n, prefix))
  {
    var p := Foreign(names, prefix);
    BelowIsTotalPreorder();
    SortFacts(Select(index, p), Below);
    SelectFacts(index, p);
    forall n ensures n in Sort(Select(index, p), Below) <==> n in index && (n !in names || !Marked(n, prefix)) {
      assert n in Sort(Select(index, p), Below) <==> n in multiset(Sort(Select(index, p), Below));
      assert n in Select(index, p) <==> n in multiset(Select(index, p));
      assert p(n) <==> n !in names || !Marked(n, prefix);
    }
  }

  lemma RulesAreShown(expected: State, page: Page, known: map<string, AddressList>)
    requires AllRead(expected.rules, page, known)
    ensures forall i :: 0 <= i < |expected.rules| ==> ShownBy(RulesRead(expected.rules, page, known)[i], expected.rules[i], page)
  {
    assert forall i :: 0 <= i < |expected.rules| ==> Reads(expected.rules[i], page, known);
  }

  lemma ReadIsShown(expected: State, page: Page, prefix: string)
    requires ReadBack(expected, page, prefix).Some?
    ensures var s := ReadBack(expected, page, prefix).value;
      && s.ou == expected.ou && |s.rules| == |expected.rules|
      && (forall i :: 0 <= i < |s.rules| ==> ShownBy(s.rules[i], expected.rules[i], page))
      && (forall l :: l in s.lists ==> ListShownBy(l, expected, page))
      && (forall n :: n in Referenced(s.rules) ==> HasList(s.lists, n))
      && forall n :: n in s.unmanaged <==> n in page.index && (n !in RuleNames(expected.rules) || !Marked(n, prefix))
  {
    var known := Index(expected.lists, DisplayName);
    RulesAreShown(expected, page, known);
    ListsAreShown(expected, page, known);
    UnmanagedIsShown(page.index, RuleNames(expected.rules), prefix);
  }

  /** So a write that is verified is really there: the editors and lists show the expected state. */
  lemma VerifiedIsShown(after: State, page: Page, prefix: string)
    requires ReadBack(after, page, prefix) == Some(after)
    ensures forall r :: r in after.rules ==> r.name in page.settings && page.settings[r.name] == EditorOf(r)
    ensures forall l :: l in after.lists ==> l.name in page.lists && page.lists[l.name] == l.entries
  {
    ReadIsShown(after, page, prefix);
    forall r | r in after.rules ensures r.name in page.settings && page.settings[r.name] == EditorOf(r) {
      var i :| 0 <= i < |after.rules| && after.rules[i] == r;
      assert ShownBy(after.rules[i], after.rules[i], page);
    }
    forall l | l in after.lists ensures l.name in page.lists && page.lists[l.name] == l.entries { assert ListShownBy(l, after, page); }
  }

  /** The pages after a complete write: every setting and list is as expected, and the index shows
      the expected rules and the foreign ones, in some order. */
  ghost predicate Complete(page: Page, after: State, foreign: seq<string>) {
    && (forall r :: r in after.rules ==>
      r.name in page.settings && page.settings[r.name] == EditorOf(r))
    && (forall l :: l in after.lists ==> l.name in page.lists && page.lists[l.name] == l.entries)
    && multiset(page.index) == multiset(RuleNames(after.rules) + foreign)
  }

  function EditorOf(r: Rule): Editor { Editor(r.ou, r.listNames, r.bypassNames, r.notice, r.enabled, r.inherited) }

  function RuleDisplayName(r: Rule): string { r.name }

  /** The pages that show exactly this state. */
  function PagesOf(s: State, foreign: seq<string>): Page {
    var rules, lists := Index(s.rules, RuleDisplayName), Index(s.lists, DisplayName);
    Page(RuleNames(s.rules) + foreign, map n | n in rules :: EditorOf(rules[n]), map n | n in lists :: lists[n].entries)
  }

  /** A state without repeated display names can be shown completely. */
  lemma PagesAreComplete(s: State, foreign: seq<string>)
    requires UniqueKeys(s.rules, RuleDisplayName) && UniqueKeys(s.lists, DisplayName)
    ensures Complete(PagesOf(s, foreign), s, foreign)
  {
    IndexFacts(s.rules, RuleDisplayName);
    IndexFacts(s.lists, DisplayName);
    forall r | r in s.rules ensures r.name in Index(s.rules, RuleDisplayName) && Index(s.rules, RuleDisplayName)[r.name] == r {
      var i :| 0 <= i < |s.rules| && s.rules[i] == r;
      assert RuleDisplayName(s.rules[i]) == r.name;
    }
    forall l | l in s.lists ensures l.name in Index(s.lists, DisplayName) && Index(s.lists, DisplayName)[l.name] == l {
      var i :| 0 <= i < |s.lists| && s.lists[i] == l;
      assert DisplayName(s.lists[i]) == l.name;
    }
  }

  /** The order of the lists, which is that of their IDs, is also that of their names. */
  ghost predicate NameOrdered(lists: seq<AddressList>) { StrictlyAscending(Keys(lists, DisplayName)) }

  predicate EveryListNamed(s: State) { forall l :: l in s.lists ==> l.name in Referenced(s.rules) }

  predicate EveryRuleMarked(s: State, prefix: string) { forall r :: r in s.rules ==> Marked(r.name, prefix) }

  /** Sorting a part of a keyed tuple by key gives the tuple exactly when it is sorted and the part
      is all of it. */
  lemma ListingIsWhole<T>(s: seq<T>, m: map<Uid, T>, key: T -> Uid)
    requires KeyedBy(m, key) && Listing(m) == s
    ensures StrictlyAscending(Keys(s, key)) && Index(s, key).Keys <= m.Keys
  {
    IndexFacts(s, key);
    ListingFacts(m, key);
    forall k | k in Index(s, key) ensures k in m { assert Index(s, key)[k] in Listing(m); }
  }

  lemma ListingIsSequence<T>(s: seq<T>, m: map<Uid, T>, key: T -> Uid)
    requires KeyedBy(m, key) && forall k :: k in m ==> k in Index(s, key) && m[k] == Index(s, key)[k]
    ensures Listing(m) == s <==> StrictlyAscending(Keys(s, key)) && Index(s, key).Keys <= m.Keys
  {
    if StrictlyAscending(Keys(s, key)) && Index(s, key).Keys <= m.Keys {
      assert m == Index(s, key);
      ListingOfIndex(s, key);
    }
    if Listing(m) == s { ListingIsWhole(s, m, key); }
  }

  lemma DistinctDisplayNames(s: State)
    requires UniqueIds(s) && UniqueListNames(ListMap(s))
    ensures UniqueKeys(s.lists, DisplayName)
  {
    IndexFacts(s.lists, ListId);
    forall i, j | 0 <= i < j < |s.lists| ensures DisplayName(s.lists[i]) != DisplayName(s.lists[j]) {
      assert ListId(s.lists[i]) != ListId(s.lists[j]);
      assert ListMap(s)[ListId(s.lists[i])] == s.lists[i] && ListMap(s)[ListId(s.lists[j])] == s.lists[j];
    }
  }

  lemma NamedIsListed(s: State, r: Rule, n: string) returns (l: AddressList)
    requires LinkedState(s) && r in s.rules && n in Refs(r)
    ensures l in s.lists && l.name == n
  {
    IndexFacts(s.rules, RuleId);
    IndexFacts(s.lists, ListId);
    var i :| 0 <= i < |s.rules| && s.rules[i] == r;
    assert RuleMap(s)[RuleId(s.rules[i])] == r;
    assert RuleLinked(r, RuleId(r), ListMap(s));
    var j :| IsOnlyNamed(ListMap(s), n, j);
    l := ListMap(s)[j];
  }

  /** Under a complete page the driver reads the rules as they are and the lists they name. */
  lemma CompleteReads(after: State, page: Page, foreign: seq<string>)
    requires LinkedState(after) && UniqueListNames(ListMap(after)) && Complete(page, after, foreign)
    ensures var known := Index(after.lists, DisplayName);
      && AllRead(after.rules, page, known)
      && RulesRead(after.rules, page, known) == after.rules
      && ListsRead(after.rules, page, known).Keys == Referenced(after.rules)
      && forall n :: n in Referenced(after.rules) ==> n in known && ListsRead(after.rules, page, known)[n] == known[n]
  {
    var known := Index(after.lists, DisplayName);
    DistinctDisplayNames(after);
    IndexFacts(after.lists, DisplayName);
    forall r, n | r in after.rules && n in Refs(r) ensures n in known && known[n] in after.lists && n in page.lists && page.lists[n] == known[n].entries {
      var l := NamedIsListed(after, r, n);
      var i :| 0 <= i < |after.lists| && after.lists[i] == l;
      assert DisplayName(after.lists[i]) in known;
      assert known[n] in after.lists && DisplayName(known[n]) == n;
    }
    forall i | 0 <= i < |after.rules| ensures Reads(after.rules[i], page, known) {
      var r := after.rules[i];
      assert r in after.rules && Filled(r, page.settings[r.name]) == r;
    }
    assert RulesRead(after.rules, page, known) == after.rules;
  }

  lemma {:induction false} SelectCounts(s: seq<string>, p: string -> bool, x: string)
    ensures multiset(Select(s, p))[x] == if p(x) then multiset(s)[x] else 0
  {
    if s != [] {
      SelectCounts(s[1..], p, x);
      assert s == [s[0]] + s[1..];
    }
  }

  /** The unmanaged names are read as they were exactly when every expected name is a managed one. */
  lemma UnmanagedRead(index: seq<string>, names: seq<string>, foreign: seq<string>, prefix: string)
    requires multiset(index) == multiset(names + foreign) && forall n :: n in names ==> n !in foreign
    ensures Sort(Select(index, Foreign(names, prefix)), Below) == Sort(foreign, Below) <==> forall n :: n in names ==> Marked(n, prefix)
  {
    var read := Select(index, Foreign(names, prefix));
    BelowIsTotalPreorder();
    SortFacts(read, Below);
    SortFacts(foreign, Below);
    ForeignRead(index, names, foreign, prefix);
    if multiset(read) == multiset(foreign) { SortedNamesAgree(read, foreign); }
  }

  lemma ForeignRead(index: seq<string>, names: seq<string>, foreign: seq<string>, prefix: string)
    requires multiset(index) == multiset(names + foreign) && forall n :: n in names ==> n !in foreign
    ensures multiset(Select(index, Foreign(names, prefix))) == multiset(foreign) <==> forall n :: n in names ==> Marked(n, prefix)
  {
    var p, read := Foreign(names, prefix), Select(index, Foreign(names, prefix));
    assert multiset(names + foreign) == multiset(names) + multiset(foreign);
    forall x ensures multiset(read)[x] == if p(x) then multiset(names)[x] + multiset(foreign)[x] else 0 {
      SelectCounts(index, p, x);
    }
    if n :| n in names && !Marked(n, prefix) { assert multiset(read)[n] > 0 && multiset(foreign)[n] == 0; }
  }

  lemma RuleNamesHold(rules: seq<Rule>)
    ensures forall n :: n in RuleNames(rules) ==> exists r :: r in rules && r.name == n
    ensures forall r :: r in rules ==> r.name in RuleNames(rules)
  {
    forall n | n in RuleNames(rules) ensures exists r :: r in rules && r.name == n {
      var i :| 0 <= i < |rules| && RuleNames(rules)[i] == n;
      assert rules[i] in rules;
    }
    forall r | r in rules ensures r.name in RuleNames(rules) {
      var i :| 0 <= i < |rules| && rules[i] == r;
      assert RuleNames(rules)[i] == r.name;
    }
  }

  /** Planned rule names are no foreign names. */
  lemma PlannedNamesAreOwn<R>(before: State, plan: seq<Action>, registry: Registry<R>, ids: seq<Uid>, prefix: string)
    requires Calculate(before, plan, registry, ids, prefix).Ok?
    ensures var after := Calculate(before, plan, registry, ids, prefix).value.state;
      forall n :: n in RuleNames(after.rules) ==> n !in before.unmanaged
  {
    var w := Run(Start(before, ids), plan, Env(before.ou, registry, prefix)).value;
    var after := Calculate(before, plan, registry, ids, prefix).value.state;
    ListingMembers(w.rules);
    RuleNamesHold(after.rules);
  }

  /** Every planned state can be shown completely. */
  lemma PlanPagesAreComplete<R>(before: State, plan: seq<Action>, registry: Registry<R>, ids: seq<Uid>, prefix: string)
    requires Calculate(before, plan, registry, ids, prefix).Ok?
    ensures var after := Calculate(before, plan, registry, ids, prefix).value.state; Complete(PagesOf(after, before.unmanaged), after, before.unmanaged)
  {
    var after := Calculate(before, plan, registry, ids, prefix).value.state;
    PlannedNamesDiffer(before, plan, registry, ids, prefix);
    StartKeyed(before, ids);
    RunKeyed(Start(before, ids), plan, Env(before.ou, registry, prefix));
    StateOfMaps(Run(Start(before, ids), plan, Env(before.ou, registry, prefix)).value, before.ou, before.unmanaged);
    DistinctDisplayNames(after);
    assert UniqueKeys(after.rules, RuleDisplayName);
    PagesAreComplete(after, before.unmanaged);
  }

  /** A completely written plan, read back by the driver, is the expected state if and only if the
      lists' ID order is also their name order, every list is named by a rule, and every rule
      name carries the managed prefix. */
  lemma CompleteWriteReadsBack<R>(before: State, plan: seq<Action>, registry: Registry<R>, ids: seq<Uid>, prefix: string, page: Page)
    requires LinkedState(before) && FreshIds(Start(before, ids))
    requires Calculate(before, plan, registry, ids, prefix).Ok?
    requires Complete(page, Calculate(before, plan, registry, ids, prefix).value.state, before.unmanaged)
    ensures var after := Calculate(before, plan, registry, ids, prefix).value.state;
      var read := ReadBack(after, page, prefix);
      && read.Some?
      && (read.value == after <==> NameOrdered(after.lists) && EveryListNamed(after) && EveryRuleMarked(after, prefix))
  {
    var after := Calculate(before, plan, registry, ids, prefix).value.state;
    PlanKeepsIntegrity(before, plan, registry, ids, prefix);
    PlannedNamesAreOwn(before, plan, registry, ids, prefix);
    CompleteReads(after, page, before.unmanaged);
    ListsReadBack(after, page);
    UnmanagedRead(page.index, RuleNames(after.rules), before.unmanaged, prefix);
    MarkedNames(after, prefix);
  }

  lemma MarkedNames(s: State, prefix: string)
    ensures (forall n :: n in RuleNames(s.rules) ==> Marked(n, prefix)) <==> EveryRuleMarked(s, prefix)
  {
    RuleNamesHold(s.rules);
  }

  /** The lists read in name order are the expected ones in ID order exactly when the orders agree
      and every expected list is named. */
  lemma ListsReadBack(s: State, page: Page)
    requires AllRead(s.rules, page, Index(s.lists, DisplayName))
    requires var known := Index(s.lists, DisplayName); var read := ListsRead(s.rules, page, known);
      && read.Keys == Referenced(s.rules)
      && forall n :: n in Referenced(s.rules) ==> n in known && read[n] == known[n]
    ensures Listing(ListsRead(s.rules, page, Index(s.lists, DisplayName))) == s.lists <==> NameOrdered(s.lists) && EveryListNamed(s)
  {
    IndexFacts(s.lists, DisplayName);
    ListingIsSequence(s.lists, ListsRead(s.rules, page, Index(s.lists, DisplayName)), DisplayName);
    KeysAreNames(s);
  }

  lemma KeysAreNames(s: State)
    ensures Index(s.lists, DisplayName).Keys <= Referenced(s.rules) <==> EveryListNamed(s)
  {
    var known := Index(s.lists, DisplayName);
    IndexFacts(s.lists, DisplayName);
    forall l | l in s.lists ensures l.name in known {
      var i :| 0 <= i < |s.lists| && s.lists[i] == l;
      assert DisplayName(s.lists[i]) in known;
    }
    assert forall n :: n in known ==> known[n] in s.lists && DisplayName(known[n]) == n;
  }

  lemma {:induction false} BelowDecided(a: string, b: string, x: string, y: string)
    requires |a| == |b| && a != b && Below(a, b)
    ensures Below(a + x, b + y) && a + x != b + y
  {
    if a[0] == b[0] {
      assert a == [a[0]] + a[1..] && b == [b[0]] + b[1..];
      BelowDecided(a[1..], b[1..], x, y);
      assert (a + x)[1..] == a[1..] + x && (b + y)[1..] == b[1..] + y;
    }
  }

  lemma {:induction false} BelowPrefixed(p: string, a: string, b: string)
    requires Below(a, b) && a != b
    ensures Below(p + a, p + b) && p + a != p + b
  {
    if p == [] {
      assert p + a == a && p + b == b;
    } else {
      BelowPrefixed(p[1..], a, b);
      assert (p + a)[1..] == p[1..] + a && (p + b)[1..] == p[1..] + b;
    }
  }

  lemma {:induction false} BelowTaken(a: string, b: string, n: nat)
    requires Below(a, b) && n <= |a| && n <= |b|
    ensures Below(a[..n], b[..n])
  {
    if n > 0 && a[0] == b[0] {
      BelowTaken(a[1..], b[1..], n - 1);
      assert a[..n][1..] == a[1..][..n - 1] && b[..n][1..] == b[1..][..n - 1];
    }
  }

  /** A name made from the list's own ID. */
  predicate NamedById(l: AddressList, prefix: string) {
    l.name == ListName(prefix, l.id) || l.name == BypassName(prefix, l.id)
  }

  lemma MadeNamesAscend(a: AddressList, b: AddressList, prefix: string)
    requires NamedById(a, prefix) && NamedById(b, prefix) && |a.id| >= 8 && |b.id| >= 8
    requires Below(a.id, b.id) && Short(a.id) != Short(b.id)
    ensures Below(a.name, b.name) && a.name != b.name
  {
    var p := prefix + " Addresses ";
    BelowTaken(a.id, b.id, 8);
    var x := if a.name == ListName(prefix, a.id) then "" else " bypass";
    var y := if b.name == ListName(prefix, b.id) then "" else " bypass";
    BelowDecided(a.id[..8], b.id[..8], x, y);
    BelowPrefixed(p, a.id[..8] + x, b.id[..8] + y);
    assert a.name == p + (a.id[..8] + x) && b.name == p + (b.id[..8] + y);
  }

  /** With names made from IDs whose first eight digits differ, ID order is name order. */
  lemma MadeNamesAreOrdered(lists: seq<AddressList>, prefix: string)
    requires StrictlyAscending(Keys(lists, ListId))
    requires forall i :: 0 <= i < |lists| ==> NamedById(lists[i], prefix) && |lists[i].id| >= 8
    requires forall i, j :: 0 <= i < j < |lists| ==> Short(lists[i].id) != Short(lists[j].id)
    ensures NameOrdered(lists)
  {
    var ids, names := Keys(lists, ListId), Keys(lists, DisplayName);
    forall i, j | 0 <= i < j < |lists| ensures Below(names[i], names[j]) && names[i] != names[j] {
      assert Below(ids[i], ids[j]) && ids[i] == lists[i].id && ids[j] == lists[j].id;
      MadeNamesAscend(lists[i], lists[j], prefix);
    }
  }

  lemma OrdersDisagree(lists: seq<AddressList>, a: AddressList, b: AddressList)
    requires a in lists && b in lists && StrictlyAscending(Keys(lists, ListId))
    requires Below(b.id, a.id) && b.id != a.id && Below(a.name, b.name) && a.name != b.name
    ensures !NameOrdered(lists)
  {
    var ids, names := Keys(lists, ListId), Keys(lists, DisplayName);
    var i :| 0 <= i < |lists| && lists[i] == a;
    var j :| 0 <= j < |lists| && lists[j] == b;
    assert ListId(a) == ids[i] && ListId(b) == ids[j] && DisplayName(a) == names[i] && DisplayName(b) == names[j];
    if i < j { BelowAntisymmetric(a.id, b.id); }
    if NameOrdered(lists) { BelowAntisymmetric(a.name, b.name); }
  }

  lemma PlanListsAscend<R>(before: State, plan: seq<Action>, registry: Registry<R>, ids: seq<Uid>, prefix: string)
    requires Calculate(before, plan, registry, ids, prefix).Ok?
    ensures StrictlyAscending(Keys(Calculate(before, plan, registry, ids, prefix).value.state.lists, ListId))
  {
    StartKeyed(before, ids);
    RunKeyed(Start(before, ids), plan, Env(before.ou, registry, prefix));
    ListingFacts(Run(Start(before, ids), plan, Env(before.ou, registry, prefix)).value.lists, ListId);
  }
}
