/** What each action of a plan does, told by looking rules and lists up before and after it. */
module PlanOutcomes {
  import opened Ordering
  import opened Keyed
  import opened Resources
  import opened Ownership
  import opened DesiredState
  import opened Entries
  import opened Changes
  import opened Integrity
  import opened Authorization

  /** In the order of comparison values, a domain before an address. */
  ghost predicate InEntryOrder(s: seq<Entry>) {
    forall i, j :: 0 <= i < j < |s| ==>
      Below(s[i].normalized, s[j].normalized) && (s[i].normalized == s[j].normalized ==> s[i].kind == Domain || s[j].kind == Email)
  }

  lemma SortedIsInOrder(s: seq<Entry>)
    ensures InEntryOrder(SortEntries(s))
  {
    SortEntriesFacts(s);
    var t := SortEntries(s);
    forall i, j | 0 <= i < j < |t|
      ensures Below(t[i].normalized, t[j].normalized) && (t[i].normalized == t[j].normalized ==> t[i].kind == Domain || t[j].kind == Email)
    {
      assert EntryLe(t[i], t[j]);
      BelowTotal(t[i].normalized, t[j].normalized);
    }
  }

  /** The list holds exactly these entries, in order; seen address by address where each address
      occurs once. */
  ghost predicate Filled(s: seq<Entry>, t: seq<Entry>) {
    && multiset(s) == multiset(t) && InEntryOrder(s)
    && (UniqueEntries(t) ==> forall x :: EntryOf(s, x) == EntryOf(t, x))
  }

  lemma SortedFills(t: seq<Entry>)
    ensures Filled(SortEntries(t), t)
  {
    SortEntriesFacts(t);
    SortedIsInOrder(t);
    if UniqueEntries(t) {
      forall x ensures EntryOf(SortEntries(t), x) == EntryOf(t, x) { SortedEntry(t, x); }
    }
  }

  /** Rules and lists outside `rules` and `lists` are as they were, and none came from nowhere. */
  ghost predicate OnlyTouches(w: Work, w': Work, rules: set<Uid>, lists: set<Uid>) {
    && (forall i :: i !in rules ==> Lookup(w'.rules, i) == Lookup(w.rules, i))
    && (forall j :: j !in lists ==> Lookup(w'.lists, j) == Lookup(w.lists, j))
  }

  /** The lists a rule names as bypass lists. */
  ghost function BypassIds(w: Work, names: seq<string>): set<Uid> { set j | j in w.lists && w.lists[j].name in names }

  /** Which bypass list an updated rule has, and what is in it. */
  ghost predicate BypassUpdated<R>(w: Work, w': Work, was: seq<string>, names: seq<string>, bypass: seq<Entry>, env: Env<R>) {
    if bypass == [] then
      names == [] && forall j :: j in w.lists && w.lists[j].name in was ==> j !in w'.lists
    else if was != [] then
      && names == [was[0]]
      && (exists j :: j in w.lists && w.lists[j].name == was[0] && IsOnlyNamed(w'.lists, was[0], j) && Filled(w'.lists[j].entries, bypass))
      && forall j :: j in w.lists && w.lists[j].name in was && w.lists[j].name != was[0] ==> j !in w'.lists
    else
      && w.ids != [] && w'.ids == w.ids[1..]
      && w.ids[0] in w'.lists && w'.lists[w.ids[0]].name == BypassName(env.prefix, w.ids[0])
      && names == [w'.lists[w.ids[0]].name] && Filled(w'.lists[w.ids[0]].entries, bypass)
  }

  /** A rule update. */
  ghost predicate RuleUpdated<R>(w: Work, w': Work, k: Uid, entries: seq<Entry>, bypass: seq<Entry>, notice: Option<string>,
      enabled: bool, env: Env<R>) {
    && k in w.rules && k in w'.rules && k in w.lists && k in w'.lists
    && SameIdentity(w.rules[k], w'.rules[k])
    && w'.rules[k].notice == notice && w'.rules[k].enabled == enabled
    && w'.lists[k].name == w.lists[k].name && Filled(w'.lists[k].entries, entries)
    && BypassUpdated(w, w', w.rules[k].bypassNames, w'.rules[k].bypassNames, bypass, env)
    && OnlyTouches(w, w', {k}, {k} + BypassIds(w, w.rules[k].bypassNames) + if bypass != [] && w.rules[k].bypassNames == [] && w.ids != [] then {w.ids[0]} else {})
  }

  /** The bypass lists found by name are apart from the rule's own list and from each other. */
  lemma ExistingApart<R>(w: Work, k: Uid, lists: map<Uid, AddressList>, existing: seq<Uid>, env: Env<R>)
    requires Rebinding(w, k, lists, existing, env) && NoDuplicates(Refs(w.rules[k]))
    ensures k !in existing && NoDuplicates(existing)
    ensures AsSet(existing) == BypassIds(w, w.rules[k].bypassNames)
    ensures forall i :: 0 <= i < |existing| ==> existing[i] in w.lists && w.lists[existing[i]].name == w.rules[k].bypassNames[i]
  {
    var r := w.rules[k];
    forall i | 0 <= i < |existing| ensures existing[i] in w.lists && w.lists[existing[i]].name == r.bypassNames[i] && r.bypassNames[i] != r.listNames[0] {
      assert OwnedNamed(w.lists, r.bypassNames[i], existing[i], env);
      assert Refs(r)[i + 1] != Refs(r)[0];
    }
    forall i, j | 0 <= i < j < |existing| ensures existing[i] != existing[j] {
      assert Refs(r)[i + 1] != Refs(r)[j + 1];
    }
    forall j | j in BypassIds(w, r.bypassNames) ensures j in existing {
      var i :| 0 <= i < |r.bypassNames| && r.bypassNames[i] == w.lists[j].name;
      assert OwnedNamed(w.lists, r.bypassNames[i], existing[i], env);
    }
  }

  lemma ReusedBypass<R>(w: Work, k: Uid, lists: map<Uid, AddressList>, existing: seq<Uid>, bypass: seq<Entry>, w': Work,
      env: Env<R>)
    requires Rebinding(w, k, lists, existing, env) && NoDuplicates(Refs(w.rules[k])) && existing != [] && bypass != []
    requires w'.lists == WithEntries(lists, existing[0], bypass) - AsSet(existing[1..])
    ensures BypassUpdated(w, w', w.rules[k].bypassNames, [lists[existing[0]].name], bypass, env)
    ensures k in w'.lists && w'.lists[k] == lists[k]
    ensures forall j :: j != k && j !in BypassIds(w, w.rules[k].bypassNames) ==> Lookup(w'.lists, j) == Lookup(w.lists, j)
  {
    ExistingApart(w, k, lists, existing, env);
    var was, j := w.rules[k].bypassNames, existing[0];
    assert OwnedNamed(w.lists, was[0], j, env);
    assert forall i :: 1 <= i < |existing| ==> existing[i] != existing[0] && existing[i] in existing;
    assert forall i :: i in AsSet(existing[1..]) <==> i in existing && i != j;
    SortedFills(bypass);
    assert IsOnlyNamed(w'.lists, was[0], j) && Filled(w'.lists[j].entries, bypass);
  }

  lemma ClearedBypass<R>(w: Work, k: Uid, lists: map<Uid, AddressList>, existing: seq<Uid>, w': Work, env: Env<R>)
    requires Rebinding(w, k, lists, existing, env) && NoDuplicates(Refs(w.rules[k]))
    requires w'.lists == lists - AsSet(existing)
    ensures BypassUpdated(w, w', w.rules[k].bypassNames, [], [], env)
    ensures k in w'.lists && w'.lists[k] == lists[k]
    ensures forall j :: j != k && j !in BypassIds(w, w.rules[k].bypassNames) ==> Lookup(w'.lists, j) == Lookup(w.lists, j)
  {
    ExistingApart(w, k, lists, existing, env);
  }

  lemma NewBypass<R>(w: Work, k: Uid, lists: map<Uid, AddressList>, bypass: seq<Entry>, w': Work, env: Env<R>)
    requires Rebinding(w, k, lists, [], env) && bypass != [] && w.ids != [] && w.ids[0] != k
    requires w'.ids == w.ids[1..]
    requires w'.lists == lists[w.ids[0] := AddressList(w.ids[0], BypassName(env.prefix, w.ids[0]), SortEntries(bypass))]
    ensures BypassUpdated(w, w', w.rules[k].bypassNames, [BypassName(env.prefix, w.ids[0])], bypass, env)
    ensures k in w'.lists && w'.lists[k] == lists[k]
    ensures forall j :: j != k && j != w.ids[0] ==> Lookup(w'.lists, j) == Lookup(w.lists, j)
  {
    SortedFills(bypass);
  }

  lemma ReboundOutcome<R>(w: Work, a: Action, rule: Rule, lists: map<Uid, AddressList>, existing: seq<Uid>, env: Env<R>)
    requires FreshIds(w) && a.UpdateRule? && Rebinding(w, rule.id, lists, existing, env) && w.rules[rule.id] == rule
    requires NoDuplicates(Refs(rule)) && Rebound(w, a, env, rule, lists, existing).Ok?
    ensures var w' := Rebound(w, a, env, rule, lists, existing).value;
      && w'.rules == w.rules[rule.id := rule.(notice := a.notice, enabled := a.enabled, bypassNames := w'.rules[rule.id].bypassNames)]
      && BypassUpdated(w, w', rule.bypassNames, w'.rules[rule.id].bypassNames, a.bypass, env)
      && rule.id in w'.lists && w'.lists[rule.id] == lists[rule.id]
      && forall j :: j != rule.id && j !in BypassIds(w, rule.bypassNames) && !(a.bypass != [] && existing == [] && w.ids != [] && j == w.ids[0]) ==> Lookup(w'.lists, j) == Lookup(w.lists, j)
  {
    var w' := Rebound(w, a, env, rule, lists, existing).value;
    if a.bypass != [] && existing != [] {
      assert OwnedNamed(w.lists, rule.bypassNames[0], existing[0], env);
      ReusedBypass(w, rule.id, lists, existing, a.bypass, w', env);
    } else if a.bypass == [] {
      ClearedBypass(w, rule.id, lists, existing, w', env);
    } else {
      assert w.ids[0] in w.ids;
      NewBypass(w, rule.id, lists, a.bypass, w', env);
    }
  }

  /** After a rule update: the rule's own list holds the action's entries and nothing else, its one
      bypass list (if any) the action's bypass entries, notice and flag are the action's, and no
      other rule or list changed. */
  lemma UpdateOutcome<R>(w: Work, a: Action, env: Env<R>)
    requires WellKeyed(w) && FreshIds(w) && a.UpdateRule? && Step(w, a, env).Ok?
    requires NoDuplicates(Refs(w.rules[a.target]))
    ensures RuleUpdated(w, Step(w, a, env).value, a.target, a.entries, a.bypass, a.notice, a.enabled, env)
  {
    var lists, existing := UpdateIsRebound(w, a, env);
    ReboundOutcome(w, a, w.rules[a.target], lists, existing, env);
    SortedFills(a.entries);
    UpdateAssembled(w, Step(w, a, env).value, a, lists, existing, env);
  }

  lemma UpdateIsRebound<R>(w: Work, a: Action, env: Env<R>) returns (lists: map<Uid, AddressList>, existing: seq<Uid>)
    requires WellKeyed(w) && a.UpdateRule? && Step(w, a, env).Ok?
    ensures a.target in w.rules && w.rules[a.target].id == a.target && Rebinding(w, a.target, lists, existing, env)
    ensures Step(w, a, env) == Rebound(w, a, env, w.rules[a.target], lists, existing)
    ensures a.target in w.lists && lists[a.target] == w.lists[a.target].(entries := SortEntries(a.entries))
  {
    var rule := OwnedTarget(a.target, w, env).value;
    PrimaryMeansPair(w, rule, env);
    UpdateStarts(w, rule, a.entries, env);
    lists := WithEntries(w.lists, rule.id, a.entries);
    existing := OwnedBypass(rule.bypassNames, lists, env).value;
  }

  lemma UpdateAssembled<R>(w: Work, w': Work, a: Action, lists: map<Uid, AddressList>, existing: seq<Uid>, env: Env<R>)
    requires a.UpdateRule? && a.target in w.rules && a.target in w.lists && Rebinding(w, a.target, lists, existing, env)
    requires w.rules[a.target].id == a.target && a.target in w'.rules
    requires w'.rules == w.rules[a.target := w.rules[a.target].(notice := a.notice, enabled := a.enabled, bypassNames := w'.rules[a.target].bypassNames)]
    requires BypassUpdated(w, w', w.rules[a.target].bypassNames, w'.rules[a.target].bypassNames, a.bypass, env)
    requires a.target in w'.lists && w'.lists[a.target].name == w.lists[a.target].name && Filled(w'.lists[a.target].entries, a.entries)
    requires forall j :: j != a.target && j !in BypassIds(w, w.rules[a.target].bypassNames) && !(a.bypass != [] && existing == [] && w.ids != [] && j == w.ids[0]) ==> Lookup(w'.lists, j) == Lookup(w.lists, j)
    ensures RuleUpdated(w, w', a.target, a.entries, a.bypass, a.notice, a.enabled, env)
  {
    var k, was := a.target, w.rules[a.target].bypassNames;
    var lists' := {k} + BypassIds(w, was) + if a.bypass != [] && was == [] && w.ids != [] then {w.ids[0]} else {};
    assert existing == [] <==> was == [];
    assert OnlyTouches(w, w', {k}, lists');
  }

  /** A new rule under the next ID with its own list, and its bypass list if it has one. */
  ghost predicate RuleCreated<R>(w: Work, w': Work, entries: seq<Entry>, notice: Option<string>, ou: string, bypass: seq<Entry>,
      enabled: bool, env: Env<R>) {
    && w.ids != [] && w.ids[0] !in w.rules && w.ids[0] in w'.rules && w.ids[0] !in w.lists && w.ids[0] in w'.lists
    && var (id, r) := (w.ids[0], w'.rules[w.ids[0]]);
    && r.id == id && r.name == RuleName(env.prefix, id) && r.ou == ou && !r.inherited
    && r.notice == notice && r.enabled == enabled
    && w'.lists[id].id == id && w'.lists[id].name == ListName(env.prefix, id) && r.listNames == [w'.lists[id].name]
    && Filled(w'.lists[id].entries, entries)
    && if bypass == [] then r.bypassNames == [] && w'.ids == w.ids[1..] && OnlyTouches(w, w', {id}, {id})
       else
         && |w.ids| > 1 && w'.ids == w.ids[2..] && w.ids[1] !in w.lists && w.ids[1] in w'.lists
         && w'.lists[w.ids[1]].id == w.ids[1] && w'.lists[w.ids[1]].name == BypassName(env.prefix, w.ids[1])
         && r.bypassNames == [w'.lists[w.ids[1]].name]
         && Filled(w'.lists[w.ids[1]].entries, bypass) && OnlyTouches(w, w', {id}, {id, w.ids[1]})
  }

  lemma CreatedOutcome<R>(w: Work, entries: seq<Entry>, notice: Option<string>, ou: string, bypass: seq<Entry>,
      enabled: bool, env: Env<R>)
    requires FreshIds(w) && Created(w, entries, notice, ou, bypass, enabled, env).Ok?
    ensures RuleCreated(w, Created(w, entries, notice, ou, bypass, enabled, env).value, entries, notice, ou, bypass, enabled, env)
  {
    SortedFills(entries);
    SortedFills(bypass);
    if bypass != [] { assert w.ids[0] != w.ids[1] && w.ids[1] in w.ids; }
  }

  lemma CreateOutcome<R>(w: Work, a: Action, env: Env<R>)
    requires FreshIds(w) && a.CreateRule? && Step(w, a, env).Ok?
    ensures RuleCreated(w, Step(w, a, env).value, a.entries, a.notice, env.ou, a.bypass, a.enabled, env)
  {
    CreatedOutcome(w, a.entries, a.notice, a.ou, a.bypass, a.enabled, env);
  }

  /** The list of rule `k` keeps its entries and gains those whose address it lacked. */
  ghost predicate Merged(w: Work, w': Work, k: Uid, entries: seq<Entry>) {
    && k in w.rules && k in w.lists && k in w'.lists
    && w'.lists[k].name == w.lists[k].name && InEntryOrder(w'.lists[k].entries)
    && (forall e :: multiset(w'.lists[k].entries)[e] == multiset(w.lists[k].entries)[e] + if Lists(w.lists[k].entries, e.normalized) then 0 else multiset(entries)[e])
    && OnlyTouches(w, w', {}, {k}) && w'.ids == w.ids && w'.noticed == w.noticed
  }

  ghost predicate Lists(s: seq<Entry>, x: string) { exists o :: o in s && o.normalized == x }

  lemma MergedList(w: Work, w': Work, k: Uid, entries: seq<Entry>)
    requires k in w.rules && k in w.lists && w' == w.(lists := WithEntries(w.lists, k, Combined(w.lists[k].entries, entries)))
    ensures Merged(w, w', k, entries)
  {
    var present := w.lists[k].entries;
    SortEntriesFacts(Combined(present, entries));
    SortedIsInOrder(Combined(present, entries));
    forall e ensures multiset(Combined(present, entries))[e] == multiset(present)[e] + if Lists(present, e.normalized) then 0 else multiset(entries)[e] {
      AbsentCounts(entries, Normalized(present), e);
      assert e.normalized in Normalized(present) <==> Lists(present, e.normalized);
    }
  }

  lemma AddTargetOutcome<R>(w: Work, a: Action, env: Env<R>)
    requires WellKeyed(w) && a.AddEntries? && AddTarget(w, a.maybeTarget, a.notice, env).Ok?
    ensures var t := AddTarget(w, a.maybeTarget, a.notice, env).value;
      && (a.maybeTarget.Some? ==> t.Some? && a.maybeTarget.value in w.rules && t.value == w.rules[a.maybeTarget.value])
      && (a.maybeTarget.None? ==> forall k :: k in w.rules && w.rules[k].notice == a.notice ==> t == Some(w.rules[k]))
      && (a.maybeTarget.None? && t.Some? ==> t.value.id in w.rules && t.value == w.rules[t.value.id] && t.value.notice == a.notice)
  {
    if a.maybeTarget.None? {
      forall k | k in w.rules && w.rules[k].notice == a.notice ensures AddTarget(w, a.maybeTarget, a.notice, env).value == Some(w.rules[k]) {
        assert IsCandidate(w.rules, a.notice, k);
      }
    }
  }

  /** Where an addition goes: to the rule it names, unless it asks for another notice; without a
      name, to the one rule with its notice; otherwise into a new rule. */
  ghost predicate EntriesAdded<R>(w: Work, w': Work, a: Action, env: Env<R>)
    requires a.AddEntries?
  {
    if a.maybeTarget.Some? then
      && a.maybeTarget.value in w.rules
      && if a.notice.None? || a.notice == w.rules[a.maybeTarget.value].notice then Merged(w, w', a.maybeTarget.value, a.entries)
         else RuleCreated(w, w', a.entries, a.notice, env.ou, [], true, env)
    else
      && (forall k :: k in w.rules && w.rules[k].notice == a.notice ==> Merged(w, w', k, a.entries))
      && (forall k, i :: k in w.rules && i in w.rules && w.rules[k].notice == w.rules[i].notice == a.notice ==> k == i)
      && ((forall k :: k in w.rules ==> w.rules[k].notice != a.notice) ==> RuleCreated(w, w', a.entries, a.notice, env.ou, [], true, env))
  }

  lemma AddOutcome<R>(w: Work, a: Action, env: Env<R>)
    requires WellKeyed(w) && FreshIds(w) && a.AddEntries? && Step(w, a, env).Ok?
    ensures EntriesAdded(w, Step(w, a, env).value, a, env)
  {
    var w', target := Step(w, a, env).value, AddTarget(w, a.maybeTarget, a.notice, env).value;
    AddTargetOutcome(w, a, env);
    if target.None? || (a.notice.Some? && a.notice != target.value.notice) {
      CreatedOutcome(w, a.entries, a.notice, a.ou, [], true, env);
    } else {
      AddedToTarget(w, a, target.value, env);
    }
  }

  lemma AddedToTarget<R>(w: Work, a: Action, rule: Rule, env: Env<R>)
    requires WellKeyed(w) && a.AddEntries? && Added(w, a, env).Ok? && rule.id in w.rules && w.rules[rule.id] == rule
    requires AddTarget(w, a.maybeTarget, a.notice, env) == Ok(Some(rule)) && (a.notice.None? || a.notice == rule.notice)
    ensures Merged(w, Added(w, a, env).value, rule.id, a.entries)
  {
    assert rule.id in w.lists && PrimaryList(rule, w.lists, env).value == w.lists[rule.id];
    MergedList(w, Added(w, a, env).value, rule.id, a.entries);
  }

  /** Two rules with the wanted notice leave an addition without a target. */
  lemma AmbiguousAdditionFails<R>(w: Work, a: Action, env: Env<R>, i: Uid, k: Uid)
    requires WellKeyed(w) && a.AddEntries? && a.maybeTarget.None?
    requires i in w.rules && k in w.rules && i != k && w.rules[i].notice == w.rules[k].notice == a.notice
    ensures Step(w, a, env).Err?
  {
    if AddTarget(w, None, a.notice, env).Ok? { AddTargetOutcome(w, a, env); }
  }

  /** The list of rule `k` keeps exactly the entries whose address is not among those given. */
  ghost predicate Pruned(w: Work, w': Work, k: Uid, entries: seq<Entry>) {
    && k in w.rules && k in w.lists && k in w'.lists
    && w'.lists[k].name == w.lists[k].name && InEntryOrder(w'.lists[k].entries)
    && (forall e :: multiset(w'.lists[k].entries)[e] == if Lists(entries, e.normalized) then 0 else multiset(w.lists[k].entries)[e])
    && OnlyTouches(w, w', {}, {k}) && w'.ids == w.ids && w'.noticed == w.noticed
  }

  lemma PrunedList(w: Work, w': Work, k: Uid, entries: seq<Entry>)
    requires k in w.rules && k in w.lists && w' == w.(lists := WithEntries(w.lists, k, Absent(w.lists[k].entries, Normalized(entries))))
    ensures Pruned(w, w', k, entries)
  {
    var present := w.lists[k].entries;
    SortEntriesFacts(Absent(present, Normalized(entries)));
    SortedIsInOrder(Absent(present, Normalized(entries)));
    forall e ensures multiset(Absent(present, Normalized(entries)))[e] == if Lists(entries, e.normalized) then 0 else multiset(present)[e] {
      AbsentCounts(present, Normalized(entries), e);
      assert e.normalized in Normalized(entries) <==> Lists(entries, e.normalized);
    }
  }

  lemma RemoveEntriesOutcome<R>(w: Work, a: Action, env: Env<R>)
    requires WellKeyed(w) && a.RemoveEntries? && Step(w, a, env).Ok?
    ensures Pruned(w, Step(w, a, env).value, a.target, a.entries)
  {
    PrunedList(w, Step(w, a, env).value, a.target, a.entries);
  }

  /** The notice is the action's; the entries it now answers for are counted when it is new. */
  lemma NoticeOutcome<R>(w: Work, a: Action, env: Env<R>)
    requires WellKeyed(w) && a.SetNotice? && Step(w, a, env).Ok?
    ensures var (k, w') := (a.target, Step(w, a, env).value);
      && k in w.rules && k in w.lists && k in w'.rules
      && w'.rules[k] == w.rules[k].(notice := Some(a.text)) && OnlyTouches(w, w', {k}, {}) && w'.ids == w.ids
      && w'.noticed == w.noticed + if w.rules[k].notice == Some(a.text) then 0 else |w.lists[k].entries|
  {
  }

  lemma EnabledOutcome<R>(w: Work, a: Action, env: Env<R>)
    requires WellKeyed(w) && a.SetEnabled? && Step(w, a, env).Ok?
    ensures var (k, w') := (a.target, Step(w, a, env).value);
      && k in w.rules && k in w'.rules && !w.rules[k].inherited
      && w'.rules[k] == w.rules[k].(enabled := a.enabled) && OnlyTouches(w, w', {k}, {}) && w'.ids == w.ids && w'.noticed == w.noticed
  {
  }

  /** The rule is gone; with its list go exactly that list and its bypass lists. */
  lemma RemoveOutcome<R>(w: Work, a: Action, env: Env<R>)
    requires WellKeyed(w) && a.RemoveRule? && Step(w, a, env).Ok?
    ensures var (k, w') := (a.target, Step(w, a, env).value);
      && k in w.rules && w'.rules == w.rules - {k} && w'.ids == w.ids && w'.noticed == w.noticed
      && w'.lists == if a.withList then w.lists - {k} - BypassIds(w, w.rules[k].bypassNames) else w.lists
  {
    var c := RemovedChange(w, a, env);
    var w' := Step(w, a, env).value;
    assert c.k == a.target;
  }

  /** Every display name belongs to one rule, or to one unmanaged rule, or to one list. */
  ghost predicate NamesApart(w: Work, unmanaged: seq<string>) {
    && (forall k, i :: k in w.rules && i in w.rules && w.rules[k].name == w.rules[i].name ==> k == i)
    && (forall k, n :: k in w.rules && 0 <= n < |unmanaged| ==> w.rules[k].name != unmanaged[n])
    && (forall n, m :: 0 <= n < m < |unmanaged| ==> unmanaged[n] != unmanaged[m])
    && forall j, i :: j in w.lists && i in w.lists && w.lists[j].name == w.lists[i].name ==> j == i
  }

  lemma UniqueNamesAreApart(w: Work, unmanaged: seq<string>)
    ensures UniqueNames(w, unmanaged) <==> NamesApart(w, unmanaged)
  {
  }

  /** A plan succeeds exactly when its actions do and leave no display name ambiguous; its state is
      then what the actions left, in ID order, with the unit, the unmanaged names and the count of
      entries under a new notice. */
  lemma CalculateOutcome<R>(before: State, plan: seq<Action>, registry: Registry<R>, ids: seq<Uid>, prefix: string)
    ensures var (run, r) := (Run(Start(before, ids), plan, Env(before.ou, registry, prefix)), Calculate(before, plan, registry, ids, prefix));
      && (r.Ok? <==> run.Ok? && NamesApart(run.value, before.unmanaged))
      && (r.Ok? ==>
          && RuleMap(r.value.state) == run.value.rules && ListMap(r.value.state) == run.value.lists
          && StrictlyAscending(Keys(r.value.state.rules, RuleId)) && StrictlyAscending(Keys(r.value.state.lists, ListId))
          && r.value.state.ou == before.ou && r.value.noticed == run.value.noticed
          && multiset(r.value.state.unmanaged) == multiset(before.unmanaged) && Ascending(r.value.state.unmanaged, Below))
  {
    var b, env := Start(before, ids), Env(before.ou, registry, prefix);
    if Run(b, plan, env).Ok? {
      var w := Run(b, plan, env).value;
      StartKeyed(before, ids);
      RunKeyed(b, plan, env);
      StateOfMaps(w, before.ou, before.unmanaged);
      ListingFacts(w.rules, RuleId);
      ListingFacts(w.lists, ListId);
      BelowIsTotalPreorder();
      SortFacts(before.unmanaged, Below);
      UniqueNamesAreApart(w, before.unmanaged);
    }
  }
}
