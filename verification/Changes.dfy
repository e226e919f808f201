/** Every successful action is one of six small changes to the two working
    dictionaries. The invariants of the fold are proved change by change. */
module Changes {
  import opened Keyed
  import opened Resources
  import opened Ownership
  import opened DesiredState
  import opened Entries

  datatype Change =
    | Same
    | Fill(k: Uid, entries: seq<Entry>)
    | Edit(k: Uid, rule: Rule, noticed: nat)
    | Birth(rule: Rule, newLists: map<Uid, AddressList>, used: nat)
    | Rebind(k: Uid, rule: Rule, lists: map<Uid, AddressList>, used: nat)
    | Drop(k: Uid, lists: map<Uid, AddressList>)

  ghost function Perform(w: Work, c: Change): Work
    requires c.Fill? ==> c.k in w.lists
    requires c.Birth? || c.Rebind? ==> c.used <= |w.ids|
  {
    match c
    case Same => w
    case Fill(k, entries) => w.(lists := WithEntries(w.lists, k, entries))
    case Edit(k, rule, noticed) => w.(rules := w.rules[k := rule], noticed := noticed)
    case Birth(rule, newLists, used) =>
      w.(rules := w.rules[rule.id := rule], lists := w.lists + newLists, ids := w.ids[used..])
    case Rebind(k, rule, lists, used) => w.(rules := w.rules[k := rule], lists := lists, ids := w.ids[used..])
    case Drop(k, lists) => w.(rules := w.rules - {k}, lists := lists)
  }

  ghost predicate SameIdentity(r: Rule, r': Rule) {
    r'.id == r.id && r'.name == r.name && r'.ou == r.ou && r'.listNames == r.listNames && r'.inherited == r.inherited
  }

  ghost predicate OwnedPair<R>(w: Work, k: Uid, env: Env<R>) {
    && k in w.rules && OwnedRule(w.rules[k], env.registry, env.prefix)
    && |w.rules[k].listNames| == 1
    && IsOnlyNamed(w.lists, w.rules[k].listNames[0], k)
    && OwnedList(w.lists[k], env.registry, env.prefix)
  }

  ghost predicate BornRule<R>(r: Rule, env: Env<R>) {
    && r.name == RuleName(env.prefix, r.id)
    && r.ou == env.ou
    && r.listNames == [ListName(env.prefix, r.id)]
    && !r.inherited
  }

  ghost predicate BirthSound<R>(w: Work, c: Change, env: Env<R>)
    requires c.Birth?
  {
    && 1 <= c.used <= 2 && c.used <= |w.ids|
    && c.rule.id == w.ids[0] && c.rule.id !in w.rules && c.rule.id !in w.lists
    && BornRule(c.rule, env)
    && KeyedBy(c.newLists, ListId)
    && (forall j :: j in c.newLists ==> UniqueEntries(c.newLists[j].entries))
    && (if c.used == 1 then BornAlone(w.ids[0], c, env) else BornWithBypass(w.ids[0], w.ids[1], c, env))
  }

  ghost predicate BornAlone<R>(id: Uid, c: Change, env: Env<R>)
    requires c.Birth?
  {
    && c.rule.bypassNames == []
    && c.newLists.Keys == {id}
    && c.newLists[id].name == ListName(env.prefix, id)
  }

  ghost predicate BornWithBypass<R>(id: Uid, bid: Uid, c: Change, env: Env<R>)
    requires c.Birth?
  {
    && c.rule.bypassNames == [BypassName(env.prefix, bid)]
    && c.newLists.Keys == {id, bid}
    && c.newLists[bid].name == BypassName(env.prefix, bid)
    && (id != bid ==> c.newLists[id].name == ListName(env.prefix, id))
  }

  /** What replacing the bypass lists of rule `k` does to the list dictionary. */
  ghost predicate RebindSound<R>(w: Work, c: Change, env: Env<R>)
    requires c.Rebind?
  {
    c.k in w.rules && RebindLists(w, c, w.rules[c.k].bypassNames, env)
  }

  ghost predicate RebindLists<R>(w: Work, c: Change, was: seq<string>, env: Env<R>)
    requires c.Rebind? && c.k in w.rules
  {
    && OwnedPair(w, c.k, env) && !w.rules[c.k].inherited
    && SameIdentity(w.rules[c.k], c.rule)
    && KeyedBy(c.lists, ListId)
    && c.used <= |w.ids|
    && (forall j :: j in c.lists && j in w.lists && (c.used == 0 || j != w.ids[0]) ==>
      c.lists[j].name == w.lists[j].name && (c.lists[j] == w.lists[j] || OwnedList(w.lists[j], env.registry, env.prefix)))
    && (forall j :: j in w.lists && j !in c.lists ==>
      w.lists[j].name in was && IsOnlyNamed(w.lists, w.lists[j].name, j) && OwnedList(w.lists[j], env.registry, env.prefix))
    && (c.used == 0 ==>
      && c.lists.Keys <= w.lists.Keys
      && (c.rule.bypassNames == [] || (was != [] && c.rule.bypassNames == [was[0]]
        && (NoDuplicates(was) ==> exists j :: IsOnlyNamed(c.lists, was[0], j))))
      && forall n, j :: n in was && n !in c.rule.bypassNames && j in c.lists ==> c.lists[j].name != n)
    && (c.used > 0 ==>
      && c.used == 1 && was == []
      && c.rule.bypassNames == [BypassName(env.prefix, w.ids[0])]
      && c.lists.Keys == w.lists.Keys + {w.ids[0]}
      && c.lists[w.ids[0]].name == BypassName(env.prefix, w.ids[0]))
  }

  ghost predicate DuplicateListNames(lists: map<Uid, AddressList>) {
    exists k, j :: k in lists && j in lists && k != j && lists[k].name == lists[j].name
  }

  ghost predicate DropSound<R>(w: Work, c: Change, env: Env<R>)
    requires c.Drop?
  {
    && OwnedPair(w, c.k, env)
    && c.lists.Keys <= w.lists.Keys
    && (forall j :: j in c.lists ==> c.lists[j] == w.lists[j])
    && (forall j :: j in w.lists && j !in c.lists ==>
      OwnedList(w.lists[j], env.registry, env.prefix) && (j == c.k || w.lists[j].name in w.rules[c.k].bypassNames))
    && (DuplicateListNames(w.lists) ==> DuplicateListNames(c.lists))
    && (c.lists == w.lists || (c.k !in c.lists && forall j :: j in c.lists ==> c.lists[j].name !in w.rules[c.k].bypassNames))
  }

  ghost predicate Sound<R>(w: Work, c: Change, env: Env<R>) {
    match c
    case Same => true
    case Fill(k, _) => OwnedPair(w, k, env)
    case Edit(k, rule, _) =>
      && k in w.rules && OwnedRule(w.rules[k], env.registry, env.prefix)
      && SameIdentity(w.rules[k], rule) && rule.bypassNames == w.rules[k].bypassNames
      && (rule.inherited ==> rule.enabled == w.rules[k].enabled)
    case Birth(_, _, _) => BirthSound(w, c, env)
    case Rebind(_, _, _, _) => RebindSound(w, c, env)
    case Drop(_, _) => DropSound(w, c, env)
  }

  lemma PrimaryMeansPair<R>(w: Work, rule: Rule, env: Env<R>)
    requires WellKeyed(w) && rule.id in w.rules && w.rules[rule.id] == rule
    requires OwnedRule(rule, env.registry, env.prefix) && PrimaryList(rule, w.lists, env).Ok?
    ensures OwnedPair(w, rule.id, env) && PrimaryList(rule, w.lists, env).value == w.lists[rule.id]
  {
  }

  lemma BornPair<R>(w: Work, id: Uid, bid: Uid, rule: Rule, entries: seq<Entry>, bypass: seq<Entry>,
      env: Env<R>) returns (newLists: map<Uid, AddressList>)
    requires UniqueEntries(entries) && UniqueEntries(bypass) && rule.bypassNames == [BypassName(env.prefix, bid)]
    ensures KeyedBy(newLists, ListId) && forall j :: j in newLists ==> UniqueEntries(newLists[j].entries)
    ensures BornWithBypass(id, bid, Birth(rule, newLists, 2), env)
    ensures w.lists + newLists ==
      w.lists[id := AddressList(id, ListName(env.prefix, id), SortEntries(entries))][bid := AddressList(bid,
          BypassName(env.prefix, bid), SortEntries(bypass))]
  {
    SortedStayUnique(entries);
    SortedStayUnique(bypass);
    newLists := map[id := AddressList(id, ListName(env.prefix, id), SortEntries(entries))][bid := AddressList(bid,
        BypassName(env.prefix, bid), SortEntries(bypass))];
    assert newLists.Keys == {id, bid};
  }

  lemma CreatedChange<R>(w: Work, entries: seq<Entry>, notice: Option<string>, ou: string, bypass: seq<Entry>,
      enabled: bool, env: Env<R>) returns (c: Change)
    requires WellKeyed(w) && Created(w, entries, notice, ou, bypass, enabled, env).Ok? && ou == env.ou
    ensures Sound(w, c, env) && c.Birth? && Perform(w, c) == Created(w, entries, notice, ou, bypass, enabled, env).value
  {
    var w' := Created(w, entries, notice, ou, bypass, enabled, env).value;
    var id := w.ids[0];
    if bypass == [] {
      var list := AddressList(id, ListName(env.prefix, id), SortEntries(entries));
      SortedStayUnique(entries);
      c := Birth(w'.rules[id], map[id := list], 1);
      assert BornAlone(id, c, env);
      assert w.lists + map[id := list] == w.lists[id := list];
    } else {
      var newLists := BornPair(w, id, w.ids[1], w'.rules[id], entries, bypass, env);
      c := Birth(w'.rules[id], newLists, 2);
    }
  }

  lemma AddedChange<R>(w: Work, a: Action, env: Env<R>) returns (c: Change)
    requires WellKeyed(w) && a.AddEntries? && a.ou == env.ou && Added(w, a, env).Ok?
    ensures Sound(w, c, env) && (c.Birth? || c.Fill?) && Perform(w, c) == Added(w, a, env).value
  {
    var target := AddTarget(w, a.maybeTarget, a.notice, env).value;
    if target.None? || (a.notice.Some? && a.notice != target.value.notice) {
      c := CreatedChange(w, a.entries, a.notice, a.ou, [], true, env);
    } else {
      PrimaryMeansPair(w, target.value, env);
      c := Fill(target.value.id, Combined(w.lists[target.value.id].entries, a.entries));
    }
  }

  lemma {:induction false} OwnedBypassFacts<R>(names: seq<string>, lists: map<Uid, AddressList>, env: Env<R>)
    requires OwnedBypass(names, lists, env).Ok?
    ensures var ids := OwnedBypass(names, lists, env).value;
      && |ids| == |names|
      && forall i :: 0 <= i < |ids| ==> IsOnlyNamed(lists, names[i], ids[i]) && OwnedList(lists[ids[i]], env.registry, env.prefix)
  {
    if names != [] {
      OwnedBypassFacts(names[1..], lists, env);
    }
  }

  /** The state of an update once its primary list is refilled. */
  ghost predicate Rebinding<R>(w: Work, k: Uid, lists: map<Uid, AddressList>, existing: seq<Uid>, env: Env<R>) {
    && OwnedPair(w, k, env) && !w.rules[k].inherited
    && KeyedBy(lists, ListId) && lists.Keys == w.lists.Keys
    && (forall j :: j in lists ==> lists[j].name == w.lists[j].name && (j != k ==> lists[j] == w.lists[j]))
    && |existing| == |w.rules[k].bypassNames|
    && forall i :: 0 <= i < |existing| ==> OwnedNamed(w.lists, w.rules[k].bypassNames[i], existing[i], env)
  }

  ghost predicate OwnedNamed<R>(lists: map<Uid, AddressList>, name: string, j: Uid, env: Env<R>) {
    IsOnlyNamed(lists, name, j) && OwnedList(lists[j], env.registry, env.prefix)
  }

  lemma KeepIsSound<R>(w: Work, k: Uid, lists: map<Uid, AddressList>, existing: seq<Uid>, entries: seq<Entry>,
      rule: Rule, env: Env<R>)
    requires Rebinding(w, k, lists, existing, env) && existing != []
    requires SameIdentity(w.rules[k], rule) && rule.bypassNames == [lists[existing[0]].name]
    ensures Sound(w, Rebind(k, rule, WithEntries(lists, existing[0], entries) - AsSet(existing[1..]), 0), env)
  {
    var was := w.rules[k].bypassNames;
    assert OwnedNamed(w.lists, was[0], existing[0], env);
    var lists' := WithEntries(lists, existing[0], entries) - AsSet(existing[1..]);
    forall j | j in w.lists && j !in lists' ensures w.lists[j].name in was && OwnedNamed(w.lists, w.lists[j].name, j, env) {
      assert j in existing[1..];
      var i :| 1 <= i < |existing| && existing[i] == j;
      assert OwnedNamed(w.lists, was[i], j, env);
    }
    if NoDuplicates(was) {
      forall i | 1 <= i < |existing| ensures existing[i] != existing[0] {
        assert OwnedNamed(w.lists, was[i], existing[i], env);
      }
      assert existing[0] in lists' && IsOnlyNamed(lists', was[0], existing[0]);
    }
    forall n, j | n in was && n !in rule.bypassNames && j in lists' ensures lists'[j].name != n {
      var i :| 0 <= i < |was| && was[i] == n;
      assert OwnedNamed(w.lists, was[i], existing[i], env);
      assert existing[i] in existing[1..];
    }
  }

  lemma ClearIsSound<R>(w: Work, k: Uid, lists: map<Uid, AddressList>, existing: seq<Uid>, rule: Rule, env: Env<R>)
    requires Rebinding(w, k, lists, existing, env)
    requires SameIdentity(w.rules[k], rule) && rule.bypassNames == []
    ensures Sound(w, Rebind(k, rule, lists - AsSet(existing), 0), env)
  {
    var was := w.rules[k].bypassNames;
    var lists' := lists - AsSet(existing);
    forall j | j in w.lists && j !in lists' ensures w.lists[j].name in was && OwnedNamed(w.lists, w.lists[j].name, j, env) {
      var i :| 0 <= i < |existing| && existing[i] == j;
      assert OwnedNamed(w.lists, was[i], j, env);
    }
    forall n, j | n in was && j in lists' ensures lists'[j].name != n {
      var i :| 0 <= i < |was| && was[i] == n;
      assert OwnedNamed(w.lists, was[i], existing[i], env) && existing[i] in existing;
    }
  }

  lemma GrowIsSound<R>(w: Work, k: Uid, lists: map<Uid, AddressList>, list: AddressList, rule: Rule, env: Env<R>)
    requires Rebinding(w, k, lists, [], env) && w.ids != []
    requires list.id == w.ids[0] && list.name == BypassName(env.prefix, list.id)
    requires SameIdentity(w.rules[k], rule) && rule.bypassNames == [list.name]
    ensures Sound(w, Rebind(k, rule, lists[list.id := list], 1), env)
  {
  }

  lemma UpdateStarts<R>(w: Work, rule: Rule, entries: seq<Entry>, env: Env<R>)
    requires WellKeyed(w) && OwnedPair(w, rule.id, env) && w.rules[rule.id] == rule && !rule.inherited
    requires OwnedBypass(rule.bypassNames, WithEntries(w.lists, rule.id, entries), env).Ok?
    ensures var lists := WithEntries(w.lists, rule.id, entries);
      Rebinding(w, rule.id, lists, OwnedBypass(rule.bypassNames, lists, env).value, env)
  {
    var lists := WithEntries(w.lists, rule.id, entries);
    var existing := OwnedBypass(rule.bypassNames, lists, env).value;
    OwnedBypassFacts(rule.bypassNames, lists, env);
    forall i | 0 <= i < |existing| ensures OwnedNamed(w.lists, rule.bypassNames[i], existing[i], env) {
      assert IsOnlyNamed(lists, rule.bypassNames[i], existing[i]);
      assert forall j :: j in w.lists ==> j in lists && lists[j].name == w.lists[j].name;
      assert lists[existing[i]].id == w.lists[existing[i]].id;
    }
  }

  lemma UpdatedChange<R>(w: Work, a: Action, env: Env<R>) returns (c: Change)
    requires WellKeyed(w) && a.UpdateRule? && Updated(w, a, env).Ok?
    ensures Sound(w, c, env) && c.Rebind? && Perform(w, c) == Updated(w, a, env).value
    ensures c.k == a.target && (c.rule.bypassNames == [] <==> a.bypass == [])
  {
    var rule := OwnedTarget(a.target, w, env).value;
    PrimaryMeansPair(w, rule, env);
    UpdateStarts(w, rule, a.entries, env);
    var lists := WithEntries(w.lists, rule.id, a.entries);
    var existing := OwnedBypass(rule.bypassNames, lists, env).value;
    var w' := Updated(w, a, env).value;
    var rule' := w'.rules[rule.id];
    c := Rebind(rule.id, rule', w'.lists, |w.ids| - |w'.ids|);
    if a.bypass != [] && existing != [] {
      assert OwnedNamed(w.lists, rule.bypassNames[0], existing[0], env);
      KeepIsSound(w, rule.id, lists, existing, a.bypass, rule', env);
    } else if a.bypass == [] {
      ClearIsSound(w, rule.id, lists, existing, rule', env);
    } else {
      GrowIsSound(w, rule.id, lists, w'.lists[w.ids[0]], rule', env);
    }
  }

  lemma {:induction false} BypassRemovedFacts<R>(names: seq<string>, rules: map<Uid, Rule>, lists: map<Uid,
      AddressList>, env: Env<R>)
    requires BypassRemoved(names, rules, lists, env).Ok?
    ensures var rest := BypassRemoved(names, rules, lists, env).value;
      && rest.Keys <= lists.Keys
      && (forall k :: k in rest ==> rest[k] == lists[k] && rest[k].name !in names)
      && (forall k :: k in lists && k !in rest ==> lists[k].name in names && OwnedList(lists[k], env.registry, env.prefix))
      && (DuplicateListNames(lists) ==> DuplicateListNames(rest))
  {
    if names != [] {
      var found := OnlyNamed(lists, names[0]).value;
      assert IsOnlyNamed(lists, names[0], found);
      if DuplicateListNames(lists) { OnlyNamedLeavesDuplicates(lists, names[0], found); }
      BypassRemovedFacts(names[1..], rules, lists - {found}, env);
    }
  }

  lemma OnlyNamedLeavesDuplicates(lists: map<Uid, AddressList>, name: string, k: Uid)
    requires IsOnlyNamed(lists, name, k) && DuplicateListNames(lists)
    ensures DuplicateListNames(lists - {k})
  {
    var i, j :| i in lists && j in lists && i != j && lists[i].name == lists[j].name;
    assert i != k && j != k;
    assert i in lists - {k} && j in lists - {k};
  }

  lemma RemovedChange<R>(w: Work, a: Action, env: Env<R>) returns (c: Change)
    requires WellKeyed(w) && a.RemoveRule? && Removed(w, a, env).Ok?
    ensures Sound(w, c, env) && c.Drop? && Perform(w, c) == Removed(w, a, env).value
    ensures c.k == a.target && (c.lists == w.lists <==> !a.withList)
  {
    var rule := OwnedTarget(a.target, w, env).value;
    PrimaryMeansPair(w, rule, env);
    c := Drop(rule.id, Removed(w, a, env).value.lists);
    if a.withList { RemovedLists(w, rule, env); }
  }

  lemma RemovedLists<R>(w: Work, rule: Rule, env: Env<R>)
    requires OwnedPair(w, rule.id, env) && w.rules[rule.id] == rule
    requires rule.listNames != [] && IsOnlyNamed(w.lists, rule.listNames[0], rule.id)
    requires BypassRemoved(rule.bypassNames, w.rules - {rule.id}, w.lists - {rule.id}, env).Ok?
    ensures var rest := BypassRemoved(rule.bypassNames, w.rules - {rule.id}, w.lists - {rule.id}, env).value;
      rule.id !in rest && DropSound(w, Drop(rule.id, rest), env)
  {
    BypassRemovedFacts(rule.bypassNames, w.rules - {rule.id}, w.lists - {rule.id}, env);
    if DuplicateListNames(w.lists) { OnlyNamedLeavesDuplicates(w.lists, rule.listNames[0], rule.id); }
  }

  /** The decomposition: each successful action performs one sound change. */
  lemma StepChange<R>(w: Work, a: Action, env: Env<R>) returns (c: Change)
    requires WellKeyed(w) && Step(w, a, env).Ok?
    ensures Sound(w, c, env) && Perform(w, c) == Step(w, a, env).value
    ensures c.Rebind? ==> a.UpdateRule? && c.k == a.target && (c.rule.bypassNames == [] <==> a.bypass == [])
    ensures c.Drop? <==> a.RemoveRule?
    ensures c.Drop? ==> (c.lists == w.lists <==> !a.withList)
  {
    match a
    case AddEntries(_, _, _, _) => c := AddedChange(w, a, env);
    case CreateRule(entries, ou, bypass, notice, enabled) => c := CreatedChange(w, entries, notice, ou, bypass, enabled, env);
    case UpdateRule(_, _, _, _, _) => c := UpdatedChange(w, a, env);
    case RemoveRule(_, _) => c := RemovedChange(w, a, env);
    case RemoveEntries(_, _) =>
      var rule := OwnedTarget(a.target, w, env).value;
      PrimaryMeansPair(w, rule, env);
      c := Fill(rule.id, Absent(w.lists[rule.id].entries, Normalized(a.entries)));
    case SetNotice(_, _) =>
      var w' := Noticed(w, a, env).value;
      c := if w' == w then Same else Edit(a.target, w'.rules[a.target], w'.noticed);
    case SetEnabled(_, _) => c := Edit(a.target, Enabled(w, a, env).value.rules[a.target], w.noticed);
    case ListRules => c := Same;
    case OtherSurface => c := Same;
  }

  lemma PerformKeyed<R>(w: Work, c: Change, env: Env<R>)
    requires WellKeyed(w) && Sound(w, c, env)
    ensures WellKeyed(Perform(w, c))
  {
  }
}
