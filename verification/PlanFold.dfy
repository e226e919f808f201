/** The fold of a plan over two working dictionaries, changed in place action by action, proved
    equal to the functions of `DesiredState`. */
module PlanFold {
  import opened Keyed
  import opened Resources
  import opened Ownership
  import opened DesiredState
  import opened Changes

  /** A method that reports `r` and leaves `now` did what the specification says. After an error
      the dictionaries are abandoned. */
  ghost predicate Did(r: Outcome<()>, now: Work, spec: Outcome<Work>) {
    if r.Ok? then spec == Ok(now) else spec == Err(r.error)
  }

  /** As `Did`, without saying which of several errors is reported. */
  ghost predicate DidOrFailed(r: Outcome<()>, now: Work, spec: Outcome<Work>) {
    if r.Ok? then spec == Ok(now) else spec.Err?
  }

  ghost function Prepend(found: seq<Uid>, rest: Outcome<seq<Uid>>): Outcome<seq<Uid>> {
    match rest case Ok(ids) => Ok(found + ids) case Err(e) => Err(e)
  }

  lemma PrependNothing(found: seq<Uid>, rest: Outcome<seq<Uid>>)
    ensures Prepend([], rest) == rest
    ensures Prepend(found, Ok([])) == Ok(found)
  {
    if rest.Ok? { assert [] + rest.value == rest.value; }
    assert found + [] == found;
  }

  lemma PrependStep(found: seq<Uid>, id: Uid, rest: Outcome<seq<Uid>>)
    ensures Prepend(found, Prepend([id], rest)) == Prepend(found + [id], rest)
  {
    if rest.Ok? { assert found + ([id] + rest.value) == found + [id] + rest.value; }
  }

  class PlanFold<R> {
    const env: Env<R>
    var rules: map<Uid, Rule>
    var lists: map<Uid, AddressList>
    var ids: seq<Uid>
    var noticed: nat

    ghost function View(): Work
      reads this
    {
      Work(rules, lists, ids, noticed)
    }

    constructor (before: State, ids: seq<Uid>, env: Env<R>)
      ensures View() == Start(before, ids) && this.env == env
    {
      this.env, rules, lists, this.ids, noticed := env, RuleMap(before), ListMap(before), ids, 0;
    }

    /** The ID of the single list with this name. */
    method Matching(name: string) returns (m: Option<Uid>)
      ensures m == OnlyNamed(lists, name)
    {
      var rest := lists.Keys;
      var found: seq<Uid> := [];
      while rest != {}
        invariant rest <= lists.Keys
        invariant forall i :: 0 <= i < |found| ==> found[i] in lists && found[i] !in rest && lists[found[i]].name == name
        invariant forall k :: k in lists && k !in rest && lists[k].name == name ==> k in found
        invariant NoDuplicates(found)
        decreases |rest|
      {
        var k :| k in rest;
        rest := rest - {k};
        if lists[k].name == name { found := found + [k]; }
      }
      if |found| != 1 {
        forall k ensures !IsOnlyNamed(lists, name, k) {
          if |found| > 1 { assert found[0] != found[1] && lists[found[0]].name == lists[found[1]].name; }
        }
        return None;
      }
      assert IsOnlyNamed(lists, name, found[0]);
      return Some(found[0]);
    }

    method RequireRule(id: Uid) returns (r: Outcome<Rule>)
      ensures r == OwnedTarget(id, View(), env)
    {
      if id !in rules { return Err(AmbiguousTarget); }
      if !OwnedRule(rules[id], env.registry, env.prefix) { return Err(OwnershipNotEstablished); }
      return Ok(rules[id]);
    }

    method RequireRuleList(rule: Rule) returns (r: Outcome<AddressList>)
      ensures r == PrimaryList(rule, lists, env)
    {
      if |rule.listNames| != 1 { return Err(AmbiguousTarget); }
      var match' := Matching(rule.listNames[0]);
      if match' == None || match'.value != rule.id { return Err(AmbiguousTarget); }
      assert IsOnlyNamed(lists, rule.listNames[0], rule.id);
      if !OwnedList(lists[rule.id], env.registry, env.prefix) { return Err(OwnershipNotEstablished); }
      return Ok(lists[rule.id]);
    }

    method OwnedBypassLists(names: seq<string>) returns (r: Outcome<seq<Uid>>)
      ensures r == OwnedBypass(names, lists, env)
    {
      var found: seq<Uid> := [];
      assert names[0..] == names;
      PrependNothing([], OwnedBypass(names, lists, env));
      for n := 0 to |names|
        invariant OwnedBypass(names, lists, env) == Prepend(found, OwnedBypass(names[n..], lists, env))
      {
        assert names[n..][0] == names[n] && names[n..][1..] == names[n + 1..];
        var id := Matching(names[n]);
        if id == None { return Err(AmbiguousTarget); }
        assert IsOnlyNamed(lists, names[n], id.value);
        if !OwnedList(lists[id.value], env.registry, env.prefix) { return Err(OwnershipNotEstablished); }
        PrependStep(found, id.value, OwnedBypass(names[n + 1..], lists, env));
        found := found + [id.value];
      }
      assert names[|names|..] == [];
      PrependNothing(found, Ok([]));
      return Ok(found);
    }

    /** Stores a list under a name of the application's own making. */
    method AddList(id: Uid, name: string, entries: seq<Entry>) returns (r: Outcome<()>)
      modifies this`lists
      ensures r.Ok? ==> NewList(old(lists), id, name, entries) == Ok(lists)
      ensures r.Err? ==> NewList(old(lists), id, name, entries) == Err(r.error)
    {
      if !UniqueEntries(entries) { return Err(InvalidList); }
      lists := lists[id := AddressList(id, name, SortEntries(entries))];
      return Ok(());
    }

    method SetEntries(id: Uid, entries: seq<Entry>)
      requires id in lists
      modifies this`lists
      ensures lists == WithEntries(old(lists), id, entries)
    {
      lists := lists[id := lists[id].(entries := SortEntries(entries))];
    }

    method CreateRule(entries: seq<Entry>, notice: Option<string>, ou: string, bypass: seq<Entry>,
        enabled: bool) returns (r: Outcome<()>)
      modifies this
      ensures Did(r, View(), Created(old(View()), entries, notice, ou, bypass, enabled, env))
    {
      if ids == [] { return Err(IdsExhausted); }
      var id := ids[0];
      ids := ids[1..];
      if id in rules || id in lists { return Err(IdTaken); }
      var listName := ListName(env.prefix, id);
      var added := AddList(id, listName, entries);
      if added.Err? { return added; }
      var bypassNames: seq<string> := [];
      if bypass != [] {
        if ids == [] { return Err(IdsExhausted); }
        var bypassId := ids[0];
        ids := ids[1..];
        var bypassName := BypassName(env.prefix, bypassId);
        added := AddList(bypassId, bypassName, bypass);
        if added.Err? { return added; }
        bypassNames := [bypassName];
      }
      rules := rules[id := Rule(id, RuleName(env.prefix, id), ou, [listName], bypassNames, notice, enabled, false)];
      assert bypass != [] ==> ids == old(ids)[1..][1..] == old(ids)[2..];
      return Ok(());
    }

    ghost predicate Usable(k: Uid)
      requires k in rules
      reads this
    {
      OwnedRule(rules[k], env.registry, env.prefix) && PrimaryList(rules[k], lists, env).Ok?
    }

    /** The rules with a notice, each of which must be owned and linked to its list. */
    method Candidates(notice: Option<string>) returns (r: Outcome<seq<Uid>>)
      ensures r.Ok? ==> NoDuplicates(r.value)
      ensures r.Ok? ==> forall k :: IsCandidate(rules, notice, k) <==> k in r.value
      ensures r.Ok? ==> forall k :: IsCandidate(rules, notice, k) ==> Usable(k)
      ensures r.Err? ==> exists k :: IsCandidate(rules, notice, k) && !Usable(k)
    {
      var rest := rules.Keys;
      var found: seq<Uid> := [];
      while rest != {}
        invariant rest <= rules.Keys
        invariant forall i :: 0 <= i < |found| ==> found[i] !in rest && IsCandidate(rules, notice, found[i])
        invariant forall k :: IsCandidate(rules, notice, k) && k !in rest ==> k in found
        invariant forall k :: IsCandidate(rules, notice, k) && k !in rest ==> Usable(k)
        invariant NoDuplicates(found)
        decreases |rest|
      {
        var k :| k in rest;
        rest := rest - {k};
        if rules[k].notice == notice {
          assert IsCandidate(rules, notice, k);
          if !OwnedRule(rules[k], env.registry, env.prefix) { return Err(OwnershipNotEstablished); }
          var list := RequireRuleList(rules[k]);
          if list.Err? { return Err(list.error); }
          found := found + [k];
        }
      }
      return Ok(found);
    }

    /** `_resolve_add_target` */
    method ResolveAddTarget(target: Option<Uid>, notice: Option<string>) returns (r: Outcome<Option<Rule>>)
      ensures r.Ok? ==> AddTarget(View(), target, notice, env) == r
      ensures r.Err? ==> AddTarget(View(), target, notice, env).Err?
    {
      if target != None {
        var rule :- RequireRule(target.value);
        var list :- RequireRuleList(rule);
        return Ok(Some(rule));
      }
      var candidates :- Candidates(notice);
      if |candidates| > 1 {
        assert candidates[0] != candidates[1] && IsCandidate(rules, notice, candidates[0]) && IsCandidate(rules,
            notice, candidates[1]);
        return Err(AmbiguousTarget);
      }
      if candidates == [] { return Ok(None); }
      assert IsCandidate(rules, notice, candidates[0]);
      assert forall k :: IsCandidate(rules, notice, k) <==> k == candidates[0];
      return Ok(Some(rules[candidates[0]]));
    }

    method AddEntries(a: Action) returns (r: Outcome<()>)
      requires a.AddEntries?
      modifies this
      ensures DidOrFailed(r, View(), Added(old(View()), a, env))
    {
      var target :- ResolveAddTarget(a.maybeTarget, a.notice);
      if target == None || (a.notice != None && a.notice != target.value.notice) {
        r := CreateRule(a.entries, a.notice, a.ou, [], true);
        return r;
      }
      var list :- RequireRuleList(target.value);
      SetEntries(target.value.id, Combined(list.entries, a.entries));
      return Ok(());
    }

    method RemoveEntries(a: Action) returns (r: Outcome<()>)
      requires a.RemoveEntries?
      modifies this
      ensures Did(r, View(), EntriesRemoved(old(View()), a, env))
    {
      var rule :- RequireRule(a.target);
      var list :- RequireRuleList(rule);
      SetEntries(rule.id, Absent(list.entries, Normalized(a.entries)));
      return Ok(());
    }

    method SetNotice(a: Action) returns (r: Outcome<()>)
      requires a.SetNotice?
      modifies this
      ensures Did(r, View(), Noticed(old(View()), a, env))
    {
      var rule :- RequireRule(a.target);
      var list :- RequireRuleList(rule);
      if rule.notice != Some(a.text) {
        rules := rules[rule.id := rule.(notice := Some(a.text))];
        noticed := noticed + |list.entries|;
      }
      return Ok(());
    }

    method SetEnabled(a: Action) returns (r: Outcome<()>)
      requires a.SetEnabled?
      modifies this
      ensures Did(r, View(), Enabled(old(View()), a, env))
    {
      var rule :- RequireRule(a.target);
      if rule.inherited { return Err(AmbiguousTarget); }
      rules := rules[rule.id := rule.(enabled := a.enabled)];
      return Ok(());
    }

    /** Deletes lists one after another; one that is already gone stops the plan. */
    method DeleteLists(doomed: seq<Uid>) returns (r: Outcome<()>)
      requires forall id :: id in doomed ==> id in lists
      modifies this`lists
      ensures r == if NoDuplicates(doomed) then Ok(()) else Err(ListGone)
      ensures r.Ok? ==> lists == old(lists) - AsSet(doomed)
    {
      for n := 0 to |doomed|
        invariant lists == old(lists) - AsSet(doomed[..n])
        invariant NoDuplicates(doomed[..n])
      {
        assert AsSet(doomed[..n + 1]) == AsSet(doomed[..n]) + {doomed[n]};
        assert doomed[n] in doomed;
        if doomed[n] !in lists {
          assert doomed[n] in doomed[..n];
          return Err(ListGone);
        }
        lists := lists - {doomed[n]};
      }
      assert doomed[..|doomed|] == doomed;
      return Ok(());
    }

    method UpdateRule(a: Action) returns (r: Outcome<()>)
      requires a.UpdateRule?
      modifies this
      ensures Did(r, View(), Updated(old(View()), a, env))
    {
      var rule :- RequireRule(a.target);
      if rule.inherited { return Err(AmbiguousTarget); }
      var primary :- RequireRuleList(rule);
      SetEntries(rule.id, a.entries);
      var existing :- OwnedBypassLists(rule.bypassNames);
      OwnedBypassFacts(rule.bypassNames, lists, env);
      var bypassNames: seq<string> := [];
      if a.bypass != [] && existing != [] && existing[0] in lists {
        bypassNames := [lists[existing[0]].name];
        SetEntries(existing[0], a.bypass);
        var gone :- DeleteLists(existing[1..]);
      } else if a.bypass != [] {
        if ids == [] { return Err(IdsExhausted); }
        var bypassId := ids[0];
        ids := ids[1..];
        bypassNames := [BypassName(env.prefix, bypassId)];
        var added := AddList(bypassId, bypassNames[0], a.bypass);
        if added.Err? { return added; }
      } else {
        var gone :- DeleteLists(existing);
      }
      rules := rules[rule.id := rule.(notice := a.notice, enabled := a.enabled, bypassNames := bypassNames)];
      return Ok(());
    }

    method RemoveBypassLists(names: seq<string>) returns (r: Outcome<()>)
      modifies this`lists
      ensures r.Ok? ==> BypassRemoved(names, rules, old(lists), env) == Ok(lists)
      ensures r.Err? ==> BypassRemoved(names, rules, old(lists), env) == Err(r.error)
    {
      for n := 0 to |names|
        invariant BypassRemoved(names, rules, old(lists), env) == BypassRemoved(names[n..], rules, lists, env)
      {
        assert names[n..][0] == names[n] && names[n..][1..] == names[n + 1..];
        var id := Matching(names[n]);
        if id == None { return Err(AmbiguousTarget); }
        assert IsOnlyNamed(lists, names[n], id.value);
        if !OwnedList(lists[id.value], env.registry, env.prefix) { return Err(OwnershipNotEstablished); }
        if exists j :: j in rules && names[n] in rules[j].bypassNames { return Err(AmbiguousTarget); }
        lists := lists - {id.value};
      }
      assert names[|names|..] == [];
      return Ok(());
    }

    method RemoveRule(a: Action) returns (r: Outcome<()>)
      requires a.RemoveRule?
      modifies this
      ensures Did(r, View(), Removed(old(View()), a, env))
    {
      var rule :- RequireRule(a.target);
      var list :- RequireRuleList(rule);
      rules := rules - {rule.id};
      if !a.withList { return Ok(()); }
      if exists j :: j in rules && list.name in rules[j].listNames { return Err(AmbiguousTarget); }
      lists := lists - {rule.id};
      r := RemoveBypassLists(rule.bypassNames);
    }

    method Apply(a: Action) returns (r: Outcome<()>)
      modifies this
      ensures DidOrFailed(r, View(), Step(old(View()), a, env))
      ensures !a.AddEntries? ==> Did(r, View(), Step(old(View()), a, env))
    {
      if RequestedOu(a, env.ou) != env.ou { return Err(AmbiguousTarget); }
      match a {
        case AddEntries(_, _, _, _) => r := AddEntries(a);
        case CreateRule(entries, ou, bypass, notice, enabled) => r := CreateRule(entries, notice, ou, bypass, enabled);
        case RemoveEntries(_, _) => r := RemoveEntries(a);
        case UpdateRule(_, _, _, _, _) => r := UpdateRule(a);
        case SetNotice(_, _) => r := SetNotice(a);
        case SetEnabled(_, _) => r := SetEnabled(a);
        case RemoveRule(_, _) => r := RemoveRule(a);
        case ListRules => r := Ok(());
        case OtherSurface => r := Ok(());
      }
    }

    /** The action loop of `calculate_desired_state`. */
    method ApplyAll(plan: seq<Action>) returns (r: Outcome<()>)
      modifies this
      ensures DidOrFailed(r, View(), Run(old(View()), plan, env))
    {
      for n := 0 to |plan|
        invariant Run(old(View()), plan, env) == Run(View(), plan[n..], env)
      {
        assert plan[n..][0] == plan[n] && plan[n..][1..] == plan[n + 1..];
        r := Apply(plan[n]);
        if r.Err? { return r; }
      }
      assert plan[|plan|..] == [];
      return Ok(());
    }
  }
}
