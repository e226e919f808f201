/** The change service draws its ownership IDs before the fold starts. */
module Budget {
  import opened Keyed
  import opened Resources
  import opened Ownership
  import opened DesiredState

  function Cost(a: Action): nat {
    (if a.CreateRule? || a.AddEntries? then 1 else 0)
    + (if (a.CreateRule? || a.UpdateRule?) && a.bypass != [] then 1 else 0)
  }

  /** `maximum_new_rules + maximum_new_lists` */
  function NewIds(plan: seq<Action>): nat {
    if plan == [] then 0 else Cost(plan[0]) + NewIds(plan[1..])
  }

  ghost predicate Within(w: Work, r: Outcome<Work>, cost: nat) {
    && r != Err(IdsExhausted)
    && (r.Ok? ==> DrawnFrom(w.ids, r.value.ids, cost))
  }

  /** At most `cost` IDs were taken from the front. */
  ghost predicate DrawnFrom(ids: seq<Uid>, rest: seq<Uid>, cost: nat) {
    |ids| - cost <= |rest| <= |ids| && rest == ids[|ids| - |rest|..]
  }

  lemma DrawnFacts(ids: seq<Uid>)
    ensures forall cost: nat :: DrawnFrom(ids, ids, cost)
    ensures ids != [] ==> DrawnFrom(ids, ids[1..], 1)
    ensures |ids| > 1 ==> DrawnFrom(ids, ids[2..], 2)
  {
    assert ids == ids[0..];
  }

  lemma StepWithinBudget<R>(w: Work, a: Action, env: Env<R>)
    requires |w.ids| >= Cost(a)
    ensures Within(w, Step(w, a, env), Cost(a))
  {
    match a
    case AddEntries(entries, target, ou, notice) =>
      AddTargetNeedsNoId(w, target, notice, env);
      CreateWithinBudget(w, entries, notice, ou, [], true, env);
      AddWithinBudget(w, a, env);
    case CreateRule(entries, ou, bypass, notice, enabled) => CreateWithinBudget(w, entries, notice, ou, bypass, enabled, env);
    case UpdateRule(_, _, _, _, _) => UpdateWithinBudget(w, a, env);
    case RemoveRule(_, _) => RemoveWithinBudget(w, a, env);
    case _ => OthersDrawNothing(w, a, env);
  }

  lemma CreateWithinBudget<R>(w: Work, entries: seq<Entry>, notice: Option<string>, ou: string, bypass: seq<Entry>,
      enabled: bool, env: Env<R>)
    requires |w.ids| >= if bypass == [] then 1 else 2
    ensures Within(w, Created(w, entries, notice, ou, bypass, enabled, env), if bypass == [] then 1 else 2)
  {
  }

  lemma AddWithinBudget<R>(w: Work, a: Action, env: Env<R>)
    requires a.AddEntries? && |w.ids| >= 1
    requires AddTarget(w, a.maybeTarget, a.notice, env) != Err(IdsExhausted)
    requires Within(w, Created(w, a.entries, a.notice, a.ou, [], true, env), 1)
    ensures Within(w, Added(w, a, env), 1)
  {
  }

  lemma OthersDrawNothing<R>(w: Work, a: Action, env: Env<R>)
    requires a.RemoveEntries? || a.SetNotice? || a.SetEnabled? || a.ListRules? || a.OtherSurface?
    ensures Within(w, Step(w, a, env), 0)
  {
  }

  lemma RemoveWithinBudget<R>(w: Work, a: Action, env: Env<R>)
    requires a.RemoveRule?
    ensures Within(w, Removed(w, a, env), 0)
  {
    if OwnedTarget(a.target, w, env).Ok? {
      var rule := OwnedTarget(a.target, w, env).value;
      RemovalNeedsNoId(rule.bypassNames, w.rules - {rule.id}, w.lists - {rule.id}, env);
    }
  }

  lemma AddTargetNeedsNoId<R>(w: Work, target: Option<Uid>, notice: Option<string>, env: Env<R>)
    ensures AddTarget(w, target, notice, env) != Err(IdsExhausted)
  {
  }

  lemma {:induction false} BypassNeedsNoId<R>(names: seq<string>, lists: map<Uid, AddressList>, env: Env<R>)
    ensures OwnedBypass(names, lists, env) != Err(IdsExhausted)
  {
    if names != [] { BypassNeedsNoId(names[1..], lists, env); }
  }

  lemma {:induction false} RemovalNeedsNoId<R>(names: seq<string>, rules: map<Uid, Rule>, lists: map<Uid,
      AddressList>, env: Env<R>)
    ensures BypassRemoved(names, rules, lists, env) != Err(IdsExhausted)
  {
    if names != [] && OnlyNamed(lists, names[0]).Some? {
      RemovalNeedsNoId(names[1..], rules, lists - {OnlyNamed(lists, names[0]).value}, env);
    }
  }

  lemma RebindWithinBudget<R>(w: Work, a: Action, env: Env<R>, rule: Rule, lists: map<Uid, AddressList>, existing: seq<Uid>)
    requires a.UpdateRule? && |w.ids| >= Cost(a)
    ensures Within(w, Rebound(w, a, env, rule, lists, existing), Cost(a))
  {
    DrawnFacts(w.ids);
  }

  lemma UpdateWithinBudget<R>(w: Work, a: Action, env: Env<R>)
    requires a.UpdateRule? && |w.ids| >= Cost(a)
    ensures Within(w, Updated(w, a, env), Cost(a))
  {
    if OwnedTarget(a.target, w, env).Ok? {
      var rule := OwnedTarget(a.target, w, env).value;
      if !rule.inherited && PrimaryList(rule, w.lists, env).Ok? {
        var found := OwnedBypass(rule.bypassNames, WithEntries(w.lists, rule.id, a.entries), env);
        BypassNeedsNoId(rule.bypassNames, WithEntries(w.lists, rule.id, a.entries), env);
        if found.Ok? { RebindWithinBudget(w, a, env, rule, WithEntries(w.lists, rule.id, a.entries), found.value); }
      }
    }
  }

  lemma {:induction false} NewIdsLast(plan: seq<Action>)
    requires plan != []
    ensures NewIds(plan) == NewIds(plan[..|plan| - 1]) + Cost(plan[|plan| - 1])
  {
    if |plan| > 1 {
      NewIdsLast(plan[1..]);
      assert plan[1..][..|plan| - 2] == plan[..|plan| - 1][1..];
    }
  }

  function Places(plan: seq<Action>, p: Action -> bool): set<nat> { set i: nat | i < |plan| && p(plan[i]) }

  lemma PlacesLast(plan: seq<Action>, p: Action -> bool)
    requires plan != []
    ensures |Places(plan, p)| == |Places(plan[..|plan| - 1], p)| + if p(plan[|plan| - 1]) then 1 else 0
  {
    var n := |plan| - 1;
    assert Places(plan, p) == Places(plan[..n], p) + if p(plan[n]) then {n} else {};
  }

  predicate MayCreateRule(a: Action) { a.CreateRule? || a.AddEntries? }

  predicate MayCreateBypass(a: Action) { (a.CreateRule? || a.UpdateRule?) && a.bypass != [] }

  /** The budget is one ID for each action that may create a rule and one for each that may create
      a bypass list. */
  lemma {:induction false} NewIdsCount(plan: seq<Action>)
    ensures NewIds(plan) == |Places(plan, MayCreateRule)| + |Places(plan, MayCreateBypass)|
  {
    if plan != [] {
      NewIdsLast(plan);
      NewIdsCount(plan[..|plan| - 1]);
      PlacesLast(plan, MayCreateRule);
      PlacesLast(plan, MayCreateBypass);
    }
  }

  lemma {:induction false} RunWithinBudget<R>(w: Work, plan: seq<Action>, env: Env<R>)
    requires |w.ids| >= NewIds(plan)
    ensures Run(w, plan, env) != Err(IdsExhausted)
    decreases |plan|
  {
    if plan != [] {
      StepWithinBudget(w, plan[0], env);
      if Step(w, plan[0], env).Ok? {
        RunWithinBudget(Step(w, plan[0], env).value, plan[1..], env);
      }
    }
  }

  /** The IDs the change service draws suffice: none of the exhaustion errors can occur. */
  lemma DrawnIdsSuffice<R>(before: State, plan: seq<Action>, registry: Registry<R>, ids: seq<Uid>, prefix: string)
    requires |ids| == NewIds(plan)
    ensures Calculate(before, plan, registry, ids, prefix) != Err(IdsExhausted)
  {
    RunWithinBudget(Start(before, ids), plan, Env(before.ou, registry, prefix));
  }
}
