/** Plans whose updates neither add nor drop a bypass list always close: once read back as
    expected, their ownership evidence is committed. */
module SteadyPlans {
  import opened Keyed
  import opened Resources
  import opened Ownership
  import opened DesiredState
  import opened Changes
  import opened Integrity
  import opened Authorization
  import opened Diff
  import opened Lifecycle
  import opened Closure
  import opened CommitClosure
  import opened Reconciliation
  import opened Succession
  import opened MatchedCommit

  ghost predicate ServedByNew(w0: Work, w: Work, j: Uid)
    requires j in w.lists
  {
    exists k :: k in w.rules && k !in w0.rules && w.lists[j].name in Refs(w.rules[k])
  }

  /** Surviving rules have the bypass lists they had, and every new list serves a new rule. */
  ghost predicate Steady(w0: Work, w: Work) {
    && BypassesKept(w0.rules, w.rules)
    && forall j :: j in w.lists && j !in w0.lists ==> ServedByNew(w0, w, j)
  }

  lemma GrownIsSteady(w0: Work, w: Work, w': Work, k: Uid)
    requires Steady(w0, w) && k !in w0.rules && k !in w.rules && k in w'.rules
    requires forall i :: i in w.rules ==> i in w'.rules && w'.rules[i] == w.rules[i]
    requires forall i :: i in w'.rules ==> i == k || i in w.rules
    requires forall j :: j in w'.lists ==> w'.lists[j].name in Refs(w'.rules[k]) || (j in w.lists && w'.lists[j] == w.lists[j])
    ensures Steady(w0, w')
  {
  }

  lemma BirthIsSteady<R>(w0: Work, w: Work, c: Change, env: Env<R>)
    requires Setting(w0, w, env) && Sound(w, c, env) && c.Birth? && Steady(w0, w)
    ensures Steady(w0, Changes.Perform(w, c))
  {
    assert w.ids[0] in w.ids;
    assert c.rule.listNames[0] in Refs(c.rule);
    assert c.used == 2 ==> c.rule.bypassNames[0] in Refs(c.rule);
    GrownIsSteady(w0, w, Changes.Perform(w, c), c.rule.id);
  }

  lemma KeptIsSteady(w0: Work, w: Work, w': Work)
    requires Steady(w0, w)
    requires forall k :: k in w'.rules ==> k in w.rules && w'.rules[k].listNames == w.rules[k].listNames && w'.rules[k].bypassNames == w.rules[k].bypassNames
    requires forall k :: k in w.rules && k !in w'.rules ==> k in w0.rules
    requires forall j :: j in w'.lists ==> j in w.lists && w'.lists[j].name == w.lists[j].name
    ensures Steady(w0, w')
  {
  }

  lemma DroppedWasObserved<R>(w0: Work, w: Work, c: Change, env: Env<R>)
    requires Setting(w0, w, env) && Sound(w, c, env) && c.Drop?
    ensures c.k in w0.rules
  {
    OwnedMeansObserved(w0, w, env);
  }

  lemma OtherIsSteady<R>(w0: Work, w: Work, c: Change, env: Env<R>)
    requires Setting(w0, w, env) && Sound(w, c, env) && Steady(w0, w) && !c.Birth? && !c.Rebind?
    ensures Steady(w0, Changes.Perform(w, c))
  {
    if c.Drop? { DroppedWasObserved(w0, w, c, env); }
    KeptIsSteady(w0, w, Changes.Perform(w, c));
  }

  /** An update of an observed rule that has at most one bypass list leaves it with the list it
      has, or with none. */
  predicate KeepsBypass(a: Action, rules: map<Uid, Rule>) {
    a.UpdateRule? && a.target in rules ==>
      var was := rules[a.target].bypassNames;
      |was| <= 1 && (a.bypass == [] <==> was == [])
  }

  lemma ReboundKeeps<R>(w: Work, c: Change, was: seq<string>, env: Env<R>)
    requires c.Rebind? && c.k in w.rules && RebindLists(w, c, was, env) && |was| <= 1
    requires c.rule.bypassNames == [] <==> was == []
    ensures c.used == 0 && c.rule.bypassNames == was
  {
  }

  lemma RebindIsSteady<R>(w0: Work, w: Work, a: Action, c: Change, env: Env<R>)
    requires Setting(w0, w, env) && Sound(w, c, env) && Steady(w0, w) && c.Rebind?
    requires a.UpdateRule? && c.k == a.target && (c.rule.bypassNames == [] <==> a.bypass == []) && KeepsBypass(a, w0.rules)
    ensures Steady(w0, Changes.Perform(w, c))
  {
    RebindRemovals(w0, w, c, env);
    ReboundKeeps(w, c, w.rules[c.k].bypassNames, env);
    KeptIsSteady(w0, w, Changes.Perform(w, c));
  }

  lemma {:induction false} SteadyRuns<R>(w0: Work, w: Work, plan: seq<Action>, env: Env<R>)
    requires Setting(w0, w, env) && Steady(w0, w) && Run(w, plan, env).Ok?
    requires forall i :: 0 <= i < |plan| ==> KeepsBypass(plan[i], w0.rules)
    ensures Steady(w0, Run(w, plan, env).value)
    decreases |plan|
  {
    if plan != [] {
      var c := StepChange(w, plan[0], env);
      ChangeKeepsSetting(w0, w, c, env);
      if c.Birth? { BirthIsSteady(w0, w, c, env); }
      else if c.Rebind? { RebindIsSteady(w0, w, plan[0], c, env); }
      else { OtherIsSteady(w0, w, c, env); }
      SteadyRuns(w0, Changes.Perform(w, c), plan[1..], env);
    }
  }

  /** After a plan whose updates neither add nor drop a bypass list, a matching read-back commits
      if and only if it has the expected order, and the expected state itself always does; then
      everything in it is owned again. */
  lemma SteadyPlansClose<R>(before: State, plan: seq<Action>, registry: Registry<R>, ids: seq<Uid>, prefix: string,
      observed: State, now: int)
    requires Prepared(before, registry, ids, prefix) && AllOwned(before, registry, prefix)
    requires Calculate(before, plan, registry, ids, prefix).Ok?
    requires forall i :: 0 <= i < |plan| ==> KeepsBypass(plan[i], RuleMap(before))
    requires var after := Calculate(before, plan, registry, ids, prefix).value.state; Verify(after, Some(observed)) == Matched || observed == after
    ensures var after := Calculate(before, plan, registry, ids, prefix).value.state;
      var r := CommitVerified(registry, CalculateChangeSet(before, after), Verify(after, Some(observed)), after, Some(observed), now);
      (r.Ok? <==> observed == after) && (r.Ok? ==> ValidRegistry(r.value) && AllOwned(after, r.value, prefix))
  {
    var env, b := Env(before.ou, registry, prefix), Start(before, ids);
    StartSetting(before, registry, ids, prefix);
    SteadyRuns(b, b, plan, env);
    SteadyEnds(before, plan, registry, ids, prefix);
    OwnershipClosure(before, plan, registry, ids, prefix, Some(observed), now);
  }

  lemma SteadyEnds<R>(before: State, plan: seq<Action>, registry: Registry<R>, ids: seq<Uid>, prefix: string)
    requires Calculate(before, plan, registry, ids, prefix).Ok?
    requires Steady(Start(before, ids), Run(Start(before, ids), plan, Env(before.ou, registry, prefix)).value)
    ensures var after := Calculate(before, plan, registry, ids, prefix).value.state;
      Closes(before, after, ids)
  {
    var b := Start(before, ids);
    var w := Run(b, plan, Env(before.ou, registry, prefix)).value;
    StartKeyed(before, ids);
    RunKeyed(b, plan, Env(before.ou, registry, prefix));
    StateOfMaps(w, before.ou, before.unmanaged);
  }

  /** After such a plan, of two orders of the same two lists one commits and the other does not,
      though both are verified. */
  lemma OneOrderCommits<R>(before: State, plan: seq<Action>, registry: Registry<R>, ids: seq<Uid>, prefix: string, now: int)
    requires Prepared(before, registry, ids, prefix) && AllOwned(before, registry, prefix)
    requires Calculate(before, plan, registry, ids, prefix).Ok?
    requires forall i :: 0 <= i < |plan| ==> KeepsBypass(plan[i], RuleMap(before))
    requires |Calculate(before, plan, registry, ids, prefix).value.state.lists| >= 2
    ensures var after := Calculate(before, plan, registry, ids, prefix).value.state;
      var (cs, swapped) := (CalculateChangeSet(before, after), Some(after.(lists := Swapped(after.lists))));
      && Verify(after, Some(after)) == Matched && CommitVerified(registry, cs, Matched, after, Some(after), now).Ok?
      && Verify(after, swapped) == Matched && CommitVerified(registry, cs, Matched, after, swapped, now).Err?
  {
    var after := Calculate(before, plan, registry, ids, prefix).value.state;
    PlannedNamesDiffer(before, plan, registry, ids, prefix);
    OtherOrder(after);
    PlanVerifies(before, plan, registry, ids, prefix);
    SteadyPlansClose(before, plan, registry, ids, prefix, after, now);
    ReorderedReadIsRefused(before, plan, registry, ids, prefix, after.(lists := Swapped(after.lists)), now);
  }
}
