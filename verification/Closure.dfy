/** Ownership closure: from a fully owned state, what the commit stores owns every
    resource of the state the plan reached; and exactly when the commit refuses. */
module Closure {
  import opened Keyed
  import opened Resources
  import opened Ownership
  import opened DesiredState
  import opened Changes
  import opened Integrity
  import opened Authorization

  /** New UUIDs occur nowhere in the registry, and their 8-digit prefixes in no observed list name. */
  ghost predicate UnknownIds<R>(ids: seq<Uid>, g: Registry<R>) {
    forall id :: id in ids ==>
      && (forall r :: r in g.resources ==> r.id != id)
      && (forall r :: r in g.lists ==> r.id != id)
      && (forall r :: r in g.compliance ==> r.id != id)
  }

  ghost predicate NewName(name: string, id: Uid, ids: seq<Uid>, prefix: string) {
    id in ids && (name == ListName(prefix, id) || name == BypassName(prefix, id))
  }

  ghost predicate FreshNames(lists: map<Uid, AddressList>, ids: seq<Uid>, prefix: string) {
    forall j, id :: j in lists && id in ids ==> !NewName(lists[j].name, id, ids, prefix)
  }

  ghost predicate BypassEvolved(r: Rule, r': Rule, lists: map<Uid, AddressList>, ids: seq<Uid>, prefix: string) {
    && (forall n, j :: n in r.bypassNames && n !in r'.bypassNames && j in lists ==> lists[j].name != n)
    && (forall n :: n in r'.bypassNames && n !in r.bypassNames ==> exists id :: NewName(n, id, ids, prefix))
    && (r'.bypassNames == r.bypassNames || |r'.bypassNames| <= 1)
  }

  ghost predicate ServedARule(j: Uid, w0: Work)
    requires j in w0.lists
  {
    exists k :: k in w0.rules && (j == k || w0.lists[j].name in w0.rules[k].bypassNames)
  }

  /** How the working sets relate to the observed ones after any part of a plan. */
  ghost predicate Grown<R>(w0: Work, w: Work, env: Env<R>) {
    && (forall k :: k in w.rules && k !in w0.rules ==> k in w0.ids && BornRule(w.rules[k], env))
    && (forall j :: j in w.lists && j !in w0.lists ==> NewName(w.lists[j].name, j, w0.ids, env.prefix))
    && (forall k :: k in w.rules && k in w0.rules ==> BypassEvolved(w0.rules[k], w.rules[k], w.lists, w0.ids, env.prefix))
    && (forall j :: j in w0.lists && j !in w.lists ==> ServedARule(j, w0))
  }

  ghost predicate Setting<R>(w0: Work, w: Work, env: Env<R>) {
    && WellKeyed(w0) && WellKeyed(w) && FreshIds(w) && ClearOf(w0, w)
    && Framed(w0, w, env) && Grown(w0, w, env)
    && (forall id :: id in w.ids ==> id in w0.ids)
    && FreshIds(w0) && UnknownIds(w0.ids, env.registry)
    && FreshNames(w0.lists, w0.ids, env.prefix) && Linked(w0.rules, w0.lists)
  }

  /** Evidence exists only for observed resources, so a plan never edits what it created. */
  lemma OwnedMeansObserved<R>(w0: Work, w: Work, env: Env<R>)
    requires Setting(w0, w, env)
    ensures forall k :: k in w.rules && OwnedRule(w.rules[k], env.registry, env.prefix) ==> k in w0.rules
    ensures forall j :: j in w.lists && OwnedList(w.lists[j], env.registry,
        env.prefix) ==> j in w0.lists && w.lists[j].name == w0.lists[j].name
  {
    forall k | k in w.rules && OwnedRule(w.rules[k], env.registry, env.prefix) ensures k in w0.rules {
      FindFacts(env.registry.resources, RuleRecordId, k);
    }
    forall j | j in w.lists && OwnedList(w.lists[j], env.registry,
        env.prefix) ensures j in w0.lists && w.lists[j].name == w0.lists[j].name {
      FindFacts(env.registry.resources, RuleRecordId, j);
      FindFacts(env.registry.lists, ListRecordId, j);
      assert j in w0.lists ==> ListFramed(w0.lists[j], Lookup(w.lists, j), env);
    }
  }

  lemma RemovedServed<R>(w0: Work, w: Work, k: Uid, j: Uid, env: Env<R>)
    requires Setting(w0, w, env) && k in w.rules && k in w0.rules
    requires j in w0.lists && j in w.lists && w.lists[j].name == w0.lists[j].name
    requires j == k || w.lists[j].name in w.rules[k].bypassNames
    ensures ServedARule(j, w0)
  {
    assert BypassEvolved(w0.rules[k], w.rules[k], w.lists, w0.ids, env.prefix);
    assert forall id :: id in w0.ids ==> !NewName(w0.lists[j].name, id, w0.ids, env.prefix);
  }

  lemma ServedNames<R>(w0: Work, k: Uid, n: string, id: Uid, prefix: string)
    requires Linked(w0.rules, w0.lists) && FreshNames(w0.lists, w0.ids, prefix)
    requires k in w0.rules && n in Refs(w0.rules[k])
    ensures !NewName(n, id, w0.ids, prefix)
  {
    assert RuleLinked(w0.rules[k], k, w0.lists);
    var j :| IsOnlyNamed(w0.lists, n, j);
  }

  lemma BirthGrown<R>(w0: Work, w: Work, c: Change, env: Env<R>)
    requires c.Birth? && c.used <= |w.ids| && c.rule.id in w0.ids && c.rule.id !in w0.rules && BornRule(c.rule, env)
    requires Grown(w0, w, env)
    requires forall j :: j in c.newLists ==> NewName(c.newLists[j].name, j, w0.ids, env.prefix)
    requires forall k :: k in w.rules && k in w0.rules ==>
      BypassEvolved(w0.rules[k], w.rules[k], w.lists + c.newLists, w0.ids, env.prefix)
    ensures Grown(w0, Perform(w, c), env)
  {
  }

  lemma BirthEvolves<R>(w0: Work, w: Work, c: Change, k: Uid, env: Env<R>)
    requires Linked(w0.rules, w0.lists) && FreshNames(w0.lists, w0.ids, env.prefix) && c.Birth?
    requires k in w.rules && k in w0.rules && BypassEvolved(w0.rules[k], w.rules[k], w.lists, w0.ids, env.prefix)
    requires forall j :: j in c.newLists ==> NewName(c.newLists[j].name, j, w0.ids, env.prefix)
    ensures BypassEvolved(w0.rules[k], w.rules[k], w.lists + c.newLists, w0.ids, env.prefix)
  {
    var lists := w.lists + c.newLists;
    forall n, j | n in w0.rules[k].bypassNames && n !in w.rules[k].bypassNames && j in lists ensures lists[j].name != n {
      if j in c.newLists {
        assert NewName(lists[j].name, j, w0.ids, env.prefix);
        ServedNames<R>(w0, k, n, j, env.prefix);
      }
    }
  }

  lemma GrowByBirth<R>(w0: Work, w: Work, c: Change, env: Env<R>)
    requires Setting(w0, w, env) && Sound(w, c, env) && c.Birth?
    ensures Grown(w0, Perform(w, c), env)
  {
    assert w.ids[0] in w.ids;
    assert c.used == 2 ==> w.ids[1] in w.ids && w.ids[0] != w.ids[1];
    forall j | j in c.newLists ensures NewName(c.newLists[j].name, j, w0.ids, env.prefix) {}
    forall k | k in w.rules && k in w0.rules
      ensures BypassEvolved(w0.rules[k], w.rules[k], w.lists + c.newLists, w0.ids, env.prefix)
    {
      BirthEvolves(w0, w, c, k, env);
    }
    BirthGrown(w0, w, c, env);
  }

  /** The bypass names of an observed rule through one more replacement. */
  lemma RebindEvolves<R>(r: Rule, w: Work, c: Change, ids: seq<Uid>, env: Env<R>)
    requires c.Rebind? && RebindSound(w, c, env)
    requires BypassEvolved(r, w.rules[c.k], w.lists, ids, env.prefix)
    requires forall n, id :: n in r.bypassNames && id in ids ==> !NewName(n, id, ids, env.prefix)
    requires c.used > 0 ==> w.ids[0] in ids
    ensures BypassEvolved(r, c.rule, c.lists, ids, env.prefix)
  {
    var was := w.rules[c.k].bypassNames;
    forall n, j | n in r.bypassNames && n !in c.rule.bypassNames && j in c.lists ensures c.lists[j].name != n {
      if c.used > 0 && j == w.ids[0] {
        assert NewName(c.lists[j].name, j, ids, env.prefix);
      } else {
        assert j in w.lists && c.lists[j].name == w.lists[j].name;
        assert n in was ==> c.used == 0;
      }
    }
    forall n | n in c.rule.bypassNames && n !in r.bypassNames ensures exists id :: NewName(n, id, ids, env.prefix) {
      if c.used > 0 { assert NewName(n, w.ids[0], ids, env.prefix); }
    }
  }

  /** The other rules, whose lists only lose foreign names or gain a new one. */
  lemma OthersEvolve<R>(r: Rule, r': Rule, w: Work, c: Change, ids: seq<Uid>, env: Env<R>)
    requires c.Rebind? && RebindSound(w, c, env)
    requires BypassEvolved(r, r', w.lists, ids, env.prefix)
    requires forall n, id :: n in r.bypassNames && id in ids ==> !NewName(n, id, ids, env.prefix)
    requires c.used > 0 ==> w.ids[0] in ids
    ensures BypassEvolved(r, r', c.lists, ids, env.prefix)
  {
    forall n, j | n in r.bypassNames && n !in r'.bypassNames && j in c.lists ensures c.lists[j].name != n {
      if c.used > 0 && j == w.ids[0] {
        assert NewName(c.lists[j].name, j, ids, env.prefix);
      } else {
        assert j in w.lists && c.lists[j].name == w.lists[j].name;
      }
    }
  }

  lemma RebindRemovals<R>(w0: Work, w: Work, c: Change, env: Env<R>)
    requires Setting(w0, w, env) && Sound(w, c, env) && c.Rebind?
    ensures c.k in w0.rules
    ensures forall j :: j in w0.lists && j !in c.lists ==> ServedARule(j, w0)
  {
    OwnedMeansObserved(w0, w, env);
    forall j | j in w0.lists && j !in c.lists ensures ServedARule(j, w0) {
      if j in w.lists { RemovedServed(w0, w, c.k, j, env); }
    }
  }

  lemma RebindSurvivors<R>(w0: Work, w: Work, c: Change, k: Uid, env: Env<R>)
    requires Setting(w0, w, env) && Sound(w, c, env) && c.Rebind?
    requires k in w.rules && k in w0.rules
    ensures BypassEvolved(w0.rules[k], if k == c.k then c.rule else w.rules[k], c.lists, w0.ids, env.prefix)
  {
    if c.used > 0 { assert w.ids[0] in w.ids; }
    forall n, id | n in w0.rules[k].bypassNames && id in w0.ids ensures !NewName(n, id, w0.ids, env.prefix) {
      ServedNames<R>(w0, k, n, id, env.prefix);
    }
    if k == c.k { RebindEvolves(w0.rules[k], w, c, w0.ids, env); }
    else { OthersEvolve(w0.rules[k], w.rules[k], w, c, w0.ids, env); }
  }

  lemma RebindGrown<R>(w0: Work, w: Work, c: Change, env: Env<R>)
    requires c.Rebind? && c.used <= |w.ids| && c.k in w.rules && c.k in w0.rules
    requires forall k :: k in w.rules && k !in w0.rules ==> k in w0.ids && BornRule(w.rules[k], env)
    requires forall j :: j in c.lists && j !in w0.lists ==> NewName(c.lists[j].name, j, w0.ids, env.prefix)
    requires forall j :: j in w0.lists && j !in c.lists ==> ServedARule(j, w0)
    requires forall k :: k in w.rules && k in w0.rules ==>
      BypassEvolved(w0.rules[k], if k == c.k then c.rule else w.rules[k], c.lists, w0.ids, env.prefix)
    ensures Grown(w0, Perform(w, c), env)
  {
  }

  lemma GrowByRebind<R>(w0: Work, w: Work, c: Change, env: Env<R>)
    requires Setting(w0, w, env) && Sound(w, c, env) && c.Rebind?
    ensures Grown(w0, Perform(w, c), env)
  {
    RebindRemovals(w0, w, c, env);
    RebindNewLists(w0, w, c, env);
    forall k | k in w.rules && k in w0.rules
      ensures BypassEvolved(w0.rules[k], if k == c.k then c.rule else w.rules[k], c.lists, w0.ids, env.prefix)
    {
      RebindSurvivors(w0, w, c, k, env);
    }
    RebindGrown(w0, w, c, env);
  }

  lemma RebindNewLists<R>(w0: Work, w: Work, c: Change, env: Env<R>)
    requires Setting(w0, w, env) && Sound(w, c, env) && c.Rebind?
    ensures forall j :: j in c.lists && j !in w0.lists ==> NewName(c.lists[j].name, j, w0.ids, env.prefix)
  {
    if c.used > 0 { assert w.ids[0] in w.ids; }
    forall j | j in c.lists && j !in w0.lists ensures NewName(c.lists[j].name, j, w0.ids, env.prefix) {
      if j in w.lists && (c.used == 0 || j != w.ids[0]) {
        assert NewName(w.lists[j].name, j, w0.ids, env.prefix);
      }
    }
  }

  lemma GrowByDrop<R>(w0: Work, w: Work, c: Change, env: Env<R>)
    requires Setting(w0, w, env) && Sound(w, c, env) && c.Drop?
    ensures Grown(w0, Perform(w, c), env)
  {
    var w' := Perform(w, c);
    OwnedMeansObserved(w0, w, env);
    forall j | j in w0.lists && j !in c.lists ensures ServedARule(j, w0) {
      if j in w.lists { RemovedServed(w0, w, c.k, j, env); }
    }
    forall k | k in w'.rules && k in w0.rules ensures BypassEvolved(w0.rules[k], w'.rules[k], w'.lists, w0.ids, env.prefix) {
      assert BypassEvolved(w0.rules[k], w.rules[k], w.lists, w0.ids, env.prefix);
    }
  }

  lemma EditGrown<R>(w0: Work, w: Work, w': Work, env: Env<R>)
    requires Grown(w0, w, env) && w'.rules.Keys == w.rules.Keys && w'.lists.Keys == w.lists.Keys
    requires forall k :: k in w.rules ==> w'.rules[k].bypassNames == w.rules[k].bypassNames
    requires forall k :: k in w.rules && k !in w0.rules ==> w'.rules[k] == w.rules[k]
    requires forall j :: j in w.lists ==> w'.lists[j].name == w.lists[j].name
    ensures Grown(w0, w', env)
  {
    forall k | k in w'.rules && k in w0.rules ensures BypassEvolved(w0.rules[k], w'.rules[k], w'.lists, w0.ids, env.prefix) {
      assert BypassEvolved(w0.rules[k], w.rules[k], w.lists, w0.ids, env.prefix);
    }
  }

  lemma EditedWasObserved<R>(w0: Work, w: Work, c: Change, env: Env<R>)
    requires Setting(w0, w, env) && Sound(w, c, env) && c.Edit?
    ensures c.k in w0.rules
  {
    OwnedMeansObserved(w0, w, env);
  }

  lemma EditPerforms<R>(w0: Work, w: Work, c: Change, env: Env<R>)
    requires Grown(w0, w, env) && Sound(w, c, env) && (c.Fill? || (c.Edit? && c.k in w0.rules))
    ensures Grown(w0, Perform(w, c), env)
  {
    EditGrown(w0, w, Perform(w, c), env);
  }

  lemma GrowByEdit<R>(w0: Work, w: Work, c: Change, env: Env<R>)
    requires Setting(w0, w, env) && Sound(w, c, env) && (c.Edit? || c.Fill?)
    ensures Grown(w0, Perform(w, c), env)
  {
    if c.Edit? { EditedWasObserved(w0, w, c, env); }
    EditPerforms(w0, w, c, env);
  }

  lemma ChangeKeepsSetting<R>(w0: Work, w: Work, c: Change, env: Env<R>)
    requires Setting(w0, w, env) && Sound(w, c, env)
    ensures Setting(w0, Perform(w, c), env)
  {
    var w' := Perform(w, c);
    PerformKeyed(w, c, env);
    ChangeKeepsFreshness(w, c, env);
    UnusedIds(w, c, env);
    forall k | k in w0.rules ensures RuleFramed(w0.rules[k], Lookup(w'.rules, k), env) { ChangeFramesRules(w0, w, c, env, k); }
    forall k | k in w0.lists ensures ListFramed(w0.lists[k], Lookup(w'.lists, k), env) { ChangeFramesLists(w0, w, c, env, k); }
    match c
    case Same =>
    case Fill(_, _) => GrowByEdit(w0, w, c, env);
    case Edit(_, _, _) => GrowByEdit(w0, w, c, env);
    case Birth(_, _, _) => GrowByBirth(w0, w, c, env);
    case Rebind(_, _, _, _) => GrowByRebind(w0, w, c, env);
    case Drop(_, _) => GrowByDrop(w0, w, c, env);
  }

  lemma {:induction false} RunKeepsSetting<R>(w0: Work, w: Work, plan: seq<Action>, env: Env<R>)
    requires Setting(w0, w, env) && Run(w, plan, env).Ok?
    ensures Setting(w0, Run(w, plan, env).value, env)
    decreases |plan|
  {
    if plan != [] {
      var c := StepChange(w, plan[0], env);
      ChangeKeepsSetting(w0, w, c, env);
      RunKeepsSetting(w0, Perform(w, c), plan[1..], env);
    }
  }
}
