/** What a whole plan may touch: only resources whose original version had matching
    registry evidence, and never their identity. */
module Authorization {
  import opened Keyed
  import opened Resources
  import opened Ownership
  import opened DesiredState
  import opened Changes
  import opened Integrity

  ghost predicate RuleFramed<R>(r: Rule, now: Option<Rule>, env: Env<R>) {
    && (now != Some(r) ==> OwnedRule(r, env.registry, env.prefix))
    && (now.Some? ==>
      && SameIdentity(r, now.value)
      && (r.inherited ==> now.value.enabled == r.enabled && now.value.bypassNames == r.bypassNames))
  }

  ghost predicate ListFramed<R>(l: AddressList, now: Option<AddressList>, env: Env<R>) {
    && (now != Some(l) ==> OwnedList(l, env.registry, env.prefix))
    && (now.Some? ==> now.value.id == l.id && now.value.name == l.name)
  }

  ghost predicate Framed<R>(w0: Work, w: Work, env: Env<R>) {
    && (forall k :: k in w0.rules ==> RuleFramed(w0.rules[k], Lookup(w.rules, k), env))
    && (forall k :: k in w0.lists ==> ListFramed(w0.lists[k], Lookup(w.lists, k), env))
  }

  /** The unused IDs stay clear of the original resources as well. */
  ghost predicate ClearOf(w0: Work, w: Work) {
    forall id :: id in w.ids ==> id !in w0.rules && id !in w0.lists
  }

  lemma ChangeFramesRules<R>(w0: Work, w: Work, c: Change, env: Env<R>, k: Uid)
    requires WellKeyed(w0) && WellKeyed(w) && Sound(w, c, env) && Framed(w0, w, env) && ClearOf(w0, w)
    requires k in w0.rules
    ensures RuleFramed(w0.rules[k], Lookup(Perform(w, c).rules, k), env)
  {
  }

  lemma ChangeFramesLists<R>(w0: Work, w: Work, c: Change, env: Env<R>, k: Uid)
    requires WellKeyed(w0) && WellKeyed(w) && Sound(w, c, env) && Framed(w0, w, env) && ClearOf(w0, w)
    requires k in w0.lists
    ensures ListFramed(w0.lists[k], Lookup(Perform(w, c).lists, k), env)
  {
  }

  lemma {:induction false} RunFrames<R>(w0: Work, w: Work, plan: seq<Action>, env: Env<R>)
    requires WellKeyed(w0) && WellKeyed(w) && FreshIds(w) && Framed(w0, w, env) && ClearOf(w0, w)
    requires Run(w, plan, env).Ok?
    ensures Framed(w0, Run(w, plan, env).value, env)
    decreases |plan|
  {
    if plan != [] {
      var c := StepChange(w, plan[0], env);
      PerformKeyed(w, c, env);
      ChangeKeepsFreshness(w, c, env);
      var w' := Perform(w, c);
      forall k | k in w0.rules ensures RuleFramed(w0.rules[k], Lookup(w'.rules, k), env) { ChangeFramesRules(w0, w, c, env, k); }
      forall k | k in w0.lists ensures ListFramed(w0.lists[k], Lookup(w'.lists, k), env) { ChangeFramesLists(w0, w, c, env, k); }
      UnusedIds(w, c, env);
      RunFrames(w0, w', plan[1..], env);
    }
  }

  lemma UnusedIds<R>(w: Work, c: Change, env: Env<R>)
    requires Sound(w, c, env)
    ensures forall id :: id in Perform(w, c).ids ==> id in w.ids
  {
  }

  /** Any rule or list a successful plan changes or deletes was owned as observed, and
      what survives keeps its ID, name, unit and primary list; an inherited rule also
      keeps its enabled flag and its bypass lists. */
  lemma PlanTouchesOnlyOwned<R>(before: State, plan: seq<Action>, registry: Registry<R>, ids: seq<Uid>, prefix: string)
    requires FreshIds(Start(before, ids))
    requires Calculate(before, plan, registry, ids, prefix).Ok?
    ensures var after := Calculate(before, plan, registry, ids, prefix).value.state;
      var env := Env(before.ou, registry, prefix);
      && after.ou == before.ou
      && (forall k :: k in RuleMap(before) ==> RuleFramed(RuleMap(before)[k], Lookup(RuleMap(after), k), env))
      && (forall k :: k in ListMap(before) ==> ListFramed(ListMap(before)[k], Lookup(ListMap(after), k), env))
  {
    var env := Env(before.ou, registry, prefix);
    var w := Start(before, ids);
    StartKeyed(before, ids);
    RunFrames(w, w, plan, env);
    RunKeyed(w, plan, env);
    StateOfMaps(Run(w, plan, env).value, before.ou, before.unmanaged);
  }

  lemma {:induction false} RunKeyed<R>(w: Work, plan: seq<Action>, env: Env<R>)
    requires WellKeyed(w) && Run(w, plan, env).Ok?
    ensures WellKeyed(Run(w, plan, env).value)
    decreases |plan|
  {
    if plan != [] {
      var c := StepChange(w, plan[0], env);
      PerformKeyed(w, c, env);
      RunKeyed(Perform(w, c), plan[1..], env);
    }
  }
}
