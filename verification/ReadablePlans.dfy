/** Which plans leave a state the driver can read back: those that remove no rule without its list. */
module ReadablePlans {
  import opened Keyed
  import opened Resources
  import opened Ownership
  import opened DesiredState
  import opened Changes
  import opened Integrity
  import opened Authorization
  import opened Lifecycle
  import opened Closure
  import opened Succession
  import opened Baseline
  import opened DriverRead

  predicate KeepsList(a: Action) { a.RemoveRule? && !a.withList }

  ghost predicate Named(w: Work, j: Uid)
    requires j in w.lists
  {
    exists k :: k in w.rules && w.lists[j].name in Refs(w.rules[k])
  }

  ghost predicate AllListsNamed(w: Work) { forall j :: j in w.lists ==> Named(w, j) }

  /** Some list is named by no rule, or two lists carry one name, which the closing check rejects. */
  ghost predicate Loose(w: Work) { DuplicateListNames(w.lists) || !AllListsNamed(w) }

  lemma BirthStaysNamed<R>(w: Work, c: Change, env: Env<R>)
    requires FreshIds(w) && c.Birth? && Sound(w, c, env) && AllListsNamed(w)
    ensures AllListsNamed(Perform(w, c))
  {
    var w' := Perform(w, c);
    assert w.ids[0] in w.ids;
    forall j | j in w'.lists ensures Named(w', j) {
      if j in c.newLists {
        assert c.rule.listNames[0] in Refs(c.rule);
        assert c.used == 2 ==> c.rule.bypassNames[0] in Refs(c.rule);
        assert w'.lists[j].name in Refs(w'.rules[c.rule.id]);
      } else {
        var k :| k in w.rules && w.lists[j].name in Refs(w.rules[k]);
        assert k in w'.rules && w'.rules[k] == w.rules[k];
      }
    }
  }

  lemma RebindStaysNamed<R>(w: Work, c: Change, env: Env<R>)
    requires FreshIds(w) && c.Rebind? && Sound(w, c, env) && AllListsNamed(w)
    ensures AllListsNamed(Perform(w, c))
  {
    var w' := Perform(w, c);
    if c.used > 0 { assert w.ids[0] in w.ids; }
    forall j | j in w'.lists ensures Named(w', j) {
      if j in w.lists {
        var k :| k in w.rules && w.lists[j].name in Refs(w.rules[k]);
        assert w'.lists[j].name in Refs(w'.rules[k]);
      } else {
        assert w'.lists[j].name in Refs(w'.rules[c.k]);
      }
    }
  }

  lemma DropStaysNamed<R>(w: Work, c: Change, env: Env<R>)
    requires c.Drop? && c.lists != w.lists && Sound(w, c, env) && AllListsNamed(w)
    ensures AllListsNamed(Perform(w, c))
  {
    var w', r := Perform(w, c), w.rules[c.k];
    assert r.listNames == [r.listNames[0]];
    assert forall j :: j in c.lists ==> w.lists[j].name !in Refs(r);
    forall j | j in w'.lists ensures Named(w', j) {
      var k :| k in w.rules && w.lists[j].name in Refs(w.rules[k]);
      assert w'.lists[j].name in Refs(w'.rules[k]);
    }
  }

  lemma EditStaysNamed<R>(w: Work, c: Change, env: Env<R>)
    requires (c.Same? || c.Fill? || c.Edit?) && Sound(w, c, env)
    ensures AllListsNamed(w) <==> AllListsNamed(Perform(w, c))
    ensures DuplicateListNames(w.lists) ==> DuplicateListNames(Perform(w, c).lists)
  {
    var w' := Perform(w, c);
    assert forall k :: k in w.rules <==> k in w'.rules;
    assert forall k :: k in w.rules ==> Refs(w'.rules[k]) == Refs(w.rules[k]);
    assert forall j :: j in w.lists <==> j in w'.lists;
    assert forall j :: j in w.lists ==> w'.lists[j].name == w.lists[j].name;
    forall j | j in w.lists ensures Named(w, j) <==> Named(w', j) {
      if k :| k in w.rules && w.lists[j].name in Refs(w.rules[k]) { assert w'.lists[j].name in Refs(w'.rules[k]); }
      if k :| k in w'.rules && w'.lists[j].name in Refs(w'.rules[k]) { assert w.lists[j].name in Refs(w.rules[k]); }
    }
  }

  lemma StaysNamed<R>(w: Work, c: Change, env: Env<R>)
    requires FreshIds(w) && Sound(w, c, env) && AllListsNamed(w)
    requires c.Drop? ==> c.lists != w.lists
    ensures AllListsNamed(Perform(w, c))
  {
    match c
    case Birth(_, _, _) => BirthStaysNamed(w, c, env);
    case Rebind(_, _, _, _) => RebindStaysNamed(w, c, env);
    case Drop(_, _) => DropStaysNamed(w, c, env);
    case _ => EditStaysNamed(w, c, env);
  }

  lemma BirthStaysLoose<R>(w: Work, c: Change, env: Env<R>, j: Uid)
    requires WellKeyed(w) && FreshIds(w) && c.Birth? && Sound(w, c, env) && j in w.lists && !Named(w, j)
    requires !DuplicateListNames(w.lists + c.newLists)
    ensures j in Perform(w, c).lists && !Named(Perform(w, c), j)
  {
    var w' := Perform(w, c);
    NewbornIsLinked(w, c, env);
    assert forall i :: i in c.newLists ==> i in w.ids;
    assert w'.lists[j] == w.lists[j];
    assert forall i :: i in c.newLists && i !in w.lists ==> w'.lists[i].name == c.newLists[i].name != w'.lists[j].name;
    assert forall k :: k in w'.rules ==> k == c.rule.id || (k in w.rules && w'.rules[k] == w.rules[k]);
  }

  lemma RebindStaysLoose<R>(w: Work, c: Change, env: Env<R>, j: Uid)
    requires FreshIds(w) && c.Rebind? && Sound(w, c, env) && j in w.lists && !Named(w, j)
    requires !DuplicateListNames(c.lists)
    ensures j in Perform(w, c).lists && !Named(Perform(w, c), j)
  {
    var w', r := Perform(w, c), w.rules[c.k];
    if c.used > 0 { assert w.ids[0] in w.ids; }
    assert w.lists[j].name !in Refs(r);
    assert j in c.lists && c.lists[j].name == w.lists[j].name;
    assert forall n :: n in c.rule.bypassNames ==> n in r.bypassNames || (c.used > 0 && n == c.lists[w.ids[0]].name);
    assert forall n :: n in Refs(c.rule) ==> n in Refs(r) || (c.used > 0 && n == c.lists[w.ids[0]].name);
    assert forall k :: k in w'.rules ==> k in w.rules && (k == c.k || w'.rules[k] == w.rules[k]);
  }

  lemma DropStaysLoose<R>(w: Work, c: Change, env: Env<R>, j: Uid)
    requires c.Drop? && Sound(w, c, env) && j in w.lists && !Named(w, j)
    ensures j in Perform(w, c).lists && !Named(Perform(w, c), j)
  {
    var r := w.rules[c.k];
    assert w.lists[j].name !in Refs(r);
    assert r.listNames[0] in Refs(r);
  }

  lemma StaysLoose<R>(w: Work, c: Change, env: Env<R>)
    requires WellKeyed(w) && FreshIds(w) && Sound(w, c, env) && Loose(w)
    ensures Loose(Perform(w, c))
  {
    if DuplicateListNames(w.lists) {
      ChangeKeepsDuplicates(w, c, env);
    } else if !DuplicateListNames(Perform(w, c).lists) {
      var j :| j in w.lists && !Named(w, j);
      match c
      case Birth(_, _, _) => BirthStaysLoose(w, c, env, j);
      case Rebind(_, _, _, _) => RebindStaysLoose(w, c, env, j);
      case Drop(_, _) => DropStaysLoose(w, c, env, j);
      case _ => EditStaysNamed(w, c, env);
    }
  }

  /** The list of a rule removed without it is named by no other rule. */
  lemma NamedByNoOther(rules: map<Uid, Rule>, lists: map<Uid, AddressList>, k: Uid, n: string)
    requires Linked(rules, lists) && k in rules && n in Refs(rules[k])
    ensures forall i :: i in rules && i != k ==> n !in Refs(rules[i])
  {
    assert forall i :: i in rules && i != k ==> DisjointRefs(rules[k], rules[i]);
  }

  lemma DropLoosens<R>(w: Work, c: Change, env: Env<R>)
    requires LinkedOrAmbiguous(w) && c.Drop? && c.lists == w.lists && Sound(w, c, env)
    ensures Loose(Perform(w, c))
  {
    if !DuplicateListNames(w.lists) {
      var n := w.rules[c.k].listNames[0];
      assert n in Refs(w.rules[c.k]);
      NamedByNoOther(w.rules, w.lists, c.k, n);
      assert !Named(Perform(w, c), c.k);
    }
  }

  lemma {:induction false} RunNamed<R>(w: Work, plan: seq<Action>, env: Env<R>)
    requires WellKeyed(w) && FreshIds(w) && AllListsNamed(w) && Run(w, plan, env).Ok?
    requires forall i :: 0 <= i < |plan| ==> !KeepsList(plan[i])
    ensures AllListsNamed(Run(w, plan, env).value)
    decreases |plan|
  {
    if plan != [] {
      var c := StepChange(w, plan[0], env);
      PerformKeyed(w, c, env);
      ChangeKeepsFreshness(w, c, env);
      StaysNamed(w, c, env);
      RunNamed(Perform(w, c), plan[1..], env);
    }
  }

  ghost predicate Sane(w: Work) { WellKeyed(w) && FreshIds(w) && LinkedOrAmbiguous(w) }

  lemma StepLoosens<R>(w: Work, a: Action, env: Env<R>) returns (w': Work)
    requires Sane(w) && Step(w, a, env).Ok?
    ensures w' == Step(w, a, env).value && Sane(w')
    ensures Loose(w) || KeepsList(a) ==> Loose(w')
  {
    var c := StepChange(w, a, env);
    w' := Perform(w, c);
    PerformKeyed(w, c, env);
    ChangeKeepsFreshness(w, c, env);
    ChangeKeepsLinks(w, c, env);
    if Loose(w) { StaysLoose(w, c, env); } else if KeepsList(a) { DropLoosens(w, c, env); }
  }

  lemma RunIsStep<R>(w: Work, plan: seq<Action>, env: Env<R>)
    requires plan != [] && Run(w, plan, env).Ok?
    ensures Step(w, plan[0], env).Ok? && Run(Step(w, plan[0], env).value, plan[1..], env) == Run(w, plan, env)
  {
  }

  lemma {:induction false} RunLoose<R>(w: Work, plan: seq<Action>, env: Env<R>, n: nat)
    requires Sane(w) && Run(w, plan, env).Ok?
    requires Loose(w) || (n < |plan| && KeepsList(plan[n]))
    ensures Loose(Run(w, plan, env).value)
    decreases |plan|
  {
    if plan != [] {
      RunIsStep(w, plan, env);
      var w' := StepLoosens(w, plan[0], env);
      RunLoose(w', plan[1..], env, if n == 0 then 0 else n - 1);
    }
  }

  lemma NamedBothWays(s: State, w: Work)
    requires UniqueIds(s) && w.rules == RuleMap(s) && w.lists == ListMap(s)
    ensures EveryListNamed(s) <==> AllListsNamed(w)
  {
    IndexFacts(s.rules, RuleId);
    IndexFacts(s.lists, ListId);
    forall n ensures n in Referenced(s.rules) <==> exists k :: k in w.rules && n in Refs(w.rules[k]) {
      if n in Referenced(s.rules) {
        var i :| 0 <= i < |s.rules| && n in Refs(s.rules[i]);
        assert w.rules[RuleId(s.rules[i])] == s.rules[i];
      }
      if k :| k in w.rules && n in Refs(w.rules[k]) { assert w.rules[k] in s.rules; }
    }
    forall l | l in s.lists ensures ListId(l) in w.lists && w.lists[ListId(l)] == l {
      var i :| 0 <= i < |s.lists| && s.lists[i] == l;
      assert ListId(s.lists[i]) in w.lists;
    }
    assert forall j :: j in w.lists ==> w.lists[j] in s.lists;
  }

  /** From a state in which every list is named, a plan leads to such a state if and only if it
      removes no rule without its list. */
  lemma NamedUnlessKept<R>(before: State, plan: seq<Action>, registry: Registry<R>, ids: seq<Uid>, prefix: string)
    requires LinkedState(before) && FreshIds(Start(before, ids)) && EveryListNamed(before)
    requires Calculate(before, plan, registry, ids, prefix).Ok?
    ensures EveryListNamed(Calculate(before, plan, registry, ids, prefix).value.state) <==> forall i :: 0 <= i < |plan| ==> !KeepsList(plan[i])
  {
    var b, env := Start(before, ids), Env(before.ou, registry, prefix);
    var w := Run(b, plan, env).value;
    var after := Calculate(before, plan, registry, ids, prefix).value.state;
    StartKeyed(before, ids);
    RunKeyed(b, plan, env);
    StateOfMaps(w, before.ou, before.unmanaged);
    NamedBothWays(before, b);
    NamedBothWays(after, w);
    if forall i :: 0 <= i < |plan| ==> !KeepsList(plan[i]) { RunNamed(b, plan, env); } else {
      var n :| 0 <= n < |plan| && KeepsList(plan[n]);
      RunLoose(b, plan, env, n);
    }
  }

  /** Names the application made from UUID texts whose first eight digits tell the lists apart. */
  ghost predicate MadeByApplication(s: State, prefix: string) {
    && (forall l :: l in s.lists ==> NamedById(l, prefix) && |l.id| >= 8)
    && forall i, j :: 0 <= i < j < |s.lists| ==> Short(s.lists[i].id) != Short(s.lists[j].id)
  }

  lemma MarkedAt<R>(b: Work, a: Work, env: Env<R>, k: Uid)
    requires Setting(b, a, env) && k in a.rules
    requires forall i :: i in b.rules ==> OwnedRule(b.rules[i], env.registry, env.prefix)
    ensures Marked(a.rules[k].name, env.prefix)
  {
    NamesAreMarked(env.prefix, a.rules[k].id);
    if k in b.rules { assert RuleFramed(b.rules[k], Lookup(a.rules, k), env); }
  }

  lemma ListMarkedAt<R>(b: Work, a: Work, env: Env<R>, j: Uid)
    requires Setting(b, a, env) && j in a.lists
    requires forall i :: i in b.lists ==> OwnedList(b.lists[i], env.registry, env.prefix)
    ensures Marked(a.lists[j].name, env.prefix)
  {
    NamesAreMarked(env.prefix, j);
    if j in b.lists {
      assert ListFramed(b.lists[j], Lookup(a.lists, j), env);
    } else {
      assert NewName(a.lists[j].name, j, b.ids, env.prefix);
    }
  }

  lemma PlanMarks<R>(before: State, plan: seq<Action>, registry: Registry<R>, ids: seq<Uid>, prefix: string)
    requires Prepared(before, registry, ids, prefix) && AllOwned(before, registry, prefix)
    requires Calculate(before, plan, registry, ids, prefix).Ok?
    ensures EveryRuleMarked(Calculate(before, plan, registry, ids, prefix).value.state, prefix)
  {
    var a := PlanEnds(before, plan, registry, ids, prefix);
    var after := Calculate(before, plan, registry, ids, prefix).value.state;
    PlanKeepsIntegrity(before, plan, registry, ids, prefix);
    ResourcesAreMapped(after);
    forall r | r in after.rules ensures Marked(r.name, prefix) {
      MarkedAt(Start(before, ids), a, Env(before.ou, registry, prefix), r.id);
    }
  }

  lemma ResourcesAreMapped(s: State)
    requires UniqueIds(s)
    ensures forall r :: r in s.rules ==> r.id in RuleMap(s) && RuleMap(s)[r.id] == r
  {
    IndexFacts(s.rules, RuleId);
    forall r | r in s.rules ensures r.id in RuleMap(s) && RuleMap(s)[r.id] == r {
      var i :| 0 <= i < |s.rules| && s.rules[i] == r;
      assert RuleId(s.rules[i]) == r.id;
    }
  }

  /** The attended path: a completely written plan is read back as expected if and only if it
      removes no rule without its list, provided the list names are the application's own. */
  lemma AttendedPlanReadsBack<R>(before: State, plan: seq<Action>, registry: Registry<R>, ids: seq<Uid>, prefix: string, page: Page)
    requires Prepared(before, registry, ids, prefix) && AllOwned(before, registry, prefix) && EveryListNamed(before)
    requires Calculate(before, plan, registry, ids, prefix).Ok?
    requires var after := Calculate(before, plan, registry, ids, prefix).value.state;
      MadeByApplication(after, prefix) && Complete(page, after, before.unmanaged)
    ensures var after := Calculate(before, plan, registry, ids, prefix).value.state;
      ReadBack(after, page, prefix) == Some(after) <==> forall i :: 0 <= i < |plan| ==> !KeepsList(plan[i])
  {
    CompleteWriteReadsBack(before, plan, registry, ids, prefix, page);
    NamedUnlessKept(before, plan, registry, ids, prefix);
    PlanMarks(before, plan, registry, ids, prefix);
    PlanListsAscend(before, plan, registry, ids, prefix);
    MadeNamesAreOrdered(Calculate(before, plan, registry, ids, prefix).value.state.lists, prefix);
  }
}
