/** Referential integrity: every name a rule uses resolves to one list, its primary
    list carries the rule's own ID, and no list serves two purposes. Every plan keeps it. */
module Integrity {
  import opened Keyed
  import opened Resources
  import opened Ownership
  import opened DesiredState
  import opened Changes

  ghost predicate RuleLinked(r: Rule, k: Uid, lists: map<Uid, AddressList>) {
    && |r.listNames| == 1 && IsOnlyNamed(lists, r.listNames[0], k)
    && NoDuplicates(Refs(r))
    && forall n :: n in Refs(r) ==> exists j :: IsOnlyNamed(lists, n, j)
  }

  ghost predicate DisjointRefs(r: Rule, s: Rule) {
    forall n :: n in Refs(r) ==> n !in Refs(s)
  }

  ghost predicate Linked(rules: map<Uid, Rule>, lists: map<Uid, AddressList>) {
    && (forall k :: k in rules ==> RuleLinked(rules[k], k, lists))
    && (forall k, j :: k in rules && j in rules && k != j ==> DisjointRefs(rules[k], rules[j]))
  }

  /** Injected IDs are new UUIDs: distinct, and naming no observed resource. */
  ghost predicate FreshIds(w: Work) {
    && NoDuplicates(w.ids)
    && forall id :: id in w.ids ==> id !in w.rules && id !in w.lists
  }

  /** Mid-plan, two lists may carry one name (equal 8-digit prefixes); only the closing check rejects that. */
  ghost predicate LinkedOrAmbiguous(w: Work) {
    Linked(w.rules, w.lists) || DuplicateListNames(w.lists)
  }

  lemma UniqueNamesResolve(lists: map<Uid, AddressList>, k: Uid)
    requires !DuplicateListNames(lists) && k in lists
    ensures IsOnlyNamed(lists, lists[k].name, k)
  {
  }

  lemma RenamedLists(rules: map<Uid, Rule>, lists: map<Uid, AddressList>, lists': map<Uid, AddressList>)
    requires lists'.Keys == lists.Keys && forall j :: j in lists ==> lists'[j].name == lists[j].name
    ensures Linked(rules, lists) ==> Linked(rules, lists')
    ensures DuplicateListNames(lists) ==> DuplicateListNames(lists')
  {
    forall n, j | IsOnlyNamed(lists, n, j) ensures IsOnlyNamed(lists', n, j) {}
  }

  lemma EditKeepsLinks(rules: map<Uid, Rule>, lists: map<Uid, AddressList>, k: Uid, rule: Rule)
    requires Linked(rules, lists) && k in rules
    requires SameIdentity(rules[k], rule) && rule.bypassNames == rules[k].bypassNames
    ensures Linked(rules[k := rule], lists)
  {
    assert Refs(rule) == Refs(rules[k]);
  }

  /** A rule whose references shrink, or grow by a new name, stays linked. */
  lemma RelinkOne(w: Work, k: Uid, rule: Rule, lists': map<Uid, AddressList>)
    requires Linked(w.rules, w.lists) && k in w.rules && SameIdentity(w.rules[k], rule)
    requires NoDuplicates(Refs(rule)) && !DuplicateListNames(lists')
    requires forall n :: n in Refs(rule) ==> exists j :: j in lists' && lists'[j].name == n
    requires forall n :: n in Refs(rule) ==> n in Refs(w.rules[k]) || forall i :: i in w.rules ==> n !in Refs(w.rules[i])
    requires k in lists' && lists'[k].name == rule.listNames[0]
    requires forall j :: j in w.lists && w.lists[j].name !in w.rules[k].bypassNames ==> j in lists' && lists'[j].name == w.lists[j].name
    ensures Linked(w.rules[k := rule], lists')
  {
    assert RuleLinked(w.rules[k], k, w.lists);
    forall n | n in Refs(rule) ensures exists j :: IsOnlyNamed(lists', n, j) {
      var j :| j in lists' && lists'[j].name == n;
      UniqueNamesResolve(lists', j);
    }
    UniqueNamesResolve(lists', k);
    forall i | i in w.rules && i != k ensures RuleLinked(w.rules[i], i, lists') {
      assert RuleLinked(w.rules[i], i, w.lists);
      OthersStayLinked(w, k, i, lists');
    }
    forall i | i in w.rules && i != k ensures DisjointRefs(w.rules[i], rule) && DisjointRefs(rule, w.rules[i]) {
      assert DisjointRefs(w.rules[i], w.rules[k]);
    }
  }

  lemma OthersStayLinked(w: Work, k: Uid, i: Uid, lists': map<Uid, AddressList>)
    requires Linked(w.rules, w.lists) && k in w.rules && i in w.rules && i != k
    requires !DuplicateListNames(lists')
    requires forall j :: j in w.lists && w.lists[j].name !in Refs(w.rules[k]) ==> j in lists' && lists'[j].name == w.lists[j].name
    ensures RuleLinked(w.rules[i], i, lists')
  {
    var r := w.rules[i];
    assert RuleLinked(r, i, w.lists) && DisjointRefs(r, w.rules[k]);
    forall n | n in Refs(r) ensures exists j :: IsOnlyNamed(lists', n, j) && IsOnlyNamed(w.lists, n, j) {
      var j :| IsOnlyNamed(w.lists, n, j);
      UniqueNamesResolve(lists', j);
    }
    assert r.listNames[0] in Refs(r);
  }

  lemma StayLinkedAmongMore(r: Rule, k: Uid, lists: map<Uid, AddressList>, lists': map<Uid, AddressList>)
    requires RuleLinked(r, k, lists) && !DuplicateListNames(lists')
    requires forall j :: j in lists ==> j in lists' && lists'[j].name == lists[j].name
    ensures RuleLinked(r, k, lists')
    ensures forall n, j :: n in Refs(r) && j in lists' && j !in lists ==> lists'[j].name != n
  {
    forall n | n in Refs(r) ensures exists j :: IsOnlyNamed(lists', n, j) && j in lists {
      var j :| IsOnlyNamed(lists, n, j);
      UniqueNamesResolve(lists', j);
    }
    assert r.listNames[0] in Refs(r);
  }

  lemma NewbornIsLinked<R>(w: Work, c: Change, env: Env<R>)
    requires WellKeyed(w) && c.Birth? && Sound(w, c, env) && FreshIds(w)
    requires !DuplicateListNames(w.lists + c.newLists)
    ensures RuleLinked(c.rule, c.rule.id, w.lists + c.newLists)
    ensures forall n :: n in Refs(c.rule) ==> exists j :: j in c.newLists && j !in w.lists && c.newLists[j].name == n
  {
    var lists, id, r := w.lists + c.newLists, c.rule.id, c.rule;
    if c.used == 2 {
      var bid := w.ids[1];
      assert id != bid && bid in w.ids;
      UniqueNamesResolve(lists, bid);
      assert Refs(r) == [ListName(env.prefix, id), BypassName(env.prefix, bid)];
      assert lists[id].name != lists[bid].name;
    } else {
      assert Refs(r) == [ListName(env.prefix, id)];
    }
    UniqueNamesResolve(lists, id);
  }

  lemma NewNamesAreForeign(r: Rule, k: Uid, born: Rule, lists: map<Uid, AddressList>, lists': map<Uid, AddressList>)
    requires RuleLinked(r, k, lists) && !DuplicateListNames(lists')
    requires forall j :: j in lists ==> j in lists' && lists'[j].name == lists[j].name
    requires forall n :: n in Refs(born) ==> exists j :: j in lists' && j !in lists && lists'[j].name == n
    ensures RuleLinked(r, k, lists') && DisjointRefs(r, born) && DisjointRefs(born, r)
  {
    StayLinkedAmongMore(r, k, lists, lists');
    forall n | n in Refs(born) ensures n !in Refs(r) {
      var j :| j in lists' && j !in lists && lists'[j].name == n;
    }
  }

  lemma LinkedWith(rules: map<Uid, Rule>, lists: map<Uid, AddressList>, id: Uid, born: Rule)
    requires forall i :: i in rules ==> RuleLinked(rules[i], i, lists) && DisjointRefs(rules[i], born) && DisjointRefs(born, rules[i])
    requires forall i, j :: i in rules && j in rules && i != j ==> DisjointRefs(rules[i], rules[j])
    requires RuleLinked(born, id, lists) && id !in rules
    ensures Linked(rules[id := born], lists)
  {
  }

  lemma BirthKeepsLinks<R>(w: Work, c: Change, env: Env<R>)
    requires WellKeyed(w) && c.Birth? && Sound(w, c, env) && FreshIds(w)
    requires Linked(w.rules, w.lists) && !DuplicateListNames(Perform(w, c).lists)
    ensures Linked(Perform(w, c).rules, Perform(w, c).lists)
  {
    var lists := w.lists + c.newLists;
    NewbornIsLinked(w, c, env);
    assert forall j :: j in c.newLists ==> j in w.ids;
    forall n | n in Refs(c.rule) ensures exists j :: j in lists && j !in w.lists && lists[j].name == n {
      var j :| j in c.newLists && j !in w.lists && c.newLists[j].name == n;
      assert lists[j].name == n;
    }
    forall i | i in w.rules ensures RuleLinked(w.rules[i], i, lists) && DisjointRefs(w.rules[i],
        c.rule) && DisjointRefs(c.rule, w.rules[i]) {
      NewNamesAreForeign(w.rules[i], i, c.rule, w.lists, lists);
    }
    LinkedWith(w.rules, lists, c.rule.id, c.rule);
  }

  lemma LinkedNamesDiffer(r: Rule, k: Uid, lists: map<Uid, AddressList>)
    requires RuleLinked(r, k, lists)
    ensures NoDuplicates(r.bypassNames) && r.listNames[0] !in r.bypassNames
  {
    forall i, j | 0 <= i < j < |r.bypassNames| ensures r.bypassNames[i] != r.bypassNames[j] {
      assert Refs(r)[i + 1] != Refs(r)[j + 1];
    }
    forall i | 0 <= i < |r.bypassNames| ensures r.bypassNames[i] != r.listNames[0] {
      assert Refs(r)[i + 1] != Refs(r)[0];
    }
  }

  lemma RebindKeepsLinks<R>(w: Work, c: Change, env: Env<R>)
    requires WellKeyed(w) && c.Rebind? && Sound(w, c, env) && FreshIds(w)
    requires Linked(w.rules, w.lists) && !DuplicateListNames(c.lists)
    ensures Linked(Perform(w, c).rules, c.lists)
  {
    assert RuleLinked(w.rules[c.k], c.k, w.lists);
    LinkedNamesDiffer(w.rules[c.k], c.k, w.lists);
    ReboundRefs(w, c, env);
    RelinkOne(w, c.k, c.rule, c.lists);
  }

  lemma ReboundRefs<R>(w: Work, c: Change, env: Env<R>)
    requires WellKeyed(w) && c.Rebind? && Sound(w, c, env) && FreshIds(w)
    requires Linked(w.rules, w.lists) && !DuplicateListNames(c.lists)
    ensures NoDuplicates(Refs(c.rule))
    ensures forall n :: n in Refs(c.rule) ==> exists j :: j in c.lists && c.lists[j].name == n
    ensures forall n :: n in Refs(c.rule) ==> n in Refs(w.rules[c.k]) || forall i :: i in w.rules ==> n !in Refs(w.rules[i])
  {
    var r, rule := w.rules[c.k], c.rule;
    assert RuleLinked(r, c.k, w.lists);
    LinkedNamesDiffer(r, c.k, w.lists);
    assert r.listNames == [r.listNames[0]];
    if c.used > 0 {
      BypassNameIsNew(w, c, env);
      assert w.ids[0] in w.ids && c.k in c.lists;
      assert Refs(rule) == [r.listNames[0], rule.bypassNames[0]];
      assert r.listNames[0] in Refs(r);
    } else if rule.bypassNames != [] {
      var j :| IsOnlyNamed(c.lists, r.bypassNames[0], j);
      assert Refs(rule) == [r.listNames[0], r.bypassNames[0]];
    } else {
      assert Refs(rule) == [r.listNames[0]];
    }
  }

  lemma BypassNameIsNew<R>(w: Work, c: Change, env: Env<R>)
    requires WellKeyed(w) && c.Rebind? && Sound(w, c, env) && FreshIds(w) && c.used > 0
    requires Linked(w.rules, w.lists) && !DuplicateListNames(c.lists)
    ensures forall i :: i in w.rules ==> BypassName(env.prefix, w.ids[0]) !in Refs(w.rules[i])
  {
    var id := w.ids[0];
    assert id in w.ids && id !in w.lists && id in c.lists;
    forall i | i in w.rules ensures c.lists[id].name !in Refs(w.rules[i]) {
      StayLinkedAmongMore(w.rules[i], i, w.lists, c.lists);
    }
  }

  lemma DropKeepsLinks<R>(w: Work, c: Change, env: Env<R>)
    requires WellKeyed(w) && c.Drop? && Sound(w, c, env)
    requires Linked(w.rules, w.lists) && !DuplicateListNames(c.lists)
    ensures Linked(Perform(w, c).rules, c.lists)
  {
    forall i | i in w.rules && i != c.k ensures RuleLinked(w.rules[i], i, c.lists) {
      OthersStayLinked(w, c.k, i, c.lists);
    }
  }

  lemma ChangeKeepsDuplicates<R>(w: Work, c: Change, env: Env<R>)
    requires WellKeyed(w) && Sound(w, c, env) && FreshIds(w) && DuplicateListNames(w.lists)
    ensures DuplicateListNames(Perform(w, c).lists)
  {
    var k, j :| k in w.lists && j in w.lists && k != j && w.lists[k].name == w.lists[j].name;
    var lists' := Perform(w, c).lists;
    if c.Birth? {
      assert forall i :: i in c.newLists ==> i in w.ids;
      assert lists'[k] == w.lists[k] && lists'[j] == w.lists[j];
    } else if c.Rebind? {
      if c.used > 0 { assert w.ids[0] in w.ids; }
      assert k in lists' && j in lists';
      assert lists'[k].name == w.lists[k].name && lists'[j].name == w.lists[j].name;
    } else if !c.Drop? {
      assert lists'[k].name == lists'[j].name;
    }
  }

  lemma ChangeKeepsLinks<R>(w: Work, c: Change, env: Env<R>)
    requires WellKeyed(w) && Sound(w, c, env) && FreshIds(w) && LinkedOrAmbiguous(w)
    ensures LinkedOrAmbiguous(Perform(w, c))
  {
    var w' := Perform(w, c);
    if DuplicateListNames(w.lists) {
      ChangeKeepsDuplicates(w, c, env);
    } else if !DuplicateListNames(w'.lists) {
      match c
      case Same =>
      case Fill(k, entries) => RenamedLists(w.rules, w.lists, w'.lists);
      case Edit(k, rule, _) => EditKeepsLinks(w.rules, w.lists, k, rule);
      case Birth(_, _, _) => BirthKeepsLinks(w, c, env);
      case Rebind(_, _, _, _) => RebindKeepsLinks(w, c, env);
      case Drop(_, _) => DropKeepsLinks(w, c, env);
    }
  }

  lemma ChangeKeepsFreshness<R>(w: Work, c: Change, env: Env<R>)
    requires WellKeyed(w) && Sound(w, c, env) && FreshIds(w)
    ensures FreshIds(Perform(w, c))
  {
    var used := if c.Birth? || c.Rebind? then c.used else 0;
    assert Perform(w, c).ids == w.ids[used..];
    RestIsApart(w.ids, used);
  }

  lemma RestIsApart(ids: seq<Uid>, used: nat)
    requires NoDuplicates(ids) && used <= |ids|
    ensures NoDuplicates(ids[used..])
    ensures forall id :: id in ids[used..] ==> id in ids && id !in ids[..used]
  {
    forall id | id in ids[used..] ensures id in ids && id !in ids[..used] {
      var i :| 0 <= i < |ids| - used && ids[used..][i] == id;
      assert ids[i + used] == id;
    }
  }

  lemma {:induction false} RunKeepsLinks<R>(w: Work, plan: seq<Action>, env: Env<R>)
    requires WellKeyed(w) && FreshIds(w) && LinkedOrAmbiguous(w)
    requires Run(w, plan, env).Ok?
    ensures LinkedOrAmbiguous(Run(w, plan, env).value) && WellKeyed(Run(w, plan, env).value)
    decreases |plan|
  {
    if plan != [] {
      var c := StepChange(w, plan[0], env);
      PerformKeyed(w, c, env);
      ChangeKeepsLinks(w, c, env);
      ChangeKeepsFreshness(w, c, env);
      RunKeepsLinks(Perform(w, c), plan[1..], env);
    }
  }

  ghost predicate LinkedState(s: State) { UniqueIds(s) && Linked(RuleMap(s), ListMap(s)) }

  lemma StateOfMaps(w: Work, ou: string, unmanaged: seq<string>)
    requires WellKeyed(w)
    ensures var s := StateOf(w, ou, unmanaged);
      UniqueIds(s) && RuleMap(s) == w.rules && ListMap(s) == w.lists
  {
    ListingFacts(w.rules, RuleId);
    ListingFacts(w.lists, ListId);
  }

  /** A plan that succeeds leads from a linked state to a linked state. Only whole
      UUIDs need be fresh: colliding visible names make the plan fail instead. */
  lemma PlanKeepsIntegrity<R>(before: State, plan: seq<Action>, registry: Registry<R>, ids: seq<Uid>, prefix: string)
    requires LinkedState(before) && FreshIds(Start(before, ids))
    requires Calculate(before, plan, registry, ids, prefix).Ok?
    ensures var after := Calculate(before, plan, registry, ids, prefix).value.state;
      LinkedState(after) && UniqueListNames(ListMap(after))
  {
    var env := Env(before.ou, registry, prefix);
    StartKeyed(before, ids);
    RunKeepsLinks(Start(before, ids), plan, env);
    StateOfMaps(Run(Start(before, ids), plan, env).value, before.ou, before.unmanaged);
  }
}
