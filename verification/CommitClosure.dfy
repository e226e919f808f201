/** When the commit of a verified plan succeeds, and what it then owns. */
module CommitClosure {
  import opened Keyed
  import opened Resources
  import opened DesiredState
  import opened Integrity
  import opened Authorization
  import opened Diff
  import opened Lifecycle
  import opened Closure

  /** No surviving rule gained, lost or exchanged a bypass list. */
  ghost predicate BypassesKept(before: map<Uid, Rule>, after: map<Uid, Rule>) {
    forall k :: k in before && k in after ==> after[k].bypassNames == before[k].bypassNames
  }

  /** Every list the plan created is still used by a rule. */
  ghost predicate NoOrphans(b: Work, a: Work) {
    forall j :: j in a.lists && j !in b.lists ==> exists k :: k in a.rules && a.lists[j].name in Refs(a.rules[k])
  }

  ghost predicate ReboundNames(r: Rule, r': Rule, b: Work, a: Work) {
    && (forall n, j :: n in r.bypassNames && n !in r'.bypassNames && j in a.lists ==> a.lists[j].name != n)
    && (forall n, j :: n in r'.bypassNames && n !in r.bypassNames && j in b.lists ==> b.lists[j].name != n)
    && (r'.bypassNames == r.bypassNames || |r'.bypassNames| <= 1)
  }

  /** What the start `b` and the end `a` of a successful plan have to do with each other. */
  ghost predicate Related(b: Work, a: Work) {
    && Linked(b.rules, b.lists) && Linked(a.rules, a.lists)
    && (forall k :: k in b.rules && k in a.rules ==> a.rules[k].listNames == b.rules[k].listNames && ReboundNames(b.rules[k], a.rules[k], b, a))
    && (forall j :: j in b.lists && j in a.lists ==> a.lists[j].name == b.lists[j].name)
    && (forall j, i :: j in a.lists && j !in b.lists && i in b.lists ==> b.lists[i].name != a.lists[j].name)
    && (forall k :: k in a.rules && k !in b.rules ==> k !in b.lists)
    && (forall j :: j in b.lists && j !in a.lists ==> ServedARule(j, b))
  }

  lemma SettingRelates<R>(b: Work, a: Work, env: Env<R>)
    requires Setting(b, a, env) && Linked(a.rules, a.lists)
    ensures Related(b, a)
  {
    forall j, i | j in a.lists && j !in b.lists && i in b.lists ensures b.lists[i].name != a.lists[j].name {
      assert NewName(a.lists[j].name, j, b.ids, env.prefix);
    }
    forall k | k in b.rules && k in a.rules ensures a.rules[k].listNames == b.rules[k].listNames && ReboundNames(b.rules[k], a.rules[k], b, a) {
      assert RuleFramed(b.rules[k], Lookup(a.rules, k), env);
      assert BypassEvolved(b.rules[k], a.rules[k], a.lists, b.ids, env.prefix);
      forall n, j | n in a.rules[k].bypassNames && n !in b.rules[k].bypassNames && j in b.lists ensures b.lists[j].name != n {
        var id :| NewName(n, id, b.ids, env.prefix);
        assert !NewName(b.lists[j].name, id, b.ids, env.prefix);
      }
    }
    forall j | j in b.lists && j in a.lists ensures a.lists[j].name == b.lists[j].name {
      assert ListFramed(b.lists[j], Lookup(a.lists, j), env);
    }
  }

  /** The computed change set, as dictionaries. */
  ghost predicate Describes(cs: ChangeSet, b: Work, a: Work) {
    && Index(cs.rules.created, RuleId) == a.rules - b.rules.Keys
    && Index(cs.rules.removed, RuleId) == b.rules - a.rules.Keys
    && Index(cs.lists.created, ListId) == a.lists - b.lists.Keys
    && Index(cs.lists.removed, ListId) == b.lists - a.lists.Keys
  }

  lemma OtherRulesName(rules: map<Uid, Rule>, lists: map<Uid, AddressList>, k: Uid, i: Uid, n: string)
    requires Linked(rules, lists) && k in rules && i in rules && n in Refs(rules[k]) && k != i
    ensures n !in Refs(rules[i])
  {
  }

  lemma PrimaryIsOwn(rules: map<Uid, Rule>, lists: map<Uid, AddressList>, k: Uid)
    requires Linked(rules, lists) && k in rules
    ensures k in lists && rules[k].listNames == [lists[k].name] && lists[k].name in Refs(rules[k])
  {
  }

  lemma ListNamed(rules: map<Uid, Rule>, lists: map<Uid, AddressList>, k: Uid, n: string) returns (j: Uid)
    requires Linked(rules, lists) && k in rules && n in Refs(rules[k])
    ensures IsOnlyNamed(lists, n, j)
  {
    assert RuleLinked(rules[k], k, lists);
    j :| IsOnlyNamed(lists, n, j);
  }

  lemma NewListName(b: Work, a: Work, j: Uid, k: Uid)
    requires Related(b, a) && j in a.lists && j !in b.lists && k in b.rules
    ensures a.lists[j].name !in Refs(b.rules[k])
  {
  }

  lemma KeptMeansCreationsPaired(b: Work, a: Work, cs: ChangeSet)
    requires Related(b, a) && Describes(cs, b, a) && BypassesKept(b.rules, a.rules) && NoOrphans(b, a)
    ensures CreationsPaired(cs)
  {
    var rules, lists := a.rules - b.rules.Keys, a.lists - b.lists.Keys;
    forall k | k in rules ensures k in lists && rules[k].listNames == [lists[k].name] {
      PrimaryIsOwn(a.rules, a.lists, k);
    }
    forall j | j in lists && j !in rules ensures exists k :: k in rules && lists[j].name in rules[k].bypassNames {
      NewListServesNewRule(b, a, j);
    }
  }

  lemma NewListServesNewRule(b: Work, a: Work, j: Uid)
    requires Related(b, a) && BypassesKept(b.rules, a.rules) && NoOrphans(b, a)
    requires j in a.lists && j !in b.lists && (j !in a.rules || j in b.rules)
    ensures exists k :: k in a.rules - b.rules.Keys && a.lists[j].name in a.rules[k].bypassNames
  {
    var n := a.lists[j].name;
    forall k | k in a.rules && k in b.rules ensures n !in Refs(a.rules[k]) {
      NewListName(b, a, j, k);
      assert Refs(a.rules[k]) == Refs(b.rules[k]);
    }
    var k :| k in a.rules && n in Refs(a.rules[k]);
    PrimaryIsOwn(a.rules, a.lists, k);
    assert RuleLinked(a.rules[k], k, a.lists);
    assert k in a.rules - b.rules.Keys;
  }

  lemma KeptMeansRemovalsPaired(b: Work, a: Work, cs: ChangeSet)
    requires Related(b, a) && Describes(cs, b, a) && BypassesKept(b.rules, a.rules)
    ensures RemovalsPaired(cs)
  {
    var rules := b.rules - a.rules.Keys;
    forall j | j in b.lists && j !in a.lists ensures j in rules || exists k :: k in rules && b.lists[j].name in rules[k].bypassNames {
      var k :| k in b.rules && (j == k || b.lists[j].name in b.rules[k].bypassNames);
      if k in a.rules {
        SurvivorKeepsItsLists(b, a, k, j);
      } else {
        assert k in rules && rules[k] == b.rules[k];
      }
    }
  }

  /** The lists a surviving rule had and still names are still there. */
  lemma SurvivorKeepsItsLists(b: Work, a: Work, k: Uid, j: Uid)
    requires Related(b, a) && k in b.rules && k in a.rules && j in b.lists
    requires a.rules[k].bypassNames == b.rules[k].bypassNames
    requires j == k || b.lists[j].name in b.rules[k].bypassNames
    ensures j in a.lists
  {
    if j == k {
      PrimaryIsOwn(a.rules, a.lists, k);
    } else {
      var n := b.lists[j].name;
      assert n in Refs(b.rules[k]) && n in Refs(a.rules[k]);
      var i := ListNamed(a.rules, a.lists, k, n);
      var i0 := ListNamed(b.rules, b.lists, k, n);
      assert i in b.lists && b.lists[i].name == n;
    }
  }

  lemma DroppedIsUnpaired(b: Work, a: Work, cs: ChangeSet, k: Uid, n: string)
    requires Related(b, a) && Describes(cs, b, a) && k in b.rules && k in a.rules
    requires n in b.rules[k].bypassNames && n !in a.rules[k].bypassNames
    ensures !RemovalsPaired(cs)
  {
    assert n in Refs(b.rules[k]) && ReboundNames(b.rules[k], a.rules[k], b, a);
    var j := ListNamed(b.rules, b.lists, k, n);
    var rules := b.rules - a.rules.Keys;
    assert j in b.lists - a.lists.Keys;
    forall i | i in rules ensures i != j && n !in rules[i].bypassNames {
      OtherRulesName(b.rules, b.lists, k, i, n);
      PrimaryIsOwn(b.rules, b.lists, i);
    }
  }

  lemma GainedIsUnpaired(b: Work, a: Work, cs: ChangeSet, k: Uid, n: string)
    requires Related(b, a) && Describes(cs, b, a) && k in b.rules && k in a.rules
    requires n in a.rules[k].bypassNames && n !in b.rules[k].bypassNames
    ensures !CreationsPaired(cs)
  {
    assert n in Refs(a.rules[k]) && ReboundNames(b.rules[k], a.rules[k], b, a);
    var j := ListNamed(a.rules, a.lists, k, n);
    var rules := a.rules - b.rules.Keys;
    assert j in a.lists - b.lists.Keys;
    forall i | i in rules ensures i != j && n !in rules[i].bypassNames {
      OtherRulesName(a.rules, a.lists, k, i, n);
      PrimaryIsOwn(a.rules, a.lists, i);
    }
  }

  lemma LongerHasMore(s: seq<string>, t: seq<string>)
    requires NoDuplicates(s) && |t| <= 1 && |s| > |t|
    ensures exists n :: n in s && n !in t
  {
    if |s| == 1 { assert s[0] in s && s[0] !in t; }
    else { assert s[0] in s && s[1] in s && s[0] != s[1]; }
  }

  /** Duplicate-free lists of names with the same members, the second at most one long. */
  lemma SameShortNames(s: seq<string>, t: seq<string>)
    requires NoDuplicates(s) && |t| <= 1
    requires (forall n :: n in s ==> n in t) && (forall n :: n in t ==> n in s)
    ensures s == t
  {
    if |s| > |t| { LongerHasMore(s, t); }
    if |t| == 1 { assert t[0] in s; }
  }

  lemma PairedMeansKept(b: Work, a: Work, cs: ChangeSet, k: Uid)
    requires Related(b, a) && Describes(cs, b, a) && CreationsPaired(cs) && RemovalsPaired(cs)
    requires k in b.rules && k in a.rules
    ensures a.rules[k].bypassNames == b.rules[k].bypassNames
  {
    var r, r' := b.rules[k], a.rules[k];
    assert ReboundNames(r, r', b, a);
    assert RuleLinked(r, k, b.lists);
    LinkedNamesDiffer(r, k, b.lists);
    forall n | n in r.bypassNames ensures n in r'.bypassNames {
      if n !in r'.bypassNames { DroppedIsUnpaired(b, a, cs, k, n); }
    }
    forall n | n in r'.bypassNames ensures n in r.bypassNames {
      if n !in r.bypassNames { GainedIsUnpaired(b, a, cs, k, n); }
    }
    if r'.bypassNames != r.bypassNames { SameShortNames(r.bypassNames, r'.bypassNames); }
  }

  lemma PairedMeansNoOrphans(b: Work, a: Work, cs: ChangeSet)
    requires Related(b, a) && Describes(cs, b, a) && CreationsPaired(cs)
    ensures NoOrphans(b, a)
  {
    var rules, lists := a.rules - b.rules.Keys, a.lists - b.lists.Keys;
    forall j | j in lists ensures exists k :: k in a.rules && a.lists[j].name in Refs(a.rules[k]) {
      if j in rules {
        PrimaryIsOwn(a.rules, a.lists, j);
      } else {
        var k :| k in rules && lists[j].name in rules[k].bypassNames;
        assert a.lists[j].name in Refs(a.rules[k]);
      }
    }
  }

  /** The guards of the commit, read on the two states. */
  lemma PairedIffKept(b: Work, a: Work, cs: ChangeSet)
    requires Related(b, a) && Describes(cs, b, a)
    ensures CreationsPaired(cs) && RemovalsPaired(cs) <==> BypassesKept(b.rules, a.rules) && NoOrphans(b, a)
  {
    if CreationsPaired(cs) && RemovalsPaired(cs) {
      PairedMeansNoOrphans(b, a, cs);
      forall k | k in b.rules && k in a.rules ensures a.rules[k].bypassNames == b.rules[k].bypassNames {
        PairedMeansKept(b, a, cs, k);
      }
    }
    if BypassesKept(b.rules, a.rules) && NoOrphans(b, a) {
      KeptMeansCreationsPaired(b, a, cs);
      KeptMeansRemovalsPaired(b, a, cs);
    }
  }
}
