/** The JSON trees of rules, lists and states, and what equal canonical forms say about them. */
module StateTrees {
  import opened Keyed
  import opened Resources
  import opened Json
  import opened Canonical
  import opened WriteOrder

  function Trees<T>(s: seq<T>, f: T -> Json): seq<Json> { seq(|s|, i requires 0 <= i < |s| => f(s[i])) }

  function StringTree(s: string): Json { Str(s) }

  function Strings(names: seq<string>): Json { Arr(Trees(names, StringTree)) }

  function EntryTree(e: Entry): Json {
    Obj([
      Member("kind", Str(if e.kind == Domain then "domain" else "email")),
      Member("value", Str(e.value)),
      Member("normalized_value", Str(e.normalized))
    ])
  }

  function RuleMembers(r: Rule): seq<Member> {
    [
      Member("ownership_id", Str(r.id)),
      Member("display_name", Str(r.name)),
      Member("target_ou", Str(r.ou)),
      Member("address_list_names", Strings(r.listNames)),
      Member("bypass_address_list_names", Strings(r.bypassNames)),
      Member("rejection_notice", if r.notice.Some? then Str(r.notice.value) else Null),
      Member("enabled", Bool(r.enabled)),
      Member("inherited", Bool(r.inherited))
    ]
  }

  function RuleTree(r: Rule): Json { Obj(RuleMembers(r)) }

  function ListMembers(l: AddressList): seq<Member> {
    [
      Member("ownership_id", Str(l.id)),
      Member("display_name", Str(l.name)),
      Member("entries", Arr(Trees(l.entries, EntryTree)))
    ]
  }

  function ListTree(l: AddressList): Json { Obj(ListMembers(l)) }

  function StateMembers(s: State): seq<Member> {
    [
      Member("schema_version", Str("1.0")),
      Member("target_ou", Str(s.ou)),
      Member("rules", Arr(Trees(s.rules, RuleTree))),
      Member("address_lists", Arr(Trees(s.lists, ListTree))),
      Member("unmanaged_rule_names", Strings(s.unmanaged))
    ]
  }

  function StateTree(s: State): Json { Obj(StateMembers(s)) }

  function StateHash(s: State, nfc: Text, sha: Text): string { CanonicalHash(StateTree(s), nfc, sha) }

  function ResourceTree(r: Resource): Json {
    match r case RuleRes(rule) => RuleTree(rule) case ListRes(list) => ListTree(list)
  }

  /** Canonicalizing a sequence of trees commutes with reordering it. */
  lemma {:induction false} CanonBag(s: seq<Json>, t: seq<Json>, nfc: Text)
    requires multiset(s) == multiset(t)
    ensures multiset(CanonItems(s, nfc)) == multiset(CanonItems(t, nfc))
  {
    assert |multiset(s)| == |s| && |multiset(t)| == |t|;
    if s != [] {
      BagStep(s, t);
      var i :| 0 <= i < |t| && s[0] == t[i] && multiset(Without(s, 0)) == multiset(Without(t, i));
      CanonBag(Without(s, 0), Without(t, i), nfc);
      CanonItemsAt(s, nfc);
      CanonItemsAt(t, nfc);
      CanonWithoutItem(s, 0, nfc);
      CanonWithoutItem(t, i, nfc);
      WithoutBag(CanonItems(s, nfc), 0);
      WithoutBag(CanonItems(t, nfc), i);
    }
  }

  lemma {:induction false} TreesBag<T>(s: seq<T>, t: seq<T>, f: T -> Json)
    requires multiset(s) == multiset(t)
    ensures multiset(Trees(s, f)) == multiset(Trees(t, f))
  {
    assert |multiset(s)| == |s| && |multiset(t)| == |t|;
    if s != [] {
      BagStep(s, t);
      var i :| 0 <= i < |t| && s[0] == t[i] && multiset(Without(s, 0)) == multiset(Without(t, i));
      TreesBag(Without(s, 0), Without(t, i), f);
      assert Without(Trees(s, f), 0) == Trees(Without(s, 0), f);
      assert Without(Trees(t, f), i) == Trees(Without(t, i), f);
      WithoutBag(Trees(s, f), 0);
      WithoutBag(Trees(t, f), i);
    }
  }

  /** Reordered data has the same canonical array. */
  lemma SameArray<T>(s: seq<T>, t: seq<T>, f: T -> Json, nfc: Text)
    requires multiset(s) == multiset(t)
    ensures Canon(Arr(Trees(s, f)), nfc, false) == Canon(Arr(Trees(t, f)), nfc, false)
  {
    TreesBag(s, t, f);
    CanonBag(Trees(s, f), Trees(t, f), nfc);
    SortedItemsAgree(CanonItems(Trees(s, f), nfc), CanonItems(Trees(t, f), nfc));
  }

  /** Tuples with unique IDs and the same dictionary hold the same items. */
  lemma {:induction false} SameIndexSameBag<T>(s: seq<T>, t: seq<T>, key: T -> Uid)
    requires UniqueKeys(s, key) && UniqueKeys(t, key) && Index(s, key) == Index(t, key)
    ensures multiset(s) == multiset(t)
  {
    IndexFacts(s, key);
    IndexFacts(t, key);
    forall x ensures multiset(s)[x] == multiset(t)[x] {
      OccursByKey(s, key, x);
      OccursByKey(t, key, x);
    }
  }

  lemma {:induction false} OccursByKey<T>(s: seq<T>, key: T -> Uid, x: T)
    requires UniqueKeys(s, key)
    ensures multiset(s)[x] == if key(x) in Index(s, key) && Index(s, key)[key(x)] == x then 1 else 0
  {
    if s != [] {
      var init, last := s[..|s| - 1], s[|s| - 1];
      OccursByKey(init, key, x);
      assert s == init + [last];
      IndexFacts(init, key);
      assert forall y :: y in init ==> key(y) != key(last);
      assert forall k :: k in Index(init, key) ==> k != key(last);
    }
  }

  lemma SameFields(m: seq<Member>, n: seq<Member>, nfc: Text)
    requires |m| == |n| && forall i :: 0 <= i < |m| ==> CanonMember(m[i], nfc) == CanonMember(n[i], nfc)
    ensures Canon(Obj(m), nfc, false) == Canon(Obj(n), nfc, false)
  {
    CanonMembersAt(m, nfc);
    CanonMembersAt(n, nfc);
    assert CanonMembers(m, nfc) == CanonMembers(n, nfc);
  }

  lemma SameArrayField<T>(name: string, s: seq<T>, t: seq<T>, f: T -> Json, nfc: Text)
    requires multiset(s) == multiset(t) && name != "actions"
    ensures CanonMember(Member(name, Arr(Trees(s, f))), nfc) == CanonMember(Member(name, Arr(Trees(t, f))), nfc)
  {
    SameArray(s, t, f, nfc);
  }

  /** Two states that differ only in the order of their parts hash alike. */
  lemma ReorderedStatesAgree(a: State, b: State, nfc: Text)
    requires UniqueIds(a) && UniqueIds(b) && SurfaceOf(a) == SurfaceOf(b)
    requires a.ou == b.ou && multiset(a.unmanaged) == multiset(b.unmanaged)
    ensures Canon(StateTree(a), nfc, false) == Canon(StateTree(b), nfc, false)
  {
    SameIndexSameBag(a.rules, b.rules, RuleId);
    SameIndexSameBag(a.lists, b.lists, ListId);
    SameArrayField("rules", a.rules, b.rules, RuleTree, nfc);
    SameArrayField("address_lists", a.lists, b.lists, ListTree, nfc);
    SameArrayField("unmanaged_rule_names", a.unmanaged, b.unmanaged, StringTree, nfc);
    StateFieldsAgree(a, b, nfc);
    SameFields(StateMembers(a), StateMembers(b), nfc);
  }

  lemma StateFieldsAgree(a: State, b: State, nfc: Text)
    requires a.ou == b.ou
    requires CanonMember(Member("rules", Arr(Trees(a.rules, RuleTree))), nfc) == CanonMember(Member("rules", Arr(Trees(b.rules, RuleTree))), nfc)
    requires CanonMember(Member("address_lists", Arr(Trees(a.lists, ListTree))), nfc) == CanonMember(Member("address_lists", Arr(Trees(b.lists, ListTree))), nfc)
    requires CanonMember(Member("unmanaged_rule_names", Arr(Trees(a.unmanaged, StringTree))), nfc) == CanonMember(Member("unmanaged_rule_names", Arr(Trees(b.unmanaged, StringTree))), nfc)
    ensures |StateMembers(a)| == |StateMembers(b)| == 5
    ensures forall i :: 0 <= i < 5 ==> CanonMember(StateMembers(a)[i], nfc) == CanonMember(StateMembers(b)[i], nfc)
  {
  }

  /** Objects with the same canonical form agree, canonically, on each field. */
  lemma FieldAgrees(m: seq<Member>, n: seq<Member>, i: nat, nfc: Text)
    requires UniqueNames(m) && UniqueNames(n) && i < |m| && i < |n| && m[i].key == n[i].key
    requires Canon(Obj(m), nfc, false) == Canon(Obj(n), nfc, false)
    ensures CanonMember(m[i], nfc) == CanonMember(n[i], nfc)
  {
    ObjectsShare(m, n, nfc);
    var j := SharedMember(CanonMembers(m, nfc), CanonMembers(n, nfc), i);
    CanonMembersAt(m, nfc);
    CanonMembersAt(n, nfc);
    assert n[j].key == n[i].key;
  }

  lemma SharedMember(s: seq<Member>, t: seq<Member>, i: nat) returns (j: nat)
    requires i < |s| && multiset(s) == multiset(t)
    ensures j < |t| && t[j] == s[i]
  {
    assert s[i] in multiset(t);
    j :| 0 <= j < |t| && t[j] == s[i];
  }

  /** Canonically equal arrays pair up their items. */
  lemma ItemAgrees(s: seq<Json>, t: seq<Json>, i: nat, nfc: Text) returns (j: nat)
    requires i < |s| && Canon(Arr(s), nfc, false) == Canon(Arr(t), nfc, false)
    ensures j < |t| && Canon(s[i], nfc, false) == Canon(t[j], nfc, false)
  {
    var cs, ct := CanonItems(s, nfc), CanonItems(t, nfc);
    SortedItemsAgree(cs, ct);
    CanonItemsAt(s, nfc);
    CanonItemsAt(t, nfc);
    assert cs[i] in multiset(ct);
    j :| 0 <= j < |ct| && ct[j] == cs[i];
  }

  /** UUID texts are pure ASCII, which normalization leaves alone. */
  ghost predicate Stable(s: State, nfc: Text) {
    && (forall r :: r in s.rules ==> nfc(r.id) == r.id)
    && (forall l :: l in s.lists ==> nfc(l.id) == l.id)
  }

  /** Canonically equal resources carry the same ownership ID. */
  lemma SameOwner(m: seq<Member>, n: seq<Member>, id: Uid, id': Uid, nfc: Text)
    requires UniqueNames(m) && UniqueNames(n) && m != [] && n != []
    requires m[0] == Member("ownership_id", Str(id)) && n[0] == Member("ownership_id", Str(id'))
    requires Canon(Obj(m), nfc, false) == Canon(Obj(n), nfc, false)
    requires nfc(id) == id && nfc(id') == id'
    ensures id == id'
  {
    FieldAgrees(m, n, 0, nfc);
  }

  lemma RuleMembersFacts(r: Rule)
    ensures UniqueNames(RuleMembers(r)) && RuleMembers(r) != []
    ensures RuleMembers(r)[0] == Member("ownership_id", Str(r.id))
  {
  }

  lemma SameRuleOwner(r: Rule, r': Rule, nfc: Text)
    requires Canon(RuleTree(r), nfc, false) == Canon(RuleTree(r'), nfc, false) && nfc(r.id) == r.id && nfc(r'.id) == r'.id
    ensures r.id == r'.id
  {
    RuleMembersFacts(r);
    RuleMembersFacts(r');
    SameOwner(RuleMembers(r), RuleMembers(r'), r.id, r'.id, nfc);
  }

  lemma EqualArraysRules(s: seq<Rule>, t: seq<Rule>, nfc: Text, k: Uid)
    requires UniqueKeys(s, RuleId) && UniqueKeys(t, RuleId)
    requires (forall r :: r in s ==> nfc(r.id) == r.id) && (forall r :: r in t ==> nfc(r.id) == r.id)
    requires Canon(Arr(Trees(s, RuleTree)), nfc, false) == Canon(Arr(Trees(t, RuleTree)), nfc, false)
    requires k in Index(s, RuleId)
    ensures k in Index(t, RuleId) && Canon(RuleTree(Index(s, RuleId)[k]), nfc, false) == Canon(RuleTree(Index(t,
        RuleId)[k]), nfc, false)
  {
    IndexFacts(s, RuleId);
    IndexFacts(t, RuleId);
    var r := Index(s, RuleId)[k];
    var i :| 0 <= i < |s| && s[i] == r;
    var j := ItemAgrees(Trees(s, RuleTree), Trees(t, RuleTree), i, nfc);
    assert t[j] in t;
    SameRuleOwner(r, t[j], nfc);
    assert Index(t, RuleId)[RuleId(t[j])] == t[j];
  }

  lemma SameListOwner(l: AddressList, l': AddressList, nfc: Text)
    requires Canon(ListTree(l), nfc, false) == Canon(ListTree(l'), nfc, false) && nfc(l.id) == l.id && nfc(l'.id) == l'.id
    ensures l.id == l'.id
  {
    SameOwner(ListMembers(l), ListMembers(l'), l.id, l'.id, nfc);
  }

  lemma EqualArraysLists(s: seq<AddressList>, t: seq<AddressList>, nfc: Text, k: Uid)
    requires UniqueKeys(s, ListId) && UniqueKeys(t, ListId)
    requires (forall l :: l in s ==> nfc(l.id) == l.id) && (forall l :: l in t ==> nfc(l.id) == l.id)
    requires Canon(Arr(Trees(s, ListTree)), nfc, false) == Canon(Arr(Trees(t, ListTree)), nfc, false)
    requires k in Index(s, ListId)
    ensures k in Index(t, ListId) && Canon(ListTree(Index(s, ListId)[k]), nfc, false) == Canon(ListTree(Index(t,
        ListId)[k]), nfc, false)
  {
    IndexFacts(s, ListId);
    IndexFacts(t, ListId);
    var l := Index(s, ListId)[k];
    var i :| 0 <= i < |s| && s[i] == l;
    var j := ItemAgrees(Trees(s, ListTree), Trees(t, ListTree), i, nfc);
    assert t[j] in t;
    SameListOwner(l, t[j], nfc);
    assert Index(t, ListId)[ListId(t[j])] == t[j];
  }

  lemma StateArraysAgree(a: State, b: State, nfc: Text)
    requires Canon(StateTree(a), nfc, false) == Canon(StateTree(b), nfc, false)
    ensures Canon(Arr(Trees(a.rules, RuleTree)), nfc, false) == Canon(Arr(Trees(b.rules, RuleTree)), nfc, false)
    ensures Canon(Arr(Trees(a.lists, ListTree)), nfc, false) == Canon(Arr(Trees(b.lists, ListTree)), nfc, false)
  {
    FieldAgrees(StateMembers(a), StateMembers(b), 2, nfc);
    FieldAgrees(StateMembers(a), StateMembers(b), 3, nfc);
    assert StateMembers(a)[2] == Member("rules", Arr(Trees(a.rules, RuleTree)));
    assert StateMembers(a)[3] == Member("address_lists", Arr(Trees(a.lists, ListTree)));
  }

  /** States with the same canonical form have the same resources, each canonically equal. */
  lemma EqualHashResources(a: State, b: State, nfc: Text, x: Key)
    requires UniqueIds(a) && UniqueIds(b) && Stable(a, nfc) && Stable(b, nfc)
    requires Canon(StateTree(a), nfc, false) == Canon(StateTree(b), nfc, false)
    ensures AgreeAt(a, b, x, nfc)
  {
    StateArraysAgree(a, b, nfc);
    StateArraysAgree(b, a, nfc);
    if x.RuleKey? {
      if x.id in RuleMap(a) { EqualArraysRules(a.rules, b.rules, nfc, x.id); }
      if x.id in RuleMap(b) { EqualArraysRules(b.rules, a.rules, nfc, x.id); }
    } else {
      if x.id in ListMap(a) { EqualArraysLists(a.lists, b.lists, nfc, x.id); }
      if x.id in ListMap(b) { EqualArraysLists(b.lists, a.lists, nfc, x.id); }
    }
  }

  /** The items of `t` in the order of `s`. */
  function InOrderOf<T>(s: seq<T>, t: map<Uid, T>, key: T -> Uid): seq<T>
    requires forall i :: 0 <= i < |s| ==> key(s[i]) in t
  {
    seq(|s|, i requires 0 <= i < |s| => t[key(s[i])])
  }

  lemma {:induction false} InOrderIndex<T>(s: seq<T>, t: map<Uid, T>, key: T -> Uid)
    requires UniqueKeys(s, key) && KeyedBy(t, key) && Index(s, key).Keys == t.Keys
    requires forall i :: 0 <= i < |s| ==> key(s[i]) in t
    ensures UniqueKeys(InOrderOf(s, t, key), key) && Index(InOrderOf(s, t, key), key) == t
  {
    var u := InOrderOf(s, t, key);
    assert forall i :: 0 <= i < |s| ==> key(u[i]) == key(s[i]);
    IndexFacts(s, key);
    IndexFacts(u, key);
    forall k | k in t ensures k in Index(u, key) {
      var i :| 0 <= i < |s| && s[i] == Index(s, key)[k];
      assert key(u[i]) == k;
    }
    forall k | k in Index(u, key) ensures k in t && Index(u, key)[k] == t[k] {
      var i :| 0 <= i < |u| && u[i] == Index(u, key)[k];
      assert u[i] == t[key(s[i])] && key(u[i]) == k;
    }
  }

  /** Tuples whose items agree canonically, ID by ID, have the same canonical array. */
  lemma {:induction false} AgreeingArrays<T>(s: seq<T>, t: seq<T>, key: T -> Uid, f: T -> Json, nfc: Text)
    requires UniqueKeys(s, key) && UniqueKeys(t, key) && Index(s, key).Keys == Index(t, key).Keys
    requires forall k :: k in Index(s, key) ==> Canon(f(Index(s, key)[k]), nfc, false) == Canon(f(Index(t, key)[k]), nfc, false)
    ensures Canon(Arr(Trees(s, f)), nfc, false) == Canon(Arr(Trees(t, f)), nfc, false)
  {
    InOrderBag(s, t, key);
    SameArray(InOrderOf(s, Index(t, key), key), t, f, nfc);
    InOrderAgrees(s, Index(t, key), key, f, nfc);
  }

  lemma {:induction false} InOrderBag<T>(s: seq<T>, t: seq<T>, key: T -> Uid)
    requires UniqueKeys(s, key) && UniqueKeys(t, key) && Index(s, key).Keys == Index(t, key).Keys
    ensures forall i :: 0 <= i < |s| ==> key(s[i]) in Index(t, key)
    ensures multiset(InOrderOf(s, Index(t, key), key)) == multiset(t)
  {
    IndexFacts(s, key);
    IndexFacts(t, key);
    InOrderIndex(s, Index(t, key), key);
    SameIndexSameBag(InOrderOf(s, Index(t, key), key), t, key);
  }

  lemma InOrderAgrees<T>(s: seq<T>, t: map<Uid, T>, key: T -> Uid, f: T -> Json, nfc: Text)
    requires UniqueKeys(s, key) && forall i :: 0 <= i < |s| ==> key(s[i]) in t
    requires forall k :: k in Index(s, key) && k in t ==> Canon(f(Index(s, key)[k]), nfc, false) == Canon(f(t[k]), nfc, false)
    ensures CanonItems(Trees(s, f), nfc) == CanonItems(Trees(InOrderOf(s, t, key), f), nfc)
  {
    var u := InOrderOf(s, t, key);
    IndexFacts(s, key);
    CanonItemsAt(Trees(s, f), nfc);
    CanonItemsAt(Trees(u, f), nfc);
    forall i | 0 <= i < |s| ensures CanonItems(Trees(s, f), nfc)[i] == CanonItems(Trees(u, f), nfc)[i] {
      assert Index(s, key)[key(s[i])] == s[i];
    }
  }

  ghost predicate AgreeAt(a: State, b: State, x: Key, nfc: Text) {
    match (At(SurfaceOf(a), x), At(SurfaceOf(b), x))
    case (Some(r), Some(r')) => Canon(ResourceTree(r), nfc, false) == Canon(ResourceTree(r'), nfc, false)
    case (None, None) => true
    case (_, _) => false
  }

  lemma AgreeingRules(a: State, b: State, nfc: Text)
    requires UniqueIds(a) && UniqueIds(b) && forall x: Key :: AgreeAt(a, b, x, nfc)
    ensures Canon(Arr(Trees(a.rules, RuleTree)), nfc, false) == Canon(Arr(Trees(b.rules, RuleTree)), nfc, false)
  {
    forall k ensures k in RuleMap(a) <==> k in RuleMap(b) { assert AgreeAt(a, b, RuleKey(k), nfc); }
    forall k | k in RuleMap(a) ensures Canon(RuleTree(RuleMap(a)[k]), nfc, false) == Canon(RuleTree(RuleMap(b)[k]), nfc, false) {
      assert AgreeAt(a, b, RuleKey(k), nfc);
    }
    AgreeingArrays(a.rules, b.rules, RuleId, RuleTree, nfc);
  }

  lemma AgreeingLists(a: State, b: State, nfc: Text)
    requires UniqueIds(a) && UniqueIds(b) && forall x: Key :: AgreeAt(a, b, x, nfc)
    ensures Canon(Arr(Trees(a.lists, ListTree)), nfc, false) == Canon(Arr(Trees(b.lists, ListTree)), nfc, false)
  {
    forall k ensures k in ListMap(a) <==> k in ListMap(b) { assert AgreeAt(a, b, ListKey(k), nfc); }
    forall k | k in ListMap(a) ensures Canon(ListTree(ListMap(a)[k]), nfc, false) == Canon(ListTree(ListMap(b)[k]), nfc, false) {
      assert AgreeAt(a, b, ListKey(k), nfc);
    }
    AgreeingArrays(a.lists, b.lists, ListId, ListTree, nfc);
  }

  /** The converse: states whose resources agree canonically under each ID have one canonical form. */
  lemma AgreeingStates(a: State, b: State, nfc: Text)
    requires UniqueIds(a) && UniqueIds(b) && forall x: Key :: AgreeAt(a, b, x, nfc)
    requires a.ou == b.ou && multiset(a.unmanaged) == multiset(b.unmanaged)
    ensures Canon(StateTree(a), nfc, false) == Canon(StateTree(b), nfc, false)
  {
    AgreeingRules(a, b, nfc);
    AgreeingLists(a, b, nfc);
    SameArrayField("unmanaged_rule_names", a.unmanaged, b.unmanaged, StringTree, nfc);
    StateFieldsAgree(a, b, nfc);
    SameFields(StateMembers(a), StateMembers(b), nfc);
  }
}
