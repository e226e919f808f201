/** What the hash of a state binds, field by field: two states hash alike exactly when every field
    of every rule and list agrees, up to normalization of texts and the order of unordered parts. */
module StateHashes {
  import opened Keyed
  import opened Resources
  import opened Json
  import opened Canonical
  import opened WriteOrder
  import opened StateTrees

  function Mapped<A, B>(s: seq<A>, f: A -> B): seq<B> { seq(|s|, i requires 0 <= i < |s| => f(s[i])) }

  /** The texts of a sequence as a bag, up to normalization. */
  ghost predicate SameTexts(s: seq<string>, t: seq<string>, nfc: Text) {
    multiset(Mapped(s, nfc)) == multiset(Mapped(t, nfc))
  }

  function Plain(nfc: Text): Entry -> Entry { (e: Entry) => Entry(e.kind, nfc(e.value), nfc(e.normalized)) }

  /** The entries as a bag of kind, value and comparison value, up to normalization. */
  ghost predicate SameEntries(s: seq<Entry>, t: seq<Entry>, nfc: Text) {
    multiset(Mapped(s, Plain(nfc))) == multiset(Mapped(t, Plain(nfc)))
  }

  ghost predicate SameRule(r: Rule, s: Rule, nfc: Text) {
    && nfc(r.name) == nfc(s.name) && nfc(r.ou) == nfc(s.ou)
    && SameTexts(r.listNames, s.listNames, nfc) && SameTexts(r.bypassNames, s.bypassNames, nfc)
    && (r.notice.Some? <==> s.notice.Some?) && (r.notice.Some? && s.notice.Some? ==> nfc(r.notice.value) == nfc(s.notice.value))
    && r.enabled == s.enabled && r.inherited == s.inherited
  }

  ghost predicate SameList(l: AddressList, m: AddressList, nfc: Text) {
    nfc(l.name) == nfc(m.name) && SameEntries(l.entries, m.entries, nfc)
  }

  ghost predicate SameState(a: State, b: State, nfc: Text) {
    && nfc(a.ou) == nfc(b.ou)
    && SameTexts(a.unmanaged, b.unmanaged, nfc)
    && RuleMap(a).Keys == RuleMap(b).Keys && ListMap(a).Keys == ListMap(b).Keys
    && (forall k :: k in RuleMap(a) ==> SameRule(RuleMap(a)[k], RuleMap(b)[k], nfc))
    && (forall j :: j in ListMap(a) ==> SameList(ListMap(a)[j], ListMap(b)[j], nfc))
  }

  /** Two readings of items that tell the same items apart also tell the same bags apart. */
  lemma {:induction false} ReadingsDecideBags<A(!new), B, C>(s: seq<A>, t: seq<A>, f: A -> B, g: A -> C)
    requires forall x, y :: f(x) == f(y) <==> g(x) == g(y)
    ensures multiset(Mapped(s, f)) == multiset(Mapped(t, f)) <==> multiset(Mapped(s, g)) == multiset(Mapped(t, g))
  {
    var fs, ft, gs, gt := Mapped(s, f), Mapped(t, f), Mapped(s, g), Mapped(t, g);
    assert |multiset(fs)| == |s| && |multiset(ft)| == |t| && |multiset(gs)| == |s| && |multiset(gt)| == |t|;
    if |s| == |t| && s != [] {
      BagStep(fs, ft);
      BagStep(gs, gt);
      forall i | 0 <= i < |t|
        ensures multiset(Without(fs, 0)) == multiset(Without(ft, i)) <==> multiset(Without(gs, 0)) == multiset(Without(gt, i))
      {
        MappedWithout(s, 0, f);
        MappedWithout(s, 0, g);
        MappedWithout(t, i, f);
        MappedWithout(t, i, g);
        ReadingsDecideBags(Without(s, 0), Without(t, i), f, g);
      }
      assert forall i :: 0 <= i < |t| ==> (fs[0] == ft[i] <==> gs[0] == gt[i]);
    }
  }

  lemma MappedWithout<A, B>(s: seq<A>, i: nat, f: A -> B)
    requires i < |s|
    ensures Mapped(Without(s, i), f) == Without(Mapped(s, f), i)
  {
  }

  /** Arrays of trees agree canonically exactly when a reading of the items agrees as a bag. */
  lemma TreesCanon<A>(s: seq<A>, tree: A -> Json, f: A -> Json, nfc: Text)
    requires forall i :: 0 <= i < |s| ==> f(s[i]) == Canon(tree(s[i]), nfc, false)
    ensures CanonItems(Trees(s, tree), nfc) == Mapped(s, f)
  {
    CanonItemsAt(Trees(s, tree), nfc);
  }

  lemma ArraysCanon<A>(s: seq<A>, t: seq<A>, tree: A -> Json, f: A -> Json, nfc: Text)
    requires forall x {:trigger f(x)} :: f(x) == Canon(tree(x), nfc, false)
    ensures Canon(Arr(Trees(s, tree)), nfc, false) == Canon(Arr(Trees(t, tree)), nfc, false) <==> multiset(Mapped(s, f)) == multiset(Mapped(t, f))
  {
    TreesCanon(s, tree, f, nfc);
    TreesCanon(t, tree, f, nfc);
    SortedItemsAgree(Mapped(s, f), Mapped(t, f));
  }

  lemma ArraysOf<A(!new), B>(s: seq<A>, t: seq<A>, tree: A -> Json, f: A -> Json, g: A -> B, nfc: Text)
    requires forall x {:trigger f(x)} :: f(x) == Canon(tree(x), nfc, false)
    requires forall x, y :: f(x) == f(y) <==> g(x) == g(y)
    ensures Canon(Arr(Trees(s, tree)), nfc, false) == Canon(Arr(Trees(t, tree)), nfc, false) <==> multiset(Mapped(s, g)) == multiset(Mapped(t, g))
  {
    ArraysCanon(s, t, tree, f, nfc);
    ReadingsDecideBags(s, t, f, g);
  }

  lemma ArraysDecide<A(!new), B>(s: seq<A>, t: seq<A>, tree: A -> Json, g: A -> B, nfc: Text)
    requires forall x, y {:trigger g(x), g(y)} :: Canon(tree(x), nfc, false) == Canon(tree(y), nfc, false) <==> g(x) == g(y)
    ensures Canon(Arr(Trees(s, tree)), nfc, false) == Canon(Arr(Trees(t, tree)), nfc, false) <==> multiset(Mapped(s, g)) == multiset(Mapped(t, g))
  {
    var f := (x: A) => Canon(tree(x), nfc, false);
    forall x, y ensures f(x) == f(y) <==> g(x) == g(y) {}
    ArraysOf(s, t, tree, f, g, nfc);
  }

  /** Objects with the same keys agree canonically exactly when each member does. */
  lemma MembersDecide(m: seq<Member>, n: seq<Member>, nfc: Text)
    requires UniqueNames(m) && UniqueNames(n) && |m| == |n| && forall i :: 0 <= i < |m| ==> m[i].key == n[i].key
    ensures Canon(Obj(m), nfc, false) == Canon(Obj(n), nfc, false) <==> forall i :: 0 <= i < |m| ==> CanonMember(m[i], nfc) == CanonMember(n[i], nfc)
  {
    if Canon(Obj(m), nfc, false) == Canon(Obj(n), nfc, false) {
      forall i | 0 <= i < |m| ensures CanonMember(m[i], nfc) == CanonMember(n[i], nfc) { FieldAgrees(m, n, i, nfc); }
    }
    if forall i :: 0 <= i < |m| ==> CanonMember(m[i], nfc) == CanonMember(n[i], nfc) { SameFields(m, n, nfc); }
  }

  lemma TextsDecide(s: seq<string>, t: seq<string>, nfc: Text)
    ensures Canon(Strings(s), nfc, false) == Canon(Strings(t), nfc, false) <==> SameTexts(s, t, nfc)
  {
    ArraysDecide(s, t, StringTree, nfc, nfc);
  }

  function EntryMembers(e: Entry): seq<Member> { EntryTree(e).members }

  /** The two words for an entry's kind stay apart under normalization. */
  ghost predicate KeepsKinds(nfc: Text) { nfc("domain") != nfc("email") }

  lemma EntryDecides(e: Entry, d: Entry, nfc: Text)
    requires KeepsKinds(nfc)
    ensures Canon(EntryTree(e), nfc, false) == Canon(EntryTree(d), nfc, false) <==> Plain(nfc)(e) == Plain(nfc)(d)
  {
    var m, n := EntryMembers(e), EntryMembers(d);
    assert m[0].key == "kind" && m[1].key == "value" && m[2].key == "normalized_value";
    MembersDecide(m, n, nfc);
    assert CanonMember(m[0], nfc) == CanonMember(n[0], nfc) <==> e.kind == d.kind;
    assert CanonMember(m[1], nfc) == CanonMember(n[1], nfc) <==> nfc(e.value) == nfc(d.value);
    assert CanonMember(m[2], nfc) == CanonMember(n[2], nfc) <==> nfc(e.normalized) == nfc(d.normalized);
  }

  lemma EntriesDecide(s: seq<Entry>, t: seq<Entry>, nfc: Text)
    requires KeepsKinds(nfc)
    ensures Canon(Arr(Trees(s, EntryTree)), nfc, false) == Canon(Arr(Trees(t, EntryTree)), nfc, false) <==> SameEntries(s, t, nfc)
  {
    forall e, d ensures Canon(EntryTree(e), nfc, false) == Canon(EntryTree(d), nfc, false) <==> Plain(nfc)(e) == Plain(nfc)(d) {
      EntryDecides(e, d, nfc);
    }
    ArraysDecide(s, t, EntryTree, Plain(nfc), nfc);
  }

  lemma ListDecides(l: AddressList, k: AddressList, nfc: Text)
    requires KeepsKinds(nfc) && l.id == k.id
    ensures Canon(ListTree(l), nfc, false) == Canon(ListTree(k), nfc, false) <==> SameList(l, k, nfc)
  {
    var m, n := ListMembers(l), ListMembers(k);
    MembersDecide(m, n, nfc);
    EntriesDecide(l.entries, k.entries, nfc);
    assert CanonMember(m[1], nfc) == CanonMember(n[1], nfc) <==> nfc(l.name) == nfc(k.name);
    assert CanonMember(m[2], nfc) == CanonMember(n[2], nfc) <==> SameEntries(l.entries, k.entries, nfc);
  }

  lemma TextField(key: string, s: string, t: string, nfc: Text)
    ensures CanonMember(Member(key, Str(s)), nfc) == CanonMember(Member(key, Str(t)), nfc) <==> nfc(s) == nfc(t)
  {
  }

  lemma TextsField(key: string, s: seq<string>, t: seq<string>, nfc: Text)
    requires key != "actions"
    ensures CanonMember(Member(key, Strings(s)), nfc) == CanonMember(Member(key, Strings(t)), nfc) <==> SameTexts(s, t, nfc)
  {
    TextsDecide(s, t, nfc);
  }

  function Noted(notice: Option<string>): Json { if notice.Some? then Str(notice.value) else Null }

  lemma NoticeField(key: string, s: Option<string>, t: Option<string>, nfc: Text)
    ensures CanonMember(Member(key, Noted(s)), nfc) == CanonMember(Member(key, Noted(t)), nfc) <==>
      (s.Some? <==> t.Some?) && (s.Some? && t.Some? ==> nfc(s.value) == nfc(t.value))
  {
  }

  lemma FlagField(key: string, s: bool, t: bool, nfc: Text)
    ensures CanonMember(Member(key, Bool(s)), nfc) == CanonMember(Member(key, Bool(t)), nfc) <==> s == t
  {
  }

  lemma NamesDecide(r: Rule, s: Rule, nfc: Text)
    requires r.id == s.id
    ensures var m, n := RuleMembers(r), RuleMembers(s);
      && CanonMember(m[0], nfc) == CanonMember(n[0], nfc)
      && (CanonMember(m[1], nfc) == CanonMember(n[1], nfc) <==> nfc(r.name) == nfc(s.name))
      && (CanonMember(m[2], nfc) == CanonMember(n[2], nfc) <==> nfc(r.ou) == nfc(s.ou))
  {
    TextField("display_name", r.name, s.name, nfc);
    TextField("target_ou", r.ou, s.ou, nfc);
  }

  lemma LinksDecide(r: Rule, s: Rule, nfc: Text)
    ensures var m, n := RuleMembers(r), RuleMembers(s);
      && (CanonMember(m[3], nfc) == CanonMember(n[3], nfc) <==> SameTexts(r.listNames, s.listNames, nfc))
      && (CanonMember(m[4], nfc) == CanonMember(n[4], nfc) <==> SameTexts(r.bypassNames, s.bypassNames, nfc))
  {
    TextsField("address_list_names", r.listNames, s.listNames, nfc);
    TextsField("bypass_address_list_names", r.bypassNames, s.bypassNames, nfc);
  }

  lemma SettingsDecide(r: Rule, s: Rule, nfc: Text)
    ensures var m, n := RuleMembers(r), RuleMembers(s);
      && (CanonMember(m[5], nfc) == CanonMember(n[5], nfc) <==> (r.notice.Some? <==> s.notice.Some?) && (r.notice.Some? && s.notice.Some? ==> nfc(r.notice.value) == nfc(s.notice.value)))
      && (CanonMember(m[6], nfc) == CanonMember(n[6], nfc) <==> r.enabled == s.enabled)
      && (CanonMember(m[7], nfc) == CanonMember(n[7], nfc) <==> r.inherited == s.inherited)
  {
    NoticeField("rejection_notice", r.notice, s.notice, nfc);
    FlagField("enabled", r.enabled, s.enabled, nfc);
    FlagField("inherited", r.inherited, s.inherited, nfc);
  }

  lemma EightAgree(m: seq<Member>, n: seq<Member>, nfc: Text)
    requires |m| == |n| == 8
    ensures (forall i :: 0 <= i < |m| ==> CanonMember(m[i], nfc) == CanonMember(n[i], nfc)) <==>
      && CanonMember(m[0], nfc) == CanonMember(n[0], nfc) && CanonMember(m[1], nfc) == CanonMember(n[1], nfc)
      && CanonMember(m[2], nfc) == CanonMember(n[2], nfc) && CanonMember(m[3], nfc) == CanonMember(n[3], nfc)
      && CanonMember(m[4], nfc) == CanonMember(n[4], nfc) && CanonMember(m[5], nfc) == CanonMember(n[5], nfc)
      && CanonMember(m[6], nfc) == CanonMember(n[6], nfc) && CanonMember(m[7], nfc) == CanonMember(n[7], nfc)
  {
  }

  lemma RuleDecides(r: Rule, s: Rule, nfc: Text)
    requires r.id == s.id
    ensures Canon(RuleTree(r), nfc, false) == Canon(RuleTree(s), nfc, false) <==> SameRule(r, s, nfc)
  {
    RuleMembersFacts(r);
    RuleMembersFacts(s);
    MembersDecide(RuleMembers(r), RuleMembers(s), nfc);
    EightAgree(RuleMembers(r), RuleMembers(s), nfc);
    NamesDecide(r, s, nfc);
    LinksDecide(r, s, nfc);
    SettingsDecide(r, s, nfc);
  }

  lemma AgreementDecides(a: State, b: State, nfc: Text)
    requires UniqueIds(a) && UniqueIds(b) && KeepsKinds(nfc)
    ensures (forall x: Key :: AgreeAt(a, b, x, nfc)) <==>
      && RuleMap(a).Keys == RuleMap(b).Keys && ListMap(a).Keys == ListMap(b).Keys
      && (forall k :: k in RuleMap(a) ==> SameRule(RuleMap(a)[k], RuleMap(b)[k], nfc))
      && (forall j :: j in ListMap(a) ==> SameList(ListMap(a)[j], ListMap(b)[j], nfc))
  {
    RulesAgree(a, b, nfc);
    ListsAgree(a, b, nfc);
    forall x: Key ensures AgreeAt(a, b, x, nfc) <==> match x case RuleKey(id) => RuleAgrees(a, b, id, nfc) case ListKey(id) => ListAgrees(a, b, id, nfc) {}
    assert (forall id :: RuleAgrees(a, b, id, nfc)) <==> forall id :: AgreeAt(a, b, RuleKey(id), nfc);
    assert (forall id :: ListAgrees(a, b, id, nfc)) <==> forall id :: AgreeAt(a, b, ListKey(id), nfc);
  }

  ghost predicate RuleAgrees(a: State, b: State, id: Uid, nfc: Text) { AgreeAt(a, b, RuleKey(id), nfc) }

  ghost predicate ListAgrees(a: State, b: State, id: Uid, nfc: Text) { AgreeAt(a, b, ListKey(id), nfc) }

  lemma RuleAgreesIff(a: State, b: State, id: Uid, nfc: Text)
    ensures RuleAgrees(a, b, id, nfc) <==> (id in RuleMap(a) <==> id in RuleMap(b)) && (id in RuleMap(a) && id in RuleMap(b) ==> SameRule(RuleMap(a)[id], RuleMap(b)[id], nfc))
  {
    if id in RuleMap(a) && id in RuleMap(b) {
      IndexFacts(a.rules, RuleId);
      IndexFacts(b.rules, RuleId);
      assert RuleId(RuleMap(a)[id]) == id && RuleId(RuleMap(b)[id]) == id;
      RuleDecides(RuleMap(a)[id], RuleMap(b)[id], nfc);
    }
  }

  lemma RulesAgree(a: State, b: State, nfc: Text)
    ensures (forall id :: RuleAgrees(a, b, id, nfc)) <==> RuleMap(a).Keys == RuleMap(b).Keys && forall k :: k in RuleMap(a) ==> SameRule(RuleMap(a)[k], RuleMap(b)[k], nfc)
  {
    forall id ensures RuleAgrees(a, b, id, nfc) <==> (id in RuleMap(a) <==> id in RuleMap(b)) && (id in RuleMap(a) && id in RuleMap(b) ==> SameRule(RuleMap(a)[id], RuleMap(b)[id], nfc)) {
      RuleAgreesIff(a, b, id, nfc);
    }
    assert RuleMap(a).Keys == RuleMap(b).Keys <==> forall id :: id in RuleMap(a) <==> id in RuleMap(b);
  }

  lemma ListAgreesIff(a: State, b: State, id: Uid, nfc: Text)
    requires KeepsKinds(nfc)
    ensures ListAgrees(a, b, id, nfc) <==> (id in ListMap(a) <==> id in ListMap(b)) && (id in ListMap(a) && id in ListMap(b) ==> SameList(ListMap(a)[id], ListMap(b)[id], nfc))
  {
    if id in ListMap(a) && id in ListMap(b) {
      IndexFacts(a.lists, ListId);
      IndexFacts(b.lists, ListId);
      assert ListId(ListMap(a)[id]) == id && ListId(ListMap(b)[id]) == id;
      ListDecides(ListMap(a)[id], ListMap(b)[id], nfc);
    }
  }

  lemma ListsAgree(a: State, b: State, nfc: Text)
    requires KeepsKinds(nfc)
    ensures (forall id :: ListAgrees(a, b, id, nfc)) <==> ListMap(a).Keys == ListMap(b).Keys && forall k :: k in ListMap(a) ==> SameList(ListMap(a)[k], ListMap(b)[k], nfc)
  {
    forall id ensures ListAgrees(a, b, id, nfc) <==> (id in ListMap(a) <==> id in ListMap(b)) && (id in ListMap(a) && id in ListMap(b) ==> SameList(ListMap(a)[id], ListMap(b)[id], nfc)) {
      ListAgreesIff(a, b, id, nfc);
    }
    assert ListMap(a).Keys == ListMap(b).Keys <==> forall id :: id in ListMap(a) <==> id in ListMap(b);
  }

  lemma StateMembersDecide(a: State, b: State, nfc: Text)
    ensures Canon(StateTree(a), nfc, false) == Canon(StateTree(b), nfc, false) <==>
      && nfc(a.ou) == nfc(b.ou) && SameTexts(a.unmanaged, b.unmanaged, nfc)
      && Canon(Arr(Trees(a.rules, RuleTree)), nfc, false) == Canon(Arr(Trees(b.rules, RuleTree)), nfc, false)
      && Canon(Arr(Trees(a.lists, ListTree)), nfc, false) == Canon(Arr(Trees(b.lists, ListTree)), nfc, false)
  {
    var m, n := StateMembers(a), StateMembers(b);
    MembersDecide(m, n, nfc);
    TextField("target_ou", a.ou, b.ou, nfc);
    TextsField("unmanaged_rule_names", a.unmanaged, b.unmanaged, nfc);
    ArrayField("rules", Arr(Trees(a.rules, RuleTree)), Arr(Trees(b.rules, RuleTree)), nfc);
    ArrayField("address_lists", Arr(Trees(a.lists, ListTree)), Arr(Trees(b.lists, ListTree)), nfc);
    FiveAgree(m, n, nfc);
  }

  lemma ArrayField(key: string, s: Json, t: Json, nfc: Text)
    requires key != "actions"
    ensures CanonMember(Member(key, s), nfc) == CanonMember(Member(key, t), nfc) <==> Canon(s, nfc, false) == Canon(t, nfc, false)
  {
  }

  lemma FiveAgree(m: seq<Member>, n: seq<Member>, nfc: Text)
    requires |m| == |n| == 5
    ensures (forall i :: 0 <= i < |m| ==> CanonMember(m[i], nfc) == CanonMember(n[i], nfc)) <==>
      && CanonMember(m[0], nfc) == CanonMember(n[0], nfc) && CanonMember(m[1], nfc) == CanonMember(n[1], nfc)
      && CanonMember(m[2], nfc) == CanonMember(n[2], nfc) && CanonMember(m[3], nfc) == CanonMember(n[3], nfc)
      && CanonMember(m[4], nfc) == CanonMember(n[4], nfc)
  {
  }

  /** States with unique IDs hash alike if and only if they agree in unit, unmanaged names and, ID
      by ID, in every field of every rule and list. */
  lemma StateHashDecides(a: State, b: State, nfc: Text, sha: Text)
    requires UniqueIds(a) && UniqueIds(b) && Stable(a, nfc) && Stable(b, nfc)
    requires Injective(sha) && KeepsKinds(nfc)
    ensures StateHash(a, nfc, sha) == StateHash(b, nfc, sha) <==> SameState(a, b, nfc)
  {
    StateMembersDecide(a, b, nfc);
    AgreementDecides(a, b, nfc);
    if StateHash(a, nfc, sha) == StateHash(b, nfc, sha) {
      PrintInjective(Canon(StateTree(a), nfc, false), Canon(StateTree(b), nfc, false), Compact);
      forall x: Key ensures AgreeAt(a, b, x, nfc) { EqualHashResources(a, b, nfc, x); }
    }
    if SameState(a, b, nfc) {
      AgreeingRules(a, b, nfc);
      AgreeingLists(a, b, nfc);
    }
  }
}
