/** A concrete interrupted write that reads back as untouched: its one operation done changed only
    the order of a list's entries, which the canonical hash does not see. */
module UnseenOperation {
  import opened Ordering
  import opened Keyed
  import opened Resources
  import opened Ownership
  import opened DesiredState
  import opened Diff
  import opened WriteOrder
  import opened Json
  import opened Canonical
  import opened StateTrees
  import opened Reconciliation
  import opened Witnesses

  const LATER := Entry(Domain, "y.org", "y.org")
  const MIXED := LIST.(entries := [LATER, ENTRY])
  const SORTED := LIST.(entries := [ENTRY, LATER])
  const UNSORTED := State("/", [RULE], [MIXED], [])
  const GONE := Entry(Domain, "z.org", "z.org")
  const EDITS := [RemoveEntries([GONE], A), SetEnabled(A, false)]
  const DISABLED := RULE.(enabled := false)

  lemma SortsPair(a: Entry, b: Entry)
    requires !EntryLe(a, b)
    ensures SortEntries([a, b]) == [b, a]
  {
    assert [a, b][1..] == [b] && [b][1..] == [];
    assert Sort([b], EntryLe) == [b];
    assert Insert(a, [b][1..], EntryLe) == [a];
    assert Insert(a, [b], EntryLe) == [b] + [a];
    assert Sort([a, b], EntryLe) == Insert(a, Sort([a, b][1..], EntryLe), EntryLe);
  }

  lemma EditsSort()
    ensures Absent([LATER, ENTRY], Normalized([GONE])) == [LATER, ENTRY] && SortEntries([LATER, ENTRY]) == [ENTRY, LATER]
  {
    var taken := Normalized([GONE]);
    assert taken == {"z.org"} by { assert GONE in [GONE]; }
    var s := [LATER, ENTRY];
    assert s[1..] == [ENTRY] && s[1..][1..] == [];
    assert "x.org"[0] == 'x' && "y.org"[0] == 'y' && "z.org"[0] == 'z';
    assert Absent(s[1..][1..], taken) == [];
    assert Absent(s[1..], taken) == [ENTRY];
    assert Absent(s, taken) == [LATER] + [ENTRY];
    SortsPair(LATER, ENTRY);
  }

  lemma UnsortedMaps()
    ensures RuleMap(UNSORTED) == map[A := RULE] && ListMap(UNSORTED) == map[A := MIXED] && UniqueIds(UNSORTED)
  {
    assert Index([RULE][..0], RuleId) == map[];
    assert Index([MIXED][..0], ListId) == map[];
  }

  lemma EditsRun<R>()
    ensures var env: Env<R> := Env("/", Evidence(), "P");
      Run(Start(UNSORTED, []), EDITS, env) == Ok(Work(map[A := DISABLED], map[A := SORTED], [], 0))
  {
    UnsortedMaps();
    EditsSort();
    NamesAreMarked("P", A);
    var env: Env<R> := Env("/", Evidence(), "P");
    var b, m := Start(UNSORTED, []), map[A := MIXED];
    assert IsOnlyNamed(m, ListName("P", A), A);
    assert OwnedTarget(A, b, env) == Ok(RULE);
    assert PrimaryList(RULE, m, env) == Ok(MIXED);
    var w := Work(map[A := RULE], map[A := SORTED], [], 0);
    assert WithEntries(m, A, [LATER, ENTRY]) == w.lists;
    assert Step(b, EDITS[0], env) == Ok(w);
    assert OwnedTarget(A, w, env) == Ok(RULE);
    var w' := Work(map[A := DISABLED], map[A := SORTED], [], 0);
    assert w.rules[A := DISABLED] == w'.rules;
    assert Step(w, EDITS[1], env) == Ok(w');
    assert EDITS[1..][1..] == [] && EDITS[1..][0] == EDITS[1];
    assert Run(w', EDITS[1..][1..], env) == Ok(w');
    assert Run(w, EDITS[1..], env) == Ok(w');
  }

  lemma EditsCalculate<R>()
    ensures var r := Calculate<R>(UNSORTED, EDITS, Evidence(), [], "P");
      && r.Ok? && UniqueIds(r.value.state)
      && RuleMap(r.value.state) == map[A := DISABLED] && ListMap(r.value.state) == map[A := SORTED]
  {
    EditsRun<R>();
    CalculateIs<R>(UNSORTED, EDITS, Evidence(), [], "P", Work(map[A := DISABLED], map[A := SORTED], [], 0));
  }

  /** The list is written before the rule, so the first operation only reorders its entries. */
  lemma ListGoesFirst(before: State, after: State, k: Uid, r: Rule, r': Rule, l: AddressList, l': AddressList)
    requires RuleMap(before) == map[k := r] && ListMap(before) == map[k := l]
    requires RuleMap(after) == map[k := r'] && ListMap(after) == map[k := l'] && r != r' && l != l'
    ensures var ops := Ops(CalculateChangeSet(before, after)); |ops| > 1 && KeyOf(ops[0].resource) == ListKey(k)
  {
    var b, a := SurfaceOf(before), SurfaceOf(after);
    OpsFacts(before, after);
    assert At(b, ListKey(k)) == Some(ListRes(l)) && At(b, RuleKey(k)) == Some(RuleRes(r));
    OrderOfTwo(Ops(CalculateChangeSet(before, after)), b, a, k);
  }

  lemma OrderOfTwo(ops: seq<Op>, b: Surface, a: Surface, k: Uid)
    requires AllFaithful(ops, b, a) && InOrder(ops) && Covers(ops, b, a)
    requires At(b, ListKey(k)) != At(a, ListKey(k)) && At(b, RuleKey(k)) != At(a, RuleKey(k))
    requires At(b, ListKey(k)).Some? && At(a, ListKey(k)).Some? && At(b, RuleKey(k)).Some? && At(a, RuleKey(k)).Some?
    requires forall x: Key :: At(b, x) != At(a, x) ==> x == ListKey(k) || x == RuleKey(k)
    ensures |ops| > 1 && KeyOf(ops[0].resource) == ListKey(k)
  {
    var i :| 0 <= i < |ops| && KeyOf(ops[i].resource) == ListKey(k);
    var j :| 0 <= j < |ops| && KeyOf(ops[j].resource) == RuleKey(k);
    assert Faithful(ops[i], b, a) && Faithful(ops[j], b, a) && Faithful(ops[0], b, a);
    assert Phase(ops[i]) == 1 && Phase(ops[j]) == 3;
  }

  lemma ReorderedListsAgree(l: AddressList, l': AddressList, nfc: Text)
    requires l'.id == l.id && l'.name == l.name && multiset(l'.entries) == multiset(l.entries)
    ensures Canon(ListTree(l), nfc, false) == Canon(ListTree(l'), nfc, false)
  {
    SameArrayField("entries", l.entries, l'.entries, EntryTree, nfc);
    assert ListMembers(l)[2] == Member("entries", Arr(Trees(l.entries, EntryTree)));
    assert ListMembers(l')[2] == Member("entries", Arr(Trees(l'.entries, EntryTree)));
    SameFields(ListMembers(l), ListMembers(l'), nfc);
  }

  /** A write that was interrupted after one of its two operations is taken for one that was never
      applied, and a retry is authorized: the operation done only put the entries in order. */
  lemma ReorderingLooksUntouched<R>(c: Context, nfc: Text, sha: Text) returns (observed: State)
    requires nfc(A) == A && Injective(sha)
    ensures Calculate<R>(UNSORTED, EDITS, Evidence(), [], "P").Ok?
    ensures var after := Calculate<R>(UNSORTED, EDITS, Evidence(), [], "P").value.state;
      && |Ops(CalculateChangeSet(UNSORTED, after))| > 1 && ReadsStage(UNSORTED, after, 1, observed)
      && SurfaceOf(observed) != SurfaceOf(UNSORTED)
      && Reconcile(UNSORTED, after, Some(observed), c, nfc, sha) == Decision(NotApplied, MayRetry(c))
  {
    EditsCalculate<R>();
    UnsortedMaps();
    var after := Calculate<R>(UNSORTED, EDITS, Evidence(), [], "P").value.state;
    AllStable(after, nfc);
    PlanIsInterruptible<R>(UNSORTED, EDITS, Evidence(), [], "P", nfc);
    observed := LooksUntouched(UNSORTED, after, c, nfc, sha);
  }

  lemma AllStable(after: State, nfc: Text)
    requires nfc(A) == A && UniqueIds(after) && RuleMap(after) == map[A := DISABLED] && ListMap(after) == map[A := SORTED]
    ensures Stable(UNSORTED, nfc) && Stable(after, nfc)
  {
    Located(after);
  }

  lemma LooksUntouched(before: State, after: State, c: Context, nfc: Text, sha: Text) returns (observed: State)
    requires RuleMap(before) == map[A := RULE] && ListMap(before) == map[A := MIXED]
    requires RuleMap(after) == map[A := DISABLED] && ListMap(after) == map[A := SORTED]
    requires Interruptible(before, after, nfc) && Injective(sha)
    ensures |Ops(CalculateChangeSet(before, after))| > 1 && ReadsStage(before, after, 1, observed)
    ensures SurfaceOf(observed) != SurfaceOf(before)
    ensures Reconcile(before, after, Some(observed), c, nfc, sha) == Decision(NotApplied, MayRetry(c))
  {
    assert MIXED.entries[0] != SORTED.entries[0];
    assert [ENTRY, LATER] == [ENTRY] + [LATER] && [LATER, ENTRY] == [LATER] + [ENTRY];
    FirstIsInvisible(before, after, A, RULE, DISABLED, MIXED, SORTED, nfc);
    assert At(SurfaceOf(before), ListKey(A)) == Some(ListRes(MIXED));
    observed := StageIsReadable(before, after, 1);
    InterruptedWriteIsClassified(before, after, 1, observed, c, nfc, sha);
  }

  lemma FirstIsInvisible(before: State, after: State, k: Uid, r: Rule, r': Rule, l: AddressList, l': AddressList, nfc: Text)
    requires RuleMap(before) == map[k := r] && ListMap(before) == map[k := l]
    requires RuleMap(after) == map[k := r'] && ListMap(after) == map[k := l'] && r != r' && l != l'
    requires l'.id == l.id && l'.name == l.name && multiset(l'.entries) == multiset(l.entries)
    ensures |Ops(CalculateChangeSet(before, after))| > 1 && !Shows(before, after, 1, nfc)
    ensures At(Stage(SurfaceOf(before), Ops(CalculateChangeSet(before, after)), 1), ListKey(k)) == Some(ListRes(l'))
  {
    ListGoesFirst(before, after, k, r, r', l, l');
    var ops := Ops(CalculateChangeSet(before, after));
    ReorderedListsAgree(l, l', nfc);
    assert AgreeAt(before, after, ListKey(k), nfc);
    OpsFacts(before, after);
    StageAt(ops, 1, SurfaceOf(before), SurfaceOf(after), ListKey(k));
    assert Done(ops, 1, ListKey(k));
  }
}
