/** Reading back after a write whose outcome is uncertain. */
module Reconciliation {
  import opened Ordering
  import opened Keyed
  import opened Resources
  import opened Ownership
  import opened DesiredState
  import opened Integrity
  import opened Authorization
  import opened Diff
  import opened WriteOrder
  import opened Lifecycle
  import opened Json
  import opened Canonical
  import opened StateTrees

  ghost predicate DuplicateRuleNames(s: State) {
    exists i, j :: 0 <= i < j < |s.rules| && s.rules[i].name == s.rules[j].name
  }

  ghost predicate NoDifferences(desired: State, observed: State) {
    && SurfaceOf(desired) == SurfaceOf(observed)
    && Sort(desired.unmanaged, Below) == Sort(observed.unmanaged, Below)
  }

  /** `verify_state` */
  ghost function Verify(desired: State, observed: Option<State>): Verdict {
    if observed.None? then Indeterminate
    else if DuplicateRuleNames(observed.value) then DuplicateTarget
    else if NoDifferences(desired, observed.value) then Matched
    else if RuleMap(desired).Keys - RuleMap(observed.value).Keys != {} then TargetMissing
    else Mismatched
  }

  datatype Context = Context(retryCount: int, idempotent: bool, owned: bool, unitConfirmed: bool, confirmationValid: bool)

  predicate MayRetry(c: Context) {
    c.retryCount == 0 && c.idempotent && c.owned && c.unitConfirmed && c.confirmationValid
  }

  datatype Finding = DesiredPresent | NotApplied | PartiallyApplied | Unclear

  datatype Decision = Decision(finding: Finding, retryIsSafe: bool)

  /** Some changed resource already has its desired version. */
  ghost predicate HasAnyDesiredChange(before: State, desired: State, observed: State) {
    exists x: Key :: At(SurfaceOf(before), x) != At(SurfaceOf(desired), x) && At(SurfaceOf(observed),
        x) == At(SurfaceOf(desired), x)
  }

  /** `reconcile_mutation` */
  ghost function Reconcile(before: State, desired: State, observed: Option<State>, c: Context, nfc: Text, sha: Text): Decision {
    if observed.None? then Decision(Unclear, false)
    else if Verify(desired, observed) == Matched then Decision(DesiredPresent, false)
    else if StateHash(before, nfc, sha) == StateHash(observed.value, nfc, sha) then Decision(NotApplied, MayRetry(c))
    else if HasAnyDesiredChange(before, desired, observed.value) then Decision(PartiallyApplied, false)
    else Decision(Unclear, false)
  }

  /** One of the first `k` operations created or removed a resource, or changed its canonical content. */
  ghost predicate Shows(before: State, desired: State, k: nat, nfc: Text)
    requires k <= |Ops(CalculateChangeSet(before, desired))|
  {
    var ops := Ops(CalculateChangeSet(before, desired));
    exists i :: 0 <= i < k && !AgreeAt(before, desired, KeyOf(ops[i].resource), nfc)
  }

  /** A read of the surface a writer left after `k` operations, in any order. */
  ghost predicate ReadsStage(before: State, desired: State, k: nat, observed: State)
    requires k <= |Ops(CalculateChangeSet(before, desired))|
  {
    && UniqueIds(observed)
    && SurfaceOf(observed) == Stage(SurfaceOf(before), Ops(CalculateChangeSet(before, desired)), k)
    && observed.ou == before.ou
    && multiset(observed.unmanaged) == multiset(before.unmanaged)
  }

  /** What the two states of a change must satisfy for the classification to be exact. */
  ghost predicate Interruptible(before: State, desired: State, nfc: Text) {
    && UniqueIds(before) && UniqueIds(desired)
    && Stable(before, nfc) && Stable(desired, nfc)
    && multiset(desired.unmanaged) == multiset(before.unmanaged)
    && !DuplicateRuleNames(desired)
  }

  lemma SortedNamesAgree(s: seq<string>, t: seq<string>)
    requires multiset(s) == multiset(t)
    ensures Sort(s, Below) == Sort(t, Below)
  {
    BelowIsTotalPreorder();
    SortFacts(s, Below);
    SortFacts(t, Below);
    forall x, y | Below(x, y) && Below(y, x) ensures x == y { BelowAntisymmetric(x, y); }
    AscendingUnique(Sort(s, Below), Sort(t, Below), Below);
  }

  lemma SameRulesSameNames(a: State, b: State)
    requires UniqueIds(a) && UniqueIds(b) && RuleMap(a) == RuleMap(b) && DuplicateRuleNames(a)
    ensures DuplicateRuleNames(b)
  {
    IndexFacts(a.rules, RuleId);
    IndexFacts(b.rules, RuleId);
    var i, j :| 0 <= i < j < |a.rules| && a.rules[i].name == a.rules[j].name;
    var r, r' := a.rules[i], a.rules[j];
    assert RuleId(r) != RuleId(r');
    assert r in b.rules && r' in b.rules by {
      assert RuleMap(a)[RuleId(r)] == r && RuleMap(a)[RuleId(r')] == r';
    }
    var p :| 0 <= p < |b.rules| && b.rules[p] == r;
    var q :| 0 <= q < |b.rules| && b.rules[q] == r';
    if p < q { assert b.rules[p].name == b.rules[q].name; } else { assert b.rules[q].name == b.rules[p].name; }
  }

  /** Every resource of a state, under its own key. */
  lemma Located(s: State)
    requires UniqueIds(s)
    ensures forall r :: r in s.rules ==> At(SurfaceOf(s), RuleKey(r.id)) == Some(RuleRes(r))
    ensures forall l :: l in s.lists ==> At(SurfaceOf(s), ListKey(l.id)) == Some(ListRes(l))
    ensures forall id :: At(SurfaceOf(s), RuleKey(id)).Some? ==> exists r :: r in s.rules && r.id == id
    ensures forall id :: At(SurfaceOf(s), ListKey(id)).Some? ==> exists l :: l in s.lists && l.id == id
  {
    IndexFacts(s.rules, RuleId);
    IndexFacts(s.lists, ListId);
    forall r | r in s.rules ensures At(SurfaceOf(s), RuleKey(r.id)) == Some(RuleRes(r)) {
      var i :| 0 <= i < |s.rules| && s.rules[i] == r;
      assert RuleMap(s)[RuleId(s.rules[i])] == r;
    }
    forall l | l in s.lists ensures At(SurfaceOf(s), ListKey(l.id)) == Some(ListRes(l)) {
      var i :| 0 <= i < |s.lists| && s.lists[i] == l;
      assert ListMap(s)[ListId(s.lists[i])] == l;
    }
  }

  /** A resource on a stage was there before or is there after, under the same ID. */
  lemma StageIdIsStable(before: State, desired: State, ops: seq<Op>, k: nat, x: Key, nfc: Text)
    requires UniqueIds(before) && UniqueIds(desired) && Stable(before, nfc) && Stable(desired, nfc)
    requires k <= |ops| && AllFaithful(ops, SurfaceOf(before), SurfaceOf(desired))
    requires At(Stage(SurfaceOf(before), ops, k), x).Some?
    ensures nfc(x.id) == x.id
  {
    StageAt(ops, k, SurfaceOf(before), SurfaceOf(desired), x);
    Located(before);
    Located(desired);
  }

  lemma StageIds(before: State, desired: State, k: nat, observed: State, nfc: Text)
    requires k <= |Ops(CalculateChangeSet(before, desired))| && ReadsStage(before, desired, k, observed)
    requires UniqueIds(before) && UniqueIds(desired) && Stable(before, nfc) && Stable(desired, nfc)
    ensures Stable(observed, nfc)
  {
    var ops := Ops(CalculateChangeSet(before, desired));
    OpsFacts(before, desired);
    Located(observed);
    forall r | r in observed.rules ensures nfc(r.id) == r.id {
      StageIdIsStable(before, desired, ops, k, RuleKey(r.id), nfc);
    }
    forall l | l in observed.lists ensures nfc(l.id) == l.id {
      StageIdIsStable(before, desired, ops, k, ListKey(l.id), nfc);
    }
  }

  lemma SameSurface(s: Surface, a: Surface)
    requires forall x: Key :: At(s, x) == At(a, x)
    ensures s == a
  {
    forall id ensures (id in s.rules <==> id in a.rules) && (id in s.rules ==> s.rules[id] == a.rules[id]) { assert At(s, RuleKey(id)) == At(a, RuleKey(id)); }
    forall id ensures (id in s.lists <==> id in a.lists) && (id in s.lists ==> s.lists[id] == a.lists[id]) { assert At(s, ListKey(id)) == At(a, ListKey(id)); }
    assert s.rules == a.rules && s.lists == a.lists;
  }

  lemma LastStageIsDesired(before: State, desired: State)
    ensures var ops := Ops(CalculateChangeSet(before, desired));
      Stage(SurfaceOf(before), ops, |ops|) == SurfaceOf(desired)
  {
    var ops := Ops(CalculateChangeSet(before, desired));
    var b, a := SurfaceOf(before), SurfaceOf(desired);
    OpsFacts(before, desired);
    forall x: Key ensures At(Stage(b, ops, |ops|), x) == At(a, x) { StageAt(ops, |ops|, b, a, x); }
    SameSurface(Stage(b, ops, |ops|), a);
  }

  lemma CompleteIsPresent(before: State, desired: State, observed: State, c: Context, nfc: Text, sha: Text)
    requires Interruptible(before, desired, nfc)
    requires ReadsStage(before, desired, |Ops(CalculateChangeSet(before, desired))|, observed)
    ensures Reconcile(before, desired, Some(observed), c, nfc, sha) == Decision(DesiredPresent, false)
  {
    LastStageIsDesired(before, desired);
    SortedNamesAgree(desired.unmanaged, observed.unmanaged);
    if DuplicateRuleNames(observed) { SameRulesSameNames(observed, desired); }
  }

  /** Short of the last operation, the read is not the desired surface. */
  lemma NotThereYet(before: State, desired: State, k: nat, observed: State)
    requires k < |Ops(CalculateChangeSet(before, desired))| && ReadsStage(before, desired, k, observed)
    ensures SurfaceOf(observed) != SurfaceOf(desired)
  {
    var ops := Ops(CalculateChangeSet(before, desired));
    OpsFacts(before, desired);
    assert Faithful(ops[k], SurfaceOf(before), SurfaceOf(desired));
    StageAt(ops, k, SurfaceOf(before), SurfaceOf(desired), KeyOf(ops[k].resource));
    assert !Done(ops, k, KeyOf(ops[k].resource));
  }

  /** A visible operation shows in the canonical form for good. */
  lemma VisibleMeansOtherHash(before: State, desired: State, k: nat, observed: State, nfc: Text, sha: Text)
    requires Interruptible(before, desired, nfc) && Injective(sha)
    requires k <= |Ops(CalculateChangeSet(before, desired))| && ReadsStage(before, desired, k, observed) && Shows(before, desired, k, nfc)
    ensures StateHash(before, nfc, sha) != StateHash(observed, nfc, sha) && HasAnyDesiredChange(before, desired, observed)
  {
    var ops := Ops(CalculateChangeSet(before, desired));
    var i :| 0 <= i < k && !AgreeAt(before, desired, KeyOf(ops[i].resource), nfc);
    var x := KeyOf(ops[i].resource);
    OpsFacts(before, desired);
    assert Faithful(ops[i], SurfaceOf(before), SurfaceOf(desired));
    StageAt(ops, k, SurfaceOf(before), SurfaceOf(desired), x);
    assert Done(ops, k, x);
    if StateHash(before, nfc, sha) == StateHash(observed, nfc, sha) {
      PrintInjective(Canon(StateTree(before), nfc, false), Canon(StateTree(observed), nfc, false), Compact);
      StageIds(before, desired, k, observed, nfc);
      EqualHashResources(before, observed, nfc, x);
    }
  }

  /** Operations that change no canonical content leave the hash as it was. */
  lemma InvisibleMeansSameHash(before: State, desired: State, k: nat, observed: State, nfc: Text, sha: Text)
    requires Interruptible(before, desired, nfc)
    requires k <= |Ops(CalculateChangeSet(before, desired))| && ReadsStage(before, desired, k, observed) && !Shows(before, desired, k, nfc)
    ensures StateHash(before, nfc, sha) == StateHash(observed, nfc, sha)
  {
    var ops := Ops(CalculateChangeSet(before, desired));
    OpsFacts(before, desired);
    forall x: Key ensures AgreeAt(before, observed, x, nfc) {
      StageAt(ops, k, SurfaceOf(before), SurfaceOf(desired), x);
      if Done(ops, k, x) {
        var i :| 0 <= i < k && KeyOf(ops[i].resource) == x;
        assert AgreeAt(before, desired, KeyOf(ops[i].resource), nfc);
      }
    }
    AgreeingStates(before, observed, nfc);
  }

  /** Whatever operation the writer stopped after: the read-back is classified as present exactly
      when all were done, as partial exactly when one of those done shows in the canonical
      content, and otherwise as not applied, with a retry if the context allows one. */
  lemma InterruptedWriteIsClassified(before: State, desired: State, k: nat, observed: State, c: Context, nfc: Text, sha: Text)
    requires Interruptible(before, desired, nfc) && Injective(sha)
    requires k <= |Ops(CalculateChangeSet(before, desired))| && ReadsStage(before, desired, k, observed)
    ensures var n := |Ops(CalculateChangeSet(before, desired))|;
      Reconcile(before, desired, Some(observed), c, nfc, sha) ==
        if k == n then Decision(DesiredPresent, false)
        else if Shows(before, desired, k, nfc) then Decision(PartiallyApplied, false)
        else Decision(NotApplied, MayRetry(c))
  {
    if k == |Ops(CalculateChangeSet(before, desired))| {
      CompleteIsPresent(before, desired, observed, c, nfc, sha);
    } else {
      NotThereYet(before, desired, k, observed);
      if Shows(before, desired, k, nfc) {
        VisibleMeansOtherHash(before, desired, k, observed, nfc, sha);
      } else {
        InvisibleMeansSameHash(before, desired, k, observed, nfc, sha);
      }
    }
  }

  lemma {:induction false} StageKeyed(s: Surface, ops: seq<Op>, k: nat)
    requires k <= |ops| && KeyedBy(s.rules, RuleId) && KeyedBy(s.lists, ListId)
    ensures KeyedBy(Stage(s, ops, k).rules, RuleId) && KeyedBy(Stage(s, ops, k).lists, ListId)
  {
    if k > 0 { StageKeyed(s, ops, k - 1); }
  }

  /** Every stage of a write can be read. */
  lemma StageIsReadable(before: State, desired: State, k: nat) returns (observed: State)
    requires k <= |Ops(CalculateChangeSet(before, desired))|
    ensures ReadsStage(before, desired, k, observed)
  {
    IndexFacts(before.rules, RuleId);
    IndexFacts(before.lists, ListId);
    StageKeyed(SurfaceOf(before), Ops(CalculateChangeSet(before, desired)), k);
    var s := Stage(SurfaceOf(before), Ops(CalculateChangeSet(before, desired)), k);
    ListingFacts(s.rules, RuleId);
    ListingFacts(s.lists, ListId);
    observed := State(before.ou, Listing(s.rules), Listing(s.lists), before.unmanaged);
  }

  /** A match in the same unit means equal canonical hashes. */
  lemma MatchedMeansEqualHash(desired: State, observed: State, nfc: Text, sha: Text)
    requires UniqueIds(desired) && UniqueIds(observed) && desired.ou == observed.ou
    requires Verify(desired, Some(observed)) == Matched
    ensures StateHash(desired, nfc, sha) == StateHash(observed, nfc, sha)
  {
    BelowIsTotalPreorder();
    SortFacts(desired.unmanaged, Below);
    SortFacts(observed.unmanaged, Below);
    assert NoDifferences(desired, observed);
    ReorderedStatesAgree(desired, observed, nfc);
    HashOfCanon(desired, nfc, sha);
    HashOfCanon(observed, nfc, sha);
  }

  lemma HashOfCanon(s: State, nfc: Text, sha: Text)
    ensures StateHash(s, nfc, sha) == sha(Print(Canon(StateTree(s), nfc, false), Compact))
  {
  }

  /** The closing check of the plan leaves no two rules with one display name. */
  lemma PlannedNamesDiffer<R>(before: State, plan: seq<Action>, registry: Registry<R>, ids: seq<Uid>, prefix: string)
    requires Calculate(before, plan, registry, ids, prefix).Ok?
    ensures var after := Calculate(before, plan, registry, ids, prefix).value.state;
      UniqueIds(after) && !DuplicateRuleNames(after)
  {
    var env := Env(before.ou, registry, prefix);
    var w := Run(Start(before, ids), plan, env).value;
    var after := Calculate(before, plan, registry, ids, prefix).value.state;
    StartKeyed(before, ids);
    RunKeyed(Start(before, ids), plan, env);
    StateOfMaps(w, before.ou, before.unmanaged);
    Located(after);
    forall i, j | 0 <= i < j < |after.rules| ensures after.rules[i].name != after.rules[j].name {
      var r, r' := after.rules[i], after.rules[j];
      assert RuleId(r) != RuleId(r');
      assert At(SurfaceOf(after), RuleKey(r.id)) == Some(RuleRes(r)) && At(SurfaceOf(after), RuleKey(r'.id)) == Some(RuleRes(r'));
    }
  }

  lemma PlanIsInterruptible<R>(before: State, plan: seq<Action>, registry: Registry<R>, ids: seq<Uid>, prefix: string, nfc: Text)
    requires UniqueIds(before) && Stable(before, nfc)
    requires Calculate(before, plan, registry, ids, prefix).Ok?
    requires var after := Calculate(before, plan, registry, ids, prefix).value.state;
      Stable(after, nfc)
    ensures Interruptible(before, Calculate(before, plan, registry, ids, prefix).value.state, nfc)
  {
    PlannedNamesDiffer(before, plan, registry, ids, prefix);
    BelowIsTotalPreorder();
    SortFacts(before.unmanaged, Below);
  }
}
