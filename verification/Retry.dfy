/** What verification and reconciliation answer, for every state that may be read back. */
module Retry {
  import opened Ordering
  import opened Keyed
  import opened Resources
  import opened Canonical
  import opened WriteOrder
  import opened Lifecycle
  import opened StateTrees
  import opened StateHashes
  import opened Reconciliation

  /** The read-back holds exactly the desired rules and lists by ID and the desired unmanaged names,
      in any order. */
  ghost predicate Holds(desired: State, observed: State) {
    && (forall k :: Lookup(RuleMap(desired), k) == Lookup(RuleMap(observed), k))
    && (forall j :: Lookup(ListMap(desired), j) == Lookup(ListMap(observed), j))
    && multiset(desired.unmanaged) == multiset(observed.unmanaged)
  }

  ghost predicate TwoRulesShareAName(s: State) {
    exists i, j :: 0 <= i < j < |s.rules| && s.rules[i].name == s.rules[j].name
  }

  lemma SortedNamesDecide(s: seq<string>, t: seq<string>)
    ensures Sort(s, Below) == Sort(t, Below) <==> multiset(s) == multiset(t)
  {
    BelowIsTotalPreorder();
    SortFacts(s, Below);
    SortFacts(t, Below);
    if multiset(s) == multiset(t) { SortedNamesAgree(s, t); }
  }

  lemma SameLookups<T>(m: map<Uid, T>, n: map<Uid, T>)
    ensures m == n <==> forall k :: Lookup(m, k) == Lookup(n, k)
  {
    if forall k :: Lookup(m, k) == Lookup(n, k) {
      assert forall k :: k in m <==> Lookup(m, k).Some?;
      assert forall k :: k in n <==> Lookup(n, k).Some?;
      assert forall k :: k in m ==> Lookup(m, k) == Some(m[k]);
      assert forall k :: k in n ==> Lookup(n, k) == Some(n[k]);
    }
  }

  lemma NoDifferencesHolds(desired: State, observed: State)
    ensures NoDifferences(desired, observed) <==> Holds(desired, observed)
  {
    SameLookups(RuleMap(desired), RuleMap(observed));
    SameLookups(ListMap(desired), ListMap(observed));
    SortedNamesDecide(desired.unmanaged, observed.unmanaged);
  }

  /** The five verdicts, each for exactly its case. */
  lemma VerdictIs(desired: State, observed: Option<State>)
    ensures Verify(desired, observed) == Indeterminate <==> observed == None
    ensures observed.Some? ==> var (v, o) := (Verify(desired, observed), observed.value);
      && (v == DuplicateTarget <==> TwoRulesShareAName(o))
      && (v == Matched <==> !TwoRulesShareAName(o) && Holds(desired, o))
      && (v == TargetMissing <==> !TwoRulesShareAName(o) && !Holds(desired, o) && exists k :: k in RuleMap(desired) && k !in RuleMap(o))
      && (v == Mismatched <==> !TwoRulesShareAName(o) && !Holds(desired, o) && forall k :: k in RuleMap(desired) ==> k in RuleMap(o))
  {
    if observed.Some? {
      var o := observed.value;
      NoDifferencesHolds(desired, o);
      assert RuleMap(desired).Keys - RuleMap(o).Keys != {} <==> exists k :: k in RuleMap(desired) && k !in RuleMap(o) by {
        if k :| k in RuleMap(desired) && k !in RuleMap(o) { assert k in RuleMap(desired).Keys - RuleMap(o).Keys; }
      }
    }
  }

  /** Some rule or list the change is about already has its desired version. */
  ghost predicate SomeArrived(before: State, desired: State, observed: State) {
    || (exists k {:trigger Lookup(RuleMap(before), k)} :: Lookup(RuleMap(before), k) != Lookup(RuleMap(desired), k) == Lookup(RuleMap(observed), k))
    || (exists j {:trigger Lookup(ListMap(before), j)} :: Lookup(ListMap(before), j) != Lookup(ListMap(desired), j) == Lookup(ListMap(observed), j))
  }

  lemma ArrivedIs(before: State, desired: State, observed: State)
    ensures HasAnyDesiredChange(before, desired, observed) <==> SomeArrived(before, desired, observed)
  {
    var b, d, o := SurfaceOf(before), SurfaceOf(desired), SurfaceOf(observed);
    forall k ensures At(b, RuleKey(k)) == At(d, RuleKey(k)) <==> Lookup(RuleMap(before), k) == Lookup(RuleMap(desired), k) {}
    forall k ensures At(o, RuleKey(k)) == At(d, RuleKey(k)) <==> Lookup(RuleMap(observed), k) == Lookup(RuleMap(desired), k) {}
    forall j ensures At(b, ListKey(j)) == At(d, ListKey(j)) <==> Lookup(ListMap(before), j) == Lookup(ListMap(desired), j) {}
    forall j ensures At(o, ListKey(j)) == At(d, ListKey(j)) <==> Lookup(ListMap(observed), j) == Lookup(ListMap(desired), j) {}
    if HasAnyDesiredChange(before, desired, observed) {
      var x: Key :| At(b, x) != At(d, x) && At(o, x) == At(d, x);
      if x.RuleKey? {
        assert Lookup(RuleMap(before), x.id) != Lookup(RuleMap(desired), x.id) == Lookup(RuleMap(observed), x.id);
      } else {
        assert Lookup(ListMap(before), x.id) != Lookup(ListMap(desired), x.id) == Lookup(ListMap(observed), x.id);
      }
    }
    if k :| Lookup(RuleMap(before), k) != Lookup(RuleMap(desired), k) == Lookup(RuleMap(observed), k) {
      assert At(b, RuleKey(k)) != At(d, RuleKey(k)) && At(o, RuleKey(k)) == At(d, RuleKey(k));
    }
    if j :| Lookup(ListMap(before), j) != Lookup(ListMap(desired), j) == Lookup(ListMap(observed), j) {
      assert At(b, ListKey(j)) != At(d, ListKey(j)) && At(o, ListKey(j)) == At(d, ListKey(j));
    }
  }

  ghost predicate Present(desired: State, observed: State) { !TwoRulesShareAName(observed) && Holds(desired, observed) }

  /** The four findings, each for exactly its case. */
  lemma FindingIs(before: State, desired: State, observed: Option<State>, c: Context, nfc: Text, sha: Text)
    ensures observed == None ==> Reconcile(before, desired, observed, c, nfc, sha).finding == Unclear
    ensures observed.Some? ==>
      var (f, o) := (Reconcile(before, desired, observed, c, nfc, sha).finding, observed.value);
      var same := StateHash(before, nfc, sha) == StateHash(o, nfc, sha);
      && (f == DesiredPresent <==> Present(desired, o))
      && (f == NotApplied <==> !Present(desired, o) && same)
      && (f == PartiallyApplied <==> !Present(desired, o) && !same && SomeArrived(before, desired, o))
      && (f == Unclear <==> !Present(desired, o) && !same && !SomeArrived(before, desired, o))
  {
    VerdictIs(desired, observed);
    if observed.Some? { ArrivedIs(before, desired, observed.value); }
  }

  /** A retry is authorized if and only if the state was read, is not the desired one, hashes like
      the one before, and this is the first attempt of an idempotent operation on an owned
      resource in the confirmed unit under a valid confirmation. */
  lemma RetryIsSafeIff(before: State, desired: State, observed: Option<State>, c: Context, nfc: Text, sha: Text)
    ensures Reconcile(before, desired, observed, c, nfc, sha).retryIsSafe <==>
      && observed.Some? && !Present(desired, observed.value)
      && StateHash(before, nfc, sha) == StateHash(observed.value, nfc, sha)
      && c.retryCount == 0 && c.idempotent && c.owned && c.unitConfirmed && c.confirmationValid
  {
    VerdictIs(desired, observed);
  }

  /** So nothing a foreign hand changed is ever written over by a retry: every field of every rule
      and list that was read, the unit and the unmanaged names are as they were before. */
  lemma RetryMeansUnchanged(before: State, desired: State, observed: State, c: Context, nfc: Text, sha: Text)
    requires UniqueIds(before) && UniqueIds(observed) && Stable(before, nfc) && Stable(observed, nfc)
    requires Injective(sha) && KeepsKinds(nfc)
    ensures Reconcile(before, desired, Some(observed), c, nfc, sha).retryIsSafe <==>
      && SameState(before, observed, nfc) && !Present(desired, observed)
      && c.retryCount == 0 && c.idempotent && c.owned && c.unitConfirmed && c.confirmationValid
  {
    RetryIsSafeIff(before, desired, Some(observed), c, nfc, sha);
    StateHashDecides(before, observed, nfc, sha);
  }
}
