/** From the verification of a read-back to the commit. The verifier compares resources by ID and
    ignores their order; the commit insists on the expected state as it is. */
module MatchedCommit {
  import opened Keyed
  import opened Resources
  import opened Ownership
  import opened DesiredState
  import opened Diff
  import opened Lifecycle
  import opened Reconciliation
  import opened Succession

  /** The plan's expected state, read back as it is, always passes verification. */
  lemma PlanVerifies<R>(before: State, plan: seq<Action>, registry: Registry<R>, ids: seq<Uid>, prefix: string)
    requires Calculate(before, plan, registry, ids, prefix).Ok?
    ensures var after := Calculate(before, plan, registry, ids, prefix).value.state; Verify(after, Some(after)) == Matched
  {
    PlannedNamesDiffer(before, plan, registry, ids, prefix);
  }

  /** Plan, diff, verification and commit for every possible read-back: without a match the registry
      stays as it is; with one the commit stores evidence if and only if the read-back has the
      expected order, no surviving rule changed its bypass lists and no created list is left
      over; and then the stored registry owns every rule and list of the expected state. */
  lemma OwnershipClosure<R>(before: State, plan: seq<Action>, registry: Registry<R>, ids: seq<Uid>, prefix: string,
      observed: Option<State>, now: int)
    requires Prepared(before, registry, ids, prefix) && AllOwned(before, registry, prefix)
    requires Calculate(before, plan, registry, ids, prefix).Ok?
    ensures var after := Calculate(before, plan, registry, ids, prefix).value.state;
      var verdict := Verify(after, observed);
      var r := CommitVerified(registry, CalculateChangeSet(before, after), verdict, after, observed, now);
      && (verdict != Matched ==> r == Ok(registry))
      && (verdict == Matched ==> (r.Ok? <==> observed == Some(after) && Closes(before, after, ids)))
      && (verdict == Matched && r.Ok? ==> ValidRegistry(r.value) && AllOwned(after, r.value, prefix))
      && (observed == Some(after) ==> verdict == Matched)
  {
    var after := Calculate(before, plan, registry, ids, prefix).value.state;
    PlanVerifies(before, plan, registry, ids, prefix);
    PlanCommits(before, plan, registry, ids, prefix, now);
    VerdictDecides(registry, CalculateChangeSet(before, after), Verify(after, observed), after, observed, now);
  }

  lemma VerdictDecides<R>(registry: Registry<R>, cs: ChangeSet, verdict: Verdict, after: State, observed: Option<State>, now: int)
    requires cs.after == after
    ensures CommitVerified(registry, cs, verdict, after, observed, now) == if verdict != Matched then Ok(registry)
                                                                             else if observed == Some(after) then Commit(registry, cs, now)
                                                                             else Err(OwnershipNotEstablished)
  {
  }

  function Swapped<T>(s: seq<T>): seq<T>
    requires |s| >= 2
  {
    s[0 := s[1]][1 := s[0]]
  }

  lemma {:induction false} SwappedIndex<T>(s: seq<T>, key: T -> Uid)
    requires UniqueKeys(s, key) && |s| >= 2
    ensures UniqueKeys(Swapped(s), key) && Index(Swapped(s), key) == Index(s, key)
  {
    var t := Swapped(s);
    forall i, j | 0 <= i < j < |t| ensures key(t[i]) != key(t[j]) {
      assert key(s[0]) != key(s[1]);
      assert j > 1 ==> key(s[0]) != key(s[j]) && key(s[1]) != key(s[j]);
    }
    IndexFacts(s, key);
    IndexFacts(t, key);
    forall k ensures Lookup(Index(t, key), k) == Lookup(Index(s, key), k) {
      if k in Index(s, key) { SwappedHas(s, t, key, k); }
      if k in Index(t, key) { SwappedHas(t, s, key, k); }
    }
    SameLookups(Index(s, key), Index(t, key));
  }

  lemma SwappedHas<T>(s: seq<T>, t: seq<T>, key: T -> Uid, k: Uid)
    requires UniqueKeys(s, key) && UniqueKeys(t, key) && |s| >= 2 && t == Swapped(s) && k in Index(s, key)
    ensures k in Index(t, key) && Index(t, key)[k] == Index(s, key)[k]
  {
    IndexFacts(s, key);
    IndexFacts(t, key);
    var i :| 0 <= i < |s| && s[i] == Index(s, key)[k];
    var j := if i == 0 then 1 else if i == 1 then 0 else i;
    assert t[j] == s[i] && Index(t, key)[key(t[j])] == t[j];
  }

  lemma SameLookups<T>(m: map<Uid, T>, n: map<Uid, T>)
    requires forall k :: Lookup(m, k) == Lookup(n, k)
    ensures m == n
  {
    assert forall k :: k in m <==> Lookup(m, k).Some?;
    assert forall k :: k in n <==> Lookup(n, k).Some?;
    assert forall k :: k in m ==> Lookup(m, k) == Some(m[k]);
  }

  /** A read-back with the expected parts in another order matches, and the commit refuses it. */
  lemma ReorderedReadIsRefused<R>(before: State, plan: seq<Action>, registry: Registry<R>, ids: seq<Uid>, prefix: string,
      observed: State, now: int)
    requires Calculate(before, plan, registry, ids, prefix).Ok?
    requires var after := Calculate(before, plan, registry, ids, prefix).value.state; UniqueIds(observed) && NoDifferences(after, observed) && observed != after
    ensures var after := Calculate(before, plan, registry, ids, prefix).value.state;
      && Verify(after, Some(observed)) == Matched
      && CommitVerified(registry, CalculateChangeSet(before, after), Matched, after, Some(observed), now).Err?
  {
    PlannedNamesDiffer(before, plan, registry, ids, prefix);
    if DuplicateRuleNames(observed) { SameRulesSameNames(observed, Calculate(before, plan, registry, ids, prefix).value.state); }
  }

  /** Any state with two rules, or with two lists, can be read in another order. */
  lemma OtherOrder(after: State)
    requires UniqueIds(after)
    ensures |after.rules| >= 2 ==> var o := after.(rules := Swapped(after.rules)); UniqueIds(o) && NoDifferences(after, o) && o != after
    ensures |after.lists| >= 2 ==> var o := after.(lists := Swapped(after.lists)); UniqueIds(o) && NoDifferences(after, o) && o != after
  {
    if |after.rules| >= 2 {
      SwappedIndex(after.rules, RuleId);
      assert RuleId(after.rules[0]) != RuleId(after.rules[1]);
    }
    if |after.lists| >= 2 {
      SwappedIndex(after.lists, ListId);
      assert ListId(after.lists[0]) != ListId(after.lists[1]);
    }
  }
}
