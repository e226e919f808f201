/** The browser driver: writes a change set phase by phase and stops at the first operation that
    does not complete. */
module BrowserWriter {
  import opened Keyed
  import opened Resources
  import opened Diff
  import opened WriteOrder

  /** How one visit of the page agent went: whether it reported completion, and whether the page
      saved the change. A completed operation was visibly saved. */
  datatype Visit = Visit(completed: bool, saved: bool)

  predicate Truthful(v: Visit) { v.completed ==> v.saved }

  /** The first visit that did not complete was the last one, and `k` operations were saved. */
  ghost predicate StoppedAfter(visits: nat -> Visit, n: nat, k: nat) {
    exists m :: 0 <= m < n && !visits(m).completed && (forall i :: 0 <= i < m ==> visits(i).completed) && k == if visits(m).saved then m + 1 else m
  }

  class AdminPages {
    var rules: map<Uid, Rule>
    var lists: map<Uid, AddressList>

    ghost function View(): Surface
      reads this
    {
      Surface(rules, lists)
    }

    method RunGoal(op: Op, visit: Visit)
      modifies this
      ensures View() == if visit.saved then Perform(old(View()), op) else old(View())
    {
      if !visit.saved { return; }
      match op.resource {
        case RuleRes(r) => rules := if op.verb == Remove then rules - {r.id} else rules[r.id := r];
        case ListRes(l) => lists := if op.verb == Remove then lists - {l.id} else lists[l.id := l];
      }
    }

    /** `apply_blocked_sender_change`: whatever the pages do, they are left as some prefix of the
        six phases leaves them, the whole change set if every visit completed. */
    method ApplyChange(cs: ChangeSet, visits: nat -> Visit) returns (completed: bool, k: nat)
      requires forall n :: Truthful(visits(n))
      modifies this
      ensures k <= |Ops(cs)| && View() == Stage(old(View()), Ops(cs), k)
      ensures completed ==> k == |Ops(cs)|
      ensures completed <==> forall n :: 0 <= n < |Ops(cs)| ==> visits(n).completed
      ensures !completed ==> StoppedAfter(visits, |Ops(cs)|, k)
    {
      var phases := Phases(cs);
      ghost var ops := Ops(cs);
      k := 0;
      assert phases[0..] == phases;
      for p := 0 to |phases|
        invariant k <= |ops| && View() == Stage(old(View()), ops, k)
        invariant ops[k..] == Flatten(phases[p..])
        invariant forall n :: 0 <= n < k ==> visits(n).completed
      {
        FlattenStep(phases, p);
        ghost var start := k;
        for i := 0 to |phases[p]|
          invariant k == start + i <= |ops| && View() == Stage(old(View()), ops, k)
          invariant ops[start..] == phases[p] + Flatten(phases[p + 1..])
          invariant forall n :: 0 <= n < k ==> visits(n).completed
        {
          assert ops[k] == ops[start..][i] == phases[p][i];
          var visit := visits(k);
          RunGoal(phases[p][i], visit);
          ghost var m := k;
          if visit.saved { k := k + 1; }
          if !visit.completed {
            assert StoppedAfter(visits, |ops|, k) by { assert !visits(m).completed; }
            return false, k;
          }
        }
        assert ops[k..] == ops[start..][|phases[p]|..];
      }
      assert phases[|phases|..] == [];
      return true, k;
    }
  }
}
