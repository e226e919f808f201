/** The browser writes a change set one operation at a time, in six fixed phases, and may
    stop after any of them. */
module WriteOrder {
  import opened Keyed
  import opened Resources
  import opened Ownership
  import opened DesiredState
  import opened Integrity
  import opened Authorization
  import opened Diff

  datatype Surface = Surface(rules: map<Uid, Rule>, lists: map<Uid, AddressList>)

  datatype Verb = Create | Update | Remove

  datatype Resource = RuleRes(rule: Rule) | ListRes(list: AddressList)

  datatype Key = RuleKey(id: Uid) | ListKey(id: Uid)

  datatype Op = Op(verb: Verb, resource: Resource)

  function SurfaceOf(s: State): Surface { Surface(RuleMap(s), ListMap(s)) }

  function KeyOf(r: Resource): Key {
    match r case RuleRes(rule) => RuleKey(rule.id) case ListRes(list) => ListKey(list.id)
  }

  function At(s: Surface, x: Key): Option<Resource> {
    match x
    case RuleKey(id) => if id in s.rules then Some(RuleRes(s.rules[id])) else None
    case ListKey(id) => if id in s.lists then Some(ListRes(s.lists[id])) else None
  }

  function Perform(s: Surface, op: Op): Surface {
    match op.resource
    case RuleRes(r) => s.(rules := if op.verb == Remove then s.rules - {r.id} else s.rules[r.id := r])
    case ListRes(l) => s.(lists := if op.verb == Remove then s.lists - {l.id} else s.lists[l.id := l])
  }

  function RuleOps(verb: Verb, rs: seq<Rule>): seq<Op> { seq(|rs|, i requires 0 <= i < |rs| => Op(verb, RuleRes(rs[i]))) }

  function ListOps(verb: Verb, ls: seq<AddressList>): seq<Op> { seq(|ls|, i requires 0 <= i < |ls| => Op(verb, ListRes(ls[i]))) }

  /** The six phases of `apply_blocked_sender_change`. */
  function Phases(cs: ChangeSet): seq<seq<Op>> {
    [
      ListOps(Create, cs.lists.created),
      ListOps(Update, cs.lists.updated),
      RuleOps(Create, cs.rules.created),
      RuleOps(Update, cs.rules.updated),
      RuleOps(Remove, cs.rules.removed),
      ListOps(Remove, cs.lists.removed)
    ]
  }

  function Flatten(phases: seq<seq<Op>>): seq<Op> {
    if phases == [] then [] else phases[0] + Flatten(phases[1..])
  }

  function Ops(cs: ChangeSet): seq<Op> { Flatten(Phases(cs)) }

  /** The surface after the first `k` operations. */
  function Stage(s: Surface, ops: seq<Op>, k: nat): Surface
    requires k <= |ops|
  {
    if k == 0 then s else Perform(Stage(s, ops, k - 1), ops[k - 1])
  }

  function Phase(op: Op): nat {
    match (op.verb, op.resource)
    case (Create, ListRes(_)) => 0
    case (Update, ListRes(_)) => 1
    case (Create, RuleRes(_)) => 2
    case (Update, RuleRes(_)) => 3
    case (Remove, RuleRes(_)) => 4
    case (Remove, ListRes(_)) => 5
  }

  /** An operation turns the key's current version into its desired one, with the right verb. */
  ghost predicate Faithful(op: Op, before: Surface, after: Surface) {
    var x := KeyOf(op.resource);
    && At(before, x) != At(after, x)
    && match op.verb
       case Create => At(before, x).None? && At(after, x) == Some(op.resource)
       case Update => At(before, x).Some? && At(after, x) == Some(op.resource)
       case Remove => At(before, x) == Some(op.resource) && At(after, x).None?
  }

  ghost predicate AllFaithful(ops: seq<Op>, before: Surface, after: Surface) {
    forall i :: 0 <= i < |ops| ==> Faithful(ops[i], before, after)
  }

  /** Phases never go back, and no key is written twice. */
  ghost predicate InOrder(ops: seq<Op>) {
    forall i, j :: 0 <= i < j < |ops| ==> Phase(ops[i]) <= Phase(ops[j]) && KeyOf(ops[i].resource) != KeyOf(ops[j].resource)
  }

  ghost predicate Covers(ops: seq<Op>, before: Surface, after: Surface) {
    forall x :: At(before, x) != At(after, x) ==> exists i :: 0 <= i < |ops| && KeyOf(ops[i].resource) == x
  }

  lemma RulePhaseFacts(verb: Verb, rs: seq<Rule>, m: map<Uid, Rule>, before: Surface, after: Surface)
    requires PartIs(rs, m, RuleId)
    requires m == match verb case Create => after.rules - before.rules.Keys case Update => Altered(before.rules,
        after.rules) case Remove => before.rules - after.rules.Keys
    ensures AllFaithful(RuleOps(verb, rs), before, after) && InOrder(RuleOps(verb, rs))
    ensures forall id :: id in m ==> HasKey(RuleOps(verb, rs), RuleKey(id))
  {
    forall i | 0 <= i < |rs| ensures Faithful(RuleOps(verb, rs)[i], before, after) {
      assert rs[i] in rs && RuleId(rs[i]) in m;
    }
    forall i, j | 0 <= i < j < |rs| ensures KeyOf(RuleOps(verb, rs)[i].resource) != KeyOf(RuleOps(verb, rs)[j].resource) {
      assert RuleId(rs[i]) != RuleId(rs[j]);
    }
    forall id | id in m ensures HasKey(RuleOps(verb, rs), RuleKey(id)) {
      assert m[id] in rs && RuleId(m[id]) == id;
      var i :| 0 <= i < |rs| && rs[i] == m[id];
      assert RuleOps(verb, rs)[i].resource == RuleRes(rs[i]);
    }
  }

  lemma ListPhaseFacts(verb: Verb, ls: seq<AddressList>, m: map<Uid, AddressList>, before: Surface, after: Surface)
    requires PartIs(ls, m, ListId)
    requires m == match verb case Create => after.lists - before.lists.Keys case Update => Altered(before.lists,
        after.lists) case Remove => before.lists - after.lists.Keys
    ensures AllFaithful(ListOps(verb, ls), before, after) && InOrder(ListOps(verb, ls))
    ensures forall id :: id in m ==> HasKey(ListOps(verb, ls), ListKey(id))
  {
    forall i | 0 <= i < |ls| ensures Faithful(ListOps(verb, ls)[i], before, after) {
      assert ls[i] in ls && ListId(ls[i]) in m;
    }
    forall i, j | 0 <= i < j < |ls| ensures KeyOf(ListOps(verb, ls)[i].resource) != KeyOf(ListOps(verb, ls)[j].resource) {
      assert ListId(ls[i]) != ListId(ls[j]);
    }
    forall id | id in m ensures HasKey(ListOps(verb, ls), ListKey(id)) {
      assert m[id] in ls && ListId(m[id]) == id;
      var i :| 0 <= i < |ls| && ls[i] == m[id];
      assert ListOps(verb, ls)[i].resource == ListRes(ls[i]);
    }
  }

  ghost predicate PhaseGroup(ops: seq<Op>, lo: nat, hi: nat, before: Surface, after: Surface) {
    AllFaithful(ops, before, after) && InOrder(ops) && forall i :: 0 <= i < |ops| ==> lo <= Phase(ops[i]) < hi
  }

  lemma JoinGroups(a: seq<Op>, b: seq<Op>, lo: nat, mid: nat, hi: nat, before: Surface, after: Surface)
    requires PhaseGroup(a, lo, mid, before, after) && PhaseGroup(b, mid, hi, before, after) && lo <= mid <= hi
    ensures PhaseGroup(a + b, lo, hi, before, after)
  {
  }

  lemma FlattenPhases(cs: ChangeSet)
    ensures var p := Phases(cs);
      Ops(cs) == p[0] + (p[1] + (p[2] + (p[3] + (p[4] + p[5]))))
  {
    var p := Phases(cs);
    FlattenStep(p, 0);
    FlattenStep(p, 1);
    FlattenStep(p, 2);
    FlattenStep(p, 3);
    FlattenStep(p, 4);
    FlattenStep(p, 5);
    assert p[0..] == p && p[6..] == [] && p[5] + [] == p[5];
  }

  lemma FlattenStep(p: seq<seq<Op>>, i: nat)
    requires i < |p|
    ensures Flatten(p[i..]) == p[i] + Flatten(p[i + 1..])
  {
  }

  lemma OpsFacts(before: State, after: State)
    ensures var ops := Ops(CalculateChangeSet(before, after));
      var b, a := SurfaceOf(before), SurfaceOf(after);
      AllFaithful(ops, b, a) && InOrder(ops) && Covers(ops, b, a)
  {
    var cs := CalculateChangeSet(before, after);
    var b, a := SurfaceOf(before), SurfaceOf(after);
    PartitionMembers(before.rules, after.rules, RuleId);
    PartitionMembers(before.lists, after.lists, ListId);
    ListPhaseFacts(Create, cs.lists.created, a.lists - b.lists.Keys, b, a);
    ListPhaseFacts(Update, cs.lists.updated, Altered(b.lists, a.lists), b, a);
    ListPhaseFacts(Remove, cs.lists.removed, b.lists - a.lists.Keys, b, a);
    RulePhaseFacts(Create, cs.rules.created, a.rules - b.rules.Keys, b, a);
    RulePhaseFacts(Update, cs.rules.updated, Altered(b.rules, a.rules), b, a);
    RulePhaseFacts(Remove, cs.rules.removed, b.rules - a.rules.Keys, b, a);
    OpsInOrder(cs, b, a);
    OpsCover(cs, b, a);
  }

  lemma OpsInOrder(cs: ChangeSet, b: Surface, a: Surface)
    requires AllFaithful(ListOps(Create, cs.lists.created), b, a) && InOrder(ListOps(Create, cs.lists.created))
    requires AllFaithful(ListOps(Update, cs.lists.updated), b, a) && InOrder(ListOps(Update, cs.lists.updated))
    requires AllFaithful(ListOps(Remove, cs.lists.removed), b, a) && InOrder(ListOps(Remove, cs.lists.removed))
    requires AllFaithful(RuleOps(Create, cs.rules.created), b, a) && InOrder(RuleOps(Create, cs.rules.created))
    requires AllFaithful(RuleOps(Update, cs.rules.updated), b, a) && InOrder(RuleOps(Update, cs.rules.updated))
    requires AllFaithful(RuleOps(Remove, cs.rules.removed), b, a) && InOrder(RuleOps(Remove, cs.rules.removed))
    ensures AllFaithful(Ops(cs), b, a) && InOrder(Ops(cs))
  {
    var p := Phases(cs);
    FlattenPhases(cs);
    JoinGroups(p[4], p[5], 4, 5, 6, b, a);
    JoinGroups(p[3], p[4] + p[5], 3, 4, 6, b, a);
    JoinGroups(p[2], p[3] + (p[4] + p[5]), 2, 3, 6, b, a);
    JoinGroups(p[1], p[2] + (p[3] + (p[4] + p[5])), 1, 2, 6, b, a);
    JoinGroups(p[0], p[1] + (p[2] + (p[3] + (p[4] + p[5]))), 0, 1, 6, b, a);
  }

  ghost predicate HasKey(ops: seq<Op>, x: Key) { exists i :: 0 <= i < |ops| && KeyOf(ops[i].resource) == x }

  lemma KeyInEither(p: seq<Op>, q: seq<Op>, x: Key)
    ensures HasKey(p + q, x) <==> HasKey(p, x) || HasKey(q, x)
  {
    if HasKey(p, x) {
      var i :| 0 <= i < |p| && KeyOf(p[i].resource) == x;
      assert (p + q)[i] == p[i];
    }
    if HasKey(q, x) {
      var i :| 0 <= i < |q| && KeyOf(q[i].resource) == x;
      assert (p + q)[|p| + i] == q[i];
    }
  }

  lemma KeyInOps(cs: ChangeSet, x: Key)
    ensures var p := Phases(cs);
      HasKey(Ops(cs), x) <==> HasKey(p[0], x) || HasKey(p[1], x) || HasKey(p[2], x) || HasKey(p[3], x) || HasKey(p[4], x) || HasKey(p[5], x)
  {
    var p := Phases(cs);
    FlattenPhases(cs);
    KeyInEither(p[4], p[5], x);
    KeyInEither(p[3], p[4] + p[5], x);
    KeyInEither(p[2], p[3] + (p[4] + p[5]), x);
    KeyInEither(p[1], p[2] + (p[3] + (p[4] + p[5])), x);
    KeyInEither(p[0], p[1] + (p[2] + (p[3] + (p[4] + p[5]))), x);
  }

  lemma OpsCover(cs: ChangeSet, b: Surface, a: Surface)
    requires forall id :: id in a.lists && id !in b.lists ==> HasKey(ListOps(Create, cs.lists.created), ListKey(id))
    requires forall id :: id in Altered(b.lists, a.lists) ==> HasKey(ListOps(Update, cs.lists.updated), ListKey(id))
    requires forall id :: id in b.lists && id !in a.lists ==> HasKey(ListOps(Remove, cs.lists.removed), ListKey(id))
    requires forall id :: id in a.rules && id !in b.rules ==> HasKey(RuleOps(Create, cs.rules.created), RuleKey(id))
    requires forall id :: id in Altered(b.rules, a.rules) ==> HasKey(RuleOps(Update, cs.rules.updated), RuleKey(id))
    requires forall id :: id in b.rules && id !in a.rules ==> HasKey(RuleOps(Remove, cs.rules.removed), RuleKey(id))
    ensures Covers(Ops(cs), b, a)
  {
    forall x | At(b, x) != At(a, x) ensures HasKey(Ops(cs), x) {
      KeyInOps(cs, x);
    }
  }

  ghost predicate Done(ops: seq<Op>, k: nat, x: Key)
    requires k <= |ops|
  {
    exists i :: 0 <= i < k && KeyOf(ops[i].resource) == x
  }

  /** After `k` operations each key has its desired version if written and its old one otherwise. */
  lemma {:induction false} StageAt(ops: seq<Op>, k: nat, before: Surface, after: Surface, x: Key)
    requires k <= |ops| && AllFaithful(ops, before, after)
    ensures At(Stage(before, ops, k), x) == if Done(ops, k, x) then At(after, x) else At(before, x)
  {
    if k > 0 {
      StageAt(ops, k - 1, before, after, x);
      var op := ops[k - 1];
      assert Faithful(op, before, after);
      assert Done(ops, k, x) <==> Done(ops, k - 1, x) || KeyOf(op.resource) == x;
    }
  }

  /** No rule names an absent primary or bypass list. */
  ghost predicate Resolves(s: Surface) {
    forall k, n :: k in s.rules && n in Refs(s.rules[k]) ==> exists j :: j in s.lists && s.lists[j].name == n
  }

  ghost predicate NamesKept(before: Surface, after: Surface) {
    forall j :: j in before.lists && j in after.lists ==> after.lists[j].name == before.lists[j].name
  }

  lemma DonePhasesBefore(ops: seq<Op>, k: nat, before: Surface, after: Surface, x: Key, y: Key)
    requires k <= |ops| && AllFaithful(ops, before, after) && InOrder(ops) && Covers(ops, before, after)
    requires Done(ops, k, x) && At(before, y) != At(after, y)
    requires forall i, j :: 0 <= i < |ops| && 0 <= j < |ops| && KeyOf(ops[i].resource) == x && KeyOf(ops[j].resource) == y ==> Phase(ops[j]) < Phase(ops[i])
    ensures Done(ops, k, y)
  {
  }

  /** Once a rule is written or a list removed, all lists of the desired state are in place. */
  lemma DesiredListsReady(ops: seq<Op>, k: nat, before: Surface, after: Surface, x: Key, j: Uid)
    requires k <= |ops| && AllFaithful(ops, before, after) && InOrder(ops) && Covers(ops, before, after)
    requires Done(ops, k, x) && (x.RuleKey? || x.id !in after.lists)
    requires j in after.lists
    ensures j in Stage(before, ops, k).lists && Stage(before, ops, k).lists[j] == after.lists[j]
  {
    var y := ListKey(j);
    StageAt(ops, k, before, after, y);
    if At(before, y) != At(after, y) {
      forall i, l | 0 <= i < |ops| && 0 <= l < |ops| && KeyOf(ops[i].resource) == x && KeyOf(ops[l].resource) == y
        ensures Phase(ops[l]) < Phase(ops[i])
      {
        assert Faithful(ops[i], before, after) && Faithful(ops[l], before, after);
      }
      DonePhasesBefore(ops, k, before, after, x, y);
    }
  }

  /** Before the first list removal, all lists of the observed state are in place. */
  lemma ObservedListsStay(ops: seq<Op>, k: nat, before: Surface, after: Surface, j: Uid)
    requires k <= |ops| && AllFaithful(ops, before, after) && NamesKept(before, after)
    requires !ListRemoved(ops, k, j) && j in before.lists
    ensures j in Stage(before, ops, k).lists && Stage(before, ops, k).lists[j].name == before.lists[j].name
  {
  }

  /** Once a list is removed, all rules have their desired version. */
  lemma DesiredRulesReady(ops: seq<Op>, k: nat, before: Surface, after: Surface, d: Uid, id: Uid)
    requires k <= |ops| && AllFaithful(ops, before, after) && InOrder(ops) && Covers(ops, before, after)
    requires ListRemoved(ops, k, d)
    ensures At(Stage(before, ops, k), RuleKey(id)) == At(after, RuleKey(id)) && d !in after.lists && Done(ops, k, ListKey(d))
  {
    StageAt(ops, k, before, after, RuleKey(id));
    var r :| 0 <= r < k && ops[r].verb == Remove && KeyOf(ops[r].resource) == ListKey(d);
    assert Faithful(ops[r], before, after);
    if At(before, RuleKey(id)) != At(after, RuleKey(id)) {
      forall i, l | 0 <= i < |ops| && 0 <= l < |ops| && KeyOf(ops[i].resource) == ListKey(d) && KeyOf(ops[l].resource) == RuleKey(id)
        ensures Phase(ops[l]) < Phase(ops[i])
      {
        assert Faithful(ops[i], before, after);
      }
      DonePhasesBefore(ops, k, before, after, ListKey(d), RuleKey(id));
    }
  }

  lemma PrefixResolvesOne(ops: seq<Op>, k: nat, before: Surface, after: Surface, id: Uid, n: string)
    requires k <= |ops| && AllFaithful(ops, before, after) && InOrder(ops) && Covers(ops, before, after)
    requires Resolves(before) && Resolves(after) && NamesKept(before, after)
    requires var s := Stage(before, ops, k); id in s.rules && n in Refs(s.rules[id])
    ensures var s := Stage(before, ops, k); exists j :: j in s.lists && s.lists[j].name == n
  {
    StageAt(ops, k, before, after, RuleKey(id));
    if d :| ListRemoved(ops, k, d) {
      DesiredRulesReady(ops, k, before, after, d, id);
      var j :| j in after.lists && after.lists[j].name == n;
      DesiredListsReady(ops, k, before, after, ListKey(d), j);
    } else if Done(ops, k, RuleKey(id)) {
      var j :| j in after.lists && after.lists[j].name == n;
      DesiredListsReady(ops, k, before, after, RuleKey(id), j);
    } else {
      var j :| j in before.lists && before.lists[j].name == n;
      ObservedListsStay(ops, k, before, after, j);
    }
  }

  ghost predicate ListRemoved(ops: seq<Op>, k: nat, id: Uid)
    requires k <= |ops|
  {
    exists i :: 0 <= i < k && ops[i].verb == Remove && KeyOf(ops[i].resource) == ListKey(id)
  }

  /** The order is safe to interrupt anywhere. */
  lemma EveryPrefixResolves(before: State, after: State, k: nat)
    requires k <= |Ops(CalculateChangeSet(before, after))|
    requires Resolves(SurfaceOf(before)) && Resolves(SurfaceOf(after)) && NamesKept(SurfaceOf(before), SurfaceOf(after))
    ensures Resolves(Stage(SurfaceOf(before), Ops(CalculateChangeSet(before, after)), k))
  {
    var ops := Ops(CalculateChangeSet(before, after));
    var b, a := SurfaceOf(before), SurfaceOf(after);
    OpsFacts(before, after);
    var s := Stage(b, ops, k);
    forall id, n | id in s.rules && n in Refs(s.rules[id]) ensures exists j :: j in s.lists && s.lists[j].name == n {
      PrefixResolvesOne(ops, k, b, a, id, n);
    }
  }

  lemma LinkedResolves(s: State)
    requires LinkedState(s)
    ensures Resolves(SurfaceOf(s))
  {
  }

  /** Between a linked state and what any successful plan makes of it, every half-finished
      write leaves all rules with their lists. */
  lemma PlanWritesAreSafe<R>(before: State, plan: seq<Action>, registry: Registry<R>, ids: seq<Uid>, prefix: string, k: nat)
    requires LinkedState(before) && FreshIds(Start(before, ids))
    requires Calculate(before, plan, registry, ids, prefix).Ok?
    requires k <= |Ops(CalculateChangeSet(before, Calculate(before, plan, registry, ids, prefix).value.state))|
    ensures var cs := CalculateChangeSet(before, Calculate(before, plan, registry, ids, prefix).value.state);
      Resolves(Stage(SurfaceOf(before), Ops(cs), k))
  {
    var after := Calculate(before, plan, registry, ids, prefix).value.state;
    PlanKeepsIntegrity(before, plan, registry, ids, prefix);
    PlanTouchesOnlyOwned(before, plan, registry, ids, prefix);
    LinkedResolves(before);
    LinkedResolves(after);
    EveryPrefixResolves(before, after, k);
  }
}
