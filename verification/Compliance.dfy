/** The content-compliance surface: its plan fold and the registry round trip. `C` is
    everything about a rule that the fold only copies. */
module Compliance {
  import opened Ordering
  import opened Keyed
  import opened Ownership
  import opened DesiredState
  import opened Resources

  datatype Unit = Unit(path: string, organizationId: Option<string>)

  datatype CRule<C> = CRule(id: Uid, name: string, unit: Unit, content: C, enabled: bool, inherited: bool)

  datatype Draft<C> = Draft(unit: Unit, content: C, enabled: bool, inherited: bool)

  datatype CAction<C> =
    | CreateCompliance(draft: Draft<C>)
    | UpdateCompliance(target: Uid, rule: CRule<C>)
    | RemoveCompliance(target: Uid)
    | EnableCompliance(target: Uid, enabled: bool)
    | ListCompliance
    | OtherAction // an action of the blocked-sender surface

  datatype CWork<C> = CWork(rules: map<Uid, CRule<C>>, ids: seq<Uid>)

  datatype CState<C> = CState(rules: seq<CRule<C>>, unmanaged: seq<string>)

  type CRegistry<C> = Registry<CRule<C>>

  /** `accepted` says whether regular expressions and required capabilities are in order. */
  datatype CEnv<!C> = CEnv(registry: CRegistry<C>, prefix: string, accepted: C -> bool)

  function CRuleId<C>(r: CRule<C>): Uid { r.id }

  function ComplianceName(prefix: string, id: Uid): string { prefix + " Compliance rule " + Short(id) }

  predicate OwnedCompliance<C>(r: CRule<C>, g: CRegistry<C>, prefix: string) {
    var record := Find(g.compliance, ComplianceRecordId, r.id);
    record.Some? && Marked(r.name, prefix) && record.value.name == r.name && record.value.ou == r.unit.path
  }

  function Editable<C>(id: Uid, w: CWork<C>, env: CEnv<C>): Outcome<CRule<C>> {
    var _ :- Check(id in w.rules, AmbiguousTarget);
    var _ :- Check(OwnedCompliance(w.rules[id], env.registry, env.prefix), OwnershipNotEstablished);
    var _ :- Check(!w.rules[id].inherited, AmbiguousTarget);
    Ok(w.rules[id])
  }

  function CStep<C>(w: CWork<C>, a: CAction<C>, env: CEnv<C>): Outcome<CWork<C>> {
    match a
    case CreateCompliance(d) =>
      var _ :- Check(w.ids != [], IdsExhausted);
      var id := w.ids[0];
      var _ :- Check(id !in w.rules, IdTaken);
      // the rule model enables every inherited rule
      var rule := CRule(id, ComplianceName(env.prefix, id), d.unit, d.content, d.enabled || d.inherited, d.inherited);
      var _ :- Check(env.accepted(d.content), AmbiguousTarget);
      Ok(CWork(w.rules[id := rule], w.ids[1..]))
    case UpdateCompliance(target, rule) =>
      var current :- Editable(target, w, env);
      var _ :- Check(rule.unit == current.unit, AmbiguousTarget);
      var _ :- Check(env.accepted(rule.content), AmbiguousTarget);
      Ok(w.(rules := w.rules[current.id := rule.(name := current.name)]))
    case RemoveCompliance(target) =>
      var current :- Editable(target, w, env);
      Ok(w.(rules := w.rules - {current.id}))
    case EnableCompliance(target, enabled) =>
      var current :- Editable(target, w, env);
      Ok(w.(rules := w.rules[current.id := current.(enabled := enabled)]))
    case ListCompliance => Ok(w)
    case OtherAction => Ok(w)
  }

  function CRun<C>(w: CWork<C>, plan: seq<CAction<C>>, env: CEnv<C>): Outcome<CWork<C>>
    decreases |plan|
  {
    if plan == [] then Ok(w)
    else
      var w' :- CStep(w, plan[0], env);
      CRun(w', plan[1..], env)
  }

  ghost predicate UniqueCompliance<C>(rules: map<Uid, CRule<C>>, unmanaged: seq<string>) {
    && (forall k, j :: k in rules && j in rules && k != j ==> rules[k].name != rules[j].name)
    && (forall k :: k in rules ==> rules[k].name !in unmanaged)
    && NoDuplicates(unmanaged)
  }

  /** `calculate_compliance_desired_state` */
  ghost function CCalculate<C>(before: CState<C>, plan: seq<CAction<C>>, ids: seq<Uid>, env: CEnv<C>): Outcome<CState<C>> {
    var w :- CRun(CWork(Index(before.rules, CRuleId), ids), plan, env);
    var _ :- Check(UniqueCompliance(w.rules, before.unmanaged), AmbiguousTarget);
    Ok(CState(Listing(w.rules), Sort(before.unmanaged, Below)))
  }

  /** The plan model: an update carries its target's ID and is not inherited. */
  predicate ValidUpdate<C>(a: CAction<C>) { a.UpdateCompliance? ==> a.rule.id == a.target && !a.rule.inherited }

  ghost predicate CKeyed<C>(w: CWork<C>) { forall k :: k in w.rules ==> w.rules[k].id == k }

  /** What happens to an observed rule: inherited or unowned ones are untouched, and no rule
      changes its ID, name or unit, or becomes inherited. */
  ghost predicate CFramed<C>(r: CRule<C>, now: Option<CRule<C>>, env: CEnv<C>) {
    && (now != Some(r) ==> OwnedCompliance(r, env.registry, env.prefix) && !r.inherited)
    && (now.Some? ==> now.value.id == r.id && now.value.name == r.name && now.value.unit == r.unit && now.value.inherited == r.inherited)
  }

  lemma CStepFrames<C>(w0: CWork<C>, w: CWork<C>, a: CAction<C>, env: CEnv<C>, k: Uid)
    requires CKeyed(w) && ValidUpdate(a) && CStep(w, a, env).Ok?
    requires k in w0.rules && CFramed(w0.rules[k], Lookup(w.rules, k), env)
    requires k !in w.ids && w0.rules[k].id == k
    ensures CFramed(w0.rules[k], Lookup(CStep(w, a, env).value.rules, k), env)
  {
  }

  lemma {:induction false} CRunFrames<C>(w0: CWork<C>, w: CWork<C>, plan: seq<CAction<C>>, env: CEnv<C>)
    requires CKeyed(w0) && CKeyed(w) && CRun(w, plan, env).Ok?
    requires forall i :: 0 <= i < |plan| ==> ValidUpdate(plan[i])
    requires forall k :: k in w0.rules ==> k !in w.ids && CFramed(w0.rules[k], Lookup(w.rules, k), env)
    ensures forall k :: k in w0.rules ==> CFramed(w0.rules[k], Lookup(CRun(w, plan, env).value.rules, k), env)
    ensures CKeyed(CRun(w, plan, env).value)
    decreases |plan|
  {
    if plan != [] {
      var w' := CStep(w, plan[0], env).value;
      forall k | k in w0.rules ensures k !in w'.ids && CFramed(w0.rules[k], Lookup(w'.rules, k), env) {
        CStepFrames(w0, w, plan[0], env, k);
        assert forall id :: id in w'.ids ==> id in w.ids;
      }
      CRunFrames(w0, w', plan[1..], env);
    }
  }

  /** Every plan leaves inherited and unowned rules untouched and keeps the identity of the rest. */
  lemma CompliancePlanTouchesOnlyOwned<C>(before: CState<C>, plan: seq<CAction<C>>, ids: seq<Uid>, env: CEnv<C>)
    requires forall i :: 0 <= i < |plan| ==> ValidUpdate(plan[i])
    requires forall r :: r in before.rules ==> r.id !in ids
    requires CCalculate(before, plan, ids, env).Ok?
    ensures var rules0 := Index(before.rules, CRuleId);
      var rules1 := Index(CCalculate(before, plan, ids, env).value.rules, CRuleId);
      forall k :: k in rules0 ==> CFramed(rules0[k], Lookup(rules1, k), env)
  {
    IndexFacts(before.rules, CRuleId);
    var w := CWork(Index(before.rules, CRuleId), ids);
    forall k | k in w.rules ensures k !in ids && w.rules[k].id == k { assert w.rules[k] in before.rules && CRuleId(w.rules[k]) == k; }
    CRunFrames(w, w, plan, env);
    IndexOfListing(CRun(w, plan, env).value.rules, CRuleId);
  }
}
