/** What a plan does to the rules and address lists of one organizational unit,
    written as functions on the two working dictionaries and the unused IDs. */
module DesiredState {
  import opened Ordering
  import opened Keyed
  import opened Resources
  import opened Ownership

  datatype Error =
    | AmbiguousTarget
    | OwnershipNotEstablished
    | IdsExhausted // an injected ownership ID is missing
    | IdTaken
    | InvalidList // the address-list model rejects duplicate normalized entries
    | ListGone // a list named twice is already deleted

  datatype Outcome<+T> = Ok(value: T) | Err(error: Error) {
    predicate IsFailure() { Err? }
    function PropagateFailure<U>(): Outcome<U>
      requires Err?
    {
      Err(error)
    }
    function Extract(): T
      requires Ok?
    {
      value
    }
  }

  /** Everything a plan cannot change. `R` is the type of compliance rules. */
  datatype Env<R> = Env(ou: string, registry: Registry<R>, prefix: string)

  datatype Work = Work(rules: map<Uid, Rule>, lists: map<Uid, AddressList>, ids: seq<Uid>, noticed: nat)

  datatype Desired = Desired(state: State, noticed: nat)

  function Check(condition: bool, error: Error): Outcome<()> {
    if condition then Ok(()) else Err(error)
  }

  /** The ID of the single list with a given display name, if exactly one has it. */
  ghost predicate IsOnlyNamed(lists: map<Uid, AddressList>, name: string, k: Uid) {
    k in lists && lists[k].name == name && forall j :: j in lists && lists[j].name == name ==> j == k
  }

  ghost function OnlyNamed(lists: map<Uid, AddressList>, name: string): (r: Option<Uid>)
    ensures forall k :: r == Some(k) <==> IsOnlyNamed(lists, name, k)
  {
    if exists k :: IsOnlyNamed(lists, name, k) then
      var k :| IsOnlyNamed(lists, name, k);
      Some(k)
    else
      None
  }

  ghost function OwnedTarget<R>(id: Uid, w: Work, env: Env<R>): Outcome<Rule> {
    var _ :- Check(id in w.rules, AmbiguousTarget);
    var _ :- Check(OwnedRule(w.rules[id], env.registry, env.prefix), OwnershipNotEstablished);
    Ok(w.rules[id])
  }

  /** `_require_rule_list` */
  ghost function PrimaryList<R>(rule: Rule, lists: map<Uid, AddressList>, env: Env<R>): Outcome<AddressList> {
    var _ :- Check(|rule.listNames| == 1, AmbiguousTarget);
    var _ :- Check(OnlyNamed(lists, rule.listNames[0]) == Some(rule.id), AmbiguousTarget);
    var _ :- Check(OwnedList(lists[rule.id], env.registry, env.prefix), OwnershipNotEstablished);
    Ok(lists[rule.id])
  }

  /** `_owned_bypass_lists`: the IDs of the bypass lists in the rule's order. */
  ghost function OwnedBypass<R>(names: seq<string>, lists: map<Uid, AddressList>, env: Env<R>): Outcome<seq<Uid>> {
    if names == [] then Ok([])
    else
      var found := OnlyNamed(lists, names[0]);
      var _ :- Check(found.Some?, AmbiguousTarget);
      var _ :- Check(OwnedList(lists[found.value], env.registry, env.prefix), OwnershipNotEstablished);
      var rest :- OwnedBypass(names[1..], lists, env);
      Ok([found.value] + rest)
  }

  function NewList(lists: map<Uid, AddressList>, id: Uid, name: string, entries: seq<Entry>): Outcome<map<Uid, AddressList>> {
    var _ :- Check(UniqueEntries(entries), InvalidList);
    Ok(lists[id := AddressList(id, name, SortEntries(entries))])
  }

  function WithEntries(lists: map<Uid, AddressList>, id: Uid, entries: seq<Entry>): map<Uid, AddressList>
    requires id in lists
  {
    lists[id := lists[id].(entries := SortEntries(entries))]
  }

  /** `_create_rule` */
  function Created<R>(w: Work, entries: seq<Entry>, notice: Option<string>, ou: string, bypass: seq<Entry>,
      enabled: bool, env: Env<R>): Outcome<Work> {
    var _ :- Check(w.ids != [], IdsExhausted);
    var id := w.ids[0];
    var _ :- Check(id !in w.rules && id !in w.lists, IdTaken);
    var lists :- NewList(w.lists, id, ListName(env.prefix, id), entries);
    var rule := Rule(id, RuleName(env.prefix, id), ou, [ListName(env.prefix, id)], [], notice, enabled, false);
    if bypass == [] then
      Ok(w.(rules := w.rules[id := rule], lists := lists, ids := w.ids[1..]))
    else
      var _ :- Check(|w.ids| > 1, IdsExhausted);
      var bid := w.ids[1];
      var lists' :- NewList(lists, bid, BypassName(env.prefix, bid), bypass);
      Ok(w.(rules := w.rules[id := rule.(bypassNames := [BypassName(env.prefix, bid)])], lists := lists', ids := w.ids[2..]))
  }

  /** `_resolve_add_target` for an addition that names no rule. */
  ghost predicate IsCandidate(rules: map<Uid, Rule>, notice: Option<string>, k: Uid) {
    k in rules && rules[k].notice == notice
  }

  ghost function AddTarget<R>(w: Work, target: Option<Uid>, notice: Option<string>, env: Env<R>): Outcome<Option<Rule>> {
    if target.Some? then
      var rule :- OwnedTarget(target.value, w, env);
      var _ :- PrimaryList(rule, w.lists, env);
      Ok(Some(rule))
    else if exists k :: IsCandidate(w.rules, notice, k) && !OwnedRule(w.rules[k], env.registry, env.prefix) then
      Err(OwnershipNotEstablished)
    else if exists k :: IsCandidate(w.rules, notice, k) && PrimaryList(w.rules[k], w.lists, env).Err? then
      var k :| IsCandidate(w.rules, notice, k) && PrimaryList(w.rules[k], w.lists, env).Err?;
      Err(PrimaryList(w.rules[k], w.lists, env).error)
    else if exists k :: IsCandidate(w.rules, notice, k) then
      var k :| IsCandidate(w.rules, notice, k);
      var _ :- Check(forall j :: IsCandidate(w.rules, notice, j) ==> j == k, AmbiguousTarget);
      Ok(Some(w.rules[k]))
    else
      Ok(None)
  }

  /** The action's entries that the list does not hold yet, after the ones it holds. */
  function Combined(present: seq<Entry>, added: seq<Entry>): seq<Entry> {
    present + Absent(added, Normalized(present))
  }

  function Absent(entries: seq<Entry>, taken: set<string>): seq<Entry> {
    if entries == [] then []
    else (if entries[0].normalized in taken then [] else [entries[0]]) + Absent(entries[1..], taken)
  }

  ghost function Added<R>(w: Work, a: Action, env: Env<R>): Outcome<Work>
    requires a.AddEntries?
  {
    var target :- AddTarget(w, a.maybeTarget, a.notice, env);
    if target.None? || (a.notice.Some? && a.notice != target.value.notice) then
      Created(w, a.entries, a.notice, a.ou, [], true, env)
    else
      var list :- PrimaryList(target.value, w.lists, env);
      Ok(w.(lists := WithEntries(w.lists, target.value.id, Combined(list.entries, a.entries))))
  }

  ghost function EntriesRemoved<R>(w: Work, a: Action, env: Env<R>): Outcome<Work>
    requires a.RemoveEntries?
  {
    var rule :- OwnedTarget(a.target, w, env);
    var list :- PrimaryList(rule, w.lists, env);
    Ok(w.(lists := WithEntries(w.lists, rule.id, Absent(list.entries, Normalized(a.entries)))))
  }

  ghost function Noticed<R>(w: Work, a: Action, env: Env<R>): Outcome<Work>
    requires a.SetNotice?
  {
    var rule :- OwnedTarget(a.target, w, env);
    var list :- PrimaryList(rule, w.lists, env);
    if rule.notice == Some(a.text) then Ok(w)
    else Ok(w.(rules := w.rules[rule.id := rule.(notice := Some(a.text))], noticed := w.noticed + |list.entries|))
  }

  ghost function Enabled<R>(w: Work, a: Action, env: Env<R>): Outcome<Work>
    requires a.SetEnabled?
  {
    var rule :- OwnedTarget(a.target, w, env);
    var _ :- Check(!rule.inherited, AmbiguousTarget);
    Ok(w.(rules := w.rules[rule.id := rule.(enabled := a.enabled)]))
  }

  function AsSet<T(==)>(s: seq<T>): set<T> { set x | x in s }

  /** The end of `_update_rule`: which bypass list the rule is left with. */
  function Rebound<R>(w: Work, a: Action, env: Env<R>, rule: Rule, lists: map<Uid, AddressList>, existing: seq<Uid>): Outcome<Work>
    requires a.UpdateRule?
  {
    var edited := rule.(notice := a.notice, enabled := a.enabled);
    if a.bypass != [] && existing != [] && existing[0] in lists then
      var _ :- Check(NoDuplicates(existing[1..]), ListGone);
      var kept := WithEntries(lists, existing[0], a.bypass) - AsSet(existing[1..]);
      Ok(w.(rules := w.rules[rule.id := edited.(bypassNames := [lists[existing[0]].name])], lists := kept))
    else if a.bypass != [] then
      var _ :- Check(w.ids != [], IdsExhausted);
      var bid := w.ids[0];
      var grown :- NewList(lists, bid, BypassName(env.prefix, bid), a.bypass);
      Ok(w.(rules := w.rules[rule.id := edited.(bypassNames := [BypassName(env.prefix, bid)])], lists := grown,
          ids := w.ids[1..]))
    else
      var _ :- Check(NoDuplicates(existing), ListGone);
      Ok(w.(rules := w.rules[rule.id := edited.(bypassNames := [])], lists := lists - AsSet(existing)))
  }

  /** `_update_rule` */
  ghost function Updated<R>(w: Work, a: Action, env: Env<R>): Outcome<Work>
    requires a.UpdateRule?
  {
    var rule :- OwnedTarget(a.target, w, env);
    var _ :- Check(!rule.inherited, AmbiguousTarget);
    var primary :- PrimaryList(rule, w.lists, env);
    var lists := WithEntries(w.lists, rule.id, a.entries);
    var existing :- OwnedBypass(rule.bypassNames, lists, env);
    Rebound(w, a, env, rule, lists, existing)
  }

  /** The bypass lists of a removed rule go one by one. */
  ghost function BypassRemoved<R>(names: seq<string>, rules: map<Uid, Rule>, lists: map<Uid, AddressList>,
      env: Env<R>): Outcome<map<Uid, AddressList>> {
    if names == [] then Ok(lists)
    else
      var found := OnlyNamed(lists, names[0]);
      var _ :- Check(found.Some?, AmbiguousTarget);
      var _ :- Check(OwnedList(lists[found.value], env.registry, env.prefix), OwnershipNotEstablished);
      var _ :- Check(forall j :: j in rules ==> names[0] !in rules[j].bypassNames, AmbiguousTarget);
      BypassRemoved(names[1..], rules, lists - {found.value}, env)
  }

  /** `_remove_rule` */
  ghost function Removed<R>(w: Work, a: Action, env: Env<R>): Outcome<Work>
    requires a.RemoveRule?
  {
    var rule :- OwnedTarget(a.target, w, env);
    var list :- PrimaryList(rule, w.lists, env);
    var rules := w.rules - {rule.id};
    if !a.withList then Ok(w.(rules := rules))
    else
      var _ :- Check(forall j :: j in rules ==> list.name !in rules[j].listNames, AmbiguousTarget);
      var lists :- BypassRemoved(rule.bypassNames, rules, w.lists - {rule.id}, env);
      Ok(w.(rules := rules, lists := lists))
  }

  function RequestedOu(a: Action, ou: string): string {
    if a.AddEntries? || a.CreateRule? then a.ou else ou
  }

  ghost function Step<R>(w: Work, a: Action, env: Env<R>): Outcome<Work> {
    var _ :- Check(RequestedOu(a, env.ou) == env.ou, AmbiguousTarget);
    match a
    case AddEntries(_, _, _, _) => Added(w, a, env)
    case CreateRule(entries, ou, bypass, notice, enabled) => Created(w, entries, notice, ou, bypass, enabled, env)
    case RemoveEntries(_, _) => EntriesRemoved(w, a, env)
    case UpdateRule(_, _, _, _, _) => Updated(w, a, env)
    case SetNotice(_, _) => Noticed(w, a, env)
    case SetEnabled(_, _) => Enabled(w, a, env)
    case RemoveRule(_, _) => Removed(w, a, env)
    case ListRules => Ok(w)
    case OtherSurface => Ok(w)
  }

  ghost function Run<R>(w: Work, plan: seq<Action>, env: Env<R>): Outcome<Work>
    decreases |plan|
  {
    if plan == [] then Ok(w)
    else
      var w' :- Step(w, plan[0], env);
      Run(w', plan[1..], env)
  }

  ghost predicate UniqueListNames(lists: map<Uid, AddressList>) {
    forall k, j :: k in lists && j in lists && k != j ==> lists[k].name != lists[j].name
  }

  ghost predicate UniqueNames(w: Work, unmanaged: seq<string>) {
    && (forall k, j :: k in w.rules && j in w.rules && k != j ==> w.rules[k].name != w.rules[j].name)
    && (forall k :: k in w.rules ==> w.rules[k].name !in unmanaged)
    && NoDuplicates(unmanaged)
    && UniqueListNames(w.lists)
  }

  function Start(s: State, ids: seq<Uid>): Work { Work(RuleMap(s), ListMap(s), ids, 0) }

  ghost function StateOf(w: Work, ou: string, unmanaged: seq<string>): State {
    State(ou, Listing(w.rules), Listing(w.lists), Sort(unmanaged, Below))
  }

  /** `calculate_desired_state` */
  ghost function Calculate<R>(before: State, plan: seq<Action>, registry: Registry<R>, ids: seq<Uid>,
      prefix: string): Outcome<Desired> {
    var w :- Run(Start(before, ids), plan, Env(before.ou, registry, prefix));
    var _ :- Check(UniqueNames(w, before.unmanaged), AmbiguousTarget);
    Ok(Desired(StateOf(w, before.ou, before.unmanaged), w.noticed))
  }

  ghost predicate WellKeyed(w: Work) {
    KeyedBy(w.rules, RuleId) && KeyedBy(w.lists, ListId)
  }

  lemma StartKeyed(s: State, ids: seq<Uid>)
    ensures WellKeyed(Start(s, ids))
  {
    IndexFacts(s.rules, RuleId);
    IndexFacts(s.lists, ListId);
  }
}
