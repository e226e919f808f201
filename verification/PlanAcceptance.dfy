/** Exactly when an action of a plan is accepted, on dictionaries whose rules are linked. */
module PlanAcceptance {
  import opened Keyed
  import opened Resources
  import opened Ownership
  import opened DesiredState
  import opened Changes
  import opened Integrity
  import opened PlanOutcomes

  /** Every list with one of these names has matching evidence. */
  ghost predicate NamedOwned<R>(lists: map<Uid, AddressList>, names: seq<string>, env: Env<R>) {
    forall j :: j in lists && lists[j].name in names ==> OwnedList(lists[j], env.registry, env.prefix)
  }

  ghost predicate Resolve(names: seq<string>, lists: map<Uid, AddressList>) {
    forall n :: n in names ==> exists j :: IsOnlyNamed(lists, n, j)
  }

  /** Rule `k` and its own list have matching evidence. */
  ghost predicate Held<R>(w: Work, k: Uid, env: Env<R>) {
    && k in w.rules && OwnedRule(w.rules[k], env.registry, env.prefix)
    && k in w.lists && OwnedList(w.lists[k], env.registry, env.prefix)
  }

  /** A rule can be created: its IDs are there and free, and no list repeats an address. */
  ghost predicate CanCreate(w: Work, entries: seq<Entry>, bypass: seq<Entry>) {
    && w.ids != [] && w.ids[0] !in w.rules && w.ids[0] !in w.lists && UniqueEntries(entries)
    && (bypass != [] ==> |w.ids| > 1 && UniqueEntries(bypass))
  }

  ghost predicate Wants(w: Work, notice: Option<string>, k: Uid) { k in w.rules && w.rules[k].notice == notice }

  ghost predicate Accepted<R>(w: Work, a: Action, env: Env<R>) {
    match a
    case CreateRule(entries, ou, bypass, _, _) => ou == env.ou && CanCreate(w, entries, bypass)
    case AddEntries(entries, target, ou, notice) =>
      && ou == env.ou
      && if target.Some? then
           && Held(w, target.value, env)
           && (notice.Some? && notice != w.rules[target.value].notice ==> CanCreate(w, entries, []))
         else
           && (forall k :: Wants(w, notice, k) ==> Held(w, k, env))
           && (forall k, i :: Wants(w, notice, k) && Wants(w, notice, i) ==> k == i)
           && ((forall k :: !Wants(w, notice, k)) ==> CanCreate(w, entries, []))
    case RemoveEntries(_, target) => Held(w, target, env)
    case SetNotice(target, _) => Held(w, target, env)
    case SetEnabled(target, _) => target in w.rules && OwnedRule(w.rules[target], env.registry, env.prefix) && !w.rules[target].inherited
    case UpdateRule(target, _, bypass, _, _) =>
      && Held(w, target, env) && !w.rules[target].inherited && NamedOwned(w.lists, w.rules[target].bypassNames, env)
      && (bypass != [] && w.rules[target].bypassNames == [] ==> w.ids != [] && UniqueEntries(bypass))
    case RemoveRule(target, withList) => Held(w, target, env) && (withList ==> NamedOwned(w.lists, w.rules[target].bypassNames, env))
    case ListRules => true
    case OtherSurface => true
  }

  lemma PrimarySucceeds<R>(w: Work, k: Uid, env: Env<R>)
    requires WellKeyed(w) && Linked(w.rules, w.lists) && k in w.rules
    ensures k in w.lists
    ensures PrimaryList(w.rules[k], w.lists, env).Ok? <==> OwnedList(w.lists[k], env.registry, env.prefix)
  {
    assert RuleLinked(w.rules[k], k, w.lists);
  }

  lemma {:induction false} OwnedBypassSucceeds<R>(names: seq<string>, lists: map<Uid, AddressList>, env: Env<R>)
    requires Resolve(names, lists)
    ensures OwnedBypass(names, lists, env).Ok? <==> NamedOwned(lists, names, env)
  {
    if names != [] {
      assert names[0] in names;
      var j :| IsOnlyNamed(lists, names[0], j);
      assert forall n :: n in names[1..] ==> n in names;
      OwnedBypassSucceeds(names[1..], lists, env);
      assert forall n :: n in names <==> n == names[0] || n in names[1..];
    }
  }

  lemma WithoutOne(names: seq<string>, lists: map<Uid, AddressList>, j: Uid)
    requires names != [] && NoDuplicates(names) && Resolve(names, lists) && IsOnlyNamed(lists, names[0], j)
    ensures NoDuplicates(names[1..]) && Resolve(names[1..], lists - {j})
    ensures forall i :: i in lists - {j} ==> lists[i].name != names[0]
  {
    forall n | n in names[1..] ensures exists i :: IsOnlyNamed(lists - {j}, n, i) {
      assert n in names && n != names[0];
      var i :| IsOnlyNamed(lists, n, i);
      assert IsOnlyNamed(lists - {j}, n, i);
    }
  }

  lemma {:induction false} BypassRemovalSucceeds<R>(names: seq<string>, rules: map<Uid, Rule>, lists: map<Uid, AddressList>, env: Env<R>)
    requires NoDuplicates(names) && Resolve(names, lists)
    requires forall i, n :: i in rules && n in names ==> n !in rules[i].bypassNames
    ensures BypassRemoved(names, rules, lists, env).Ok? <==> NamedOwned(lists, names, env)
  {
    if names != [] {
      assert names[0] in names;
      var j :| IsOnlyNamed(lists, names[0], j);
      WithoutOne(names, lists, j);
      assert forall n :: n in names[1..] ==> n in names;
      BypassRemovalSucceeds(names[1..], rules, lists - {j}, env);
      assert forall n :: n in names <==> n == names[0] || n in names[1..];
    }
  }

  lemma BypassResolves(w: Work, k: Uid)
    requires Linked(w.rules, w.lists) && k in w.rules
    ensures Resolve(w.rules[k].bypassNames, w.lists) && NoDuplicates(w.rules[k].bypassNames)
    ensures forall n :: n in w.rules[k].bypassNames ==> n != w.rules[k].listNames[0]
  {
    assert RuleLinked(w.rules[k], k, w.lists);
    LinkedNamesDiffer(w.rules[k], k, w.lists);
    assert forall n :: n in w.rules[k].bypassNames ==> n in Refs(w.rules[k]);
  }

  lemma TargetSucceeds<R>(w: Work, k: Uid, env: Env<R>)
    requires WellKeyed(w) && Linked(w.rules, w.lists)
    ensures Held(w, k, env) <==> OwnedTarget(k, w, env).Ok? && PrimaryList(OwnedTarget(k, w, env).value, w.lists, env).Ok?
    ensures Held(w, k, env) ==> OwnedTarget(k, w, env) == Ok(w.rules[k]) && PrimaryList(w.rules[k], w.lists, env) == Ok(w.lists[k]) && w.rules[k].id == k
  {
    if k in w.rules { PrimarySucceeds(w, k, env); }
  }

  lemma RefilledResolves<R>(w: Work, k: Uid, entries: seq<Entry>, env: Env<R>)
    requires WellKeyed(w) && Linked(w.rules, w.lists) && k in w.rules && k in w.lists
    ensures var names, lists := w.rules[k].bypassNames, WithEntries(w.lists, k, entries);
      OwnedBypass(names, lists, env).Ok? <==> NamedOwned(w.lists, names, env)
  {
    var names, lists := w.rules[k].bypassNames, WithEntries(w.lists, k, entries);
    BypassResolves(w, k);
    forall n | n in names ensures exists j :: IsOnlyNamed(lists, n, j) {
      var j :| IsOnlyNamed(w.lists, n, j);
      assert IsOnlyNamed(lists, n, j);
    }
    OwnedBypassSucceeds(names, lists, env);
    assert forall j :: j in lists ==> lists[j].name == w.lists[j].name && lists[j].id == w.lists[j].id;
    assert NamedOwned(lists, names, env) <==> NamedOwned(w.lists, names, env);
  }

  lemma ReboundAccepted<R>(w: Work, a: Action, lists: map<Uid, AddressList>, existing: seq<Uid>, env: Env<R>)
    requires a.UpdateRule? && a.target in w.rules && Rebinding(w, a.target, lists, existing, env)
    requires NoDuplicates(Refs(w.rules[a.target]))
    ensures Rebound(w, a, env, w.rules[a.target], lists, existing).Ok? <==>
      (a.bypass != [] && w.rules[a.target].bypassNames == [] ==> w.ids != [] && UniqueEntries(a.bypass))
  {
    ExistingApart(w, a.target, lists, existing, env);
    if existing != [] { assert OwnedNamed(w.lists, w.rules[a.target].bypassNames[0], existing[0], env); }
    assert forall i, j :: 0 <= i < j < |existing| - 1 ==> existing[1..][i] != existing[1..][j];
  }

  lemma UpdateAccepted<R>(w: Work, a: Action, env: Env<R>)
    requires WellKeyed(w) && Linked(w.rules, w.lists) && a.UpdateRule?
    ensures Step(w, a, env).Ok? <==> Accepted(w, a, env)
  {
    var k := a.target;
    TargetSucceeds(w, k, env);
    if Held(w, k, env) && !w.rules[k].inherited {
      RefilledResolves(w, k, a.entries, env);
      if NamedOwned(w.lists, w.rules[k].bypassNames, env) {
        PrimaryMeansPair(w, w.rules[k], env);
        UpdateStarts(w, w.rules[k], a.entries, env);
        assert RuleLinked(w.rules[k], k, w.lists);
        var lists := WithEntries(w.lists, k, a.entries);
        ReboundAccepted(w, a, lists, OwnedBypass(w.rules[k].bypassNames, lists, env).value, env);
      }
    }
  }

  lemma RestResolves<R>(w: Work, k: Uid, env: Env<R>)
    requires WellKeyed(w) && Linked(w.rules, w.lists) && k in w.rules && k in w.lists
    ensures var names := w.rules[k].bypassNames;
      BypassRemoved(names, w.rules - {k}, w.lists - {k}, env).Ok? <==> NamedOwned(w.lists, names, env)
  {
    var names := w.rules[k].bypassNames;
    BypassResolves(w, k);
    assert RuleLinked(w.rules[k], k, w.lists);
    forall n | n in names ensures exists j :: IsOnlyNamed(w.lists - {k}, n, j) {
      var j :| IsOnlyNamed(w.lists, n, j);
      assert IsOnlyNamed(w.lists - {k}, n, j);
    }
    forall i, n | i in w.rules - {k} && n in names ensures n !in w.rules[i].bypassNames {
      assert n in Refs(w.rules[k]) && DisjointRefs(w.rules[k], w.rules[i]);
    }
    BypassRemovalSucceeds(names, w.rules - {k}, w.lists - {k}, env);
    assert NamedOwned(w.lists - {k}, names, env) <==> NamedOwned(w.lists, names, env);
  }

  lemma RemoveAccepted<R>(w: Work, a: Action, env: Env<R>)
    requires WellKeyed(w) && Linked(w.rules, w.lists) && a.RemoveRule?
    ensures Step(w, a, env).Ok? <==> Accepted(w, a, env)
  {
    var k := a.target;
    TargetSucceeds(w, k, env);
    if Held(w, k, env) {
      RestResolves(w, k, env);
      assert RuleLinked(w.rules[k], k, w.lists);
      forall j | j in w.rules && j != k ensures w.lists[k].name !in w.rules[j].listNames {
        assert w.lists[k].name in Refs(w.rules[k]) && DisjointRefs(w.rules[k], w.rules[j]);
      }
    }
  }

  lemma UntargetedAccepted<R>(w: Work, a: Action, env: Env<R>)
    requires WellKeyed(w) && Linked(w.rules, w.lists) && a.AddEntries? && a.maybeTarget.None?
    ensures AddTarget(w, None, a.notice, env).Ok? <==>
      && (forall k :: Wants(w, a.notice, k) ==> Held(w, k, env))
      && (forall k, i :: Wants(w, a.notice, k) && Wants(w, a.notice, i) ==> k == i)
  {
    forall k ensures Wants(w, a.notice, k) <==> IsCandidate(w.rules, a.notice, k) {}
    forall k | k in w.rules ensures Held(w, k, env) <==> OwnedRule(w.rules[k], env.registry, env.prefix) && PrimaryList(w.rules[k], w.lists, env).Ok? {
      PrimarySucceeds(w, k, env);
    }
  }

  lemma AddAccepted<R>(w: Work, a: Action, env: Env<R>)
    requires WellKeyed(w) && Linked(w.rules, w.lists) && a.AddEntries?
    ensures Step(w, a, env).Ok? <==> Accepted(w, a, env)
  {
    if a.maybeTarget.Some? {
      TargetSucceeds(w, a.maybeTarget.value, env);
    } else {
      UntargetedAccepted(w, a, env);
      if AddTarget(w, None, a.notice, env).Ok? {
        AddTargetOutcome(w, a, env);
        var t := AddTarget(w, None, a.notice, env).value;
        if t.Some? {
          assert Wants(w, a.notice, t.value.id);
          TargetSucceeds(w, t.value.id, env);
        }
      }
    }
  }

  lemma OtherAccepted<R>(w: Work, a: Action, env: Env<R>)
    requires WellKeyed(w) && Linked(w.rules, w.lists) && !a.AddEntries? && !a.UpdateRule? && !a.RemoveRule?
    ensures Step(w, a, env).Ok? <==> Accepted(w, a, env)
  {
    if a.RemoveEntries? { TargetSucceeds(w, a.target, env); }
    if a.SetNotice? { TargetSucceeds(w, a.target, env); }
  }

  /** An action on linked rules succeeds if and only if the resources it needs are there with
      matching evidence, its target is not inherited where it must not be, and the IDs and
      entries of what it creates are in order. */
  lemma AcceptedIff<R>(w: Work, a: Action, env: Env<R>)
    requires WellKeyed(w) && Linked(w.rules, w.lists)
    ensures Step(w, a, env).Ok? <==> Accepted(w, a, env)
  {
    match a
    case AddEntries(_, _, _, _) => AddAccepted(w, a, env);
    case UpdateRule(_, _, _, _, _) => UpdateAccepted(w, a, env);
    case RemoveRule(_, _) => RemoveAccepted(w, a, env);
    case _ => OtherAccepted(w, a, env);
  }

  /** The rule an action is aimed at. */
  function Aim(a: Action): Option<Uid> {
    match a
    case AddEntries(_, target, _, _) => target
    case RemoveEntries(_, target) => Some(target)
    case SetNotice(target, _) => Some(target)
    case SetEnabled(target, _) => Some(target)
    case UpdateRule(target, _, _, _, _) => Some(target)
    case RemoveRule(target, _) => Some(target)
    case _ => None
  }

  /** Why an aimed action is refused: a rule that is not there, or is inherited where it must not be,
      is no target; a rule or list without matching evidence is not owned. */
  lemma RefusalIs<R>(w: Work, a: Action, env: Env<R>, k: Uid)
    requires WellKeyed(w) && Linked(w.rules, w.lists) && Aim(a) == Some(k) && (a.AddEntries? ==> a.ou == env.ou)
    ensures k !in w.rules ==> Step(w, a, env) == Err(AmbiguousTarget)
    ensures k in w.rules ==> k in w.lists
    ensures k in w.rules && !OwnedRule(w.rules[k], env.registry, env.prefix) ==> Step(w, a, env) == Err(OwnershipNotEstablished)
    ensures k in w.rules && OwnedRule(w.rules[k], env.registry, env.prefix) && w.rules[k].inherited && (a.SetEnabled? || a.UpdateRule?) ==>
      Step(w, a, env) == Err(AmbiguousTarget)
    ensures k in w.rules && OwnedRule(w.rules[k], env.registry, env.prefix) && !OwnedList(w.lists[k], env.registry, env.prefix) ==>
      a.SetEnabled? || (a.UpdateRule? && w.rules[k].inherited) || Step(w, a, env) == Err(OwnershipNotEstablished)
  {
    if k in w.rules {
      assert RuleLinked(w.rules[k], k, w.lists);
      PrimarySucceeds(w, k, env);
    }
  }

  /** An action for another unit than the plan's is refused before anything else. */
  lemma OtherUnitRefused<R>(w: Work, a: Action, env: Env<R>)
    requires (a.CreateRule? || a.AddEntries?) && a.ou != env.ou
    ensures Step(w, a, env) == Err(AmbiguousTarget)
  {
  }
}
