/** Plans that only edit rules they name act on each rule and address as the last writer
    says, and running such a plan on its own result changes nothing. */
module Convergence {
  import opened Ordering
  import opened Keyed
  import opened Resources
  import opened Ownership
  import opened DesiredState
  import opened Entries
  import opened Changes
  import opened Integrity
  import opened Authorization
  import opened Diff

  predicate IsExactEdit(a: Action) {
    match a
    case AddEntries(entries, target, _, notice) => target.Some? && notice.None? && UniqueEntries(entries)
    case RemoveEntries(_, _) => true
    case SetNotice(_, _) => true
    case SetEnabled(_, _) => true
    case _ => false
  }

  ghost predicate ExactEdits(plan: seq<Action>) { forall i :: 0 <= i < |plan| ==> IsExactEdit(plan[i]) }

  function Target(a: Action): Uid
    requires IsExactEdit(a)
  {
    if a.AddEntries? then a.maybeTarget.value else a.target
  }

  /** What a series of edits does to one address of one list. */
  datatype Effect = Keep | Set(entry: Option<Entry>) | Offer(entry': Entry)

  function Apply(e: Effect, cell: Option<Entry>): Option<Entry> {
    match e
    case Keep => cell
    case Set(entry) => entry
    case Offer(entry) => if cell.None? then Some(entry) else cell
  }

  function Then(e: Effect, f: Effect): Effect {
    match f
    case Keep => e
    case Set(_) => f
    case Offer(entry) => if e.Keep? then f else if e == Set(None) then Set(Some(entry)) else e
  }

  function EffectOf(a: Action, k: Uid, x: string): Effect
    requires IsExactEdit(a)
  {
    if Target(a) != k then Keep
    else if a.AddEntries? && EntryOf(a.entries, x).Some? then Offer(EntryOf(a.entries, x).value)
    else if a.RemoveEntries? && x in Normalized(a.entries) then Set(None)
    else Keep
  }

  ghost function PlanEffect(plan: seq<Action>, k: Uid, x: string): Effect
    requires ExactEdits(plan)
  {
    if plan == [] then Keep
    else Then(PlanEffect(plan[..|plan| - 1], k, x), EffectOf(plan[|plan| - 1], k, x))
  }

  /** The notice set last for rule `k`, or the one it had. */
  ghost function NoticeAfter(plan: seq<Action>, k: Uid, notice: Option<string>): Option<string> {
    if plan == [] then notice
    else
      var a := plan[|plan| - 1];
      if a.SetNotice? && a.target == k then Some(a.text) else NoticeAfter(plan[..|plan| - 1], k, notice)
  }

  ghost function EnabledAfter(plan: seq<Action>, k: Uid, enabled: bool): bool {
    if plan == [] then enabled
    else
      var a := plan[|plan| - 1];
      if a.SetEnabled? && a.target == k then a.enabled else EnabledAfter(plan[..|plan| - 1], k, enabled)
  }

  ghost predicate Refilled(plan: seq<Action>, k: Uid)
    requires ExactEdits(plan)
  {
    exists i :: 0 <= i < |plan| && (plan[i].AddEntries? || plan[i].RemoveEntries?) && Target(plan[i]) == k
  }

  /** The same effect twice is the effect once. */
  lemma ApplyTwice(e: Effect, cell: Option<Entry>)
    ensures Apply(e, Apply(e, cell)) == Apply(e, cell)
  {
  }

  lemma {:induction false} NoticeTwice(plan: seq<Action>, k: Uid, notice: Option<string>)
    ensures NoticeAfter(plan, k, NoticeAfter(plan, k, notice)) == NoticeAfter(plan, k, notice)
  {
    if plan != [] { NoticeTwice(plan[..|plan| - 1], k, notice); }
  }

  lemma {:induction false} EnabledTwice(plan: seq<Action>, k: Uid, enabled: bool)
    ensures EnabledAfter(plan, k, EnabledAfter(plan, k, enabled)) == EnabledAfter(plan, k, enabled)
  {
    if plan != [] { EnabledTwice(plan[..|plan| - 1], k, enabled); }
  }

  /** Exact edits keep every name and relation. */
  ghost predicate SameShape(w: Work, v: Work) {
    && w.rules.Keys == v.rules.Keys && w.lists.Keys == v.lists.Keys
    && (forall k :: k in w.rules ==> SameIdentity(w.rules[k], v.rules[k]) && w.rules[k].bypassNames == v.rules[k].bypassNames)
    && (forall j :: j in w.lists ==> v.lists[j].id == w.lists[j].id && v.lists[j].name == w.lists[j].name)
  }

  ghost predicate TidyLists(w: Work) { forall j :: j in w.lists ==> UniqueEntries(w.lists[j].entries) }

  /** When an exact edit succeeds, and what it changes. */
  lemma ExactEditStep<R>(w: Work, a: Action, env: Env<R>)
    requires WellKeyed(w) && IsExactEdit(a)
    ensures Step(w, a, env).Ok? <==> Accepts(w, a, env)
    ensures Step(w, a, env).Ok? ==> var w' := Step(w, a, env).value; var k := Target(a);
      match a
      case AddEntries(entries, _, _, _) => k in w.lists && w' == w.(lists := WithEntries(w.lists, k,
          Combined(w.lists[k].entries, entries)))
      case RemoveEntries(entries, _) => k in w.lists && w' == w.(lists := WithEntries(w.lists, k,
          Absent(w.lists[k].entries, Normalized(entries))))
      case SetNotice(_, text) => k in w.rules && w' == w.(rules := w.rules[k := w.rules[k].(notice := Some(text))],
          noticed := w'.noticed)
      case _ => k in w.rules && w' == w.(rules := w.rules[k := w.rules[k].(enabled := a.enabled)])
  {
    var k := Target(a);
    if k in w.rules && OwnedRule(w.rules[k], env.registry, env.prefix) {
      if PrimaryList(w.rules[k], w.lists, env).Ok? { PrimaryMeansPair(w, w.rules[k], env); }
      if a.SetNotice? && w.rules[k].notice == Some(a.text) {
        assert w.rules == w.rules[k := w.rules[k].(notice := Some(a.text))];
      }
    }
  }

  ghost predicate Accepts<R>(w: Work, a: Action, env: Env<R>)
    requires IsExactEdit(a)
  {
    var k := Target(a);
    && RequestedOu(a, env.ou) == env.ou
    && k in w.rules && OwnedRule(w.rules[k], env.registry, env.prefix)
    && (if a.SetEnabled? then !w.rules[k].inherited else PrimaryList(w.rules[k], w.lists, env).Ok?)
  }

  lemma SameShapeAccepts<R>(w: Work, v: Work, a: Action, env: Env<R>)
    requires SameShape(w, v) && IsExactEdit(a)
    ensures Accepts(w, a, env) ==> Accepts(v, a, env)
  {
    var k := Target(a);
    if k in w.rules {
      forall n, j | IsOnlyNamed(w.lists, n, j) ensures IsOnlyNamed(v.lists, n, j) {}
    }
  }

  lemma ExactEditShape<R>(w: Work, a: Action, env: Env<R>)
    requires WellKeyed(w) && IsExactEdit(a) && Step(w, a, env).Ok?
    ensures WellKeyed(Step(w, a, env).value) && SameShape(w, Step(w, a, env).value)
    ensures TidyLists(w) ==> TidyLists(Step(w, a, env).value)
  {
    ExactEditStep(w, a, env);
    var k := Target(a);
    if TidyLists(w) && a.AddEntries? {
      CombinedFacts(w.lists[k].entries, a.entries);
      SortedStayUnique(Combined(w.lists[k].entries, a.entries));
    }
    if TidyLists(w) && a.RemoveEntries? {
      AbsentFacts(w.lists[k].entries, Normalized(a.entries));
      SortedStayUnique(Absent(w.lists[k].entries, Normalized(a.entries)));
    }
  }

  function Cell(w: Work, k: Uid, x: string): Option<Entry> {
    if k in w.lists then EntryOf(w.lists[k].entries, x) else None
  }

  lemma ExactEditCell<R>(w: Work, a: Action, env: Env<R>, k: Uid, x: string)
    requires WellKeyed(w) && TidyLists(w) && IsExactEdit(a) && Step(w, a, env).Ok? && k in w.lists
    ensures Cell(Step(w, a, env).value, k, x) == Apply(EffectOf(a, k, x), Cell(w, k, x))
  {
    ExactEditStep(w, a, env);
    if Target(a) == k && a.AddEntries? {
      CombinedFacts(w.lists[k].entries, a.entries);
      CombinedEntry(w.lists[k].entries, a.entries, x);
      SortedEntry(Combined(w.lists[k].entries, a.entries), x);
    }
    if Target(a) == k && a.RemoveEntries? {
      AbsentFacts(w.lists[k].entries, Normalized(a.entries));
      AbsentEntry(w.lists[k].entries, Normalized(a.entries), x);
      SortedEntry(Absent(w.lists[k].entries, Normalized(a.entries)), x);
    }
  }

  /** `Run` from the front is the last action after all the others. */
  lemma {:induction false} RunLast<R>(w: Work, plan: seq<Action>, a: Action, env: Env<R>)
    requires Run(w, plan + [a], env).Ok?
    ensures Run(w, plan, env).Ok? && Step(Run(w, plan, env).value, a, env) == Run(w, plan + [a], env)
    decreases |plan|
  {
    if plan == [] {
      assert (plan + [a])[1..] == [];
    } else {
      assert (plan + [a])[1..] == plan[1..] + [a];
      RunLast(Step(w, plan[0], env).value, plan[1..], a, env);
    }
  }

  lemma RunSplit<R>(w: Work, plan: seq<Action>, env: Env<R>)
    requires plan != [] && Run(w, plan, env).Ok?
    ensures Run(w, plan[..|plan| - 1], env).Ok?
    ensures Step(Run(w, plan[..|plan| - 1], env).value, plan[|plan| - 1], env) == Run(w, plan, env)
  {
    assert plan == plan[..|plan| - 1] + [plan[|plan| - 1]];
    RunLast(w, plan[..|plan| - 1], plan[|plan| - 1], env);
  }

  lemma {:induction false} ExactRunShape<R>(w: Work, plan: seq<Action>, env: Env<R>)
    requires WellKeyed(w) && ExactEdits(plan) && Run(w, plan, env).Ok?
    ensures WellKeyed(Run(w, plan, env).value) && SameShape(w, Run(w, plan, env).value)
    ensures TidyLists(w) ==> TidyLists(Run(w, plan, env).value)
    decreases |plan|
  {
    if plan != [] {
      ExactEditShape(w, plan[0], env);
      ExactRunShape(Step(w, plan[0], env).value, plan[1..], env);
    }
  }

  /** Each address of each list ends as the last writer left it. */
  lemma {:induction false} LastWriterWins<R>(w: Work, plan: seq<Action>, env: Env<R>, k: Uid, x: string)
    requires WellKeyed(w) && TidyLists(w) && ExactEdits(plan) && Run(w, plan, env).Ok? && k in w.lists
    ensures Cell(Run(w, plan, env).value, k, x) == Apply(PlanEffect(plan, k, x), Cell(w, k, x))
    decreases |plan|
  {
    if plan != [] {
      var init := plan[..|plan| - 1];
      RunSplit(w, plan, env);
      LastWriterWins(w, init, env, k, x);
      ExactRunShape(w, init, env);
      ExactEditCell(Run(w, init, env).value, plan[|plan| - 1], env, k, x);
    }
  }

  /** Whether the last action that mentions an address adds it, if one mentions it. */
  ghost function LastMention(plan: seq<Action>, k: Uid, x: string): Option<bool>
    requires ExactEdits(plan)
  {
    if plan == [] then None
    else
      var a := plan[|plan| - 1];
      if (a.AddEntries? || a.RemoveEntries?) && Target(a) == k && x in Normalized(a.entries) then Some(a.AddEntries?)
      else LastMention(plan[..|plan| - 1], k, x)
  }

  lemma {:induction false} EffectIsLastMention(plan: seq<Action>, k: Uid, x: string, cell: Option<Entry>)
    requires ExactEdits(plan)
    ensures Apply(PlanEffect(plan, k, x), cell).Some? <==> LastMention(plan, k, x).GetOr(cell.Some?)
  {
    if plan != [] {
      EffectIsLastMention(plan[..|plan| - 1], k, x, cell);
      var a := plan[|plan| - 1];
      if a.AddEntries? { EntryOfFacts(a.entries, x); }
    }
  }

  /** An address is listed afterwards exactly when the last action mentioning it adds it,
      or none does and it was listed before. */
  lemma AddressListedAfter<R>(w: Work, plan: seq<Action>, env: Env<R>, k: Uid, x: string)
    requires WellKeyed(w) && TidyLists(w) && ExactEdits(plan) && Run(w, plan, env).Ok? && k in w.lists
    ensures Cell(Run(w, plan, env).value, k, x).Some? <==> LastMention(plan, k, x).GetOr(Cell(w, k, x).Some?)
  {
    LastWriterWins(w, plan, env, k, x);
    EffectIsLastMention(plan, k, x, Cell(w, k, x));
  }

  /** So does each rule's notice and enabled flag; nothing else of a rule changes. */
  lemma {:induction false} LastSettingWins<R>(w: Work, plan: seq<Action>, env: Env<R>, k: Uid)
    requires WellKeyed(w) && ExactEdits(plan) && Run(w, plan, env).Ok? && k in w.rules
    ensures var w' := Run(w, plan, env).value;
      k in w'.rules && w'.rules[k] == w.rules[k].(notice := NoticeAfter(plan, k, w.rules[k].notice),
          enabled := EnabledAfter(plan, k, w.rules[k].enabled))
    decreases |plan|
  {
    if plan != [] {
      var init := plan[..|plan| - 1];
      RunSplit(w, plan, env);
      LastSettingWins(w, init, env, k);
      ExactRunShape(w, init, env);
      ExactEditStep(Run(w, init, env).value, plan[|plan| - 1], env);
    }
  }

  lemma {:induction false} RefilledIsSorted<R>(w: Work, plan: seq<Action>, env: Env<R>, k: Uid)
    requires WellKeyed(w) && ExactEdits(plan) && Run(w, plan, env).Ok? && k in w.lists
    ensures var w' := Run(w, plan, env).value;
      k in w'.lists && if Refilled(plan, k) then Ascending(w'.lists[k].entries, EntryLe) else w'.lists[k] == w.lists[k]
    decreases |plan|
  {
    if plan != [] {
      var init, a := plan[..|plan| - 1], plan[|plan| - 1];
      RunSplit(w, plan, env);
      RefilledIsSorted(w, init, env, k);
      ExactRunShape(w, init, env);
      var v := Run(w, init, env).value;
      ExactEditStep(v, a, env);
      if a.AddEntries? { SortEntriesFacts(Combined(v.lists[Target(a)].entries, a.entries)); }
      if a.RemoveEntries? { SortEntriesFacts(Absent(v.lists[Target(a)].entries, Normalized(a.entries))); }
      RefilledLast(plan, k);
    }
  }

  lemma RefilledLast(plan: seq<Action>, k: Uid)
    requires plan != [] && ExactEdits(plan)
    ensures var a := plan[|plan| - 1];
      Refilled(plan, k) <==> Refilled(plan[..|plan| - 1], k) || ((a.AddEntries? || a.RemoveEntries?) && Target(a) == k)
  {
  }

  lemma SameShapeSquare(w: Work, v: Work, w': Work, v': Work)
    requires SameShape(w, v) && SameShape(w, w') && SameShape(v, v')
    ensures SameShape(w', v')
  {
  }

  lemma {:induction false} SameShapeRuns<R>(w: Work, v: Work, plan: seq<Action>, env: Env<R>)
    requires WellKeyed(w) && WellKeyed(v) && SameShape(w, v) && ExactEdits(plan)
    requires Run(w, plan, env).Ok?
    ensures Run(v, plan, env).Ok?
    decreases |plan|
  {
    if plan != [] {
      var a := plan[0];
      ExactEditStep(w, a, env);
      SameShapeAccepts(w, v, a, env);
      ExactEditStep(v, a, env);
      ExactEditShape(w, a, env);
      ExactEditShape(v, a, env);
      SameShapeSquare(w, v, Step(w, a, env).value, Step(v, a, env).value);
      SameShapeRuns(Step(w, a, env).value, Step(v, a, env).value, plan[1..], env);
    }
  }

  /** Running the plan once more from its own result changes no rule and no list. */
  lemma SecondRun<R>(w: Work, v: Work, plan: seq<Action>, env: Env<R>)
    requires WellKeyed(w) && TidyLists(w) && ExactEdits(plan) && Run(w, plan, env).Ok?
    requires var w' := Run(w, plan, env).value; v.rules == w'.rules && v.lists == w'.lists
    ensures Run(v, plan, env).Ok?
    ensures Run(v, plan, env).value.rules == v.rules && Run(v, plan, env).value.lists == v.lists
  {
    ExactRunShape(w, plan, env);
    SameShapeRuns(w, v, plan, env);
    ExactRunShape(v, plan, env);
    var v' := Run(v, plan, env).value;
    forall k | k in v.rules ensures v'.rules[k] == v.rules[k] {
      LastSettingWins(w, plan, env, k);
      LastSettingWins(v, plan, env, k);
      NoticeTwice(plan, k, w.rules[k].notice);
      EnabledTwice(plan, k, w.rules[k].enabled);
    }
    forall k | k in v.lists ensures v'.lists[k] == v.lists[k] {
      RefilledIsSorted(w, plan, env, k);
      RefilledIsSorted(v, plan, env, k);
      if Refilled(plan, k) {
        forall x ensures EntryOf(v'.lists[k].entries, x) == EntryOf(v.lists[k].entries, x) {
          LastWriterWins(w, plan, env, k, x);
          LastWriterWins(v, plan, env, k, x);
          ApplyTwice(PlanEffect(plan, k, x), Cell(w, k, x));
        }
        SameEntriesSameList(v'.lists[k].entries, v.lists[k].entries);
      }
    }
  }

  /** Recomputing a plan of exact edits on its own desired state gives that state and no mutation. */
  lemma ExactEditsConverge<R>(before: State, plan: seq<Action>, registry: Registry<R>, ids: seq<Uid>, ids': seq<Uid>,
      prefix: string)
    requires TidyLists(Start(before, ids)) && ExactEdits(plan)
    requires Calculate(before, plan, registry, ids, prefix).Ok?
    ensures var after := Calculate(before, plan, registry, ids, prefix).value.state;
      var again := Calculate(after, plan, registry, ids', prefix);
      again.Ok? && again.value.state == after && !HasMutations(CalculateChangeSet(after, again.value.state))
  {
    var env := Env(before.ou, registry, prefix);
    var w := Start(before, ids);
    var w' := Run(w, plan, env).value;
    var after := Calculate(before, plan, registry, ids, prefix).value.state;
    StartKeyed(before, ids);
    RunKeyed(w, plan, env);
    StateOfMaps(w', before.ou, before.unmanaged);
    SecondRun(w, Start(after, ids'), plan, env);
    BelowIsTotalPreorder();
    SortFacts(before.unmanaged, Below);
    SortOfAscending(after.unmanaged, Below);
    SortedNamesStayUnique(before.unmanaged, w');
    ChangeSetIsExactPatch(after, after);
  }

  lemma NameTwice(s: seq<string>, i: int, j: int)
    requires 0 <= i < j < |s| && s[i] == s[j]
    ensures multiset(s)[s[i]] >= 2
  {
    assert s == s[..i] + [s[i]] + s[i + 1..j] + [s[j]] + s[j + 1..];
  }

  lemma SortedNames(s: seq<string>)
    requires NoDuplicates(s)
    ensures NoDuplicates(Sort(s, Below))
    ensures forall n :: n in Sort(s, Below) <==> n in s
  {
    BelowIsTotalPreorder();
    SortFacts(s, Below);
    var t := Sort(s, Below);
    forall n ensures n in t <==> n in s { assert n in multiset(t) <==> n in multiset(s); }
    forall i, j | 0 <= i < j < |t| ensures t[i] != t[j] {
      NameOnce(s, t[i]);
      if t[i] == t[j] { NameTwice(t, i, j); }
    }
  }

  lemma SortedNamesStayUnique(unmanaged: seq<string>, w: Work)
    requires UniqueNames(w, unmanaged)
    ensures UniqueNames(w, Sort(unmanaged, Below))
  {
    SortedNames(unmanaged);
  }

  lemma {:induction false} NameOnce(s: seq<string>, n: string)
    requires NoDuplicates(s)
    ensures multiset(s)[n] <= 1
  {
    if s != [] {
      NameOnce(s[1..], n);
      assert s == [s[0]] + s[1..];
      assert s[0] == n ==> n !in s[1..];
    }
  }
}
