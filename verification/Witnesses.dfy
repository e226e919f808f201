/** Concrete inputs on which a promise is broken; each is an instance of a condition proved exact
    elsewhere. */
module Witnesses {
  import opened Ordering
  import opened Keyed
  import opened Resources
  import opened Ownership
  import opened DesiredState
  import opened Integrity
  import opened Diff
  import opened Lifecycle
  import opened Closure
  import opened Reconciliation
  import opened Succession
  import opened MatchedCommit
  import opened SteadyPlans
  import opened Baseline
  import opened DriverRead
  import opened Compliance
  import opened ComplianceFold
  import opened Json
  import opened Scanner
  import opened ScannerRoundTrip
  import opened AuditChain
  import opened AuditFile

  const A := "aaaaaaaa"
  const B := "bbbbbbbb"

  const RULE := Rule(A, RuleName("P", A), "/", [ListName("P", A)], [], None, true, false)
  const LIST := AddressList(A, ListName("P", A), [])
  const OBSERVED := State("/", [RULE], [LIST], [])
  const PLAN := [UpdateRule(A, [], [ENTRY], None, true)]

  function Evidence<R>(): Registry<R> {
    Registry([RuleRecord(A, RuleName("P", A), ListName("P", A), "/", 0, None, None)], [], [])
  }

  lemma ObservedMaps()
    ensures RuleMap(OBSERVED) == map[A := RULE] && ListMap(OBSERVED) == map[A := LIST]
  {
    assert Index([RULE][..0], RuleId) == map[];
    assert Index([LIST][..0], ListId) == map[];
  }

  lemma NamesApart()
    ensures !NewName(ListName("P", A), B, [B], "P")
  {
    var n, m := ListName("P", A), ListName("P", B);
    assert n[|n| - 1] == 'a' && m[|m| - 1] == 'b';
    assert |BypassName("P", B)| == |n| + 7;
  }

  lemma ObservedIsPrepared<R>()
    ensures Prepared<R>(OBSERVED, Evidence(), [B], "P") && AllOwned<R>(OBSERVED, Evidence(), "P")
  {
    ObservedMaps();
    NamesApart();
    NamesAreMarked("P", A);
    assert IsOnlyNamed(map[A := LIST], ListName("P", A), A);
    assert RuleLinked(RULE, A, map[A := LIST]);
  }

  function Remembered<R>(): Registry<R> {
    Registry([RuleRecord(A, RuleName("P", A), ListName("P", A), "/", 0, Some(RULE), Some(LIST))], [], [])
  }

  /** The premises of the baseline round trip can be met. */
  lemma ObservedIsRemembered<R>()
    ensures Prepared<R>(OBSERVED, Remembered(), [B], "P") && AllOwned<R>(OBSERVED, Remembered(), "P")
    ensures Remembers<R>(Remembered(), OBSERVED) && NamesUnknown<R>(Remembered(), [B], "P")
  {
    ObservedMaps();
    NamesApart();
    NamesAreMarked("P", A);
    assert IsOnlyNamed(map[A := LIST], ListName("P", A), A);
    assert RuleLinked(RULE, A, map[A := LIST]);
    var record := RuleRecord(A, RuleName("P", A), ListName("P", A), "/", 0, Some(RULE), Some(LIST));
    assert Index([record][..0], RuleRecordId) == map[];
    assert Index([record], RuleRecordId) == map[A := record];
  }

  const ENTRY := Entry(Domain, "x.org", "x.org")
  const BOUND := RULE.(bypassNames := [BypassName("P", B)])

  lemma PlanRuns<R>()
    ensures var w := Step<R>(Start(OBSERVED, [B]), PLAN[0], Env("/", Evidence(), "P"));
      && w.Ok? && w.value.rules == map[A := BOUND]
      && w.value.lists == map[A := LIST, B := AddressList(B, BypassName("P", B), SortEntries([ENTRY]))]
  {
    ObservedMaps();
    NamesAreMarked("P", A);
    var env: Env<R> := Env("/", Evidence(), "P");
    var w := Start(OBSERVED, [B]);
    var m := map[A := LIST];
    assert IsOnlyNamed(m, ListName("P", A), A);
    assert OwnedTarget(A, w, env) == Ok(RULE);
    assert PrimaryList(RULE, m, env) == Ok(LIST);
    assert WithEntries(m, A, []) == m;
    assert OwnedBypass([], m, env) == Ok([]);
    assert UniqueEntries([ENTRY]);
    assert map[A := RULE][A := BOUND] == map[A := BOUND];
  }

  lemma CalculateIs<R>(before: State, plan: seq<Action>, registry: Registry<R>, ids: seq<Uid>, prefix: string, w: Work)
    requires Run(Start(before, ids), plan, Env(before.ou, registry, prefix)) == Ok(w)
    requires WellKeyed(w) && UniqueNames(w, before.unmanaged)
    ensures var r := Calculate(before, plan, registry, ids, prefix);
      && r.Ok? && UniqueIds(r.value.state)
      && RuleMap(r.value.state) == w.rules && ListMap(r.value.state) == w.lists
  {
    StateOfMaps(w, before.ou, before.unmanaged);
  }

  lemma PlanCalculates<R>()
    ensures var r := Calculate<R>(OBSERVED, PLAN, Evidence(), [B], "P");
      r.Ok? && RuleMap(r.value.state) == map[A := BOUND]
  {
    var env: Env<R> := Env("/", Evidence(), "P");
    var b := Start(OBSERVED, [B]);
    PlanRuns<R>();
    var w := Step(b, PLAN[0], env).value;
    assert PLAN[1..] == [];
    assert Run(w, PLAN[1..], env) == Ok(w);
    assert Run(b, PLAN, env) == Ok(w);
    assert |ListName("P", A)| != |BypassName("P", B)|;
    CalculateIs<R>(OBSERVED, PLAN, Evidence(), [B], "P", w);
  }

  /** Adding a bypass list to an existing rule is planned, but its evidence is never committed. */
  lemma AddedBypassBlocksTheCommit<R>(now: int)
    ensures var r := Calculate<R>(OBSERVED, PLAN, Evidence(), [B], "P");
      && r.Ok? && Verify(r.value.state, Some(r.value.state)) == Matched
      && CommitVerified<R>(Evidence(), CalculateChangeSet(OBSERVED, r.value.state), Matched, r.value.state,
          Some(r.value.state), now).Err?
  {
    ObservedMaps();
    ObservedIsPrepared<R>();
    PlanCalculates<R>();
    OwnershipClosure<R>(OBSERVED, PLAN, Evidence(), [B], "P", Some(Calculate<R>(OBSERVED, PLAN, Evidence(), [B], "P").value.state), now);
    assert BOUND.bypassNames != RULE.bypassNames;
  }

  const EMPTY := State("/", [], [], [])
  const BIRTH := [CreateRule([ENTRY], "/", [ENTRY], None, true)]

  function NoRecords<R>(): Registry<R> { Registry([], [], []) }

  function BornState(id: Uid, bid: Uid): Work {
    var rule := Rule(id, RuleName("P", id), "/", [ListName("P", id)], [BypassName("P", bid)], None, true, false);
    Work(map[id := rule], map[id := AddressList(id, ListName("P", id), SortEntries([ENTRY])),
        bid := AddressList(bid, BypassName("P", bid), SortEntries([ENTRY]))], [], 0)
  }

  /** Creating one rule with a bypass list in an empty unit. */
  lemma BirthCalculates<R>(id: Uid, bid: Uid)
    requires id != bid && |Short(id)| == |Short(bid)|
    ensures var r := Calculate<R>(EMPTY, BIRTH, NoRecords(), [id, bid], "P");
      && r.Ok? && UniqueIds(r.value.state)
      && RuleMap(r.value.state) == BornState(id, bid).rules && ListMap(r.value.state) == BornState(id, bid).lists
  {
    var env: Env<R> := Env("/", NoRecords(), "P");
    var b, w := Start(EMPTY, [id, bid]), BornState(id, bid);
    assert UniqueEntries([ENTRY]);
    assert b.rules == map[] && b.lists == map[];
    assert b.ids[2..] == [];
    var c := Created(b, [ENTRY], None, "/", [ENTRY], true, env);
    assert c.value.rules == w.rules && c.value.lists == w.lists;
    assert Step(b, BIRTH[0], env) == Ok(w);
    assert BIRTH[1..] == [];
    assert Run(w, BIRTH[1..], env) == Ok(w);
    assert Run(b, BIRTH, env) == Ok(w);
    assert |ListName("P", id)| != |BypassName("P", bid)|;
    CalculateIs<R>(EMPTY, BIRTH, NoRecords(), [id, bid], "P", w);
  }

  lemma TwoListsListed(after: State, i: Uid, j: Uid)
    requires i in ListMap(after) && j in ListMap(after) && i != j
    ensures |after.lists| >= 2
  {
    IndexFacts(after.lists, ListId);
    assert ListMap(after)[i] in after.lists && ListMap(after)[j] in after.lists;
  }

  /** The lists of a verified read-back in another order: the evidence is refused, while the
      expected order is committed. */
  lemma ReorderedReadBlocksTheCommit<R>(now: int)
    ensures var r := Calculate<R>(EMPTY, BIRTH, NoRecords(), [A, B], "P"); r.Ok? && |r.value.state.lists| >= 2
    ensures var after := Calculate<R>(EMPTY, BIRTH, NoRecords(), [A, B], "P").value.state;
      var (cs, swapped) := (CalculateChangeSet(EMPTY, after), Some(after.(lists := Swapped(after.lists))));
      && Verify(after, Some(after)) == Matched && CommitVerified<R>(NoRecords(), cs, Matched, after, Some(after), now).Ok?
      && Verify(after, swapped) == Matched && CommitVerified<R>(NoRecords(), cs, Matched, after, swapped, now).Err?
  {
    BirthCalculates<R>(A, B);
    TwoListsListed(Calculate<R>(EMPTY, BIRTH, NoRecords(), [A, B], "P").value.state, A, B);
    EmptyIsPrepared<R>();
    OneOrderCommits<R>(EMPTY, BIRTH, NoRecords(), [A, B], "P", now);
  }

  lemma EmptyIsPrepared<R>()
    ensures Prepared<R>(EMPTY, NoRecords(), [A, B], "P") && AllOwned<R>(EMPTY, NoRecords(), "P")
  {
  }

  /** Two UUIDs with the same first eight digits, the bypass list's first: a complete write reads
      back in another order and is not verified. */
  lemma EqualPrefixesFailVerification<R>() returns (page: Page)
    ensures Calculate<R>(EMPTY, BIRTH, NoRecords(), ["aaaaaaaa2", "aaaaaaaa1"], "P").Ok?
    ensures var after := Calculate<R>(EMPTY, BIRTH, NoRecords(), ["aaaaaaaa2", "aaaaaaaa1"], "P").value.state;
      var read := ReadBack(after, page, "P");
      Complete(page, after, []) && read.Some? && read.value != after
  {
    BelowPrefixed("aaaaaaaa", "1", "2");
    page := SwappedPrefixesDiffer<R>("aaaaaaaa2", "aaaaaaaa1");
  }

  lemma SwappedPrefixesDiffer<R>(id: Uid, bid: Uid) returns (page: Page)
    requires id != bid && Short(id) == Short(bid) && Below(bid, id)
    ensures Calculate<R>(EMPTY, BIRTH, NoRecords(), [id, bid], "P").Ok?
    ensures var after := Calculate<R>(EMPTY, BIRTH, NoRecords(), [id, bid], "P").value.state;
      var read := ReadBack(after, page, "P");
      Complete(page, after, []) && read.Some? && read.value != after
  {
    BirthCalculates<R>(id, bid);
    page := PagesOf(Calculate<R>(EMPTY, BIRTH, NoRecords(), [id, bid], "P").value.state, []);
    PlanPagesAreComplete<R>(EMPTY, BIRTH, NoRecords(), [id, bid], "P");
    CompleteWriteReadsBack<R>(EMPTY, BIRTH, NoRecords(), [id, bid], "P", page);
    NamesOutOfOrder<R>(id, bid);
  }

  lemma NamesOutOfOrder<R>(id: Uid, bid: Uid)
    requires id != bid && Short(id) == Short(bid) && Below(bid, id)
    requires Calculate<R>(EMPTY, BIRTH, NoRecords(), [id, bid], "P").Ok?
    ensures !NameOrdered(Calculate<R>(EMPTY, BIRTH, NoRecords(), [id, bid], "P").value.state.lists)
  {
    BirthCalculates<R>(id, bid);
    var after := Calculate<R>(EMPTY, BIRTH, NoRecords(), [id, bid], "P").value.state;
    var m := ListMap(after);
    PlanListsAscend<R>(EMPTY, BIRTH, NoRecords(), [id, bid], "P");
    IndexFacts(after.lists, ListId);
    BelowPrefixed(m[id].name, "", " bypass");
    assert m[id].name + "" == m[id].name;
    OrdersDisagree(after.lists, m[id], m[bid]);
  }

  const KEEPING := [RemoveRule(A, false)]

  lemma KeepingCalculates<R>()
    ensures var r := Calculate<R>(OBSERVED, KEEPING, Evidence(), [], "P");
      r.Ok? && r.value.state.rules == [] && UniqueIds(r.value.state) && ListMap(r.value.state) == map[A := LIST]
  {
    ObservedMaps();
    NamesAreMarked("P", A);
    var env: Env<R> := Env("/", Evidence(), "P");
    var b, m := Start(OBSERVED, []), map[A := LIST];
    assert IsOnlyNamed(m, ListName("P", A), A);
    assert OwnedTarget(A, b, env) == Ok(RULE);
    assert PrimaryList(RULE, m, env) == Ok(LIST);
    var w := Work(map[], m, [], 0);
    assert b.rules - {A} == map[];
    assert Step(b, KEEPING[0], env) == Ok(w);
    assert KEEPING[1..] == [];
    assert Run(w, KEEPING[1..], env) == Ok(w);
    assert Run(b, KEEPING, env) == Ok(w);
    CalculateIs<R>(OBSERVED, KEEPING, Evidence(), [], "P", w);
    ListingElements(w.rules, RuleId);
  }

  /** Removing a rule but not its list: the driver no longer reads the list, so a complete write
      is not verified. */
  lemma KeptListFailsVerification<R>() returns (page: Page)
    ensures Calculate<R>(OBSERVED, KEEPING, Evidence(), [], "P").Ok?
    ensures var after := Calculate<R>(OBSERVED, KEEPING, Evidence(), [], "P").value.state;
      var read := ReadBack(after, page, "P");
      Complete(page, after, []) && read.Some? && read.value != after
  {
    KeepingCalculates<R>();
    ObservedIsPrepared<R>();
    var after := Calculate<R>(OBSERVED, KEEPING, Evidence(), [], "P").value.state;
    page := PagesOf(after, []);
    PlanPagesAreComplete<R>(OBSERVED, KEEPING, Evidence(), [], "P");
    CompleteWriteReadsBack<R>(OBSERVED, KEEPING, Evidence(), [], "P", page);
    IndexFacts(after.lists, ListId);
    assert ListMap(after)[A] in after.lists;
    assert Referenced(after.rules) == {};
  }

  /** A fence whose first line break follows the object: the object is lost. */
  lemma FencedOnOneLineIsLost(answer: string)
    requires answer == "```" + Print(Obj([]), Compact) + "\n```"
    ensures Extract(answer) == Failed(NoObject)
  {
    var p, q := "```", "\n```";
    EmptyObject();
    OneLineFence("{}");
    PrintedObjectIsFound(p, [], Compact, q);
  }

  lemma EmptyObject()
    ensures Print(Obj([]), Compact) == "{}"
  {
  }

  lemma OneLineFence(t: string)
    requires t != ""
    ensures CutAway("```", t, "\n```")
  {
  }

  /** A line separator in an event's outcome: the stream the writer stored is rejected. */
  lemma LineSeparatorRejectsTheStream(e: Event, parse: Parser, digest: Digester)
    requires e.sequence == 1 && e.previous == None && e.hash == Some(digest(e)) && ReadsJson(parse, [e])
    requires e.outcome == "a\U{2028}b"
    ensures Chained([e], digest) && !Accepts(SplitLines(FileText([e])), parse, digest)
  {
    WrittenFileVerifiesIff([e], parse, digest);
    assert NamedMembers(e)[5] == Member("outcome", Str(e.outcome));
    assert LineMembers(e)[5] == NamedMembers(e)[5];
    assert e.outcome[1] == '\U{2028}' && '\U{2028}' in BREAKS;
    assert Mentions(LineMembers(e)[5], '\U{2028}');
    assert HasBreak(e);
  }

  const FORGOTTEN := CRule(A, ComplianceName("P", A), Unit("/", None), "", true, false)

  /** A compliance record of a rule the read did not cover comes back in the next snapshot. */
  lemma ForgottenRecordReturns(now: int)
    ensures var g := Registry([], [], [ComplianceRecord(A, FORGOTTEN.name, "/", 0, Some(FORGOTTEN))]);
      var stored := CommitCompliance(g, {}, CState([], []), now);
      stored.Ok? && ComplianceSnapshot(stored.value) != Ok([])
  {
    var record := ComplianceRecord(A, FORGOTTEN.name, "/", 0, Some(FORGOTTEN));
    assert Index([record][..0], ComplianceRecordId) == map[];
    assert Index([record], ComplianceRecordId) == map[A := record];
    var g: CRegistry<string> := Registry([], [], [record]);
    assert A in KeptRecords(g, {});
    ComplianceRoundTrip(g, {}, CState([], []), now);
  }
}
