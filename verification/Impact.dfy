/** What a change means to the operator: the entries it affects, and their per-list deltas. */
module Impact {
  import opened Keyed
  import opened Resources
  import opened DesiredState
  import opened Entries
  import opened Diff

  ghost function SumOver(ids: set<Uid>, f: Uid -> nat): nat {
    if ids == {} then 0 else f(Least(ids)) + SumOver(ids - {Least(ids)}, f)
  }

  function EntriesOf(lists: map<Uid, AddressList>, id: Uid): seq<Entry> {
    if id in lists then lists[id].entries else []
  }

  /** Values on one side only. */
  function Difference(a: set<string>, b: set<string>): set<string> { (a - b) + (b - a) }

  function Moves(before: map<Uid, AddressList>, after: map<Uid, AddressList>): Uid -> nat {
    (id: Uid) => |Difference(Normalized(EntriesOf(before, id)), Normalized(EntriesOf(after, id)))|
  }

  /** `_affected_entry_count` */
  ghost function AffectedEntries(cs: ChangeSet): nat {
    SumOver(ListMap(cs.before).Keys + ListMap(cs.after).Keys, Moves(ListMap(cs.before), ListMap(cs.after)))
  }

  datatype Delta = Delta(added: seq<Entry>, removed: seq<Entry>)

  function DeltaOf(previous: seq<Entry>, updated: seq<Entry>): Delta {
    Delta(Absent(updated, Normalized(previous)), Absent(previous, Normalized(updated)))
  }

  function Deltas(cs: ChangeSet): map<Uid, Delta> {
    var updated := Index(cs.lists.updated, ListId);
    map id | id in updated :: DeltaOf(EntriesOf(ListMap(cs.before), id), updated[id].entries)
  }

  /** `s` is `t` with some elements left out. */
  predicate Subsequence(s: seq<Entry>, t: seq<Entry>) {
    s == [] || (t != [] && if s[0] == t[0] then Subsequence(s[1..], t[1..]) else Subsequence(s, t[1..]))
  }

  /** `part` holds the entries of `whole`, in order and as often, whose address is not in `other`. */
  ghost predicate OnlyIn(part: seq<Entry>, whole: seq<Entry>, other: seq<Entry>) {
    && Subsequence(part, whole)
    && forall e :: multiset(part)[e] == if (exists o :: o in other && o.normalized == e.normalized) then 0 else multiset(whole)[e]
  }

  /** What a delta tells the operator about a list before and after. */
  ghost predicate Tells(d: Delta, before: seq<Entry>, after: seq<Entry>) {
    && OnlyIn(d.added, after, before) && OnlyIn(d.removed, before, after)
    && Normalized(before) - Normalized(d.removed) + Normalized(d.added) == Normalized(after)
  }

  lemma {:induction false} AbsentIsOnlyIn(whole: seq<Entry>, other: seq<Entry>)
    ensures OnlyIn(Absent(whole, Normalized(other)), whole, other)
  {
    AbsentInOrder(whole, Normalized(other));
    forall e ensures multiset(Absent(whole, Normalized(other)))[e] == if (exists o :: o in other && o.normalized == e.normalized) then 0 else multiset(whole)[e] {
      AbsentCounts(whole, Normalized(other), e);
    }
  }

  lemma {:induction false} AbsentInOrder(s: seq<Entry>, taken: set<string>)
    ensures Subsequence(Absent(s, taken), s)
  {
    if s != [] {
      AbsentInOrder(s[1..], taken);
      AbsentFacts(s[1..], taken);
      var rest := Absent(s[1..], taken);
      if s[0].normalized in taken {
        assert Absent(s, taken) == rest;
        assert rest != [] ==> rest[0] in rest;
      } else {
        assert Absent(s, taken)[1..] == rest;
      }
    }
  }

  lemma AbsentAddresses(s: seq<Entry>, taken: set<string>)
    ensures Normalized(Absent(s, taken)) == Normalized(s) - taken
  {
    AbsentFacts(s, taken);
  }

  lemma PatchedSet(b: set<string>, a: set<string>)
    ensures b - (b - a) + (a - b) == a
  {
  }

  lemma DeltaTells(before: seq<Entry>, after: seq<Entry>)
    ensures Tells(DeltaOf(before, after), before, after)
  {
    AbsentIsOnlyIn(after, before);
    AbsentIsOnlyIn(before, after);
    AbsentAddresses(after, Normalized(before));
    AbsentAddresses(before, Normalized(after));
    PatchedSet(Normalized(before), Normalized(after));
    Patches(DeltaOf(before, after), before, after);
  }

  lemma Patches(d: Delta, before: seq<Entry>, after: seq<Entry>)
    requires OnlyIn(d.added, after, before) && OnlyIn(d.removed, before, after)
    requires Normalized(before) - Normalized(d.removed) + Normalized(d.added) == Normalized(after)
    ensures Tells(d, before, after)
  {
  }

  /** `address_list_deltas`: for each updated list, exactly the entries that are only in its new
      version and exactly those that are only in its old one, each in its order. */
  method AddressListDeltas(cs: ChangeSet) returns (deltas: map<Uid, Delta>)
    ensures deltas == Deltas(cs)
    ensures var updated := Index(cs.lists.updated, ListId);
      deltas.Keys == updated.Keys && forall id :: id in deltas ==> Tells(deltas[id], EntriesOf(ListMap(cs.before), id), updated[id].entries)
  {
    var before := ListMap(cs.before);
    deltas := map[];
    ghost var done: map<Uid, AddressList> := map[];
    for n := 0 to |cs.lists.updated|
      invariant done == Index(cs.lists.updated[..n], ListId)
      invariant deltas.Keys == done.Keys
      invariant forall id :: id in deltas ==> deltas[id] == DeltaOf(EntriesOf(before, id), done[id].entries)
    {
      var updated := cs.lists.updated[n];
      assert cs.lists.updated[..n + 1][..n] == cs.lists.updated[..n];
      var previous := if updated.id in before then before[updated.id].entries else [];
      deltas := deltas[updated.id := DeltaOf(previous, updated.entries)];
      done := done[updated.id := updated];
    }
    assert cs.lists.updated[..|cs.lists.updated|] == cs.lists.updated;
    DeltasTell(cs);
  }

  lemma DeltasTell(cs: ChangeSet)
    ensures var updated := Index(cs.lists.updated, ListId);
      Deltas(cs).Keys == updated.Keys && forall id :: id in updated ==> Tells(Deltas(cs)[id], EntriesOf(ListMap(cs.before), id), updated[id].entries)
  {
    var updated := Index(cs.lists.updated, ListId);
    forall id | id in updated ensures Tells(Deltas(cs)[id], EntriesOf(ListMap(cs.before), id), updated[id].entries) {
      DeltaTells(EntriesOf(ListMap(cs.before), id), updated[id].entries);
    }
  }

  /** The deltas of a computed change are of exactly the lists that are there before and after and
      differ, and tell how each of them differs. */
  lemma ChangeIsTold(before: State, after: State)
    ensures var deltas := Deltas(CalculateChangeSet(before, after));
      && (forall id :: id in deltas <==> id in ListMap(before) && id in ListMap(after) && ListMap(before)[id] != ListMap(after)[id])
      && forall id :: id in deltas ==> Tells(deltas[id], ListMap(before)[id].entries, ListMap(after)[id].entries)
  {
    PartitionMembers(before.lists, after.lists, ListId);
    DeltasTell(CalculateChangeSet(before, after));
  }

  function CountEntries(lists: seq<AddressList>): nat {
    if lists == [] then 0 else |lists[0].entries| + CountEntries(lists[1..])
  }

  /** The entries all deltas add and remove. */
  ghost function CountDeltas(deltas: map<Uid, Delta>): nat { SumOver(deltas.Keys, DeltaSize(deltas)) }

  function DeltaSize(deltas: map<Uid, Delta>): Uid -> nat {
    (id: Uid) => if id in deltas then |deltas[id].added| + |deltas[id].removed| else 0
  }

  lemma {:induction false} SumAgrees(ids: set<Uid>, f: Uid -> nat, g: Uid -> nat)
    requires forall id :: id in ids ==> f(id) == g(id)
    ensures SumOver(ids, f) == SumOver(ids, g)
  {
    if ids != {} { SumAgrees(ids - {Least(ids)}, f, g); }
  }

  lemma {:induction false} SumRemove(ids: set<Uid>, k: Uid, f: Uid -> nat)
    requires k in ids
    ensures SumOver(ids, f) == f(k) + SumOver(ids - {k}, f)
  {
    var m := Least(ids);
    if k != m {
      SumRemove(ids - {m}, k, f);
      assert ids - {m} - {k} == ids - {k} - {m};
      SumRemove(ids - {k}, m, f);
    }
  }

  lemma {:induction false} SumSplit(a: set<Uid>, b: set<Uid>, f: Uid -> nat)
    requires a !! b
    ensures SumOver(a + b, f) == SumOver(a, f) + SumOver(b, f)
  {
    if a == {} {
      assert a + b == b;
    } else {
      var k := Least(a);
      SumRemove(a + b, k, f);
      assert a + b - {k} == (a - {k}) + b;
      SumSplit(a - {k}, b, f);
    }
  }

  lemma {:induction false} SumOfNothing(ids: set<Uid>, f: Uid -> nat)
    requires forall id :: id in ids ==> f(id) == 0
    ensures SumOver(ids, f) == 0
  {
    if ids != {} { SumOfNothing(ids - {Least(ids)}, f); }
  }

  function Sizes(m: map<Uid, AddressList>): Uid -> nat { (id: Uid) => |EntriesOf(m, id)| }

  lemma {:induction false} CountIn(s: seq<AddressList>, m: map<Uid, AddressList>)
    requires UniqueKeys(s, ListId) && forall x :: x in s ==> ListId(x) in m && m[ListId(x)] == x
    ensures CountEntries(s) == SumOver(IdSet(s, ListId), Sizes(m))
  {
    if s != [] {
      var rest := s[1..];
      forall i, j | 0 <= i < j < |rest| ensures ListId(rest[i]) != ListId(rest[j]) {
        assert ListId(s[i + 1]) != ListId(s[j + 1]);
      }
      CountIn(rest, m);
      assert s == [s[0]] + rest;
      assert IdSet(s, ListId) == {ListId(s[0])} + IdSet(rest, ListId);
      assert ListId(s[0]) !in IdSet(rest, ListId);
      SumRemove(IdSet(s, ListId), ListId(s[0]), Sizes(m));
      assert IdSet(s, ListId) - {ListId(s[0])} == IdSet(rest, ListId);
    } else {
      assert IdSet(s, ListId) == {};
    }
  }

  lemma CountOfPart(p: seq<AddressList>, m: map<Uid, AddressList>)
    requires PartIs(p, m, ListId)
    ensures CountEntries(p) == SumOver(m.Keys, Sizes(m))
  {
    PartIds(p, m, ListId);
    CountIn(p, m);
  }

  lemma {:induction false} NormalizedSize(entries: seq<Entry>)
    requires UniqueEntries(entries)
    ensures |Normalized(entries)| == |entries|
  {
    if entries != [] {
      var rest := entries[1..];
      forall i, j | 0 <= i < j < |rest| ensures rest[i].normalized != rest[j].normalized {
        assert entries[i + 1].normalized != entries[j + 1].normalized;
      }
      NormalizedSize(rest);
      forall e | e in rest ensures e.normalized != entries[0].normalized {
        var j :| 0 <= j < |rest| && rest[j] == e;
        assert entries[j + 1] == e;
      }
      assert entries == [entries[0]] + rest;
      assert Normalized(entries) == {entries[0].normalized} + Normalized(rest);
    }
  }

  lemma AbsentSize(entries: seq<Entry>, taken: set<string>)
    requires UniqueEntries(entries)
    ensures |Absent(entries, taken)| == |Normalized(entries) - taken|
  {
    AbsentFacts(entries, taken);
    NormalizedSize(Absent(entries, taken));
    AbsentAddresses(entries, taken);
  }

  lemma DeltaCounts(previous: seq<Entry>, updated: seq<Entry>)
    requires UniqueEntries(previous) && UniqueEntries(updated)
    ensures |DeltaOf(previous, updated).added| + |DeltaOf(previous, updated).removed|
         == |Difference(Normalized(previous), Normalized(updated))|
  {
    AbsentSize(updated, Normalized(previous));
    AbsentSize(previous, Normalized(updated));
    assert Difference(Normalized(previous), Normalized(updated))
        == (Normalized(updated) - Normalized(previous)) + (Normalized(previous) - Normalized(updated));
  }

  ghost predicate ListsUnique(s: State) {
    UniqueIds(s) && forall l :: l in s.lists ==> UniqueEntries(l.entries)
  }

  lemma MapUnique(s: State, id: Uid)
    requires ListsUnique(s)
    ensures UniqueEntries(EntriesOf(ListMap(s), id))
  {
    IndexFacts(s.lists, ListId);
  }

  /** An ID's contribution is its whole list if created or removed, its delta if updated. */
  lemma CreatedMoves(b: map<Uid, AddressList>, a: map<Uid, AddressList>, id: Uid)
    requires UniqueEntries(EntriesOf(b, id)) && UniqueEntries(EntriesOf(a, id))
    ensures id !in b ==> Moves(b, a)(id) == |EntriesOf(a, id)|
    ensures id !in a ==> Moves(b, a)(id) == |EntriesOf(b, id)|
    ensures EntriesOf(b, id) == EntriesOf(a, id) ==> Moves(b, a)(id) == 0
  {
    NormalizedSize(EntriesOf(a, id));
    NormalizedSize(EntriesOf(b, id));
    var x, y := Normalized(EntriesOf(b, id)), Normalized(EntriesOf(a, id));
    if id !in b { assert x == {}; assert Difference(x, y) == y; }
    if id !in a { assert y == {}; assert Difference(x, y) == x; }
    assert Difference(x, x) == {};
  }

  lemma DeltaSizes(cs: ChangeSet, b: map<Uid, AddressList>, a: map<Uid, AddressList>)
    requires b == ListMap(cs.before) && a == ListMap(cs.after) && Index(cs.lists.updated, ListId) == Altered(b, a)
    requires forall id :: UniqueEntries(EntriesOf(b, id)) && UniqueEntries(EntriesOf(a, id))
    ensures Deltas(cs).Keys == Altered(b, a).Keys
    ensures SumOver(Deltas(cs).Keys, DeltaSize(Deltas(cs))) == SumOver(Altered(b, a).Keys, Moves(b, a))
  {
    var deltas := Deltas(cs);
    assert deltas.Keys == Altered(b, a).Keys;
    forall id | id in deltas.Keys ensures DeltaSize(deltas)(id) == Moves(b, a)(id) {
      DeltaCounts(EntriesOf(b, id), EntriesOf(a, id));
    }
    SumAgrees(deltas.Keys, DeltaSize(deltas), Moves(b, a));
  }

  lemma SumOfFour(a: set<Uid>, b: set<Uid>, c: set<Uid>, d: set<Uid>, f: Uid -> nat)
    requires a !! b !! c !! d
    ensures SumOver(a + b + c + d, f) == SumOver(a, f) + SumOver(b, f) + SumOver(c, f) + SumOver(d, f)
  {
    SumSplit(a + b + c, d, f);
    SumSplit(a + b, c, f);
    SumSplit(a, b, f);
  }

  lemma WholeListMoves(b: map<Uid, AddressList>, a: map<Uid, AddressList>, ids: set<Uid>)
    requires forall id :: UniqueEntries(EntriesOf(b, id)) && UniqueEntries(EntriesOf(a, id))
    ensures ids !! b.Keys ==> SumOver(ids, Moves(b, a)) == SumOver(ids, Sizes(a))
    ensures ids !! a.Keys ==> SumOver(ids, Moves(b, a)) == SumOver(ids, Sizes(b))
    ensures (forall id :: id in ids ==> EntriesOf(b, id) == EntriesOf(a, id)) ==> SumOver(ids, Moves(b, a)) == 0
  {
    forall id ensures id !in b ==> Moves(b, a)(id) == Sizes(a)(id) { CreatedMoves(b, a, id); }
    forall id ensures id !in a ==> Moves(b, a)(id) == Sizes(b)(id) { CreatedMoves(b, a, id); }
    forall id ensures EntriesOf(b, id) == EntriesOf(a, id) ==> Moves(b, a)(id) == 0 { CreatedMoves(b, a, id); }
    if ids !! b.Keys { SumAgrees(ids, Moves(b, a), Sizes(a)); }
    if ids !! a.Keys { SumAgrees(ids, Moves(b, a), Sizes(b)); }
    if forall id :: id in ids ==> EntriesOf(b, id) == EntriesOf(a, id) { SumOfNothing(ids, Moves(b, a)); }
  }

  lemma SplitMoves(b: map<Uid, AddressList>, a: map<Uid, AddressList>)
    requires forall id :: UniqueEntries(EntriesOf(b, id)) && UniqueEntries(EntriesOf(a, id))
    ensures SumOver(b.Keys + a.Keys, Moves(b, a)) ==
      SumOver((a - b.Keys).Keys, Sizes(a - b.Keys)) + SumOver((b - a.Keys).Keys,
          Sizes(b - a.Keys)) + SumOver(Altered(b, a).Keys, Moves(b, a))
  {
    var created, removed, altered := (a - b.Keys).Keys, (b - a.Keys).Keys, Altered(b, a).Keys;
    var same := b.Keys * a.Keys - altered;
    assert b.Keys + a.Keys == created + removed + altered + same;
    SumOfFour(created, removed, altered, same, Moves(b, a));
    WholeListMoves(b, a, created);
    WholeListMoves(b, a, removed);
    WholeListMoves(b, a, same);
    SumAgrees(created, Sizes(a), Sizes(a - b.Keys));
    SumAgrees(removed, Sizes(b), Sizes(b - a.Keys));
  }

  /** The affected entries of a change are the entries of its created and removed lists and the
      entries its deltas add and remove: nothing is counted twice or missed. */
  lemma AffectedEntriesAreConserved(before: State, after: State)
    requires ListsUnique(before) && ListsUnique(after)
    ensures var cs := CalculateChangeSet(before, after);
      AffectedEntries(cs) == CountEntries(cs.lists.created) + CountEntries(cs.lists.removed) + CountDeltas(Deltas(cs))
  {
    var cs := CalculateChangeSet(before, after);
    var b, a := ListMap(before), ListMap(after);
    PartitionMembers(before.lists, after.lists, ListId);
    forall id ensures UniqueEntries(EntriesOf(b, id)) && UniqueEntries(EntriesOf(a, id)) {
      MapUnique(before, id);
      MapUnique(after, id);
    }
    SplitMoves(b, a);
    CountOfPart(cs.lists.created, a - b.Keys);
    CountOfPart(cs.lists.removed, b - a.Keys);
    DeltaSizes(cs, b, a);
  }
}
