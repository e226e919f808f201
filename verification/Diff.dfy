/** The exact difference of two states. */
module Diff {
  import opened Keyed
  import opened Resources

  datatype Parts<T> = Parts(created: seq<T>, updated: seq<T>, removed: seq<T>)

  datatype ChangeSet = ChangeSet(before: State, after: State, rules: Parts<Rule>, lists: Parts<AddressList>)

  function Altered<T(==)>(c: map<Uid, T>, d: map<Uid, T>): map<Uid, T> {
    map k | k in d && k in c && d[k] != c[k] :: d[k]
  }

  /** `_partition`: each part ascending by ID. */
  ghost function Partition<T>(current: seq<T>, desired: seq<T>, key: T -> Uid): Parts<T> {
    var c, d := Index(current, key), Index(desired, key);
    Parts(Listing(d - c.Keys), Listing(Altered(c, d)), Listing(c - d.Keys))
  }

  ghost function CalculateChangeSet(before: State, after: State): ChangeSet {
    ChangeSet(before, after, Partition(before.rules, after.rules, RuleId), Partition(before.lists, after.lists, ListId))
  }

  predicate NonEmpty<T(==)>(p: Parts<T>) { p.created != [] || p.updated != [] || p.removed != [] }

  predicate HasMutations(cs: ChangeSet) { NonEmpty(cs.rules) || NonEmpty(cs.lists) }

  function IdSet<T>(s: seq<T>, key: T -> Uid): set<Uid> { set i | 0 <= i < |s| :: key(s[i]) }

  /** The part `p` of a partition holds exactly the values of the dictionary `m`. */
  ghost predicate PartIs<T>(p: seq<T>, m: map<Uid, T>, key: T -> Uid) {
    && UniqueKeys(p, key)
    && (forall x :: x in p ==> key(x) in m && m[key(x)] == x)
    && (forall k :: k in m ==> m[k] in p && key(m[k]) == k)
    && Index(p, key) == m
  }

  lemma ListingIsPart<T>(m: map<Uid, T>, key: T -> Uid)
    requires KeyedBy(m, key)
    ensures PartIs(Listing(m), m, key)
  {
    ListingFacts(m, key);
  }

  /** What each part holds, in terms of the two dictionaries. */
  lemma PartitionMembers<T>(current: seq<T>, desired: seq<T>, key: T -> Uid)
    ensures var p := Partition(current, desired, key);
      var c, d := Index(current, key), Index(desired, key);
      && PartIs(p.created, d - c.Keys, key)
      && PartIs(p.updated, Altered(c, d), key)
      && PartIs(p.removed, c - d.Keys, key)
  {
    IndexFacts(current, key);
    IndexFacts(desired, key);
    var c, d := Index(current, key), Index(desired, key);
    ListingIsPart(d - c.Keys, key);
    ListingIsPart(Altered(c, d), key);
    ListingIsPart(c - d.Keys, key);
  }

  lemma PartIds<T>(p: seq<T>, m: map<Uid, T>, key: T -> Uid)
    requires PartIs(p, m, key)
    ensures IdSet(p, key) == m.Keys && (p == [] <==> m == map[])
  {
  }

  lemma MapDifference<T>(c: map<Uid, T>, d: map<Uid, T>)
    ensures c - (c - d.Keys).Keys + (d - c.Keys) + Altered(c, d) == d
    ensures d - c.Keys == map[] && c - d.Keys == map[] && Altered(c, d) == map[] <==> c == d
  {
  }

  /** The dictionary after removing, creating and replacing by ID. */
  function Patch<T>(m: map<Uid, T>, p: Parts<T>, key: T -> Uid): map<Uid, T> {
    m - IdSet(p.removed, key) + Index(p.created, key) + Index(p.updated, key)
  }

  /** Applying the parts to the current dictionary gives the desired one; the parts are
      disjoint by ID; and there is something to do exactly when the dictionaries differ. */
  lemma PartitionIsExactPatch<T>(current: seq<T>, desired: seq<T>, key: T -> Uid)
    ensures var p := Partition(current, desired, key);
      && Patch(Index(current, key), p, key) == Index(desired, key)
      && IdSet(p.created, key) !! IdSet(p.updated, key) !! IdSet(p.removed, key)
      && (NonEmpty(p) <==> Index(current, key) != Index(desired, key))
  {
    PartitionMembers(current, desired, key);
    var p := Partition(current, desired, key);
    var c, d := Index(current, key), Index(desired, key);
    PartIds(p.created, d - c.Keys, key);
    PartIds(p.updated, Altered(c, d), key);
    PartIds(p.removed, c - d.Keys, key);
    MapDifference(c, d);
  }

  lemma ChangeSetIsExactPatch(before: State, after: State)
    ensures var cs := CalculateChangeSet(before, after);
      && Patch(RuleMap(before), cs.rules, RuleId) == RuleMap(after)
      && Patch(ListMap(before), cs.lists, ListId) == ListMap(after)
      && (HasMutations(cs) <==> RuleMap(before) != RuleMap(after) || ListMap(before) != ListMap(after))
  {
    PartitionIsExactPatch(before.rules, after.rules, RuleId);
    PartitionIsExactPatch(before.lists, after.lists, ListId);
  }
}
