/** The independent comparison of expected and observed resources, difference by difference. */
module Verification {
  import opened Keyed
  import opened Resources

  datatype Kind = Missing | Unexpected | Changed

  datatype Difference = Difference(kind: Kind, id: Uid)

  /** One difference of the same kind for each ID. */
  method Report(kind: Kind, ids: set<Uid>) returns (found: seq<Difference>)
    ensures forall x :: x in found <==> x.kind == kind && x.id in ids
    ensures NoDuplicates(found)
  {
    found := [];
    var rest := ids;
    while rest != {}
      invariant rest <= ids
      invariant forall x :: x in found <==> x.kind == kind && x.id in ids && x.id !in rest
      invariant NoDuplicates(found)
      decreases |rest|
    {
      var id :| id in rest;
      rest, found := rest - {id}, found + [Difference(kind, id)];
    }
  }

  ghost predicate Differs<T>(d: map<Uid, T>, o: map<Uid, T>, x: Difference) {
    match x.kind
    case Missing => x.id in d && x.id !in o
    case Unexpected => x.id in o && x.id !in d
    case Changed => x.id in d && x.id in o && d[x.id] != o[x.id]
  }

  lemma NoDifferenceNoChange<T>(d: map<Uid, T>, o: map<Uid, T>)
    ensures (forall x :: !Differs(d, o, x)) <==> d == o
  {
    if forall x :: !Differs(d, o, x) {
      forall id ensures id in d <==> id in o {
        assert !Differs(d, o, Difference(Missing, id)) && !Differs(d, o, Difference(Unexpected, id));
      }
      forall id | id in d ensures d[id] == o[id] { assert !Differs(d, o, Difference(Changed, id)); }
      assert d == o;
    }
  }

  method Compare<T(==)>(d: map<Uid, T>, o: map<Uid, T>) returns (found: seq<Difference>)
    ensures forall x :: x in found <==> Differs(d, o, x)
    ensures NoDuplicates(found)
  {
    var missing := Report(Missing, d.Keys - o.Keys);
    var unexpected := Report(Unexpected, o.Keys - d.Keys);
    var changed := Report(Changed, set id | id in d && id in o && d[id] != o[id]);
    found := missing + unexpected + changed;
    forall i, j | 0 <= i < j < |found| ensures found[i] != found[j] {
      assert i < |missing| ==> found[i] in missing;
      assert j >= |missing| + |unexpected| ==> found[j] in changed;
    }
  }

  /** `_resource_differences`: exactly one difference for each ID the two sides disagree on, and
      none exactly when they hold the same resources. */
  method ResourceDifferences<T(==)>(desired: seq<T>, observed: seq<T>, key: T -> Uid) returns (found: seq<Difference>)
    ensures forall x :: x in found <==> Differs(Index(desired, key), Index(observed, key), x)
    ensures NoDuplicates(found)
    ensures found == [] <==> Index(desired, key) == Index(observed, key)
  {
    var d, o := Index(desired, key), Index(observed, key);
    found := Compare(d, o);
    NoDifferenceNoChange(d, o);
    assert found != [] ==> found[0] in found;
  }
}
