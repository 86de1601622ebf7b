/** What several of the models need. */
module Common {
  datatype Option<+T> = None | Some(value: T)

  predicate Distinct<T(==)>(s: seq<T>) {
    forall i, j :: 0 <= i < j < |s| ==> s[i] != s[j]
  }

  lemma SubsetSize<T>(a: set<T>, b: set<T>)
    requires a <= b
    ensures |a| <= |b|
  {
    assert b == a + (b - a);
  }

  /** The kept elements are those at these places, in order: exactly the wanted ones. */
  ghost predicate KeptAt<T>(all: seq<T>, wanted: T -> bool, kept: seq<T>, places: seq<nat>) {
    && |places| == |kept|
    && (forall i :: 0 <= i < |kept| ==> places[i] < |all| && kept[i] == all[places[i]])
    && (forall i, j :: 0 <= i < j < |places| ==> places[i] < places[j])
    && (forall k :: 0 <= k < |all| ==> (k in places <==> wanted(all[k])))
  }

  lemma PlaceKept<T>(rest: seq<T>, last: T, wanted: T -> bool, kept: seq<T>, places: seq<nat>)
    requires KeptAt(rest, wanted, kept, places) && wanted(last)
    ensures KeptAt(rest + [last], wanted, kept + [last], places + [|rest|])
  {
    var all, more := rest + [last], places + [|rest|];
    forall k | 0 <= k < |all|
      ensures k in more <==> wanted(all[k])
    {
      assert k in more <==> k in places || k == |rest|;
      assert k < |rest| ==> all[k] == rest[k];
    }
  }

  lemma PlaceDropped<T>(rest: seq<T>, last: T, wanted: T -> bool, kept: seq<T>, places: seq<nat>)
    requires KeptAt(rest, wanted, kept, places) && !wanted(last)
    ensures KeptAt(rest + [last], wanted, kept, places)
  {
    var all := rest + [last];
    forall k | 0 <= k < |all|
      ensures k in places <==> wanted(all[k])
    {
      assert |rest| !in places;
      assert k < |rest| ==> all[k] == rest[k];
    }
  }
}
