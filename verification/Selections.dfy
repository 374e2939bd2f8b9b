/** Choosing elements of a sequence by their places. */
module Selections {

  /** The places are exactly the chosen ones, each once, in ascending order. */
  ghost predicate Enumerates(places: seq<nat>, chosen: set<nat>) {
    && (forall i, j | 0 <= i < j < |places| :: places[i] < places[j])
    && (forall k | 0 <= k < |places| :: places[k] in chosen)
    && (forall x | x in chosen :: x in places)
  }

  /** A place behind all others is chosen as well. */
  lemma EnumeratesMore(places: seq<nat>, chosen: set<nat>, x: nat)
    requires Enumerates(places, chosen) && forall y | y in chosen :: y < x
    ensures Enumerates(places + [x], chosen + {x})
  {
    var more := places + [x];
    forall y | y in chosen + {x}
      ensures y in more
    {
      if y == x {
        assert more[|places|] == x;
      }
    }
  }
}
