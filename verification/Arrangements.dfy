/** The order in which the option parser keeps the arguments: those taken, those not yet looked at, those
    left as files. */
module Arrangements {

  function Range(lo: nat, hi: nat): (r: seq<nat>)
    requires lo <= hi
    ensures |r| == hi - lo
  {
    seq(hi - lo, i requires 0 <= i < hi - lo => lo + i)
  }

  /** The places below `k` that are in `taken`, in order. */
  function Kept(taken: set<nat>, k: nat): seq<nat> {
    if k == 0 then [] else Kept(taken, k - 1) + if k - 1 in taken then [k - 1] else []
  }

  /** The places below `k` that are not in `taken`, in order. */
  function Left(taken: set<nat>, k: nat): seq<nat> {
    if k == 0 then [] else Left(taken, k - 1) + if k - 1 in taken then [] else [k - 1]
  }

  function Arrangement(taken: set<nat>, k: nat, n: nat): seq<nat>
    requires k <= n
  {
    Kept(taken, k) + Range(k, n) + Left(taken, k)
  }

  lemma {:induction false} Sizes(taken: set<nat>, k: nat)
    ensures |Kept(taken, k)| + |Left(taken, k)| == k
  {
    if k > 0 {
      Sizes(taken, k - 1);
    }
  }

  /** Each place below `k` is in exactly one of the two lists. */
  lemma {:induction false} ListsHold(taken: set<nat>, k: nat, x: nat)
    ensures x in Kept(taken, k) <==> x < k && x in taken
    ensures x in Left(taken, k) <==> x < k && x !in taken
  {
    if k > 0 {
      ListsHold(taken, k - 1, x);
    }
  }

  predicate InOrder(s: seq<nat>) { forall i, j | 0 <= i < j < |s| :: s[i] < s[j] }

  lemma InOrderAppend(s: seq<nat>, x: nat)
    requires InOrder(s) && forall y | y in s :: y < x
    ensures InOrder(s + [x])
  {
    forall i, j | 0 <= i < j < |s + [x]|
      ensures (s + [x])[i] < (s + [x])[j]
    {
      assert s[i] in s;
    }
  }

  /** Both lists keep the original order. */
  lemma {:induction false} ListsInOrder(taken: set<nat>, k: nat)
    ensures InOrder(Kept(taken, k)) && InOrder(Left(taken, k))
  {
    hide InOrder;
    if k > 0 {
      ListsInOrder(taken, k - 1);
      var kept, left := Kept(taken, k - 1), Left(taken, k - 1);
      forall y | y in kept
        ensures y < k - 1
      {
        ListsHold(taken, k - 1, y);
      }
      forall y | y in left
        ensures y < k - 1
      {
        ListsHold(taken, k - 1, y);
      }
      InOrderAppend(kept, k - 1);
      InOrderAppend(left, k - 1);
      assert kept + [] == kept && left + [] == left;
    } else {
      NothingInOrder();
    }
  }

  lemma NothingInOrder()
    ensures InOrder([])
  {
  }

  lemma SameElements(a: seq<nat>, b: seq<nat>, c: seq<nat>, d: seq<nat>)
    ensures multiset(a + (b + c) + d) == multiset((a + b) + c + d) == multiset(a + c + (d + b))
  {
    assert multiset(a + (b + c) + d) == multiset(a) + multiset(b) + multiset(c) + multiset(d);
    assert multiset(a + c + (d + b)) == multiset(a) + multiset(c) + (multiset(d) + multiset(b));
    assert a + (b + c) + d == (a + b) + c + d;
  }

  /** Looking at one more place moves it to one of the lists. */
  lemma ArrangementStep(taken: set<nat>, k: nat, n: nat)
    requires 0 < k <= n
    ensures Arrangement(taken, k - 1, n) == Kept(taken, k - 1) + ([k - 1] + Range(k, n)) + Left(taken, k - 1)
    ensures Arrangement(taken, k, n)
         == if k - 1 in taken then (Kept(taken, k - 1) + [k - 1]) + Range(k, n) + Left(taken, k - 1)
            else Kept(taken, k - 1) + Range(k, n) + (Left(taken, k - 1) + [k - 1])
  {
    assert Range(k - 1, n) == [k - 1] + Range(k, n);
    assert Left(taken, k - 1) + [] == Left(taken, k - 1) && Kept(taken, k - 1) + [] == Kept(taken, k - 1);
  }

  /** Every arrangement is a permutation of all places. */
  lemma {:induction false} IsPermutation(taken: set<nat>, k: nat, n: nat)
    requires k <= n
    ensures multiset(Arrangement(taken, k, n)) == multiset(Range(0, n))
  {
    hide Arrangement, Kept, Left, Range;
    if k == 0 {
      NothingScanned(taken, n);
    } else {
      IsPermutation(taken, k - 1, n);
      ArrangementStep(taken, k, n);
      SameElements(Kept(taken, k - 1), [k - 1], Range(k, n), Left(taken, k - 1));
    }
  }

  lemma NothingScanned(taken: set<nat>, n: nat)
    ensures Arrangement(taken, 0, n) == Range(0, n)
  {
  }

  /** Only what is below `k` matters. */
  lemma {:induction false} SameBelow(taken: set<nat>, taken': set<nat>, k: nat)
    requires forall i: nat | i < k :: i in taken <==> i in taken'
    ensures Kept(taken', k) == Kept(taken, k) && Left(taken', k) == Left(taken, k)
  {
    if k > 0 {
      SameBelow(taken, taken', k - 1);
    }
  }

  /** Taking the first place not yet looked at moves nothing. */
  lemma TakeNext(taken: set<nat>, k: nat, n: nat)
    requires k < n && forall i | i in taken :: i < k
    ensures Arrangement(taken + {k}, k + 1, n) == Arrangement(taken, k, n)
    ensures |Kept(taken + {k}, k + 1)| == |Kept(taken, k)| + 1 && |Left(taken + {k}, k + 1)| == |Left(taken, k)|
    ensures Arrangement(taken, k, n)[|Kept(taken, k)|] == k
  {
    SameBelow(taken, taken + {k}, k);
    assert Range(k, n) == [k] + Range(k + 1, n);
  }

  lemma {:induction false} LeftGrows(taken: set<nat>, k: nat, k': nat)
    requires k <= k' && forall i | i in taken :: i < k
    ensures Kept(taken, k') == Kept(taken, k) && Left(taken, k') == Left(taken, k) + Range(k, k')
    decreases k'
  {
    if k < k' {
      LeftGrows(taken, k, k' - 1);
      assert Range(k, k') == Range(k, k' - 1) + [k' - 1];
    }
  }

  function Rotated(s: seq<nat>, start: nat, count: nat): seq<nat>
    requires start + count <= |s|
  {
    s[..start] + s[start + count..] + s[start..start + count]
  }

  /** Leaving the next places as files moves them behind everything else. */
  lemma LeaveNext(taken: set<nat>, k: nat, k': nat, n: nat)
    requires k <= k' <= n && forall i | i in taken :: i < k
    ensures |Kept(taken, k)| + (k' - k) <= |Arrangement(taken, k, n)|
    ensures Arrangement(taken, k', n) == Rotated(Arrangement(taken, k, n), |Kept(taken, k)|, k' - k)
  {
    LeftGrows(taken, k, k');
    var kept, left := Kept(taken, k), Left(taken, k);
    var a := Arrangement(taken, k, n);
    assert Range(k, n) == Range(k, k') + Range(k', n);
    assert a == kept + Range(k, k') + (Range(k', n) + left);
    assert a[..|kept|] == kept && a[|kept|..|kept| + (k' - k)] == Range(k, k');
    assert a[|kept| + (k' - k)..] == Range(k', n) + left;
    assert Arrangement(taken, k', n) == kept + Range(k', n) + (left + Range(k, k'));
  }

  /** The part not yet looked at is a slice of the original. */
  lemma Unscanned(taken: set<nat>, k: nat, n: nat, i: nat)
    requires k + i < n
    ensures |Arrangement(taken, k, n)| == n
    ensures Arrangement(taken, k, n)[|Kept(taken, k)| + i] == k + i
  {
    Sizes(taken, k);
  }
}
