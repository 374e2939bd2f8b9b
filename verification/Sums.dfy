/** Sums of natural weights over a finite map, independent of the order of its keys. */
module Sums {

  ghost function Pick(w: map<nat, nat>): (k: nat)
    requires w != map[]
    ensures k in w
  {
    var k :| k in w;
    k
  }

  ghost function Sum(w: map<nat, nat>): nat
    decreases |w|
  {
    if w == map[] then 0
    else
      var k := Pick(w);
      KeysShrink(w, k);
      w[k] + Sum(w - {k})
  }

  lemma KeysShrink(w: map<nat, nat>, k: nat)
    requires k in w
    ensures |w - {k}| == |w| - 1
  {
    assert (w - {k}).Keys == w.Keys - {k};
  }

  /** Any key may be split off, not only the one the definition picks. */
  lemma {:induction false} SumSplit(w: map<nat, nat>, k: nat)
    requires k in w
    ensures Sum(w) == w[k] + Sum(w - {k})
    decreases |w|
  {
    var j := Pick(w);
    if j != k {
      KeysShrink(w, j);
      SumSplit(w - {j}, k);
      KeysShrink(w, k);
      SumSplit(w - {k}, j);
      assert w - {j} - {k} == w - {k} - {j};
    }
  }

  lemma SumInsert(w: map<nat, nat>, k: nat, v: nat)
    requires k !in w
    ensures Sum(w[k := v]) == v + Sum(w)
  {
    SumSplit(w[k := v], k);
    assert w[k := v] - {k} == w;
  }

  lemma SumUpdate(w: map<nat, nat>, k: nat, v: nat)
    requires k in w
    ensures Sum(w[k := v]) == Sum(w) - w[k] + v
  {
    SumSplit(w, k);
    SumSplit(w[k := v], k);
    assert w[k := v] - {k} == w - {k};
  }

}
