/** Replacing stretches of a byte string by texts of other lengths. */
module Splicing {

  /** The bytes from `start` up to `stop` give way to `text`. */
  datatype Edit = Edit(start: nat, stop: nat, text: string)

  predicate Ordered(s: string, from: nat, edits: seq<Edit>)
    decreases |edits|
  {
    if edits == [] then from <= |s|
    else from <= edits[0].start <= edits[0].stop && Ordered(s, edits[0].stop, edits[1..])
  }

  lemma {:induction false} StopsInside(s: string, from: nat, edits: seq<Edit>)
    requires Ordered(s, from, edits)
    ensures from <= |s| && (edits != [] ==> edits[0].stop <= |s| && edits[|edits| - 1].stop <= |s|)
    decreases |edits|
  {
    if edits != [] {
      StopsInside(s, edits[0].stop, edits[1..]);
    }
  }

  /** One pass from left to right: what lies between the edits is copied. */
  function Splice(s: string, from: nat, edits: seq<Edit>): string
    requires Ordered(s, from, edits)
    decreases |edits|
  {
    StopsInside(s, from, edits);
    if edits == [] then s[from..]
    else s[from..edits[0].start] + edits[0].text + Splice(s, edits[0].stop, edits[1..])
  }

  function Replace(s: string, e: Edit): string
    requires e.start <= e.stop <= |s|
  {
    s[..e.start] + e.text + s[e.stop..]
  }

  /** How much an edit adds. */
  function Growth(e: Edit): int { |e.text| - (e.stop - e.start) }

  function TotalGrowth(edits: seq<Edit>): int {
    if edits == [] then 0 else Growth(edits[0]) + TotalGrowth(edits[1..])
  }

  lemma {:induction false} SpliceLength(s: string, from: nat, edits: seq<Edit>)
    requires Ordered(s, from, edits)
    ensures |Splice(s, from, edits)| == |s| - from + TotalGrowth(edits)
    decreases |edits|
  {
    StopsInside(s, from, edits);
    if edits != [] {
      SpliceLength(s, edits[0].stop, edits[1..]);
    }
  }

  /** The single pass does what replacing one stretch after the other does, starting from the right so that
      no edit moves the place of the next. */
  function ReplaceAll(s: string, from: nat, edits: seq<Edit>): (r: string)
    requires Ordered(s, from, edits)
    ensures from <= |s| && from <= |r| && r[..from] == s[..from]
    decreases |edits|
  {
    StopsInside(s, from, edits);
    if edits == [] then s
    else
      var e := edits[0];
      var r := ReplaceAll(s, e.stop, edits[1..]);
      PrefixOfPrefix(r, s, from, e.stop);
      Replace(r, e)
  }

  lemma PrefixOfPrefix(r: string, s: string, m: nat, n: nat)
    requires m <= n <= |r| && n <= |s| && r[..n] == s[..n]
    ensures r[..m] == s[..m]
  {
    assert r[..m] == r[..n][..m] && s[..m] == s[..n][..m];
  }

  lemma {:induction false} SpliceReplaces(s: string, from: nat, edits: seq<Edit>)
    requires Ordered(s, from, edits)
    ensures from <= |s| && ReplaceAll(s, from, edits) == s[..from] + Splice(s, from, edits)
    decreases |edits|
  {
    StopsInside(s, from, edits);
    if edits == [] {
      assert s == s[..from] + s[from..];
    } else {
      SpliceReplaces(s, edits[0].stop, edits[1..]);
      ReplaceBefore(s, from, edits[0], Splice(s, edits[0].stop, edits[1..]));
    }
  }

  lemma ReplaceBefore(s: string, from: nat, e: Edit, rest: string)
    requires from <= e.start <= e.stop <= |s|
    ensures Replace(s[..e.stop] + rest, e) == s[..from] + (s[from..e.start] + e.text + rest)
  {
    var r := s[..e.stop] + rest;
    assert r[..e.start] == s[..from] + s[from..e.start];
    assert r[e.stop..] == rest;
  }

  // ----- room for the texts -----

  /** The pass never leaves the `room` bytes it has: each text is written with a NUL behind it. */
  predicate Roomy(s: string, from: nat, edits: seq<Edit>, room: int)
    decreases |edits|
  {
    if edits == [] then |s| - from <= room
    else
      var e := edits[0];
      var used := e.start - from + |e.text|;
      used < room && Roomy(s, e.stop, edits[1..], room - used)
  }

  lemma FirstEdit(s: string, at: nat, e: Edit, rest: seq<Edit>, room: int)
    requires Ordered(s, at, [e] + rest)
    ensures at <= e.start <= e.stop <= |s| && Ordered(s, e.stop, rest)
    ensures Splice(s, at, [e] + rest) == s[at..e.start] + e.text + Splice(s, e.stop, rest)
    ensures Roomy(s, at, [e] + rest, room)
       <==> e.start - at + |e.text| < room && Roomy(s, e.stop, rest, room - (e.start - at + |e.text|))
  {
    assert ([e] + rest)[1..] == rest;
    StopsInside(s, e.stop, rest);
  }

  /** The pass may stop anywhere before its next edit. */
  lemma PartWay(s: string, at: nat, upTo: nat, edits: seq<Edit>, room: int)
    requires Ordered(s, at, edits) && at <= upTo && if edits == [] then upTo <= |s| else upTo <= edits[0].start
    ensures upTo <= |s| && Ordered(s, upTo, edits)
    ensures Splice(s, at, edits) == s[at..upTo] + Splice(s, upTo, edits)
    ensures Roomy(s, at, edits, room) ==> upTo - at <= room
    ensures Roomy(s, at, edits, room) <==> Roomy(s, upTo, edits, room - (upTo - at))
  {
    StopsInside(s, at, edits);
    if edits != [] {
      assert s[at..edits[0].start] == s[at..upTo] + s[upTo..edits[0].start];
    }
  }

  function MaxGrowth(edits: seq<Edit>): nat {
    if edits == [] then 0
    else (if Growth(edits[0]) > 0 then Growth(edits[0]) else 0) + MaxGrowth(edits[1..])
  }

  /** Room for `add` more bytes is enough if the texts grow by less, or if they grow by no more and bytes
      follow the last of them. */
  lemma {:induction false} RoomIfGrowthFits(s: string, from: nat, edits: seq<Edit>, add: nat)
    requires Ordered(s, from, edits) && MaxGrowth(edits) <= add
    requires MaxGrowth(edits) < add || (edits != [] ==> edits[|edits| - 1].stop < |s|)
    ensures Roomy(s, from, edits, |s| - from + add)
    decreases |edits|
  {
    StopsInside(s, from, edits);
    if edits != [] {
      var e, rest := edits[0], edits[1..];
      assert rest != [] ==> rest[|rest| - 1] == edits[|edits| - 1];
      StopsInside(s, e.stop, rest);
      var used := e.start - from + |e.text|;
      RoomIfGrowthFits(s, e.stop, rest, add - Growth(e));
      assert |s| - from + add - used == |s| - e.stop + (add - Growth(e));
    }
  }
}
