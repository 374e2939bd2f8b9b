/** Sequence and acknowledgement numbers of a replayed TCP flow whose payloads grow and shrink. */
module TcpSequence {

  const U32 := 0x1_0000_0000

  /** A segment: its direction, its numbers, whether its acknowledgement number means anything (the ACK bit,
      section 3.1 of RFC 9293), and the sequence space it takes (section 3.4). */
  datatype Segment = Segment(fromClient: bool, number: nat, acks: bool, ack: nat, space: nat)

  /** One segment of the template and the change of its payload's size. */
  datatype Change = Change(seg: Segment, size: int)

  /** How much the client's (or the server's) payloads have grown in all. */
  function Grown(trace: seq<Change>, byClient: bool): int {
    if trace == [] then 0
    else
      var last := trace[|trace| - 1];
      Grown(trace[..|trace| - 1], byClient) + if last.seg.fromClient == byClient then last.size else 0
  }

  function Shift(number: int, delta: int): nat { (number + delta) % U32 }

  /** The whole template with the numbers the player gives its segments. */
  function Rewritten(trace: seq<Change>): (r: seq<Segment>)
    ensures |r| == |trace|
  {
    if trace == [] then []
    else
      var before, last := trace[..|trace| - 1], trace[|trace| - 1];
      Rewritten(before) + [RewriteOne(before, last)]
  }

  function RewriteOne(before: seq<Change>, c: Change): Segment {
    var s := c.seg;
    Segment(s.fromClient, Shift(s.number, Grown(before, s.fromClient)),
            s.acks, Shift(s.ack, Grown(before, !s.fromClient)),
            if s.space + c.size >= 0 then s.space + c.size else 0)
  }

  // ----- the player -----

  class TcpSeq {
    var clientDelta: nat
    var serverDelta: nat
    ghost var played: seq<Change>

    constructor ()
      ensures Valid() && played == []
    {
      clientDelta, serverDelta := 0, 0;
      played := [];
    }

    ghost predicate Valid()
      reads this
    {
      clientDelta == Shift(0, Grown(played, true)) && serverDelta == Shift(0, Grown(played, false))
    }

    /** Shifts a segment's numbers by what its own side and its peer have grown so far, then takes in its
        own growth. */
    method Update(s: Segment, size: int) returns (r: Segment)
      requires Valid()
      modifies this
      ensures Valid() && played == old(played) + [Change(s, size)]
      ensures r == RewriteOne(old(played), Change(s, size))
    {
      hide Grown, Shift, Sum32;
      ghost var before := played;
      var number, ack;
      if s.fromClient {
        number, ack := Sum32(s.number, clientDelta), Sum32(s.ack, serverDelta);
      } else {
        number, ack := Sum32(s.number, serverDelta), Sum32(s.ack, clientDelta);
      }
      ShiftShift(s.number, Grown(before, s.fromClient));
      ShiftShift(s.ack, Grown(before, !s.fromClient));
      r := Segment(s.fromClient, number, s.acks, ack, if s.space + size >= 0 then s.space + size else 0);
      GrownNext(before, Change(s, size), true);
      GrownNext(before, Change(s, size), false);
      if s.fromClient {
        DeltaShift(Grown(before, true), size);
        clientDelta := Sum32(clientDelta, size);
      } else {
        DeltaShift(Grown(before, false), size);
        serverDelta := Sum32(serverDelta, size);
      }
      played := played + [Change(s, size)];
    }
  }

  lemma GrownNext(before: seq<Change>, c: Change, byClient: bool)
    ensures Grown(before + [c], byClient)
         == Grown(before, byClient) + if c.seg.fromClient == byClient then c.size else 0
  {
    assert (before + [c])[..|before|] == before;
  }

  /** Addition in 32 bits. */
  function Sum32(x: int, y: int): nat { (x + y) % U32 }

  lemma SameRemainder(x: int, y: int, q: int)
    requires x == y + q * U32
    ensures x % U32 == y % U32
  {
  }

  lemma ShiftShift(n: int, d: int)
    ensures Shift(n, d) == Sum32(n, Shift(0, d))
  {
    SameRemainder(n + d, n + d % U32, d / U32);
  }

  lemma DeltaShift(d: int, size: int)
    ensures Shift(0, d + size) == Sum32(Shift(0, d), size)
  {
    SameRemainder(d + size, d % U32 + size, d / U32);
  }

  // ----- what a consistent flow is -----

  /** Segment `i` starts where its own side stands and, if it acknowledges at all, acknowledges all the peer
      has sent before it. */
  predicate InPlace(segs: seq<Segment>, i: nat, clientStart: int, serverStart: int)
    requires i < |segs|
  {
    var s := segs[i];
    var own := if s.fromClient then clientStart else serverStart;
    var peer := if s.fromClient then serverStart else clientStart;
    && s.number == Shift(own, SentBefore(segs, i, s.fromClient))
    && (s.acks ==> s.ack == Shift(peer, SentBefore(segs, i, !s.fromClient)))
  }

  function SentBefore(segs: seq<Segment>, n: nat, byClient: bool): int
    requires n <= |segs|
  {
    if n == 0 then 0
    else SentBefore(segs, n - 1, byClient) + if segs[n - 1].fromClient == byClient then segs[n - 1].space else 0
  }

  predicate Consistent(segs: seq<Segment>, clientStart: int, serverStart: int) {
    forall i | 0 <= i < |segs| :: InPlace(segs, i, clientStart, serverStart)
  }

  function Template(trace: seq<Change>): (r: seq<Segment>)
    ensures |r| == |trace|
  {
    seq(|trace|, i requires 0 <= i < |trace| => trace[i].seg)
  }

  /** Numbers are 32-bit and no payload shrinks below nothing. */
  predicate Possible(trace: seq<Change>) {
    forall i | 0 <= i < |trace| ::
      trace[i].seg.number < U32 && trace[i].seg.ack < U32 && trace[i].seg.space + trace[i].size >= 0
  }

  // ----- the rewriting keeps it -----

  lemma {:induction false} RewrittenAt(trace: seq<Change>, i: nat)
    requires i < |trace|
    ensures Rewritten(trace)[i] == RewriteOne(trace[..i], trace[i])
  {
    var before := trace[..|trace| - 1];
    if i == |trace| - 1 {
    } else {
      RewrittenAt(before, i);
      assert before[..i] == trace[..i];
    }
  }

  /** What a side has sent before segment `i`, after the changes, is what it sent in the template and what
      it grew. */
  lemma {:induction false} SentGrows(trace: seq<Change>, i: nat, byClient: bool)
    requires Possible(trace) && i <= |trace|
    ensures SentBefore(Rewritten(trace), i, byClient)
         == SentBefore(Template(trace), i, byClient) + Grown(trace[..i], byClient)
  {
    if i > 0 {
      SentGrows(trace, i - 1, byClient);
      RewrittenAt(trace, i - 1);
      assert trace[..i][..i - 1] == trace[..i - 1];
    }
  }

  lemma ShiftBoth(n: int, start: int, sent: int, grown: int)
    requires 0 <= n < U32
    ensures Shift(n, grown) == Shift(start, sent + grown) <==> n == Shift(start, sent)
  {
  }

  /** Whatever the size changes, each segment of the rewritten flow is in place just when it is in the
      template; so the rewritten flow is consistent just when the template is. */
  lemma {:induction false} RewritingKeepsConsistency(trace: seq<Change>, clientStart: int, serverStart: int)
    requires Possible(trace)
    ensures forall i: nat | i < |trace| ::
      InPlace(Rewritten(trace), i, clientStart, serverStart) <==> InPlace(Template(trace), i, clientStart, serverStart)
    ensures Consistent(Rewritten(trace), clientStart, serverStart) <==>
      Consistent(Template(trace), clientStart, serverStart)
  {
    forall i: nat | i < |trace|
      ensures InPlace(Rewritten(trace), i, clientStart, serverStart)
         <==> InPlace(Template(trace), i, clientStart, serverStart)
    {
      StaysInPlace(trace, i, clientStart, serverStart);
    }
  }

  lemma {:induction false} StaysInPlace(trace: seq<Change>, i: nat, clientStart: int, serverStart: int)
    requires Possible(trace) && i < |trace|
    ensures InPlace(Rewritten(trace), i, clientStart, serverStart) <==>
      InPlace(Template(trace), i, clientStart, serverStart)
  {
    RewrittenAt(trace, i);
    var s := trace[i].seg;
    var own := if s.fromClient then clientStart else serverStart;
    var peer := if s.fromClient then serverStart else clientStart;
    SentGrows(trace, i, s.fromClient);
    SentGrows(trace, i, !s.fromClient);
    ShiftBoth(s.number, own, SentBefore(Template(trace), i, s.fromClient), Grown(trace[..i], s.fromClient));
    ShiftBoth(s.ack, peer, SentBefore(Template(trace), i, !s.fromClient), Grown(trace[..i], !s.fromClient));
  }

  /** A flow with its handshake is consistent: the opening segment acknowledges nothing, and what stands in
      its acknowledgement number does not matter. */
  lemma HandshakeIsConsistent(c: nat, s: nat, junk: nat, space: nat)
    requires c < U32 && s < U32
    ensures
      var syn := Segment(true, c, false, junk, 1);
      var synAck := Segment(false, s, true, (c + 1) % U32, 1);
      var request := Segment(true, (c + 1) % U32, true, (s + 1) % U32, space);
      Consistent([syn, synAck, request], c, s)
  {
    var syn := Segment(true, c, false, junk, 1);
    var synAck := Segment(false, s, true, (c + 1) % U32, 1);
    var request := Segment(true, (c + 1) % U32, true, (s + 1) % U32, space);
    var segs := [syn, synAck, request];
    assert SentBefore(segs, 0, true) == 0 && SentBefore(segs, 0, false) == 0;
    assert SentBefore(segs, 1, true) == 1 && SentBefore(segs, 1, false) == 0;
    assert SentBefore(segs, 2, true) == 1 && SentBefore(segs, 2, false) == 1;
    assert InPlace(segs, 0, c, s) && InPlace(segs, 1, c, s) && InPlace(segs, 2, c, s);
  }

  /** An acknowledgement of only what the peer had sent before segment `j` is shifted by all the growth up to
      segment `i`: it stays right just when the segments in between did not change the peer's size. */
  lemma LateAck(trace: seq<Change>, i: nat, j: nat, peerStart: int)
    requires Possible(trace) && j <= i < |trace|
    requires
      var s := trace[i].seg;
      s.ack == Shift(peerStart, SentBefore(Template(trace), j, !s.fromClient))
    ensures
      var s := trace[i].seg;
      Rewritten(trace)[i].ack == Shift(peerStart, SentBefore(Rewritten(trace), j, !s.fromClient))
      <==> (Grown(trace[..i], !s.fromClient) - Grown(trace[..j], !s.fromClient)) % U32 == 0
  {
    hide Shift, SentBefore, Grown;
    var s := trace[i].seg;
    RewrittenAt(trace, i);
    SentGrows(trace, j, !s.fromClient);
    LateShift(s.ack, peerStart, SentBefore(Template(trace), j, !s.fromClient),
              Grown(trace[..i], !s.fromClient), Grown(trace[..j], !s.fromClient));
  }

  lemma LateShift(ack: int, start: int, sent: int, gi: int, gj: int)
    requires ack == Shift(start, sent)
    ensures Shift(ack, gi) == Shift(start, sent + gj) <==> (gi - gj) % U32 == 0
  {
  }
}
