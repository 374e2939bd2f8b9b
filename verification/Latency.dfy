/** The latency probes of a port: sequence numbers sent and checked, and ICMP requests and replies ("Echo or
    Echo Reply Message" of RFC 792). */
module Latency {
  import opened Selections

  const U16 := 0x1_0000
  const U32 := 0x1_0000_0000
  const FIRST_SEQ := 0x1234_5678

  datatype Mode = ZeroSeq | NoReply | ReplyMode

  // ----- the reply side, by its events -----

  datatype Event = Request(number: nat) | Tick

  datatype Icmp = Icmp(txSeq: nat, rxSeq: nat)

  const START := Icmp(1, 0)

  /** In reply mode a server may send only what it has been asked for. */
  predicate MaySend(s: Icmp) { s.txSeq <= s.rxSeq }

  function AfterSend(s: Icmp): Icmp { s.(txSeq := (s.txSeq + 1) % U16) }

  function AfterRequest(number: nat): Icmp { Icmp(number, number) }

  /** The state after the events, and the numbers of the replies sent at the ticks. */
  function Serve(events: seq<Event>): (Icmp, seq<nat>) {
    if events == [] then (START, [])
    else
      var (s, sent) := Serve(events[..|events| - 1]);
      match events[|events| - 1]
      case Request(number) => (AfterRequest(number), sent)
      case Tick => if MaySend(s) then (AfterSend(s), sent + [s.txSeq]) else (s, sent)
  }

  /** The request that is still to be answered: the last one, if no tick has come since. */
  function Open(events: seq<Event>): seq<nat> {
    if events == [] then []
    else match events[|events| - 1]
      case Request(number) => [number]
      case Tick => []
  }

  /** Each tick answers the request that has come just before it, if one has. */
  function Answers(events: seq<Event>): seq<nat> {
    if events == [] then []
    else
      var before := events[..|events| - 1];
      Answers(before) + if events[|events| - 1].Tick? then Open(before) else []
  }

  function Requests(events: seq<Event>): nat {
    if events == [] then 0
    else Requests(events[..|events| - 1]) + if events[|events| - 1].Request? then 1 else 0
  }

  /** The numbers on the wire have sixteen bits. */
  predicate Numbers(events: seq<Event>) {
    forall i | 0 <= i < |events| && events[i].Request? :: events[i].number < U16
  }

  /** At event `i` a request with the last number of sixteen bits has been answered, and the next tick comes
      before the next request. */
  predicate WrapAt(events: seq<Event>, i: nat) {
    i + 2 < |events| && events[i] == Request(U16 - 1) && events[i + 1] == Tick && events[i + 2] == Tick
  }

  predicate NoWrap(events: seq<Event>) { forall i | 0 <= i < |events| :: !WrapAt(events, i) }

  /** Whatever requests the network loses, doubles, delays or reorders: each tick replies to the most recent
      request, once, and only if one has come since the last tick, just when two ticks never directly
      follow a request with the last number. */
  lemma {:induction false} RepliesAnswer(events: seq<Event>)
    requires Numbers(events)
    ensures Serve(events).1 == Answers(events) <==> NoWrap(events)
  {
    if NoWrap(events) {
      RepliesWithoutWrap(events);
    } else {
      var i :| 0 <= i < |events| && WrapAt(events, i);
      RepliesAfterWrap(events, i);
    }
  }

  /** The last tick has answered a request with the last number. */
  predicate JustWrapped(events: seq<Event>) {
    |events| >= 2 && events[|events| - 2] == Request(U16 - 1) && events[|events| - 1] == Tick
  }

  lemma {:induction false} RepliesWithoutWrap(events: seq<Event>)
    requires Numbers(events) && NoWrap(events)
    ensures Serve(events).1 == Answers(events)
    ensures if Open(events) != [] then Serve(events).0 == AfterRequest(Open(events)[0])
            else JustWrapped(events) || !MaySend(Serve(events).0)
    ensures Serve(events).0.txSeq < U16
  {
    if events != [] {
      var n := |events| - 1;
      var before := events[..n];
      assert forall i | 0 <= i < n && WrapAt(before, i) :: WrapAt(events, i);
      RepliesWithoutWrap(before);
      if events[n].Tick? {
        if Open(before) != [] {
          WaitsAfterReply(AfterRequest(Open(before)[0]));
        } else if n >= 2 {
          assert !WrapAt(events, n - 2);
        }
      }
    }
  }

  /** There are never fewer replies than there should be. */
  lemma {:induction false} RepliesAtLeast(events: seq<Event>)
    requires Numbers(events)
    ensures |Serve(events).1| >= |Answers(events)|
    ensures Open(events) != [] ==> Serve(events).0 == AfterRequest(Open(events)[0])
  {
    if events != [] {
      RepliesAtLeast(events[..|events| - 1]);
    }
  }

  /** At a wrap one reply too many is sent, and nothing makes up for it. */
  lemma {:induction false} RepliesAfterWrap(events: seq<Event>, i: nat)
    requires Numbers(events) && WrapAt(events, i)
    ensures |Serve(events).1| > |Answers(events)|
  {
    var n := |events| - 1;
    var before := events[..n];
    RepliesAtLeast(before);
    if i + 2 == n {
      var first := before[..n - 1];
      assert first[..n - 2] == events[..n - 2];
      RepliesAtLeast(first);
      assert Open(first) == [U16 - 1];
      assert Serve(before).0 == AfterSend(AfterRequest(U16 - 1));
    } else {
      assert WrapAt(before, i);
      RepliesAfterWrap(before, i);
    }
  }

  /** Until a wrap the server never sends more replies than it has received requests. */
  lemma {:induction false} NoMoreRepliesThanRequests(events: seq<Event>)
    requires Numbers(events) && NoWrap(events)
    ensures |Serve(events).1| + |Open(events)| <= Requests(events)
  {
    RepliesAnswer(events);
    AnswersBounded(events);
  }

  lemma {:induction false} AnswersBounded(events: seq<Event>)
    ensures |Answers(events)| + |Open(events)| <= Requests(events)
  {
    if events != [] {
      AnswersBounded(events[..|events| - 1]);
    }
  }

  /** After a reply the server waits for the next request, unless the number just sent was the last of
      sixteen bits. */
  lemma WaitsAfterReply(s: Icmp)
    requires s.txSeq == s.rxSeq < U16
    ensures MaySend(AfterSend(s)) <==> s.txSeq == U16 - 1
  {
  }

  /** At the wrap one request draws two replies. */
  lemma WrapRepliesTwice()
    ensures Serve([Request(U16 - 1), Tick, Tick]).1 == [U16 - 1, 0]
  {
    var a, b, c := [Request(U16 - 1)], [Request(U16 - 1), Tick], [Request(U16 - 1), Tick, Tick];
    assert a[..0] == [] && b[..1] == a && c[..2] == b;
    assert Serve(a) == (AfterRequest(U16 - 1), []);
  }

  /** Requests that a tick directly follows. */
  ghost function Answered(events: seq<Event>, n: nat): set<nat>
    requires n <= |events|
  {
    set i: nat | i + 1 < n && events[i].Request? && events[i + 1].Tick?
  }

  /** The expected answers are the numbers of the requests that a tick directly follows, each once and in
      order. */
  lemma {:induction false} AnswersAre(events: seq<Event>, n: nat) returns (places: seq<nat>)
    requires n <= |events|
    ensures Enumerates(places, Answered(events, n)) && |Answers(events[..n])| == |places|
    ensures forall k | 0 <= k < |places| ::
      places[k] < n && events[places[k]].Request? && Answers(events[..n])[k] == events[places[k]].number
    decreases n
  {
    places := [];
    if n > 0 {
      places := AnswersAre(events, n - 1);
      assert events[..n][..n - 1] == events[..n - 1];
      if n > 1 && events[n - 2].Request? && events[n - 1].Tick? {
        EnumeratesMore(places, Answered(events, n - 1), n - 2);
        places := places + [n - 2];
        assert Answered(events, n) == Answered(events, n - 1) + {n - 2};
      } else {
        assert Answered(events, n) == Answered(events, n - 1);
      }
    }
  }

  // ----- the checks of the receiver -----

  /** How many received probes do not carry the number after that of the one before. */
  function Breaks(expected: nat, numbers: seq<nat>): nat {
    if numbers == [] then 0
    else
      var before, last := numbers[..|numbers| - 1], numbers[|numbers| - 1];
      Breaks(expected, before) + if last == Expected(expected, before) then 0 else 1
  }

  function Expected(expected: nat, numbers: seq<nat>): nat {
    if numbers == [] then expected else (numbers[|numbers| - 1] + 1) % U32
  }

  lemma {:induction false} NoBreaks(expected: nat, numbers: seq<nat>)
    requires expected < U32
    ensures Breaks(expected, numbers) == 0
       <==> forall i | 0 <= i < |numbers| :: numbers[i] == (expected + i) % U32
  {
    if numbers != [] {
      var before, n := numbers[..|numbers| - 1], |numbers|;
      NoBreaks(expected, before);
      assert forall i | 0 <= i < n - 1 :: before[i] == numbers[i];
      if n > 1 && before[n - 2] == (expected + (n - 2)) % U32 {
        NextNumber(expected + (n - 2));
      }
    }
  }

  /** Probe `i` does not carry the number after that of the one before. */
  predicate IsBreak(expected: nat, numbers: seq<nat>, i: nat)
    requires i < |numbers|
  {
    numbers[i] != if i == 0 then expected else (numbers[i - 1] + 1) % U32
  }

  /** The probes that do not carry the number they should. */
  ghost function Unexpected(expected: nat, numbers: seq<nat>, n: nat): set<nat>
    requires n <= |numbers|
  {
    set i: nat | i < n && IsBreak(expected, numbers, i)
  }

  /** Each of them is counted once, and a gap costs one error however wide it is. */
  lemma {:induction false} BreaksCount(expected: nat, numbers: seq<nat>, n: nat)
    requires n <= |numbers|
    ensures Breaks(expected, numbers[..n]) == |Unexpected(expected, numbers, n)|
    decreases n
  {
    if n == 0 {
      assert Unexpected(expected, numbers, 0) == {};
    } else {
      BreaksCount(expected, numbers, n - 1);
      assert numbers[..n][..n - 1] == numbers[..n - 1];
      UnexpectedNext(expected, numbers, n);
    }
  }

  lemma UnexpectedNext(expected: nat, numbers: seq<nat>, n: nat)
    requires 0 < n <= |numbers|
    ensures |Unexpected(expected, numbers, n)|
         == |Unexpected(expected, numbers, n - 1)| + if IsBreak(expected, numbers, n - 1) then 1 else 0
  {
    hide IsBreak;
    assert Unexpected(expected, numbers, n)
      == Unexpected(expected, numbers, n - 1) + if IsBreak(expected, numbers, n - 1) then {n - 1} else {};
  }

  lemma NextNumber(x: nat)
    ensures (x % U32 + 1) % U32 == (x + 1) % U32
  {
  }

  // ----- the port -----

  class PortLatency {
    const mode: Mode
    const learn: bool     // NAT translations are learnt
    const pktSize: nat
    var natCanSend: bool
    var natLearn: bool
    var txSeq: nat
    var rxSeq: nat
    var icmp: Icmp
    var pktOk: nat
    var seqError: nat
    var lengthError: nat
    ghost var firstRx: nat
    ghost var received: seq<nat>

    constructor (mode: Mode, learn: bool, client: bool, pktSize: nat)
      ensures Valid() && received == [] && icmp == START && pktOk == seqError == lengthError == 0
    {
      this.mode, this.learn, this.pktSize := mode, learn, pktSize;
      natCanSend, natLearn := client, client;
      txSeq, rxSeq, icmp := FIRST_SEQ, FIRST_SEQ, START;
      pktOk, seqError, lengthError := 0, 0, 0;
      firstRx, received := FIRST_SEQ, [];
    }

    /** Each probe of the right length is either in order or counted as a break. */
    ghost predicate Valid()
      reads this
    {
      && rxSeq == Expected(firstRx, received) && firstRx < U32
      && seqError == Breaks(firstRx, received) && pktOk + seqError == |received|
    }

    /** The counts start anew; the next probe should carry the number this port would send. */
    method Reset()
      requires Valid() && txSeq < U32
      modifies `rxSeq, `pktOk, `seqError, `lengthError, `firstRx, `received
      ensures Valid() && received == [] && firstRx == txSeq && pktOk == seqError == lengthError == 0
    {
      rxSeq, pktOk, seqError, lengthError := txSeq, 0, 0, 0;
      firstRx, received := txSeq, [];
    }

    /** Fills in a probe: its own number, the ICMP number and type. */
    method UpdatePacket(server: bool) returns (number: nat, icmpSeq: nat, icmpType: nat)
      requires Valid()
      modifies `txSeq, `icmp
      ensures Valid() && number == old(txSeq) && txSeq == (number + 1) % U32
      ensures icmpType == (if server && mode == ReplyMode then 0 else 8)
      ensures if mode == ZeroSeq then icmpSeq == 0 && icmp == old(icmp)
              else icmpSeq == old(icmp).txSeq && icmp == AfterSend(old(icmp))
    {
      number := txSeq;
      txSeq := (txSeq + 1) % U32;
      if mode == ZeroSeq {
        icmpSeq := 0;
      } else {
        icmpSeq := icmp.txSeq;
        icmp := icmp.(txSeq := (icmp.txSeq + 1) % U16);
      }
      icmpType := if server && mode == ReplyMode then 0 else 8;
    }

    /** A probe of the latency traffic has come in. */
    method CheckPacket(size: nat, number: nat, icmpSeq: nat) returns (ok: bool)
      requires Valid()
      modifies this
      ensures Valid()
      ensures natCanSend == (old(natCanSend) || (learn && !old(natLearn)))
      ensures
        if size != pktSize then
          !ok && received == old(received) && icmp == old(icmp) && lengthError == old(lengthError) + 1
        else
          && received == old(received) + [number] && icmp == AfterRequest(icmpSeq)
          && lengthError == old(lengthError) && (ok <==> number == old(rxSeq))
    {
      if learn && !natLearn {
        natCanSend, natLearn := true, true;
      }
      if size != pktSize {
        lengthError := lengthError + 1;
        return false;
      }
      icmp := Icmp(icmpSeq, icmpSeq);
      received := received + [number];
      assert received[..|received| - 1] == old(received);
      if number != rxSeq {
        seqError := seqError + 1;
        rxSeq := (number + 1) % U32;
        return false;
      }
      rxSeq := (rxSeq + 1) % U32;
      pktOk := pktOk + 1;
      ok := true;
    }
  }
}
