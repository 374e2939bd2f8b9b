/** What loading a capture makes of its packets: sides, flows, numbers, gaps. */
module CaptureRules {

  const IPPROTO_TCP := 6
  const FIRST_PKT_SIZE := 64
  const FLOW_IDS := 32   // a packet keeps five bits of its flow's number

  /** A packet as it is read. Version 6 addresses count by their low 32 bits. */
  datatype Raw = Raw(time: real, supported: bool, src: nat, dst: nat, srcPort: nat, dstPort: nat,
                     proto: nat, syn: bool, tcpOffset: nat)

  datatype Key = Key(ip1: nat, ip2: nat, port1: nat, port2: nat, proto: nat)

  function Swapped(r: Raw): bool { r.src <= r.dst }

  function KeyOf(r: Raw): Key {
    if Swapped(r) then Key(r.src, r.dst, r.srcPort, r.dstPort, r.proto)
    else Key(r.dst, r.src, r.dstPort, r.srcPort, r.proto)
  }

  datatype Pkt = Pkt(
    gap: real, init: bool, flowId: nat, flowPktNum: nat, last: bool, rtt: bool,
    // within the flow and its direction, once the whole capture is known
    pktNum: nat, maxPkts: nat, maxFlowPkts: nat, timeout: nat, biDir: bool)

  datatype LoadError = Ok | NegTimestamp | NotSupported | NoSyn | TcpOffsetTooBig | NoTcpFromServer | CapFileErr

  // ----- one packet -----

  predicate IsNewFlow(raws: seq<Raw>, i: nat)
    requires i < |raws|
  {
    forall j | 0 <= j < i :: KeyOf(raws[j]) != KeyOf(raws[i])
  }

  /** The side of a packet, with respect to the first one. Without a plugin only the first flow has one. */
  function IsInit(raws: seq<Raw>, multi: bool, i: nat): bool
    requires i < |raws|
  {
    (multi || KeyOf(raws[i]) == KeyOf(raws[0])) && Swapped(raws[i]) == Swapped(raws[0])
  }

  /** The flows that begin before packet `n`. */
  function FlowsBefore(raws: seq<Raw>, n: nat): nat
    requires n <= |raws|
  {
    if n == 0 then 0 else FlowsBefore(raws, n - 1) + if IsNewFlow(raws, n - 1) then 1 else 0
  }

  /** The packet that began the flow of packet `i`; none before `from` did. */
  function FirstOf(raws: seq<Raw>, i: nat, from: nat): (j: nat)
    requires from <= i < |raws| && forall k | 0 <= k < from :: KeyOf(raws[k]) != KeyOf(raws[i])
    ensures from <= j <= i && KeyOf(raws[j]) == KeyOf(raws[i]) && IsNewFlow(raws, j)
    decreases i - from
  {
    if KeyOf(raws[from]) == KeyOf(raws[i]) then from else FirstOf(raws, i, from + 1)
  }

  /** Flows are numbered in the order they begin. */
  function FlowNumber(raws: seq<Raw>, i: nat): nat
    requires i < |raws|
  {
    FlowsBefore(raws, FirstOf(raws, i, 0))
  }

  /** How many of the first `n` packets have this key. */
  function KeyCount(raws: seq<Raw>, n: nat, key: Key): nat
    requires n <= |raws|
  {
    if n == 0 then 0 else KeyCount(raws, n - 1, key) + if KeyOf(raws[n - 1]) == key then 1 else 0
  }

  /** Why loading stops at packet `i`, if it does. */
  function Check(raws: seq<Raw>, multi: bool, learnAck: bool, i: nat): LoadError
    requires i < |raws|
  {
    var r := raws[i];
    if i > 0 && r.time < raws[i - 1].time then NegTimestamp
    else if !r.supported then NotSupported
    else if learnAck && IsNewFlow(raws, i) && r.proto == IPPROTO_TCP && !(IsInit(raws, multi, i) && r.syn) then NoSyn
    else if learnAck && IsNewFlow(raws, i) && r.proto == IPPROTO_TCP && r.tcpOffset + 14 > FIRST_PKT_SIZE then
      TcpOffsetTooBig
    else if learnAck && r.proto != IPPROTO_TCP && !IsInit(raws, multi, i) then NoTcpFromServer
    else Ok
  }

  /** Without a plugin a capture holds one flow. */
  predicate OneFlow(raws: seq<Raw>, n: nat)
    requires n <= |raws|
  {
    forall i | 0 <= i < n :: KeyOf(raws[i]) == KeyOf(raws[0])
  }

  /** A packet right after reading it, with its time in place of the gap. */
  function Read(raws: seq<Raw>, multi: bool, i: nat): Pkt
    requires i < |raws|
  {
    Pkt(raws[i].time, IsInit(raws, multi, i), FlowNumber(raws, i) % FLOW_IDS, KeyCount(raws, i, KeyOf(raws[i])),
        false, false, 0, 0, 0, 0, false)
  }

  /** A packet of the loaded capture. */
  function Loaded(raws: seq<Raw>, multi: bool, i: nat): Pkt
    requires i < |raws|
  {
    var p := Read(raws, multi, i);
    if i + 1 == |raws| then p.(gap := 0.0, last := true)
    else p.(gap := raws[i + 1].time - raws[i].time, rtt := IsInit(raws, multi, i) != IsInit(raws, multi, i + 1))
  }

  // ----- sides and flows mean what they should -----

  function Reply(r: Raw): Raw { r.(src := r.dst, dst := r.src, srcPort := r.dstPort, dstPort := r.srcPort) }

  /** The two directions of a connection are one flow unless both ends are one host with two ports. */
  lemma ReplyHasSameKey(r: Raw)
    ensures KeyOf(Reply(r)) == KeyOf(r) <==> r.src != r.dst || r.srcPort == r.dstPort
  {
  }

  predicate SameEnds(a: Raw, b: Raw) {
    a.src == b.src && a.dst == b.dst && a.srcPort == b.srcPort && a.dstPort == b.dstPort && a.proto == b.proto
  }

  /** Two packets are of one flow just when they have the same ends, or, between two hosts, when one has the
      ends of a reply to the other. */
  lemma KeyMeansEnds(a: Raw, b: Raw)
    ensures KeyOf(a) == KeyOf(b) <==> SameEnds(a, b) || (a.src != a.dst && SameEnds(a, Reply(b)))
  {
  }

  predicate Between(r: Raw, a: nat, b: nat) { (r.src == a && r.dst == b) || (r.src == b && r.dst == a) }

  /** In a capture of two hosts the packets of the initiating side are those the first packet's sender
      sent. */
  lemma InitSideIsFirstSender(raws: seq<Raw>, i: nat)
    requires i < |raws| && Between(raws[i], raws[0].src, raws[0].dst)
    ensures IsInit(raws, true, i) <==> raws[i].src == raws[0].src
  {
  }

  /** In a capture of one flow too; all its packets are between the two hosts of the first. */
  lemma OneFlowIsTwoHosts(raws: seq<Raw>, multi: bool, i: nat)
    requires i < |raws| && KeyOf(raws[i]) == KeyOf(raws[0])
    ensures Between(raws[i], raws[0].src, raws[0].dst)
    ensures IsInit(raws, multi, i) <==> raws[i].src == raws[0].src
  {
  }

  lemma {:induction false} FlowsGrow(raws: seq<Raw>, m: nat, n: nat)
    requires m <= n <= |raws|
    ensures FlowsBefore(raws, m) <= FlowsBefore(raws, n)
    ensures m < n && IsNewFlow(raws, m) ==> FlowsBefore(raws, m) < FlowsBefore(raws, n)
    decreases n
  {
    if m < n {
      FlowsGrow(raws, m, n - 1);
    }
  }

  /** Packets have the same flow number just when they have the same key; the five bits kept of it still
      tell up to 32 flows apart. */
  lemma FlowNumberIsKey(raws: seq<Raw>, i: nat, j: nat)
    requires i < |raws| && j < |raws|
    ensures FlowNumber(raws, i) == FlowNumber(raws, j) <==> KeyOf(raws[i]) == KeyOf(raws[j])
    ensures FlowsBefore(raws, |raws|) <= FLOW_IDS ==>
      (FlowNumber(raws, i) % FLOW_IDS == FlowNumber(raws, j) % FLOW_IDS <==> KeyOf(raws[i]) == KeyOf(raws[j]))
  {
    var a, b := FirstOf(raws, i, 0), FirstOf(raws, j, 0);
    FlowsGrow(raws, a, |raws|);
    FlowsGrow(raws, b, |raws|);
    if a < b {
      FlowsGrow(raws, a, b);
    } else if b < a {
      FlowsGrow(raws, b, a);
    }
  }

  lemma {:induction false} FlowBegins(raws: seq<Raw>, n: nat, f: nat) returns (i: nat)
    requires n <= |raws| && f < FlowsBefore(raws, n)
    ensures i < n && IsNewFlow(raws, i) && FlowNumber(raws, i) == FlowsBefore(raws, i) == f
  {
    if f < FlowsBefore(raws, n - 1) {
      i := FlowBegins(raws, n - 1, f);
    } else {
      i := n - 1;
      assert FirstOf(raws, i, 0) == i;
    }
  }

  /** With more than 32 flows two of them are told apart no longer. */
  lemma FiveBitsClash(raws: seq<Raw>) returns (i: nat, j: nat)
    requires FlowsBefore(raws, |raws|) > FLOW_IDS
    ensures i < |raws| && j < |raws| && KeyOf(raws[i]) != KeyOf(raws[j])
    ensures FlowNumber(raws, i) % FLOW_IDS == FlowNumber(raws, j) % FLOW_IDS
  {
    i := FlowBegins(raws, |raws|, 0);
    j := FlowBegins(raws, |raws|, FLOW_IDS);
    FlowNumberIsKey(raws, i, j);
  }

  // ----- numbers within a flow -----

  /** How many of the first `n` packets are of a flow and a side. */
  function Count(pkts: seq<Pkt>, n: nat, f: nat, side: bool): nat
    requires n <= |pkts|
  {
    if n == 0 then 0
    else Count(pkts, n - 1, f, side) + if pkts[n - 1].flowId == f && pkts[n - 1].init == side then 1 else 0
  }

  /** When packet `n` is sent, after the gaps before it. */
  function Time(pkts: seq<Pkt>, n: nat): real
    requires n <= |pkts|
  {
    if n == 0 then 0.0 else Time(pkts, n - 1) + pkts[n - 1].gap
  }

  /** When the last packet of a flow before packet `n` was sent, or the beginning. */
  function LastTime(pkts: seq<Pkt>, n: nat, f: nat): real
    requires n <= |pkts|
  {
    if n == 0 then 0.0 else if pkts[n - 1].flowId == f then Time(pkts, n - 1) else LastTime(pkts, n - 1, f)
  }

  /** The longest a flow was silent. */
  function MaxAging(pkts: seq<Pkt>, n: nat, f: nat): real
    requires n <= |pkts|
  {
    if n == 0 then 0.0
    else
      var before := MaxAging(pkts, n - 1, f);
      var silent := Time(pkts, n - 1) - LastTime(pkts, n - 1, f);
      if pkts[n - 1].flowId == f && silent > before then silent else before
  }

  const MAX_TIMEOUT := 65000

  function TimeoutOf(aging: real): nat
    requires aging >= 0.0
  {
    var sec := aging * 2.0 + 5.0;
    if sec > MAX_TIMEOUT as real then MAX_TIMEOUT else sec.Floor
  }

  lemma {:induction false} AgingNonnegative(pkts: seq<Pkt>, n: nat, f: nat)
    requires n <= |pkts|
    ensures MaxAging(pkts, n, f) >= 0.0
  {
    if n > 0 {
      AgingNonnegative(pkts, n - 1, f);
    }
  }

  /** Packet `i` once the whole capture is known. */
  function Numbered(pkts: seq<Pkt>, i: nat): Pkt
    requires i < |pkts|
  {
    var p, n := pkts[i], |pkts|;
    var up, down := Count(pkts, n, p.flowId, true), Count(pkts, n, p.flowId, false);
    AgingNonnegative(pkts, n, p.flowId);
    p.(pktNum := Count(pkts, i, p.flowId, p.init), maxPkts := if p.init then up else down, maxFlowPkts := up + down,
       timeout := TimeoutOf(MaxAging(pkts, n, p.flowId)), biDir := if up > 0 && down > 0 then true else p.biDir)
  }

  function NumberedAll(pkts: seq<Pkt>): (r: seq<Pkt>)
    ensures |r| == |pkts|
  {
    seq(|pkts|, i requires 0 <= i < |pkts| => Numbered(pkts, i))
  }

  predicate IsPkt(p: Pkt, f: nat, side: bool) { p.flowId == f && p.init == side }

  lemma {:induction false} CountGrows(pkts: seq<Pkt>, m: nat, n: nat, f: nat, side: bool)
    requires m <= n <= |pkts|
    ensures Count(pkts, m, f, side) <= Count(pkts, n, f, side)
    ensures m < n && IsPkt(pkts[m], f, side) ==> Count(pkts, m, f, side) < Count(pkts, n, f, side)
    decreases n
  {
    if m < n {
      CountGrows(pkts, m, n - 1, f, side);
    }
  }

  lemma {:induction false} Ranked(pkts: seq<Pkt>, n: nat, f: nat, side: bool, k: nat) returns (i: nat)
    requires n <= |pkts| && k < Count(pkts, n, f, side)
    ensures i < n && IsPkt(pkts[i], f, side) && Count(pkts, i, f, side) == k
  {
    if k < Count(pkts, n - 1, f, side) {
      i := Ranked(pkts, n - 1, f, side, k);
    } else {
      i := n - 1;
    }
  }

  ghost predicate HasNumber(pkts: seq<Pkt>, f: nat, side: bool, k: nat) {
    exists i :: 0 <= i < |pkts| && IsPkt(pkts[i], f, side) && NumberedAll(pkts)[i].pktNum == k
  }

  /** The packets of each flow and side carry the numbers from 0 up to their count, in order and each
      once. */
  lemma NumbersAreExact(pkts: seq<Pkt>, f: nat, side: bool)
    ensures forall i, j | 0 <= i < j < |pkts| && IsPkt(pkts[i], f, side) && IsPkt(pkts[j], f, side) ::
      NumberedAll(pkts)[i].pktNum < NumberedAll(pkts)[j].pktNum
    ensures forall i | 0 <= i < |pkts| && IsPkt(pkts[i], f, side) ::
      NumberedAll(pkts)[i].pktNum < NumberedAll(pkts)[i].maxPkts == Count(pkts, |pkts|, f, side)
    ensures forall k: nat | k < Count(pkts, |pkts|, f, side) :: HasNumber(pkts, f, side, k)
  {
    forall i, j | 0 <= i < j < |pkts| && IsPkt(pkts[i], f, side) && IsPkt(pkts[j], f, side)
      ensures NumberedAll(pkts)[i].pktNum < NumberedAll(pkts)[j].pktNum
    {
      CountGrows(pkts, i, j, f, side);
    }
    forall i | 0 <= i < |pkts| && IsPkt(pkts[i], f, side)
      ensures NumberedAll(pkts)[i].pktNum < NumberedAll(pkts)[i].maxPkts == Count(pkts, |pkts|, f, side)
    {
      CountGrows(pkts, i, |pkts|, f, side);
    }
    forall k: nat | k < Count(pkts, |pkts|, f, side)
      ensures HasNumber(pkts, f, side, k)
    {
      var i := Ranked(pkts, |pkts|, f, side, k);
      assert NumberedAll(pkts)[i].pktNum == k;
    }
  }

  lemma {:induction false} AgingCovers(pkts: seq<Pkt>, n: nat, j: nat)
    requires j < n <= |pkts|
    ensures Time(pkts, j) - LastTime(pkts, j, pkts[j].flowId) <= MaxAging(pkts, n, pkts[j].flowId)
  {
    if j < n - 1 {
      AgingCovers(pkts, n - 1, j);
    }
  }

  lemma {:induction false} LastTimeIs(pkts: seq<Pkt>, i: nat, n: nat, f: nat)
    requires i < n <= |pkts| && pkts[i].flowId == f && forall k | i < k < n :: pkts[k].flowId != f
    ensures LastTime(pkts, n, f) == Time(pkts, i)
  {
    if i < n - 1 {
      LastTimeIs(pkts, i, n - 1, f);
    }
  }

  /** Between two packets of a flow that follow one another less time passes than the flow's timeout, just
      when it is less than the largest timeout there is. */
  lemma TimeoutOutlastsGaps(pkts: seq<Pkt>, i: nat, j: nat)
    requires i < j < |pkts| && pkts[i].flowId == pkts[j].flowId
    requires forall k | i < k < j :: pkts[k].flowId != pkts[i].flowId
    ensures Time(pkts, j) - Time(pkts, i) < NumberedAll(pkts)[j].timeout as real
       <==> Time(pkts, j) - Time(pkts, i) < MAX_TIMEOUT as real
    ensures NumberedAll(pkts)[i].timeout == NumberedAll(pkts)[j].timeout <= MAX_TIMEOUT
  {
    var f := pkts[j].flowId;
    AgingCovers(pkts, |pkts|, j);
    LastTimeIs(pkts, i, j, f);
    AgingNonnegative(pkts, |pkts|, f);
    var aging := MaxAging(pkts, |pkts|, f);
    var sec := aging * 2.0 + 5.0;
    assert sec.Floor as real > sec - 1.0;
  }

  predicate SilentFor(pkts: seq<Pkt>, f: nat, i: nat, time: real) {
    i < |pkts| && pkts[i].flowId == f && time == Time(pkts, i) - LastTime(pkts, i, f)
  }

  /** Some packet of the flow came after the longest silence, unless there was none. */
  lemma {:induction false} AgingAttained(pkts: seq<Pkt>, n: nat, f: nat) returns (i: nat)
    requires n <= |pkts|
    ensures MaxAging(pkts, n, f) == 0.0 || SilentFor(pkts, f, i, MaxAging(pkts, n, f))
  {
    i := 0;
    if n > 0 {
      if pkts[n - 1].flowId == f && Time(pkts, n - 1) - LastTime(pkts, n - 1, f) > MaxAging(pkts, n - 1, f) {
        i := n - 1;
      } else {
        i := AgingAttained(pkts, n - 1, f);
      }
    }
  }

  /** The timeout of a flow is twice its longest silence and five seconds more, in whole seconds, up to the
      largest there is. */
  lemma TimeoutFollowsSilence(pkts: seq<Pkt>, j: nat) returns (silent: real, i: nat)
    requires j < |pkts|
    ensures forall k | 0 <= k < |pkts| && pkts[k].flowId == pkts[j].flowId ::
      Time(pkts, k) - LastTime(pkts, k, pkts[j].flowId) <= silent
    ensures silent == 0.0 || SilentFor(pkts, pkts[j].flowId, i, silent)
    ensures
      var timeout := NumberedAll(pkts)[j].timeout;
      if silent * 2.0 + 5.0 > MAX_TIMEOUT as real then timeout == MAX_TIMEOUT
      else timeout as real <= silent * 2.0 + 5.0 < timeout as real + 1.0
  {
    hide MaxAging, LastTime, Time;
    var f := pkts[j].flowId;
    silent := MaxAging(pkts, |pkts|, f);
    i := AgingAttained(pkts, |pkts|, f);
    AgingNonnegative(pkts, |pkts|, f);
    forall k | 0 <= k < |pkts| && pkts[k].flowId == f
      ensures Time(pkts, k) - LastTime(pkts, k, f) <= silent
    {
      AgingCovers(pkts, |pkts|, k);
    }
  }

  ghost function OfFlow(pkts: seq<Pkt>, n: nat, f: nat, side: bool): set<nat>
    requires n <= |pkts|
  {
    set i: nat | i < n && IsPkt(pkts[i], f, side)
  }

  lemma {:induction false} CountIsSize(pkts: seq<Pkt>, n: nat, f: nat, side: bool)
    requires n <= |pkts|
    ensures Count(pkts, n, f, side) == |OfFlow(pkts, n, f, side)|
  {
    if n == 0 {
      assert OfFlow(pkts, 0, f, side) == {};
    } else {
      CountIsSize(pkts, n - 1, f, side);
      assert OfFlow(pkts, n, f, side)
        == OfFlow(pkts, n - 1, f, side) + if IsPkt(pkts[n - 1], f, side) then {n - 1} else {};
    }
  }

  /** What every packet knows of its flow: how many packets its side has, how many both have, and whether
      there are packets both ways. */
  lemma FlowTotals(pkts: seq<Pkt>, i: nat)
    requires i < |pkts|
    ensures
      var n, f, p := |pkts|, pkts[i].flowId, NumberedAll(pkts)[i];
      && p.maxPkts == |OfFlow(pkts, n, f, pkts[i].init)|
      && p.maxFlowPkts == |OfFlow(pkts, n, f, true)| + |OfFlow(pkts, n, f, false)|
      && (p.biDir <==> pkts[i].biDir || (OfFlow(pkts, n, f, true) != {} && OfFlow(pkts, n, f, false) != {}))
  {
    CountIsSize(pkts, |pkts|, pkts[i].flowId, true);
    CountIsSize(pkts, |pkts|, pkts[i].flowId, false);
  }
}
