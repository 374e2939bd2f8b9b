/** Loading a capture: its packets are read one by one, then the list is updated in place. */
module Capture {
  import opened CaptureRules
  import Templates

  datatype FlowEntry = FlowEntry(pktId: nat, flowId: nat)

  /** What is counted of a flow while the list is numbered. */
  datatype Tmp = Tmp(up: nat, down: nat, maxAging: real, lastPkt: real)

  class CapFileFlowInfo {
    var pkts: seq<Pkt>
    var totalFlows: nat
    var totalErrors: nat

    constructor ()
      ensures pkts == []
    {
      pkts, totalFlows, totalErrors := [], 0, 0;
    }

    /** The flows met in the first `n` packets, and how many packets of each. */
    static ghost predicate CountsOk(table: map<Key, FlowEntry>, raws: seq<Raw>, n: nat)
      requires n <= |raws|
    {
      forall k :: (k in table <==> KeyCount(raws, n, k) > 0) && (k in table ==> table[k].pktId == KeyCount(raws, n, k))
    }

    static ghost predicate IdsOk(table: map<Key, FlowEntry>, raws: seq<Raw>, multi: bool, n: nat)
      requires n <= |raws|
    {
      forall i | 0 <= i < n && (multi || KeyOf(raws[i]) == KeyOf(raws[0])) ::
        KeyOf(raws[i]) in table && table[KeyOf(raws[i])].flowId == FlowNumber(raws, i)
    }

    static lemma {:induction false} NewIfNoneCounted(raws: seq<Raw>, i: nat, n: nat)
      requires n <= i < |raws|
      ensures KeyCount(raws, n, KeyOf(raws[i])) == 0 <==> forall j | 0 <= j < n :: KeyOf(raws[j]) != KeyOf(raws[i])
    {
      if n > 0 {
        NewIfNoneCounted(raws, i, n - 1);
      }
    }

    /** The first `n` packets have been read. */
    ghost predicate Loading(raws: seq<Raw>, multi: bool, n: nat)
      requires n <= |raws|
      reads this
    {
      && totalFlows == (if multi then FlowsBefore(raws, n) else if n > 0 then 1 else 0)
      && (totalErrors == 0 <==> multi || OneFlow(raws, n))
      && (n > 0 ==> pkts != [])
      && (multi || OneFlow(raws, n) ==> |pkts| == n && forall i | 0 <= i < n :: pkts[i] == Read(raws, multi, i))
    }

    static lemma EntryOf(table: map<Key, FlowEntry>, raws: seq<Raw>, multi: bool, n: nat)
      requires n < |raws| && CountsOk(table, raws, n) && IdsOk(table, raws, multi, n)
      ensures KeyOf(raws[n]) in table <==> !IsNewFlow(raws, n)
      ensures IsNewFlow(raws, n) ==> FlowNumber(raws, n) == FlowsBefore(raws, n)
      ensures !IsNewFlow(raws, n) && (multi || KeyOf(raws[n]) == KeyOf(raws[0])) ==>
        table[KeyOf(raws[n])].flowId == FlowNumber(raws, n)
    {
      NewIfNoneCounted(raws, n, n);
      if IsNewFlow(raws, n) {
        assert FirstOf(raws, n, 0) == n;
      } else {
        var j :| 0 <= j < n && KeyOf(raws[j]) == KeyOf(raws[n]);
        FlowNumberIsKey(raws, j, n);
      }
    }

    static lemma CountsGrow(table: map<Key, FlowEntry>, table': map<Key, FlowEntry>, raws: seq<Raw>, n: nat,
                            e: FlowEntry)
      requires n < |raws| && CountsOk(table, raws, n)
      requires table' == table[KeyOf(raws[n]) := e] && e.pktId == KeyCount(raws, n, KeyOf(raws[n])) + 1
      ensures CountsOk(table', raws, n + 1)
    {
      hide KeyOf;
    }

    static lemma IdsGrow(table: map<Key, FlowEntry>, table': map<Key, FlowEntry>, raws: seq<Raw>, multi: bool, n: nat,
                         e: FlowEntry)
      requires n < |raws| && IdsOk(table, raws, multi, n) && table' == table[KeyOf(raws[n]) := e]
      requires multi || KeyOf(raws[n]) == KeyOf(raws[0]) ==> e.flowId == FlowNumber(raws, n)
      ensures IdsOk(table', raws, multi, n + 1)
    {
      hide KeyOf, FlowNumber;
      forall i | 0 <= i < n + 1 && (multi || KeyOf(raws[i]) == KeyOf(raws[0]))
        ensures KeyOf(raws[i]) in table' && table'[KeyOf(raws[i])].flowId == FlowNumber(raws, i)
      {
        if KeyOf(raws[i]) == KeyOf(raws[n]) {
          FlowNumberIsKey(raws, i, n);
        }
      }
    }

    /** Reads packet `n`; its place in the flow table is updated, and it is appended unless it is of a flow
        that the capture should not have. */
    method ReadPacket(raws: seq<Raw>, multi: bool, learnAck: bool, n: nat, table: map<Key, FlowEntry>)
      returns (err: LoadError, table': map<Key, FlowEntry>)
      requires n < |raws| && CountsOk(table, raws, n) && IdsOk(table, raws, multi, n) && Loading(raws, multi, n)
      modifies this
      ensures err == Check(raws, multi, learnAck, n)
      ensures err == Ok ==>
        CountsOk(table', raws, n + 1) && IdsOk(table', raws, multi, n + 1) && Loading(raws, multi, n + 1)
    {
      hide KeyOf, FlowNumber;
      table' := table;
      var r := raws[n];
      if n > 0 && r.time < raws[n - 1].time { return NegTimestamp, table'; }
      if !r.supported { return NotSupported, table'; }
      EntryOf(table, raws, multi, n);
      FlowsGrow(raws, 0, n);
      var key := KeyOf(r);
      assert n > 0 && IsNewFlow(raws, n) ==> KeyOf(raws[0]) != key;
      var isFif := key !in table;
      var init := false;
      if isFif {
        var e := FlowEntry(1, totalFlows);
        table' := table[key := e];
        CountsGrow(table, table', raws, n, e);
        IdsGrow(table, table', raws, multi, n, e);
        if totalFlows == 0 || multi {
          init := totalFlows == 0 || Swapped(raws[0]) == Swapped(r);
          pkts := pkts + [Pkt(r.time, init, e.flowId % FLOW_IDS, 0, false, false, 0, 0, 0, 0, false)];
          totalFlows := totalFlows + 1;
        } else {
          totalErrors := totalErrors + 1;
        }
        if learnAck && r.proto == IPPROTO_TCP {
          if !init || !r.syn { return NoSyn, table'; }
          if r.tcpOffset + 14 > FIRST_PKT_SIZE { return TcpOffsetTooBig, table'; }
        }
      } else {
        var e := table[key].(pktId := table[key].pktId + 1);
        table' := table[key := e];
        CountsGrow(table, table', raws, n, e);
        IdsGrow(table, table', raws, multi, n, e);
        if multi || key == KeyOf(raws[0]) {
          init := Swapped(raws[0]) == Swapped(r);
          pkts := pkts + [Pkt(r.time, init, e.flowId % FLOW_IDS, table[key].pktId, false, false, 0, 0, 0, 0, false)];
        } else {
          totalErrors := totalErrors + 1;
        }
      }
      if learnAck && r.proto != IPPROTO_TCP && !init { return NoTcpFromServer, table'; }
      err := Ok;
    }

    /** How loading from packet `n` on ends; `parserErrors` is what the packet parser counted. */
    static function LoadResult(raws: seq<Raw>, multi: bool, learnAck: bool, parserErrors: nat, n: nat): LoadError
      requires n <= |raws|
      decreases |raws| - n
    {
      if n == |raws| then (if parserErrors == 0 && (multi || OneFlow(raws, n)) then Ok else CapFileErr)
      else if Check(raws, multi, learnAck, n) != Ok then Check(raws, multi, learnAck, n)
      else LoadResult(raws, multi, learnAck, parserErrors, n + 1)
    }

    /** Each packet but the last gets the time to the next one in place of its own, and a mark if the next
        one goes the other way. */
    method TimesToGaps()
      requires pkts != []
      modifies `pkts
      ensures |pkts| == |old(pkts)|
      ensures forall i | 0 <= i < |pkts| - 1 ::
        pkts[i] == old(pkts)[i].(gap := old(pkts)[i + 1].gap - old(pkts)[i].gap,
                                 rtt := old(pkts)[i].rtt || old(pkts)[i].init != old(pkts)[i + 1].init)
      ensures pkts[|pkts| - 1] == old(pkts)[|pkts| - 1].(gap := 0.0, last := true)
    {
      ghost var was := pkts;
      var n := |pkts|;
      pkts := pkts[n - 1 := pkts[n - 1].(last := true)];
      for i := 1 to n
        invariant |pkts| == n
        invariant forall k | 0 <= k < i - 1 ::
          pkts[k] == was[k].(gap := was[k + 1].gap - was[k].gap, rtt := was[k].rtt || was[k].init != was[k + 1].init)
        invariant forall k | i - 1 <= k < n - 1 :: pkts[k] == was[k]
        invariant pkts[n - 1] == was[n - 1].(last := true)
      {
        pkts := pkts[i - 1 := pkts[i - 1].(gap := pkts[i].gap - pkts[i - 1].gap)];
        if pkts[i].init != pkts[i - 1].init {
          pkts := pkts[i - 1 := pkts[i - 1].(rtt := true)];
        }
      }
      pkts := pkts[n - 1 := pkts[n - 1].(gap := 0.0)];
    }

    /** Loads a capture of at least one packet. */
    method Load(raws: seq<Raw>, plugin: nat, learnAck: bool, parserErrors: nat) returns (err: LoadError)
      requires raws != []
      modifies this
      ensures err == LoadResult(raws, plugin != 0, learnAck, parserErrors, 0)
      ensures err == Ok ==> |pkts| == |raws| && forall i | 0 <= i < |raws| :: pkts[i] == Loaded(raws, plugin != 0, i)
    {
      hide Check, IsInit, KeyOf, IsNewFlow, FlowNumber, KeyCount;
      pkts, totalFlows, totalErrors := [], 0, 0;
      var multi := plugin != 0;
      var table: map<Key, FlowEntry> := map[];
      assert CountsOk(table, raws, 0) by { Nothing(raws); }
      for n := 0 to |raws|
        invariant CountsOk(table, raws, n) && IdsOk(table, raws, multi, n) && Loading(raws, multi, n)
        invariant LoadResult(raws, multi, learnAck, parserErrors, n)
          == LoadResult(raws, multi, learnAck, parserErrors, 0)
      {
        err, table := ReadPacket(raws, multi, learnAck, n, table);
        if err != Ok { return; }
      }
      ghost var was := pkts;
      TimesToGaps();
      if multi || OneFlow(raws, |raws|) {
        AllLoaded(raws, multi, was, pkts);
      }
      totalErrors := totalErrors + parserErrors;
      err := if totalErrors > 0 then CapFileErr else Ok;
    }

    static lemma AllLoaded(raws: seq<Raw>, multi: bool, was: seq<Pkt>, pkts: seq<Pkt>)
      requires raws != [] && |was| == |pkts| == |raws|
      requires forall i | 0 <= i < |raws| :: was[i] == Read(raws, multi, i)
      requires forall i | 0 <= i < |pkts| - 1 ::
        pkts[i] == was[i].(gap := was[i + 1].gap - was[i].gap, rtt := was[i].rtt || was[i].init != was[i + 1].init)
      requires pkts[|pkts| - 1] == was[|pkts| - 1].(gap := 0.0, last := true)
      ensures forall i | 0 <= i < |raws| :: pkts[i] == Loaded(raws, multi, i)
    {
      hide KeyOf, IsInit, FlowNumber, KeyCount;
      forall i | 0 <= i < |raws|
        ensures pkts[i] == Loaded(raws, multi, i)
      {
        if i + 1 < |raws| {
          assert was[i + 1] == Read(raws, multi, i + 1);
        }
      }
    }

    static lemma Nothing(raws: seq<Raw>)
      ensures CountsOk(map[], raws, 0)
    {
    }

    // ----- numbers -----

    /** What is known of the flows after the first `n` packets. */
    static ghost predicate FlowsOk(ft: map<nat, Tmp>, was: seq<Pkt>, n: nat)
      requires n <= |was|
    {
      forall f: nat :: (f in ft <==> Count(was, n, f, true) + Count(was, n, f, false) > 0)
        && (f in ft ==>
          ft[f] == Tmp(Count(was, n, f, true), Count(was, n, f, false), MaxAging(was, n, f), LastTime(was, n, f)))
    }

    static lemma {:induction false} FreshFlow(was: seq<Pkt>, n: nat, f: nat)
      requires n <= |was| && Count(was, n, f, true) + Count(was, n, f, false) == 0
      ensures MaxAging(was, n, f) == 0.0 && LastTime(was, n, f) == 0.0
    {
      if n > 0 {
        FreshFlow(was, n - 1, f);
      }
    }

    /** The first pass counts each flow and numbers its packets. */
    method CountFlows() returns (ft: map<nat, Tmp>)
      modifies `pkts
      ensures |pkts| == |old(pkts)| && FlowsOk(ft, old(pkts), |pkts|)
      ensures forall i | 0 <= i < |pkts| ::
        pkts[i] == old(pkts)[i].(pktNum := Count(old(pkts), i, old(pkts)[i].flowId, old(pkts)[i].init))
    {
      hide CapFileFlowInfo.FlowsOk, CapFileFlowInfo.Seen, Count;
      ghost var was := pkts;
      ft := map[];
      NoFlows(was);
      var ctime := 0.0;
      for i := 0 to |pkts|
        invariant |pkts| == |was| && ctime == Time(was, i) && FlowsOk(ft, was, i)
        invariant forall k | 0 <= k < i :: pkts[k] == was[k].(pktNum := Count(was, k, was[k].flowId, was[k].init))
        invariant forall k | i <= k < |pkts| :: pkts[k] == was[k]
      {
        var p := pkts[i];
        var flow := if p.flowId in ft then ft[p.flowId] else Tmp(0, 0, 0.0, 0.0);
        pkts := pkts[i := p.(pktNum := if p.init then flow.up else flow.down)];
        FlowsNext(ft, was, i);
        ft := ft[p.flowId := Seen(flow, p.init, ctime)];
        ctime := ctime + p.gap;
      }
    }

    /** One more packet of a flow at time `ctime`. */
    static function Seen(flow: Tmp, init: bool, ctime: real): Tmp {
      var delta := ctime - flow.lastPkt;
      Tmp(if init then flow.up + 1 else flow.up, if init then flow.down else flow.down + 1,
          if delta > flow.maxAging then delta else flow.maxAging, ctime)
    }

    static lemma FlowsNext(ft: map<nat, Tmp>, was: seq<Pkt>, n: nat)
      requires n < |was| && FlowsOk(ft, was, n)
      ensures
        var p := was[n];
        var flow := if p.flowId in ft then ft[p.flowId] else Tmp(0, 0, 0.0, 0.0);
        && (if p.init then flow.up else flow.down) == Count(was, n, p.flowId, p.init)
        && FlowsOk(ft[p.flowId := Seen(flow, p.init, Time(was, n))], was, n + 1)
    {
      if was[n].flowId !in ft {
        FreshFlow(was, n, was[n].flowId);
      }
    }

    static lemma NoFlows(was: seq<Pkt>)
      ensures FlowsOk(map[], was, 0)
    {
    }

    /** Numbers the packets of every flow, and tells each packet what its flow has. */
    method UpdateInfo()
      modifies `pkts
      ensures pkts == NumberedAll(old(pkts))
    {
      hide CapFileFlowInfo.FlowsOk, TimeoutOf;
      ghost var was := pkts;
      var ft := CountFlows();
      for i := 0 to |pkts|
        invariant |pkts| == |was|
        invariant forall k | 0 <= k < i :: pkts[k] == Numbered(was, k)
        invariant forall k | i <= k < |pkts| :: pkts[k] == was[k].(pktNum := Count(was, k, was[k].flowId, was[k].init))
      {
        FlowIs(ft, was, i);
        var p := pkts[i];
        var flow := ft[p.flowId];
        if flow.up > 0 && flow.down > 0 {
          p := p.(biDir := true);
        }
        p := p.(maxPkts := if p.init then flow.up else flow.down, maxFlowPkts := flow.up + flow.down,
                timeout := TimeoutOf(flow.maxAging));
        pkts := pkts[i := p];
      }
      assert pkts == NumberedAll(was);
    }

    static lemma FlowIs(ft: map<nat, Tmp>, was: seq<Pkt>, i: nat)
      requires i < |was| && FlowsOk(ft, was, |was|)
      ensures var f := was[i].flowId;
        && f in ft && ft[f].up == Count(was, |was|, f, true) && ft[f].down == Count(was, |was|, f, false)
        && ft[f].maxAging == MaxAging(was, |was|, f) >= 0.0
    {
      CountGrows(was, i, |was|, was[i].flowId, was[i].init);
      AgingNonnegative(was, |was|, was[i].flowId);
    }

    /** Gaps below either limit become `override`. */
    method UpdateMinIpg(minIpg: real, override: real)
      modifies `pkts
      ensures |pkts| == |old(pkts)|
      ensures forall i | 0 <= i < |pkts| ::
        var was := old(pkts)[i];
        pkts[i] == if was.gap < minIpg || was.gap < override then was.(gap := override) else was
    {
      ghost var was := pkts;
      for i := 0 to |pkts|
        invariant |pkts| == |was|
        invariant forall k | 0 <= k < i ::
          pkts[k] == if was[k].gap < minIpg || was[k].gap < override then was[k].(gap := override) else was[k]
        invariant forall k | i <= k < |pkts| :: pkts[k] == was[k]
      {
        if pkts[i].gap < minIpg {
          pkts := pkts[i := pkts[i].(gap := override)];
        }
        if pkts[i].gap < override {
          pkts := pkts[i := pkts[i].(gap := override)];
        }
      }
    }
  }

  // ----- from the capture to the flows that replay it -----

  function LoadedAll(raws: seq<Raw>, multi: bool): (r: seq<Pkt>)
    ensures |r| == |raws|
  {
    seq(|raws|, i requires 0 <= i < |raws| => Loaded(raws, multi, i))
  }

  /** A packet as the scheduler sees it; `pcap` is the mode that keeps the gaps of the capture. */
  function Scheduled(p: Pkt, pcap: bool, tcp: bool): Templates.Packet {
    Templates.Packet(p.init, p.last, pcap, p.rtt, p.gap, tcp, p.biDir, p.flowId)
  }

  function PacketsOf(raws: seq<Raw>, multi: bool, pcap: bool): (r: seq<Templates.Packet>)
    ensures |r| == |raws|
  {
    var pkts := NumberedAll(LoadedAll(raws, multi));
    seq(|raws|, i requires 0 <= i < |raws| => Scheduled(pkts[i], pcap, raws[i].proto == IPPROTO_TCP))
  }

  lemma {:induction false} LoadedMeansChecked(raws: seq<Raw>, multi: bool, learnAck: bool, parserErrors: nat, n: nat)
    requires n <= |raws| && CapFileFlowInfo.LoadResult(raws, multi, learnAck, parserErrors, n) == Ok
    ensures forall i | n <= i < |raws| :: Check(raws, multi, learnAck, i) == Ok
    ensures parserErrors == 0 && (multi || OneFlow(raws, |raws|))
    decreases |raws| - n
  {
    hide Check;
    if n < |raws| {
      LoadedMeansChecked(raws, multi, learnAck, parserErrors, n + 1);
    }
  }

  /** What a capture must be like to be learnt from. */
  predicate Learnable(raws: seq<Raw>, multi: bool, i: nat)
    requires i < |raws|
  {
    && (raws[i].proto != IPPROTO_TCP ==> IsInit(raws, multi, i))
    && (raws[i].proto == IPPROTO_TCP && IsNewFlow(raws, i) ==>
      IsInit(raws, multi, i) && raws[i].syn && raws[i].tcpOffset + 14 <= FIRST_PKT_SIZE)
  }

  predicate InTimeOrder(raws: seq<Raw>) { forall i, j | 0 <= i <= j < |raws| :: raws[i].time <= raws[j].time }

  lemma {:induction false} StepsInOrder(raws: seq<Raw>, i: nat, j: nat)
    requires forall k | 0 < k < |raws| :: raws[k - 1].time <= raws[k].time
    requires i <= j < |raws|
    ensures raws[i].time <= raws[j].time
  {
    if i < j {
      StepsInOrder(raws, i, j - 1);
    }
  }

  /** Which captures load. */
  lemma LoadsJustWhen(raws: seq<Raw>, multi: bool, learnAck: bool, parserErrors: nat)
    ensures CapFileFlowInfo.LoadResult(raws, multi, learnAck, parserErrors, 0) == Ok
       <==>
         && parserErrors == 0 && (multi || OneFlow(raws, |raws|)) && InTimeOrder(raws)
         && forall i | 0 <= i < |raws| :: raws[i].supported && (learnAck ==> Learnable(raws, multi, i))
  {
    hide IsNewFlow, IsInit, OneFlow, CapFileFlowInfo.LoadResult;
    if CapFileFlowInfo.LoadResult(raws, multi, learnAck, parserErrors, 0) == Ok {
      LoadedMeansChecked(raws, multi, learnAck, parserErrors, 0);
      forall i, j | 0 <= i <= j < |raws|
        ensures raws[i].time <= raws[j].time
      {
        forall k | 0 < k < |raws|
          ensures raws[k - 1].time <= raws[k].time
        {
          assert Check(raws, multi, learnAck, k) == Ok;
        }
        StepsInOrder(raws, i, j);
      }
      forall i | 0 <= i < |raws|
        ensures raws[i].supported && (learnAck ==> Learnable(raws, multi, i))
      {
        assert Check(raws, multi, learnAck, i) == Ok;
      }
    } else {
      var n := StopsAt(raws, multi, learnAck, parserErrors, 0);
      if n < |raws| {
        assert Check(raws, multi, learnAck, n) != Ok;
      }
    }
  }

  /** A capture that does not load stops at its first bad packet, or is found bad at its end. */
  lemma {:induction false} StopsAt(raws: seq<Raw>, multi: bool, learnAck: bool, parserErrors: nat, from: nat)
    returns (n: nat)
    requires from <= |raws| && CapFileFlowInfo.LoadResult(raws, multi, learnAck, parserErrors, from) != Ok
    ensures from <= n <= |raws| && forall i | from <= i < n :: Check(raws, multi, learnAck, i) == Ok
    ensures CapFileFlowInfo.LoadResult(raws, multi, learnAck, parserErrors, from)
         == if n < |raws| then Check(raws, multi, learnAck, n) else CapFileErr
    ensures n < |raws| ==> Check(raws, multi, learnAck, n) != Ok
    ensures n == |raws| ==> parserErrors != 0 || !(multi || OneFlow(raws, |raws|))
    decreases |raws| - from
  {
    hide Check, OneFlow;
    n := from;
    if from < |raws| && Check(raws, multi, learnAck, from) == Ok {
      n := StopsAt(raws, multi, learnAck, parserErrors, from + 1);
    }
  }

  /** What a loaded packet knows of its flow. In a flow the numbers count up from 0. */
  lemma {:induction false} FlowPacketNumbers(raws: seq<Raw>, multi: bool, i: nat, j: nat)
    requires i <= j < |raws| && KeyOf(raws[i]) == KeyOf(raws[j])
    requires forall k | i < k < j :: KeyOf(raws[k]) != KeyOf(raws[i])
    ensures Loaded(raws, multi, i).flowPktNum == 0 <==> IsNewFlow(raws, i)
    ensures i < j ==> Loaded(raws, multi, j).flowPktNum == Loaded(raws, multi, i).flowPktNum + 1
    ensures (Loaded(raws, multi, i).last <==> i == |raws| - 1) && !Loaded(raws, multi, i).biDir
  {
    CapFileFlowInfo.NewIfNoneCounted(raws, i, i);
    if i < j {
      CountStays(raws, i + 1, j, KeyOf(raws[i]));
    }
  }

  lemma {:induction false} CountStays(raws: seq<Raw>, m: nat, n: nat, key: Key)
    requires m <= n <= |raws| && forall k | m <= k < n :: KeyOf(raws[k]) != key
    ensures KeyCount(raws, n, key) == KeyCount(raws, m, key)
  {
    if m < n {
      CountStays(raws, m, n - 1, key);
    }
  }

  /** The times in a loaded capture are those it was taken with. */
  lemma {:induction false} TimesAreKept(raws: seq<Raw>, multi: bool, n: nat)
    requires n < |raws|
    ensures Time(LoadedAll(raws, multi), n) == raws[n].time - raws[0].time
  {
    if n > 0 {
      TimesAreKept(raws, multi, n - 1);
      assert LoadedAll(raws, multi)[n - 1] == Loaded(raws, multi, n - 1);
    }
  }

  lemma PacketAt(raws: seq<Raw>, multi: bool, pcap: bool, i: nat)
    requires i < |raws|
    ensures
      var p := PacketsOf(raws, multi, pcap)[i];
      && p.init == IsInit(raws, multi, i) && (p.last <==> i == |raws| - 1) && p.pcapTiming == pcap
      && p.capGap == (if i + 1 < |raws| then raws[i + 1].time - raws[i].time else 0.0)
      && p.rtt == (i + 1 < |raws| && IsInit(raws, multi, i) != IsInit(raws, multi, i + 1))
      && (p.tcp <==> raws[i].proto == IPPROTO_TCP) && p.flowId == FlowNumber(raws, i) % FLOW_IDS
    ensures PacketsOf(raws, multi, pcap)[i].biDir ==>
      Count(LoadedAll(raws, multi), |raws|, LoadedAll(raws, multi)[i].flowId, false) > 0
  {
    hide FlowNumber, KeyCount, TimeoutOf, MaxAging, IsInit, Count;
    var p := Loaded(raws, multi, i);
    assert LoadedAll(raws, multi)[i] == p;
    assert NumberedAll(LoadedAll(raws, multi))[i] == Numbered(LoadedAll(raws, multi), i);
  }

  /** A template whose first flow goes both ways has a packet from the responder. */
  lemma SomeAnswer(raws: seq<Raw>, multi: bool, pcap: bool) returns (k: nat)
    requires raws != [] && PacketsOf(raws, multi, pcap)[0].biDir
    ensures k < |raws| && !PacketsOf(raws, multi, pcap)[k].init
  {
    hide PacketsOf, FlowNumber, KeyCount, IsInit;
    PacketAt(raws, multi, pcap, 0);
    var pkts := LoadedAll(raws, multi);
    k := Ranked(pkts, |pkts|, pkts[0].flowId, false, 0);
    PacketAt(raws, multi, pcap, k);
  }

  /** The template of a loaded capture is one the scheduler can work with. */
  lemma LoadedIsValid(raws: seq<Raw>, learnAck: bool, pcap: bool, t: Templates.Template)
    requires raws != [] && CapFileFlowInfo.LoadResult(raws, t.plugin != 0, learnAck, 0, 0) == Ok
    requires t.packets == PacketsOf(raws, t.plugin != 0, pcap)
    requires t.ipg >= 0.0 && t.rtt >= 0.0 && t.cir >= 0.0 && t.plugin <= 4
    requires t.limitSet ==> t.restart > 0.0 || t.limit == 0
    ensures t.Valid()
  {
    hide PacketsOf, CapFileFlowInfo.LoadResult;
    var multi := t.plugin != 0;
    LoadedMeansChecked(raws, multi, learnAck, 0, 0);
    forall i | 0 <= i < |raws|
      ensures t.packets[i].capGap >= 0.0 && (t.packets[i].last <==> i == |raws| - 1)
    {
      PacketAt(raws, multi, pcap, i);
      if i + 1 < |raws| {
        assert Check(raws, multi, learnAck, i + 1) == Ok;
      }
    }
    PacketAt(raws, multi, pcap, 0);
    if t.packets[0].biDir {
      var k := SomeAnswer(raws, multi, pcap);
    }
  }

  lemma {:induction false} OffsetIsTime(raws: seq<Raw>, t: Templates.Template, i: nat)
    requires i < |raws| && t.packets == PacketsOf(raws, t.plugin != 0, true)
    ensures t.Offset(i) == raws[i].time - raws[0].time
  {
    hide PacketsOf;
    if i > 0 {
      OffsetIsTime(raws, t, i - 1);
      PacketAt(raws, t.plugin != 0, true, i - 1);
    }
  }

  /** With the gaps of the capture, a flow sends each packet as long after its first one as the capture
      has it, in every round. */
  lemma ReplayKeepsCaptureTimes(raws: seq<Raw>, t: Templates.Template, start: real, round: nat, i: nat)
    requires i < |raws| && t.packets == PacketsOf(raws, t.plugin != 0, true)
    ensures t.Due(start, round, i) == t.RoundStart(start, round) + (raws[i].time - raws[0].time)
    ensures t.Due(start, 0, i) == start + (raws[i].time - raws[0].time)
  {
    OffsetIsTime(raws, t, i);
  }

  /** Without the gaps of the capture, a packet is due a round-trip time after the one before it when the two
      are of different sides, and the fixed gap after it when they are of one side. */
  lemma ReplayTakesTurns(raws: seq<Raw>, t: Templates.Template, start: real, round: nat, i: nat)
    requires i + 1 < |raws| && t.packets == PacketsOf(raws, t.plugin != 0, false)
    ensures t.Due(start, round, i + 1) - t.Due(start, round, i)
         == if IsInit(raws, t.plugin != 0, i) != IsInit(raws, t.plugin != 0, i + 1) then t.rtt else t.ipg
  {
    hide PacketsOf, IsInit;
    PacketAt(raws, t.plugin != 0, false, i);
  }

  /** All packets are between the two hosts of the first one. */
  predicate TwoHosts(raws: seq<Raw>) {
    forall i | 0 <= i < |raws| :: Between(raws[i], raws[0].src, raws[0].dst)
  }

  /** Between two hosts an answer comes a round-trip time after what it answers. */
  lemma AnswersTakeRtt(raws: seq<Raw>, learnAck: bool, t: Templates.Template, start: real, round: nat, i: nat)
    requires raws != [] && CapFileFlowInfo.LoadResult(raws, t.plugin != 0, learnAck, 0, 0) == Ok
    requires t.packets == PacketsOf(raws, t.plugin != 0, false) && i + 1 < |raws|
    requires t.plugin != 0 ==> TwoHosts(raws)
    ensures t.Due(start, round, i + 1) - t.Due(start, round, i)
         == if raws[i].src != raws[i + 1].src then t.rtt else t.ipg
  {
    hide PacketsOf, CapFileFlowInfo.LoadResult, Check;
    LoadedMeansChecked(raws, t.plugin != 0, learnAck, 0, 0);
    ReplayTakesTurns(raws, t, start, round, i);
    forall k | 0 <= k < |raws|
      ensures IsInit(raws, t.plugin != 0, k) <==> raws[k].src == raws[0].src
      ensures Between(raws[k], raws[0].src, raws[0].dst)
    {
      if t.plugin == 0 {
        OneFlowIsTwoHosts(raws, false, k);
      } else {
        InitSideIsFirstSender(raws, k);
      }
    }
  }
}
