/** Collecting NAT observations: what is seen of a tagged packet goes, in messages of several, to the thread
    that plays the packet's flow. */
module NatReports {
  import opened Selections

  const FID_SPACE := 0x100_0000
  const MAX_NAT_FLOW_INFO := 7
  const MAX_TIME_MSG_IN_QUEUE := 0.002
  const U32 := 0x1_0000_0000

  // ----- the tag in an acknowledgement number -----

  function CalcTcpAck(fid: nat, thread: nat): nat
    requires thread < 256
  {
    fid % FID_SPACE * 256 + thread
  }

  function InfoFromTcpAck(ack: nat): (nat, nat) { (ack / 256 % FID_SPACE, ack % 256) }

  /** The tag is a 32-bit number that gives back the thread and the flow id it was made of, and different
      pairs have different tags. */
  lemma AckRoundTrip(fid: nat, thread: nat)
    requires thread < 256
    ensures CalcTcpAck(fid, thread) < U32
    ensures InfoFromTcpAck(CalcTcpAck(fid, thread)) == (fid % FID_SPACE, thread)
  {
  }

  lemma AckOfInfo(ack: nat)
    requires ack < U32
    ensures InfoFromTcpAck(ack).1 < 256 && CalcTcpAck(InfoFromTcpAck(ack).0, InfoFromTcpAck(ack).1) == ack
  {
  }

  // ----- the messages -----

  datatype FlowInfo = FlowInfo(extIp: nat, extIpServer: nat, extPort: nat, fid: nat)

  /** A packet as it is seen: its tag is in an option or in the acknowledgement number. */
  datatype Packet = Packet(src: nat, dst: nat, srcPort: nat, proto: nat, option: Tag, ack: nat)

  datatype Tag = NoTag | Tag(thread: nat, fid: nat)

  datatype Thread = Thread(lastTime: real, cur: seq<FlowInfo>, ring: seq<seq<FlowInfo>>)

  function Flat(msgs: seq<seq<FlowInfo>>): seq<FlowInfo> {
    if msgs == [] then [] else Flat(msgs[..|msgs| - 1]) + msgs[|msgs| - 1]
  }

  function ThreadOf(p: Packet): nat { if p.option.Tag? then p.option.thread else InfoFromTcpAck(p.ack).1 }

  function InfoOf(p: Packet): FlowInfo {
    FlowInfo(p.src, p.dst, p.srcPort, if p.option.Tag? then p.option.fid else InfoFromTcpAck(p.ack).0)
  }

  /** All that is on its way to a thread. */
  function OnTheWay(t: Thread): seq<FlowInfo> { Flat(t.ring) + t.cur }

  function Flushed(t: Thread): Thread { Thread(t.lastTime, [], t.ring + [t.cur]) }

  lemma FlushKeeps(t: Thread)
    ensures OnTheWay(Flushed(t)) == OnTheWay(t)
  {
    assert Flushed(t).ring[..|t.ring|] == t.ring;
  }

  predicate Sizes(t: Thread) {
    |t.cur| < MAX_NAT_FLOW_INFO && forall m | 0 <= m < |t.ring| :: 0 < |t.ring[m]| <= MAX_NAT_FLOW_INFO
  }

  predicate Fresh(t: Thread, now: real) { t.cur == [] || now - t.lastTime <= MAX_TIME_MSG_IN_QUEUE }

  predicate IsReported(p: Packet, threads: nat) { p.proto in {6, 17} && ThreadOf(p) < threads }

  /** What a thread is to be told of the packets seen: each one tagged for it, once, in order. */
  function Reports(seen: seq<Packet>, threads: nat, t: nat): seq<FlowInfo> {
    if seen == [] then []
    else
      var p := seen[|seen| - 1];
      Reports(seen[..|seen| - 1], threads, t) + if IsReported(p, threads) && ThreadOf(p) == t then [InfoOf(p)] else []
  }

  lemma ReportsNext(seen: seq<Packet>, p: Packet, threads: nat, t: nat)
    ensures Reports(seen + [p], threads, t)
         == Reports(seen, threads, t) + if IsReported(p, threads) && ThreadOf(p) == t then [InfoOf(p)] else []
  {
    assert (seen + [p])[..|seen|] == seen;
  }

  /** The packets among the first `n` that carry a tag for thread `t`. */
  ghost function TaggedFor(seen: seq<Packet>, n: nat, t: nat): set<nat>
    requires n <= |seen|
  {
    set i: nat | i < n && seen[i].proto in {6, 17} && ThreadOf(seen[i]) == t
  }

  /** The reports for a thread are those of the TCP and UDP packets tagged for it, all of them, each once and
      in the order they were seen. */
  lemma {:induction false} ReportsAre(seen: seq<Packet>, n: nat, threads: nat, t: nat) returns (places: seq<nat>)
    requires n <= |seen| && t < threads
    ensures Enumerates(places, TaggedFor(seen, n, t))
    ensures |Reports(seen[..n], threads, t)| == |places|
    ensures forall k | 0 <= k < |places| :: Reports(seen[..n], threads, t)[k] == InfoOf(seen[places[k]])
    decreases n
  {
    hide Enumerates, InfoOf, ThreadOf, InfoFromTcpAck;
    if n == 0 {
      places := [];
      NoneTagged(seen, t);
    } else {
      places := ReportsAre(seen, n - 1, threads, t);
      assert seen[..n][..n - 1] == seen[..n - 1];
      if seen[n - 1].proto in {6, 17} && ThreadOf(seen[n - 1]) == t {
        EnumeratesMore(places, TaggedFor(seen, n - 1, t), n - 1);
        places := places + [n - 1];
        assert TaggedFor(seen, n, t) == TaggedFor(seen, n - 1, t) + {n - 1};
      } else {
        assert TaggedFor(seen, n, t) == TaggedFor(seen, n - 1, t);
      }
    }
  }

  lemma NoneTagged(seen: seq<Packet>, t: nat)
    ensures Enumerates([], TaggedFor(seen, 0, t))
  {
  }

  class NatRxManager {
    var threads: seq<Thread>
    var errThread: nat
    var errProto: nat
    ghost var seen: seq<Packet>

    /** Nothing is lost, doubled or reordered on its way to a thread, and messages have one to seven
        entries. */
    ghost predicate Valid()
      reads this
    {
      && (forall t: nat | t < |threads| :: OnTheWay(threads[t]) == Reports(seen, |threads|, t))
      && (forall t: nat | t < |threads| :: Sizes(threads[t]))
    }

    constructor (n: nat)
      ensures Valid() && |threads| == n && seen == []
    {
      threads := seq(n, _ => Thread(0.0, [], []));
      errThread, errProto := 0, 0;
      seen := [];
    }

    /** The message of a thread goes to its ring. */
    method FlushNode(t: nat)
      requires t < |threads|
      modifies `threads
      ensures threads == old(threads)[t := Flushed(old(threads)[t])]
    {
      threads := threads[t := Thread(threads[t].lastTime, [], threads[t].ring + [threads[t].cur])];
    }

    method HandlePacket(p: Packet, now: real)
      requires Valid()
      modifies this
      ensures Valid() && seen == old(seen) + [p] && |threads| == |old(threads)|
      ensures forall t: nat | t < |threads| && t != ThreadOf(p) :: threads[t] == old(threads)[t]
      ensures IsReported(p, |threads|) ==>
        var was, t := old(threads)[ThreadOf(p)], threads[ThreadOf(p)];
        && t.lastTime == (if was.cur == [] then now else was.lastTime)
        && if |was.cur| + 1 == MAX_NAT_FLOW_INFO then t.cur == [] && t.ring == was.ring + [was.cur + [InfoOf(p)]]
           else t.cur == was.cur + [InfoOf(p)] && t.ring == was.ring
      ensures errProto == old(errProto) + if p.proto in {6, 17} then 0 else 1
      ensures errThread == old(errThread) + if p.proto in {6, 17} && ThreadOf(p) >= |threads| then 1 else 0
    {
      hide Reports, Flat, InfoFromTcpAck, InfoOf, ThreadOf;
      forall t: nat
        ensures Reports(seen + [p], |threads|, t)
             == Reports(seen, |threads|, t) + if IsReported(p, |threads|) && ThreadOf(p) == t then [InfoOf(p)] else []
      {
        ReportsNext(seen, p, |threads|, t);
      }
      seen := seen + [p];
      if p.proto != 6 && p.proto != 17 {
        errProto := errProto + 1;
        return;
      }
      var t := ThreadOf(p);
      if t >= |threads| {
        errThread := errThread + 1;
        return;
      }
      var info := threads[t];
      if info.cur == [] {
        info := info.(lastTime := now);
      }
      info := info.(cur := info.cur + [InfoOf(p)]);
      threads := threads[t := info];
      if |info.cur| == MAX_NAT_FLOW_INFO {
        FlushKeeps(info);
        FlushNode(t);
      }
    }

    /** After the periodic check no message has been waiting for more than two milliseconds. */
    method HandleAging(now: real)
      requires Valid()
      modifies `threads
      ensures Valid() && |threads| == |old(threads)|
      ensures forall t: nat | t < |threads| ::
        Fresh(threads[t], now) && OnTheWay(threads[t]) == OnTheWay(old(threads)[t])
      ensures forall t: nat | t < |threads| ::
        threads[t] == if Fresh(old(threads)[t], now) then old(threads)[t] else Flushed(old(threads)[t])
    {
      hide OnTheWay, Reports;
      for i := 0 to |threads|
        invariant |threads| == |old(threads)|
        invariant forall t: nat | i <= t < |threads| :: threads[t] == old(threads)[t]
        invariant forall t: nat | t < i ::
          threads[t] == if Fresh(old(threads)[t], now) then old(threads)[t] else Flushed(old(threads)[t])
        invariant forall t: nat | t < |threads| ::
          Sizes(threads[t]) && OnTheWay(threads[t]) == OnTheWay(old(threads)[t])
      {
        if threads[i].cur != [] {
          if now - threads[i].lastTime > MAX_TIME_MSG_IN_QUEUE {
            FlushKeeps(threads[i]);
            FlushNode(i);
          }
        }
      }
    }
  }
}
