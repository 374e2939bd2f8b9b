/** What a thread has sent, all its flows together, against what each flow has played. */
module Wiring {
  import opened Nodes
  import opened FlowBooks
  import opened Selections
  import opened ThreadState

  /** A packet as it went out: packet `index` of a flow, when it was due, and what its node had learned. */
  datatype Sent = Sent(flowId: FlowId, index: nat, time: real, learn: Learning)

  function PacketOf(n: Node): Sent
    requires n.FlowPkt?
  {
    Sent(n.flowId, n.idx, n.time, n.learn)
  }

  /** What one flow has sent of what it has played. */
  ghost function SentBy(f: FlowId, ps: seq<Played>): seq<Sent> {
    if ps == [] then []
    else
      var p := ps[|ps| - 1];
      SentBy(f, ps[..|ps| - 1]) + if p.sent then [Sent(f, p.index, p.time, p.learn)] else []
  }

  /** The packets of one flow among all that were sent. */
  ghost function OnWire(wire: seq<Sent>, f: FlowId): seq<Sent> {
    if wire == [] then []
    else OnWire(wire[..|wire| - 1], f) + if wire[|wire| - 1].flowId == f then [wire[|wire| - 1]] else []
  }

  ghost predicate InOrder(wire: seq<Sent>) {
    forall i, j | 0 <= i < j < |wire| :: wire[i].time <= wire[j].time
  }

  /** Each flow's packets on the wire are those it has sent, in the order it has played them. */
  ghost predicate Merged(wire: seq<Sent>, played: map<FlowId, seq<Played>>) {
    forall f :: OnWire(wire, f) == if f in played then SentBy(f, played[f]) else []
  }

  /** No packet and no flow start is due before time `t`. */
  ghost predicate NotBefore(fl: Memory, drv: Memory, t: real) {
    && (forall a | a in fl :: t <= fl[a].time)
    && (forall a | a in drv && drv[a].Tick? :: t <= drv[a].time)
  }

  /** The flows' packets are merged in order of time, and whatever is still to come is due later. */
  ghost predicate WireOk(wire: seq<Sent>, fl: Memory, drv: Memory, played: map<FlowId, seq<Played>>) {
    && InOrder(wire) && Merged(wire, played)
    && (wire != [] ==> NotBefore(fl, drv, wire[|wire| - 1].time))
  }

  /** The node of flow `a` goes or becomes due later; all others stay. */
  ghost predicate GoesOn(fl: Memory, fl': Memory, a: Addr)
    requires a in fl
  {
    forall b | b in fl' :: if b == a then fl[a].time <= fl'[b].time else b in fl && fl'[b] == fl[b]
  }

  lemma WireBegins(fl: Memory, drv: Memory)
    ensures WireOk([], fl, drv, map[])
  {
  }

  /** Nodes go, or become due later. */
  lemma WireShift(wire: seq<Sent>, fl: Memory, drv: Memory, played: map<FlowId, seq<Played>>, fl': Memory, drv': Memory)
    requires WireOk(wire, fl, drv, played)
    requires forall a | a in fl' :: a in fl && fl[a].time <= fl'[a].time
    requires forall a | a in drv' && drv'[a].Tick? :: a in drv && drv[a].Tick? && drv[a].time <= drv'[a].time
    ensures WireOk(wire, fl', drv', played)
  {
    hide InOrder, Merged;
  }

  /** A flow starts at time `n.time`, before which nothing is due. */
  lemma WireBorn(wire: seq<Sent>, fl: Memory, drv: Memory, played: map<FlowId, seq<Played>>, a: Addr, n: Node)
    requires WireOk(wire, fl, drv, played) && n.FlowPkt? && n.flowId !in played
    requires wire != [] ==> wire[|wire| - 1].time <= n.time
    ensures WireOk(wire, fl[a := n], drv, played[n.flowId := []])
  {
    hide InOrder;
  }

  /** The earliest flow node plays its packet, as node `n`, which goes out or not; the flow goes on or ends. */
  lemma WirePlays(wire: seq<Sent>, fl: Memory, drv: Memory, played: map<FlowId, seq<Played>>, a: Addr, n: Node,
                  sent: bool, drained: bool, fl': Memory)
    requires WireOk(wire, fl, drv, played) && a in fl && fl[a].FlowPkt? && n.FlowPkt? && n == fl[a].(learn := n.learn)
    requires n.flowId in played && NotBefore(fl, drv, n.time) && GoesOn(fl, fl', a)
    ensures
      var wire' := if sent then wire + [PacketOf(n)] else wire;
      WireOk(wire', fl', drv, Logged(played, n.flowId, PlayedBy(n, sent, drained)))
  {
    hide Merged;
    MergedMore(wire, played, n.flowId, PlayedBy(n, sent, drained));
  }

  lemma OnWireMore(wire: seq<Sent>, x: Sent, f: FlowId)
    ensures OnWire(wire + [x], f) == OnWire(wire, f) + if x.flowId == f then [x] else []
  {
    assert (wire + [x])[..|wire|] == wire;
  }

  lemma SentByMore(f: FlowId, ps: seq<Played>, p: Played)
    ensures SentBy(f, ps + [p]) == SentBy(f, ps) + if p.sent then [Sent(f, p.index, p.time, p.learn)] else []
  {
    assert (ps + [p])[..|ps|] == ps;
  }

  lemma MergedMore(wire: seq<Sent>, played: map<FlowId, seq<Played>>, f: FlowId, p: Played)
    requires Merged(wire, played) && f in played
    ensures Merged(if p.sent then wire + [Sent(f, p.index, p.time, p.learn)] else wire, Logged(played, f, p))
  {
    hide OnWire, SentBy;
    var x := Sent(f, p.index, p.time, p.learn);
    var wire', played' := if p.sent then wire + [x] else wire, Logged(played, f, p);
    SentByMore(f, played[f], p);
    forall g
      ensures OnWire(wire', g) == if g in played' then SentBy(g, played'[g]) else []
    {
      OnWireMore(wire, x, g);
      if g != f {
        assert OnWire(wire, g) + [] == OnWire(wire, g);
      }
    }
  }

  /** At the end: everything sent is one packet of one flow, and the flows' packets are all there. */
  lemma WireEnds(wire: seq<Sent>, fl: Memory, drv: Memory, played: map<FlowId, seq<Played>>)
    requires WireOk(wire, fl, drv, played)
    ensures InOrder(wire) && Merged(wire, played)
  {
  }

  // ----- the packets of one flow -----

  ghost function PlacesOf(wire: seq<Sent>, n: nat, f: FlowId): set<nat>
    requires n <= |wire|
  {
    set i: nat | i < n && wire[i].flowId == f
  }

  /** The packets of a flow on the wire are all those with its number, each once and in order. */
  lemma {:induction false} OnWireIs(wire: seq<Sent>, n: nat, f: FlowId) returns (places: seq<nat>)
    requires n <= |wire|
    ensures Enumerates(places, PlacesOf(wire, n, f)) && |OnWire(wire[..n], f)| == |places|
    ensures forall k | 0 <= k < |places| :: OnWire(wire[..n], f)[k] == wire[places[k]]
    decreases n
  {
    places := [];
    if n > 0 {
      places := OnWireIs(wire, n - 1, f);
      assert wire[..n][..n - 1] == wire[..n - 1];
      if wire[n - 1].flowId == f {
        EnumeratesMore(places, PlacesOf(wire, n - 1, f), n - 1);
        places := places + [n - 1];
        assert PlacesOf(wire, n, f) == PlacesOf(wire, n - 1, f) + {n - 1};
      } else {
        assert PlacesOf(wire, n, f) == PlacesOf(wire, n - 1, f);
      }
    }
  }

  ghost function SentPlaces(ps: seq<Played>, n: nat): set<nat>
    requires n <= |ps|
  {
    set i: nat | i < n && ps[i].sent
  }

  /** What a flow has sent are all the packets it has played that were to go out, as they were played. */
  lemma {:induction false} SentByIs(f: FlowId, ps: seq<Played>, n: nat) returns (places: seq<nat>)
    requires n <= |ps|
    ensures Enumerates(places, SentPlaces(ps, n)) && |SentBy(f, ps[..n])| == |places|
    ensures forall k | 0 <= k < |places| ::
      SentBy(f, ps[..n])[k] == Sent(f, ps[places[k]].index, ps[places[k]].time, ps[places[k]].learn)
    decreases n
  {
    places := [];
    if n > 0 {
      places := SentByIs(f, ps, n - 1);
      assert ps[..n][..n - 1] == ps[..n - 1];
      if ps[n - 1].sent {
        EnumeratesMore(places, SentPlaces(ps, n - 1), n - 1);
        places := places + [n - 1];
        assert SentPlaces(ps, n) == SentPlaces(ps, n - 1) + {n - 1};
      } else {
        assert SentPlaces(ps, n) == SentPlaces(ps, n - 1);
      }
    }
  }

  ghost predicate WasPlayed(played: map<FlowId, seq<Played>>, x: Sent, k: nat) {
    && x.flowId in played && k < |played[x.flowId]|
    && var p := played[x.flowId][k];
      p.sent && p.index == x.index && p.time == x.time && p.learn == x.learn
  }

  /** Every packet on the wire was played by its flow, and everything a flow played that was to go out is on
      the wire. */
  lemma MergedMeans(wire: seq<Sent>, played: map<FlowId, seq<Played>>)
    requires Merged(wire, played)
    ensures forall x | x in wire :: exists k :: WasPlayed(played, x, k)
    ensures forall f, k: nat | f in played && k < |played[f]| && played[f][k].sent ::
      Sent(f, played[f][k].index, played[f][k].time, played[f][k].learn) in wire
  {
    forall x | x in wire
      ensures exists k :: WasPlayed(played, x, k)
    {
      var j :| 0 <= j < |wire| && wire[j] == x;
      var places := OnWireIs(wire, |wire|, x.flowId);
      assert wire[..|wire|] == wire && j in PlacesOf(wire, |wire|, x.flowId);
      var i :| 0 <= i < |places| && places[i] == j;
      var ps := played[x.flowId];
      assert ps[..|ps|] == ps;
      var from := SentByIs(x.flowId, ps, |ps|);
      assert from[i] in SentPlaces(ps, |ps|) && WasPlayed(played, x, from[i]);
    }
    forall f, k: nat | f in played && k < |played[f]| && played[f][k].sent
      ensures Sent(f, played[f][k].index, played[f][k].time, played[f][k].learn) in wire
    {
      var ps := played[f];
      assert ps[..|ps|] == ps && wire[..|wire|] == wire;
      var from := SentByIs(f, ps, |ps|);
      assert k in SentPlaces(ps, |ps|);
      var i :| 0 <= i < |from| && from[i] == k;
      var places := OnWireIs(wire, |wire|, f);
      assert OnWire(wire, f)[i] == wire[places[i]] && places[i] in PlacesOf(wire, |wire|, f);
    }
  }
}
