/** The nodes of one traffic thread, and what its books say about them. All predicates are about
    values, so that a step that leaves a book alone keeps it for free. */
module Nodes {
  import opened Templates
  import opened Sums
  import opened Wrappers
  import NatReports

  type Addr = nat       // a place in the thread's node pool
  type FlowId = nat
  type Fid = nat        // the part of a flow id that fits in a tagged packet

  const DEFER_CLIENTS_NUM := 16

  function ShortFid(f: FlowId): Fid { f % NatReports.FID_SPACE }

  /** One client port handed out by the tuple generator; `serial` tells allocations apart. */
  datatype Port = Port(serial: nat, pool: nat, client: nat, number: nat)

  /** An address translation, as seen on the far side of the device under test. */
  datatype Ext = Ext(client: nat, server: nat, port: nat)

  /** Plain: never tagged. First: to be tagged. Wait: tagged, not yet learned. */
  datatype Learning = Plain | First | Wait | Learned(ext: Ext)

  datatype Node =
    | FlowPkt(time: real, flowId: FlowId, tmpl: nat, idx: nat, learn: Learning,
              port: Port, extra: seq<Port>)
    | Tick(time: real)                        // start new flows
    | Sync(time: real)                        // every millisecond
    | Exit(time: real)                        // end of the run
    | DeferPort(time: real, ports: seq<Port>) // ports to release later
  {
    /** A node of this kind is scheduled as a NAT flow rather than as a plain one. */
    predicate Waiting() { FlowPkt? && (learn.First? || learn.Wait?) }

    /** The client ports this node has to give back. The plugin's extra ports go first. */
    function Ports(): seq<Port> {
      match this
      case FlowPkt(_, _, _, _, _, port, extra) => extra + [port]
      case DeferPort(_, ports) => ports
      case _ => []
    }
  }

  type Memory = map<Addr, Node>

  function Slot(b: Option<Addr>): set<Addr> {
    match b
    case None => {}
    case Some(a) => {a}
  }

  ghost predicate NoDup(s: seq<Port>) {
    forall i, j | 0 <= i < j < |s| :: s[i] != s[j]
  }

  // ----- ownership of pool nodes -----

  ghost predicate Batch(mem: Memory, b: Option<Addr>) {
    b.Some? ==> b.value in mem && mem[b.value].DeferPort? && |mem[b.value].ports| < DEFER_CLIENTS_NUM
  }

  /** Every allocated node is in exactly one place: queued, one of the two batches being filled, or
      held by the running step. */
  ghost predicate Owned(mem: Memory, queue: set<Addr>, tcp: Option<Addr>, udp: Option<Addr>, hands: set<Addr>) {
    && mem.Keys == queue + Slot(tcp) + Slot(udp) + hands
    && queue !! Slot(tcp) !! Slot(udp) !! hands
    && Batch(mem, tcp) && Batch(mem, udp)
  }

  // ----- client ports -----

  predicate Holds(live: Memory, a: Addr, p: Port) { a in live && p in live[a].Ports() }

  /** Every port ever issued is in exactly one of three places: held by one node, freed, or loose in
      the running step. No node holds a port twice. */
  ghost predicate PortsKept(live: Memory, holder: map<Port, Addr>, issued: set<Port>, freed: set<Port>,
                            loose: set<Port>) {
    && (forall a, p :: Holds(live, a, p) <==> p in holder && holder[p] == a)
    && (forall a | a in live :: NoDup(live[a].Ports()))
    && issued == holder.Keys + freed + loose
    && holder.Keys !! freed !! loose
  }

  function PortSet(s: seq<Port>): set<Port> { set p | p in s }

  /** A node's ports leave it, all at once. */
  lemma PortsTaken(live: Memory, holder: map<Port, Addr>, issued: set<Port>, freed: set<Port>, a: Addr)
    requires PortsKept(live, holder, issued, freed, {}) && a in live
    ensures PortsKept(live - {a}, holder - PortSet(live[a].Ports()), issued, freed, PortSet(live[a].Ports()))
  {
    var ps := PortSet(live[a].Ports());
    forall p | p in ps
      ensures p in holder
    {
      assert Holds(live, a, p);
    }
    var live' := live - {a};
    forall b, p
      ensures Holds(live', b, p) <==> p in holder - ps && holder[p] == b
    {
      assert Holds(live, b, p) <==> p in holder && holder[p] == b;
      assert Holds(live, a, p) <==> p in holder && holder[p] == a;
    }
  }

  lemma NoDupAppend(s: seq<Port>, p: Port)
    requires NoDup(s) && p !in s
    ensures NoDup(s + [p])
  {
  }

  /** A loose port is put into node `b`, which is a batch. */
  lemma PortGiven(live: Memory, holder: map<Port, Addr>, issued: set<Port>, freed: set<Port>, loose: set<Port>,
                  b: Addr, p: Port, n: Node)
    requires PortsKept(live, holder, issued, freed, loose) && p in loose
    requires n.Ports() == (if b in live then live[b].Ports() else []) + [p]
    ensures PortsKept(live[b := n], holder[p := b], issued, freed, loose - {p})
  {
    var held := if b in live then live[b].Ports() else [];
    var live', holder' := live[b := n], holder[p := b];
    forall a, q
      ensures Holds(live', a, q) <==> q in holder' && holder'[q] == a
    {
      assert Holds(live, a, q) <==> q in holder && holder[q] == a;
    }
    assert !Holds(live, b, p);
    NoDupAppend(held, p);
  }

  /** A node that holds the same ports as before, or none, may be written over or added. */
  lemma PortsSame(live: Memory, holder: map<Port, Addr>, issued: set<Port>, freed: set<Port>, loose: set<Port>,
                  a: Addr, n: Node)
    requires PortsKept(live, holder, issued, freed, loose)
    requires n.Ports() == if a in live then live[a].Ports() else []
    ensures PortsKept(live[a := n], holder, issued, freed, loose)
  {
    var live' := live[a := n];
    forall b, q
      ensures Holds(live', b, q) <==> q in holder && holder[q] == b
    {
      assert Holds(live, b, q) <==> q in holder && holder[q] == b;
    }
  }

  lemma PortsEmptyNodeGone(live: Memory, holder: map<Port, Addr>, issued: set<Port>, freed: set<Port>,
                           loose: set<Port>, a: Addr)
    requires PortsKept(live, holder, issued, freed, loose)
    requires a in live && live[a].Ports() == []
    ensures PortsKept(live - {a}, holder, issued, freed, loose)
  {
    var live' := live - {a};
    forall b, q
      ensures Holds(live', b, q) <==> q in holder && holder[q] == b
    {
      assert Holds(live, b, q) <==> q in holder && holder[q] == b;
    }
  }

  /** A newly issued port is loose at first. */
  lemma PortIssued(live: Memory, holder: map<Port, Addr>, issued: set<Port>, freed: set<Port>, loose: set<Port>,
                   p: Port)
    requires PortsKept(live, holder, issued, freed, loose) && p !in issued
    ensures PortsKept(live, holder, issued + {p}, freed, loose + {p})
    ensures |issued + {p}| == |issued| + 1
  {
    hide NoDup, Holds;
  }

  function HeldBy(ps: set<Port>, a: Addr): map<Port, Addr> { map p | p in ps :: a }

  /** A new flow takes over all loose ports. */
  lemma PortsAdopted(live: Memory, holder: map<Port, Addr>, issued: set<Port>, freed: set<Port>, loose: set<Port>,
                     a: Addr, n: Node)
    requires PortsKept(live, holder, issued, freed, loose)
    requires a !in live && NoDup(n.Ports()) && PortSet(n.Ports()) == loose
    ensures PortsKept(live[a := n], holder + HeldBy(loose, a), issued, freed, {})
  {
    var holder' := holder + HeldBy(loose, a);
    assert holder'.Keys == holder.Keys + loose;
    var live' := live[a := n];
    forall b, q
      ensures Holds(live', b, q) <==> q in holder' && holder'[q] == b
    {
      assert Holds(live, b, q) <==> q in holder && holder[q] == b;
      assert q in loose <==> q in n.Ports();
    }
  }

  // ----- taking a node off the queue and putting it back -----

  lemma OwnedPop(mem: Memory, queue: set<Addr>, tcp: Option<Addr>, udp: Option<Addr>, a: Addr)
    requires Owned(mem, queue, tcp, udp, {}) && a in queue
    ensures Owned(mem, queue - {a}, tcp, udp, {a})
  {
  }

  lemma OwnedNew(mem: Memory, queue: set<Addr>, tcp: Option<Addr>, udp: Option<Addr>, a: Addr, n: Node)
    requires Owned(mem, queue, tcp, udp, {}) && a !in mem
    ensures Owned(mem[a := n], queue + {a}, tcp, udp, {})
  {
  }

  lemma OwnedGone(mem: Memory, queue: set<Addr>, tcp: Option<Addr>, udp: Option<Addr>, a: Addr)
    requires Owned(mem, queue, tcp, udp, {a})
    ensures Owned(mem - {a}, queue, tcp, udp, {})
  {
  }

  lemma OwnedLess(mem: Memory, queue: set<Addr>, tcp: Option<Addr>, udp: Option<Addr>, a: Addr)
    requires Owned(mem, queue, tcp, udp, {}) && a in mem
    ensures Owned(mem - {a}, queue - {a},
                  if tcp == Some(a) then None else tcp, if udp == Some(a) then None else udp, {})
  {
  }

  /** Writing over a queued node leaves every node where it is. */
  lemma OwnedSet(mem: Memory, queue: set<Addr>, tcp: Option<Addr>, udp: Option<Addr>, a: Addr, n: Node)
    requires Owned(mem, queue, tcp, udp, {}) && a in queue
    ensures Owned(mem[a := n], queue, tcp, udp, {})
  {
  }
}
