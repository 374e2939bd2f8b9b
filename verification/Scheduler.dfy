/** The traffic thread: a discrete-event loop over a queue of nodes ordered by time. It starts
    flows, replays their packets, learns translations, and gives every client port back. */
module Scheduling {
  import opened Templates
  import opened Nodes
  import opened Wrappers
  import opened FlowBooks
  import opened Progress
  import opened ThreadState
  import opened Policing
  import NatReports
  import opened Pacing
  import opened Wiring

  const SYNC_TIME_OUT := 0.001

  /** Client index and port numbers chosen by the tuple generator for one flow. */
  datatype Tuple = Tuple(client: nat, port: nat, rtp0: nat, rtp1: nat)

  /** What the receive core reports: the tag it read and the translation it saw. */
  datatype NatMsg = NatMsg(fid: Fid, ext: Ext)

  /** Everything outside the thread. `now` is the clock at its n-th reading; `rx` is what the receive
      core delivers at the n-th sync, given the flows tagged and associated so far: anything may be
      lost, repeated or late. */
  datatype Env = Env(
    now: nat -> real,
    tuple: FlowId -> Tuple,
    xlate: FlowId -> Ext,
    rx: (nat, set<FlowId>, set<FlowId>) -> seq<NatMsg>)

  /** A message that reports the tagged packet of some flow, whose short id was not given to a newer
      flow while the report was under way. */
  ghost predicate Observed(env: Env, m: NatMsg, tagged: set<FlowId>, associated: set<FlowId>) {
    exists f :: f in tagged && ShortFid(f) == m.fid && Newest(f, associated) && m.ext == env.xlate(f)
  }

  ghost predicate Faithful(env: Env) {
    forall n, tagged, associated, m | m in env.rx(n, tagged, associated) :: Observed(env, m, tagged, associated)
  }

  lemma FreshExists(mem: Memory)
    ensures exists a: Addr :: a !in mem
  {
    var n := AboveAll(mem.Keys);
    assert n !in mem.Keys;
  }

  lemma {:induction false} AboveAll(s: set<Addr>) returns (n: Addr)
    ensures forall a | a in s :: a < n
    decreases s
  {
    if s == {} {
      n := 0;
    } else {
      var a :| a in s;
      var m := AboveAll(s - {a});
      n := if a < m then m else a + 1;
      forall b | b in s
        ensures b < n
      {
        assert b == a || b in s - {a};
      }
    }
  }

  predicate Earliest(mem: Memory, queue: set<Addr>, a: Addr)
    requires queue <= mem.Keys
  {
    a in queue && forall b | b in queue :: mem[a].time <= mem[b].time
  }

  lemma {:induction false} EarliestExists(mem: Memory, queue: set<Addr>)
    requires queue != {} && queue <= mem.Keys
    ensures exists a :: Earliest(mem, queue, a)
    decreases queue
  {
    var c :| c in queue;
    if queue == {c} {
      assert Earliest(mem, queue, c);
    } else {
      var rest := queue - {c};
      EarliestExists(mem, rest);
      var a :| Earliest(mem, rest, a);
      assert Earliest(mem, queue, if mem[c].time <= mem[a].time then c else a);
    }
  }

  // ----- where nodes are, after a port was put into a batch -----

  lemma OwnedBatch(mem: Memory, queue: set<Addr>, tcp: Option<Addr>, udp: Option<Addr>, hands: set<Addr>,
                   isTcp: bool, b: Addr, n: Node)
    requires Owned(mem, queue, tcp, udp, hands) && n.DeferPort?
    requires var slot := if isTcp then tcp else udp;
      if slot.Some? then b == slot.value else b !in mem
    ensures |n.ports| < DEFER_CLIENTS_NUM ==>
      Owned(mem[b := n], queue, if isTcp then Some(b) else tcp, if isTcp then udp else Some(b), hands)
    ensures Owned(mem[b := n], queue + {b}, if isTcp then None else tcp, if isTcp then udp else None, hands)
  {
  }

  /** The batch being filled, if there is one, is a node of its own and has room. */
  lemma BatchReady(mem: Memory, queue: set<Addr>, tcp: Option<Addr>, udp: Option<Addr>, hands: set<Addr>, isTcp: bool)
    requires Owned(mem, queue, tcp, udp, hands)
    ensures hands <= mem.Keys
    ensures
      var slot := if isTcp then tcp else udp;
      slot.Some? ==>
        && slot.value !in hands && slot.value in mem && mem[slot.value].DeferPort?
        && |mem[slot.value].ports| < DEFER_CLIENTS_NUM
  {
  }

  lemma ShapeOwned(s: State, hands: set<Addr>)
    requires Shape(s, hands)
    ensures Owned(s.mem, s.queue, s.tcpDpc, s.udpDpc, hands)
  {
  }

  /** Port `p` of the closing flow `a` was put into batch `b`. */
  lemma BatchTakesPort(w: World, pass: Pass, s: State, s': State, loose: set<Port>, a: Addr, b: Addr, p: Port)
    requires TemplatesOk(w.ts)
    requires PortsOk(s, s.mem - {a}, loose) && p in loose && Shape(s, {a})
    requires b != a && b in s'.mem && s'.mem[b].DeferPort?
    requires b in s.mem ==> s.mem[b].DeferPort?
    requires s'.mem[b].ports == (if b in s.mem then s.mem[b].ports else []) + [p]
    requires s' == s.(mem := s.mem[b := s'.mem[b]], queue := s'.queue, tcpDpc := s'.tcpDpc, udpDpc := s'.udpDpc,
                      ports := s.ports.(holder := s.ports.holder[p := b]))
    requires Owned(s'.mem, s'.queue, s'.tcpDpc, s'.udpDpc, {a})
    ensures Shape(s', {a}) && PortsOk(s', s'.mem - {a}, loose - {p})
    ensures Flows(s'.mem) == Flows(s.mem) && Drivers(s'.mem) == Drivers(s.mem)
    ensures TotalWork(w.ts, pass, s'.mem) <= TotalWork(w.ts, pass, s.mem) + 1
  {
    hide PortsKept, TotalWork, Flows, StaffOk, Owned, Drivers;
    var n := s'.mem[b];
    DriversSame(s.mem, b, n);
    StaffSet(s.mem, s.staff, b, n);
    NonFlowChange(s.mem, b, n);
    assert s.mem[b := n] - {a} == (s.mem - {a})[b := n];
    PortGiven(s.mem - {a}, s.ports.holder, s.ports.issued, s.ports.freed, loose, b, p, n);
    if b in s.mem {
      WorkChanged(w.ts, pass, s.mem, b, n);
    } else {
      WorkAdded(w.ts, pass, s.mem, b, n);
    }
  }

  ghost function Unbatched(s: State, a: Addr): State {
    s.(mem := s.mem - {a}, queue := s.queue - {a},
       tcpDpc := if s.tcpDpc == Some(a) then None else s.tcpDpc,
       udpDpc := if s.udpDpc == Some(a) then None else s.udpDpc)
  }

  /** Where nodes are does not depend on the port books. */
  lemma ShapeSame(s: State, s': State, hands: set<Addr>)
    requires Shape(s, hands) && s' == s.(active := s'.active, ports := s'.ports, nextSerial := s'.nextSerial)
    ensures Shape(s', hands)
  {
  }

  lemma PortFreed(s: State, live: Memory, loose: set<Port>, p: Port)
    requires PortsOk(s, live, loose) && p in loose
    ensures PortsOk(s.(active := s.active - 1, ports := s.ports.(freed := s.ports.freed + {p})), live, loose - {p})
  {
    hide NoDup, Holds;
    PortMoved(s.ports.holder.Keys, s.ports.issued, s.ports.freed, loose, p);
  }

  lemma PortMoved(held: set<Port>, issued: set<Port>, freed: set<Port>, loose: set<Port>, p: Port)
    requires issued == held + freed + loose && held !! freed !! loose && p in loose
    ensures issued == held + (freed + {p}) + (loose - {p}) && held !! (freed + {p}) !! (loose - {p})
    ensures p !in freed && |freed + {p}| == |freed| + 1
  {
  }

  /** `loose` is the set of ports still to be given back when the first `i` have been. */
  ghost predicate Rest(ports: seq<Port>, i: nat, loose: set<Port>)
    requires i <= |ports|
  {
    NoDup(ports) && loose == PortSet(ports[i..])
  }

  /** All ports leave their node, to be given back one by one. */
  lemma PortsLeave(s: State, a: Addr) returns (loose: set<Port>)
    requires PortsOk(s, s.mem, {}) && a in s.mem
    ensures Rest(s.mem[a].Ports(), 0, loose) && loose == PortSet(s.mem[a].Ports())
    ensures PortsOk(s.(ports := s.ports.(holder := s.ports.holder - loose)), s.mem - {a}, loose)
  {
    hide PortSet;
    assert NoDup(s.mem[a].Ports());
    assert s.mem[a].Ports()[0..] == s.mem[a].Ports();
    loose := PortSet(s.mem[a].Ports());
    PortsTaken(s.mem, s.ports.holder, s.ports.issued, s.ports.freed, a);
  }

  lemma RestNext(ports: seq<Port>, i: nat, loose: set<Port>)
    requires i < |ports| && Rest(ports, i, loose)
    ensures ports[i] in loose && Rest(ports, i + 1, loose - {ports[i]})
  {
    assert ports[i..] == [ports[i]] + ports[i + 1..];
    var others := ports[i + 1..];
    forall k | 0 <= k < |others|
      ensures others[k] != ports[i]
    {
      assert others[k] == ports[i + 1 + k];
    }
  }

  lemma RestNone(ports: seq<Port>, loose: set<Port>)
    requires Rest(ports, |ports|, loose)
    ensures loose == {}
  {
  }

  /** What each meter has left. */
  ghost function Views(meters: seq<Policer>): (ms: seq<Meter>)
    reads meters
    ensures |ms| == |meters| && forall i | 0 <= i < |meters| :: ms[i] == meters[i].View()
  {
    seq(|meters|, i requires 0 <= i < |meters| reads meters => meters[i].View())
  }

  /** A meter with the rate of template `t` that was never asked. */
  ghost predicate Unasked(m: Policer, t: Template)
    reads m
  {
    m.Valid() && m.initial == FreshMeter(t.cir) && m.requests == [] && m.admitted == []
  }

  class FlowGenThread {
    const env: Env
    const ts: seq<Template>
    const learnMode: bool
    const aging: (bool, nat) -> nat // seconds a freed port rests, by TCP and client pool
    const meters: seq<Policer>

    var mem: Memory
    var queue: set<Addr>
    var tcpDpc: Option<Addr>
    var udpDpc: Option<Addr>

    var lookup: map<Fid, Addr>
    var openFlows: nat
    var closedFlows: nat
    var nextId: FlowId
    var natAdd: nat
    var natRemove: nat
    var natTimeout: nat
    var natNoFlow: nat
    var active: int
    var nextSerial: nat

    var curTime: real
    var curTemplate: nat
    var flowcnt: seq<nat>

    var clockReads: nat
    var syncs: nat
    var tagged: set<FlowId>
    var associated: set<FlowId>
    var wire: seq<Sent>  // all packets sent so far

    ghost var life: map<FlowId, Life>
    ghost var played: map<FlowId, seq<Played>>
    ghost var ports: PortBooks
    ghost var staff: Staff
    ghost var flowsOf: seq<seq<FlowId>>  // the flows each template has started
    ghost var starts: seq<seq<real>>     // and the grants of its meter
    ghost var lastTick: real             // the latest time the meters were asked
    ghost var traffic: Traffic           // the chances to start flows, up to now
    ghost var draining: bool             // the first pass is over
    ghost var stop: real                 // and this is when it ends

    ghost function W(): World { World(ts, env.xlate, learnMode) }

    ghost function S(): State
      reads this
    {
      State(mem, queue, tcpDpc, udpDpc,
            Books(lookup, tagged, associated, life, played, openFlows, closedFlows, nextId, draining, stop),
            natAdd, natRemove, ports, active, nextSerial, staff)
    }

    /** A new thread: each template has a meter of its own that was never asked. */
    constructor (env: Env, ts: seq<Template>, learnMode: bool, aging: (bool, nat) -> nat, meters: seq<Policer>)
      requires 0 < |ts| == |meters| && TemplatesOk(ts) && (learnMode ==> Faithful(env))
      requires forall i, j | 0 <= i < j < |meters| :: meters[i] != meters[j]
      requires forall i | 0 <= i < |meters| :: Unasked(meters[i], ts[i])
      ensures Fresh() && this.env == env && this.ts == ts && this.learnMode == learnMode
      ensures this.meters == meters && this.aging == aging
    {
      this.env, this.ts, this.learnMode, this.aging, this.meters := env, ts, learnMode, aging, meters;
      mem, queue, tcpDpc, udpDpc, lookup := map[], {}, None, None, map[];
      openFlows, closedFlows, nextId, natAdd, natRemove, natTimeout, natNoFlow := 0, 0, 0, 0, 0, 0, 0;
      active, nextSerial, curTime, curTemplate := 0, 0, 0.0, 0;
      flowcnt := seq(|ts|, _ => 0);
      clockReads, syncs, tagged, associated, wire := 0, 0, {}, {}, [];
      life, played, ports, staff := map[], map[], PortBooks(map[], {}, {}), Staff(None, None, None);
      flowsOf, starts, lastTick := seq(|ts|, _ => []), seq(|ts|, _ => []), 0.0;
      traffic, draining, stop := Traffic(Pacer([], [], 0), 0.0, 0.0, 0), false, 0.0;
    }

    // ----- pool -----

    method CreateNode(n: Node) returns (a: Addr)
      modifies `mem
      ensures a !in old(mem) && mem == old(mem)[a := n]
    {
      FreshExists(mem);
      a :| a !in mem;
      mem := mem[a := n];
    }

    method FreeNode(a: Addr)
      requires a in mem
      modifies `mem
      ensures mem == old(mem) - {a}
    {
      mem := mem - {a};
    }

    // ----- client ports -----

    method FreePort(p: Port, ghost live: Memory, ghost loose: set<Port>)
      requires PortsOk(S(), live, loose) && p in loose
      modifies `active, `ports
      ensures S() == old(S()).(active := active, ports := ports)
      ensures ports == old(ports).(freed := old(ports).freed + {p})
      ensures PortsOk(S(), live, loose - {p})
    {
      hide PortsOk;
      PortFreed(S(), live, loose, p);
      active := active - 1;
      ports := ports.(freed := ports.freed + {p});
    }

    /** The given ports, which are loose, are freed. */
    method FreePorts(batch: seq<Port>, ghost live: Memory, ghost ps: set<Port>)
      requires Rest(batch, 0, ps) && PortsOk(S(), live, ps)
      modifies `active, `ports
      ensures S() == old(S()).(active := active, ports := ports)
      ensures ports == old(ports).(freed := old(ports).freed + ps)
      ensures PortsOk(S(), live, {})
    {
      hide PortsOk, Rest;
      ghost var loose := ps;
      var i := 0;
      while i < |batch|
        invariant 0 <= i <= |batch|
        invariant Rest(batch, i, loose)
        invariant S() == old(S()).(active := active, ports := ports)
        invariant PortsOk(S(), live, loose)
        invariant loose <= ps && ports == old(ports).(freed := old(ports).freed + (ps - loose))
      {
        RestNext(batch, i, loose);
        FreePort(batch[i], live, loose);
        loose := loose - {batch[i]};
        i := i + 1;
      }
      RestNone(batch, loose);
    }

    /** All ports of batch `a` are freed. */
    method HandlerDeferJob(a: Addr)
      requires a in mem && mem[a].DeferPort? && PortsOk(S(), mem, {})
      modifies `active, `ports
      ensures S() == old(S()).(active := active, ports := ports)
      ensures ports.issued == old(ports.issued) && ports.freed == old(ports.freed) + PortSet(mem[a].ports)
      ensures PortsOk(S(), mem - {a}, {})
    {
      hide PortsOk, Rest, PortSet;
      ghost var loose := PortsLeave(S(), a);
      ports := ports.(holder := ports.holder - loose);
      FreePorts(mem[a].ports, mem - {a}, loose);
    }

    method GetDefer(isTcp: bool) returns (b: Addr)
      modifies `mem, `tcpDpc, `udpDpc
      ensures
        var slot := old(if isTcp then tcpDpc else udpDpc);
        if slot.Some? then b == slot.value && mem == old(mem)
        else b !in old(mem) && mem == old(mem)[b := DeferPort(0.0, [])]
      ensures if isTcp then tcpDpc == Some(b) && udpDpc == old(udpDpc) else udpDpc == Some(b) && tcpDpc == old(tcpDpc)
    {
      if isTcp {
        if tcpDpc == None {
          var a := CreateNode(DeferPort(0.0, []));
          tcpDpc := Some(a);
        }
        b := tcpDpc.value;
      } else {
        if udpDpc == None {
          var a := CreateNode(DeferPort(0.0, []));
          udpDpc := Some(a);
        }
        b := udpDpc.value;
      }
    }

    method ScheduleNode(a: Addr, delay: real)
      requires a in mem && mem[a].DeferPort?
      modifies `mem, `queue, `clockReads
      ensures queue == old(queue) + {a}
      ensures a in mem && mem == old(mem)[a := DeferPort(mem[a].time, old(mem)[a].ports)]
      ensures mem[a].time == env.now(old(clockReads)) + delay
    {
      mem := mem[a := DeferPort(env.now(clockReads) + delay, mem[a].ports)];
      clockReads := clockReads + 1;
      queue := queue + {a};
    }

    /** Port `p` is put into the batch being filled; a full batch is scheduled for release. */
    method AddClient(isTcp: bool, p: Port, delay: real, ghost hands: set<Addr>) returns (b: Addr)
      requires Owned(mem, queue, tcpDpc, udpDpc, hands)
      modifies `mem, `queue, `tcpDpc, `udpDpc, `clockReads
      ensures Owned(mem, queue, tcpDpc, udpDpc, hands) && old(queue) <= queue
      ensures b !in hands && b in mem && mem[b].DeferPort? && mem == old(mem)[b := mem[b]]
      ensures b in old(mem) ==> old(mem)[b].DeferPort?
      ensures mem[b].ports == (if b in old(mem) then old(mem)[b].ports else []) + [p]
      ensures if |mem[b].ports| == DEFER_CLIENTS_NUM then
        queue == old(queue) + {b} && mem[b].time == env.now(old(clockReads)) + delay
        else queue == old(queue)
      ensures RestsIn(old(S()), S(), isTcp, p, b, env.now(old(clockReads)) + delay)
    {
      hide Owned;
      BatchReady(mem, queue, tcpDpc, udpDpc, hands, isTcp);
      b := GetDefer(isTcp);
      mem := mem[b := DeferPort(mem[b].time, mem[b].ports + [p])];
      assert mem == old(mem)[b := mem[b]];
      OwnedBatch(old(mem), queue, old(tcpDpc), old(udpDpc), hands, isTcp, b, mem[b]);
      if |mem[b].ports| == DEFER_CLIENTS_NUM {
        ScheduleNode(b, delay);
        if isTcp {
          tcpDpc := None;
        } else {
          udpDpc := None;
        }
        assert mem == old(mem)[b := mem[b]];
        OwnedBatch(old(mem), old(queue), old(tcpDpc), old(udpDpc), hands, isTcp, b, mem[b]);
      }
    }

    /** What giving ports back may change: batches, their places, and the port books. */
    ghost predicate OnlyPorts(s: State, s': State) {
      && s' == s.(mem := s'.mem, queue := s'.queue, tcpDpc := s'.tcpDpc, udpDpc := s'.udpDpc,
                  active := s'.active, ports := s'.ports)
      && s.queue <= s'.queue && s'.ports.issued == s.ports.issued
    }

    /** Port `p` is put into the batch being filled, which holds it from now on. */
    method PutInBatch(isTcp: bool, p: Port, delay: real, ghost hands: set<Addr>) returns (b: Addr)
      requires Owned(mem, queue, tcpDpc, udpDpc, hands)
      modifies `mem, `queue, `tcpDpc, `udpDpc, `ports, `clockReads
      ensures Owned(mem, queue, tcpDpc, udpDpc, hands) && old(queue) <= queue
      ensures b !in hands && b in mem && mem[b].DeferPort? && (b in old(mem) ==> old(mem)[b].DeferPort?)
      ensures mem[b].ports == (if b in old(mem) then old(mem)[b].ports else []) + [p]
      ensures S() == old(S()).(mem := old(mem)[b := mem[b]], queue := queue, tcpDpc := tcpDpc, udpDpc := udpDpc,
                               ports := old(ports).(holder := old(ports).holder[p := b]))
      ensures RestsIn(old(S()), S(), isTcp, p, b, env.now(old(clockReads)) + delay)
    {
      hide Owned;
      b := AddClient(isTcp, p, delay, hands);
      ports := ports.(holder := ports.holder[p := b]);
    }

    /** Port `p` of the flow node `a`, which is being closed, rests in a batch before it is freed. */
    method RestPort(isTcp: bool, p: Port, delay: real, ghost a: Addr, ghost loose: set<Port>, ghost pass: Pass)
      requires TemplatesOk(ts)
      requires a in mem && mem[a].FlowPkt? && Shape(S(), {a})
      requires PortsOk(S(), mem - {a}, loose) && p in loose
      modifies `mem, `queue, `tcpDpc, `udpDpc, `ports, `clockReads
      ensures a in mem && mem[a] == old(mem)[a] && Shape(S(), {a})
      ensures PortsOk(S(), mem - {a}, loose - {p}) && OnlyPorts(old(S()), S())
      ensures Flows(mem) == old(Flows(mem)) && Drivers(mem) == old(Drivers(mem))
      ensures TotalWork(ts, pass, mem) <= old(TotalWork(ts, pass, mem)) + 1
      ensures p in ports.holder && ports == old(ports).(holder := old(ports).holder[p := ports.holder[p]])
      ensures RestsIn(old(S()), S(), isTcp, p, ports.holder[p], env.now(old(clockReads)) + delay)
    {
      hide Shape, PortsOk, TotalWork, Owned, Flows, TemplatesOk, Drivers, RestsIn;
      ShapeOwned(S(), {a});
      var b := PutInBatch(isTcp, p, delay, {a});
      BatchTakesPort(W(), pass, old(S()), S(), loose, a, b, p);
    }

    /** Port `p` of the flow node `a`, which is being closed, is freed or put into a batch. */
    method DeferClientPortFree(isTcp: bool, p: Port, ghost a: Addr, ghost loose: set<Port>, ghost pass: Pass)
      requires TemplatesOk(ts)
      requires a in mem && mem[a].FlowPkt? && Shape(S(), {a})
      requires PortsOk(S(), mem - {a}, loose) && p in loose
      modifies `mem, `queue, `tcpDpc, `udpDpc, `active, `ports, `clockReads
      ensures a in mem && mem[a] == old(mem)[a] && Shape(S(), {a})
      ensures PortsOk(S(), mem - {a}, loose - {p}) && OnlyPorts(old(S()), S())
      ensures Flows(mem) == old(Flows(mem)) && Drivers(mem) == old(Drivers(mem))
      ensures TotalWork(ts, pass, mem) <= old(TotalWork(ts, pass, mem)) + 1
      ensures GivenBack(old(S()), S(), isTcp, p, aging(isTcp, p.pool), env.now(old(clockReads)))
      ensures OtherSlot(old(S()), S(), isTcp)
    {
      hide Shape, PortsOk, TotalWork, Owned, Flows, TemplatesOk, Drivers;
      var delay := aging(isTcp, p.pool);
      if delay == 0 {
        FreePort(p, mem - {a}, loose);
        ShapeSame(old(S()), S(), {a});
      } else {
        RestPort(isTcp, p, delay as real, a, loose, pass);
      }
    }

    // ----- the end of a flow -----

    /** The plugin's part of closing flow `a`: its extra ports are given back. */
    method OnNodeLast(ghost a: Addr, n: Node, isTcp: bool, ghost loose: set<Port>, ghost pass: Pass)
      returns (ghost left: set<Port>)
      requires TemplatesOk(ts)
      requires a in mem && mem[a] == n && n.FlowPkt? && n.tmpl < |ts| && Shape(S(), {a})
      requires |n.extra| == if UsesRtp(ts[n.tmpl].plugin) then 2 else 0
      requires PortsOk(S(), mem - {a}, loose) && Rest(n.Ports(), 0, loose)
      modifies `mem, `queue, `tcpDpc, `udpDpc, `active, `ports, `clockReads
      ensures a in mem && mem[a] == old(mem)[a] && Shape(S(), {a})
      ensures PortsOk(S(), mem - {a}, left) && Rest(n.Ports(), |n.extra|, left) && OnlyPorts(old(S()), S())
      ensures Flows(mem) == old(Flows(mem)) && Drivers(mem) == old(Drivers(mem))
      ensures TotalWork(ts, pass, mem) <= old(TotalWork(ts, pass, mem)) + |n.extra|
      ensures OtherSlot(old(S()), S(), isTcp)
    {
      hide GivenBack, Drivers, PortsOk, TotalWork, Shape, Flows, TemplatesOk, Rest;
      left := loose;
      if UsesRtp(ts[n.tmpl].plugin) {
        RestNext(n.Ports(), 0, left);
        DeferClientPortFree(isTcp, n.extra[0], a, left, pass);
        left := left - {n.extra[0]};
        RestNext(n.Ports(), 1, left);
        DeferClientPortFree(isTcp, n.extra[1], a, left, pass);
        left := left - {n.extra[1]};
      }
    }

    /** All ports of flow `a`, which is being closed, are freed or put into batches. */
    method GivePortsBack(a: Addr, ghost pass: Pass)
      requires TemplatesOk(ts)
      requires a in mem && mem[a].FlowPkt? && FlowOk(ts, mem[a]) && Shape(S(), {a}) && PortsOk(S(), mem, {})
      modifies `mem, `queue, `tcpDpc, `udpDpc, `active, `ports, `clockReads
      ensures a in mem && mem[a] == old(mem)[a] && Shape(S(), {a}) && PortsOk(S(), mem - {a}, {})
      ensures OnlyPorts(old(S()), S()) && Flows(mem) == old(Flows(mem)) && Drivers(mem) == old(Drivers(mem))
      ensures TotalWork(ts, pass, mem) <= old(TotalWork(ts, pass, mem)) + |mem[a].Ports()|
      ensures OtherSlot(old(S()), S(), ts[mem[a].tmpl].packets[mem[a].idx].tcp)
    {
      hide GivenBack, Drivers, PortsOk, TotalWork, Shape, Flows, TemplatesOk, Rest, FlowOk;
      var n := mem[a];
      FlowOkMeans(ts, n);
      ghost var loose := PortsLeave(S(), a);
      ports := ports.(holder := ports.holder - loose);
      ShapeSame(old(S()), S(), {a});
      var isTcp := ts[n.tmpl].packets[n.idx].tcp;
      loose := OnNodeLast(a, n, isTcp, loose, pass);
      RestNext(n.Ports(), |n.extra|, loose);
      DeferClientPortFree(isTcp, n.port, a, loose, pass);
      RestNone(n.Ports(), loose - {n.port});
    }

    /** Flow `a` has left the books; its ports and its node are given back. */
    method FreeLastFlowNode(a: Addr, ghost pass: Pass)
      requires Leaving(W(), S(), a)
      modifies `mem, `queue, `tcpDpc, `udpDpc, `active, `ports, `clockReads, `closedFlows
      ensures Ready(W(), S())
      ensures Flows(mem) == old(Flows(mem)) - {a} && Drivers(mem) == old(Drivers(mem))
      ensures TotalWork(ts, pass, mem) < old(TotalWork(ts, pass, mem))
      ensures closedFlows == old(closedFlows) + ts[old(mem)[a].tmpl].totalFlows
      ensures OnlyPorts(old(S()).(books := S().books), S()) && a !in mem
    {
      hide Drivers, PortsOk, TotalWork, Shape, Flows, TemplatesOk, BooksOk, Work, FlowOk, Ready, Counted;
      ghost var n := mem[a];
      FlowOkMeans(ts, n);
      FlowWorkBound(ts, pass, n);
      closedFlows := closedFlows + ts[mem[a].tmpl].totalFlows;
      BooksApart(old(S()), S(), {a});
      GivePortsBack(a, pass);
      FlowNodeGone(W(), pass, S(), a);
      FlowGone(mem, a);
      FreeNode(a);
    }

    /** A batch that was queued, or is still being filled, is released. */
    method ReleaseBatch(a: Addr, ghost pass: Pass)
      requires Ready(W(), S()) && a in mem && mem[a].DeferPort?
      modifies `mem, `queue, `tcpDpc, `udpDpc, `active, `ports
      ensures Ready(W(), S()) && Undisturbed(old(S()), S())
      ensures TotalWork(ts, pass, mem) < old(TotalWork(ts, pass, mem)) && Flows(mem) == old(Flows(mem))
      ensures mem == old(mem) - {a} && queue == old(queue) - {a}
      ensures ports.issued == old(ports.issued) && ports.freed == old(ports.freed) + PortSet(old(mem)[a].ports)
      ensures tcpDpc == (if old(tcpDpc) == Some(a) then None else old(tcpDpc))
      ensures udpDpc == (if old(udpDpc) == Some(a) then None else old(udpDpc))
    {
      hide Ready, PortsOk, TotalWork, TemplatesOk, Undisturbed, PortSet, Flows;
      ReadyParts(W(), S());
      HandlerDeferJob(a);
      ghost var s := S();
      FreeBatch(a);
      PortsElsewhere(s, S(), mem);
      BatchGone(W(), pass, old(S()), S(), a);
    }

    /** The node of a released batch goes back to the pool. */
    method FreeBatch(a: Addr)
      requires a in mem
      modifies `mem, `queue, `tcpDpc, `udpDpc
      ensures S() == Unbatched(old(S()), a)
    {
      FreeNode(a);
      queue := queue - {a};
      tcpDpc := if tcpDpc == Some(a) then None else tcpDpc;
      udpDpc := if udpDpc == Some(a) then None else udpDpc;
    }

    // ----- one packet of a flow -----

    /** The packet of queued flow `a` has been played; the flow moves on to its next packet. */
    method UpdateNextPktInFlow(a: Addr, ghost sent: bool, ghost pass: Pass)
      requires Ready(W(), S()) && a in queue && a in mem && mem[a].FlowPkt?
      requires mem[a].tmpl < |ts| && mem[a].idx + 1 < ts[mem[a].tmpl].Size() && !mem[a].learn.First?
      requires mem[a].Waiting() ==> ts[mem[a].tmpl].packets[mem[a].idx].init
      requires DueNow(ts, mem[a], S().books, sent)
      modifies `mem, `life, `played
      ensures Ready(W(), S()) && Undisturbed(old(S()), S())
      ensures TotalWork(ts, pass, mem) < old(TotalWork(ts, pass, mem))
      ensures mem == old(mem)[a := NextPacket(ts, old(mem)[a])]
      ensures played == Logged(old(played), old(mem)[a].flowId, PlayedBy(old(mem)[a], sent, draining))
    {
      hide Ready, TotalWork, Undisturbed, TemplatesOk, Node.Waiting, DueNow;
      AdvanceReady(W(), pass, S(), a, sent);
      ghost var p := PlayedBy(mem[a], sent, draining);
      ghost var f := mem[a].flowId;
      life := life[f := life[f].(at := mem[a].idx + 1)];
      played := played[f := played[f] + [p]];
      mem := mem[a := NextPacket(ts, mem[a])];
    }

    /** The last packet of a repeating flow has been played; the flow starts its next round. */
    method RescheduleFlow(a: Addr, ghost sent: bool, ghost pass: Pass)
      requires Ready(W(), S()) && a in queue && a in mem && mem[a].FlowPkt? && !mem[a].Waiting()
      requires mem[a].tmpl < |ts| && mem[a].idx + 1 == ts[mem[a].tmpl].Size()
      requires ts[mem[a].tmpl].limitSet && !pass.draining && mem[a].time <= pass.until
      requires !draining && DueNow(ts, mem[a], S().books, sent)
      modifies `mem, `life, `played
      ensures Ready(W(), S()) && Undisturbed(old(S()), S())
      ensures TotalWork(ts, pass, mem) < old(TotalWork(ts, pass, mem))
      ensures mem == old(mem)[a := NextRound(ts, old(mem)[a])]
      ensures played == Logged(old(played), old(mem)[a].flowId, PlayedBy(old(mem)[a], sent, draining))
    {
      hide Ready, TotalWork, Undisturbed, TemplatesOk, Node.Waiting, DueNow;
      RepeatReady(W(), pass, S(), a, sent);
      ghost var p := PlayedBy(mem[a], sent, draining);
      ghost var f := mem[a].flowId;
      life := life[f := life[f].(rounds := life[f].rounds + 1, at := 0)];
      played := played[f := played[f] + [p]];
      mem := mem[a := NextRound(ts, mem[a])];
    }

    /** The last packet of queued flow `a` has been played, and the flow will not be repeated. */
    method FinishFlow(a: Addr, ghost sent: bool, ghost pass: Pass)
      requires Ready(W(), S()) && a in queue && a in mem && mem[a].FlowPkt? && !mem[a].Waiting()
      requires mem[a].tmpl < |ts| && mem[a].idx + 1 == ts[mem[a].tmpl].Size()
      requires (ts[mem[a].tmpl].limitSet ==> draining) && DueNow(ts, mem[a], S().books, sent)
      modifies `mem, `queue, `tcpDpc, `udpDpc, `active, `ports, `clockReads, `closedFlows, `life, `played
      ensures Ready(W(), S()) && Undisturbed(old(S()), S())
      ensures TotalWork(ts, pass, mem) < old(TotalWork(ts, pass, mem))
      ensures a !in mem && Flows(mem) == old(Flows(mem)) - {a}
      ensures closedFlows == old(closedFlows) + ts[old(mem)[a].tmpl].totalFlows
      ensures played == Logged(old(played), old(mem)[a].flowId, PlayedBy(old(mem)[a], sent, draining))
    {
      hide Ready, Leaving, TotalWork, TemplatesOk, Drivers, Births, Flows, Node.Waiting, DueNow, PlayedIn;
      ghost var f, ps := mem[a].flowId, [PlayedBy(mem[a], sent, draining)];
      PlaysInPass(W(), S(), a, sent);
      DepartLeaves(W(), S(), a, ps);
      Depart(a, ps);
      FreeLastFlowNode(a, pass);
    }

    /** Queued flow `a`, which has played `ps` last, is taken off the queue. */
    method Depart(a: Addr, ghost ps: seq<Played>)
      requires a in mem && mem[a].FlowPkt? && mem[a].flowId in life && mem[a].flowId in played && !mem[a].Waiting()
      modifies `queue, `life, `played
      ensures S() == Departed(old(S()), a, ps)
    {
      ghost var f := mem[a].flowId;
      queue := queue - {a};
      life := life[f := life[f].(at := mem[a].idx + |ps|, home := None)];
      played := played[f := played[f] + ps];
    }

    /** Queued flow `a` is taken off the queue and out of the table. */
    method Disassociate(a: Addr)
      requires a in mem && mem[a].FlowPkt? && mem[a].flowId in life
      modifies `queue, `life, `lookup, `natRemove, `natTimeout
      ensures S() == TimedOut(old(S()), a) && natTimeout == old(natTimeout) + 1
    {
      ghost var f := mem[a].flowId;
      natTimeout := natTimeout + 1;
      natRemove := natRemove + 1;
      lookup := lookup - {ShortFid(mem[a].flowId)};
      queue := queue - {a};
      life := life[f := life[f].(at := mem[a].idx, home := None)];
    }

    /** The translation of queued flow `a` never came: the flow is removed from the table and
        closed. */
    method TerminateNatFlows(a: Addr, ghost pass: Pass)
      requires Ready(W(), S()) && a in queue && a in mem && mem[a].FlowPkt? && mem[a].Waiting()
      requires mem[a].tmpl < |ts| && mem[a].idx < ts[mem[a].tmpl].Size()
      requires !ts[mem[a].tmpl].packets[mem[a].idx].init
      modifies `mem, `queue, `tcpDpc, `udpDpc, `active, `ports, `clockReads, `closedFlows,
               `life, `lookup, `natRemove, `natTimeout
      ensures Ready(W(), S()) && Undisturbed(old(S()), S())
      ensures TotalWork(ts, pass, mem) < old(TotalWork(ts, pass, mem))
      ensures a !in mem && Flows(mem) == old(Flows(mem)) - {a}
      ensures lookup == old(lookup) - {ShortFid(old(mem)[a].flowId)} && natTimeout == old(natTimeout) + 1
      ensures closedFlows == old(closedFlows) + ts[old(mem)[a].tmpl].totalFlows
    {
      hide Ready, Leaving, TotalWork, TemplatesOk, Drivers, Births, Flows, Node.Waiting, ShortFid, Node.Ports;
      TimeoutLeaves(W(), S(), a);
      Disassociate(a);
      FreeLastFlowNode(a, pass);
    }

    // ----- learning translations -----

    /** One report of the receive core. Late and repeated reports change no node; any other belongs
        to a flow that is waiting for it. */
    method HandelNatMsg(m: NatMsg, ghost pass: Pass)
      requires Ready(W(), S()) && (learnMode ==> Observed(env, m, tagged, associated))
      modifies `mem, `lookup, `natRemove, `natNoFlow
      ensures Ready(W(), S()) && Undisturbed(old(S()), S()) && SameTimes(old(mem), mem)
      ensures TotalWork(ts, pass, mem) == old(TotalWork(ts, pass, mem))
      ensures m.fid !in old(lookup) ==> S() == old(S()) && natNoFlow == old(natNoFlow) + 1
      ensures m.fid in old(lookup) ==>
        && old(lookup)[m.fid] in old(mem) && old(mem)[old(lookup)[m.fid]].FlowPkt?
        && S() == LearnedState(old(S()), old(lookup)[m.fid], m.fid, m.ext) && natNoFlow == old(natNoFlow)
      ensures S() == Told(old(S()), m)
    {
      hide Ready, TotalWork, Undisturbed, Births, Drivers;
      if m.fid !in lookup {
        natNoFlow := natNoFlow + 1;
        SameState(S());
        return;
      }
      var a := lookup[m.fid];
      TableEntry(W(), S(), m.fid);
      ReportIsOwn(W(), env, S(), m);
      var n := mem[a].(learn := mem[a].learn);
      assert n.learn.Wait?;
      LearnReady(W(), pass, S(), a, m.fid, m.ext);
      mem := mem[a := n.(learn := Learned(m.ext))];
      lookup := lookup - {m.fid};
      natRemove := natRemove + 1;
    }

    /** Report `i` of those delivered is taken in, after the ones before it; `s0` was the thread's state
        before the first one. */
    method TakeMsg(msgs: seq<NatMsg>, i: nat, ghost s0: State, ghost pass: Pass)
      requires Ready(W(), S()) && i < |msgs| && (learnMode ==> Observed(env, msgs[i], tagged, associated))
      requires Undisturbed(s0, S()) && SameTimes(s0.mem, mem) && S() == HeardSome(s0, msgs, i)
      modifies `mem, `lookup, `natRemove, `natNoFlow
      ensures Ready(W(), S()) && Undisturbed(s0, S()) && SameTimes(s0.mem, mem)
      ensures S() == HeardSome(s0, msgs, i + 1)
      ensures TotalWork(ts, pass, mem) == old(TotalWork(ts, pass, mem))
    {
      hide Ready, TotalWork, Undisturbed, SameTimes, Told, LearnedState, Observed;
      HandelNatMsg(msgs[i], pass);
      UndisturbedTwice(s0, old(S()), S());
    }

    /** The given reports are taken in, in order. */
    method TakeMsgs(msgs: seq<NatMsg>, ghost pass: Pass)
      requires Ready(W(), S())
      requires learnMode ==> forall i | 0 <= i < |msgs| :: Observed(env, msgs[i], tagged, associated)
      modifies `mem, `lookup, `natRemove, `natNoFlow
      ensures Ready(W(), S()) && Undisturbed(old(S()), S()) && SameTimes(old(mem), mem)
      ensures S() == Heard(old(S()), msgs)
      ensures TotalWork(ts, pass, mem) == old(TotalWork(ts, pass, mem))
    {
      hide Ready, TotalWork, Undisturbed, SameTimes, Told, HeardSome, LearnedState, Observed;
      ReadyTemplates(W(), S());
      SameState(S());
      HeardNone(S(), msgs);
      ghost var s0 := S();
      var i := 0;
      while i < |msgs|
        invariant 0 <= i <= |msgs|
        invariant Ready(W(), S()) && Undisturbed(s0, S()) && SameTimes(s0.mem, mem)
        invariant TotalWork(ts, pass, mem) == old(TotalWork(ts, pass, mem))
        invariant S() == HeardSome(s0, msgs, i)
      {
        TakeMsg(msgs, i, s0, pass);
        i := i + 1;
      }
    }

    /** All reports the receive core has delivered are taken in, in order. */
    method CheckMsgs(ghost pass: Pass)
      requires Ready(W(), S()) && (learnMode ==> Faithful(env))
      modifies `mem, `lookup, `natRemove, `natNoFlow, `syncs
      ensures Ready(W(), S()) && Undisturbed(old(S()), S()) && SameTimes(old(mem), mem)
      ensures TotalWork(ts, pass, mem) == old(TotalWork(ts, pass, mem))
      ensures syncs == old(syncs) + 1 && S() == Heard(old(S()), env.rx(old(syncs), old(tagged), old(associated)))
    {
      hide Ready, TotalWork, Undisturbed, SameTimes, Heard, Observed, Faithful;
      var msgs := env.rx(syncs, tagged, associated);
      ReportsObserved(env, learnMode, syncs, tagged, associated);
      ReadyTemplates(W(), S());
      syncs := syncs + 1;
      TakeMsgs(msgs, pass);
    }

    // ----- starting a flow -----

    /** The next flow's short id is still in the table; it takes a full turn of the id space. */
    ghost predicate Collision()
      reads `lookup, `nextId
    {
      learnMode && ShortFid(nextId) in lookup && nextId >= NatReports.FID_SPACE
    }

    /** A flow could not be started, at a chance that came in time. */
    ghost predicate Stuck()
      reads `lookup, `nextId, `traffic, `stop
    {
      && Collision() && nextId <= traffic.ticks + 1
      && TickAt(traffic.first, traffic.step, traffic.ticks) <= stop
    }

    /** A client port is handed out by the tuple generator. */
    method NewPort(pool: nat, client: nat, number: nat, ghost loose: set<Port>) returns (p: Port)
      requires PortsOk(S(), mem, loose)
      modifies `active, `ports, `nextSerial
      ensures p == Port(old(nextSerial), pool, client, number) && nextSerial == old(nextSerial) + 1
      ensures S() == old(S()).(active := active, ports := ports, nextSerial := nextSerial)
      ensures PortsOk(S(), mem, loose + {p})
    {
      hide PortsOk;
      p := Port(nextSerial, pool, client, number);
      PortNew(S(), mem, loose, p);
      active := active + 1;
      nextSerial := nextSerial + 1;
      ports := ports.(issued := ports.issued + {p});
    }

    /** The ports of a new flow of template `t`: its own, and two more if its plugin needs them. */
    method NewPorts(t: Template, tuple: Tuple) returns (port: Port, extra: seq<Port>, ghost loose: set<Port>)
      requires PortsOk(S(), mem, {})
      modifies `active, `ports, `nextSerial
      ensures S() == old(S()).(active := active, ports := ports, nextSerial := nextSerial)
      ensures |extra| == if UsesRtp(t.plugin) then 2 else 0
      ensures port.pool == t.pool && port.client == tuple.client && port.number == tuple.port
      ensures forall k | 0 <= k < |extra| ::
        && extra[k].pool == t.pool && extra[k].client == tuple.client
        && extra[k].number == if k == 0 then tuple.rtp0 else tuple.rtp1
      ensures PortsOk(S(), mem, loose) && NoDup(extra + [port]) && PortSet(extra + [port]) == loose
    {
      hide PortsOk, PortSet, NoDup;
      port := NewPort(t.pool, tuple.client, tuple.port, {});
      extra := [];
      if UsesRtp(t.plugin) {
        assert {} + {port} == {port};
        var p0 := NewPort(t.pool, tuple.client, tuple.rtp0, {port});
        var p1 := NewPort(t.pool, tuple.client, tuple.rtp1, {port} + {p0});
        extra := [p0, p1];
        loose := {port} + {p0} + {p1};
        ThreePorts(port, p0, p1);
      } else {
        loose := {port};
        assert {} + {port} == {port};
        OnePort(port);
      }
    }

    /** A flow that is to learn its translation is put in the table, under its short id. */
    method Associate(n: Node, a: Addr)
      requires n.FlowPkt? && (n.learn.First? ==> ShortFid(n.flowId) !in lookup)
      modifies `lookup, `natAdd, `associated
      ensures S() == Associated(old(S()), a, n)
    {
      if n.learn.First? {
        natAdd := natAdd + 1;
        lookup := lookup[ShortFid(n.flowId) := a];
        associated := associated + {n.flowId};
      }
    }

    ghost method RecordBirth(n: Node, a: Addr, loose: set<Port>)
      requires n.FlowPkt?
      modifies `ports, `life, `played
      ensures S() == Recorded(old(S()), loose, a, n)
    {
      ports := ports.(holder := ports.holder + HeldBy(loose, a));
      life := life[n.flowId := Life(n.tmpl, n.time, 0, 0, Some(a))];
      played := played[n.flowId := []];
    }

    method CountFlow(n: Node, a: Addr)
      requires n.FlowPkt? && n.tmpl < |ts|
      modifies `queue, `openFlows, `nextId
      ensures S() == Opened(W(), old(S()), a, n)
    {
      queue := queue + {a};
      nextId := nextId + 1;
      openFlows := openFlows + ts[n.tmpl].totalFlows;
    }

    /** The node of a new flow is allocated, put in the books and queued. */
    method EnterFlow(n: Node, ghost loose: set<Port>) returns (a: Addr)
      requires n.FlowPkt? && n.tmpl < |ts| && n.flowId == nextId && n.idx == 0
      requires n.learn.First? ==> ShortFid(nextId) !in lookup
      modifies `mem, `queue, `lookup, `natAdd, `associated, `nextId, `openFlows, `ports, `life, `played
      ensures a !in old(mem) && S() == Born(W(), old(S()), loose, a, n)
    {
      hide ShortFid, Node.Ports, HeldBy, Associated, Recorded, Opened;
      a := CreateNode(n);
      Associate(n, a);
      RecordBirth(n, a, loose);
      CountFlow(n, a);
    }

    /** Template `i` starts flow `nextId` now. In learn mode a two-way flow is put in the table; if its
        short id is still taken there, the program's own check stops it and `ok` is false. */
    method GenerateFlow(i: nat, ghost pass: Pass) returns (ok: bool, ghost a: Addr)
      requires Ready(W(), S()) && i < |ts| && !draining && (ts[i].limitSet ==> ts[i].limit > 0)
      modifies `mem, `queue, `lookup, `natAdd, `associated, `nextId, `openFlows, `active, `nextSerial, `ports,
        `life, `played
      ensures !ok <==> learnMode && ts[i].TwoWay() && ShortFid(old(nextId)) in old(lookup)
      ensures !ok ==> Collision() && nextId == old(nextId)
      ensures ok ==> Ready(W(), S()) && staff == old(staff) && Drivers(mem) == old(Drivers(mem))
      ensures ok ==>
        && a !in old(mem) && a in mem && mem == old(mem)[a := mem[a]] && queue == old(queue) + {a}
        && NewFlow(mem[a], ts[i], i, old(nextId), curTime, learnMode, env.tuple(old(nextId)))
        && lookup == (if mem[a].learn.First? then old(lookup)[ShortFid(old(nextId)) := a] else old(lookup))
        && associated == (if mem[a].learn.First? then old(associated) + {old(nextId)} else old(associated))
        && openFlows == old(openFlows) + ts[i].totalFlows
        && played == old(played)[old(nextId) := []]
      ensures ok ==> nextId == old(nextId) + 1
      ensures ok ==> Births(life) == old(Births(life))[old(nextId) := Birth(i, curTime)]
    {
      hide Ready, TotalWork, Drivers, Births, PortsOk, Shape, PortSet, NoDup, ShortFid;
      a := 0;
      ReadyParts(W(), S());
      FirstPacket(ts, i);
      var port, extra, loose := NewPorts(ts[i], env.tuple(nextId));
      var learn := if learnMode && ts[i].packets[0].biDir then First else Plain;
      if learn.First? && ShortFid(nextId) in lookup {
        ok := false;
        ShortIdTaken(W(), old(S()));
        return;
      }
      ok := true;
      ghost var s := S();
      var n := FlowPkt(curTime, nextId, i, 0, learn, port, extra);
      a := EnterFlow(n, loose);
      FreshFlowReady(W(), pass, old(S()), s, loose, a, n);
    }

    /** Node `n` is at the first packet of flow `f` of template `t`, which has its ports; in learn mode a
        two-way flow is to be tagged. */
    ghost predicate NewFlow(n: Node, t: Template, tmpl: nat, f: FlowId, now: real, learnMode: bool, tuple: Tuple) {
      && n.FlowPkt? && n.time == now && n.flowId == f && n.tmpl == tmpl && n.idx == 0
      && n.learn == (if learnMode && t.TwoWay() then First else Plain)
      && n.port.pool == t.pool && n.port.client == tuple.client && n.port.number == tuple.port
      && |n.extra| == (if UsesRtp(t.plugin) then 2 else 0)
      && (forall k | 0 <= k < |n.extra| :: n.extra[k].pool == t.pool && n.extra[k].client == tuple.client
           && n.extra[k].number == if k == 0 then tuple.rtp0 else tuple.rtp1)
    }

    // ----- sending -----

    /** What was sent is what the flows have played, in order of time. */
    ghost predicate Wired()
      reads `wire, `mem, `played
    {
      WireOk(wire, Flows(mem), Drivers(mem), played)
    }

    /** The packet of flow node `a` goes out. */
    method FlushOneNodeToFile(a: Addr)
      requires a in mem && mem[a].FlowPkt?
      modifies `wire
      ensures wire == old(wire) + [PacketOf(mem[a])]
    {
      wire := wire + [PacketOf(mem[a])];
    }

    // ----- pacing -----

    /** The meters are in step with the grants recorded, and were never asked after `lastTick`. */
    ghost predicate MetersOk()
      reads `starts, `lastTick, meters
    {
      && |meters| == |ts| == |starts|
      && (forall i, j | 0 <= i < j < |meters| :: meters[i] != meters[j])
      && (forall i | 0 <= i < |meters| :: MeterOk(i))
    }

    ghost predicate MeterOk(i: nat)
      requires i < |meters| == |ts| == |starts|
      reads `starts, `lastTick, meters[i]
    {
      && meters[i].Valid() && meters[i].initial == FreshMeter(ts[i].cir)
      && meters[i].admitted == starts[i]
      && Clock(meters[i].requests)
      && forall k | 0 <= k < |meters[i].requests| :: meters[i].requests[k] <= lastTick
    }

    ghost predicate Paced(pending: Option<nat>)
      reads `life, `nextId, `flowsOf, `starts, `flowcnt, `lastTick, meters
    {
      PaceOk(ts, Births(life), nextId, flowsOf, starts, flowcnt, pending) && MetersOk()
    }

    /** The meters, the counters and the turn of the templates. */
    ghost function P(): Pacer
      reads `flowcnt, `curTemplate, meters
    {
      Pacer(Views(meters), flowcnt, curTemplate)
    }

    /** One request to the meter of template `i`; the other meters are not touched. */
    method AskMeter(i: nat) returns (granted: bool)
      requires i < |meters| && meters[i].Valid() && forall j, k | 0 <= j < k < |meters| :: meters[j] != meters[k]
      modifies meters[i]
      ensures meters[i].Valid() && meters[i].initial == old(meters[i].initial)
      ensures meters[i].requests == old(meters[i].requests) + [curTime]
      ensures meters[i].admitted == if granted then old(meters[i].admitted) + [curTime] else old(meters[i].admitted)
      ensures
        var (m, ok) := old(Views(meters))[i].Updated(1.0, curTime);
        granted == ok && Views(meters) == old(Views(meters))[i := m]
    {
      hide Run, Meter.Updated;
      granted := meters[i].Update(curTime);
      assert Views(meters) == old(Views(meters))[i := meters[i].View()];
    }

    /** The current template, which is not spent, asks its meter for one flow start. */
    method TryTemplate() returns (granted: bool)
      requires Paced(None) && curTemplate < |ts| == |flowcnt| && !Spent(ts, flowcnt, curTemplate)
      requires 0.0 < curTime && lastTick <= curTime
      modifies meters, `starts, `flowcnt, `lastTick
      ensures lastTick == curTime && |starts| == |ts| == |flowcnt|
      ensures PacerOk(ts, old(P())) && (P(), granted) == Asked(ts, old(P()), curTime)
      ensures granted ==>
        && Paced(Some(curTemplate))
        && starts[curTemplate] != [] && starts[curTemplate][|starts[curTemplate]| - 1] == curTime
      ensures !granted ==> Paced(None)
    {
      hide PaceOk, Births, Run, Meter.Updated;
      PaceLengths(ts, Births(life), nextId, flowsOf, starts, flowcnt, None);
      var i := curTemplate;
      assert MeterOk(i);
      ClockGrows(meters[i].requests, lastTick, curTime);
      granted := AskMeter(i);
      lastTick := curTime;
      if granted {
        PaceGranted(ts, Births(life), nextId, flowsOf, starts, flowcnt, i, curTime);
        flowcnt := flowcnt[i := flowcnt[i] + 1];
        starts := starts[i := starts[i] + [curTime]];
      }
      forall j | 0 <= j < |meters|
        ensures MeterOk(j)
      {
        assert old(MeterOk(j));
      }
    }

    method IncCurrentTemplate()
      requires curTemplate < |ts|
      modifies `curTemplate
      ensures curTemplate == (old(curTemplate) + 1) % |ts|
      ensures old(P()).cur < |ts| && P() == old(P()).(cur := Around(old(P()).cur, 1, |ts|))
    {
      AroundIs(curTemplate, 1, |ts|);
      curTemplate := curTemplate + 1;
      if curTemplate == |ts| {
        curTemplate := 0;
      }
    }

    /** The first template in turn that is not spent and whose meter grants starts a flow. */
    method PickTemplate() returns (done: bool, found: bool, cur: nat)
      requires Paced(None) && curTemplate < |ts| == |flowcnt|
      requires 0.0 < curTime && lastTick <= curTime
      modifies meters, `starts, `flowcnt, `lastTick, `curTemplate
      ensures lastTick <= curTime && curTemplate < |ts| == |starts| == |flowcnt| && P().cur == curTemplate
      ensures PacerOk(ts, old(P()))
      ensures Picked(P(), done, if found then Some(cur) else None) == Pick(ts, old(P()), curTime, |ts|)
      ensures found ==> cur < |ts| && Paced(Some(cur)) && starts[cur] != [] && starts[cur][|starts[cur]| - 1] == curTime
      ensures !found ==> Paced(None)
    {
      hide PaceOk, Births, MeterOk, Asked, Spent;
      PaceLengths(ts, Births(life), nextId, flowsOf, starts, flowcnt, None);
      done, found, cur := true, false, 0;
      var i := 0;
      while i < |ts|
        invariant 0 <= i <= |ts| && |flowcnt| == |starts| == |ts| && lastTick <= curTime && curTemplate < |ts|
        invariant !found && Paced(None)
        invariant
          var r := Pick(ts, P(), curTime, |ts| - i);
          Pick(ts, old(P()), curTime, |ts|) == r.(done := done && r.done)
      {
        cur := curTemplate;
        if !Spent(ts, flowcnt, cur) {
          done := false;
          var granted := TryTemplate();
          if granted {
            found := true;
            return;
          }
          PaceLengths(ts, Births(life), nextId, flowsOf, starts, flowcnt, None);
        }
        IncCurrentTemplate();
        i := i + 1;
      }
    }

    /** The first packet of a new flow is due after all packets sent so far. */
    method EnterWired(cur: nat, ghost pass: Pass) returns (ok: bool)
      requires Ready(W(), S()) && cur < |ts| && !draining && (ts[cur].limitSet ==> ts[cur].limit > 0)
      requires Wired() && (wire != [] ==> wire[|wire| - 1].time <= curTime)
      modifies `mem, `queue, `lookup, `natAdd, `associated, `nextId, `openFlows, `active, `nextSerial, `ports,
        `life, `played
      ensures !ok ==> Collision() && nextId == old(nextId)
      ensures ok ==> Ready(W(), S()) && staff == old(staff) && Drivers(mem) == old(Drivers(mem)) && old(queue) <= queue
      ensures ok ==> Births(life) == old(Births(life))[old(nextId) := Birth(cur, curTime)] && nextId == old(nextId) + 1
      ensures ok ==> Wired()
    {
      hide Ready, Births, Drivers, ShortFid, Collision, WireOk, Flows;
      IdUnused(W(), S());
      ghost var a;
      ok, a := GenerateFlow(cur, pass);
      if ok {
        FlowChange(old(mem), a, mem[a]);
        WireBorn(wire, old(Flows(mem)), Drivers(mem), old(played), a, mem[a]);
      }
    }

    /** The template whose meter granted starts a flow. */
    method StartFlow(cur: nat, ghost pass: Pass) returns (ok: bool)
      requires Ready(W(), S()) && cur < |ts| && Paced(Some(cur))
      requires starts[cur] != [] && starts[cur][|starts[cur]| - 1] == curTime
      requires !draining && Wired() && (wire != [] ==> wire[|wire| - 1].time <= curTime)
      modifies `flowsOf,
        `mem, `queue, `lookup, `natAdd, `associated, `nextId, `openFlows, `active, `nextSerial, `ports, `life, `played
      ensures !ok ==> Collision() && nextId == old(nextId)
      ensures ok ==> Ready(W(), S()) && staff == old(staff) && Drivers(mem) == old(Drivers(mem)) && old(queue) <= queue
      ensures ok ==> Paced(None) && |ts| == |flowcnt| && Wired()
      ensures ok ==> Births(life) == old(Births(life))[old(nextId) := Birth(cur, curTime)] && nextId == old(nextId) + 1
    {
      hide Ready, PaceOk, Births, MetersOk, Drivers, Collision, Wired;
      PendingMayStart(ts, Births(life), nextId, flowsOf, starts, flowcnt, cur);
      ok := EnterWired(cur, pass);
      if ok {
        PaceStarted(ts, old(Births(life)), old(nextId), flowsOf, starts, flowcnt, cur, Birth(cur, curTime));
        PaceLengths(ts, old(Births(life)), old(nextId), flowsOf, starts, flowcnt, Some(cur));
        flowsOf := flowsOf[cur := flowsOf[cur] + [old(nextId)]];
      }
    }

    /** One chance to start a flow. */
    method GenerateFlowsRoundrobin(ghost pass: Pass) returns (done: bool, ok: bool)
      requires Ready(W(), S()) && Paced(None) && curTemplate < |ts| == |flowcnt|
      requires 0.0 < curTime && lastTick <= curTime && !draining
      requires Wired() && (wire != [] ==> wire[|wire| - 1].time <= curTime)
      modifies meters, `starts, `flowcnt, `lastTick, `curTemplate, `flowsOf,
        `mem, `queue, `lookup, `natAdd, `associated, `nextId, `openFlows, `active, `nextSerial, `ports, `life, `played
      ensures !ok ==> Collision() && nextId == old(nextId)
      ensures ok ==> Ready(W(), S()) && staff == old(staff) && Drivers(mem) == old(Drivers(mem)) && old(queue) <= queue
      ensures ok ==> Paced(None) && curTemplate < |ts| == |flowcnt| && lastTick <= curTime && Wired()
      ensures PacerOk(ts, old(P())) && (done <==> AllSpent(ts, old(P()).flowcnt))
      ensures ok ==>
        var r := Turn(ts, old(P()), curTime);
        && P() == r.pacer && done == r.done
        && Births(life) == BirthsAfter(old(Births(life)), old(nextId), r.found, curTime)
        && nextId == NextIdAfter(old(nextId), r.found)
      ensures done ==> S() == old(S())
    {
      hide Ready, PaceOk, Births, MetersOk, Drivers, ShortFid, Pick, P, AllSpent, Turn, Around, Spent, WireOk, Flows;
      ghost var p := P();
      var found, cur;
      done, found, cur := PickTemplate();
      DoneMeansSpent(ts, p, curTime);
      TurnOf(ts, p, curTime);
      ok := true;
      if found {
        ok := StartFlow(cur, pass);
        if ok {
          IncCurrentTemplate();
        }
      } else {
        PaceLengths(ts, Births(life), nextId, flowsOf, starts, flowcnt, None);
      }
    }

    // ----- one event -----

    /** The pass the thread is in. */
    ghost predicate InPass(pass: Pass)
      reads `draining, `stop
    {
      pass.draining == draining && (!draining ==> pass.until == stop)
    }

    /** The packet of plain flow `a` is due. When draining, packets of repeating flows are not sent
        any more, and no flow is repeated. */
    method HandleFlowPkt(a: Addr, always: bool, ghost pass: Pass)
      requires Ready(W(), S()) && a in queue && a in mem && mem[a].FlowPkt? && !mem[a].Waiting()
      requires InPass(pass) && pass.draining == always && (!always ==> mem[a].time <= pass.until)
      modifies `mem, `queue, `tcpDpc, `udpDpc, `active, `ports, `clockReads, `closedFlows, `life, `played, `wire
      ensures Ready(W(), S()) && Undisturbed(old(S()), S())
      ensures TotalWork(ts, pass, mem) < old(TotalWork(ts, pass, mem))
      ensures old(mem)[a].tmpl < |ts| && old(mem)[a].idx < ts[old(mem)[a].tmpl].Size()
      ensures
        var n, t := old(mem)[a], ts[old(mem)[a].tmpl];
        && wire == (if !t.limitSet || !always then old(wire) + [PacketOf(n)] else old(wire))
        && played == Logged(old(played), n.flowId, PlayedBy(n, !t.limitSet || !always, always))
        && (if !t.packets[n.idx].last then mem == old(mem)[a := NextPacket(ts, n)]
            else if t.limitSet && !always then mem == old(mem)[a := NextRound(ts, n)]
            else a !in mem && Flows(mem) == old(Flows(mem)) - {a} && closedFlows == old(closedFlows) + t.totalFlows)
    {
      hide Ready, TotalWork, Undisturbed, TemplatesOk, Node.Waiting, Flows, Births, Drivers;
      PlainFlow(W(), S(), a);
      var t := ts[mem[a].tmpl];
      ghost var sent := !t.limitSet || !always;
      if !t.limitSet || !always {
        FlushOneNodeToFile(a);
      }
      if t.packets[mem[a].idx].last {
        if t.limitSet && !always {
          RescheduleFlow(a, sent, pass);
        } else {
          FinishFlow(a, sent, pass);
        }
      } else {
        UpdateNextPktInFlow(a, sent, pass);
      }
    }

    /** The tagged packet of flow `a` goes out. */
    method TagFlow(a: Addr, ghost pass: Pass)
      requires Ready(W(), S()) && a in queue && a in mem && mem[a].FlowPkt? && mem[a].learn.First?
      modifies `mem, `tagged
      ensures Ready(W(), S()) && Undisturbed(old(S()), S())
      ensures TotalWork(ts, pass, mem) == old(TotalWork(ts, pass, mem))
      ensures mem == old(mem)[a := old(mem)[a].(learn := Wait)] && tagged == old(tagged) + {old(mem)[a].flowId}
    {
      hide Ready, TotalWork, Undisturbed, TemplatesOk;
      TagReady(W(), pass, S(), a);
      mem := mem[a := mem[a].(learn := Wait)];
      tagged := tagged + {mem[a].flowId};
    }

    /** A packet of flow `a`, whose translation is not known yet, is due. The first one is tagged;
        more initiator packets may follow; at a responder packet the flow is given up. The last packet
        is never reached this way. */
    method HandleNatPkt(a: Addr, ghost pass: Pass)
      requires Ready(W(), S()) && a in queue && a in mem && mem[a].FlowPkt? && mem[a].Waiting()
      requires InPass(pass) && (!draining ==> mem[a].time <= pass.until)
      modifies `mem, `queue, `tcpDpc, `udpDpc, `active, `ports, `clockReads, `closedFlows, `life, `played,
        `lookup, `natRemove, `natTimeout, `tagged, `wire
      ensures Ready(W(), S()) && Undisturbed(old(S()), S())
      ensures TotalWork(ts, pass, mem) < old(TotalWork(ts, pass, mem))
      ensures old(mem)[a].tmpl < |ts| && old(mem)[a].idx < ts[old(mem)[a].tmpl].Size()
      ensures
        var n, p := old(mem)[a], ts[old(mem)[a].tmpl].packets[old(mem)[a].idx];
        var n' := n.(learn := Wait);
        if n.learn.First? || p.init then
          && mem == old(mem)[a := NextPacket(ts, n')]
          && wire == old(wire) + [PacketOf(n')]
          && played == Logged(old(played), n.flowId, PlayedBy(n', true, draining))
          && tagged == (if n.learn.First? then old(tagged) + {n.flowId} else old(tagged))
        else
          && a !in mem && Flows(mem) == old(Flows(mem)) - {a}
          && wire == old(wire) && played == old(played) && tagged == old(tagged)
          && lookup == old(lookup) - {ShortFid(n.flowId)} && natTimeout == old(natTimeout) + 1
          && closedFlows == old(closedFlows) + ts[n.tmpl].totalFlows
    {
      hide Ready, TotalWork, Undisturbed, TemplatesOk, Flows, Births, Drivers, Logged, PlayedBy, PacketOf, ShortFid,
        Node.Waiting;
      WaitingFlow(W(), S(), a);
      ghost var s := S();
      if mem[a].learn.First? {
        TagFlow(a, pass);
      } else {
        assert mem[a].learn.Wait?;
        if !ts[mem[a].tmpl].packets[mem[a].idx].init {
          TerminateNatFlows(a, pass);
          return;
        }
        SameState(S());
      }
      ghost var s' := S();
      NatGoesOn(a, pass);
      UndisturbedTwice(s, s', S());
    }

    /** A packet of waiting flow `a` goes out, and the flow moves on to its next packet. */
    method NatGoesOn(a: Addr, ghost pass: Pass)
      requires Ready(W(), S()) && a in queue && a in mem && mem[a].FlowPkt? && mem[a].learn.Wait?
      requires mem[a].tmpl < |ts| && mem[a].idx < ts[mem[a].tmpl].Size() && ts[mem[a].tmpl].packets[mem[a].idx].init
      requires !draining ==> mem[a].time <= stop
      modifies `mem, `life, `played, `wire
      ensures Ready(W(), S()) && Undisturbed(old(S()), S())
      ensures TotalWork(ts, pass, mem) < old(TotalWork(ts, pass, mem))
      ensures mem == old(mem)[a := NextPacket(ts, old(mem)[a])]
      ensures wire == old(wire) + [PacketOf(old(mem)[a])]
      ensures played == Logged(old(played), old(mem)[a].flowId, PlayedBy(old(mem)[a], true, draining))
    {
      hide Ready, TotalWork, Undisturbed, TemplatesOk, PacketOf, Logged, PlayedBy, NextPacket;
      WaitingFlow(W(), S(), a);
      FlushOneNodeToFile(a);
      if ts[mem[a].tmpl].packets[mem[a].idx].last {
        assert false;
      } else {
        UpdateNextPktInFlow(a, true, pass);
      }
    }

    // ----- the driving nodes -----

    /** The flows started are those the chances so far grant, and the next chance comes on time. */
    ghost predicate OnPlan()
      reads `flowcnt, `curTemplate, `life, `nextId, `traffic, `mem, `staff, `draining, `stop, meters
    {
      PlanOk(ts, P(), Births(life), nextId, traffic, Drivers(mem), staff, draining, stop)
    }

    /** Between two events of a pass. */
    ghost predicate Running(pass: Pass)
      reads this, meters
    {
      && Ready(W(), S()) && Paced(None) && OnPlan() && Wired()
      && DriversOk(Drivers(mem), staff, lastTick, pass)
      && curTemplate < |ts| == |flowcnt|
      && (learnMode ==> Faithful(env))
    }

    /** During a pass the queue is never empty and holds the sync node. */
    lemma RunningMeans(pass: Pass)
      requires Running(pass)
      ensures TemplatesOk(ts) && queue != {} && queue <= mem.Keys
      ensures staff.sync.Some? && staff.sync.value in queue && mem[staff.sync.value].Sync?
    {
      hide Ready, PaceOk, MetersOk, Births, Drivers, DriversOk, Faithful, PlanOk, P, TemplatesOk, WireOk, Flows;
      QueueOfPass(W(), S(), lastTick, pass);
    }

    /** What the earliest node can be. */
    lemma EventMeans(pass: Pass, a: Addr)
      requires Running(pass) && queue <= mem.Keys && Earliest(mem, queue, a)
      ensures !pass.draining ==> mem[a].time <= pass.until
      ensures mem[a].Sync? ==> staff.sync == Some(a) && mem[a].time == SyncTime(Drivers(mem), staff)
      ensures mem[a].Sync? && !pass.draining ==> queue != {a}
      ensures mem[a].Exit? ==> !pass.draining
    {
      hide Ready, PaceOk, MetersOk, Births, Drivers, DriversOk, Faithful, PlanOk, P, SyncTime, WireOk, Flows;
      EarliestDue(W(), S(), lastTick, pass, a);
    }

    /** A driving node is taken off the queue and freed. */
    method RemoveDriver(a: Addr, ghost pass: Pass)
      requires Ready(W(), S()) && a in queue && a in mem && Driving(mem[a])
      modifies `mem, `queue, `staff
      ensures Ready(W(), S())
      ensures mem == old(mem) - {a} && queue == old(queue) - {a} && staff == StaffWithout(old(staff), a)
      ensures Drivers(mem) == old(Drivers(mem)) - {a} && Flows(mem) == old(Flows(mem))
      ensures TotalWork(ts, pass, mem) == old(TotalWork(ts, pass, mem)) - Work(ts, pass, old(mem)[a])
    {
      hide Ready, TotalWork, Work, TemplatesOk, StaffWithout, Drivers, Flows;
      DriverGone(W(), pass, S(), a);
      NonFlowChange(mem, a, mem[a]);
      DriversSet(mem, a, mem[a]);
      queue := queue - {a};
      staff := StaffWithout(staff, a);
      FreeNode(a);
    }

    /** The flow-start node or the sync node is due again at time `t`. */
    method MoveDriver(a: Addr, n: Node, ghost pass: Pass)
      requires Ready(W(), S()) && a in queue && a in mem
      requires (mem[a].Tick? && n.Tick?) || (mem[a].Sync? && n.Sync?)
      modifies `mem
      ensures Ready(W(), S()) && mem == old(mem)[a := n]
      ensures Drivers(mem) == old(Drivers(mem))[a := n] && Flows(mem) == old(Flows(mem))
      ensures TotalWork(ts, pass, mem) == old(TotalWork(ts, pass, mem))
    {
      hide Ready, TotalWork, TemplatesOk, Drivers, Flows;
      NonFlowChange(mem, a, n);
      DriverMoved(W(), pass, S(), a, n);
      DriversSet(mem, a, n);
      mem := mem[a := n];
    }

    method AddDriver(n: Node) returns (a: Addr)
      requires Ready(W(), S())
      requires (n.Tick? && staff.tick == None) || (n.Sync? && staff.sync == None) || (n.Exit? && staff.exit == None)
      modifies `mem, `queue, `staff
      ensures a !in old(mem) && mem == old(mem)[a := n] && queue == old(queue) + {a}
      ensures Ready(W(), S()) && staff == StaffWith(old(staff), a, n)
      ensures Drivers(mem) == old(Drivers(mem))[a := n] && Flows(mem) == old(Flows(mem))
    {
      hide Ready, StaffWith, Drivers, Flows;
      a := CreateNode(n);
      NonFlowChange(old(mem), a, n);
      DriverAdded(W(), old(S()), a, n);
      DriversSet(old(mem), a, n);
      queue := queue + {a};
      staff := StaffWith(staff, a, n);
    }

    ghost function Ticks(pass: Pass, d: real): real
      requires d > 0.0
      reads this
    {
      TicksLeft(Drivers(mem), staff, pass, d)
    }

    /** The flow-start node is not needed any more. */
    method EndTicks(a: Addr, ghost pass: Pass)
      requires Ready(W(), S()) && Paced(None) && curTemplate < |ts| == |flowcnt| && (learnMode ==> Faithful(env))
      requires a in queue && a in mem && mem[a].Tick?
      requires PlanOk(ts, P(), Births(life), nextId, traffic,
                      Drivers(mem) - {a}, StaffWithout(staff, a), draining, stop)
      requires Wired()
      requires DriversOk(Drivers(mem) - {a}, StaffWithout(staff, a), lastTick, pass)
      modifies `mem, `queue, `staff
      ensures Running(pass)
      ensures mem == old(mem) - {a} && queue == old(queue) - {a}
      ensures Drivers(mem) == old(Drivers(mem)) - {a} && staff == StaffWithout(old(staff), a)
      ensures TotalWork(ts, pass, mem) == old(TotalWork(ts, pass, mem)) - Work(ts, pass, old(mem)[a])
    {
      hide Ready, TotalWork, Drivers, PaceOk, MetersOk, Births, Faithful, DriversOk, StaffWithout, Work, TemplatesOk,
        PlanOk, P, WireOk, Flows;
      RemoveDriver(a, pass);
      WireShift(wire, Flows(mem), old(Drivers(mem)), played, Flows(mem), Drivers(mem));
    }

    /** The flow-start node is due again at time `t`. */
    method NextTick(a: Addr, t: real, ghost pass: Pass)
      requires Ready(W(), S()) && Paced(None) && curTemplate < |ts| == |flowcnt| && (learnMode ==> Faithful(env))
      requires a in queue && a in mem && mem[a].Tick?
      requires PlanOk(ts, P(), Births(life), nextId, traffic, Drivers(mem)[a := Tick(t)], staff, draining, stop)
      requires Wired() && mem[a].time <= t && a in Drivers(mem) && Drivers(mem)[a] == mem[a]
      requires DriversOk(Drivers(mem)[a := Tick(t)], staff, lastTick, pass)
      modifies `mem
      ensures Running(pass)
      ensures mem == old(mem)[a := Tick(t)] && Drivers(mem) == old(Drivers(mem))[a := Tick(t)]
      ensures TotalWork(ts, pass, mem) == old(TotalWork(ts, pass, mem))
    {
      hide Ready, TotalWork, Drivers, PaceOk, MetersOk, Births, Faithful, DriversOk, Work, TemplatesOk, PlanOk, P,
        WireOk, Flows;
      MoveDriver(a, Tick(t), pass);
      WireShift(wire, Flows(mem), old(Drivers(mem)), played, Flows(mem), Drivers(mem));
    }

    /** The thread drains: the flow-start node is not needed any more. */
    method DropTick(a: Addr, d: real, ghost pass: Pass)
      requires Running(pass) && a in queue && a in mem && mem[a].Tick? && d > 0.0 && pass.draining && draining
      modifies `staff, `mem, `queue
      ensures Running(pass) && SyncTime(Drivers(mem), staff) == old(SyncTime(Drivers(mem), staff))
      ensures Progressed(old(Ticks(pass, d)), old(TotalWork(ts, pass, mem)), Ticks(pass, d), TotalWork(ts, pass, mem))
      ensures mem == old(mem) - {a} && queue == old(queue) - {a}
    {
      hide Ready, TotalWork, Drivers, PaceOk, MetersOk, Births, Faithful, DriversOk, TicksLeft, SyncTime,
        StaffWithout, Work, TemplatesOk, PlanOk, P, WireOk, Flows;
      DriverReady(W(), S(), a);
      TickGone(Drivers(mem), staff, pass, d, a, lastTick, lastTick);
      PlanDropped(ts, P(), Births(life), nextId, traffic, Drivers(mem), staff, stop, a);
      TickWork(ts, pass, mem[a]);
      EndTicks(a, pass);
    }

    /** It is time to start flows; when draining, no more are started. */
    method HandleTick(a: Addr, always: bool, d: real, ghost pass: Pass) returns (ok: bool)
      requires Running(pass) && a in queue && a in mem && mem[a].Tick? && d > 0.0 && traffic.step == d
      requires InPass(pass) && pass.draining == always && (!always ==> mem[a].time <= pass.until)
      modifies meters, `starts, `flowcnt, `lastTick, `curTemplate, `flowsOf, `curTime, `staff, `traffic,
        `mem, `queue, `lookup, `natAdd, `associated, `nextId, `openFlows, `active, `nextSerial, `ports, `life, `played
      ensures !ok ==> Stuck()
      ensures ok ==> Running(pass) && SyncTime(Drivers(mem), staff) == old(SyncTime(Drivers(mem), staff))
      ensures ok ==>
        Progressed(old(Ticks(pass, d)), old(TotalWork(ts, pass, mem)), Ticks(pass, d), TotalWork(ts, pass, mem))
      ensures SamePlan(old(traffic), old(stop)) && PacerOk(ts, old(P()))
      ensures ok && always ==> mem == old(mem) - {a} && queue == old(queue) - {a}
      ensures ok && !always ==>
        ChanceTaken(a, old(mem)[a].time, d, old(P()), old(Births(life)), old(nextId), old(traffic))
    {
      hide Ready, TotalWork, Drivers, PaceOk, MetersOk, Births, Faithful, ShortFid, DriversOk, TicksLeft, SyncTime,
        StaffWithout, TemplatesOk, Progressed, Work, PlanOk, ChanceTaken, Views, WireOk, Flows;
      PlanPacer(ts, P(), Births(life), nextId, traffic, Drivers(mem), staff, draining, stop);
      ok := true;
      if always {
        DropTick(a, d, pass);
      } else {
        ok := StartFlows(a, d, pass);
      }
    }

    /** The chance at time `now` was taken as it should be, and the next one comes `d` seconds later,
        unless every template has reached its limit. */
    ghost predicate ChanceTaken(a: Addr, now: real, d: real, p: Pacer, births: map<FlowId, Birth>, id: FlowId,
                                tr: Traffic)
      requires PacerOk(ts, p)
      reads this, meters
    {
      var r := Turn(ts, p, now);
      && P() == r.pacer && traffic == tr.(ticks := tr.ticks + 1)
      && Births(life) == BirthsAfter(births, id, r.found, now) && nextId == NextIdAfter(id, r.found)
      && (if AllSpent(ts, p.flowcnt) then a !in mem && a !in queue
        else a in mem && mem[a] == Tick(now + d) && a in queue)
    }

    /** Flows are started as the meters allow; the next start is `d` seconds later, unless every
        template has reached its limit. */
    method StartFlows(a: Addr, d: real, ghost pass: Pass) returns (ok: bool)
      requires Running(pass) && a in queue && a in mem && mem[a].Tick? && d > 0.0 && traffic.step == d
      requires InPass(pass) && !draining && mem[a].time <= pass.until
      modifies meters, `starts, `flowcnt, `lastTick, `curTemplate, `flowsOf, `curTime, `staff, `traffic,
        `mem, `queue, `lookup, `natAdd, `associated, `nextId, `openFlows, `active, `nextSerial, `ports, `life, `played
      ensures !ok ==> Stuck()
      ensures ok ==> Running(pass) && SyncTime(Drivers(mem), staff) == old(SyncTime(Drivers(mem), staff))
      ensures ok ==>
        Progressed(old(Ticks(pass, d)), old(TotalWork(ts, pass, mem)), Ticks(pass, d), TotalWork(ts, pass, mem))
      ensures SamePlan(old(traffic), old(stop)) && PacerOk(ts, old(P()))
      ensures ok ==> ChanceTaken(a, old(mem)[a].time, d, old(P()), old(Births(life)), old(nextId), old(traffic))
    {
      hide Ready, TotalWork, Drivers, PaceOk, MetersOk, Births, Faithful, ShortFid, DriversOk, TicksLeft, SyncTime,
        StaffWithout, TemplatesOk, Progressed, Work, PlanOk, P, Views, WireOk, Flows, AllSpent, Turn, BirthsAfter,
        NextIdAfter, TickAt, Collision, Paced;
      ReadyTemplates(W(), S());
      DriverReady(W(), S(), a);
      TickIsLater(Drivers(mem), staff, lastTick, pass, a);
      PlanTick(ts, P(), Births(life), nextId, traffic, Drivers(mem), staff, stop, a);
      WireTick(wire, Flows(mem), Drivers(mem), played, a);
      ghost var last := lastTick;
      var done;
      done, ok := TakeChance(a, pass);
      if !ok {
        return;
      }
      NextChance(a, done, d, last, pass);
      TicksProgress(old(Ticks(pass, d)), Ticks(pass, d), old(TotalWork(ts, pass, mem)), TotalWork(ts, pass, mem));
    }

    /** The flow-start node goes, or is due again `d` seconds later. */
    method NextChance(a: Addr, done: bool, d: real, ghost last: real, ghost pass: Pass)
      requires Ready(W(), S()) && Paced(None) && Wired() && curTemplate < |ts| == |flowcnt|
      requires learnMode ==> Faithful(env)
      requires a in queue && a in mem && mem[a].Tick? && d > 0.0 && lastTick <= mem[a].time
      requires DriversOk(Drivers(mem), staff, last, pass) && staff.tick == Some(a)
      requires a in Drivers(mem) && Drivers(mem)[a] == mem[a] && !pass.draining && mem[a].time <= pass.until
      requires
        var drv, st := Drivers(mem)[a := Tick(mem[a].time + d)], staff;
        if done
        then PlanOk(ts, P(), Births(life), nextId, traffic, Drivers(mem) - {a}, StaffWithout(st, a), draining, stop)
        else PlanOk(ts, P(), Births(life), nextId, traffic, drv, st, draining, stop)
      modifies `staff, `mem, `queue
      ensures Running(pass) && SyncTime(Drivers(mem), staff) == old(SyncTime(Drivers(mem), staff))
      ensures Ticks(pass, d) <= old(Ticks(pass, d)) - 1.0
      ensures if done then a !in mem && a !in queue else a in mem && mem[a] == Tick(old(mem)[a].time + d) && a in queue
    {
      hide Ready, TotalWork, Drivers, Paced, Births, Faithful, DriversOk, TicksLeft, SyncTime, StaffWithout,
        TemplatesOk, Work, PlanOk, P, WireOk, Flows, Running;
      ReadyTemplates(W(), S());
      if done {
        TickGone(Drivers(mem), staff, pass, d, a, last, lastTick);
        EndTicks(a, pass);
      } else {
        TickMoved(Drivers(mem), staff, pass, d, a, last, lastTick);
        NextTick(a, mem[a].time + d, pass);
      }
    }

    /** The clock moves to the chance's time, and the chance is taken. */
    method TakeChance(a: Addr, ghost pass: Pass) returns (done: bool, ok: bool)
      requires Ready(W(), S()) && Paced(None) && Wired() && curTemplate < |ts| == |flowcnt| && !draining
      requires a in queue && a in mem && mem[a].Tick? && 0.0 < mem[a].time && lastTick <= mem[a].time
      requires wire != [] ==> wire[|wire| - 1].time <= mem[a].time
      modifies meters, `starts, `flowcnt, `lastTick, `curTemplate, `flowsOf, `curTime, `traffic,
        `mem, `queue, `lookup, `natAdd, `associated, `nextId, `openFlows, `active, `nextSerial, `ports, `life, `played
      ensures !ok ==> Collision() && nextId == old(nextId) && traffic == old(traffic)
      ensures ok ==> Ready(W(), S()) && Paced(None) && curTemplate < |ts| == |flowcnt| && Wired()
      ensures ok ==> Drivers(mem) == old(Drivers(mem)) && staff == old(staff)
      ensures ok ==> a in queue && a in mem && mem[a] == old(mem)[a] && lastTick <= mem[a].time
      ensures PacerOk(ts, old(P())) && (done <==> AllSpent(ts, old(P()).flowcnt))
      ensures ok ==>
        var r := Turn(ts, old(P()), old(mem)[a].time);
        && P() == r.pacer && done == r.done && traffic == old(traffic).(ticks := old(traffic).ticks + 1)
        && Births(life) == BirthsAfter(old(Births(life)), old(nextId), r.found, old(mem)[a].time)
        && nextId == NextIdAfter(old(nextId), r.found)
    {
      hide Ready, Drivers, PaceOk, MetersOk, Births, ShortFid, TemplatesOk, P, AllSpent, Turn, BirthsAfter, NextIdAfter,
        Collision, WireOk, Flows;
      curTime := mem[a].time;
      done, ok := GenerateFlowsRoundrobin(pass);
      if ok {
        traffic := traffic.(ticks := traffic.ticks + 1);
        StillQueued(old(mem), mem, a);
      }
    }

    /** The sync node is due again a millisecond later. */
    method NextSync(a: Addr, d: real, ghost pass: Pass)
      requires Running(pass) && a in queue && a in mem && mem[a].Sync? && d > 0.0
      modifies `mem
      ensures Running(pass) && Ticks(pass, d) == old(Ticks(pass, d))
      ensures SyncTime(Drivers(mem), staff) == old(SyncTime(Drivers(mem), staff)) + SYNC_TIME_OUT
      ensures TotalWork(ts, pass, mem) == old(TotalWork(ts, pass, mem))
      ensures mem == old(mem)[a := mem[a]]
    {
      hide Ready, TotalWork, Drivers, PaceOk, MetersOk, Births, Faithful, DriversOk, TicksLeft, SyncTime,
        TemplatesOk, Work, PlanOk, P, Views, WireOk, Flows;
      DriverReady(W(), S(), a);
      PlanElse(ts, P(), Births(life), nextId, traffic, Drivers(mem), staff, draining, stop, a,
               Sync(mem[a].time + SYNC_TIME_OUT));
      SyncMoved(Drivers(mem), staff, pass, d, a, lastTick);
      MoveDriver(a, Sync(mem[a].time + SYNC_TIME_OUT), pass);
      WireShift(wire, Flows(mem), old(Drivers(mem)), played, Flows(mem), Drivers(mem));
    }

    /** Reports are taken in during a pass. */
    method TakeReports(now: real, ghost pass: Pass)
      requires Running(pass)
      modifies `mem, `lookup, `natRemove, `natNoFlow, `syncs, `curTime
      ensures Running(pass) && Drivers(mem) == old(Drivers(mem)) && SameTimes(old(mem), mem)
      ensures TotalWork(ts, pass, mem) == old(TotalWork(ts, pass, mem))
      ensures curTime == now && S() == Heard(old(S()), env.rx(old(syncs), old(tagged), old(associated)))
    {
      hide Ready, TotalWork, Drivers, PaceOk, MetersOk, Births, Faithful, DriversOk, TemplatesOk, PlanOk, P, Views,
        WireOk, Flows, Heard;
      curTime := now;
      CheckMsgs(pass);
      SameFlowTimes(old(mem), mem);
      WireShift(wire, old(Flows(mem)), Drivers(mem), played, Flows(mem), Drivers(mem));
    }

    /** A millisecond has passed: reports are taken in. The run ends when nothing else is queued. */
    method HandleSync(a: Addr, d: real, ghost pass: Pass) returns (exit: bool)
      requires Running(pass) && a in queue && a in mem && mem[a].Sync? && d > 0.0
      modifies `mem, `queue, `lookup, `natRemove, `natNoFlow, `syncs, `curTime, `staff
      ensures exit <==> old(queue) == {a}
      ensures !exit ==> Running(pass) && queue == old(queue) && staff == old(staff)
      ensures !exit ==> SyncTime(Drivers(mem), staff) == old(SyncTime(Drivers(mem), staff)) + SYNC_TIME_OUT
      ensures !exit ==>
        Ticks(pass, d) == old(Ticks(pass, d)) && TotalWork(ts, pass, mem) == old(TotalWork(ts, pass, mem))
      ensures !exit ==> mem.Keys == old(mem).Keys && forall b | b in mem && b != a :: mem[b].time == old(mem)[b].time
      ensures exit ==> Ready(W(), S()) && Paced(None) && OnPlan() && Wired() && queue == {}
      ensures curTime == old(mem)[a].time
      ensures S().books == Heard(old(S()), env.rx(old(syncs), old(tagged), old(associated))).books
    {
      hide Ready, TotalWork, Drivers, PaceOk, MetersOk, Births, Faithful, DriversOk, TicksLeft, SyncTime,
        StaffWithout, TemplatesOk, Work, PlanOk, P, Views, WireOk, Flows, Heard, Paced;
      DriverReady(W(), S(), a);
      TakeReports(mem[a].time, pass);
      StillQueued(old(mem), mem, a);
      exit := queue - {a} == {};
      if exit {
        EndSync(a, pass);
      } else {
        NextSync(a, d, pass);
      }
    }

    /** The sync node is the last one and is taken away. */
    method EndSync(a: Addr, ghost pass: Pass)
      requires Running(pass) && queue == {a} && a in mem && mem[a].Sync?
      modifies `mem, `queue, `staff
      ensures Ready(W(), S()) && Paced(None) && OnPlan() && Wired() && queue == {}
    {
      hide Ready, TotalWork, Drivers, PaceOk, MetersOk, Births, Faithful, DriversOk, StaffWithout, TemplatesOk, Work,
        PlanOk, P, WireOk, Flows;
      DriverReady(W(), S(), a);
      PlanElse(ts, P(), Births(life), nextId, traffic, Drivers(mem), staff, draining, stop, a, mem[a]);
      RemoveDriver(a, pass);
      WireShift(wire, Flows(mem), old(Drivers(mem)), played, Flows(mem), Drivers(mem));
    }

    /** The first pass is over: only the exit node is taken away. All other nodes are due later. */
    method HandleExit(a: Addr, ghost pass: Pass)
      requires Running(pass) && InPass(pass) && !pass.draining
      requires queue <= mem.Keys && Earliest(mem, queue, a) && mem[a].Exit?
      modifies `mem, `queue, `staff, `draining
      ensures Running(Pass(true, pass.until)) && draining
      ensures mem == old(mem) - {a} && queue == old(queue) - {a} && old(mem)[a] == Exit(stop)
    {
      hide Ready, TotalWork, Drivers, PaceOk, MetersOk, Births, Faithful, DriversOk, StaffWithout, TemplatesOk, Work,
        PlanOk, P, Views, WireOk, Flows, Paced;
      DriverReady(W(), S(), a);
      ExitGone(Drivers(mem), staff, pass, a, lastTick);
      PlanDrains(W(), S(), P(), traffic, lastTick, pass, a);
      RemoveDriver(a, pass);
      WireShift(wire, Flows(mem), old(Drivers(mem)), played, Flows(mem), Drivers(mem));
      DrainReady(W(), S());
      draining := true;
    }

    /** Any event but a sync and the end of the pass. */
    method HandleNode(a: Addr, always: bool, d: real, ghost pass: Pass) returns (ok: bool)
      requires Running(pass) && InPass(pass) && d > 0.0 && pass.draining == always && traffic.step == d
      requires queue <= mem.Keys && Earliest(mem, queue, a) && !mem[a].Sync? && !mem[a].Exit?
      requires !always ==> mem[a].time <= pass.until
      modifies meters, `starts, `flowcnt, `lastTick, `curTemplate, `flowsOf, `curTime, `staff, `traffic,
        `mem, `queue, `lookup, `natAdd, `associated, `nextId, `openFlows, `active, `nextSerial, `ports, `life, `played,
        `tcpDpc, `udpDpc, `clockReads, `closedFlows, `natRemove, `natTimeout, `tagged, `wire
      ensures !ok ==> Stuck()
      ensures ok ==> Running(pass)
      ensures SamePlan(old(traffic), old(stop))
      ensures ok ==>
        Progressed(old(Ticks(pass, d)), old(TotalWork(ts, pass, mem)), Ticks(pass, d), TotalWork(ts, pass, mem))
    {
      hide Ready, TotalWork, Drivers, PaceOk, MetersOk, Births, Faithful, ShortFid, DriversOk, TicksLeft, SyncTime,
        Progressed, TemplatesOk, PlanOk, P, Views, WireOk, Flows, ChanceTaken, Logged;
      ReadyTemplates(W(), S());
      ok := true;
      if mem[a].Tick? {
        ok := HandleTick(a, always, d, pass);
        return;
      }
      match mem[a] {
        case DeferPort(_, _) =>
          HandleBatch(a, pass);
        case FlowPkt(_, _, _, _, _, _, _) =>
          if mem[a].Waiting() {
            PlayWaiting(a, pass);
          } else {
            PlayPlain(a, always, pass);
          }
      }
      WorkProgress(old(Ticks(pass, d)), old(TotalWork(ts, pass, mem)), TotalWork(ts, pass, mem));
    }

    /** A batch of ports has rested long enough. */
    method HandleBatch(a: Addr, ghost pass: Pass)
      requires Running(pass) && a in mem && mem[a].DeferPort?
      modifies `mem, `queue, `tcpDpc, `udpDpc, `active, `ports
      ensures Running(pass) && Drivers(mem) == old(Drivers(mem)) && staff == old(staff)
      ensures TotalWork(ts, pass, mem) < old(TotalWork(ts, pass, mem))
      ensures mem == old(mem) - {a} && ports.freed == old(ports.freed) + PortSet(old(mem)[a].ports)
    {
      hide Ready, TotalWork, Drivers, PaceOk, MetersOk, Births, Faithful, DriversOk, TemplatesOk, PlanOk, P, PortSet,
        WireOk, Flows;
      ReleaseBatch(a, pass);
    }

    /** The packet of a waiting flow, the earliest node, is due; if it goes out it follows all others. */
    method SendWaiting(a: Addr, ghost pass: Pass)
      requires Ready(W(), S()) && Wired() && a in queue && a in mem && mem[a].FlowPkt? && mem[a].Waiting()
      requires InPass(pass) && (!draining ==> mem[a].time <= pass.until)
      requires NotBefore(Flows(mem), Drivers(mem), mem[a].time) && a in Flows(mem) && mem[a].flowId in played
      requires Flows(mem)[a] == mem[a]
      modifies `mem, `queue, `tcpDpc, `udpDpc, `active, `ports, `clockReads, `closedFlows, `life, `played,
        `lookup, `natRemove, `natTimeout, `tagged, `wire
      ensures Ready(W(), S()) && Undisturbed(old(S()), S()) && Wired()
      ensures TotalWork(ts, pass, mem) < old(TotalWork(ts, pass, mem))
    {
      hide Ready, TotalWork, Drivers, Births, TemplatesOk, WireOk, Flows, Logged, ShortFid, NextPacket, NextRound,
        PlayedBy, PacketOf, NotBefore, GoesOn;
      WaitingFlow(W(), S(), a);
      ghost var n := mem[a].(learn := Wait);
      ghost var plays := mem[a].learn.First? || ts[mem[a].tmpl].packets[mem[a].idx].init;
      HandleNatPkt(a, pass);
      FlowGoesOn(W(), old(S()), mem, a);
      if plays {
        WirePlays(old(wire), old(Flows(mem)), Drivers(mem), old(played), a, n, true, draining, Flows(mem));
      } else {
        WireShift(wire, old(Flows(mem)), Drivers(mem), played, Flows(mem), Drivers(mem));
      }
    }

    /** The packet of another flow, the earliest node, is due; if it goes out it follows all others. */
    method SendPlain(a: Addr, always: bool, ghost pass: Pass)
      requires Ready(W(), S()) && Wired() && a in queue && a in mem && mem[a].FlowPkt? && !mem[a].Waiting()
      requires InPass(pass) && pass.draining == always && (!always ==> mem[a].time <= pass.until)
      requires NotBefore(Flows(mem), Drivers(mem), mem[a].time) && a in Flows(mem) && mem[a].flowId in played
      requires Flows(mem)[a] == mem[a]
      modifies `mem, `queue, `tcpDpc, `udpDpc, `active, `ports, `clockReads, `closedFlows, `life, `played, `wire
      ensures Ready(W(), S()) && Undisturbed(old(S()), S()) && Wired()
      ensures TotalWork(ts, pass, mem) < old(TotalWork(ts, pass, mem))
    {
      hide Ready, TotalWork, Drivers, Births, TemplatesOk, WireOk, Flows, Logged, NextPacket, NextRound,
        PlayedBy, PacketOf, NotBefore, GoesOn;
      HandleFlowPkt(a, always, pass);
      FlowGoesOn(W(), old(S()), mem, a);
      ghost var n := old(mem)[a];
      ghost var sent := !ts[n.tmpl].limitSet || !always;
      WirePlays(old(wire), old(Flows(mem)), Drivers(mem), old(played), a, n, sent, always, Flows(mem));
    }

    /** A packet of a flow that waits for its translation is due. */
    method PlayWaiting(a: Addr, ghost pass: Pass)
      requires Running(pass) && InPass(pass) && queue <= mem.Keys && Earliest(mem, queue, a)
      requires mem[a].FlowPkt? && mem[a].Waiting()
      requires !pass.draining ==> mem[a].time <= pass.until
      modifies `mem, `queue, `tcpDpc, `udpDpc, `active, `ports, `clockReads, `closedFlows, `life, `played,
        `lookup, `natRemove, `natTimeout, `tagged, `wire
      ensures Running(pass) && Drivers(mem) == old(Drivers(mem)) && staff == old(staff)
      ensures TotalWork(ts, pass, mem) < old(TotalWork(ts, pass, mem))
    {
      hide Ready, TotalWork, Drivers, PaceOk, MetersOk, Births, Faithful, DriversOk, TemplatesOk, PlanOk, P, WireOk,
        Flows, NotBefore, Wired, Node.Waiting;
      NothingEarlier(W(), S(), a);
      SendWaiting(a, pass);
    }

    /** A packet of another flow is due. */
    method PlayPlain(a: Addr, always: bool, ghost pass: Pass)
      requires Running(pass) && InPass(pass) && queue <= mem.Keys && Earliest(mem, queue, a)
      requires mem[a].FlowPkt? && !mem[a].Waiting()
      requires pass.draining == always && (!always ==> mem[a].time <= pass.until)
      modifies `mem, `queue, `tcpDpc, `udpDpc, `active, `ports, `clockReads, `closedFlows, `life, `played, `wire
      ensures Running(pass) && Drivers(mem) == old(Drivers(mem)) && staff == old(staff)
      ensures TotalWork(ts, pass, mem) < old(TotalWork(ts, pass, mem))
    {
      hide Ready, TotalWork, Drivers, PaceOk, MetersOk, Births, Faithful, DriversOk, TemplatesOk, PlanOk, P, WireOk,
        Flows, NotBefore, Wired, Node.Waiting;
      NothingEarlier(W(), S(), a);
      SendPlain(a, always, pass);
    }

    // ----- the event loop -----

    method Top() returns (a: Addr)
      requires queue != {} && queue <= mem.Keys
      ensures Earliest(mem, queue, a)
    {
      EarliestExists(mem, queue);
      a :| Earliest(mem, queue, a);
    }

    /** When the chances of a run come, and when its first pass ends, is fixed from the start. */
    ghost predicate SamePlan(tr: Traffic, end: real)
      reads `traffic, `stop
    {
      traffic == tr.(ticks := traffic.ticks) && stop == end
    }

    /** The whole pass: events in order of time, until the exit node is due or, when draining, until
        nothing but the sync node is left. */
    method RunPass(always: bool, d: real, ghost pass: Pass) returns (ok: bool)
      requires Running(pass) && InPass(pass) && d > 0.0 && pass.draining == always && traffic.step == d
      modifies this, meters
      ensures !ok ==> Stuck()
      ensures ok && !always ==> Running(Pass(true, pass.until))
      ensures ok && always ==> Ready(W(), S()) && Paced(None) && OnPlan() && Wired() && queue == {}
      ensures SamePlan(old(traffic), old(stop)) && (ok ==> draining)
    {
      hide Ready, TotalWork, Drivers, PaceOk, MetersOk, Births, Faithful, ShortFid, DriversOk, TicksLeft,
        TemplatesOk, SyncTime, HorizonOk, SomeHorizon, PlanOk, P, Views, WireOk, Flows, Heard, Running, S;
      var running := true;
      ok := true;
      RunningMeans(pass);
      ghost var horizon := SomeHorizon(mem, queue, staff.sync);
      while running
        invariant TemplatesOk(ts)
        invariant SamePlan(old(traffic), old(stop)) && (!running && ok ==> draining)
        invariant running ==> ok && Running(pass) && InPass(pass) && HorizonOk(mem, queue, staff.sync, horizon)
        invariant !running && !ok ==> Stuck()
        invariant !running && ok && !always ==> Running(Pass(true, pass.until))
        invariant !running && ok && always ==> Ready(W(), S()) && Paced(None) && OnPlan() && Wired() && queue == {}
        decreases running, Ticks(pass, d), TotalWork(ts, pass, mem), (horizon - SyncTime(Drivers(mem), staff)) * 1000.0
      {
        RunningMeans(pass);
        label event:
        var a := Top();
        EventMeans(pass, a);
        if mem[a].Sync? {
          HorizonAhead(mem, queue, a, horizon);
          var exit := HandleSync(a, d, pass);
          running := !exit;
          if running {
            HorizonKept(old@event(mem), mem, queue, a, horizon);
          }
        } else if mem[a].Exit? {
          HandleExit(a, pass);
          running := false;
        } else {
          ok := HandleNode(a, always, d, pass);
          running := ok;
          if running {
            RunningMeans(pass);
            horizon := SomeHorizon(mem, queue, staff.sync);
          }
        }
      }
    }

    /** The batch being filled with TCP or other ports, if there is one, is released. */
    method FlushSlot(isTcp: bool)
      requires Ready(W(), S()) && Paced(None) && OnPlan() && Wired() && queue == {}
      modifies `mem, `queue, `tcpDpc, `udpDpc, `active, `ports
      ensures Ready(W(), S()) && Paced(None) && OnPlan() && Wired() && queue == {}
      ensures if isTcp then tcpDpc == None else udpDpc == None && (old(tcpDpc) == None ==> tcpDpc == None)
    {
      hide Ready, TotalWork, Paced, Births, Drivers, TemplatesOk, PlanOk, P, Views, WireOk, Flows, PortSet;
      var slot := if isTcp then tcpDpc else udpDpc;
      if slot.Some? {
        SlotIsBatch(W(), S(), slot);
        ReleaseBatch(slot.value, Pass(true, 0.0));
      }
    }

    /** The batches still being filled are released. */
    method HandlerDeferJobFlush()
      requires Ready(W(), S()) && Paced(None) && OnPlan() && Wired() && queue == {}
      modifies `mem, `queue, `tcpDpc, `udpDpc, `active, `ports
      ensures Ready(W(), S()) && Paced(None) && OnPlan() && Wired() && mem == map[] && queue == {}
    {
      hide Ready, Paced, OnPlan, Wired;
      FlushSlot(true);
      FlushSlot(false);
      NothingLeft(W(), S());
    }

    /** One pass: up to time `maxTime`, or draining what is left. */
    method FlushFile(maxTime: real, d: real, always: bool) returns (ok: bool)
      requires Running(Pass(true, maxTime)) && d > 0.0 && traffic.step == d
      requires draining == always && (!always ==> maxTime > 0.0 && stop == maxTime)
      modifies this, meters
      ensures !ok ==> Stuck()
      ensures ok && !always ==> Running(Pass(true, maxTime))
      ensures ok && always ==> Ready(W(), S()) && Paced(None) && OnPlan() && Wired() && mem == map[] && queue == {}
      ensures SamePlan(old(traffic), old(stop)) && (ok ==> draining)
    {
      hide Ready, PaceOk, MetersOk, Births, Drivers, DriversOk, StaffWith, ShortFid, PlanOk, P, Views, WireOk, Flows;
      ghost var pass := Pass(always, maxTime);
      if maxTime > 0.0 && !always {
        ExitAbsent(Drivers(mem), staff, lastTick, maxTime);
        var a := AddDriver(Exit(maxTime));
        ExitAdded(old(mem), old(staff), lastTick, maxTime, a);
        PlanWithExit(W(), old(S()), P(), traffic, maxTime, a);
        WireShift(wire, Flows(mem), old(Drivers(mem)), played, Flows(mem), Drivers(mem));
      }
      ok := RunPass(always, d, pass);
      if ok && always {
        HandlerDeferJobFlush();
      }
    }

    // ----- a whole run -----

    /** Nothing is scheduled and nothing was ever started. */
    ghost predicate Fresh()
      reads this, meters
    {
      && 0 < |ts| && TemplatesOk(ts) && (learnMode ==> Faithful(env))
      && S() == EmptyState().(books := EmptyState().books.(stop := stop)) && Paced(None) && lastTick == 0.0
      && wire == []
    }

    method Reset(threadId: nat, start: real)
      requires Fresh()
      modifies `curTime, `curTemplate, `nextId
      ensures Ready(W(), S()) && Paced(None) && curTime == start && curTemplate < |ts| == |flowcnt|
      ensures nextId == 1 && P() == FirstPacer(ts, threadId) && PacerOk(ts, P())
    {
      hide Ready, PaceOk, MetersOk, Births, TemplatesOk, Faithful, Views;
      AllFresh(threadId);
      EmptyReady(W(), S().(books := S().books.(nextId := 1)));
      PaceLater(ts, Births(life), 0, 1, flowsOf, starts, flowcnt);
      PaceLengths(ts, Births(life), 1, flowsOf, starts, flowcnt, None);
      curTime := start;
      curTemplate := threadId % |ts|;
      nextId := 1;
    }

    /** No meter of a new thread was ever asked, and no template has started a flow. */
    lemma AllFresh(threadId: nat)
      requires Fresh()
      ensures Pacer(Views(meters), flowcnt, threadId % |ts|) == FirstPacer(ts, threadId)
      ensures PacerOk(ts, FirstPacer(ts, threadId))
    {
      forall i | 0 <= i < |ts|
        ensures Views(meters)[i] == FreshMeter(ts[i].cir) && |flowcnt| == |ts| && flowcnt[i] == 0
      {
        assert MeterOk(i);
        assert meters[i].requests == [];
        assert TemplatePaceOk(ts[i], i, Births(life), nextId, flowsOf[i], starts[i], flowcnt[i], false);
        assert flowsOf[i] == [];
      }
      assert Views(meters) == FirstPacer(ts, threadId).meters;
    }

    /** The plan of the run is fixed. */
    method Begin(threadId: nat, start: real, ghost until: real, ghost d: real)
      requires Fresh()
      modifies `curTime, `curTemplate, `nextId, `stop, `traffic
      ensures Ready(W(), S()) && Paced(None) && curTime == start && curTemplate < |ts| == |flowcnt|
      ensures mem == map[] && staff == Staff(None, None, None) && life == map[] && nextId == 1 && lastTick == 0.0
      ensures stop == until && !draining && PacerOk(ts, P()) && played == map[] && wire == []
      ensures traffic == Traffic(FirstPacer(ts, threadId), start, d, 0) && P() == traffic.origin
      ensures learnMode ==> Faithful(env)
    {
      hide Ready, PaceOk, MetersOk, Births, TemplatesOk, Faithful, P, FirstPacer;
      stop := until;
      Reset(threadId, start);
      traffic := Traffic(P(), start, d, 0);
    }

    /** The thread starts at `start`, with its first flow start and its first sync queued. */
    method Prepare(threadId: nat, start: real, ghost until: real, ghost d: real)
      requires Fresh() && start > 0.0 && start <= until
      modifies `curTime, `curTemplate, `nextId, `mem, `queue, `staff, `stop, `traffic
      ensures Running(Pass(true, until)) && stop == until && !draining
      ensures traffic == Traffic(FirstPacer(ts, threadId), start, d, 0)
    {
      hide Ready, PaceOk, MetersOk, Births, Drivers, DriversOk, StaffWith, TemplatesOk, Faithful, PlanOk, P,
        FirstPacer, Fresh, WireOk, Flows;
      Begin(threadId, start, until, d);
      ghost var a, b := AddFirst(curTime);
      BothAdded(map[], Staff(None, None, None), lastTick, start, until, a, b);
      PlanBegins(ts, P(), traffic, Staff(None, None, None), until, a, b);
      WireBegins(Flows(mem), Drivers(mem));
    }

    /** The first flow start and the first sync are queued. */
    method AddFirst(start: real) returns (ghost a: Addr, ghost b: Addr)
      requires Ready(W(), S()) && mem == map[] && staff == Staff(None, None, None)
      modifies `mem, `queue, `staff
      ensures Ready(W(), S()) && a != b
      ensures Drivers(mem) == Drivers(map[])[a := Tick(start)][b := Sync(start + SYNC_TIME_OUT)]
      ensures staff == StaffWith(StaffWith(old(staff), a, Tick(start)), b, Sync(start + SYNC_TIME_OUT))
    {
      hide Ready, Drivers, StaffWith;
      a := AddDriver(Tick(start));
      StaffTick(old(staff), a, start);
      b := AddDriver(Sync(start + SYNC_TIME_OUT));
    }

    /** A run with clean close: flows are started from `start` on for `duration` seconds, at one chance
        every `d` seconds, and then everything left is drained. Unless the program's own check on short
        flow ids stops it, exactly the flows were started that the chances grant, and every book is
        balanced at the end. */
    method StartGenerateStateful(threadId: nat, start: real, duration: real, d: real) returns (ok: bool)
      requires Fresh() && start > 0.0 && duration >= 0.0 && d > 0.0
      modifies this, meters
      ensures !ok ==> Stuck()
      ensures ok ==> Balanced(W(), S()) && Paced(None) && stop == start + duration
      ensures ok ==>
        && traffic == Traffic(FirstPacer(ts, threadId), start, d, traffic.ticks)
        && TrafficOk(ts, P(), Births(life), nextId, traffic)
        && |flowcnt| == |ts| && ChancesUsed(ts, flowcnt, traffic, stop)
      ensures ok ==> InOrder(wire) && Merged(wire, played)
      ensures duration < (NatReports.FID_SPACE - 1) as real * d ==> ok
    {
      hide Ready, PaceOk, MetersOk, Births, Drivers, DriversOk, ShortFid, Faithful, Balanced, PlanOk, Views, WireOk,
        Flows, TrafficOk, ChancesUsed, FirstPacer;
      var end := start + duration;
      Prepare(threadId, start, end, d);
      ok := FlushFile(end, d, false);
      if ok {
        SamePass(Drivers(mem), staff, lastTick, end, curTime);
        ok := FlushFile(curTime, d, true);
      }
      if ok {
        DrainedBalances(W(), S());
        PlanEnds(W(), S(), P(), traffic);
        WireEnds(wire, Flows(mem), Drivers(mem), played);
      } else {
        IdsTakeTime(start, d, traffic.ticks, duration);
      }
    }

    /** In every run, the flow starts of each template obey its rate: between any two of them there are
        at most a bucketful plus what the rate earns over the time between. */
    lemma FlowStartsObeyRate(i: nat, j: nat, k: nat)
      requires Paced(None) && i < |ts| && i < |flowsOf| && j <= k < |flowsOf[i]| && 0.0 <= ts[i].cir
      ensures flowsOf[i][j] in life && flowsOf[i][k] in life
      ensures life[flowsOf[i][j]].tmpl == i && life[flowsOf[i][k]].tmpl == i
      ensures (k - j + 1) as real
           <= Allowance(FreshMeter(ts[i].cir), j, life[flowsOf[i][j]].start, life[flowsOf[i][k]].start)
    {
      hide Run, Allowance, Policer.View;
      assert MeterOk(i);
      assert TemplatePaceOk(ts[i], i, Births(life), nextId, flowsOf[i], starts[i], flowcnt[i], false);
      AdmissionsInWindow(FreshMeter(ts[i].cir), meters[i].requests, j, k);
    }
  }

  /** Meters for the templates, each with its own rate. */
  method NewMeters(ts: seq<Template>) returns (meters: seq<Policer>)
    requires TemplatesOk(ts)
    ensures |meters| == |ts| && forall i, j | 0 <= i < j < |meters| :: meters[i] != meters[j]
    ensures forall i | 0 <= i < |meters| :: fresh(meters[i]) && Unasked(meters[i], ts[i])
  {
    meters := [];
    for k := 0 to |ts|
      invariant |meters| == k && forall i, j | 0 <= i < j < k :: meters[i] != meters[j]
      invariant forall i | 0 <= i < k :: fresh(meters[i]) && Unasked(meters[i], ts[i])
    {
      assert ts[k].Valid();
      var m := new Policer(ts[k].cir);
      meters := meters + [m];
    }
  }

  /** A thread is made and run. Without learn mode, or if the run is shorter than it takes to use up the short
      flow ids, it ends with everything balanced and every packet sent in order of time. */
  method PlayTemplates(env: Env, ts: seq<Template>, learnMode: bool, aging: (bool, nat) -> nat,
                       threadId: nat, start: real, duration: real, d: real) returns (t: FlowGenThread, ok: bool)
    requires 0 < |ts| && TemplatesOk(ts) && (learnMode ==> Faithful(env))
    requires start > 0.0 && duration >= 0.0 && d > 0.0
    ensures fresh(t) && t.ts == ts && t.env == env && t.learnMode == learnMode
    ensures !learnMode || duration < (NatReports.FID_SPACE - 1) as real * d ==> ok
    ensures ok ==> Balanced(t.W(), t.S()) && t.stop == start + duration
    ensures ok ==> InOrder(t.wire) && Merged(t.wire, t.played)
    ensures ok && 0.0 < duration && (ts[threadId % |ts|].limitSet ==> ts[threadId % |ts|].limit > 0) ==>
      1 in Births(t.life) && Births(t.life)[1] == Birth(threadId % |ts|, start)
  {
    hide Balanced, InOrder, Merged, TrafficOk, ChancesUsed, FirstPacer, Births, Faithful, PaceOk, Unasked,
      FlowGenThread.Fresh, FlowGenThread.MetersOk;
    var meters := NewMeters(ts);
    t := new FlowGenThread(env, ts, learnMode, aging, meters);
    ok := t.StartGenerateStateful(threadId, start, duration, d);
    if ok && 0.0 < duration && (ts[threadId % |ts|].limitSet ==> ts[threadId % |ts|].limit > 0) {
      StartsAtOnce(ts, threadId, t.P(), Births(t.life), t.nextId, t.traffic, t.stop);
    }
  }

  ghost function EmptyState(): State {
    State(map[], {}, None, None, Books(map[], {}, {}, map[], map[], 0, 0, 0, false, 0.0), 0, 0,
          PortBooks(map[], {}, {}), 0, 0, Staff(None, None, None))
  }

  /** Port `p` is the last one in batch `b`: the one being filled for its protocol, or a new one. With the
      sixteenth port the batch is queued to be released at time `due` and its place is empty; otherwise it
      goes on being filled. The batch of the other protocol stays as it is. */
  ghost predicate RestsIn(s: State, s': State, isTcp: bool, p: Port, b: Addr, due: real) {
    var before, after := if isTcp then s.tcpDpc else s.udpDpc, if isTcp then s'.tcpDpc else s'.udpDpc;
    && OtherSlot(s, s', isTcp)
    && (if before.Some? then b == before.value && b in s.mem && s.mem[b].DeferPort? else b !in s.mem)
    && b in s'.mem && s'.mem[b].DeferPort?
    && s'.mem[b].ports == (if b in s.mem then s.mem[b].ports else []) + [p]
    && (if |s'.mem[b].ports| == DEFER_CLIENTS_NUM then
          after == None && s'.queue == s.queue + {b} && s'.mem[b].time == due
        else after == Some(b) && s'.queue == s.queue)
  }

  ghost predicate OtherSlot(s: State, s': State, isTcp: bool) {
    if isTcp then s'.udpDpc == s.udpDpc else s'.tcpDpc == s.tcpDpc
  }

  /** Port `p` is freed at once if it need not age; otherwise it rests in a batch of its protocol, which is
      released that long after it is full. */
  ghost predicate GivenBack(s: State, s': State, isTcp: bool, p: Port, age: nat, now: real) {
    if age == 0 then
      s' == s.(active := s'.active, ports := s.ports.(freed := s.ports.freed + {p}))
    else
      && p in s'.ports.holder && s'.ports == s.ports.(holder := s.ports.holder[p := s'.ports.holder[p]])
      && RestsIn(s, s', isTcp, p, s'.ports.holder[p], now + age as real)
  }

  /** The end of a run with clean close: every pool node and every client port has been given back,
      the table is empty, every flow that was opened is closed, and every flow played its template's
      packets on schedule, up to its last packet, or up to its first responder packet if its
      translation never came. */
  ghost predicate Balanced(w: World, s: State) {
    && s.mem == map[] && s.queue == {} && s.tcpDpc == None && s.udpDpc == None
    && s.ports.holder == map[] && s.ports.freed == s.ports.issued && s.active == 0
    && s.books.lookup == map[] && s.natAdd == s.natRemove
    && s.books.openFlows == s.books.closedFlows
    && s.books.life.Keys == s.books.played.Keys
    && (forall f | f in s.books.life ::
         && Completed(w.ts, s.books.life[f], s.books.played[f], s.books.stop)
         && (GivenUp(w.ts[s.books.life[f].tmpl], s.books.life[f]) ==> w.learnMode && f in s.books.associated))
    && Translated(w, s.books) && TwoWayAssociated(w, s.books.life, s.books.associated)
  }

  ghost predicate Completed(ts: seq<Template>, l: Life, ps: seq<Played>, stop: real) {
    && l.home == None && l.tmpl < |ts| && l.at <= ts[l.tmpl].Size() && 0 < ts[l.tmpl].Size()
    && Times(ps) == ts[l.tmpl].Schedule(l.start, l.rounds, l.at) && Finished(ts[l.tmpl], l.at)
    && PassesOk(ts[l.tmpl], l, ps, true, stop)
  }

  /** A completed flow that does not repeat played and sent every packet of its template once, in order
      and on time, up to its last packet or to where it was given up. */
  lemma PlaysOnce(ts: seq<Template>, l: Life, ps: seq<Played>, stop: real)
    requires Completed(ts, l, ps, stop) && !ts[l.tmpl].limitSet
    ensures |ps| == l.at && (!GivenUp(ts[l.tmpl], l) ==> |ps| == ts[l.tmpl].Size())
    ensures forall k | 0 <= k < |ps| :: ps[k].index == k && ps[k].time == ts[l.tmpl].Due(l.start, 0, k) && ps[k].sent
  {
    hide Finished;
    ts[l.tmpl].ScheduleLength(l.start, l.rounds, l.at);
    forall k | 0 <= k < |ps|
      ensures ps[k].index == k && ps[k].time == ts[l.tmpl].Due(l.start, 0, k) && ps[k].sent
    {
      PlayedAt(ts, l, ps, stop, 0, k);
      assert PassOk(ts[l.tmpl], ps[k], stop);
    }
  }

  /** Packet `i` of round `round` of a completed flow. */
  lemma PlayedAt(ts: seq<Template>, l: Life, ps: seq<Played>, stop: real, round: nat, i: nat)
    requires Completed(ts, l, ps, stop) && i < ts[l.tmpl].Size()
    requires round < l.rounds || (round == l.rounds && i < l.at)
    ensures Rounds(ts[l.tmpl], round) + i < |ps|
    ensures ps[Rounds(ts[l.tmpl], round) + i].index == i
    ensures ps[Rounds(ts[l.tmpl], round) + i].time == ts[l.tmpl].Due(l.start, round, i)
  {
    hide Finished, PassesOk, Template.Schedule, Template.Due;
    ts[l.tmpl].ScheduleAt(l.start, l.rounds, l.at, round, i);
    assert Times(ps)[Rounds(ts[l.tmpl], round) + i] == Emission(i, ts[l.tmpl].Due(l.start, round, i));
  }

  /** A completed flow that repeats does so until the first pass ends: the last packet of its last round
      is due at the end or later, that of the round before is not due later than the end. Every packet
      due before the end is sent, none due after it is, but for flows that still wait. */
  lemma RepeatsUntilStop(ts: seq<Template>, l: Life, ps: seq<Played>, stop: real)
    requires Completed(ts, l, ps, stop) && ts[l.tmpl].limitSet && !GivenUp(ts[l.tmpl], l)
    ensures stop <= ts[l.tmpl].Due(l.start, l.rounds, ts[l.tmpl].Size() - 1)
    ensures l.rounds > 0 ==> ts[l.tmpl].Due(l.start, l.rounds - 1, ts[l.tmpl].Size() - 1) <= stop
    ensures |ps| == Rounds(ts[l.tmpl], l.rounds + 1)
    ensures forall k | 0 <= k < |ps| :: ps[k].time < stop ==> ps[k].sent
    ensures forall k | 0 <= k < |ps| :: stop < ps[k].time && !ps[k].learn.Wait? ==> !ps[k].sent
  {
    hide Finished, Template.Schedule, Template.Due;
    var t, n := ts[l.tmpl], ts[l.tmpl].Size();
    t.ScheduleLength(l.start, l.rounds, l.at);
    PlayedAt(ts, l, ps, stop, l.rounds, n - 1);
    assert PassOk(t, ps[|ps| - 1], stop);
    if l.rounds > 0 {
      PlayedAt(ts, l, ps, stop, l.rounds - 1, n - 1);
      assert Rounds(t, l.rounds) == Rounds(t, l.rounds - 1) + n;
      assert PassOk(t, ps[Rounds(t, l.rounds - 1) + n - 1], stop);
    }
    forall k | 0 <= k < |ps|
      ensures ps[k].time < stop ==> ps[k].sent
      ensures stop < ps[k].time && !ps[k].learn.Wait? ==> !ps[k].sent
    {
      assert PassOk(t, ps[k], stop);
    }
  }

  /** With no flow left, every flow is completed and the table is empty. */
  lemma DrainedFlows(w: World, b: Books)
    requires BooksOk(w, map[], b)
    ensures b.lookup == map[] && b.openFlows == b.closedFlows && b.life.Keys == b.played.Keys
    ensures Translated(w, b) && TwoWayAssociated(w, b.life, b.associated)
    ensures forall f | f in b.life ::
      && Completed(w.ts, b.life[f], b.played[f], b.stop)
      && (GivenUp(w.ts[b.life[f].tmpl], b.life[f]) ==> w.learnMode && f in b.associated)
  {
    hide Template.Schedule, Times, Translated, PassOk, Finished, LearningOk;
    assert FlowWeights(w.ts, map[]) == map[];
    forall f | f in b.life
      ensures Completed(w.ts, b.life[f], b.played[f], b.stop)
      ensures GivenUp(w.ts[b.life[f].tmpl], b.life[f]) ==> w.learnMode && f in b.associated
    {
      assert LifeOk(w.ts, b.life[f], b.played[f]);
      assert w.ts[b.life[f].tmpl].Valid();
      assert PassesOk(w.ts[b.life[f].tmpl], b.life[f], b.played[f], b.draining, b.stop);
    }
  }

  /** With no node left, every book is balanced. */
  lemma DrainedBalances(w: World, s: State)
    requires Ready(w, s) && s.mem == map[] && s.queue == {}
    ensures Balanced(w, s)
  {
    hide BooksOk, StaffOk, TemplatesOk, Completed, Translated;
    assert Flows(s.mem) == map[];
    DrainedFlows(w, s.books);
    NoHolders(s.mem, s.ports.holder);
  }

  lemma NoHolders(live: Memory, holder: map<Port, Addr>)
    requires live == map[] && forall a, p :: Holds(live, a, p) <==> p in holder && holder[p] == a
    ensures holder == map[]
  {
    assert forall p | p in holder :: Holds(live, holder[p], p);
    assert holder.Keys == {};
  }

  lemma EmptyReady(w: World, s: State)
    requires TemplatesOk(w.ts) && s == EmptyState().(books := EmptyState().books.(nextId := 1, stop := s.books.stop))
    ensures Ready(w, s)
  {
    assert Flows(s.mem) == map[];
    assert FlowWeights(w.ts, Flows(s.mem)) == map[];
  }

  lemma PaceLater(ts: seq<Template>, births: map<FlowId, Birth>, n: FlowId, n': FlowId,
                  flowsOf: seq<seq<FlowId>>, starts: seq<seq<real>>, flowcnt: seq<nat>)
    requires PaceOk(ts, births, n, flowsOf, starts, flowcnt, None) && n <= n'
    ensures PaceOk(ts, births, n', flowsOf, starts, flowcnt, None)
  {
    forall i | 0 <= i < |ts|
      ensures TemplatePaceOk(ts[i], i, births, n', flowsOf[i], starts[i], flowcnt[i], false)
    {
      assert TemplatePaceOk(ts[i], i, births, n, flowsOf[i], starts[i], flowcnt[i], false);
    }
  }

  lemma StaffTick(st: Staff, a: Addr, t: real)
    requires st.sync == None
    ensures StaffWith(st, a, Tick(t)).sync == None
  {
  }

  lemma BothAdded(mem: Memory, st: Staff, lastTick: real, t: real, until: real, a: Addr, b: Addr)
    requires mem == map[] && st == Staff(None, None, None) && lastTick == 0.0 < t && a != b
    ensures
      var drv := Drivers(mem)[a := Tick(t)][b := Sync(t + SYNC_TIME_OUT)];
      DriversOk(drv, StaffWith(StaffWith(st, a, Tick(t)), b, Sync(t + SYNC_TIME_OUT)), lastTick, Pass(true, until))
  {
  }

  lemma SamePass(drv: Memory, st: Staff, lastTick: real, until: real, until': real)
    requires DriversOk(drv, st, lastTick, Pass(true, until))
    ensures DriversOk(drv, st, lastTick, Pass(true, until'))
  {
  }

  lemma SlotIsBatch(w: World, s: State, slot: Option<Addr>)
    requires Ready(w, s) && slot.Some? && (slot == s.tcpDpc || slot == s.udpDpc)
    ensures slot.value in s.mem && s.mem[slot.value].DeferPort? && slot.value !in s.queue
  {
    hide PortsOk, BooksOk, Counted, TemplatesOk, StaffOk;
  }

  lemma NothingLeft(w: World, s: State)
    requires Ready(w, s) && s.queue == {} && s.tcpDpc == None && s.udpDpc == None
    ensures s.mem == map[]
  {
    hide PortsOk, BooksOk, Counted, TemplatesOk, StaffOk;
    assert s.mem.Keys == {};
  }

  lemma ExitAbsent(drv: Memory, st: Staff, lastTick: real, until: real)
    requires DriversOk(drv, st, lastTick, Pass(true, until))
    ensures st.exit == None
  {
  }

  lemma ExitAdded(mem: Memory, st: Staff, lastTick: real, until: real, a: Addr)
    requires DriversOk(Drivers(mem), st, lastTick, Pass(true, until)) && a !in mem
    ensures DriversOk(Drivers(mem)[a := Exit(until)], StaffWith(st, a, Exit(until)), lastTick, Pass(false, until))
  {
    hide Drivers;
    DriversInMemory(mem);
  }

  lemma DriversInMemory(mem: Memory)
    ensures forall a | a in Drivers(mem) :: a in mem
  {
  }

  // ----- what is due when -----

  /** The earliest node is due before all flows and flow starts. */
  lemma NothingEarlier(w: World, s: State, a: Addr)
    requires Ready(w, s) && s.queue <= s.mem.Keys && Earliest(s.mem, s.queue, a) && s.mem[a].FlowPkt?
    ensures NotBefore(Flows(s.mem), Drivers(s.mem), s.mem[a].time)
    ensures a in Flows(s.mem) && Flows(s.mem)[a] == s.mem[a] && s.mem[a].flowId in s.books.played
  {
    hide PortsOk, Counted, Owned, StaffOk, BooksOk, TemplatesOk;
    FlowAt(w, s, a);
    KnownFlow(w, Flows(s.mem), s.books, a);
    forall b | b in s.mem && !s.mem[b].DeferPort?
      ensures s.mem[a].time <= s.mem[b].time
    {
      FlowsQueued(s, b);
    }
  }

  /** What playing a packet makes of the flows' nodes. */
  lemma FlowGoesOn(w: World, s: State, mem': Memory, a: Addr)
    requires Ready(w, s) && a in s.mem && s.mem[a].FlowPkt?
    requires s.mem[a].tmpl < |w.ts| && s.mem[a].idx < w.ts[s.mem[a].tmpl].Size()
    requires
      var n := s.mem[a];
      || mem' == s.mem[a := NextPacket(w.ts, n)] || mem' == s.mem[a := NextPacket(w.ts, n.(learn := Wait))]
      || (w.ts[n.tmpl].limitSet && mem' == s.mem[a := NextRound(w.ts, n)]) || Flows(mem') == Flows(s.mem) - {a}
    ensures a in Flows(s.mem) && GoesOn(Flows(s.mem), Flows(mem'), a)
  {
    hide Shape, PortsOk, BooksOk, Counted, FlowOk, TemplatesOk;
    FlowAt(w, s, a);
    FlowOkMeans(w.ts, s.mem[a]);
    GapPositive(w.ts, s.mem[a]);
  }

  lemma SameFlowTimes(mem: Memory, mem': Memory)
    requires SameTimes(mem, mem')
    ensures forall a | a in Flows(mem') :: a in Flows(mem) && Flows(mem)[a].time == Flows(mem')[a].time
  {
  }

  lemma WireTick(wire: seq<Sent>, fl: Memory, drv: Memory, played: map<FlowId, seq<Played>>, a: Addr)
    requires WireOk(wire, fl, drv, played) && a in drv && drv[a].Tick?
    ensures wire != [] ==> wire[|wire| - 1].time <= drv[a].time
  {
  }

  /** The next flow's id is new. */
  lemma IdUnused(w: World, s: State)
    requires Ready(w, s)
    ensures s.books.nextId !in s.books.played
  {
    hide Shape, PortsOk, Counted, LookupExact, LearningOk, Translated, Passes, TemplatesOk, Flows;
  }

  // ----- the plan of a run -----

  /** The templates of a new thread: each meter full of time and empty of tokens, no flow started. */
  ghost function FirstPacer(ts: seq<Template>, threadId: nat): Pacer {
    var meters := seq(|ts|, i requires 0 <= i < |ts| => FreshMeter(ts[i].cir));
    Pacer(meters, seq(|ts|, _ => 0), if ts == [] then 0 else threadId % |ts|)
  }

  /** The next chance comes on time. After the last one, every template is spent or the first pass is
      over. */
  ghost predicate ChancesOk(ts: seq<Template>, flowcnt: seq<nat>, tr: Traffic, drv: Memory, st: Staff, draining: bool,
                            stop: real)
    requires |ts| == |flowcnt|
  {
    if st.tick.Some? then
      && (tr.ticks > 0 ==> TickAt(tr.first, tr.step, tr.ticks - 1) <= stop)
      && st.tick.value in drv && drv[st.tick.value].time == TickAt(tr.first, tr.step, tr.ticks)
      && (draining ==> stop <= drv[st.tick.value].time)
    else ChancesUsed(ts, flowcnt, tr, stop)
  }

  ghost predicate PlanOk(ts: seq<Template>, p: Pacer, births: map<FlowId, Birth>, nextId: FlowId, tr: Traffic,
                         drv: Memory, st: Staff, draining: bool, stop: real)
  {
    PacerOk(ts, p) && TrafficOk(ts, p, births, nextId, tr) && ChancesOk(ts, p.flowcnt, tr, drv, st, draining, stop)
  }

  lemma PlanPacer(ts: seq<Template>, p: Pacer, births: map<FlowId, Birth>, nextId: FlowId, tr: Traffic,
                  drv: Memory, st: Staff, draining: bool, stop: real)
    requires PlanOk(ts, p, births, nextId, tr, drv, st, draining, stop)
    ensures PacerOk(ts, p)
  {
  }

  lemma PlanTick(ts: seq<Template>, p: Pacer, births: map<FlowId, Birth>, nextId: FlowId, tr: Traffic,
                 drv: Memory, st: Staff, stop: real, a: Addr)
    requires PlanOk(ts, p, births, nextId, tr, drv, st, false, stop)
    requires st.tick == Some(a) && a in drv && drv[a].time <= stop
    ensures PacerOk(ts, p) && nextId <= tr.ticks + 1 && TickAt(tr.first, tr.step, tr.ticks) <= stop
    ensures
      var now := drv[a].time;
      var r := Turn(ts, p, now);
      var births', nextId' := BirthsAfter(births, nextId, r.found, now), NextIdAfter(nextId, r.found);
      var tr' := tr.(ticks := tr.ticks + 1);
      && (!r.done ==> PlanOk(ts, r.pacer, births', nextId', tr', drv[a := Tick(now + tr.step)], st, false, stop))
      && (r.done ==> PlanOk(ts, r.pacer, births', nextId', tr', drv - {a}, StaffWithout(st, a), false, stop))
  {
    hide TrafficOk, Pick;
    TrafficGrows(ts, p, births, nextId, tr, drv[a].time);
    IdsBounded(ts, p, births, nextId, tr);
    DoneMeansSpent(ts, p, drv[a].time);
  }

  lemma IdsBounded(ts: seq<Template>, p: Pacer, births: map<FlowId, Birth>, nextId: FlowId, tr: Traffic)
    requires TrafficOk(ts, p, births, nextId, tr)
    ensures nextId <= tr.ticks + 1
  {
    AtMostOnePerChance(ts, tr.origin, tr.first, tr.step, tr.ticks);
  }

  /** As many chances as there are short ids take their time. */
  lemma IdsTakeTime(first: real, step: real, ticks: nat, duration: real)
    requires TickAt(first, step, ticks) <= first + duration && step > 0.0 && NatReports.FID_SPACE <= ticks + 1
    ensures (NatReports.FID_SPACE - 1) as real * step <= duration
  {
    TickTimes(first, step, ticks);
    Longer((NatReports.FID_SPACE - 1) as real, ticks as real, step);
  }

  lemma Longer(x: real, y: real, step: real)
    requires x <= y && step > 0.0
    ensures x * step <= y * step
  {
  }

  lemma PlanDropped(ts: seq<Template>, p: Pacer, births: map<FlowId, Birth>, nextId: FlowId, tr: Traffic,
                    drv: Memory, st: Staff, stop: real, a: Addr)
    requires PlanOk(ts, p, births, nextId, tr, drv, st, true, stop) && st.tick == Some(a)
    ensures PlanOk(ts, p, births, nextId, tr, drv - {a}, StaffWithout(st, a), true, stop)
  {
    hide TrafficOk, AllSpent, TickAt;
  }

  /** Another driving node is moved or taken away. */
  lemma PlanElse(ts: seq<Template>, p: Pacer, births: map<FlowId, Birth>, nextId: FlowId, tr: Traffic,
                 drv: Memory, st: Staff, draining: bool, stop: real, a: Addr, n: Node)
    requires PlanOk(ts, p, births, nextId, tr, drv, st, draining, stop) && st.tick != Some(a)
    ensures PlanOk(ts, p, births, nextId, tr, drv[a := n], st, draining, stop)
    ensures PlanOk(ts, p, births, nextId, tr, drv - {a}, StaffWithout(st, a), draining, stop)
    ensures !n.Tick? ==> PlanOk(ts, p, births, nextId, tr, drv[a := n], StaffWith(st, a, n), draining, stop)
  {
    hide TrafficOk, AllSpent, TickAt;
  }

  lemma PlanWithExit(w: World, s: State, p: Pacer, tr: Traffic, until: real, a: Addr)
    requires Ready(w, s) && a !in s.mem
    requires PlanOk(w.ts, p, Births(s.books.life), s.books.nextId, tr,
                    Drivers(s.mem), s.staff, s.books.draining, s.books.stop)
    ensures PlanOk(w.ts, p, Births(s.books.life), s.books.nextId, tr,
                   Drivers(s.mem)[a := Exit(until)], StaffWith(s.staff, a, Exit(until)), s.books.draining, s.books.stop)
  {
    hide PlanOk, Births, Drivers, StaffWith, PortsOk, BooksOk, Counted, TemplatesOk;
    PlanElse(w.ts, p, Births(s.books.life), s.books.nextId, tr,
             Drivers(s.mem), s.staff, s.books.draining, s.books.stop, a, Exit(until));
  }

  /** The first pass ends: everything else is due at its end or later. */
  lemma PlanDrains(w: World, s: State, p: Pacer, tr: Traffic, lastTick: real, pass: Pass, a: Addr)
    requires Ready(w, s) && DriversOk(Drivers(s.mem), s.staff, lastTick, pass)
    requires s.queue <= s.mem.Keys && Earliest(s.mem, s.queue, a) && s.mem[a].Exit?
    requires !pass.draining && s.books.stop == pass.until
    requires PlanOk(w.ts, p, Births(s.books.life), s.books.nextId, tr, Drivers(s.mem), s.staff, false, s.books.stop)
    ensures s.mem[a] == Exit(s.books.stop) && forall b | b in s.queue :: s.books.stop <= s.mem[b].time
    ensures PlanOk(w.ts, p, Births(s.books.life), s.books.nextId, tr,
                   Drivers(s.mem) - {a}, StaffWithout(s.staff, a), true, s.books.stop)
  {
    hide TrafficOk, AllSpent, TickAt, PortsOk, BooksOk, Counted, TemplatesOk, Births;
    QueueOfPass(w, s, lastTick, pass);
    if s.staff.tick.Some? {
      FlowsQueued(s, s.staff.tick.value);
    }
  }

  lemma PlanBegins(ts: seq<Template>, p: Pacer, tr: Traffic, st: Staff, stop: real, a: Addr, b: Addr)
    requires PacerOk(ts, p) && tr == Traffic(p, tr.first, tr.step, 0) && a != b && tr.first <= stop
    ensures
      var drv, t := Drivers(map[])[a := Tick(tr.first)][b := Sync(tr.first + SYNC_TIME_OUT)], tr.first;
      PlanOk(ts, p, Births(map[]), 1, tr, drv, StaffWith(StaffWith(st, a, Tick(t)), b, Sync(t + SYNC_TIME_OUT)),
             false, stop)
  {
    hide TrafficOk;
    TrafficBegins(ts, p, tr.first, tr.step);
    assert Births(map[]) == map[];
  }

  /** With no node left, all chances have been used. */
  lemma PlanEnds(w: World, s: State, p: Pacer, tr: Traffic)
    requires Ready(w, s) && s.mem == map[]
    requires PlanOk(w.ts, p, Births(s.books.life), s.books.nextId, tr,
                    Drivers(s.mem), s.staff, s.books.draining, s.books.stop)
    ensures TrafficOk(w.ts, p, Births(s.books.life), s.books.nextId, tr)
    ensures |p.flowcnt| == |w.ts| && ChancesUsed(w.ts, p.flowcnt, tr, s.books.stop)
  {
    hide TrafficOk, ChancesUsed, Births, PortsOk, BooksOk, Counted, TemplatesOk;
  }

  /** A run that lasts any time at all starts its first flow at once, if the template whose turn it is may
      start one. */
  lemma StartsAtOnce(ts: seq<Template>, threadId: nat, p: Pacer, births: map<FlowId, Birth>, nextId: FlowId,
                     tr: Traffic, stop: real)
    requires 0 < |ts| && tr.origin == FirstPacer(ts, threadId) && tr.first < stop
    requires TrafficOk(ts, p, births, nextId, tr) && |p.flowcnt| == |ts| && ChancesUsed(ts, p.flowcnt, tr, stop)
    requires ts[threadId % |ts|].limitSet ==> ts[threadId % |ts|].limit > 0
    ensures 1 in births && births[1] == Birth(threadId % |ts|, tr.first)
  {
    FirstFlow(ts, p, tr, stop, births, nextId);
  }

  lemma TurnOfThread(threadId: nat, k: nat, n: nat)
    requires 0 < n
    ensures (threadId % n + k) % n == (threadId + k) % n
  {
    var q, q' := threadId / n, (threadId % n + k) / n;
    assert threadId + k == (q + q') * n + (threadId % n + k) % n;
    ModuloIs(threadId + k, q + q', n, (threadId % n + k) % n);
  }

  /** The templates take turns, from the one the thread number selects: as long as every meter that is asked
      grants, flow `f` is of template `threadId + f - 1`, counted around, and comes with chance `f - 1`. */
  lemma FlowsInTurn(ts: seq<Template>, threadId: nat, p: Pacer, births: map<FlowId, Birth>, nextId: FlowId,
                    tr: Traffic, n: nat, f: FlowId)
    requires 0 < |ts| && tr.origin == FirstPacer(ts, threadId) && TrafficOk(ts, p, births, nextId, tr)
    requires n <= tr.ticks && EachGrants(ts, tr.origin, tr.first, tr.step, n) && 1 <= f <= n
    ensures f in births
    ensures births[f] == Birth((threadId + (f - 1)) % |ts|, tr.first + (f - 1) as real * tr.step)
  {
    hide TrafficOk, EachGrants;
    FlowsTakeTurns(ts, p, births, nextId, tr, n, f);
    TurnOfThread(threadId, f - 1, |ts|);
  }

  /** The first round is granted whatever the rates: if every template may start flows, each starts one
      before any starts a second. */
  lemma FirstRoundInTurn(ts: seq<Template>, threadId: nat, p: Pacer, births: map<FlowId, Birth>, nextId: FlowId,
                         tr: Traffic, f: FlowId)
    requires 0 < |ts| && tr.origin == FirstPacer(ts, threadId) && TrafficOk(ts, p, births, nextId, tr)
    requires forall i | 0 <= i < |ts| :: ts[i].limitSet ==> ts[i].limit > 0
    requires 1 <= f <= |ts| && f <= tr.ticks
    ensures f in births
    ensures births[f] == Birth((threadId + (f - 1)) % |ts|, tr.first + (f - 1) as real * tr.step)
  {
    hide TrafficOk, EachGrants;
    FirstRoundGrants(ts, tr.origin, tr.first, tr.step, f);
    FlowsInTurn(ts, threadId, p, births, nextId, tr, f, f);
  }

  /** Some node other than the sync node is due by `horizon`, if there is one at all. */
  ghost predicate HorizonOk(mem: Memory, queue: set<Addr>, sync: Option<Addr>, horizon: real) {
    sync.Some? ==>
      || queue == {sync.value}
      || exists o :: o in queue && o in mem && o != sync.value && mem[o].time <= horizon
  }

  /** The time of some node other than the sync node, if there is one. */
  ghost function SomeHorizon(mem: Memory, queue: set<Addr>, sync: Option<Addr>): (horizon: real)
    ensures queue <= mem.Keys && sync.Some? && sync.value in queue ==> HorizonOk(mem, queue, sync, horizon)
  {
    if exists o :: o in queue && o in mem && Some(o) != sync then
      var o :| o in queue && o in mem && Some(o) != sync;
      mem[o].time
    else 0.0
  }

  lemma HorizonAhead(mem: Memory, queue: set<Addr>, a: Addr, horizon: real)
    requires HorizonOk(mem, queue, Some(a), horizon) && queue <= mem.Keys && Earliest(mem, queue, a)
    ensures queue != {a} ==> mem[a].time <= horizon
  {
  }

  lemma HorizonKept(mem: Memory, mem': Memory, queue: set<Addr>, a: Addr, horizon: real)
    requires HorizonOk(mem, queue, Some(a), horizon)
    requires mem'.Keys == mem.Keys && forall b | b in mem' && b != a :: mem'[b].time == mem[b].time
    ensures HorizonOk(mem', queue, Some(a), horizon)
  {
  }

  /** During a pass the queue is never empty; in the first pass the exit node is queued too. */
  lemma QueueOfPass(w: World, s: State, lastTick: real, pass: Pass)
    requires Ready(w, s) && DriversOk(Drivers(s.mem), s.staff, lastTick, pass)
    ensures s.queue != {} && s.queue <= s.mem.Keys
    ensures s.staff.sync.Some? && s.staff.sync.value in s.queue && s.mem[s.staff.sync.value].Sync? && TemplatesOk(w.ts)
    ensures !pass.draining ==>
      s.staff.exit.Some? && s.staff.exit.value in s.queue && s.mem[s.staff.exit.value] == Exit(pass.until)
  {
    hide PortsOk, BooksOk, Counted, TemplatesOk;
    FlowsQueued(s, s.staff.sync.value);
    if !pass.draining {
      FlowsQueued(s, s.staff.exit.value);
    }
  }

  lemma EarliestDue(w: World, s: State, lastTick: real, pass: Pass, a: Addr)
    requires Ready(w, s) && DriversOk(Drivers(s.mem), s.staff, lastTick, pass)
    requires s.queue <= s.mem.Keys && Earliest(s.mem, s.queue, a)
    ensures !pass.draining ==> s.mem[a].time <= pass.until
    ensures s.mem[a].Sync? ==> s.staff.sync == Some(a) && s.mem[a].time == SyncTime(Drivers(s.mem), s.staff)
    ensures s.mem[a].Sync? && !pass.draining ==> s.queue != {a}
    ensures s.mem[a].Exit? ==> !pass.draining
  {
    hide PortsOk, BooksOk, Counted, TemplatesOk;
    QueueOfPass(w, s, lastTick, pass);
  }

  lemma ShortIdTaken(w: World, s: State)
    requires Ready(w, s) && ShortFid(s.books.nextId) in s.books.lookup
    ensures s.books.nextId >= NatReports.FID_SPACE
  {
    hide Shape, PortsOk, Counted, TemplatesOk, BooksOk, Flows;
    TableEntry(w, s, ShortFid(s.books.nextId));
    var a := s.books.lookup[ShortFid(s.books.nextId)];
    FlowAt(w, s, a);
    KnownFlow(w, Flows(s.mem), s.books, a);
  }

  lemma ReadyTemplates(w: World, s: State)
    requires Ready(w, s)
    ensures TemplatesOk(w.ts)
  {
    hide Shape, PortsOk, BooksOk, TemplatesOk, Counted;
  }

  lemma WorkProgress(ticks: real, work: nat, work': nat)
    requires work' < work
    ensures Progressed(ticks, work, ticks, work')
  {
  }

  lemma SyncMoved(drv: Memory, st: Staff, pass: Pass, d: real, a: Addr, lastTick: real)
    requires DriversOk(drv, st, lastTick, pass) && st.sync == Some(a) && a in drv && drv[a].Sync? && d > 0.0
    ensures
      var drv' := drv[a := Sync(drv[a].time + SYNC_TIME_OUT)];
      && DriversOk(drv', st, lastTick, pass)
      && SyncTime(drv', st) == SyncTime(drv, st) + SYNC_TIME_OUT
      && TicksLeft(drv', st, pass, d) == TicksLeft(drv, st, pass, d)
  {
  }

  lemma ExitGone(drv: Memory, st: Staff, pass: Pass, a: Addr, lastTick: real)
    requires DriversOk(drv, st, lastTick, pass) && st.exit == Some(a) && a in drv && drv[a].Exit?
    ensures DriversOk(drv - {a}, StaffWithout(st, a), lastTick, Pass(true, pass.until))
  {
  }

  lemma DriverReady(w: World, s: State, a: Addr)
    requires Ready(w, s) && a in s.mem && Driving(s.mem[a])
    ensures TemplatesOk(w.ts) && a in Drivers(s.mem) && Drivers(s.mem)[a] == s.mem[a]
    ensures s.mem[a].Tick? <==> s.staff.tick == Some(a)
    ensures s.mem[a].Sync? ==> s.staff.sync == Some(a)
    ensures s.mem[a].Exit? ==> s.staff.exit == Some(a)
  {
    hide TemplatesOk, PortsOk, BooksOk, Counted, Owned, Drivers;
    DriverAt(s, a);
  }

  lemma TickIsLater(drv: Memory, st: Staff, lastTick: real, pass: Pass, a: Addr)
    requires DriversOk(drv, st, lastTick, pass) && st.tick == Some(a)
    ensures a in drv && 0.0 < drv[a].time && lastTick <= drv[a].time
  {
  }

  lemma TicksProgress(ticks: real, ticks': real, work: nat, work': nat)
    requires ticks' <= ticks - 1.0
    ensures Progressed(ticks, work, ticks', work')
  {
  }

  lemma TickWork(ts: seq<Template>, pass: Pass, n: Node)
    requires TemplatesOk(ts) && n.Tick?
    ensures Work(ts, pass, n) == if pass.draining then 1 else 0
  {
  }

  lemma StillQueued(mem: Memory, mem': Memory, a: Addr)
    requires Drivers(mem') == Drivers(mem) && a in mem && Driving(mem[a])
    ensures a in mem' && mem'[a] == mem[a]
  {
    assert a in Drivers(mem);
  }

  lemma PlainFlow(w: World, s: State, a: Addr)
    requires Ready(w, s) && a in s.mem && s.mem[a].FlowPkt?
    ensures s.mem[a].tmpl < |w.ts| && s.mem[a].idx < w.ts[s.mem[a].tmpl].Size()
    ensures w.ts[s.mem[a].tmpl].packets[s.mem[a].idx].last <==> s.mem[a].idx + 1 == w.ts[s.mem[a].tmpl].Size()
    ensures !s.mem[a].Waiting() ==> !s.mem[a].learn.First? && !s.mem[a].learn.Wait?
  {
    FlowAt(w, s, a);
    hide Flows, BooksOk, Shape, PortsOk;
    assert w.ts[s.mem[a].tmpl].Valid();
  }

  lemma WaitingFlow(w: World, s: State, a: Addr)
    requires Ready(w, s) && a in s.mem && s.mem[a].FlowPkt? && s.mem[a].Waiting()
    ensures s.mem[a].tmpl < |w.ts| && s.mem[a].idx < w.ts[s.mem[a].tmpl].Size()
    ensures s.mem[a].learn.First? || s.mem[a].learn.Wait?
    ensures
      var p := w.ts[s.mem[a].tmpl].packets[s.mem[a].idx];
      && (p.last ==> !p.init)
      && (p.last <==> s.mem[a].idx + 1 == w.ts[s.mem[a].tmpl].Size())
      && (s.mem[a].learn.First? ==> p.init)
  {
    hide Flows, BooksOk, Shape, PortsOk;
    FlowAt(w, s, a);
    WaitingMeetsResponder(w.ts, s.mem[a]);
    assert w.ts[s.mem[a].tmpl].Valid();
  }

  lemma ClockGrows(times: seq<real>, until: real, now: real)
    requires Clock(times) && (forall k | 0 <= k < |times| :: times[k] <= until)
    requires 0.0 < now && until <= now
    ensures Clock(times + [now])
    ensures forall k | 0 <= k < |times + [now]| :: (times + [now])[k] <= now
  {
  }

  lemma PaceLengths(ts: seq<Template>, births: map<FlowId, Birth>, nextId: FlowId,
                    flowsOf: seq<seq<FlowId>>, starts: seq<seq<real>>, flowcnt: seq<nat>, pending: Option<nat>)
    requires PaceOk(ts, births, nextId, flowsOf, starts, flowcnt, pending)
    ensures |ts| == |flowsOf| == |starts| == |flowcnt|
    ensures forall i | 0 <= i < |ts| && ts[i].limitSet :: flowcnt[i] <= ts[i].limit
  {
    forall i | 0 <= i < |ts| && ts[i].limitSet
      ensures flowcnt[i] <= ts[i].limit
    {
      assert TemplatePaceOk(ts[i], i, births, nextId, flowsOf[i], starts[i], flowcnt[i], pending == Some(i));
    }
  }

  lemma FirstPacket(ts: seq<Template>, i: nat)
    requires TemplatesOk(ts) && i < |ts|
    ensures ts[i].Size() > 0 && ts[i].packets[0].init
  {
    assert ts[i].Valid();
  }

  lemma PortNew(s: State, live: Memory, loose: set<Port>, p: Port)
    requires PortsOk(s, live, loose) && p.serial == s.nextSerial
    ensures PortsOk(s.(active := s.active + 1, nextSerial := s.nextSerial + 1,
                       ports := s.ports.(issued := s.ports.issued + {p})), live, loose + {p})
  {
    hide PortsKept;
    PortIssued(live, s.ports.holder, s.ports.issued, s.ports.freed, loose, p);
  }

  lemma OnePort(p: Port)
    ensures NoDup([] + [p]) && PortSet([] + [p]) == {p}
  {
    assert [] + [p] == [p];
  }

  lemma ThreePorts(p: Port, p0: Port, p1: Port)
    requires p.serial < p0.serial < p1.serial
    ensures NoDup([p0, p1] + [p]) && PortSet([p0, p1] + [p]) == {p} + {p0} + {p1}
  {
    assert [p0, p1] + [p] == [p0, p1, p];
  }

  /** The new flow's node enters the books; `s` differs from `s0` by the issued ports only. */
  lemma FreshFlowReady(w: World, pass: Pass, s0: State, s: State, loose: set<Port>, a: Addr, n: Node)
    requires Ready(w, s0) && s == s0.(active := s.active, ports := s.ports, nextSerial := s.nextSerial)
    requires PortsOk(s, s.mem, loose)
    requires a !in s.mem && n.FlowPkt? && n.tmpl < |w.ts| && n.idx == 0 && n.flowId == s.books.nextId
    requires |n.extra| == if UsesRtp(w.ts[n.tmpl].plugin) then 2 else 0
    requires n.learn == if w.learnMode && w.ts[n.tmpl].TwoWay() then First else Plain
    requires w.ts[n.tmpl].limitSet ==> w.ts[n.tmpl].limit > 0
    requires n.learn.First? ==> ShortFid(n.flowId) !in s.books.lookup
    requires !s.books.draining
    requires NoDup(n.Ports()) && PortSet(n.Ports()) == loose
    ensures Ready(w, Born(w, s, loose, a, n))
    ensures Drivers(s.mem[a := n]) == Drivers(s0.mem)
    ensures Births(s.books.life[n.flowId := Life(n.tmpl, n.time, 0, 0, Some(a))])
         == Births(s0.books.life)[n.flowId := Birth(n.tmpl, n.time)]
  {
    hide PortsOk, BooksOk, Flows, NoDup, PortSet, Owned, StaffOk, Counted;
    ShapeSame(s0, s, {});
    assert w.ts[n.tmpl].Valid();
    BornReady(w, pass, s, loose, a, n);
    DriversSame(s.mem, a, n);
  }

  /** A report for a flow in the table is about that very flow: its tagged packet was sent, it waits,
      and the report carries its own translation. */
  lemma ReportIsOwn(w: World, env: Env, s: State, m: NatMsg)
    requires Ready(w, s) && w.xlate == env.xlate && m.fid in s.books.lookup
    requires w.learnMode ==> Observed(env, m, s.books.tagged, s.books.associated)
    ensures
      var a := s.books.lookup[m.fid];
      a in s.mem && s.mem[a].FlowPkt? && s.mem[a].learn.Wait? && m.ext == w.xlate(s.mem[a].flowId)
  {
    TableEntry(w, s, m.fid);
    assert w.learnMode;
    var f :| f in s.books.tagged && ShortFid(f) == m.fid && Newest(f, s.books.associated) && m.ext == env.xlate(f);
    assert f == s.mem[s.books.lookup[m.fid]].flowId;
  }

  /** What one report makes of the thread: a flow that waits for it learns, any other changes nothing. */
  ghost function Told(s: State, m: NatMsg): State {
    if m.fid in s.books.lookup && s.books.lookup[m.fid] in s.mem && s.mem[s.books.lookup[m.fid]].FlowPkt?
    then LearnedState(s, s.books.lookup[m.fid], m.fid, m.ext)
    else s
  }

  /** The first `n` reports taken in one after the other. */
  ghost function HeardSome(s: State, msgs: seq<NatMsg>, n: nat): State
    requires n <= |msgs|
  {
    if n == 0 then s else Told(HeardSome(s, msgs, n - 1), msgs[n - 1])
  }

  ghost function Heard(s: State, msgs: seq<NatMsg>): State { HeardSome(s, msgs, |msgs|) }

  lemma HeardNone(s: State, msgs: seq<NatMsg>)
    ensures HeardSome(s, msgs, 0) == s
  {
  }

  lemma ReportsObserved(env: Env, learnMode: bool, n: nat, tagged: set<FlowId>, associated: set<FlowId>)
    requires learnMode ==> Faithful(env)
    ensures
      var msgs := env.rx(n, tagged, associated);
      learnMode ==> forall i | 0 <= i < |msgs| :: Observed(env, msgs[i], tagged, associated)
  {
    var msgs := env.rx(n, tagged, associated);
    if learnMode {
      forall i | 0 <= i < |msgs|
        ensures Observed(env, msgs[i], tagged, associated)
      {
        assert msgs[i] in env.rx(n, tagged, associated);
      }
    }
  }

  lemma SameState(s: State)
    ensures Undisturbed(s, s) && SameTimes(s.mem, s.mem)
  {
  }

  lemma UndisturbedTwice(s: State, s': State, s'': State)
    requires Undisturbed(s, s') && Undisturbed(s', s'')
    ensures Undisturbed(s, s'')
    ensures SameTimes(s.mem, s'.mem) && SameTimes(s'.mem, s''.mem) ==> SameTimes(s.mem, s''.mem)
  {
  }

  lemma ReadyParts(w: World, s: State)
    requires Ready(w, s)
    ensures TemplatesOk(w.ts) && Shape(s, {}) && PortsOk(s, s.mem, {})
  {
    hide Shape, PortsOk, BooksOk, TemplatesOk, Counted;
  }

  lemma PortsElsewhere(s: State, s': State, live: Memory)
    requires PortsOk(s, live, {}) && s'.ports == s.ports && s'.active == s.active && s'.nextSerial == s.nextSerial
    ensures PortsOk(s', live, {})
  {
  }

  /** Where nodes and ports are does not depend on the books of flows. */
  lemma BooksApart(s: State, s': State, hands: set<Addr>)
    requires Shape(s, hands) && PortsOk(s, s.mem, {}) && s' == s.(books := s'.books)
    ensures Shape(s', hands) && PortsOk(s', s'.mem, {})
  {
  }
}
