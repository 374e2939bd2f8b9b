/** The whole state of a traffic thread between two events, and what each event makes of it. */
module ThreadState {
  import opened Templates
  import opened Nodes
  import opened Wrappers
  import opened FlowBooks
  import opened Progress
  import opened Sums

  /** Where every client port ever issued is now. */
  datatype PortBooks = PortBooks(holder: map<Port, Addr>, issued: set<Port>, freed: set<Port>)

  /** The nodes that drive the thread: flow starts, the millisecond sync, the end of the run. */
  datatype Staff = Staff(tick: Option<Addr>, sync: Option<Addr>, exit: Option<Addr>)

  datatype State = State(
    mem: Memory, queue: set<Addr>, tcpDpc: Option<Addr>, udpDpc: Option<Addr>,
    books: Books, natAdd: nat, natRemove: nat,
    ports: PortBooks, active: int, nextSerial: nat,
    staff: Staff)

  ghost predicate StaffOk(mem: Memory, st: Staff) {
    && (forall a | a in mem ::
      && (mem[a].Tick? <==> st.tick == Some(a))
      && (mem[a].Sync? <==> st.sync == Some(a))
      && (mem[a].Exit? <==> st.exit == Some(a)))
    && Slot(st.tick) + Slot(st.sync) + Slot(st.exit) <= mem.Keys
  }

  ghost predicate Shape(s: State, hands: set<Addr>) {
    Owned(s.mem, s.queue, s.tcpDpc, s.udpDpc, hands) && StaffOk(s.mem, s.staff)
  }

  /** `live` are the nodes whose ports have not left them; `loose` are the ports in transit. */
  ghost predicate PortsOk(s: State, live: Memory, loose: set<Port>) {
    && PortsKept(live, s.ports.holder, s.ports.issued, s.ports.freed, loose)
    && s.active == |s.ports.issued| - |s.ports.freed|
    && (forall p | p in s.ports.issued :: p.serial < s.nextSerial)
  }

  /** The table has as many entries as were added and not removed; without learn mode, none. */
  ghost predicate Counted(w: World, natAdd: nat, natRemove: nat, lookup: map<Fid, Addr>) {
    && natAdd == natRemove + |lookup|
    && (!w.learnMode ==> lookup == map[])
  }

  lemma CountedDrop(w: World, natAdd: nat, natRemove: nat, lookup: map<Fid, Addr>, f: Fid)
    requires Counted(w, natAdd, natRemove, lookup) && f in lookup
    ensures Counted(w, natAdd, natRemove + 1, lookup - {f})
  {
    assert (lookup - {f}).Keys == lookup.Keys - {f};
  }

  lemma CountedAdd(w: World, natAdd: nat, natRemove: nat, lookup: map<Fid, Addr>, f: Fid, a: Addr)
    requires Counted(w, natAdd, natRemove, lookup) && f !in lookup && w.learnMode
    ensures Counted(w, natAdd + 1, natRemove, lookup[f := a])
  {
    assert lookup[f := a].Keys == lookup.Keys + {f};
  }

  /** Between two events no step holds a node or a port, and every book is in order. */
  ghost predicate Ready(w: World, s: State) {
    && TemplatesOk(w.ts)
    && Shape(s, {}) && PortsOk(s, s.mem, {})
    && BooksOk(w, Flows(s.mem), s.books) && Counted(w, s.natAdd, s.natRemove, s.books.lookup)
  }

  /** Flow node `a` was taken off the queue and its flow has left the books but for the count of
      closed flows. */
  ghost predicate Leaving(w: World, s: State, a: Addr) {
    && TemplatesOk(w.ts)
    && a in s.mem && s.mem[a].FlowPkt? && FlowOk(w.ts, s.mem[a])
    && Shape(s, {a}) && PortsOk(s, s.mem, {})
    && BooksOk(w, Flows(s.mem) - {a}, s.books.(closedFlows := s.books.closedFlows + w.ts[s.mem[a].tmpl].totalFlows))
    && Counted(w, s.natAdd, s.natRemove, s.books.lookup)
  }

  // ----- what an event leaves alone -----

  predicate Driving(n: Node) { n.Tick? || n.Sync? || n.Exit? }

  /** The nodes that drive the thread. */
  ghost function Drivers(mem: Memory): Memory {
    map a | a in mem && Driving(mem[a]) :: mem[a]
  }

  datatype Birth = Birth(tmpl: nat, start: real)

  /** Which template each flow replays, and when it started. */
  ghost function Births(life: map<FlowId, Life>): map<FlowId, Birth> {
    map f | f in life :: Birth(life[f].tmpl, life[f].start)
  }

  /** The driving nodes are as before, and no flow was started. */
  ghost predicate Undisturbed(s: State, s': State) {
    && s'.staff == s.staff && Drivers(s'.mem) == Drivers(s.mem)
    && Births(s'.books.life) == Births(s.books.life)
    && s'.books.nextId == s.books.nextId
  }

  lemma DriversSame(mem: Memory, a: Addr, n: Node)
    requires !Driving(n) && (a in mem ==> !Driving(mem[a]))
    ensures Drivers(mem[a := n]) == Drivers(mem)
    ensures Drivers(mem - {a}) == Drivers(mem)
  {
  }

  lemma BirthsSame(life: map<FlowId, Life>, f: FlowId, l: Life)
    requires f in life && l.tmpl == life[f].tmpl && l.start == life[f].start
    ensures Births(life[f := l]) == Births(life)
  {
  }

  // ----- small facts about nodes -----

  lemma FlowOkMeans(ts: seq<Template>, n: Node)
    requires n.FlowPkt? && FlowOk(ts, n)
    ensures n.tmpl < |ts| && n.idx < ts[n.tmpl].Size()
    ensures |n.extra| == (if UsesRtp(ts[n.tmpl].plugin) then 2 else 0)
    ensures n.Waiting() ==> ts[n.tmpl].TwoWay() && ts[n.tmpl].InitPrefix(n.idx)
    ensures n.learn.First? ==> n.idx == 0
    ensures ts[n.tmpl].limitSet ==> ts[n.tmpl].restart > 0.0
  {
  }

  lemma FlowAt(w: World, s: State, a: Addr)
    requires Ready(w, s) && a in s.mem && s.mem[a].FlowPkt?
    ensures a in Flows(s.mem) && Flows(s.mem)[a] == s.mem[a] && FlowOk(w.ts, s.mem[a])
  {
    assert a in Flows(s.mem);
  }

  lemma StaffSet(mem: Memory, st: Staff, a: Addr, n: Node)
    requires StaffOk(mem, st) && (n.FlowPkt? || n.DeferPort?)
    requires a in mem ==> mem[a].FlowPkt? || mem[a].DeferPort?
    ensures StaffOk(mem[a := n], st)
  {
  }

  lemma StaffGone(mem: Memory, st: Staff, a: Addr)
    requires StaffOk(mem, st) && a in mem && (mem[a].FlowPkt? || mem[a].DeferPort?)
    ensures StaffOk(mem - {a}, st)
  {
  }

  lemma StaffMoved(mem: Memory, st: Staff, a: Addr, n: Node)
    requires StaffOk(mem, st) && a in mem
    requires (mem[a].Tick? && n.Tick?) || (mem[a].Sync? && n.Sync?)
    ensures StaffOk(mem[a := n], st)
  {
  }

  function StaffWithout(st: Staff, a: Addr): Staff {
    Staff(
      if st.tick == Some(a) then None else st.tick,
      if st.sync == Some(a) then None else st.sync,
      if st.exit == Some(a) then None else st.exit)
  }

  lemma StaffLess(mem: Memory, st: Staff, a: Addr)
    requires StaffOk(mem, st)
    ensures StaffOk(mem - {a}, StaffWithout(st, a))
  {
  }

  function StaffWith(st: Staff, a: Addr, n: Node): Staff {
    Staff(
      if n.Tick? then Some(a) else st.tick,
      if n.Sync? then Some(a) else st.sync,
      if n.Exit? then Some(a) else st.exit)
  }

  lemma StaffMore(mem: Memory, st: Staff, a: Addr, n: Node)
    requires StaffOk(mem, st) && a !in mem
    requires (n.Tick? && st.tick == None) || (n.Sync? && st.sync == None) || (n.Exit? && st.exit == None)
    ensures StaffOk(mem[a := n], StaffWith(st, a, n))
  {
  }

  // ----- a flow node is written over -----

  /** The node changes but not its ports; where nodes and ports are is not affected. */
  lemma FlowNodeSet(w: World, pass: Pass, s: State, a: Addr, n: Node, books: Books)
    requires Ready(w, s) && a in s.queue && a in s.mem && s.mem[a].FlowPkt? && n.FlowPkt?
    requires n.Ports() == s.mem[a].Ports()
    ensures
      var s' := s.(mem := s.mem[a := n], books := books);
      && Shape(s', {}) && PortsOk(s', s'.mem, {})
      && Flows(s'.mem) == Flows(s.mem)[a := n]
      && TotalWork(w.ts, pass, s'.mem)
        == TotalWork(w.ts, pass, s.mem) - Work(w.ts, pass, s.mem[a]) + Work(w.ts, pass, n)
  {
    hide TotalWork, Owned, StaffOk, Flows, TemplatesOk, Work, PortsKept, BooksOk, Counted;
    WorkChanged(w.ts, pass, s.mem, a, n);
    OwnedSet(s.mem, s.queue, s.tcpDpc, s.udpDpc, a, n);
    StaffSet(s.mem, s.staff, a, n);
    FlowChange(s.mem, a, n);
    PortsSame(s.mem, s.ports.holder, s.ports.issued, s.ports.freed, {}, a, n);
  }

  /** Packet `p` was played by flow `a`, which moves on to node `n`, now in round `l.rounds`. */
  ghost function Moved(s: State, a: Addr, n: Node, l: Life, p: Played): State
    requires a in s.mem && s.mem[a].FlowPkt? && s.mem[a].flowId in s.books.played
  {
    var f, b := s.mem[a].flowId, s.books;
    s.(mem := s.mem[a := n], books := b.(life := b.life[f := l], played := b.played[f := b.played[f] + [p]]))
  }

  ghost function PlayedBy(n: Node, sent: bool, drained: bool): Played
    requires n.FlowPkt?
  {
    Played(n.idx, n.time, sent, n.learn, drained)
  }

  /** The packet of node `n` is due in the pass the thread is in, and `sent` says whether it is sent
      in that pass. */
  ghost predicate DueNow(ts: seq<Template>, n: Node, b: Books, sent: bool)
    requires n.FlowPkt? && n.tmpl < |ts|
  {
    && (sent <==> !ts[n.tmpl].limitSet || !b.draining || n.learn.Wait?)
    && (!b.draining ==> n.time <= b.stop)
  }

  lemma PlaysInPass(w: World, s: State, a: Addr, sent: bool)
    requires Ready(w, s) && a in s.mem && s.mem[a].FlowPkt? && s.mem[a].tmpl < |w.ts|
    requires DueNow(w.ts, s.mem[a], s.books, sent)
    ensures PlayedIn(w.ts[s.mem[a].tmpl], s.books, PlayedBy(s.mem[a], sent, s.books.draining))
  {
    hide Shape, PortsOk, Counted, Replay, LearningOk, LookupExact, Translated, Passes, TemplatesOk;
    assert a in Flows(s.mem);
  }

  function NextPacket(ts: seq<Template>, n: Node): Node
    requires n.FlowPkt? && n.tmpl < |ts| && n.idx < ts[n.tmpl].Size()
  {
    n.(idx := n.idx + 1, time := n.time + ts[n.tmpl].Gap(n.idx))
  }

  function NextRound(ts: seq<Template>, n: Node): Node
    requires n.FlowPkt? && n.tmpl < |ts|
  {
    n.(idx := 0, time := n.time + ts[n.tmpl].restart)
  }

  lemma AdvanceReady(w: World, pass: Pass, s: State, a: Addr, sent: bool)
    requires Ready(w, s) && a in s.queue && a in s.mem && s.mem[a].FlowPkt?
    requires s.mem[a].tmpl < |w.ts| && s.mem[a].idx + 1 < w.ts[s.mem[a].tmpl].Size() && !s.mem[a].learn.First?
    requires s.mem[a].Waiting() ==> w.ts[s.mem[a].tmpl].packets[s.mem[a].idx].init
    requires DueNow(w.ts, s.mem[a], s.books, sent)
    ensures s.mem[a].flowId in s.books.life && s.mem[a].flowId in s.books.played
    ensures
      var n := s.mem[a];
      var l := s.books.life[n.flowId].(at := n.idx + 1);
      var s' := Moved(s, a, NextPacket(w.ts, n), l, PlayedBy(n, sent, s.books.draining));
      Ready(w, s') && TotalWork(w.ts, pass, s'.mem) < TotalWork(w.ts, pass, s.mem) && Undisturbed(s, s')
  {
    hide TotalWork, Owned, StaffOk, Flows, Work, PortsKept, BooksOk, Shape, PortsOk, FlowOk, Drivers, Births, DueNow,
      PlayedIn;
    var n := s.mem[a];
    FlowAt(w, s, a);
    PlaysInPass(w, s, a, sent);
    AdvanceKeeps(w, Flows(s.mem), s.books, a, PlayedBy(n, sent, s.books.draining));
    GapPositive(w.ts, n);
    AdvanceProgress(w.ts, pass, n, NextPacket(w.ts, n));
    var l := s.books.life[n.flowId].(at := n.idx + 1);
    var s' := Moved(s, a, NextPacket(w.ts, n), l, PlayedBy(n, sent, s.books.draining));
    FlowNodeSet(w, pass, s, a, NextPacket(w.ts, n), s'.books);
    DriversSame(s.mem, a, NextPacket(w.ts, n));
    BirthsSame(s.books.life, n.flowId, s.books.life[n.flowId].(at := n.idx + 1));
  }

  lemma GapPositive(ts: seq<Template>, n: Node)
    requires TemplatesOk(ts) && n.FlowPkt? && n.tmpl < |ts| && n.idx < ts[n.tmpl].Size()
    ensures ts[n.tmpl].Gap(n.idx) >= 0.0
  {
  }

  lemma RepeatReady(w: World, pass: Pass, s: State, a: Addr, sent: bool)
    requires Ready(w, s) && a in s.queue && a in s.mem && s.mem[a].FlowPkt? && !s.mem[a].Waiting()
    requires s.mem[a].tmpl < |w.ts| && s.mem[a].idx + 1 == w.ts[s.mem[a].tmpl].Size()
    requires w.ts[s.mem[a].tmpl].limitSet && !pass.draining && s.mem[a].time <= pass.until
    requires !s.books.draining && DueNow(w.ts, s.mem[a], s.books, sent)
    ensures s.mem[a].flowId in s.books.life && s.mem[a].flowId in s.books.played
    ensures
      var n := s.mem[a];
      var l := s.books.life[n.flowId];
      var l' := l.(rounds := l.rounds + 1, at := 0);
      var s' := Moved(s, a, NextRound(w.ts, n), l', PlayedBy(n, sent, s.books.draining));
      Ready(w, s') && TotalWork(w.ts, pass, s'.mem) < TotalWork(w.ts, pass, s.mem) && Undisturbed(s, s')
  {
    hide TotalWork, Owned, StaffOk, Flows, Work, PortsKept, BooksOk, Shape, PortsOk, FlowOk, Drivers, Births, DueNow,
      PlayedIn;
    var n := s.mem[a];
    FlowAt(w, s, a);
    PlaysInPass(w, s, a, sent);
    FlowOkMeans(w.ts, n);
    RepeatKeeps(w, Flows(s.mem), s.books, a, PlayedBy(n, sent, s.books.draining));
    RepeatProgress(w.ts, pass, n, NextRound(w.ts, n));
    var l := s.books.life[n.flowId];
    var s' := Moved(s, a, NextRound(w.ts, n), l.(rounds := l.rounds + 1, at := 0), PlayedBy(n, sent, s.books.draining));
    FlowNodeSet(w, pass, s, a, NextRound(w.ts, n), s'.books);
    DriversSame(s.mem, a, NextRound(w.ts, n));
    BirthsSame(s.books.life, n.flowId, l.(rounds := l.rounds + 1, at := 0));
  }

  // ----- a flow ends -----

  /** Flow `a` is taken off the queue and out of the books, having played `ps` last. */
  ghost function Departed(s: State, a: Addr, ps: seq<Played>): State
    requires a in s.mem && s.mem[a].FlowPkt? && s.mem[a].flowId in s.books.played && s.mem[a].flowId in s.books.life
  {
    var n, f, b := s.mem[a], s.mem[a].flowId, s.books;
    s.(queue := s.queue - {a},
       natRemove := if n.Waiting() then s.natRemove + 1 else s.natRemove,
       books := b.(
         lookup := if n.Waiting() then b.lookup - {ShortFid(f)} else b.lookup,
         life := b.life[f := b.life[f].(at := n.idx + |ps|, home := None)],
         played := b.played[f := b.played[f] + ps]))
  }

  lemma DepartLeaves(w: World, s: State, a: Addr, ps: seq<Played>)
    requires Ready(w, s) && a in s.queue && a in s.mem && s.mem[a].FlowPkt?
    requires s.mem[a].tmpl < |w.ts| && s.mem[a].idx < w.ts[s.mem[a].tmpl].Size() && EndsWith(w, s.mem[a], s.books, ps)
    ensures s.mem[a].flowId in s.books.life && s.mem[a].flowId in s.books.played
    ensures Leaving(w, Departed(s, a, ps), a) && Undisturbed(s, Departed(s, a, ps))
  {
    hide Drivers, Births, Owned, StaffOk, Flows, PortsKept, BooksOk, FlowOk, TemplatesOk, Counted, EndsWith;
    FlowAt(w, s, a);
    EndKeeps(w, Flows(s.mem), s.books, a, ps);
    OwnedPop(s.mem, s.queue, s.tcpDpc, s.udpDpc, a);
    BirthsSame(s.books.life, s.mem[a].flowId, s.books.life[s.mem[a].flowId].(at := s.mem[a].idx + |ps|, home := None));
    if s.mem[a].Waiting() {
      WaitingInTable(w, Flows(s.mem), s.books, a);
      CountedDrop(w, s.natAdd, s.natRemove, s.books.lookup, ShortFid(s.mem[a].flowId));
    }
  }

  /** Waiting flow `a` is taken off the queue, the table and the books. */
  ghost function TimedOut(s: State, a: Addr): State
    requires a in s.mem && s.mem[a].FlowPkt? && s.mem[a].flowId in s.books.life
  {
    var n, f, b := s.mem[a], s.mem[a].flowId, s.books;
    s.(queue := s.queue - {a},
       natRemove := s.natRemove + 1,
       books := b.(lookup := b.lookup - {ShortFid(f)}, life := b.life[f := b.life[f].(at := n.idx, home := None)]))
  }

  lemma TimeoutLeaves(w: World, s: State, a: Addr)
    requires Ready(w, s) && a in s.queue && a in s.mem && s.mem[a].FlowPkt? && s.mem[a].Waiting()
    requires s.mem[a].tmpl < |w.ts| && s.mem[a].idx < w.ts[s.mem[a].tmpl].Size()
    requires !w.ts[s.mem[a].tmpl].packets[s.mem[a].idx].init
    ensures s.mem[a].flowId in s.books.life
    ensures Leaving(w, TimedOut(s, a), a) && Undisturbed(s, TimedOut(s, a))
  {
    hide Ready, Leaving, Undisturbed;
    var f := s.mem[a].flowId;
    DepartLeaves(w, s, a, []);
    assert s.books.played[f] + [] == s.books.played[f];
    assert s.books.played[f := s.books.played[f] + []] == s.books.played;
    assert TimedOut(s, a) == Departed(s, a, []);
  }

  lemma WaitingInTable(w: World, fl: Memory, b: Books, a: Addr)
    requires BooksOk(w, fl, b) && a in fl && fl[a].Waiting()
    ensures ShortFid(fl[a].flowId) in b.lookup && b.lookup[ShortFid(fl[a].flowId)] == a
  {
  }

  /** The node of a closed flow goes back to the pool. */
  lemma FlowNodeGone(w: World, pass: Pass, s: State, a: Addr)
    requires TemplatesOk(w.ts)
    requires a in s.mem && s.mem[a].FlowPkt? && Shape(s, {a}) && PortsOk(s, s.mem - {a}, {})
    requires BooksOk(w, Flows(s.mem) - {a}, s.books) && Counted(w, s.natAdd, s.natRemove, s.books.lookup)
    ensures Ready(w, s.(mem := s.mem - {a}))
    ensures TotalWork(w.ts, pass, s.mem - {a}) == TotalWork(w.ts, pass, s.mem) - Work(w.ts, pass, s.mem[a])
    ensures Drivers(s.mem - {a}) == Drivers(s.mem)
  {
    hide TotalWork, Owned, StaffOk, Flows, TemplatesOk, Work, BooksOk, PortsKept, Drivers, Counted, FlowOk;
    DriversSame(s.mem, a, s.mem[a]);
    WorkRemoved(w.ts, pass, s.mem, a);
    OwnedGone(s.mem, s.queue, s.tcpDpc, s.udpDpc, a);
    StaffGone(s.mem, s.staff, a);
    FlowGone(s.mem, a);
  }

  /** A flow that still has a packet to go weighs more than its ports. */
  lemma FlowWorkBound(ts: seq<Template>, pass: Pass, n: Node)
    requires TemplatesOk(ts) && n.FlowPkt? && n.tmpl < |ts| && n.idx < ts[n.tmpl].Size()
    ensures Work(ts, pass, n) > |n.Ports()|
  {
    var rounds := RoundsLeft(ts[n.tmpl], pass, n.time);
    assert rounds * ts[n.tmpl].Size() >= 0;
  }

  // ----- learning -----

  lemma SameWork(w: World, pass: Pass, n: Node, l: Learning)
    requires TemplatesOk(w.ts) && n.FlowPkt?
    ensures Work(w.ts, pass, n.(learn := l)) == Work(w.ts, pass, n)
    ensures n.(learn := l).Ports() == n.Ports()
  {
  }

  lemma TagReady(w: World, pass: Pass, s: State, a: Addr)
    requires Ready(w, s) && a in s.queue && a in s.mem && s.mem[a].FlowPkt? && s.mem[a].learn.First?
    ensures
      var n := s.mem[a].(learn := Wait);
      var s' := s.(mem := s.mem[a := n], books := s.books.(tagged := s.books.tagged + {n.flowId}));
      Ready(w, s') && TotalWork(w.ts, pass, s'.mem) == TotalWork(w.ts, pass, s.mem) && Undisturbed(s, s')
  {
    hide TotalWork, Owned, StaffOk, Flows, PortsKept, BooksOk, Shape, PortsOk, FlowOk, Work, Drivers;
    DriversSame(s.mem, a, s.mem[a].(learn := Wait));
    SameWork(w, pass, s.mem[a], Wait);
    FlowAt(w, s, a);
    TagKeeps(w, Flows(s.mem), s.books, a);
    FlowNodeSet(w, pass, s, a, s.mem[a].(learn := Wait), s.books.(tagged := s.books.tagged + {s.mem[a].flowId}));
  }

  /** The same nodes are allocated, each due when it was, and the flows' nodes are the same ones. */
  ghost predicate SameTimes(mem: Memory, mem': Memory) {
    && mem'.Keys == mem.Keys
    && forall a | a in mem :: mem'[a].time == mem[a].time && (mem'[a].FlowPkt? <==> mem[a].FlowPkt?)
  }

  ghost function LearnedState(s: State, a: Addr, fid: Fid, ext: Ext): State
    requires a in s.mem && s.mem[a].FlowPkt?
  {
    s.(mem := s.mem[a := s.mem[a].(learn := Learned(ext))],
       books := s.books.(lookup := s.books.lookup - {fid}),
       natRemove := s.natRemove + 1)
  }

  lemma LearnBooks(w: World, s: State, a: Addr, fid: Fid, ext: Ext)
    requires Ready(w, s) && fid in s.books.lookup && a == s.books.lookup[fid]
    requires a in s.mem && s.mem[a].FlowPkt? && s.mem[a].learn.Wait? && ext == w.xlate(s.mem[a].flowId)
    ensures BooksOk(w, Flows(s.mem)[a := s.mem[a].(learn := Learned(ext))], s.books.(lookup := s.books.lookup - {fid}))
    ensures Counted(w, s.natAdd, s.natRemove + 1, s.books.lookup - {fid})
  {
    hide Shape, PortsOk, Flows, BooksOk, FlowOk, Counted, TemplatesOk;
    FlowAt(w, s, a);
    LearnKeeps(w, Flows(s.mem), s.books, fid, ext);
    CountedDrop(w, s.natAdd, s.natRemove, s.books.lookup, fid);
  }

  lemma LearnReady(w: World, pass: Pass, s: State, a: Addr, fid: Fid, ext: Ext)
    requires Ready(w, s) && fid in s.books.lookup && a == s.books.lookup[fid]
    requires a in s.mem && s.mem[a].FlowPkt? && s.mem[a].learn.Wait? && ext == w.xlate(s.mem[a].flowId)
    ensures Ready(w, LearnedState(s, a, fid, ext))
    ensures TotalWork(w.ts, pass, LearnedState(s, a, fid, ext).mem) == TotalWork(w.ts, pass, s.mem)
    ensures Undisturbed(s, LearnedState(s, a, fid, ext)) && SameTimes(s.mem, LearnedState(s, a, fid, ext).mem)
  {
    hide Drivers, TotalWork, Shape, PortsOk, Flows, BooksOk, Counted, TemplatesOk, Work;
    FlowsQueued(s, a);
    DriversSame(s.mem, a, s.mem[a].(learn := Learned(ext)));
    var books := s.books.(lookup := s.books.lookup - {fid});
    SameWork(w, pass, s.mem[a], Learned(ext));
    LearnBooks(w, s, a, fid, ext);
    FlowNodeSet(w, pass, s, a, s.mem[a].(learn := Learned(ext)), books);
    Carried(s.(mem := LearnedState(s, a, fid, ext).mem, books := books), LearnedState(s, a, fid, ext));
  }

  /** Where nodes and ports are does not depend on the counters of the table. */
  lemma Carried(s: State, s': State)
    requires Shape(s, {}) && PortsOk(s, s.mem, {})
    requires s' == s.(natAdd := s'.natAdd, natRemove := s'.natRemove, books := s'.books)
    ensures Shape(s', {}) && PortsOk(s', s'.mem, {})
  {
  }

  /** Between events every flow node is queued. */
  lemma FlowsQueued(s: State, a: Addr)
    requires Shape(s, {}) && a in s.mem && !s.mem[a].DeferPort?
    ensures a in s.queue
  {
  }

  /** What the table says about a waiting flow; in particular a message for it can only be about it. */
  lemma TableEntry(w: World, s: State, fid: Fid)
    requires Ready(w, s) && fid in s.books.lookup
    ensures
      var a := s.books.lookup[fid];
      && a in s.mem && s.mem[a].Waiting() && ShortFid(s.mem[a].flowId) == fid
      && s.mem[a].flowId in s.books.associated && Newest(s.mem[a].flowId, s.books.associated)
      && (s.mem[a].learn.First? ==> s.mem[a].flowId !in s.books.tagged)
      && s.books.tagged <= s.books.associated
  {
    var a := s.books.lookup[fid];
    assert a in Flows(s.mem);
    assert LearnOk(Flows(s.mem)[a], s.books.tagged, s.books.associated, w.xlate);
  }

  // ----- a flow starts -----

  lemma BornReady(w: World, pass: Pass, s: State, loose: set<Port>, a: Addr, n: Node)
    requires TemplatesOk(w.ts) && Shape(s, {}) && PortsOk(s, s.mem, loose)
    requires BooksOk(w, Flows(s.mem), s.books) && Counted(w, s.natAdd, s.natRemove, s.books.lookup)
    requires a !in s.mem && n.FlowPkt? && FlowOk(w.ts, n) && n.idx == 0 && n.flowId == s.books.nextId
    requires n.learn == (if w.learnMode && w.ts[n.tmpl].TwoWay() then First else Plain)
    requires n.learn.First? ==> ShortFid(n.flowId) !in s.books.lookup
    requires !s.books.draining
    requires NoDup(n.Ports()) && PortSet(n.Ports()) == loose
    ensures Ready(w, Born(w, s, loose, a, n))
    ensures TotalWork(w.ts, pass, Born(w, s, loose, a, n).mem) == TotalWork(w.ts, pass, s.mem) + Work(w.ts, pass, n)
  {
    hide TotalWork, Owned, StaffOk, Flows, Work, BooksOk, PortsKept, NoDup, PortSet, TemplatesOk, Counted, FlowOk;
    WorkAdded(w.ts, pass, s.mem, a, n);
    BornBooks(w, s, loose, a, n);
    OwnedNew(s.mem, s.queue, s.tcpDpc, s.udpDpc, a, n);
    StaffSet(s.mem, s.staff, a, n);
    PortsAdopted(s.mem, s.ports.holder, s.ports.issued, s.ports.freed, loose, a, n);
  }

  /** All that a start changes in the pool, the books and the counts of the table. */
  lemma BornIs(w: World, s: State, loose: set<Port>, a: Addr, n: Node)
    requires n.FlowPkt? && n.tmpl < |w.ts| && n.flowId == s.books.nextId
    ensures
      var s', b := Born(w, s, loose, a, n), s.books;
      && s'.mem == s.mem[a := n] && s'.natRemove == s.natRemove
      && s'.natAdd == (if n.learn.First? then s.natAdd + 1 else s.natAdd)
      && s'.books == b.(
           lookup := if n.learn.First? then b.lookup[ShortFid(n.flowId) := a] else b.lookup,
           associated := if n.learn.First? then b.associated + {n.flowId} else b.associated,
           life := b.life[n.flowId := Life(n.tmpl, n.time, 0, 0, Some(a))],
           played := b.played[n.flowId := []],
           openFlows := b.openFlows + w.ts[n.tmpl].totalFlows,
           nextId := b.nextId + 1)
  {
  }

  /** The books and the table know the new flow. */
  lemma BornBooks(w: World, s: State, loose: set<Port>, a: Addr, n: Node)
    requires TemplatesOk(w.ts)
    requires BooksOk(w, Flows(s.mem), s.books) && Counted(w, s.natAdd, s.natRemove, s.books.lookup)
    requires a !in s.mem && n.FlowPkt? && FlowOk(w.ts, n) && n.idx == 0 && n.flowId == s.books.nextId
    requires n.learn == (if w.learnMode && w.ts[n.tmpl].TwoWay() then First else Plain)
    requires n.learn.First? ==> ShortFid(n.flowId) !in s.books.lookup
    requires !s.books.draining
    ensures
      var s' := Born(w, s, loose, a, n);
      BooksOk(w, Flows(s'.mem), s'.books) && Counted(w, s'.natAdd, s'.natRemove, s'.books.lookup)
  {
    hide Flows, BooksOk, TemplatesOk, Counted, FlowOk, Template.TwoWay, ShortFid, Born;
    FlowOkMeans(w.ts, n);
    BornIs(w, s, loose, a, n);
    NotAFlow(s.mem, a);
    BornKeeps(w, Flows(s.mem), s.books, a, n);
    FlowChange(s.mem, a, n);
    if n.learn.First? {
      CountedAdd(w, s.natAdd, s.natRemove, s.books.lookup, ShortFid(n.flowId), a);
    }
  }

  /** A flow that is to learn its translation is put in the table, under its short id. */
  ghost function Associated(s: State, a: Addr, n: Node): State
    requires n.FlowPkt?
  {
    var b := s.books;
    if n.learn.First? then
      s.(natAdd := s.natAdd + 1,
         books := b.(lookup := b.lookup[ShortFid(n.flowId) := a], associated := b.associated + {n.flowId}))
    else s
  }

  ghost function Recorded(s: State, loose: set<Port>, a: Addr, n: Node): State
    requires n.FlowPkt?
  {
    var b := s.books;
    s.(ports := s.ports.(holder := s.ports.holder + HeldBy(loose, a)),
       books := b.(life := b.life[n.flowId := Life(n.tmpl, n.time, 0, 0, Some(a))], played := b.played[n.flowId := []]))
  }

  ghost function Opened(w: World, s: State, a: Addr, n: Node): State
    requires n.FlowPkt? && n.tmpl < |w.ts|
  {
    s.(queue := s.queue + {a},
       books := s.books.(openFlows := s.books.openFlows + w.ts[n.tmpl].totalFlows, nextId := s.books.nextId + 1))
  }

  /** The node `n` of a new flow has been allocated at `a`, put in the books and queued. */
  ghost function Born(w: World, s: State, loose: set<Port>, a: Addr, n: Node): State
    requires n.FlowPkt? && n.tmpl < |w.ts|
  {
    Opened(w, Recorded(Associated(s.(mem := s.mem[a := n]), a, n), loose, a, n), a, n)
  }

  lemma NotAFlow(mem: Memory, a: Addr)
    requires a !in mem
    ensures a !in Flows(mem)
  {
  }

  // ----- the first pass ends -----

  lemma DrainReady(w: World, s: State)
    requires Ready(w, s) && forall a | a in s.queue && a in s.mem :: s.books.stop <= s.mem[a].time
    ensures Ready(w, s.(books := s.books.(draining := true)))
  {
    hide Owned, StaffOk, PortsKept, BooksOk, TemplatesOk, Counted;
    forall a | a in Flows(s.mem)
      ensures s.books.stop <= Flows(s.mem)[a].time
    {
      FlowsQueued(s, a);
    }
    DrainKeeps(w, Flows(s.mem), s.books);
  }

  // ----- nodes without a flow -----

  /** A batch, queued or still being filled, has been released. */
  lemma BatchGone(w: World, pass: Pass, s: State, s': State, a: Addr)
    requires Ready(w, s) && a in s.mem && s.mem[a].DeferPort?
    requires s'.mem == s.mem - {a} && s'.queue == s.queue - {a}
    requires s'.tcpDpc == if s.tcpDpc == Some(a) then None else s.tcpDpc
    requires s'.udpDpc == if s.udpDpc == Some(a) then None else s.udpDpc
    requires s'.books == s.books && s'.natAdd == s.natAdd && s'.natRemove == s.natRemove && s'.staff == s.staff
    requires PortsOk(s', s'.mem, {})
    ensures Ready(w, s') && Undisturbed(s, s')
    ensures TotalWork(w.ts, pass, s'.mem) < TotalWork(w.ts, pass, s.mem) && Flows(s'.mem) == Flows(s.mem)
  {
    hide TotalWork, Owned, StaffOk, Flows, PortsKept, BooksOk, TemplatesOk, Counted, Drivers, Births;
    WorkRemoved(w.ts, pass, s.mem, a);
    OwnedLess(s.mem, s.queue, s.tcpDpc, s.udpDpc, a);
    StaffGone(s.mem, s.staff, a);
    NonFlowChange(s.mem, a, s.mem[a]);
    DriversSame(s.mem, a, s.mem[a]);
  }

  /** A driving node is rescheduled at another time. */
  lemma DriverMoved(w: World, pass: Pass, s: State, a: Addr, n: Node)
    requires Ready(w, s) && a in s.queue && a in s.mem
    requires (s.mem[a].Tick? && n.Tick?) || (s.mem[a].Sync? && n.Sync?)
    ensures
      var s' := s.(mem := s.mem[a := n]);
      Ready(w, s') && TotalWork(w.ts, pass, s'.mem) == TotalWork(w.ts, pass, s.mem)
  {
    hide TotalWork, Owned, StaffOk, Flows, PortsKept, BooksOk, TemplatesOk, Counted;
    StaffMoved(s.mem, s.staff, a, n);
    WorkChanged(w.ts, pass, s.mem, a, n);
    OwnedSet(s.mem, s.queue, s.tcpDpc, s.udpDpc, a, n);
    NonFlowChange(s.mem, a, n);
    PortsSame(s.mem, s.ports.holder, s.ports.issued, s.ports.freed, {}, a, n);
  }

  /** A driving node is taken off the queue and goes back to the pool. */
  lemma DriverGone(w: World, pass: Pass, s: State, a: Addr)
    requires Ready(w, s) && a in s.queue && a in s.mem
    requires s.mem[a].Tick? || s.mem[a].Sync? || s.mem[a].Exit?
    ensures
      var s' := s.(mem := s.mem - {a}, queue := s.queue - {a}, staff := StaffWithout(s.staff, a));
      Ready(w, s') && TotalWork(w.ts, pass, s'.mem) == TotalWork(w.ts, pass, s.mem) - Work(w.ts, pass, s.mem[a])
  {
    hide TotalWork, Owned, StaffOk, Flows, PortsKept, BooksOk, TemplatesOk, Work, Counted, StaffWithout;
    StaffLess(s.mem, s.staff, a);
    WorkRemoved(w.ts, pass, s.mem, a);
    OwnedPop(s.mem, s.queue, s.tcpDpc, s.udpDpc, a);
    OwnedGone(s.mem, s.queue - {a}, s.tcpDpc, s.udpDpc, a);
    NonFlowChange(s.mem, a, s.mem[a]);
    PortsEmptyNodeGone(s.mem, s.ports.holder, s.ports.issued, s.ports.freed, {}, a);
  }

  /** A driving node is added to the queue. */
  lemma DriverAdded(w: World, s: State, a: Addr, n: Node)
    requires Ready(w, s) && a !in s.mem
    requires (n.Tick? && s.staff.tick == None) || (n.Sync? && s.staff.sync == None) || (n.Exit? && s.staff.exit == None)
    ensures
      Ready(w, s.(mem := s.mem[a := n], queue := s.queue + {a}, staff := StaffWith(s.staff, a, n)))
  {
    hide Owned, StaffOk, Flows, PortsKept, BooksOk, TemplatesOk, Counted, StaffWith;
    StaffMore(s.mem, s.staff, a, n);
    OwnedNew(s.mem, s.queue, s.tcpDpc, s.udpDpc, a, n);
    NonFlowChange(s.mem, a, n);
    PortsSame(s.mem, s.ports.holder, s.ports.issued, s.ports.freed, {}, a, n);
  }

  // ----- the driving nodes during a pass -----

  /** What the event loop knows about the driving nodes: the sync node is always queued; the exit node
      ends the first pass and is absent from the second; the next flow start lies after `lastTick`. */
  ghost predicate DriversOk(drv: Memory, st: Staff, lastTick: real, pass: Pass) {
    && st.sync.Some? && st.sync.value in drv && drv[st.sync.value].Sync?
    && (st.tick.Some? ==> TickOk(drv, st.tick.value, lastTick))
    && (if pass.draining then st.exit.None?
        else st.exit.Some? && st.exit.value in drv && drv[st.exit.value] == Exit(pass.until))
  }

  ghost predicate TickOk(drv: Memory, a: Addr, lastTick: real) {
    a in drv && drv[a].Tick? && 0.0 < drv[a].time && lastTick <= drv[a].time
  }

  /** The time of the sync node. */
  ghost function SyncTime(drv: Memory, st: Staff): real {
    if st.sync.Some? && st.sync.value in drv then drv[st.sync.value].time else 0.0
  }

  /** How many flow starts can still come before the end of the first pass, at one every `d` seconds. */
  ghost function TicksLeft(drv: Memory, st: Staff, pass: Pass, d: real): (ticks: real)
    requires d > 0.0
    ensures ticks >= 0.0
  {
    if !pass.draining && st.tick.Some? && st.tick.value in drv then StartsLeft(pass.until, drv[st.tick.value].time, d)
    else 0.0
  }

  ghost function StartsLeft(until: real, t: real, d: real): (starts: real)
    requires d > 0.0
    ensures starts >= 0.0
  {
    if t > until then 0.0
    else
      RatioNonNegative(until - t, d);
      (until - t) / d + 1.0
  }

  lemma StartSpent(until: real, t: real, d: real)
    requires d > 0.0 && t <= until
    ensures StartsLeft(until, t + d, d) <= StartsLeft(until, t, d) - 1.0
  {
    RatioStep(until - t, d);
    RatioNonNegative(until - t, d);
    assert until - (t + d) == until - t - d;
  }

  /** Either the flow starts left go down, or they stay and the other work goes down. */
  ghost predicate Progressed(ticks: real, work: nat, ticks': real, work': nat) {
    ticks' <= ticks - 1.0 || (ticks' == ticks && work' < work)
  }

  lemma TickGone(drv: Memory, st: Staff, pass: Pass, d: real, a: Addr, lastTick: real, lastTick': real)
    requires DriversOk(drv, st, lastTick, pass) && st.tick == Some(a) && a in drv && drv[a].Tick? && d > 0.0
    requires !pass.draining ==> drv[a].time <= pass.until
    ensures DriversOk(drv - {a}, StaffWithout(st, a), lastTick', pass)
    ensures SyncTime(drv - {a}, StaffWithout(st, a)) == SyncTime(drv, st)
    ensures
      var ticks, ticks' := TicksLeft(drv, st, pass, d), TicksLeft(drv - {a}, StaffWithout(st, a), pass, d);
      if pass.draining then ticks' == ticks else ticks' <= ticks - 1.0
  {
    if !pass.draining {
      StartSpent(pass.until, drv[a].time, d);
    }
  }

  lemma TickMoved(drv: Memory, st: Staff, pass: Pass, d: real, a: Addr, lastTick: real, lastTick': real)
    requires DriversOk(drv, st, lastTick, pass) && st.tick == Some(a) && a in drv && drv[a].Tick? && d > 0.0
    requires !pass.draining && drv[a].time <= pass.until && lastTick' <= drv[a].time
    ensures
      var drv' := drv[a := Tick(drv[a].time + d)];
      && DriversOk(drv', st, lastTick', pass) && SyncTime(drv', st) == SyncTime(drv, st)
      && TicksLeft(drv', st, pass, d) <= TicksLeft(drv, st, pass, d) - 1.0
  {
    StartSpent(pass.until, drv[a].time, d);
  }

  lemma DriverAt(s: State, a: Addr)
    requires StaffOk(s.mem, s.staff) && a in s.mem && Driving(s.mem[a])
    ensures a in Drivers(s.mem) && Drivers(s.mem)[a] == s.mem[a]
    ensures s.mem[a].Tick? ==> s.staff.tick == Some(a) && s.staff.sync != Some(a) && s.staff.exit != Some(a)
    ensures s.mem[a].Sync? ==> s.staff.sync == Some(a) && s.staff.tick != Some(a) && s.staff.exit != Some(a)
    ensures s.mem[a].Exit? ==> s.staff.exit == Some(a) && s.staff.sync != Some(a) && s.staff.tick != Some(a)
  {
  }

  lemma DriversSet(mem: Memory, a: Addr, n: Node)
    ensures Driving(n) ==> Drivers(mem[a := n]) == Drivers(mem)[a := n]
    ensures Drivers(mem - {a}) == Drivers(mem) - {a}
  {
  }
}
