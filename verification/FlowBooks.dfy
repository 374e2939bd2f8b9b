/** What must hold of the live flows of a thread: the lookup table of flows waiting for their
    translation, the learning protocol, and the faithful replay of templates. */
module FlowBooks {
  import opened Templates
  import opened Nodes
  import opened Wrappers
  import opened Sums

  /** The live flows among the nodes. */
  ghost function Flows(live: Memory): (fl: Memory)
    ensures forall a | a in fl :: fl[a].FlowPkt?
    ensures forall a :: a in fl <==> a in live && live[a].FlowPkt?
    ensures forall a | a in fl :: fl[a] == live[a]
  {
    map a | a in live && live[a].FlowPkt? :: live[a]
  }

  lemma NonFlowChange(live: Memory, a: Addr, n: Node)
    requires !n.FlowPkt? && (a in live ==> !live[a].FlowPkt?)
    ensures Flows(live[a := n]) == Flows(live)
    ensures Flows(live - {a}) == Flows(live)
  {
  }

  lemma FlowChange(live: Memory, a: Addr, n: Node)
    requires n.FlowPkt?
    ensures Flows(live[a := n]) == Flows(live)[a := n]
  {
  }

  lemma FlowGone(live: Memory, a: Addr)
    ensures Flows(live - {a}) == Flows(live) - {a}
  {
  }

  /** A node that may stand in the pool of a thread with these templates. */
  ghost predicate FlowOk(ts: seq<Template>, n: Node)
    requires n.FlowPkt?
  {
    && n.tmpl < |ts| && n.idx < ts[n.tmpl].Size()
    && (n.Waiting() ==> ts[n.tmpl].TwoWay() && ts[n.tmpl].InitPrefix(n.idx))
    && (n.learn.First? ==> n.idx == 0)
    && |n.extra| == (if UsesRtp(ts[n.tmpl].plugin) then 2 else 0)
    && (ts[n.tmpl].limitSet ==> ts[n.tmpl].restart > 0.0)
  }

  /** The RTSP and SIP plugins take two more client ports per flow. */
  predicate UsesRtp(plugin: nat) { plugin == 1 || plugin == 2 }

  ghost predicate AllFlows(fl: Memory) { forall a | a in fl :: fl[a].FlowPkt? }

  ghost predicate FlowsOk(ts: seq<Template>, fl: Memory)
    requires AllFlows(fl)
  {
    forall a | a in fl :: FlowOk(ts, fl[a])
  }

  /** A flow still waiting never stands at its last packet with only initiator packets ahead: some
      responder packet comes first. */
  lemma WaitingMeetsResponder(ts: seq<Template>, n: Node)
    requires TemplatesOk(ts) && n.FlowPkt? && FlowOk(ts, n) && n.Waiting()
    ensures ts[n.tmpl].packets[n.idx].last ==> !ts[n.tmpl].packets[n.idx].init
  {
    var t := ts[n.tmpl];
    assert t.Valid() && t.Answers();
  }

  // ----- the fid -> node table -----

  /** The table holds exactly the live flows that are waiting, each under its own short id. */
  ghost predicate LookupExact(fl: Memory, lookup: map<Fid, Addr>)
    requires AllFlows(fl)
  {
    && (forall f | f in lookup :: lookup[f] in fl && fl[lookup[f]].Waiting() && ShortFid(fl[lookup[f]].flowId) == f)
    && (forall a | a in fl && fl[a].Waiting() ::
      ShortFid(fl[a].flowId) in lookup && lookup[ShortFid(fl[a].flowId)] == a)
  }

  lemma LookupSame(fl: Memory, lookup: map<Fid, Addr>, a: Addr, n: Node)
    requires AllFlows(fl) && LookupExact(fl, lookup) && n.FlowPkt?
    requires if a in fl then fl[a].Waiting() == n.Waiting() && fl[a].flowId == n.flowId else !n.Waiting()
    ensures LookupExact(fl[a := n], lookup)
  {
  }

  lemma LookupAdd(fl: Memory, lookup: map<Fid, Addr>, a: Addr, n: Node)
    requires AllFlows(fl) && LookupExact(fl, lookup) && n.FlowPkt? && n.Waiting()
    requires a !in fl && ShortFid(n.flowId) !in lookup
    ensures LookupExact(fl[a := n], lookup[ShortFid(n.flowId) := a])
  {
  }

  /** Learning a translation takes the flow out of the table and off the waiting list. */
  lemma LookupLearn(fl: Memory, lookup: map<Fid, Addr>, f: Fid, n: Node)
    requires AllFlows(fl) && LookupExact(fl, lookup) && f in lookup
    requires n.FlowPkt? && !n.Waiting()
    ensures LookupExact(fl[lookup[f] := n], lookup - {f})
  {
  }

  lemma LookupDrop(fl: Memory, lookup: map<Fid, Addr>, a: Addr)
    requires AllFlows(fl) && LookupExact(fl, lookup) && a in fl
    ensures LookupExact(fl - {a}, if fl[a].Waiting() then lookup - {ShortFid(fl[a].flowId)} else lookup)
  {
  }

  // ----- learning -----

  /** `tagged` is the set of flows whose tagged packet was sent, `associated` the set of flows that
      were ever put in the table, `xlate` the translation the device gives each flow. */
  ghost predicate LearnOk(n: Node, tagged: set<FlowId>, associated: set<FlowId>, xlate: FlowId -> Ext)
    requires n.FlowPkt?
  {
    match n.learn
    case Plain => n.flowId !in associated
    case First => n.flowId in associated && n.flowId !in tagged && Newest(n.flowId, associated)
    case Wait => n.flowId in tagged && n.flowId in associated && Newest(n.flowId, associated)
    case Learned(ext) => n.flowId in associated && ext == xlate(n.flowId)
  }

  /** No flow associated later shares the short id of `f`. */
  ghost predicate Newest(f: FlowId, associated: set<FlowId>) {
    forall g | g in associated && ShortFid(g) == ShortFid(f) :: g <= f
  }

  ghost predicate LearningOk(fl: Memory, tagged: set<FlowId>, associated: set<FlowId>, xlate: FlowId -> Ext)
    requires AllFlows(fl)
  {
    forall a | a in fl :: LearnOk(fl[a], tagged, associated, xlate)
  }

  // ----- replay -----

  datatype Life = Life(tmpl: nat, start: real, rounds: nat, at: nat, home: Option<Addr>)

  /** One packet as it left the scheduler: whether it was handed to the wire, what its node had
      learned by then, and whether the thread was draining. */
  datatype Played = Played(index: nat, time: real, sent: bool, learn: Learning, drained: bool)

  /** One more packet of flow `f` was played. */
  ghost function Logged(played: map<FlowId, seq<Played>>, f: FlowId, p: Played): map<FlowId, seq<Played>> {
    if f in played then played[f := played[f] + [p]] else played
  }

  ghost function Times(ps: seq<Played>): (es: seq<Emission>)
    ensures |es| == |ps|
  {
    seq(|ps|, i requires 0 <= i < |ps| => Emission(ps[i].index, ps[i].time))
  }

  lemma TimesAppend(ps: seq<Played>, p: Played)
    ensures Times(ps + [p]) == Times(ps) + [Emission(p.index, p.time)]
  {
  }

  ghost predicate LifeOk(ts: seq<Template>, l: Life, ps: seq<Played>)
    requires TemplatesOk(ts)
  {
    && l.tmpl < |ts| && l.at <= ts[l.tmpl].Size()
    && Times(ps) == ts[l.tmpl].Schedule(l.start, l.rounds, l.at)
    && (l.home.None? ==> Finished(ts[l.tmpl], l.at))
  }

  /** A flow ends after its last packet, or at its first responder packet when it never learned. */
  ghost predicate Finished(t: Template, at: nat)
    requires at <= t.Size()
  {
    at == t.Size() || (t.InitPrefix(at) && !t.packets[at].init)
  }

  ghost predicate Homes(ts: seq<Template>, fl: Memory, life: map<FlowId, Life>)
    requires TemplatesOk(ts) && AllFlows(fl) && FlowsOk(ts, fl)
  {
    && (forall a | a in fl :: AtHome(ts, fl[a], a, life))
    && (forall f | f in life && life[f].home.Some? :: life[f].home.value in fl && fl[life[f].home.value].flowId == f)
  }

  ghost predicate AtHome(ts: seq<Template>, n: Node, a: Addr, life: map<FlowId, Life>)
    requires TemplatesOk(ts) && n.FlowPkt? && FlowOk(ts, n)
  {
    && n.flowId in life
    && var l := life[n.flowId];
    && l.home == Some(a) && l.tmpl == n.tmpl && l.at == n.idx
    && n.time == ts[n.tmpl].Due(l.start, l.rounds, n.idx)
  }

  ghost predicate Replay(ts: seq<Template>, fl: Memory, life: map<FlowId, Life>, played: map<FlowId, seq<Played>>)
    requires TemplatesOk(ts) && AllFlows(fl) && FlowsOk(ts, fl)
  {
    && Homes(ts, fl, life)
    && life.Keys == played.Keys
    && (forall f | f in life :: LifeOk(ts, life[f], played[f]))
  }

  /** Only the learning state of a node changes. */
  lemma ReplaySame(ts: seq<Template>, fl: Memory, life: map<FlowId, Life>, played: map<FlowId, seq<Played>>, a: Addr,
                   n: Node)
    requires TemplatesOk(ts) && AllFlows(fl) && FlowsOk(ts, fl) && Replay(ts, fl, life, played)
    requires a in fl && n.FlowPkt? && FlowOk(ts, n)
    requires n == fl[a].(learn := n.learn)
    ensures Replay(ts, fl[a := n], life, played)
  {
  }

  lemma ReplayBorn(ts: seq<Template>, fl: Memory, life: map<FlowId, Life>, played: map<FlowId, seq<Played>>, a: Addr,
                   n: Node)
    requires TemplatesOk(ts) && AllFlows(fl) && FlowsOk(ts, fl) && Replay(ts, fl, life, played)
    requires a !in fl && n.FlowPkt? && FlowOk(ts, n) && n.idx == 0 && n.flowId !in life
    ensures Replay(ts, fl[a := n], life[n.flowId := Life(n.tmpl, n.time, 0, 0, Some(a))], played[n.flowId := []])
  {
    var l := Life(n.tmpl, n.time, 0, 0, Some(a));
    assert Times([]) == [];
    assert LifeOk(ts, l, []);
    assert AtHome(ts, n, a, life[n.flowId := l]);
  }

  lemma LifeAppend(ts: seq<Template>, l: Life, ps: seq<Played>, p: Played)
    requires TemplatesOk(ts) && LifeOk(ts, l, ps) && l.home.Some? && l.at < ts[l.tmpl].Size()
    requires p.index == l.at && p.time == ts[l.tmpl].Due(l.start, l.rounds, l.at)
    ensures l.at + 1 < ts[l.tmpl].Size() ==> LifeOk(ts, l.(at := l.at + 1), ps + [p])
    ensures l.at + 1 == ts[l.tmpl].Size() ==>
      && LifeOk(ts, l.(at := l.at + 1, home := None), ps + [p])
      && LifeOk(ts, l.(rounds := l.rounds + 1, at := 0), ps + [p])
  {
    TimesAppend(ps, p);
    assert ts[l.tmpl].Valid();
  }

  /** The node has emitted packet `p` and moves on to the next packet of the round. */
  lemma ReplayAdvance(ts: seq<Template>, fl: Memory, life: map<FlowId, Life>, played: map<FlowId, seq<Played>>,
                      a: Addr, n: Node, p: Played)
    requires TemplatesOk(ts) && AllFlows(fl) && FlowsOk(ts, fl) && Replay(ts, fl, life, played)
    requires a in fl && n.FlowPkt? && FlowOk(ts, n)
    requires p.index == fl[a].idx && p.time == fl[a].time
    requires n.flowId == fl[a].flowId && n.tmpl == fl[a].tmpl && n.idx == fl[a].idx + 1
    requires n.time == fl[a].time + ts[n.tmpl].Gap(fl[a].idx)
    ensures n.flowId in life && n.flowId in played
    ensures
      var f := n.flowId;
      Replay(ts, fl[a := n], life[f := life[f].(at := n.idx)], played[f := played[f] + [p]])
  {
    hide Template.Schedule, Template.RoundStart, Template.Offset, Times;
    var f := n.flowId;
    assert AtHome(ts, fl[a], a, life);
    LifeAppend(ts, life[f], played[f], p);
    NextDue(ts[n.tmpl], life[f].start, life[f].rounds, p.index);
    HomesSet(ts, fl, life, a, n, life[f].(at := n.idx));
  }

  /** The node has emitted the last packet `p` of a round and starts the next round. */
  lemma ReplayRepeat(ts: seq<Template>, fl: Memory, life: map<FlowId, Life>, played: map<FlowId, seq<Played>>,
                     a: Addr, n: Node, p: Played)
    requires TemplatesOk(ts) && AllFlows(fl) && FlowsOk(ts, fl) && Replay(ts, fl, life, played)
    requires a in fl && n.FlowPkt? && FlowOk(ts, n)
    requires p.index == fl[a].idx && p.time == fl[a].time
    requires n.flowId == fl[a].flowId && n.tmpl == fl[a].tmpl && n.idx == 0
    requires fl[a].idx + 1 == ts[n.tmpl].Size() && n.time == fl[a].time + ts[n.tmpl].restart
    ensures n.flowId in life && n.flowId in played
    ensures
      var f := n.flowId;
      Replay(ts, fl[a := n], life[f := life[f].(rounds := life[f].rounds + 1, at := 0)], played[f := played[f] + [p]])
  {
    hide Template.Schedule, Template.RoundStart, Template.Offset, Times;
    var f := n.flowId;
    assert AtHome(ts, fl[a], a, life);
    var l := life[f];
    LifeAppend(ts, l, played[f], p);
    NextRoundDue(ts[n.tmpl], l.start, l.rounds);
    HomesSet(ts, fl, life, a, n, l.(rounds := l.rounds + 1, at := 0));
  }

  lemma HomesSet(ts: seq<Template>, fl: Memory, life: map<FlowId, Life>, a: Addr, n: Node, l: Life)
    requires TemplatesOk(ts) && AllFlows(fl) && FlowsOk(ts, fl) && Homes(ts, fl, life)
    requires a in fl && n.FlowPkt? && FlowOk(ts, n) && n.flowId == fl[a].flowId
    requires l.home == Some(a) && l.tmpl == n.tmpl && l.at == n.idx
    requires n.time == ts[n.tmpl].Due(l.start, l.rounds, n.idx)
    ensures Homes(ts, fl[a := n], life[n.flowId := l])
  {
    forall b | b in fl && b != a
      ensures AtHome(ts, fl[b], b, life[n.flowId := l])
    {
      assert AtHome(ts, fl[b], b, life);
      assert AtHome(ts, fl[a], a, life);
    }
  }

  lemma HomesGone(ts: seq<Template>, fl: Memory, life: map<FlowId, Life>, a: Addr, l: Life)
    requires TemplatesOk(ts) && AllFlows(fl) && FlowsOk(ts, fl) && Homes(ts, fl, life)
    requires a in fl && l.home == None
    ensures Homes(ts, fl - {a}, life[fl[a].flowId := l])
  {
    assert AtHome(ts, fl[a], a, life);
    forall b | b in fl && b != a
      ensures AtHome(ts, fl[b], b, life[fl[a].flowId := l])
    {
      assert AtHome(ts, fl[b], b, life);
    }
  }

  /** A flow ends, after its last packet `p` or without one. */
  lemma ReplayEnd(ts: seq<Template>, fl: Memory, life: map<FlowId, Life>, played: map<FlowId, seq<Played>>,
                  a: Addr, ps: seq<Played>)
    requires TemplatesOk(ts) && AllFlows(fl) && FlowsOk(ts, fl) && Replay(ts, fl, life, played)
    requires a in fl && |ps| <= 1
    requires ps == [] ==> Finished(ts[fl[a].tmpl], fl[a].idx)
    requires |ps| == 1 ==>
      fl[a].idx + 1 == ts[fl[a].tmpl].Size() && ps[0].index == fl[a].idx && ps[0].time == fl[a].time
    ensures fl[a].flowId in life && fl[a].flowId in played
    ensures
      var f := fl[a].flowId;
      Replay(ts, fl - {a}, life[f := life[f].(at := fl[a].idx + |ps|, home := None)], played[f := played[f] + ps])
  {
    hide Template.Schedule, Template.RoundStart, Template.Offset, Times;
    var n, f := fl[a], fl[a].flowId;
    assert AtHome(ts, n, a, life);
    var l := life[f];
    if ps == [] {
      assert played[f] + ps == played[f];
    } else {
      LifeAppend(ts, l, played[f], ps[0]);
      assert ps == [ps[0]];
    }
    var l' := l.(at := n.idx + |ps|, home := None);
    assert LifeOk(ts, l', played[f] + ps);
    HomesGone(ts, fl, life, a, l');
  }

  // ----- what is sent, and in which pass -----

  /** Before the time `stop` every packet is sent. When draining, the packets of repeating flows are
      held back, unless the flow still waits for its translation. */
  ghost predicate PassOk(t: Template, p: Played, stop: real) {
    && (p.sent <==> !t.limitSet || !p.drained || p.learn.Wait?)
    && (if p.drained then stop <= p.time else p.time <= stop)
  }

  /** The packets played while draining come last and belong to the last round. A flow that repeats
      does so until the thread drains; one that does not plays one round. */
  ghost predicate PassesOk(t: Template, l: Life, ps: seq<Played>, draining: bool, stop: real) {
    && (forall k | 0 <= k < |ps| :: PassOk(t, ps[k], stop))
    && (forall j, k | 0 <= j < k < |ps| && ps[j].drained :: ps[k].drained)
    && (forall k | 0 <= k < |ps| && ps[k].drained :: draining && Rounds(t, l.rounds) <= k)
    && (!t.limitSet ==> l.rounds == 0)
    && (l.home.None? && l.at == t.Size() && t.limitSet ==> ps != [] && ps[|ps| - 1].drained)
  }

  /** How many packets so many whole rounds have. */
  ghost function Rounds(t: Template, rounds: nat): nat { rounds * t.Size() }

  lemma PassesAppend(ts: seq<Template>, l: Life, ps: seq<Played>, p: Played, draining: bool, stop: real)
    requires TemplatesOk(ts) && LifeOk(ts, l, ps) && l.home.Some?
    requires PassesOk(ts[l.tmpl], l, ps, draining, stop)
    requires p.drained == draining && PassOk(ts[l.tmpl], p, stop)
    ensures PassesOk(ts[l.tmpl], l.(at := l.at + 1), ps + [p], draining, stop)
    ensures ts[l.tmpl].limitSet && !draining ==>
      PassesOk(ts[l.tmpl], l.(rounds := l.rounds + 1, at := 0), ps + [p], draining, stop)
    ensures !ts[l.tmpl].limitSet || draining ==>
      PassesOk(ts[l.tmpl], l.(at := l.at + 1, home := None), ps + [p], draining, stop)
  {
    hide Template.Schedule, PassOk, Finished;
    PlayedSoFar(ts, l, ps);
  }

  lemma PlayedSoFar(ts: seq<Template>, l: Life, ps: seq<Played>)
    requires TemplatesOk(ts) && LifeOk(ts, l, ps)
    ensures |ps| == Rounds(ts[l.tmpl], l.rounds) + l.at
  {
    hide Template.Schedule, Template.InitPrefix;
    assert ts[l.tmpl].Valid();
    ts[l.tmpl].ScheduleLength(l.start, l.rounds, l.at);
  }

  // ----- open and closed flows -----

  ghost function FlowWeights(ts: seq<Template>, fl: Memory): map<nat, nat>
    requires AllFlows(fl) && FlowsOk(ts, fl)
  {
    map a | a in fl :: ts[fl[a].tmpl].totalFlows
  }

  lemma WeightSame(ts: seq<Template>, fl: Memory, a: Addr, n: Node)
    requires AllFlows(fl) && FlowsOk(ts, fl) && a in fl && n.FlowPkt? && FlowOk(ts, n) && n.tmpl == fl[a].tmpl
    ensures FlowWeights(ts, fl[a := n]) == FlowWeights(ts, fl)
  {
  }

  lemma WeightBorn(ts: seq<Template>, fl: Memory, a: Addr, n: Node)
    requires AllFlows(fl) && FlowsOk(ts, fl) && a !in fl && n.FlowPkt? && FlowOk(ts, n)
    ensures Sum(FlowWeights(ts, fl[a := n])) == Sum(FlowWeights(ts, fl)) + ts[n.tmpl].totalFlows
  {
    assert FlowWeights(ts, fl[a := n]) == FlowWeights(ts, fl)[a := ts[n.tmpl].totalFlows];
    SumInsert(FlowWeights(ts, fl), a, ts[n.tmpl].totalFlows);
  }

  lemma WeightGone(ts: seq<Template>, fl: Memory, a: Addr)
    requires AllFlows(fl) && FlowsOk(ts, fl) && a in fl
    ensures Sum(FlowWeights(ts, fl)) == Sum(FlowWeights(ts, fl - {a})) + ts[fl[a].tmpl].totalFlows
  {
    SumSplit(FlowWeights(ts, fl), a);
    assert FlowWeights(ts, fl) - {a} == FlowWeights(ts, fl - {a});
  }

  // ----- all books of a thread together, and what each event does to them -----

  datatype Books = Books(
    lookup: map<Fid, Addr>, tagged: set<FlowId>, associated: set<FlowId>,
    life: map<FlowId, Life>, played: map<FlowId, seq<Played>>,
    openFlows: nat, closedFlows: nat, nextId: FlowId,
    draining: bool, stop: real)

  /** The fixed surroundings of a run: the templates, how the device translates each flow, and
      whether translations are to be learned. */
  datatype World = World(ts: seq<Template>, xlate: FlowId -> Ext, learnMode: bool)

  /** Every responder packet of an associated flow was sent with the flow's translation in its
      node. */
  ghost predicate Translated(w: World, b: Books) {
    forall f, k | f in b.associated && f in b.life && f in b.played
                  && b.life[f].tmpl < |w.ts| && 0 <= k < |b.played[f]| ::
      TranslatedPacket(w, f, b.life[f].tmpl, b.played[f][k])
  }

  ghost predicate TranslatedPacket(w: World, f: FlowId, tmpl: nat, p: Played)
    requires tmpl < |w.ts|
  {
    p.index < w.ts[tmpl].Size() && !w.ts[tmpl].packets[p.index].init ==> p.learn == Learned(w.xlate(f))
  }

  ghost predicate Passes(w: World, b: Books) {
    forall f | f in b.life && f in b.played && b.life[f].tmpl < |w.ts| ::
      && PassesOk(w.ts[b.life[f].tmpl], b.life[f], b.played[f], b.draining, b.stop)
      && (GivenUp(w.ts[b.life[f].tmpl], b.life[f]) ==> f in b.associated)
  }

  /** The flow has ended without its last packet. */
  ghost predicate GivenUp(t: Template, l: Life) {
    l.home.None? && l.at < t.Size()
  }

  /** Once the thread drains, nothing that is due lies before the end of the first pass. */
  ghost predicate DueLater(fl: Memory, draining: bool, stop: real) {
    draining ==> forall a | a in fl :: stop <= fl[a].time
  }

  /** In learn mode the flows of two-way templates, and only these, were put in the table. */
  ghost predicate TwoWayAssociated(w: World, life: map<FlowId, Life>, associated: set<FlowId>) {
    forall f | f in life && life[f].tmpl < |w.ts| :: f in associated <==> w.learnMode && w.ts[life[f].tmpl].TwoWay()
  }

  ghost predicate BooksOk(w: World, fl: Memory, b: Books) {
    && TemplatesOk(w.ts) && AllFlows(fl) && FlowsOk(w.ts, fl)
    && LookupExact(fl, b.lookup)
    && LearningOk(fl, b.tagged, b.associated, w.xlate)
    && Replay(w.ts, fl, b.life, b.played)
    && b.openFlows == b.closedFlows + Sum(FlowWeights(w.ts, fl))
    && b.tagged <= b.associated <= b.life.Keys && TwoWayAssociated(w, b.life, b.associated)
    && (forall f | f in b.life :: f < b.nextId)
    && Translated(w, b)
    && Passes(w, b) && DueLater(fl, b.draining, b.stop)
  }

  /** A flow starts; in learn mode a two-way flow is put in the table. */
  lemma BornKeeps(w: World, fl: Memory, b: Books, a: Addr, n: Node)
    requires BooksOk(w, fl, b)
    requires a !in fl && n.FlowPkt? && FlowOk(w.ts, n) && n.idx == 0 && n.flowId == b.nextId
    requires n.learn == (if w.learnMode && w.ts[n.tmpl].TwoWay() then First else Plain)
    requires n.learn.First? ==> ShortFid(n.flowId) !in b.lookup
    requires !b.draining
    ensures
      BooksOk(w, fl[a := n], b.(
        lookup := if n.learn.First? then b.lookup[ShortFid(n.flowId) := a] else b.lookup,
        associated := if n.learn.First? then b.associated + {n.flowId} else b.associated,
        life := b.life[n.flowId := Life(n.tmpl, n.time, 0, 0, Some(a))],
        played := b.played[n.flowId := []],
        openFlows := b.openFlows + w.ts[n.tmpl].totalFlows,
        nextId := b.nextId + 1))
  {
    hide Replay, LookupExact, LearningOk, FlowWeights, Sum, Template.TwoWay, ShortFid;
    ReplayBorn(w.ts, fl, b.life, b.played, a, n);
    if n.learn.First? {
      LookupAdd(fl, b.lookup, a, n);
      LearningBorn(w, fl, b, a, n);
    } else {
      LookupSame(fl, b.lookup, a, n);
      LearningSet(fl, b.tagged, b.associated, w.xlate, a, n);
    }
    WeightBorn(w.ts, fl, a, n);
  }

  lemma LearningBorn(w: World, fl: Memory, b: Books, a: Addr, n: Node)
    requires BooksOk(w, fl, b)
    requires n.FlowPkt? && n.learn.First? && n.flowId == b.nextId && ShortFid(n.flowId) !in b.lookup
    ensures LearningOk(fl[a := n], b.tagged, b.associated + {n.flowId}, w.xlate)
  {
    hide Replay, Translated, FlowWeights, Sum;
    forall c | c in fl
      ensures LearnOk(fl[c], b.tagged, b.associated + {n.flowId}, w.xlate)
    {
      assert LearnOk(fl[c], b.tagged, b.associated, w.xlate);
      assert FlowOk(w.ts, fl[c]);
      KnownFlow(w, fl, b, c);
    }
  }

  lemma KnownFlow(w: World, fl: Memory, b: Books, a: Addr)
    requires BooksOk(w, fl, b) && a in fl
    ensures fl[a].flowId in b.life && fl[a].flowId in b.played && fl[a].flowId < b.nextId
    ensures AtHome(w.ts, fl[a], a, b.life)
  {
    assert AtHome(w.ts, fl[a], a, b.life);
  }

  lemma LearningSet(fl: Memory, tagged: set<FlowId>, associated: set<FlowId>, xlate: FlowId -> Ext, a: Addr, n: Node)
    requires AllFlows(fl) && LearningOk(fl, tagged, associated, xlate)
    requires n.FlowPkt? && LearnOk(n, tagged, associated, xlate)
    ensures LearningOk(fl[a := n], tagged, associated, xlate)
  {
  }

  /** The tagged packet of a flow goes out: the flow now waits for its translation. */
  lemma TagKeeps(w: World, fl: Memory, b: Books, a: Addr)
    requires BooksOk(w, fl, b) && a in fl && fl[a].learn.First?
    ensures BooksOk(w, fl[a := fl[a].(learn := Wait)], b.(tagged := b.tagged + {fl[a].flowId}))
  {
    hide Replay, LookupExact, LearningOk, FlowWeights, Sum, Translated;
    var n := fl[a].(learn := Wait);
    KnownFlow(w, fl, b, a);
    assert FlowOk(w.ts, fl[a]);
    LookupSame(fl, b.lookup, a, n);
    ReplaySame(w.ts, fl, b.life, b.played, a, n);
    WeightSame(w.ts, fl, a, n);
    LearningTag(w, fl, b, a);
    TranslatedSame(w, b, b.(tagged := b.tagged + {fl[a].flowId}));
  }

  lemma TranslatedSame(w: World, b: Books, b': Books)
    requires Translated(w, b)
    requires b'.associated == b.associated && b'.life == b.life && b'.played == b.played
    ensures Translated(w, b')
  {
  }

  /** Different nodes belong to different flows. */
  lemma FlowsDistinct(w: World, fl: Memory, b: Books, a: Addr, c: Addr)
    requires BooksOk(w, fl, b) && a in fl && c in fl && a != c
    ensures fl[a].flowId != fl[c].flowId
  {
    hide LookupExact, LearningOk, FlowWeights, Sum, Translated, Passes, Template.Due;
    KnownFlow(w, fl, b, a);
    KnownFlow(w, fl, b, c);
  }

  lemma LearningTag(w: World, fl: Memory, b: Books, a: Addr)
    requires BooksOk(w, fl, b) && a in fl && fl[a].learn.First?
    ensures fl[a].flowId in b.associated
    ensures LearningOk(fl[a := fl[a].(learn := Wait)], b.tagged + {fl[a].flowId}, b.associated, w.xlate)
  {
    hide LookupExact, FlowWeights, Sum, Translated, Replay, Passes, FlowsOk, Newest;
    var f := fl[a].flowId;
    assert LearnOk(fl[a], b.tagged, b.associated, w.xlate);
    forall c | c in fl && c != a
      ensures LearnOk(fl[c], b.tagged + {f}, b.associated, w.xlate)
    {
      assert LearnOk(fl[c], b.tagged, b.associated, w.xlate);
      FlowsDistinct(w, fl, b, a, c);
    }
  }

  /** A waiting flow learns the translation the device gave it, and leaves the table. */
  lemma LearnKeeps(w: World, fl: Memory, b: Books, fid: Fid, ext: Ext)
    requires BooksOk(w, fl, b) && fid in b.lookup
    requires b.lookup[fid] in fl && fl[b.lookup[fid]].learn.Wait? && ext == w.xlate(fl[b.lookup[fid]].flowId)
    ensures
      var a := b.lookup[fid];
      BooksOk(w, fl[a := fl[a].(learn := Learned(ext))], b.(lookup := b.lookup - {fid}))
  {
    hide Replay, LookupExact, LearningOk, FlowWeights, Sum, Translated;
    var a := b.lookup[fid];
    var n := fl[a].(learn := Learned(ext));
    assert FlowOk(w.ts, fl[a]);
    LookupLearn(fl, b.lookup, fid, n);
    ReplaySame(w.ts, fl, b.life, b.played, a, n);
    WeightSame(w.ts, fl, a, n);
    LearnOkAt(fl, b.tagged, b.associated, w.xlate, a);
    LearningSet(fl, b.tagged, b.associated, w.xlate, a, n);
    TranslatedSame(w, b, b.(lookup := b.lookup - {fid}));
  }

  lemma LearnOkAt(fl: Memory, tagged: set<FlowId>, associated: set<FlowId>, xlate: FlowId -> Ext, a: Addr)
    requires AllFlows(fl) && LearningOk(fl, tagged, associated, xlate) && a in fl
    ensures LearnOk(fl[a], tagged, associated, xlate)
  {
  }

  /** A packet that does not belong to the responder, or whose flow has learned, is fine to play. */
  lemma PlayTranslated(w: World, fl: Memory, b: Books, a: Addr, p: Played)
    requires BooksOk(w, fl, b) && a in fl
    requires p.index == fl[a].idx && p.learn == fl[a].learn
    requires fl[a].Waiting() ==> w.ts[fl[a].tmpl].packets[fl[a].idx].init
    ensures fl[a].flowId in b.associated ==> TranslatedPacket(w, fl[a].flowId, fl[a].tmpl, p)
  {
    hide Replay, LookupExact, FlowWeights, Sum, Translated;
    assert LearnOk(fl[a], b.tagged, b.associated, w.xlate);
  }

  lemma TranslatedMore(w: World, b: Books, f: FlowId, l: Life, p: Played)
    requires Translated(w, b) && f in b.life && f in b.played
    requires l.tmpl == b.life[f].tmpl < |w.ts|
    requires f in b.associated ==> TranslatedPacket(w, f, l.tmpl, p)
    ensures Translated(w, b.(life := b.life[f := l], played := b.played[f := b.played[f] + [p]]))
  {
  }

  lemma TranslatedLife(w: World, b: Books, f: FlowId, l: Life)
    requires Translated(w, b) && f in b.life && l.tmpl == b.life[f].tmpl
    ensures Translated(w, b.(life := b.life[f := l]))
  {
  }

  /** The first pass is over: all that is due is due at its end or later. */
  lemma DrainKeeps(w: World, fl: Memory, b: Books)
    requires BooksOk(w, fl, b) && DueLater(fl, true, b.stop)
    ensures BooksOk(w, fl, b.(draining := true))
  {
    hide Replay, LookupExact, LearningOk, FlowWeights, Sum, Translated, PassOk;
    TranslatedSame(w, b, b.(draining := true));
    forall f | f in b.life && f in b.played && b.life[f].tmpl < |w.ts|
      ensures PassesOk(w.ts[b.life[f].tmpl], b.life[f], b.played[f], true, b.stop)
      ensures GivenUp(w.ts[b.life[f].tmpl], b.life[f]) ==> f in b.associated
    {
      assert PassesOk(w.ts[b.life[f].tmpl], b.life[f], b.played[f], b.draining, b.stop);
    }
  }

  /** Packet `p` is played in the pass the thread is in. */
  ghost predicate PlayedIn(t: Template, b: Books, p: Played) {
    p.drained == b.draining && PassOk(t, p, b.stop)
  }

  lemma PassesSet(w: World, b: Books, f: FlowId, l: Life, ps: seq<Played>)
    requires Passes(w, b) && l.tmpl < |w.ts| && PassesOk(w.ts[l.tmpl], l, ps, b.draining, b.stop)
    requires GivenUp(w.ts[l.tmpl], l) ==> f in b.associated
    ensures Passes(w, b.(life := b.life[f := l], played := b.played[f := ps]))
  {
    hide PassesOk;
  }

  lemma LifeAt(w: World, fl: Memory, b: Books, a: Addr)
    requires BooksOk(w, fl, b) && a in fl
    ensures fl[a].flowId in b.life && fl[a].flowId in b.played
    ensures b.life[fl[a].flowId].home == Some(a)
    ensures b.life[fl[a].flowId].tmpl == fl[a].tmpl && b.life[fl[a].flowId].at == fl[a].idx
    ensures LifeOk(w.ts, b.life[fl[a].flowId], b.played[fl[a].flowId])
    ensures PassesOk(w.ts[fl[a].tmpl], b.life[fl[a].flowId], b.played[fl[a].flowId], b.draining, b.stop)
  {
    hide LifeOk, PassesOk, LookupExact, LearningOk, FlowWeights, Sum, Translated;
    KnownFlow(w, fl, b, a);
  }

  lemma GapOk(t: Template, i: nat)
    requires t.Valid() && i < t.Size()
    ensures t.Gap(i) >= 0.0
  {
  }

  /** A packet is played and the flow moves on to the next packet of the round. */
  lemma AdvanceKeeps(w: World, fl: Memory, b: Books, a: Addr, p: Played)
    requires BooksOk(w, fl, b) && a in fl
    requires p.index == fl[a].idx && p.time == fl[a].time && p.learn == fl[a].learn && PlayedIn(w.ts[fl[a].tmpl], b, p)
    requires fl[a].Waiting() ==> w.ts[fl[a].tmpl].packets[fl[a].idx].init
    requires fl[a].idx + 1 < w.ts[fl[a].tmpl].Size() && !fl[a].learn.First?
    ensures fl[a].flowId in b.life && fl[a].flowId in b.played
    ensures
      var f, t := fl[a].flowId, w.ts[fl[a].tmpl];
      var n := fl[a].(idx := fl[a].idx + 1, time := fl[a].time + t.Gap(fl[a].idx));
      BooksOk(w, fl[a := n], b.(
        life := b.life[f := b.life[f].(at := n.idx)],
        played := b.played[f := b.played[f] + [p]]))
  {
    hide Replay, LookupExact, LearningOk, FlowWeights, Sum, Translated, TranslatedPacket, Passes, PassesOk, PassOk,
      LifeOk, Template.Valid;
    var f, t := fl[a].flowId, w.ts[fl[a].tmpl];
    var n := fl[a].(idx := fl[a].idx + 1, time := fl[a].time + t.Gap(fl[a].idx));
    KnownFlow(w, fl, b, a);
    assert FlowOk(w.ts, fl[a]);
    LookupSame(fl, b.lookup, a, n);
    LearnOkAt(fl, b.tagged, b.associated, w.xlate, a);
    LearningSet(fl, b.tagged, b.associated, w.xlate, a, n);
    ReplayAdvance(w.ts, fl, b.life, b.played, a, n, p);
    WeightSame(w.ts, fl, a, n);
    PlayTranslated(w, fl, b, a, p);
    TranslatedMore(w, b, f, b.life[f].(at := n.idx), p);
    LifeAt(w, fl, b, a);
    PassesAppend(w.ts, b.life[f], b.played[f], p, b.draining, b.stop);
    PassesSet(w, b, f, b.life[f].(at := n.idx), b.played[f] + [p]);
    GapOk(t, fl[a].idx);
  }

  /** The last packet of a round is played and the flow goes back to its first packet. */
  lemma RepeatKeeps(w: World, fl: Memory, b: Books, a: Addr, p: Played)
    requires BooksOk(w, fl, b) && a in fl
    requires p.index == fl[a].idx && p.time == fl[a].time && p.learn == fl[a].learn && PlayedIn(w.ts[fl[a].tmpl], b, p)
    requires !fl[a].Waiting() && fl[a].idx + 1 == w.ts[fl[a].tmpl].Size()
    requires w.ts[fl[a].tmpl].limitSet && !b.draining
    ensures fl[a].flowId in b.life && fl[a].flowId in b.played
    ensures
      var f, t := fl[a].flowId, w.ts[fl[a].tmpl];
      var n := fl[a].(idx := 0, time := fl[a].time + t.restart);
      BooksOk(w, fl[a := n], b.(
        life := b.life[f := b.life[f].(rounds := b.life[f].rounds + 1, at := 0)],
        played := b.played[f := b.played[f] + [p]]))
  {
    hide Replay, LookupExact, LearningOk, FlowWeights, Sum, Translated, TranslatedPacket, Passes, PassesOk, PassOk,
      LifeOk, Template.Valid;
    var f, t := fl[a].flowId, w.ts[fl[a].tmpl];
    var n := fl[a].(idx := 0, time := fl[a].time + t.restart);
    KnownFlow(w, fl, b, a);
    assert FlowOk(w.ts, fl[a]);
    LookupSame(fl, b.lookup, a, n);
    LearnOkAt(fl, b.tagged, b.associated, w.xlate, a);
    LearningSet(fl, b.tagged, b.associated, w.xlate, a, n);
    ReplayRepeat(w.ts, fl, b.life, b.played, a, n, p);
    WeightSame(w.ts, fl, a, n);
    PlayTranslated(w, fl, b, a, p);
    TranslatedMore(w, b, f, b.life[f].(rounds := b.life[f].rounds + 1, at := 0), p);
    LifeAt(w, fl, b, a);
    PassesAppend(w.ts, b.life[f], b.played[f], p, b.draining, b.stop);
    PassesSet(w, b, f, b.life[f].(rounds := b.life[f].rounds + 1, at := 0), b.played[f] + [p]);
  }

  /** What a flow ends with: its last packet `ps[0]`, or no packet at its first responder packet
      because its translation never came. */
  ghost predicate EndsWith(w: World, n: Node, b: Books, ps: seq<Played>)
    requires n.FlowPkt? && n.tmpl < |w.ts| && n.idx < w.ts[n.tmpl].Size()
  {
    if ps == [] then n.Waiting() && !w.ts[n.tmpl].packets[n.idx].init
    else
      && |ps| == 1 && !n.Waiting() && n.idx + 1 == w.ts[n.tmpl].Size()
      && ps[0].index == n.idx && ps[0].time == n.time && ps[0].learn == n.learn
      && PlayedIn(w.ts[n.tmpl], b, ps[0]) && (w.ts[n.tmpl].limitSet ==> b.draining)
  }

  /** The records of a flow that ends. */
  lemma EndRecords(w: World, fl: Memory, b: Books, a: Addr, ps: seq<Played>)
    requires BooksOk(w, fl, b) && a in fl && FlowOk(w.ts, fl[a]) && EndsWith(w, fl[a], b, ps)
    ensures fl[a].flowId in b.life && fl[a].flowId in b.played
    ensures
      var f := fl[a].flowId;
      var b' := b.(life := b.life[f := b.life[f].(at := fl[a].idx + |ps|, home := None)],
                   played := b.played[f := b.played[f] + ps]);
      Translated(w, b') && Passes(w, b')
  {
    hide Replay, LookupExact, LearningOk, FlowWeights, Sum, Translated, TranslatedPacket, Passes, PassOk, LifeOk,
      Template.Valid;
    var n, f := fl[a], fl[a].flowId;
    LifeAt(w, fl, b, a);
    var l := b.life[f].(at := n.idx + |ps|, home := None);
    if ps == [] {
      assert b.played[f] + ps == b.played[f];
      assert b.played[f := b.played[f]] == b.played;
      TranslatedLife(w, b, f, l);
      LearnOkAt(fl, b.tagged, b.associated, w.xlate, a);
      PassesSet(w, b, f, l, b.played[f]);
    } else {
      assert ps == [ps[0]];
      PlayTranslated(w, fl, b, a, ps[0]);
      TranslatedMore(w, b, f, l, ps[0]);
      PassesAppend(w.ts, b.life[f], b.played[f], ps[0], b.draining, b.stop);
      PassesSet(w, b, f, l, b.played[f] + ps);
    }
  }

  /** A flow ends: after its last packet `ps[0]`, or with no packet at its first responder packet
      because its translation never came. */
  lemma EndKeeps(w: World, fl: Memory, b: Books, a: Addr, ps: seq<Played>)
    requires BooksOk(w, fl, b) && a in fl && FlowOk(w.ts, fl[a]) && EndsWith(w, fl[a], b, ps)
    ensures fl[a].flowId in b.life && fl[a].flowId in b.played
    ensures
      var n, f, t := fl[a], fl[a].flowId, w.ts[fl[a].tmpl];
      BooksOk(w, fl - {a}, b.(
        lookup := if n.Waiting() then b.lookup - {ShortFid(f)} else b.lookup,
        life := b.life[f := b.life[f].(at := n.idx + |ps|, home := None)],
        played := b.played[f := b.played[f] + ps],
        closedFlows := b.closedFlows + t.totalFlows))
  {
    hide Replay, LookupExact, LearningOk, FlowWeights, Sum, Translated, TranslatedPacket, Passes, PassesOk, PassOk,
      LifeOk, Template.Valid;
    var n, f, t := fl[a], fl[a].flowId, w.ts[fl[a].tmpl];
    KnownFlow(w, fl, b, a);
    LookupDrop(fl, b.lookup, a);
    ReplayEnd(w.ts, fl, b.life, b.played, a, ps);
    WeightGone(w.ts, fl, a);
    LearningDrop(fl, b.tagged, b.associated, w.xlate, a);
    EndRecords(w, fl, b, a, ps);
    var b' := b.(life := b.life[f := b.life[f].(at := n.idx + |ps|, home := None)],
                 played := b.played[f := b.played[f] + ps]);
    var b'' := b'.(
      lookup := if n.Waiting() then b.lookup - {ShortFid(f)} else b.lookup,
      closedFlows := b.closedFlows + t.totalFlows);
    TranslatedSame(w, b', b'');
    PassesSame(w, b', b'');
  }

  lemma PassesSame(w: World, b: Books, b': Books)
    requires Passes(w, b)
    requires b'.life == b.life && b'.played == b.played && b'.draining == b.draining && b'.stop == b.stop
    requires b'.associated == b.associated
    ensures Passes(w, b')
  {
  }

  lemma LearningDrop(fl: Memory, tagged: set<FlowId>, associated: set<FlowId>, xlate: FlowId -> Ext, a: Addr)
    requires AllFlows(fl) && LearningOk(fl, tagged, associated, xlate)
    ensures LearningOk(fl - {a}, tagged, associated, xlate)
  {
  }
}
