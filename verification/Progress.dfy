/** How much work the queued nodes can still cause; the measure that makes both passes end. */
module Progress {
  import opened Templates
  import opened Nodes
  import opened Sums

  /** The pass: the draining pass starts no new rounds, the first one ends at time `until`. */
  datatype Pass = Pass(draining: bool, until: real)

  /** How many times a flow at time `now` can still start a new round. */
  ghost function RoundsLeft(t: Template, p: Pass, now: real): nat
    requires t.Valid()
  {
    if p.draining || !t.limitSet || t.restart <= 0.0 || now > p.until then 0
    else
      RatioNonNegative(p.until - now, t.restart);
      ((p.until - now) / t.restart).Floor + 1
  }

  lemma RatioNonNegative(x: real, y: real)
    requires x >= 0.0 && y > 0.0
    ensures x / y >= 0.0
  {
  }

  lemma RatioLess(x: real, x': real, y: real)
    requires x' <= x && y > 0.0
    ensures x' / y <= x / y
  {
  }

  lemma RatioStep(x: real, y: real)
    requires y > 0.0
    ensures (x - y) / y == x / y - 1.0
  {
    var q, r := x / y, (x - y) / y;
    assert q * y == x && r * y == x - y;
    assert (q - 1.0) * y == q * y - y;
    SameFactor(q - 1.0, r, y);
  }

  lemma SameFactor(a: real, b: real, y: real)
    requires a * y == b * y && y > 0.0
    ensures a == b
  {
    assert (a - b) * y == a * y - b * y;
  }

  lemma RoundsShrink(t: Template, p: Pass, now: real, now': real)
    requires t.Valid() && now <= now'
    ensures RoundsLeft(t, p, now') <= RoundsLeft(t, p, now)
  {
    if !p.draining && t.limitSet && t.restart > 0.0 && now' <= p.until {
      RatioLess(p.until - now, p.until - now', t.restart);
    }
  }

  lemma RoundSpent(t: Template, p: Pass, now: real)
    requires t.Valid() && !p.draining && t.limitSet && t.restart > 0.0 && now <= p.until
    ensures RoundsLeft(t, p, now + t.restart) < RoundsLeft(t, p, now)
  {
    RatioNonNegative(p.until - now, t.restart);
    RatioStep(p.until - now, t.restart);
    assert p.until - (now + t.restart) == p.until - now - t.restart;
  }

  ghost function Work(ts: seq<Template>, p: Pass, n: Node): nat
    requires TemplatesOk(ts)
  {
    match n
    case FlowPkt(time, _, tmpl, idx, _, _, _) =>
      if tmpl < |ts| && idx <= ts[tmpl].Size() then
        RoundsLeft(ts[tmpl], p, time) * ts[tmpl].Size() + (ts[tmpl].Size() - idx) + |n.Ports()|
      else 0
    case DeferPort(_, _) => 1
    case Tick(_) => if p.draining then 1 else 0
    case _ => 0
  }

  ghost function WorkMap(ts: seq<Template>, p: Pass, mem: Memory): map<nat, nat>
    requires TemplatesOk(ts)
  {
    map a | a in mem :: Work(ts, p, mem[a])
  }

  ghost function TotalWork(ts: seq<Template>, p: Pass, mem: Memory): nat
    requires TemplatesOk(ts)
  {
    Sum(WorkMap(ts, p, mem))
  }

  lemma WorkChanged(ts: seq<Template>, p: Pass, mem: Memory, a: Addr, n: Node)
    requires TemplatesOk(ts)
    requires a in mem
    ensures TotalWork(ts, p, mem[a := n]) == TotalWork(ts, p, mem) - Work(ts, p, mem[a]) + Work(ts, p, n)
  {
    hide Work;
    assert WorkMap(ts, p, mem[a := n]) == WorkMap(ts, p, mem)[a := Work(ts, p, n)];
    SumUpdate(WorkMap(ts, p, mem), a, Work(ts, p, n));
  }

  lemma WorkAdded(ts: seq<Template>, p: Pass, mem: Memory, a: Addr, n: Node)
    requires TemplatesOk(ts)
    requires a !in mem
    ensures TotalWork(ts, p, mem[a := n]) == TotalWork(ts, p, mem) + Work(ts, p, n)
  {
    hide Work;
    assert WorkMap(ts, p, mem[a := n]) == WorkMap(ts, p, mem)[a := Work(ts, p, n)];
    SumInsert(WorkMap(ts, p, mem), a, Work(ts, p, n));
  }

  lemma WorkRemoved(ts: seq<Template>, p: Pass, mem: Memory, a: Addr)
    requires TemplatesOk(ts)
    requires a in mem
    ensures TotalWork(ts, p, mem - {a}) == TotalWork(ts, p, mem) - Work(ts, p, mem[a])
  {
    hide Work;
    SumSplit(WorkMap(ts, p, mem), a);
    assert WorkMap(ts, p, mem) - {a} == WorkMap(ts, p, mem - {a});
  }

  /** Moving on to the next packet of a round is progress. */
  lemma AdvanceProgress(ts: seq<Template>, p: Pass, n: Node, n': Node)
    requires TemplatesOk(ts)
    requires n.FlowPkt? && n.tmpl < |ts| && n.idx < ts[n.tmpl].Size()
    requires n'.FlowPkt? && n'.tmpl == n.tmpl && n'.idx == n.idx + 1 && n'.Ports() == n.Ports()
    requires n'.time >= n.time
    ensures Work(ts, p, n') < Work(ts, p, n)
  {
    hide RoundsLeft, Template.Valid;
    var t := ts[n.tmpl];
    RoundsShrink(t, p, n.time, n'.time);
    ProductGrows(RoundsLeft(t, p, n'.time), RoundsLeft(t, p, n.time), t.Size());
  }

  lemma ProductGrows(a: nat, b: nat, n: nat)
    requires a <= b
    ensures a * n <= b * n
  {
  }

  lemma OneMore(a: nat, n: nat)
    ensures (a + 1) * n == a * n + n
  {
  }

  /** Starting the next round is progress, in the pass that allows it. */
  lemma RepeatProgress(ts: seq<Template>, p: Pass, n: Node, n': Node)
    requires TemplatesOk(ts)
    requires n.FlowPkt? && n.tmpl < |ts| && n.idx + 1 == ts[n.tmpl].Size()
    requires n'.FlowPkt? && n'.tmpl == n.tmpl && n'.idx == 0 && n'.Ports() == n.Ports()
    requires ts[n.tmpl].limitSet && ts[n.tmpl].restart > 0.0 && !p.draining && n.time <= p.until
    requires n'.time == n.time + ts[n.tmpl].restart
    ensures Work(ts, p, n') < Work(ts, p, n)
  {
    hide RoundsLeft, Template.Valid;
    var t := ts[n.tmpl];
    RoundSpent(t, p, n.time);
    var before, after := RoundsLeft(t, p, n.time), RoundsLeft(t, p, n'.time);
    ProductGrows(after + 1, before, t.Size());
    OneMore(after, t.Size());
  }
}
