/** Which flows each template has started, and when; kept in step with the template's meter. */
module Pacing {
  import opened Templates
  import opened Nodes
  import opened Wrappers
  import opened FlowBooks
  import opened ThreadState
  import opened Policing

  /** `flowsOf[i]` are the flows template `i` has started, `starts[i]` the times its meter granted,
      `flowcnt[i]` its counter. A grant that has not become a flow yet is `pending`. */
  ghost predicate PaceOk(ts: seq<Template>, births: map<FlowId, Birth>, nextId: FlowId,
                         flowsOf: seq<seq<FlowId>>, starts: seq<seq<real>>, flowcnt: seq<nat>, pending: Option<nat>)
  {
    && |ts| == |flowsOf| == |starts| == |flowcnt|
    && (forall i | 0 <= i < |ts| ::
      TemplatePaceOk(ts[i], i, births, nextId, flowsOf[i], starts[i], flowcnt[i], pending == Some(i)))
    && (forall f | f in births :: f < nextId && births[f].tmpl < |ts| && f in flowsOf[births[f].tmpl])
  }

  ghost predicate TemplatePaceOk(t: Template, i: nat, births: map<FlowId, Birth>, nextId: FlowId,
                                 flows: seq<FlowId>, starts: seq<real>, cnt: nat, ahead: bool)
  {
    && |starts| == cnt && cnt == |flows| + (if ahead then 1 else 0)
    && (t.limitSet ==> cnt <= t.limit)
    && (forall k | 0 <= k < |flows| ::
      flows[k] in births && births[flows[k]] == Birth(i, starts[k]) && flows[k] < nextId)
    && (forall j, k | 0 <= j < k < |flows| :: flows[j] < flows[k])
  }

  /** The meter of template `i` grants a start at time `now`. */
  lemma PaceGranted(ts: seq<Template>, births: map<FlowId, Birth>, nextId: FlowId,
                    flowsOf: seq<seq<FlowId>>, starts: seq<seq<real>>, flowcnt: seq<nat>, i: nat, now: real)
    requires PaceOk(ts, births, nextId, flowsOf, starts, flowcnt, None) && i < |ts|
    requires ts[i].limitSet ==> flowcnt[i] < ts[i].limit
    ensures PaceOk(ts, births, nextId, flowsOf, starts[i := starts[i] + [now]], flowcnt[i := flowcnt[i] + 1], Some(i))
  {
    var starts', flowcnt' := starts[i := starts[i] + [now]], flowcnt[i := flowcnt[i] + 1];
    forall j | 0 <= j < |ts|
      ensures TemplatePaceOk(ts[j], j, births, nextId, flowsOf[j], starts'[j], flowcnt'[j], Some(i) == Some(j))
    {
      assert TemplatePaceOk(ts[j], j, births, nextId, flowsOf[j], starts[j], flowcnt[j], false);
    }
  }

  /** A template with a pending grant may start flows. */
  lemma PendingMayStart(ts: seq<Template>, births: map<FlowId, Birth>, nextId: FlowId,
                        flowsOf: seq<seq<FlowId>>, starts: seq<seq<real>>, flowcnt: seq<nat>, i: nat)
    requires PaceOk(ts, births, nextId, flowsOf, starts, flowcnt, Some(i)) && i < |ts|
    ensures ts[i].limitSet ==> ts[i].limit > 0
  {
    assert TemplatePaceOk(ts[i], i, births, nextId, flowsOf[i], starts[i], flowcnt[i], true);
  }

  /** The pending grant of template `i` becomes flow `nextId`. */
  lemma PaceStarted(ts: seq<Template>, births: map<FlowId, Birth>, nextId: FlowId,
                    flowsOf: seq<seq<FlowId>>, starts: seq<seq<real>>, flowcnt: seq<nat>, i: nat, b: Birth)
    requires PaceOk(ts, births, nextId, flowsOf, starts, flowcnt, Some(i)) && i < |ts|
    requires starts[i] != [] && b == Birth(i, starts[i][|starts[i]| - 1])
    ensures PaceOk(ts, births[nextId := b], nextId + 1, flowsOf[i := flowsOf[i] + [nextId]], starts, flowcnt, None)
  {
    var births', flowsOf' := births[nextId := b], flowsOf[i := flowsOf[i] + [nextId]];
    forall j | 0 <= j < |ts|
      ensures TemplatePaceOk(ts[j], j, births', nextId + 1, flowsOf'[j], starts[j], flowcnt[j], false)
    {
      assert TemplatePaceOk(ts[j], j, births, nextId, flowsOf[j], starts[j], flowcnt[j], j == i);
    }
    forall f | f in births'
      ensures f < nextId + 1 && births'[f].tmpl < |ts| && f in flowsOf'[births'[f].tmpl]
    {
      if f == nextId {
        assert flowsOf'[i][|flowsOf[i]|] == nextId;
      } else {
        var k :| 0 <= k < |flowsOf[births[f].tmpl]| && flowsOf[births[f].tmpl][k] == f;
        assert flowsOf'[births[f].tmpl][k] == f;
      }
    }
  }

  // ----- whose turn it is: one chance to start a flow, and all chances of a run -----

  /** The meters of the templates, how many flows each template has started, and the template whose
      turn it is. */
  datatype Pacer = Pacer(meters: seq<Meter>, flowcnt: seq<nat>, cur: nat)

  predicate PacerOk(ts: seq<Template>, p: Pacer) {
    |p.meters| == |p.flowcnt| == |ts| && p.cur < |ts|
  }

  /** Template `i` has started as many flows as it may. */
  predicate Spent(ts: seq<Template>, flowcnt: seq<nat>, i: nat)
    requires i < |ts| && i < |flowcnt|
  {
    ts[i].limitSet && flowcnt[i] >= ts[i].limit
  }

  ghost predicate AllSpent(ts: seq<Template>, flowcnt: seq<nat>)
    requires |ts| == |flowcnt|
  {
    forall i | 0 <= i < |ts| :: Spent(ts, flowcnt, i)
  }

  /** The template `k` places after `cur`, going around. */
  function Around(cur: nat, k: nat, n: nat): (i: nat)
    requires cur < n && k <= n
    ensures i < n
  {
    if cur + k < n then cur + k else cur + k - n
  }

  /** Places are counted modulo the number of templates. */
  lemma AroundIs(cur: nat, k: nat, n: nat)
    requires cur < n && k <= n
    ensures Around(cur, k, n) == (cur + k) % n
  {
    if cur + k >= n {
      assert (cur + k) / n == 1 || (cur + k) / n >= 2;
    }
  }

  /** The outcome of one chance: `done` when every template is spent, `found` the template that starts
      a flow. */
  datatype Picked = Picked(pacer: Pacer, done: bool, found: Option<nat>)

  /** Template `p.cur`, which is not spent, asks its meter. */
  ghost function Asked(ts: seq<Template>, p: Pacer, now: real): (r: (Pacer, bool))
    requires PacerOk(ts, p)
    ensures PacerOk(ts, r.0) && r.0.cur == p.cur
  {
    var (m, granted) := p.meters[p.cur].Updated(1.0, now);
    (p.(meters := p.meters[p.cur := m],
        flowcnt := if granted then p.flowcnt[p.cur := p.flowcnt[p.cur] + 1] else p.flowcnt), granted)
  }

  /** The next `left` templates in turn, until the meter of one grants a start. */
  ghost function Pick(ts: seq<Template>, p: Pacer, now: real, left: nat): (r: Picked)
    requires PacerOk(ts, p)
    ensures PacerOk(ts, r.pacer) && (r.found.Some? ==> !r.done && r.found.value < |ts|)
    decreases left
  {
    var next := Around(p.cur, 1, |ts|);
    if left == 0 then Picked(p, true, None)
    else if Spent(ts, p.flowcnt, p.cur) then Pick(ts, p.(cur := next), now, left - 1)
    else
      var (p', granted) := Asked(ts, p, now);
      if granted then Picked(p', false, Some(p.cur))
      else Pick(ts, p'.(cur := next), now, left - 1).(done := false)
  }

  /** One chance: after a start it is the next template's turn. */
  ghost function Turn(ts: seq<Template>, p: Pacer, now: real): (r: Picked)
    requires PacerOk(ts, p)
    ensures PacerOk(ts, r.pacer) && (r.found.Some? ==> !r.done && r.found.value < |ts|)
  {
    var r := Pick(ts, p, now, |ts|);
    if r.found.Some? then r.(pacer := r.pacer.(cur := Around(r.pacer.cur, 1, |ts|))) else r
  }

  lemma TurnOf(ts: seq<Template>, p: Pacer, now: real)
    requires PacerOk(ts, p)
    ensures
      var r := Pick(ts, p, now, |ts|);
      Turn(ts, p, now) == if r.found.Some? then r.(pacer := r.pacer.(cur := Around(r.pacer.cur, 1, |ts|))) else r
  {
  }

  /** What the chance of template `i` at time `now` comes to when it is asked. */
  ghost predicate Grants(ts: seq<Template>, p: Pacer, now: real, i: nat)
    requires PacerOk(ts, p) && i < |ts|
  {
    !Spent(ts, p.flowcnt, i) && p.meters[i].Updated(1.0, now).1
  }

  /** The meter of the template `j` places after the current one, after a chance that went to the
      template `k` places after it, of the `left` in turn. */
  ghost function MeterAfter(ts: seq<Template>, p: Pacer, now: real, left: nat, k: nat, j: nat): Meter
    requires PacerOk(ts, p) && j < |ts|
  {
    var i := Around(p.cur, j, |ts|);
    if j > k || j >= left || Spent(ts, p.flowcnt, i) then p.meters[i] else p.meters[i].Updated(1.0, now).0
  }

  lemma AroundNext(cur: nat, j: nat, n: nat)
    requires cur < n && j < n
    ensures Around(Around(cur, 1, n), j, n) == Around(cur, j + 1, n)
    ensures Around(cur, j, n) < n && Around(cur, 0, n) == cur && Around(cur, n, n) == cur
    ensures j > 0 ==> Around(cur, j, n) != cur
  {
  }

  /** Of the next `left` templates in turn, the one `k` places after the current one is the first whose
      meter grants; `k == left` when none does. */
  ghost predicate FirstGrant(ts: seq<Template>, p: Pacer, now: real, left: nat, k: nat)
    requires PacerOk(ts, p) && left <= |ts|
  {
    && k <= left
    && (forall j | 0 <= j < k :: !Grants(ts, p, now, Around(p.cur, j, |ts|)))
    && (k < left ==> Grants(ts, p, now, Around(p.cur, k, |ts|)))
  }

  /** The next `left` templates in turn are spent. */
  ghost predicate TurnSpent(ts: seq<Template>, p: Pacer, left: nat)
    requires PacerOk(ts, p) && left <= |ts|
  {
    forall j | 0 <= j < left :: Spent(ts, p.flowcnt, Around(p.cur, j, |ts|))
  }

  /** The chance goes to that template, or to none. Each template up to it that is not spent is asked
      once; the ones after it are not asked. */
  ghost predicate GoesTo(ts: seq<Template>, p: Pacer, now: real, left: nat, k: nat, r: Picked)
    requires PacerOk(ts, p) && k <= left <= |ts| && PacerOk(ts, r.pacer)
  {
    && r.found == (if k < left then Some(Around(p.cur, k, |ts|)) else None)
    && (r.done <==> TurnSpent(ts, p, left))
    && (r.found.None? ==> r.pacer.flowcnt == p.flowcnt)
    && (r.found.Some? ==> r.pacer.flowcnt == p.flowcnt[r.found.value := p.flowcnt[r.found.value] + 1])
    && forall j | 0 <= j < |ts| :: r.pacer.meters[Around(p.cur, j, |ts|)] == MeterAfter(ts, p, now, left, k, j)
  }

  /** Which template a chance goes to. */
  lemma {:induction false} FirstGrantWins(ts: seq<Template>, p: Pacer, now: real, left: nat, k: nat)
    requires PacerOk(ts, p) && left <= |ts| && FirstGrant(ts, p, now, left, k)
    ensures GoesTo(ts, p, now, left, k, Pick(ts, p, now, left))
    decreases left
  {
    hide Meter.Updated;
    forall j | 0 <= j < |ts|
      ensures Around(p.cur, j, |ts|) < |ts| && (j > 0 ==> Around(p.cur, j, |ts|) != p.cur)
      ensures Around(Around(p.cur, 1, |ts|), j, |ts|) == Around(p.cur, j + 1, |ts|)
    {
      AroundNext(p.cur, j, |ts|);
    }
    if left > 0 {
      AroundNext(p.cur, 0, |ts|);
      if k > 0 {
        var q := (if Spent(ts, p.flowcnt, p.cur) then p else Asked(ts, p, now).0).(cur := Around(p.cur, 1, |ts|));
        assert !Grants(ts, p, now, Around(p.cur, 0, |ts|));
        RestGrants(ts, p, q, now, left, k);
        FirstGrantWins(ts, q, now, left - 1, k - 1);
        RestOfTurn(ts, p, q, now, left, k);
      }
    }
  }

  /** The template whose turn it is does not start a flow; `q` is what the next one finds. */
  ghost predicate PassedOn(ts: seq<Template>, p: Pacer, q: Pacer, now: real)
    requires PacerOk(ts, p)
  {
    && PacerOk(ts, q) && q.cur == Around(p.cur, 1, |ts|) && q.flowcnt == p.flowcnt
    && q.meters == if Spent(ts, p.flowcnt, p.cur) then p.meters
      else p.meters[p.cur := p.meters[p.cur].Updated(1.0, now).0]
  }

  lemma RestGrants(ts: seq<Template>, p: Pacer, q: Pacer, now: real, left: nat, k: nat)
    requires PacerOk(ts, p) && left <= |ts| && FirstGrant(ts, p, now, left, k) && k > 0 && PassedOn(ts, p, q, now)
    ensures FirstGrant(ts, q, now, left - 1, k - 1)
  {
    hide Meter.Updated, Spent;
    forall j | 0 <= j < k && j + 1 < |ts|
      ensures Grants(ts, q, now, Around(q.cur, j, |ts|)) == Grants(ts, p, now, Around(p.cur, j + 1, |ts|))
    {
      AroundNext(p.cur, j, |ts|);
      AroundNext(p.cur, j + 1, |ts|);
    }
  }

  lemma TurnSpentNext(ts: seq<Template>, p: Pacer, q: Pacer, now: real, left: nat)
    requires PacerOk(ts, p) && 0 < left <= |ts| && PassedOn(ts, p, q, now)
    ensures TurnSpent(ts, p, left) <==> Spent(ts, p.flowcnt, p.cur) && TurnSpent(ts, q, left - 1)
  {
    hide Meter.Updated, Spent;
    AroundNext(p.cur, 0, |ts|);
    forall j | 0 <= j < left - 1
      ensures Around(q.cur, j, |ts|) == Around(p.cur, j + 1, |ts|)
    {
      AroundNext(p.cur, j, |ts|);
    }
    if Spent(ts, p.flowcnt, p.cur) && TurnSpent(ts, q, left - 1) {
      forall j | 0 <= j < left
        ensures Spent(ts, p.flowcnt, Around(p.cur, j, |ts|))
      {
        if j > 0 {
          assert Spent(ts, q.flowcnt, Around(q.cur, j - 1, |ts|));
        }
      }
    }
  }

  lemma RestOfTurn(ts: seq<Template>, p: Pacer, q: Pacer, now: real, left: nat, k: nat)
    requires PacerOk(ts, p) && 0 < k <= left <= |ts| && PassedOn(ts, p, q, now)
    requires GoesTo(ts, q, now, left - 1, k - 1, Pick(ts, q, now, left - 1))
    ensures
      var r := Pick(ts, q, now, left - 1);
      GoesTo(ts, p, now, left, k, r.(done := r.done && Spent(ts, p.flowcnt, p.cur)))
  {
    hide Meter.Updated, Spent, Pick, TurnSpent;
    var n, r := |ts|, Pick(ts, q, now, left - 1);
    TurnSpentNext(ts, p, q, now, left);
    if k < left {
      AroundNext(p.cur, k - 1, n);
    }
    forall j | 0 <= j < n
      ensures r.pacer.meters[Around(p.cur, j, n)] == MeterAfter(ts, p, now, left, k, j)
    {
      var j' := if j == 0 then n - 1 else j - 1;
      AroundNext(p.cur, j, n);
      AroundNext(p.cur, j', n);
      assert r.pacer.meters[Around(q.cur, j', n)] == MeterAfter(ts, q, now, left - 1, k - 1, j');
    }
  }

  lemma {:induction false} FirstGrantExists(ts: seq<Template>, p: Pacer, now: real, left: nat) returns (k: nat)
    requires PacerOk(ts, p) && left <= |ts|
    ensures FirstGrant(ts, p, now, left, k)
    decreases left
  {
    hide Grants;
    k := 0;
    if left > 0 {
      k := FirstGrantExists(ts, p, now, left - 1);
      if k == left - 1 && !Grants(ts, p, now, Around(p.cur, k, |ts|)) {
        k := left;
      }
    }
  }

  /** A chance reports that no more flows are to come just when every template is spent. */
  lemma DoneMeansSpent(ts: seq<Template>, p: Pacer, now: real)
    requires PacerOk(ts, p)
    ensures
      var r := Pick(ts, p, now, |ts|);
      && (r.done <==> AllSpent(ts, p.flowcnt))
      && (r.found.None? ==> r.pacer.flowcnt == p.flowcnt)
  {
    hide Pick, Spent;
    var k := FirstGrantExists(ts, p, now, |ts|);
    FirstGrantWins(ts, p, now, |ts|, k);
    if TurnSpent(ts, p, |ts|) {
      forall i | 0 <= i < |ts|
        ensures Spent(ts, p.flowcnt, i)
      {
        var j := if i >= p.cur then i - p.cur else i + |ts| - p.cur;
        assert Around(p.cur, j, |ts|) == i;
      }
    }
  }

  lemma {:induction false} PickMoves(ts: seq<Template>, p: Pacer, now: real, left: nat)
    requires PacerOk(ts, p) && left <= |ts|
    ensures
      var r := Pick(ts, p, now, left);
      r.pacer.cur == if r.found.Some? then r.found.value else Around(p.cur, left, |ts|)
    decreases left
  {
    hide Meter.Updated, Spent;
    if left > 0 {
      AroundNext(p.cur, left - 1, |ts|);
      AroundNext(p.cur, 0, |ts|);
      PickMoves(ts, p.(cur := Around(p.cur, 1, |ts|)), now, left - 1);
      PickMoves(ts, Asked(ts, p, now).0.(cur := Around(p.cur, 1, |ts|)), now, left - 1);
    }
  }

  /** After a start it is the turn of the template behind the one that started; a chance that nobody uses
      leaves the turn where it was. */
  lemma TurnPasses(ts: seq<Template>, p: Pacer, now: real)
    requires PacerOk(ts, p)
    ensures
      var r := Turn(ts, p, now);
      r.pacer.cur == if r.found.Some? then (r.found.value + 1) % |ts| else p.cur
  {
    hide Pick;
    PickMoves(ts, p, now, |ts|);
    AroundNext(p.cur, 0, |ts|);
    var r := Pick(ts, p, now, |ts|);
    if r.found.Some? {
      AroundIs(r.found.value, 1, |ts|);
    }
  }

  /** No more flows come just when every template is limited and has started as many as it may. */
  lemma SpentMeansLimit(ts: seq<Template>, births: map<FlowId, Birth>, nextId: FlowId, flowsOf: seq<seq<FlowId>>,
                        starts: seq<seq<real>>, flowcnt: seq<nat>)
    requires PaceOk(ts, births, nextId, flowsOf, starts, flowcnt, None)
    ensures |ts| == |flowcnt| == |flowsOf|
    ensures AllSpent(ts, flowcnt)
       <==> forall i | 0 <= i < |ts| :: ts[i].limitSet && |flowsOf[i]| == ts[i].limit
  {
    forall i | 0 <= i < |ts|
      ensures Spent(ts, flowcnt, i) <==> ts[i].limitSet && |flowsOf[i]| == ts[i].limit
    {
      assert TemplatePaceOk(ts[i], i, births, nextId, flowsOf[i], starts[i], flowcnt[i], false);
    }
  }

  /** When chance number `k` comes, counting from 0. */
  ghost function TickAt(first: real, step: real, k: nat): real {
    if k == 0 then first else TickAt(first, step, k - 1) + step
  }

  lemma {:induction false} TickTimes(first: real, step: real, k: nat)
    ensures TickAt(first, step, k) == first + k as real * step
  {
    if k > 0 {
      TickTimes(first, step, k - 1);
    }
  }

  datatype Generated = Generated(pacer: Pacer, births: seq<Birth>)

  /** The flows started by the first `n` chances, in order. */
  ghost function Generate(ts: seq<Template>, origin: Pacer, first: real, step: real, n: nat): (g: Generated)
    requires PacerOk(ts, origin)
    ensures PacerOk(ts, g.pacer)
  {
    if n == 0 then Generated(origin, [])
    else
      var g := Generate(ts, origin, first, step, n - 1);
      var now := TickAt(first, step, n - 1);
      var r := Turn(ts, g.pacer, now);
      Generated(r.pacer, g.births + if r.found.Some? then [Birth(r.found.value, now)] else [])
  }

  /** The flows of a thread by their ids, which count from 1. */
  ghost function Numbered(births: seq<Birth>): map<FlowId, Birth> {
    if births == [] then map[] else Numbered(births[..|births| - 1])[|births| := births[|births| - 1]]
  }

  lemma {:induction false} NumberedAt(births: seq<Birth>, f: FlowId)
    ensures f in Numbered(births) <==> 1 <= f <= |births|
    ensures 1 <= f <= |births| ==> Numbered(births)[f] == births[f - 1]
  {
    if births != [] {
      NumberedAt(births[..|births| - 1], f);
    }
  }

  /** The pacer a run started with, when its chances come, and how many have come. */
  datatype Traffic = Traffic(origin: Pacer, first: real, step: real, ticks: nat)

  /** Exactly the flows were started that the chances so far grant. */
  ghost predicate TrafficOk(ts: seq<Template>, p: Pacer, births: map<FlowId, Birth>, nextId: FlowId, tr: Traffic) {
    && PacerOk(ts, tr.origin)
    && var g := Generate(ts, tr.origin, tr.first, tr.step, tr.ticks);
    && g.pacer == p && births == Numbered(g.births) && nextId == |g.births| + 1
  }

  /** The flows of a thread after a chance that went to template `found`. */
  ghost function BirthsAfter(births: map<FlowId, Birth>, nextId: FlowId, found: Option<nat>, now: real)
    : map<FlowId, Birth>
  {
    if found.Some? then births[nextId := Birth(found.value, now)] else births
  }

  function NextIdAfter(nextId: FlowId, found: Option<nat>): FlowId {
    if found.Some? then nextId + 1 else nextId
  }

  lemma TrafficBegins(ts: seq<Template>, p: Pacer, first: real, step: real)
    requires PacerOk(ts, p)
    ensures TrafficOk(ts, p, map[], 1, Traffic(p, first, step, 0))
  {
  }

  /** One more chance. */
  lemma TrafficGrows(ts: seq<Template>, p: Pacer, births: map<FlowId, Birth>, nextId: FlowId, tr: Traffic, now: real)
    requires TrafficOk(ts, p, births, nextId, tr) && PacerOk(ts, p) && now == TickAt(tr.first, tr.step, tr.ticks)
    ensures
      var r := Turn(ts, p, now);
      TrafficOk(ts, r.pacer, BirthsAfter(births, nextId, r.found, now), NextIdAfter(nextId, r.found),
                tr.(ticks := tr.ticks + 1))
  {
    hide Turn, TickAt;
    var g := Generate(ts, tr.origin, tr.first, tr.step, tr.ticks);
    var r := Turn(ts, p, now);
    if r.found.Some? {
      var b := Birth(r.found.value, now);
      assert (g.births + [b])[..|g.births|] == g.births;
    } else {
      assert g.births + [] == g.births;
    }
  }

  lemma {:induction false} AtMostOnePerChance(ts: seq<Template>, origin: Pacer, first: real, step: real, n: nat)
    requires PacerOk(ts, origin)
    ensures |Generate(ts, origin, first, step, n).births| <= n
  {
    if n > 0 {
      AtMostOnePerChance(ts, origin, first, step, n - 1);
    }
  }

  /** The chances came while the first pass went on, and they came until it ended or until every
      template was spent. */
  ghost predicate ChancesUsed(ts: seq<Template>, flowcnt: seq<nat>, tr: Traffic, stop: real)
    requires |ts| == |flowcnt|
  {
    && (tr.ticks > 0 ==> TickAt(tr.first, tr.step, tr.ticks - 1) <= stop)
    && (AllSpent(ts, flowcnt) || stop <= TickAt(tr.first, tr.step, tr.ticks))
  }

  /** A template that may start flows and whose turn comes first starts one with the first chance of a
      run that lasts any time at all. */
  lemma {:induction false} FirstFlow(ts: seq<Template>, p: Pacer, tr: Traffic, stop: real, births: map<FlowId, Birth>,
                                     nextId: FlowId)
    requires TrafficOk(ts, p, births, nextId, tr) && |p.flowcnt| == |ts| && ChancesUsed(ts, p.flowcnt, tr, stop)
    requires tr.origin.meters[tr.origin.cur].lastTime == 0.0 && !Spent(ts, tr.origin.flowcnt, tr.origin.cur)
    requires tr.first < stop
    ensures 1 in births && births[1] == Birth(tr.origin.cur, tr.first)
  {
    hide Meter.Updated;
    if tr.ticks == 0 {
      assert false;
    }
    FirstStart(ts, tr.origin, tr.first, tr.step, tr.ticks);
    NumberedAt(Generate(ts, tr.origin, tr.first, tr.step, tr.ticks).births, 1);
  }

  lemma {:induction false} FirstStart(ts: seq<Template>, origin: Pacer, first: real, step: real, n: nat)
    requires PacerOk(ts, origin) && n > 0
    requires origin.meters[origin.cur].lastTime == 0.0 && !Spent(ts, origin.flowcnt, origin.cur)
    ensures Generate(ts, origin, first, step, n).births != []
    ensures Generate(ts, origin, first, step, n).births[0] == Birth(origin.cur, first)
    decreases n
  {
    if n == 1 {
      assert TickAt(first, step, 0) == first;
      assert Generate(ts, origin, first, step, 0) == Generated(origin, []);
      assert Turn(ts, origin, first).found == Some(origin.cur);
    } else {
      FirstStart(ts, origin, first, step, n - 1);
    }
  }

  // ----- taking turns -----

  /** The meter of the template whose turn it is grants each of the first `n` chances. */
  ghost predicate EachGrants(ts: seq<Template>, origin: Pacer, first: real, step: real, n: nat)
    requires PacerOk(ts, origin)
  {
    forall k: nat | k < n :: ChanceGranted(ts, origin, first, step, k)
  }

  ghost predicate ChanceGranted(ts: seq<Template>, origin: Pacer, first: real, step: real, k: nat)
    requires PacerOk(ts, origin)
  {
    var p := Generate(ts, origin, first, step, k).pacer;
    Grants(ts, p, TickAt(first, step, k), p.cur)
  }

  lemma NextModulo(cur: nat, k: nat, n: nat)
    requires cur < n
    ensures ((cur + k) % n + 1) % n == (cur + k + 1) % n
  {
    var q := (cur + k) / n;
    assert cur + k + 1 == q * n + ((cur + k) % n + 1);
    AroundIs((cur + k) % n, 1, n);
    if (cur + k) % n + 1 == n {
      assert cur + k + 1 == (q + 1) * n;
      ModuloIs(cur + k + 1, q + 1, n, 0);
      ModuloIs(n, 1, n, 0);
    } else {
      ModuloIs(cur + k + 1, q, n, (cur + k) % n + 1);
      ModuloIs((cur + k) % n + 1, 0, n, (cur + k) % n + 1);
    }
  }

  lemma AtLeastOnce(d: int, n: int)
    requires n > 0
    ensures (d >= 1 ==> d * n >= n) && (d <= -1 ==> d * n <= -n)
  {
    if d <= -1 {
      assert d * n == -((-d) * n);
    }
  }

  lemma ModuloIs(x: nat, q: nat, n: nat, r: nat)
    requires r < n && x == q * n + r
    ensures x % n == r
  {
    var d := x / n - q;
    assert d * n == r - x % n;
    AtLeastOnce(d, n);
  }

  /** While every meter that is asked grants, the templates start flows in turn, one with every chance. */
  lemma {:induction false} RoundRobin(ts: seq<Template>, origin: Pacer, first: real, step: real, n: nat)
    requires PacerOk(ts, origin) && EachGrants(ts, origin, first, step, n)
    ensures
      var g := Generate(ts, origin, first, step, n);
      && g.pacer.cur == (origin.cur + n) % |ts| && |g.births| == n
      && forall k | 0 <= k < n :: g.births[k] == Birth((origin.cur + k) % |ts|, first + k as real * step)
  {
    hide Turn, Grants;
    if n == 0 {
      ModuloIs(origin.cur, 0, |ts|, origin.cur);
    } else {
      assert ChanceGranted(ts, origin, first, step, n - 1);
      RoundRobin(ts, origin, first, step, n - 1);
      TickTimes(first, step, n - 1);
      NextModulo(origin.cur, n - 1, |ts|);
      var g := Generate(ts, origin, first, step, n - 1);
      GrantIsTaken(ts, g.pacer, TickAt(first, step, n - 1));
    }
  }

  /** A template whose turn it is and whose meter grants starts a flow, and the turn passes on by one. */
  lemma GrantIsTaken(ts: seq<Template>, p: Pacer, now: real)
    requires PacerOk(ts, p) && Grants(ts, p, now, p.cur)
    ensures
      var r := Turn(ts, p, now);
      && r.found == Some(p.cur) && r.pacer.cur == (p.cur + 1) % |ts|
      && r.pacer.flowcnt == p.flowcnt[p.cur := p.flowcnt[p.cur] + 1]
      && r.pacer.meters == p.meters[p.cur := p.meters[p.cur].Updated(1.0, now).0]
  {
    hide Meter.Updated;
    AroundIs(p.cur, 1, |ts|);
  }

  /** Chance `k` is the turn of template `i`. */
  predicate HasTurn(cur: nat, k: nat, n: nat, i: nat)
    requires 0 < n
  {
    (cur + k) % n == i
  }

  lemma DifferentPlaces(cur: nat, j: nat, k: nat, n: nat)
    requires cur < n && j < k < n
    ensures !HasTurn(cur, j, n, (cur + k) % n)
  {
    AroundIs(cur, j, n);
    AroundIs(cur, k, n);
  }

  /** A template whose turn has not come yet is as it was at first. */
  lemma {:induction false} NotAskedYet(ts: seq<Template>, origin: Pacer, first: real, step: real, n: nat, i: nat)
    requires PacerOk(ts, origin) && EachGrants(ts, origin, first, step, n) && i < |ts|
    requires forall k: nat | k < n :: !HasTurn(origin.cur, k, |ts|, i)
    ensures
      var p := Generate(ts, origin, first, step, n).pacer;
      p.meters[i] == origin.meters[i] && p.flowcnt[i] == origin.flowcnt[i]
  {
    hide Meter.Updated, Turn;
    if n > 0 {
      NotAskedYet(ts, origin, first, step, n - 1, i);
      RoundRobin(ts, origin, first, step, n - 1);
      assert ChanceGranted(ts, origin, first, step, n - 1) && !HasTurn(origin.cur, n - 1, |ts|, i);
      GrantIsTaken(ts, Generate(ts, origin, first, step, n - 1).pacer, TickAt(first, step, n - 1));
    }
  }

  /** No meter has been asked, and every template may start flows. */
  ghost predicate AllFresh(ts: seq<Template>, p: Pacer) {
    PacerOk(ts, p) && forall i | 0 <= i < |ts| :: p.meters[i].lastTime == 0.0 && !Spent(ts, p.flowcnt, i)
  }

  /** In the first round every template is granted its flow, whatever the rates are. */
  lemma {:induction false} FirstRoundGrants(ts: seq<Template>, origin: Pacer, first: real, step: real, n: nat)
    requires AllFresh(ts, origin) && n <= |ts|
    ensures EachGrants(ts, origin, first, step, n)
  {
    hide Generate, Turn, HasTurn;
    if n > 0 {
      FirstRoundGrants(ts, origin, first, step, n - 1);
      RoundRobin(ts, origin, first, step, n - 1);
      var i := (origin.cur + (n - 1)) % |ts|;
      forall k: nat | k < n - 1
        ensures !HasTurn(origin.cur, k, |ts|, i)
      {
        DifferentPlaces(origin.cur, k, n - 1, |ts|);
      }
      NotAskedYet(ts, origin, first, step, n - 1, i);
      assert ChanceGranted(ts, origin, first, step, n - 1);
    }
  }

  /** Later chances take no flow back. */
  lemma {:induction false} EarlierFlows(ts: seq<Template>, origin: Pacer, first: real, step: real, m: nat, n: nat)
    requires PacerOk(ts, origin) && m <= n
    ensures Generate(ts, origin, first, step, m).births <= Generate(ts, origin, first, step, n).births
  {
    hide Turn;
    if m < n {
      EarlierFlows(ts, origin, first, step, m, n - 1);
    }
  }

  /** The flows started by chances that are all granted: flow `f` comes with chance `f - 1`. */
  lemma FlowsTakeTurns(ts: seq<Template>, p: Pacer, births: map<FlowId, Birth>, nextId: FlowId, tr: Traffic, n: nat,
                       f: FlowId)
    requires TrafficOk(ts, p, births, nextId, tr) && n <= tr.ticks
    requires EachGrants(ts, tr.origin, tr.first, tr.step, n) && 1 <= f <= n
    ensures f in births
    ensures births[f] == Birth((tr.origin.cur + (f - 1)) % |ts|, tr.first + (f - 1) as real * tr.step)
  {
    hide EachGrants, Generate, Turn;
    RoundRobin(ts, tr.origin, tr.first, tr.step, n);
    EarlierFlows(ts, tr.origin, tr.first, tr.step, n, tr.ticks);
    NumberedAt(Generate(ts, tr.origin, tr.first, tr.step, tr.ticks).births, f);
  }
}
