/** The token bucket that paces the flow starts of one template. */
module Policing {

  datatype Meter = Meter(cir: real, bucket: real, level: real, lastTime: real) {

    ghost predicate Valid() {
      0.0 <= cir && 0.0 <= level <= bucket
    }

    /** Tokens after the clock has advanced to `now`, never above the bucket. */
    function Refilled(now: real): real {
      if now > lastTime then Min(level + Earned(cir, lastTime, now), bucket) else level
    }

    /** What one request for `size` tokens at time `now` leaves behind, and its verdict. */
    function Updated(size: real, now: real): (Meter, bool) {
      if lastTime == 0.0 then (this.(lastTime := now), true)
      else if cir == 0.0 then (this, false)
      else
        var tokens := Refilled(now);
        var at := if now > lastTime then now else lastTime;
        if tokens > size then (this.(level := tokens - size, lastTime := at), true)
        else (this.(level := tokens, lastTime := at), false)
    }
  }

  /** Tokens earned at rate `cir` between two times. */
  function Earned(cir: real, from: real, to: real): real { (to - from) * cir }

  function Min(x: real, y: real): real { if x > y then y else x }

  /** The bucket every template starts with: empty, one hundred tokens deep. */
  function FreshMeter(cir: real): Meter { Meter(cir, 100.0, 0.0, 0.0) }

  datatype Outcome = Outcome(meter: Meter, admitted: seq<real>)

  /** Requests of one token at the given times, in order, and the times that were admitted. */
  ghost function Run(m: Meter, times: seq<real>): (o: Outcome)
    decreases |times|
  {
    if times == [] then Outcome(m, [])
    else
      var before := Run(m, times[..|times| - 1]);
      var now := times[|times| - 1];
      var (after, ok) := before.meter.Updated(1.0, now);
      Outcome(after, if ok then before.admitted + [now] else before.admitted)
  }

  ghost predicate Clock(times: seq<real>) {
    && (forall i | 0 <= i < |times| :: times[i] > 0.0)
    && (forall i, j | 0 <= i <= j < |times| :: times[i] <= times[j])
  }

  /** A suffix of the admissions, starting with the one at index `i`, together with the tokens
      still in the bucket, is paid for by the bucket and the tokens earned since. The first
      admission of all is free. */
  ghost predicate Paid(m: Meter, o: Outcome, i: nat)
    requires i < |o.admitted|
  {
    var count := (|o.admitted| - i) as real;
    var earned := Earned(m.cir, o.admitted[i], o.meter.lastTime);
    if i == 0 then count - 1.0 + o.meter.level <= m.level + earned
    else count + o.meter.level <= m.bucket + earned
  }

  ghost predicate RunOk(m: Meter, times: seq<real>, o: Outcome) {
    && o.meter.Valid() && o.meter.cir == m.cir && o.meter.bucket == m.bucket
    && (times == [] ==> o.meter == m && o.admitted == [])
    && (times != [] ==>
      && 0.0 < o.meter.lastTime <= times[|times| - 1] && |o.admitted| >= 1
      && o.admitted[0] == times[0]
      && (m.cir > 0.0 ==> o.meter.lastTime == times[|times| - 1]))
    && (forall i | 0 <= i < |o.admitted| :: o.admitted[i] <= o.meter.lastTime)
    && (forall i | 0 <= i < |o.admitted| :: Paid(m, o, i))
  }

  lemma {:induction false} RunKeeps(m: Meter, times: seq<real>)
    requires m.Valid() && m.lastTime == 0.0 && Clock(times)
    ensures RunOk(m, times, Run(m, times))
    decreases |times|
  {
    hide Earned;
    if times != [] {
      var n := |times| - 1;
      RunKeeps(m, times[..n]);
      var o := Run(m, times[..n]);
      var now := times[n];
      EarnedAddsUp(m.cir, now, now, now);
      if n > 0 && m.cir > 0.0 {
        StepKeeps(m, times, o);
      }
    }
  }

  lemma StepKeeps(m: Meter, times: seq<real>, o: Outcome)
    requires m.Valid() && m.lastTime == 0.0 && Clock(times) && |times| > 1 && m.cir > 0.0
    requires RunOk(m, times[..|times| - 1], o)
    ensures
      var now := times[|times| - 1];
      var (after, ok) := o.meter.Updated(1.0, now);
      RunOk(m, times, Outcome(after, if ok then o.admitted + [now] else o.admitted))
  {
    hide Earned;
    var now := times[|times| - 1];
    var (after, ok) := o.meter.Updated(1.0, now);
    var o' := Outcome(after, if ok then o.admitted + [now] else o.admitted);
    assert times[..|times| - 1][|times| - 2] <= now;
    EarnedIsPositive(m.cir, o.meter.lastTime, now);
    EarnedAddsUp(m.cir, now, now, now);
    forall i | 0 <= i < |o'.admitted|
      ensures Paid(m, o', i)
    {
      if i < |o.admitted| {
        assert Paid(m, o, i);
        EarnedAddsUp(m.cir, o.admitted[i], o.meter.lastTime, now);
      }
    }
  }

  lemma EarnedIsPositive(cir: real, a: real, b: real)
    requires cir >= 0.0 && a <= b
    ensures Earned(cir, a, b) >= 0.0
  {
  }

  lemma NothingEarned(a: real, b: real)
    ensures Earned(0.0, a, b) == 0.0
  {
  }

  lemma EarnedAddsUp(cir: real, a: real, b: real, c: real)
    ensures Earned(cir, a, c) == Earned(cir, a, b) + Earned(cir, b, c)
    ensures Earned(cir, a, a) == 0.0
  {
  }

  /** The level stays within the bucket for any nondecreasing positive times. */
  lemma LevelStaysInBucket(m: Meter, times: seq<real>)
    requires m.Valid() && m.lastTime == 0.0 && Clock(times)
    ensures 0.0 <= Run(m, times).meter.level <= m.bucket
  {
    RunKeeps(m, times);
  }

  /** The number of requests that had been made when admission `j` was granted. */
  lemma {:induction false} AdmittedPrefix(m: Meter, times: seq<real>, j: nat) returns (k: nat)
    requires j < |Run(m, times).admitted|
    ensures k <= |times|
    ensures Run(m, times[..k]).admitted == Run(m, times).admitted[..j + 1]
    ensures k > 0 && times[k - 1] == Run(m, times).admitted[j]
    decreases |times|
  {
    var n := |times| - 1;
    var before := Run(m, times[..n]).admitted;
    if j < |before| {
      k := AdmittedPrefix(m, times[..n], j);
      assert times[..n][..k] == times[..k];
    } else {
      k := |times|;
      assert times[..k] == times;
    }
  }

  /** The most admissions that fit between time `from`, when admission number `i` was granted, and
      time `to`. */
  ghost function Allowance(m: Meter, i: nat, from: real, to: real): real {
    (if i == 0 then m.level + 1.0 else m.bucket) + Earned(m.cir, from, to)
  }

  /** Admissions in the closed window between admission `i` and admission `j`: never more than the
      bucket plus what the rate earns over the window. The window that opens with the free first
      admission allows one more than the starting level. */
  lemma AdmissionsInWindow(m: Meter, times: seq<real>, i: nat, j: nat)
    requires m.Valid() && m.lastTime == 0.0 && Clock(times)
    requires i <= j < |Run(m, times).admitted|
    ensures
      var a := Run(m, times).admitted;
      (j - i + 1) as real <= Allowance(m, i, a[i], a[j])
  {
    hide Earned;
    var a := Run(m, times).admitted;
    var k := AdmittedPrefix(m, times, j);
    var asked := times[..k];
    var o := Run(m, asked);
    RunKeeps(m, asked);
    assert asked[|asked| - 1] == a[j] && o.admitted[i] == a[i] && |o.admitted| - i == j - i + 1;
    WindowIsPaid(m, asked, o, i);
  }

  lemma WindowIsPaid(m: Meter, times: seq<real>, o: Outcome, i: nat)
    requires m.Valid() && times != [] && RunOk(m, times, o) && i < |o.admitted|
    ensures (|o.admitted| - i) as real <= Allowance(m, i, o.admitted[i], times[|times| - 1])
  {
    hide Earned;
    var last := times[|times| - 1];
    assert Paid(m, o, i);
    EarnedIsPositive(m.cir, o.meter.lastTime, last);
    EarnedAddsUp(m.cir, o.admitted[i], o.meter.lastTime, last);
  }

  /** A clock that stands at 0.0, which marks a meter that was never asked, has every request admitted. */
  lemma {:induction false} StoppedClockAdmitsAll(m: Meter, times: seq<real>)
    requires m.lastTime == 0.0 && forall i | 0 <= i < |times| :: times[i] == 0.0
    ensures Run(m, times).admitted == times && Run(m, times).meter == m
    decreases |times|
  {
    if times != [] {
      StoppedClockAdmitsAll(m, times[..|times| - 1]);
      assert times == times[..|times| - 1] + [times[|times| - 1]];
    }
  }

  ghost predicate DenseClock(times: seq<real>, cir: real) {
    && Clock(times)
    && forall i | 0 < i < |times| :: Earned(cir, times[i - 1], times[i]) <= 1.0
  }

  ghost predicate OnRate(m: Meter, times: seq<real>, o: Outcome)
    requires times != []
  {
    && o.meter.cir == m.cir && o.meter.bucket == m.bucket
    && 0.0 <= o.meter.level <= 1.0
    && 0.0 < o.meter.lastTime
    && (m.cir > 0.0 ==> o.meter.lastTime == times[|times| - 1])
    && (|o.admitted| - 1) as real + o.meter.level == Earned(m.cir, times[0], times[|times| - 1])
  }

  lemma OnRateStep(m: Meter, times: seq<real>, o: Outcome)
    requires m.Valid() && m.bucket >= 2.0 && DenseClock(times, m.cir) && |times| > 1
    requires OnRate(m, times[..|times| - 1], o)
    ensures
      var now := times[|times| - 1];
      var (after, ok) := o.meter.Updated(1.0, now);
      OnRate(m, times, Outcome(after, if ok then o.admitted + [now] else o.admitted))
  {
    hide Earned;
    var n := |times| - 1;
    EarnedIsPositive(m.cir, times[n - 1], times[n]);
    EarnedAddsUp(m.cir, times[0], times[n - 1], times[n]);
    EarnedAddsUp(m.cir, times[n], times[n], times[n]);
    if m.cir == 0.0 {
      NothingEarned(times[n - 1], times[n]);
    }
  }

  lemma {:induction false} RunOnRate(m: Meter, times: seq<real>)
    requires m.Valid() && m.lastTime == 0.0 && m.level == 0.0 && m.bucket >= 2.0
    requires DenseClock(times, m.cir) && times != []
    ensures OnRate(m, times, Run(m, times))
    decreases |times|
  {
    hide Earned;
    var n := |times| - 1;
    if n > 0 {
      RunOnRate(m, times[..n]);
      OnRateStep(m, times, Run(m, times[..n]));
    } else {
      assert Run(m, times[..n]) == Outcome(m, []);
      EarnedAddsUp(m.cir, times[0], times[0], times[0]);
    }
  }

  /** Starting empty, polled often enough and with a bucket of at least two tokens, the meter loses
      nothing: the admissions after the first follow the rate to within one. */
  lemma AdmissionsFollowRate(m: Meter, times: seq<real>)
    requires m.Valid() && m.lastTime == 0.0 && m.level == 0.0 && m.bucket >= 2.0
    requires DenseClock(times, m.cir) && times != []
    ensures
      var earned := Earned(m.cir, times[0], times[|times| - 1]);
      earned - 1.0 <= (|Run(m, times).admitted| - 1) as real <= earned
  {
    hide Earned;
    RunOnRate(m, times);
  }

  /** A meter that has been idle long enough grants as many requests at once as its bucket holds, less one: a
      request needs more than it takes. */
  lemma {:induction false} BurstAfterIdle(m: Meter, size: nat, now: real, times: seq<real>)
    requires m.Valid() && m.cir > 0.0 && size > 0 && m.bucket == size as real
    requires 0.0 < m.lastTime < now && m.level + Earned(m.cir, m.lastTime, now) >= m.bucket
    requires forall i | 0 <= i < |times| :: times[i] == now
    ensures
      var o := Run(m, times);
      && |o.admitted| == (if |times| < size then |times| else size - 1)
      && (times != [] ==> o.meter == m.(level := (size - |o.admitted|) as real, lastTime := now))
    decreases |times|
  {
    hide Earned;
    if times != [] {
      BurstAfterIdle(m, size, now, times[..|times| - 1]);
    }
  }

  class Policer {
    var cir: real
    var bucketSize: real
    var level: real
    var lastTime: real

    ghost var initial: Meter       // the meter as configured
    ghost var requests: seq<real>  // the times of all requests so far
    ghost var admitted: seq<real>  // the times of those that were granted

    function View(): Meter
      reads this
    {
      Meter(cir, bucketSize, level, lastTime)
    }

    ghost predicate Valid()
      reads this
    {
      && initial.Valid() && initial.lastTime == 0.0
      && Run(initial, requests) == Outcome(View(), admitted)
    }

    constructor (cir: real)
      requires cir >= 0.0
      ensures Valid() && initial == FreshMeter(cir) && requests == [] && admitted == []
    {
      this.cir := cir;
      bucketSize := 100.0;
      level := 0.0;
      lastTime := 0.0;
      initial := FreshMeter(cir);
      requests := [];
      admitted := [];
    }

    method Update(now: real) returns (ok: bool)
      requires Valid()
      modifies this
      ensures Valid() && initial == old(initial)
      ensures requests == old(requests) + [now]
      ensures admitted == if ok then old(admitted) + [now] else old(admitted)
      ensures (View(), ok) == old(View()).Updated(1.0, now)
    {
      ok := Take(1.0, now);
      requests := requests + [now];
      if ok {
        admitted := admitted + [now];
      }
      assert requests[..|requests| - 1] == old(requests);
    }

    method Take(size: real, now: real) returns (ok: bool)
      modifies `level, `lastTime
      ensures (View(), ok) == old(View()).Updated(size, now)
    {
      if lastTime == 0.0 {
        lastTime := now;
        return true;
      }
      if cir == 0.0 {
        return false;
      }
      ghost var tokens := View().Refilled(now);
      if now > lastTime {
        level := level + (now - lastTime) * cir;
        if level > bucketSize {
          level := bucketSize;
        }
        lastTime := now;
      }
      assert level == tokens;
      if level > size {
        level := level - size;
        return true;
      }
      return false;
    }
  }
}
