/** The per-flow receive counters of a port: 32-bit hardware counters that wrap, accumulated in 64 bits. */
module RxCounters {

  const FDIR_STATS := 128
  const U32 := 0x1_0000_0000
  const U64 := 0x1_0000_0000_0000_0000

  // ----- one counter -----

  /** What the driver takes for the growth of a hardware counter since it last looked. */
  function Growth(hw: nat, prev: nat): nat
    requires hw < U32 && prev < U32
  {
    if hw >= prev then hw - prev else hw + U32 - prev
  }

  datatype Slot = Slot(rx: nat, prev: nat)

  /** One read of one counter: the new state, and what the caller gets. The first read only takes note
      of the hardware. */
  function ReadSlot(s: Slot, first: bool, hw: nat, reset: bool): (Slot, nat)
    requires hw < U32 && s.prev < U32
  {
    if first then (s.(prev := hw), 0)
    else
      var sum := (s.rx + Growth(hw, s.prev)) % U64;
      (Slot(if reset then 0 else sum, hw), sum)
  }

  // ----- the counters of a port -----

  class PhyEthIF {
    const rxPerFlow: array<nat>
    const prevStats: array<nat>
    var firstTime: bool

    constructor (prev: array<nat>)
      requires prev.Length == FDIR_STATS && forall i | 0 <= i < FDIR_STATS :: prev[i] < U32
      ensures prevStats == prev && Valid() && firstTime && fresh(rxPerFlow)
      ensures forall i | 0 <= i < FDIR_STATS :: SlotAt(i) == Slot(0, prev[i])
    {
      rxPerFlow := new nat[FDIR_STATS](_ => 0);
      prevStats := prev;
      firstTime := true;
    }

    ghost predicate Valid()
      reads prevStats
    {
      && rxPerFlow.Length == prevStats.Length == FDIR_STATS && rxPerFlow != prevStats
      && forall i | 0 <= i < FDIR_STATS :: prevStats[i] < U32
    }

    ghost function SlotAt(i: nat): Slot
      requires Valid() && i < FDIR_STATS
      reads rxPerFlow, prevStats
    {
      Slot(rxPerFlow[i], prevStats[i])
    }

    /** The driver's part: growths since the last look, which this look becomes. */
    method DriverStats(hw: seq<nat>, diff: array<nat>)
      requires Valid() && |hw| == diff.Length == FDIR_STATS && diff != prevStats && diff != rxPerFlow
      requires forall i | 0 <= i < FDIR_STATS :: hw[i] < U32
      modifies prevStats, diff
      ensures Valid() && prevStats[..] == hw
      ensures forall i | 0 <= i < FDIR_STATS :: diff[i] == Growth(hw[i], old(prevStats[i]))
    {
      for i := 0 to FDIR_STATS
        invariant forall k | 0 <= k < i :: prevStats[k] == hw[k] && diff[k] == Growth(hw[k], old(prevStats[k]))
        invariant forall k | i <= k < FDIR_STATS :: prevStats[k] == old(prevStats[k])
      {
        if hw[i] >= prevStats[i] {
          diff[i] := hw[i] - prevStats[i];
        } else {
          diff[i] := hw[i] + U32 - prevStats[i];
        }
        prevStats[i] := hw[i];
      }
    }

    /** Reads all counters; -1 if the driver has none. Only the first read may reset with nowhere to put
        the counts. */
    method GetRxStats(supported: bool, hw: seq<nat>, stats: array?<nat>, reset: bool) returns (ret: int)
      requires Valid() && |hw| == FDIR_STATS && forall i | 0 <= i < FDIR_STATS :: hw[i] < U32
      requires stats != null ==> stats.Length == FDIR_STATS && stats != prevStats && stats != rxPerFlow
      requires stats == null && reset && supported ==> firstTime
      modifies this, rxPerFlow, prevStats, stats
      ensures Valid() && (ret == 0 <==> supported) && (ret == -1 <==> !supported)
      ensures if supported then
          !firstTime && forall i | 0 <= i < FDIR_STATS ::
            SlotAt(i) == ReadSlot(old(SlotAt(i)), old(firstTime), hw[i], reset).0
            && (stats != null ==> stats[i] == ReadSlot(old(SlotAt(i)), old(firstTime), hw[i], reset).1)
        else
          firstTime == old(firstTime) && (forall i | 0 <= i < FDIR_STATS :: SlotAt(i) == old(SlotAt(i)))
          && (stats != null ==> stats[..] == old(stats[..]))
    {
      hide Growth;
      if !supported { return -1; }
      var diff := new nat[FDIR_STATS];
      DriverStats(hw, diff);
      if firstTime {
        firstTime := false;
        if stats != null {
          forall i | 0 <= i < FDIR_STATS { stats[i] := 0; }
        }
        return 0;
      }
      for i := 0 to FDIR_STATS
        invariant forall k | 0 <= k < i ::
          Slot(rxPerFlow[k], hw[k]) == ReadSlot(old(SlotAt(k)), false, hw[k], reset).0
          && (stats != null ==> stats[k] == ReadSlot(old(SlotAt(k)), false, hw[k], reset).1)
        invariant forall k | i <= k < FDIR_STATS :: rxPerFlow[k] == old(rxPerFlow[k])
        invariant prevStats[..] == hw && !firstTime
        invariant forall k | 0 <= k < FDIR_STATS :: diff[k] == Growth(hw[k], old(prevStats[k]))
      {
        if reset {
          stats[i] := (rxPerFlow[i] + diff[i]) % U64;
          rxPerFlow[i] := 0;
        } else {
          rxPerFlow[i] := (rxPerFlow[i] + diff[i]) % U64;
          if stats != null {
            stats[i] := rxPerFlow[i];
          }
        }
      }
      ret := 0;
    }

    /** The driver's part for one counter: the card's count `hw` of it comes in at place 0 of a buffer in
        which anything may stand, and is looked for at place `index`. */
    method DriverStat(index: nat, hw: nat, buffer: array<nat>, diff: array<nat>)
      requires Valid() && index < FDIR_STATS && hw < U32
      requires buffer.Length == diff.Length == FDIR_STATS && forall i | 0 <= i < FDIR_STATS :: buffer[i] < U32
      requires buffer != diff && {buffer, diff} !! {prevStats, rxPerFlow}
      modifies prevStats, buffer, diff
      ensures Valid() && prevStats[..] == old(prevStats[..])[index := Filled(old(buffer[..]), hw)[index]]
      ensures diff[index] == Growth(Filled(old(buffer[..]), hw)[index], old(prevStats[index]))
    {
      buffer[0] := hw;
      if buffer[index] >= prevStats[index] {
        diff[index] := buffer[index] - prevStats[index];
      } else {
        diff[index] := buffer[index] + U32 - prevStats[index];
      }
      prevStats[index] := buffer[index];
    }

    /** Reads one counter, whose count on the card is `hw`; `was` is what stood in the driver's buffer. */
    method GetRxStat(supported: bool, index: nat, hw: nat, was: seq<nat>, stats: array?<nat>, reset: bool)
      returns (ret: int)
      requires Valid() && index < FDIR_STATS && hw < U32
      requires |was| == FDIR_STATS && forall i | 0 <= i < FDIR_STATS :: was[i] < U32
      requires stats != null ==> stats.Length == FDIR_STATS && stats != prevStats && stats != rxPerFlow
      requires stats == null && reset && supported ==> firstTime
      modifies this, rxPerFlow, prevStats, stats
      ensures Valid() && ret == (if supported then 0 else -1)
      ensures forall i | 0 <= i < FDIR_STATS && i != index :: SlotAt(i) == old(SlotAt(i))
      ensures supported ==>
        var (slot, given) := ReadSlot(old(SlotAt(index)), old(firstTime), Filled(was, hw)[index], reset);
        !firstTime && SlotAt(index) == slot && (stats != null ==> stats[index] == given)
      ensures !supported ==> firstTime == old(firstTime) && SlotAt(index) == old(SlotAt(index))
      ensures !supported && stats != null ==> stats[..] == old(stats[..])
      ensures supported && stats != null ==>
        forall i | 0 <= i < FDIR_STATS && i != index :: stats[i] == if old(firstTime) then 0 else old(stats[i])
    {
      if !supported { return -1; }
      var buffer := new nat[FDIR_STATS](i requires 0 <= i < FDIR_STATS => was[i]);
      var diff := new nat[FDIR_STATS];
      assert buffer[..] == was;
      DriverStat(index, hw, buffer, diff);
      ret := 0;
      if firstTime {
        firstTime := false;
        if stats != null {
          forall i | 0 <= i < FDIR_STATS { stats[i] := 0; }
        }
        return;
      }
      if reset {
        stats[index] := (rxPerFlow[index] + diff[index]) % U64;
        rxPerFlow[index] := 0;
      } else {
        rxPerFlow[index] := (rxPerFlow[index] + diff[index]) % U64;
        if stats != null {
          stats[index] := rxPerFlow[index];
        }
      }
    }
  }

  /** The driver's buffer once the card has delivered the one count asked for. */
  function Filled(was: seq<nat>, hw: nat): seq<nat>
    requires was != []
  {
    was[0 := hw]
  }

  /** What the card may have counted, and what may have stood in the buffer. */
  predicate Readable(was: seq<nat>, hw: nat) {
    |was| == FDIR_STATS && hw < U32 && forall i | 0 <= i < FDIR_STATS :: was[i] < U32
  }

  /** A read of a single counter leaves the state that a read of this counter should leave just when the
      place looked at holds the card's count. */
  lemma SingleReadIsRight(s: Slot, first: bool, index: nat, was: seq<nat>, hw: nat, reset: bool)
    requires index < FDIR_STATS && Readable(was, hw) && s.prev < U32
    ensures ReadSlot(s, first, Filled(was, hw)[index], reset) == ReadSlot(s, first, hw, reset)
       <==> Filled(was, hw)[index] == hw
  {
  }

  /** Whatever stands in the buffer, a read of a single counter can be relied on just when it is counter 0. */
  lemma SingleReadsAreRight(index: nat)
    requires index < FDIR_STATS
    ensures (forall s: Slot, first, was, hw, reset | Readable(was, hw) && s.prev < U32 ::
               ReadSlot(s, first, Filled(was, hw)[index], reset) == ReadSlot(s, first, hw, reset))
       <==> index == 0
  {
    if index != 0 {
      var was := seq(FDIR_STATS, _ => 0);
      assert Readable(was, 1);
      SingleReadIsRight(Slot(0, 0), false, index, was, 1, true);
      assert ReadSlot(Slot(0, 0), false, Filled(was, 1)[index], true) != ReadSlot(Slot(0, 0), false, 1, true);
    }
  }

  // ----- whole histories of one counter -----

  /** A read when the hardware had counted `count` packets in all. */
  datatype Read = Read(count: nat, reset: bool)

  predicate Counting(looks: seq<Read>) {
    && (forall i, j | 0 <= i < j < |looks| :: looks[i].count <= looks[j].count)
    && (forall i | 0 <= i < |looks| :: looks[i].count < U64)
  }

  /** The counter after the reads, and the sum of what the resetting ones returned. */
  function After(prev: nat, looks: seq<Read>): (r: (Slot, nat))
    requires prev < U32
    ensures r.0.prev < U32
  {
    if looks == [] then (Slot(0, prev), 0)
    else
      var last := looks[|looks| - 1];
      var (s, given) := After(prev, looks[..|looks| - 1]);
      var (s', returned) := ReadSlot(s, |looks| == 1, last.count % U32, last.reset);
      (s', if last.reset then given + returned else given)
  }

  /** The counts that whole turns of the hardware counter between two reads hide. */
  function Hidden(looks: seq<Read>): nat
    requires Counting(looks)
  {
    if |looks| < 2 then 0
    else Hidden(looks[..|looks| - 1]) + Turns(Grew(looks, |looks| - 1)) * U32
  }

  function Grew(looks: seq<Read>, i: nat): nat
    requires Counting(looks) && 0 < i < |looks|
  {
    looks[i].count - looks[i - 1].count
  }

  function Turns(growth: nat): nat { growth / U32 }

  lemma GrowthIsModular(c: nat, c': nat)
    requires c <= c'
    ensures Growth(c' % U32, c % U32) == (c' - c) % U32
  {
  }

  /** What the resetting reads returned, what is still held, and what whole turns hid make up the packets
      counted since the first read. */
  lemma {:induction false} Account(prev: nat, looks: seq<Read>)
    requires prev < U32 && Counting(looks) && looks != []
    ensures
      var (s, given) := After(prev, looks);
      && given + s.rx + Hidden(looks) == looks[|looks| - 1].count - looks[0].count
      && s.prev == looks[|looks| - 1].count % U32
  {
    hide Growth, Turns;
    if |looks| > 1 {
      var before, last := looks[..|looks| - 1], looks[|looks| - 1];
      Account(prev, before);
      var c := before[|before| - 1].count;
      assert c == looks[|looks| - 2].count && c <= last.count;
      GrowthAndTurns(c, last.count);
    }
  }

  lemma GrowthAndTurns(c: nat, c': nat)
    requires c <= c'
    ensures Growth(c' % U32, c % U32) + Turns(c' - c) * U32 == c' - c
  {
    GrowthIsModular(c, c');
  }

  lemma {:induction false} HiddenIsZero(looks: seq<Read>)
    requires Counting(looks)
    ensures Hidden(looks) == 0 <==> forall i | 0 < i < |looks| :: Grew(looks, i) < U32
  {
    if |looks| >= 2 {
      var before, n := looks[..|looks| - 1], |looks|;
      HiddenIsZero(before);
      assert forall i | 0 < i < n - 1 :: Grew(looks, i) == Grew(before, i);
      assert Turns(Grew(looks, n - 1)) == 0 <==> Grew(looks, n - 1) < U32;
    }
  }

  /** No packet is lost or counted twice, whatever mix of resetting and plain reads, just when the hardware
      counter never grew by 2^32 or more between two reads. */
  lemma Conservation(prev: nat, looks: seq<Read>)
    requires prev < U32 && Counting(looks) && looks != []
    ensures
      var (s, given) := After(prev, looks);
      given + s.rx == looks[|looks| - 1].count - looks[0].count
      <==> forall i | 0 < i < |looks| :: Grew(looks, i) < U32
  {
    Account(prev, looks);
    HiddenIsZero(looks);
  }

  // ----- what a single read returns -----

  /** What the last of the reads returned. */
  function Returned(prev: nat, looks: seq<Read>): nat
    requires prev < U32 && looks != []
  {
    var last := looks[|looks| - 1];
    ReadSlot(After(prev, looks[..|looks| - 1]).0, |looks| == 1, last.count % U32, last.reset).1
  }

  /** Read `b` is the last before read `n` that reset the counter, or the first of all if none did. */
  predicate IsBase(looks: seq<Read>, b: nat, n: nat) {
    b < n <= |looks| && (b == 0 || looks[b].reset) && forall i | b < i < n :: !looks[i].reset
  }

  lemma {:induction false} BaseExists(looks: seq<Read>, n: nat) returns (b: nat)
    requires 0 < n <= |looks|
    ensures IsBase(looks, b, n)
  {
    if n == 1 || looks[n - 1].reset {
      b := n - 1;
    } else {
      b := BaseExists(looks, n - 1);
    }
  }

  /** A read that resets leaves what a first read leaves. */
  lemma {:induction false} AfterReset(prev: nat, looks: seq<Read>, b: nat)
    requires prev < U32 && b < |looks| && (b == 0 || looks[b].reset)
    ensures After(prev, looks).0 == After(prev, looks[b..]).0
    decreases |looks|
  {
    hide Growth;
    var before := looks[..|looks| - 1];
    if b < |looks| - 1 {
      AfterReset(prev, before, b);
      assert before[b..] == looks[b..][..|looks[b..]| - 1];
    } else {
      FirstLook(prev, looks[b..]);
      assert looks[b..] == [looks[b]];
      if b == 0 {
        assert looks == looks[b..];
      }
    }
  }

  lemma FirstLook(prev: nat, looks: seq<Read>)
    requires prev < U32 && |looks| == 1
    ensures After(prev, looks) == (Slot(0, looks[0].count % U32), 0) && Returned(prev, looks) == 0
  {
    assert looks[..0] == [];
  }

  lemma {:induction false} NothingGiven(prev: nat, looks: seq<Read>)
    requires prev < U32 && looks != [] && forall i | 0 < i < |looks| :: !looks[i].reset
    ensures After(prev, looks).1 == 0
  {
    hide Growth;
    if |looks| == 1 {
      FirstLook(prev, looks);
    } else {
      NothingGiven(prev, looks[..|looks| - 1]);
    }
  }

  /** The first read returns 0. Every later one, resetting or not, returns what the card counted since the last
      resetting read before it, or since the first read if there is none, just when the hardware counter did
      not grow by 2^32 or more between two reads since. */
  lemma ReadReturnsGrowth(prev: nat, looks: seq<Read>, b: nat)
    requires prev < U32 && Counting(looks) && looks != []
    ensures |looks| == 1 ==> Returned(prev, looks) == 0
    ensures |looks| > 1 && IsBase(looks, b, |looks| - 1) ==>
      (Returned(prev, looks) == looks[|looks| - 1].count - looks[b].count
       <==> forall i | b < i < |looks| :: Grew(looks, i) < U32)
  {
    hide Growth, After, ReadSlot, Hidden;
    if |looks| == 1 {
      FirstLook(prev, looks);
    } else if IsBase(looks, b, |looks| - 1) {
      var rest := looks[b..];
      var n := |rest| - 1;
      assert looks[..|looks| - 1][b..] == rest[..n];
      AfterReset(prev, looks[..|looks| - 1], b);
      assert Returned(prev, looks) == Returned(prev, rest);
      NothingGiven(prev, rest[..n]);
      Account(prev, rest);
      LastRead(prev, rest);
      HiddenIsZero(rest);
      assert forall i | b < i < |looks| :: Grew(looks, i) == Grew(rest, i - b);
      assert forall i | 0 < i < |rest| :: Grew(rest, i) == Grew(looks, i + b);
    }
  }

  /** What a read returns is given away if it resets, and held if it does not. */
  lemma LastRead(prev: nat, looks: seq<Read>)
    requires prev < U32 && |looks| > 1
    ensures
      var (s, given) := After(prev, looks);
      s.rx + given == After(prev, looks[..|looks| - 1]).1 + Returned(prev, looks)
  {
    hide Growth;
  }
}
