/** A traffic template: the packets of one capture, and when a flow that replays it emits them. */
module Templates {

  datatype Packet = Packet(
    init: bool,        // sent by the initiator of the template's first flow
    last: bool,        // last packet of the template
    pcapTiming: bool,  // pace by the capture's own gaps
    rtt: bool,         // the next packet goes the other way
    capGap: real,      // gap to the next packet, from the capture
    tcp: bool,
    biDir: bool,       // its flow has packets in both directions
    flowId: nat)       // number of the packet's own flow inside the capture

  datatype Template = Template(
    packets: seq<Packet>,
    plugin: nat,
    pool: nat,         // client pool
    totalFlows: nat,
    ipg: real, rtt: real,
    limitSet: bool, limit: nat, restart: real,
    cir: real)
  {
    function Size(): nat { |packets| }

    /** Whether some packet comes from the responder. */
    ghost predicate Answers() {
      exists i :: 0 <= i < |packets| && !packets[i].init
    }

    ghost predicate Valid() {
      && 0 < |packets|
      && (forall i | 0 <= i < |packets| :: packets[i].last <==> i == |packets| - 1)
      && packets[0].init
      && (packets[0].biDir ==> Answers())
      && (forall i | 0 <= i < |packets| :: packets[i].capGap >= 0.0)
      && ipg >= 0.0 && rtt >= 0.0 && cir >= 0.0
      && (limitSet ==> restart > 0.0 || limit == 0)
      && plugin <= 4
    }

    /** Its flows have packets both ways, so that they are taught their translation in learn mode. */
    predicate TwoWay() { packets != [] && packets[0].biDir }

    /** The time from packet `i` to the next one. */
    function Gap(i: nat): real
      requires i < |packets|
    {
      if packets[i].pcapTiming then packets[i].capGap
      else if packets[i].rtt then rtt
      else ipg
    }

    /** The time from the first packet of a round to packet `i` of the same round. */
    ghost function Offset(i: nat): real
      requires i <= |packets|
    {
      if i == 0 then 0.0 else Offset(i - 1) + Gap(i - 1)
    }

    /** The time a repeating flow takes from the first packet of a round to that of the next. */
    ghost function Period(): real
      requires 0 < |packets|
    {
      Offset(|packets| - 1) + restart
    }

    /** When round `round` of a flow started at `start` begins. */
    ghost function RoundStart(start: real, round: nat): real
      requires 0 < |packets|
    {
      if round == 0 then start else RoundStart(start, round - 1) + Period()
    }

    lemma {:induction false} RoundStartClosed(start: real, round: nat)
      requires 0 < |packets|
      ensures RoundStart(start, round) == start + round as real * Period()
    {
      if round > 0 {
        RoundStartClosed(start, round - 1);
      }
    }

    /** When packet `i` of round `round` is due in a flow started at `start`. */
    ghost function Due(start: real, round: nat, i: nat): real
      requires 0 < |packets| && i <= |packets|
    {
      RoundStart(start, round) + Offset(i)
    }

    /** What a flow started at `start` has emitted after `rounds` whole rounds and `at` packets of
        the next one: index and time of each packet, in order. */
    ghost function Schedule(start: real, rounds: nat, at: nat): seq<Emission>
      requires 0 < |packets| && at <= |packets|
      decreases rounds, at
    {
      if at > 0 then Schedule(start, rounds, at - 1) + [Emission(at - 1, Due(start, rounds, at - 1))]
      else if rounds > 0 then Schedule(start, rounds - 1, |packets|)
      else []
    }

    /** Whether packets [0..at) all come from the initiator. */
    ghost predicate InitPrefix(at: nat)
      requires at <= |packets|
    {
      forall i | 0 <= i < at :: packets[i].init
    }

    lemma {:induction false} OffsetGrows(i: nat, j: nat)
      requires Valid() && i <= j <= |packets|
      ensures Offset(i) <= Offset(j)
    {
      if i < j {
        OffsetGrows(i, j - 1);
      }
    }

    lemma {:induction false} ScheduleLength(start: real, rounds: nat, at: nat)
      requires 0 < |packets| && at <= |packets|
      ensures |Schedule(start, rounds, at)| == rounds * |packets| + at
      decreases rounds, at
    {
      if at > 0 {
        ScheduleLength(start, rounds, at - 1);
      } else if rounds > 0 {
        ScheduleLength(start, rounds - 1, |packets|);
        assert rounds * |packets| == (rounds - 1) * |packets| + |packets|;
      }
    }

    /** The schedule in closed form: every round emits every packet once, in index order, each at
        its own due time. */
    lemma {:induction false} ScheduleAt(start: real, rounds: nat, at: nat, round: nat, i: nat)
      requires 0 < |packets| && at <= |packets| && i < |packets|
      requires round < rounds || (round == rounds && i < at)
      ensures round * |packets| + i < |Schedule(start, rounds, at)|
      ensures Schedule(start, rounds, at)[round * |packets| + i] == Emission(i, Due(start, round, i))
      decreases rounds, at
    {
      ScheduleLength(start, rounds, at);
      if at > 0 {
        ScheduleLength(start, rounds, at - 1);
        if round == rounds && i == at - 1 {
        } else {
          ScheduleAt(start, rounds, at - 1, round, i);
        }
      } else {
        ScheduleAt(start, rounds - 1, |packets|, round, i);
      }
    }
  }

  datatype Emission = Emission(index: nat, time: real)

  ghost predicate TemplatesOk(ts: seq<Template>) {
    forall i | 0 <= i < |ts| :: ts[i].Valid()
  }

  lemma NextDue(t: Template, start: real, round: nat, i: nat)
    requires i < t.Size()
    ensures t.Due(start, round, i + 1) == t.Due(start, round, i) + t.Gap(i)
  {
  }

  lemma NextRoundDue(t: Template, start: real, round: nat)
    requires t.Valid()
    ensures t.Due(start, round + 1, 0) == t.Due(start, round, t.Size() - 1) + t.restart
  {
  }
}
