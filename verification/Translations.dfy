/** The two ends of NAT learning together: what the receive core makes of the tagged packets it sees is what
    the traffic threads rely on. */
module Translations {
  import opened Nodes
  import opened FlowBooks
  import opened Scheduling
  import NatReports

  /** A traffic thread at one moment: how the device translates its flows, and which of them it has tagged
      and associated. */
  datatype Sender = Sender(env: Env, tagged: set<FlowId>, associated: set<FlowId>)

  /** What a thread reads in an entry of a message. */
  function MsgOf(i: NatReports.FlowInfo): NatMsg { NatMsg(i.fid, Ext(i.extIp, i.extIpServer, i.extPort)) }

  /** Packet `p` is the tagged packet of flow `f` of thread `t` as the device lets it through: translated,
      and with the tag in an option or in the acknowledgement number. */
  ghost predicate TaggedPacket(p: NatReports.Packet, s: Sender, t: nat, f: FlowId)
    requires t < 256
  {
    && p.proto in {6, 17} && Ext(p.src, p.dst, p.srcPort) == s.env.xlate(f)
    && (p.option == NatReports.Tag(t, ShortFid(f)) || (p.option.NoTag? && p.ack == NatReports.CalcTcpAck(f, t)))
  }

  /** The flow was tagged, and no flow associated later shares its short id. */
  ghost predicate Current(s: Sender, f: FlowId) { f in s.tagged && Newest(f, s.associated) }

  /** Nothing but tagged packets of current flows is seen. */
  ghost predicate OnlyTagged(seen: seq<NatReports.Packet>, senders: seq<Sender>)
    requires |senders| <= 256
  {
    forall k | 0 <= k < |seen| :: Tagged(seen[k], senders)
  }

  ghost predicate Tagged(p: NatReports.Packet, senders: seq<Sender>)
    requires |senders| <= 256
  {
    exists t: nat, f: FlowId :: t < |senders| && TaggedPacket(p, senders[t], t, f) && Current(senders[t], f)
  }

  /** A tagged packet is reported to the thread whose flow it belongs to, and the report is what that thread
      relies on. */
  lemma ReportOfTagged(p: NatReports.Packet, s: Sender, t: nat, f: FlowId)
    requires t < 256 && TaggedPacket(p, s, t, f) && Current(s, f)
    ensures NatReports.ThreadOf(p) == t
    ensures Observed(s.env, MsgOf(NatReports.InfoOf(p)), s.tagged, s.associated)
  {
    NatReports.AckRoundTrip(f, t);
    assert ShortFid(f) == MsgOf(NatReports.InfoOf(p)).fid;
  }

  /** Every report a thread is to get is one it relies on. */
  lemma {:induction false} ReportsAreObserved(seen: seq<NatReports.Packet>, senders: seq<Sender>, t: nat, k: nat)
    requires t < |senders| <= 256 && OnlyTagged(seen, senders)
    requires k < |NatReports.Reports(seen, |senders|, t)|
    ensures
      var s := senders[t];
      Observed(s.env, MsgOf(NatReports.Reports(seen, |senders|, t)[k]), s.tagged, s.associated)
  {
    hide Observed, NatReports.InfoOf, NatReports.ThreadOf, TaggedPacket, Current;
    var n := |seen| - 1;
    var before := NatReports.Reports(seen[..n], |senders|, t);
    if k < |before| {
      ReportsAreObserved(seen[..n], senders, t, k);
    } else {
      assert Tagged(seen[n], senders);
      var u: nat, f: FlowId :| u < |senders| && TaggedPacket(seen[n], senders[u], u, f) && Current(senders[u], f);
      ReportOfTagged(seen[n], senders[u], u, f);
    }
  }

  /** Whatever stands on the ring of a thread, or is still being collected for it, is a report the thread
      relies on: a faithful environment delivers no other. */
  lemma RingIsObserved(m: NatReports.NatRxManager, senders: seq<Sender>, t: nat, i: NatReports.FlowInfo)
    requires m.Valid() && |m.threads| == |senders| <= 256 && t < |senders| && OnlyTagged(m.seen, senders)
    requires i in NatReports.OnTheWay(m.threads[t])
    ensures Observed(senders[t].env, MsgOf(i), senders[t].tagged, senders[t].associated)
  {
    hide Observed, OnlyTagged, NatReports.Reports, NatReports.OnTheWay;
    var k :| 0 <= k < |NatReports.Reports(m.seen, |senders|, t)| && NatReports.Reports(m.seen, |senders|, t)[k] == i;
    ReportsAreObserved(m.seen, senders, t, k);
  }
}
