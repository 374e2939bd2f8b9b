/** The plugins: which packets of a flow get which program, and how the changed packets enter the flow's
    TCP numbering. */
module Plugins {
  import opened Splicing
  import opened MiniVms
  import opened Wrappers
  import TcpSequence

  function AddressGrowth(v6: bool, was: nat): nat
    requires was <= INET_ADDRSTRLEN
  {
    if v6 then INET6_ADDRSTRLEN + 2 - was else INET_ADDRSTRLEN - was
  }

  // ----- programs -----

  function HttpCommand(pktNum: nat, v6: bool, server: Ip): Option<Cmd> {
    if pktNum == 3 then Some(ReplaceIp(AddressGrowth(v6, 8), 26, 34, server)) else None
  }

  function RtspReplace(v6: bool, start: nat, server: Ip): Cmd {
    ReplaceIp(AddressGrowth(v6, 9), start, start + 9, server)
  }

  function RtspSetup(v6: bool, server: Ip, port: nat): Cmd {
    ReplacePortIp(AddressGrowth(v6, 9) + (INET_PORTSTRLEN * 2 - 8), 13, 22, server, 164, 173, port)
  }

  function RtspResponse(port: nat): Cmd {
    ReplacePorts(INET_PORTSTRLEN * 4 - 16, 247, 278, port, port)
  }

  /** Control flow of RTSP, by packet; the client has two extra ports. */
  function RtspCommand(pktNum: nat, v6: bool, server: Ip, rtp0: nat, rtp1: nat): Option<Cmd> {
    match pktNum
    case 3 => Some(RtspReplace(v6, 16, server))
    case 4 => Some(RtspReplace(v6, 46, server))
    case 5 => Some(RtspSetup(v6, server, rtp0))
    case 6 => Some(RtspResponse(rtp0))
    case 7 => Some(RtspSetup(v6, server, rtp1))
    case 8 => Some(RtspResponse(rtp1))
    case 9 => Some(RtspReplace(v6, 12, server))
    case 12 => Some(RtspReplace(v6, 15, server))
    case 15 => Some(RtspReplace(v6, 15, server))
    case 18 => Some(RtspReplace(v6, 16, server))
    case _ => None
  }

  function SipCommand(pktNum: nat, v6: bool, client: Ip, server: Ip, rtp0: nat, port: nat): Option<Cmd> {
    var add := AddressGrowth(v6, 9) * 3 + (INET_PORTSTRLEN * 2 - 9);
    match pktNum
    case 0 => Some(ReplaceViaIpIpPort(add, client, port, 208, 222, client, 377, 386, 409, 418, rtp0, 435, 440))
    case 1 => Some(ReplaceViaIpIpPort(add, client, port, 207, 221, server, 370, 378, 401, 409, rtp0, 426, 431))
    case _ => None
  }

  function DynCommand(offset: nat, words: seq<string>): Cmd {
    DynPayload(INET_ADDRSTRLEN - 8, offset, words)
  }

  // ----- what the plugins change -----

  /** Only the request of an HTTP flow is changed: its host becomes the server. */
  lemma HttpOutcome(pktNum: nat, v6: bool, server: Ip, s: string)
    ensures
      var c := HttpCommand(pktNum, v6, server);
      && (c.Some? <==> pktNum == 3)
      && (c.Some? && |s| >= 34 ==>
        WellFormed(c.value, |s|) && Outcome(c.value, s) == s[..26] + server.Text() + s[34..])
  {
    hide Outcome, Ip.Text;
    var c := HttpCommand(pktNum, v6, server);
    if c.Some? && |s| >= 34 {
      IpOutcome(c.value, s);
    }
  }

  /** Where the server's address stands in a request of an RTSP flow that names it and no more. */
  const RTSP_ADDRESS := map[3 := 16, 4 := 46, 9 := 12, 12 := 15, 15 := 15, 18 := 16]

  /** The requests of an RTSP flow name the server; a SETUP also names the two ports of its stream, and its
      response names them for both sides. The first SETUP is for the first extra port, the second one for
      the other. */
  lemma RtspOutcome(pktNum: nat, v6: bool, server: Ip, rtp0: nat, rtp1: nat, s: string)
    ensures
      var c := RtspCommand(pktNum, v6, server, rtp0, rtp1);
      var port := if pktNum <= 6 then rtp0 else rtp1;
      && (c.Some? <==> pktNum in RTSP_ADDRESS || 5 <= pktNum <= 8)
      && (pktNum in RTSP_ADDRESS && WellFormed(c.value, |s|) ==>
        var at := RTSP_ADDRESS[pktNum];
        at + 9 <= |s| && Outcome(c.value, s) == s[..at] + server.Text() + s[at + 9..])
      && (pktNum in {5, 7} && WellFormed(c.value, |s|) ==>
        && |s| >= 173
        && Outcome(c.value, s) == s[..13] + server.Text() + s[22..164] + PortRange(port) + s[173..])
      && (pktNum in {6, 8} && WellFormed(c.value, |s|) ==>
        && |s| >= 278
        && Outcome(c.value, s) == s[..247] + (PortRange(port) + ";server_port=" + PortRange(port)) + s[278..])
  {
    hide Outcome, Ip.Text, PortRange;
    var c := RtspCommand(pktNum, v6, server, rtp0, rtp1);
    if c.Some? && WellFormed(c.value, |s|) {
      match c.value {
        case ReplaceIp(_, _, _, _) => IpOutcome(c.value, s);
        case ReplacePortIp(_, _, _, _, _, _, _) => PortIpOutcome(c.value, s);
        case ReplacePorts(_, _, _, _, _) => PortsOutcome(c.value, s);
      }
    }
  }

  /** The first packet of a SIP flow names the client and its port, and the client's address and the port of
      the voice; the answer names the client in its first line as well, and then the server. */
  lemma SipOutcome(v6: bool, client: Ip, server: Ip, rtp0: nat, port: nat, s: string)
    requires |s| >= 440 && client.V4? && server.V4?
    ensures
      var via := client.Text() + ":" + Digits(port);
      var c0, c1 := SipCommand(0, v6, client, server, rtp0, port), SipCommand(1, v6, client, server, rtp0, port);
      && c0.Some? && WellFormed(c0.value, |s|)
      && Outcome(c0.value, s)
           == s[..208] + via + s[222..377] + client.Text() + s[386..409] + client.Text() + s[418..435]
            + Digits(rtp0) + s[440..]
      && c1.Some? && WellFormed(c1.value, |s|)
      && Outcome(c1.value, s)
           == s[..207] + via + s[221..370] + server.Text() + s[378..401] + server.Text() + s[409..426]
            + Digits(rtp0) + s[431..]
    ensures forall n :: SipCommand(n, v6, client, server, rtp0, port).Some? <==> n < 2
  {
    hide Outcome, Ip.Text, Digits;
    ViaOutcome(SipCommand(0, v6, client, server, rtp0, port).value, s);
    ViaOutcome(SipCommand(1, v6, client, server, rtp0, port).value, s);
  }

  // ----- the declared growth is enough -----

  lemma ShortGrowth(edits: seq<Edit>)
    requires |edits| == 1
    ensures MaxGrowth(edits) == if Growth(edits[0]) > 0 then Growth(edits[0]) else 0
  {
    assert edits[1..] == [];
  }

  lemma ReplaceIpFits(cmd: Cmd, s: string, v6: bool, was: nat)
    requires cmd.ReplaceIp? && WellFormed(cmd, |s|) && cmd.stop1 - cmd.start0 == was < INET_ADDRSTRLEN
    requires cmd.addLen == AddressGrowth(v6, was) && cmd.serverIp.Valid() && cmd.serverIp.V6? == v6
    ensures Holds(cmd, s, cmd.addLen)
  {
    var edits := Edits(cmd, |s|);
    EditsInOrder(cmd, s);
    AddressFits(cmd.serverIp);
    ShortGrowth(edits);
    RoomIfGrowthFits(s, 0, edits, cmd.addLen);
  }

  lemma HttpFits(pktNum: nat, v6: bool, server: Ip, s: string)
    requires server.Valid() && server.V6? == v6
    ensures
      var c := HttpCommand(pktNum, v6, server);
      c.Some? && WellFormed(c.value, |s|) ==> Holds(c.value, s, c.value.addLen)
  {
    var c := HttpCommand(pktNum, v6, server);
    if c.Some? && WellFormed(c.value, |s|) {
      ReplaceIpFits(c.value, s, v6, 8);
    }
  }

  lemma SetupFits(v6: bool, server: Ip, port: nat, s: string)
    requires server.Valid() && server.V6? == v6 && port < 65536
    ensures var c := RtspSetup(v6, server, port); WellFormed(c, |s|) ==> Holds(c, s, c.addLen)
  {
    var c := RtspSetup(v6, server, port);
    if WellFormed(c, |s|) {
      var edits := Edits(c, |s|);
      EditsInOrder(c, s);
      AddressFits(server);
      PortFits(port);
      ShortGrowth(edits[1..]);
      RoomIfGrowthFits(s, 0, edits, c.addLen);
    }
  }

  /** The response to a SETUP is the tight one: 31 bytes may become 35, and the declared growth is 4. It
      holds just when something follows the ports in the payload or their text is shorter. */
  lemma ResponseFits(port: nat, s: string)
    requires port < 65536 && |s| >= 278
    ensures WellFormed(RtspResponse(port), |s|)
    ensures Holds(RtspResponse(port), s, RtspResponse(port).addLen) <==> |s| > 278 || |ServerPorts(port, port)| < 35
    ensures |ServerPorts(port, port)| <= 35
  {
    var c := RtspResponse(port);
    var edits := Edits(c, |s|);
    PortFits(port);
    EditsInOrder(c, s);
    assert edits == [edits[0]] + [];
    FirstEdit(s, 0, edits[0], [], |s| + c.addLen);
  }

  lemma RtspFits(pktNum: nat, v6: bool, server: Ip, rtp0: nat, rtp1: nat, s: string)
    requires server.Valid() && server.V6? == v6 && rtp0 < 65536 && rtp1 < 65536
    ensures
      var c := RtspCommand(pktNum, v6, server, rtp0, rtp1);
      c.Some? && WellFormed(c.value, |s|) && (c.value.ReplacePorts? ==> |s| > 278) ==> Holds(c.value, s, c.value.addLen)
  {
    hide Holds, RtspSetup;
    var c := RtspCommand(pktNum, v6, server, rtp0, rtp1);
    if c.Some? && WellFormed(c.value, |s|) && (c.value.ReplacePorts? ==> |s| > 278) {
      if pktNum == 5 || pktNum == 7 {
        SetupFits(v6, server, if pktNum == 5 then rtp0 else rtp1, s);
      } else if pktNum == 6 || pktNum == 8 {
        ResponseFits(if pktNum == 6 then rtp0 else rtp1, s);
      } else {
        ReplaceIpFits(c.value, s, v6, 9);
      }
    }
  }

  lemma {:induction false} GrowthOfBoth(a: seq<Edit>, b: seq<Edit>)
    ensures MaxGrowth(a + b) == MaxGrowth(a) + MaxGrowth(b)
  {
    if a == [] {
      assert a + b == b;
    } else {
      GrowthOfBoth(a[1..], b);
      assert (a + b)[1..] == a[1..] + b;
    }
  }

  function Positive(n: int): nat { if n > 0 then n else 0 }

  lemma IpGrowth(start: nat, stop: nat, ip: Ip)
    requires 2 <= start <= stop
    ensures MaxGrowth(IpEdits(start, stop, ip)) == Positive(|ip.Text()| - (stop - start))
  {
    var e := Edit(start, stop, ip.Text());
    ShortGrowth([e]);
    if ip.V6? {
      var six := Edit(start - 2, start - 1, "6");
      ShortGrowth([six]);
      GrowthOfBoth([six], [e]);
    }
  }

  lemma ViaGrowth(cmd: Cmd, len: nat)
    requires cmd.ReplaceViaIpIpPort? && WellFormed(cmd, len)
    ensures MaxGrowth(Edits(cmd, len))
         == Positive(|cmd.ipVia.Text()| + 1 + |Digits(cmd.portVia)| - (cmd.viaStop - cmd.viaStart))
          + Positive(|cmd.ip.Text()| - (cmd.ip0Stop - cmd.ip0Start))
          + Positive(|cmd.ip.Text()| - (cmd.ip1Stop - cmd.ip1Start))
          + Positive(|Digits(cmd.port)| - (cmd.portStop - cmd.portStart))
  {
    hide MaxGrowth, IpEdits, Digits, Ip.Text;
    var via := [Edit(cmd.viaStart, cmd.viaStop, cmd.ipVia.Text() + ":" + Digits(cmd.portVia))];
    var a, b := IpEdits(cmd.ip0Start, cmd.ip0Stop, cmd.ip), IpEdits(cmd.ip1Start, cmd.ip1Stop, cmd.ip);
    var port := [Edit(cmd.portStart, cmd.portStop, Digits(cmd.port))];
    GrowthOfBoth(via + a + b, port);
    GrowthOfBoth(via + a, b);
    GrowthOfBoth(via, a);
    ShortGrowth(via);
    ShortGrowth(port);
    IpGrowth(cmd.ip0Start, cmd.ip0Stop, cmd.ip);
    IpGrowth(cmd.ip1Start, cmd.ip1Stop, cmd.ip);
  }

  lemma ViaFits(cmd: Cmd, s: string, v6: bool)
    requires cmd.ReplaceViaIpIpPort? && WellFormed(cmd, |s|)
    requires cmd.ip.Valid() && cmd.ipVia.Valid() && cmd.ip.V6? == cmd.ipVia.V6? == v6
    requires cmd.port < 65536 && cmd.portVia < 65536
    requires cmd.viaStop - cmd.viaStart == 14 && 8 <= cmd.ip0Stop - cmd.ip0Start == cmd.ip1Stop - cmd.ip1Start <= 9
    requires cmd.portStop - cmd.portStart == 5 && cmd.addLen == AddressGrowth(v6, 9) * 3 + (INET_PORTSTRLEN * 2 - 9)
    ensures Holds(cmd, s, cmd.addLen)
  {
    hide Digits, Splice, Roomy;
    var edits := Edits(cmd, |s|);
    EditsInOrder(cmd, s);
    AddressFits(cmd.ip);
    AddressFits(cmd.ipVia);
    PortFits(cmd.port);
    PortFits(cmd.portVia);
    ViaGrowth(cmd, |s|);
    RoomIfGrowthFits(s, 0, edits, cmd.addLen);
  }

  lemma SipFits(pktNum: nat, v6: bool, client: Ip, server: Ip, rtp0: nat, port: nat, s: string)
    requires client.Valid() && server.Valid() && client.V6? == server.V6? == v6 && rtp0 < 65536 && port < 65536
    ensures
      var c := SipCommand(pktNum, v6, client, server, rtp0, port);
      c.Some? && WellFormed(c.value, |s|) ==> Holds(c.value, s, c.value.addLen)
  {
    hide Holds;
    var c := SipCommand(pktNum, v6, client, server, rtp0, port);
    if c.Some? && WellFormed(c.value, |s|) {
      ViaFits(c.value, s, v6);
    }
  }

  lemma DynFits(offset: nat, words: seq<string>, s: string)
    requires forall w | w in words :: |w| == 4
    ensures var c := DynCommand(offset, words); Holds(c, s, c.addLen) && |Outcome(c, s)| == |s|
  {
    var c := DynCommand(offset, words);
    var edits := Edits(c, |s|);
    EditsInOrder(c, s);
    FlatLength(words);
    DynOutcome(c, s);
    if edits != [] {
      ShortGrowth(edits);
    }
    RoomIfGrowthFits(s, 0, edits, c.addLen);
  }

  // ----- packets -----

  /** A copy of a template packet whose payload, from `l7` on, goes through a program; also, how much longer
      it is. */
  method GenerateVm(raw: string, l7: nat, cmd: Cmd) returns (pkt: string, size: int)
    requires l7 <= |raw| && !cmd.Eop?
    requires |raw| > l7 ==> WellFormed(cmd, |raw| - l7) && Holds(cmd, raw[l7..], cmd.addLen)
    ensures pkt == if |raw| == l7 then raw else raw[..l7] + Outcome(cmd, raw[l7..])
    ensures size == |pkt| - |raw| <= cmd.addLen
  {
    hide Outcome, Holds, WellFormed;
    if |raw| == l7 { return raw, 0; }
    var len := |raw| + cmd.addLen;
    var buf := new char[len];
    forall i | 0 <= i < l7 {
      buf[i] := raw[i];
    }
    var vm := new MiniVm(buf, l7);
    var program := [cmd, Eop(0)];
    assert program[|program| - 2] == cmd;
    vm.Run(program, raw[l7..]);
    // the unused end of the buffer is trimmed
    var trim := len - vm.newPktSize;
    assert trim >= 0;
    pkt := buf[..len - trim];
    assert pkt == buf[..l7] + vm.Out();
    size := vm.newPktSize - |raw|;
  }

  /** A packet of a flow whose numbers are kept: HTTP, and the control flow of RTSP. */
  method TcpPacket(tcp: TcpSequence.TcpSeq, raw: string, l7: nat, c: Option<Cmd>, s: TcpSequence.Segment)
    returns (pkt: string, seg: TcpSequence.Segment)
    requires tcp.Valid() && l7 <= |raw|
    requires c.Some? ==> !c.value.Eop?
    requires c.Some? && |raw| > l7 ==> WellFormed(c.value, |raw| - l7) && Holds(c.value, raw[l7..], c.value.addLen)
    modifies tcp
    ensures pkt == if c.None? || |raw| == l7 then raw else raw[..l7] + Outcome(c.value, raw[l7..])
    ensures tcp.Valid() && tcp.played == old(tcp.played) + [TcpSequence.Change(s, |pkt| - |raw|)]
    ensures seg == TcpSequence.RewriteOne(old(tcp.played), TcpSequence.Change(s, |pkt| - |raw|))
  {
    hide Outcome, Holds, WellFormed;
    var size := 0;
    if c.Some? {
      pkt, size := GenerateVm(raw, l7, c.value);
    } else {
      pkt := raw;
    }
    seg := tcp.Update(s, size);
  }
}
