/** The small programs by which plugins put addresses and ports into the text of a packet. */
module MiniVms {
  import opened Splicing

  const INET_ADDRSTRLEN := 16
  const INET6_ADDRSTRLEN := 46
  const INET_PORTSTRLEN := 5

  // ----- texts -----

  function Digits(n: nat): string {
    if n < 10 then [('0' as int + n) as char] else Digits(n / 10) + [('0' as int + n % 10) as char]
  }

  lemma {:induction false} DigitsAtMost(n: nat, k: nat)
    requires k > 0 && n < Power10(k)
    ensures 0 < |Digits(n)| <= k
  {
    if n >= 10 {
      DigitsAtMost(n / 10, k - 1);
    }
  }

  function Power10(k: nat): nat { if k == 0 then 1 else 10 * Power10(k - 1) }

  /** An address as the text functions see it. Version 6 text comes from the system. */
  datatype Ip = V4(a: nat, b: nat, c: nat, d: nat) | V6(text: string) {
    predicate Valid() {
      match this
      case V4(a, b, c, d) => a < 256 && b < 256 && c < 256 && d < 256
      case V6(text) => |text| < INET6_ADDRSTRLEN
    }

    function Text(): string {
      match this
      case V4(a, b, c, d) => Digits(a) + "." + Digits(b) + "." + Digits(c) + "." + Digits(d)
      case V6(text) => "[" + text + "]"
    }
  }

  lemma AddressFits(ip: Ip)
    requires ip.Valid()
    ensures |ip.Text()| < if ip.V6? then INET6_ADDRSTRLEN + 2 else INET_ADDRSTRLEN
  {
    if ip.V4? {
      assert Power10(3) == 1000;
      DigitsAtMost(ip.a, 3);
      DigitsAtMost(ip.b, 3);
      DigitsAtMost(ip.c, 3);
      DigitsAtMost(ip.d, 3);
    }
  }

  /** A port's text takes at most five characters, and so does that of the port after it. */
  lemma PortFits(port: nat)
    requires port < 65536
    ensures 0 < |Digits(port)| <= INET_PORTSTRLEN && 0 < |Digits(port + 1)| <= INET_PORTSTRLEN
  {
    assert Power10(2) == 100;
    assert Power10(5) == 100000;
    DigitsAtMost(port, 5);
    DigitsAtMost(port + 1, 5);
  }

  // ----- reading the texts back -----

  predicate AllDigits(s: string) { forall i | 0 <= i < |s| :: '0' <= s[i] <= '9' }

  predicate IsNumeral(s: string) {
    s != "" && AllDigits(s) && (s[0] == '0' ==> |s| == 1)
  }

  /** The number a text of digits means. */
  function Value(s: string): nat
    requires AllDigits(s)
  {
    if s == "" then 0 else 10 * Value(s[..|s| - 1]) + (s[|s| - 1] as int - '0' as int)
  }

  /** The text of a number reads back as the number. */
  lemma {:induction false} DigitsReadBack(n: nat)
    ensures IsNumeral(Digits(n)) && Value(Digits(n)) == n && (n > 0 ==> Digits(n)[0] != '0')
  {
    if n < 10 {
      assert Digits(n)[..0] == "";
    } else {
      var r := Digits(n);
      DigitsReadBack(n / 10);
      assert r[..|r| - 1] == Digits(n / 10);
    }
  }

  /** The parts of a text between separators. */
  function Split(s: string, sep: char): (r: seq<string>)
    ensures r != []
  {
    if s == "" then [""]
    else
      var r := Split(s[1..], sep);
      if s[0] == sep then [""] + r else [[s[0]] + r[0]] + r[1..]
  }

  lemma {:induction false} SplitPart(part: string, sep: char, rest: string)
    requires sep !in part
    ensures Split(part, sep) == [part]
    ensures Split(part + [sep] + rest, sep) == [part] + Split(rest, sep)
  {
    if part == "" {
      assert ("" + [sep] + rest)[1..] == rest;
    } else {
      SplitPart(part[1..], sep, rest);
      assert (part + [sep] + rest)[1..] == part[1..] + [sep] + rest;
      assert part == [part[0]] + part[1..];
    }
  }

  /** A text is a number. */
  predicate Reads(s: string, n: nat) { IsNumeral(s) && Value(s) == n }

  /** A version 4 address reads as its four bytes, from the first to the last. */
  lemma AddressReadsBack(ip: Ip)
    requires ip.V4?
    ensures
      var parts := Split(ip.Text(), '.');
      |parts| == 4 && Reads(parts[0], ip.a) && Reads(parts[1], ip.b) && Reads(parts[2], ip.c) && Reads(parts[3], ip.d)
  {
    hide Digits;
    var a, b, c, d := Digits(ip.a), Digits(ip.b), Digits(ip.c), Digits(ip.d);
    DigitsReadBack(ip.a);
    DigitsReadBack(ip.b);
    DigitsReadBack(ip.c);
    DigitsReadBack(ip.d);
    assert ip.Text() == a + ['.'] + (b + ['.'] + (c + ['.'] + d));
    SplitPart(a, '.', b + ['.'] + (c + ['.'] + d));
    SplitPart(b, '.', c + ['.'] + d);
    SplitPart(c, '.', d);
    SplitPart(d, '.', "");
  }

  /** A range of ports reads as the port and the one after it. */
  predicate ReadsAsRange(s: string, port: nat) {
    var ends := Split(s, '-');
    |ends| == 2 && Reads(ends[0], port) && Reads(ends[1], port + 1)
  }

  lemma RangeReadsBack(port: nat)
    ensures ReadsAsRange(PortRange(port), port) && ';' !in PortRange(port)
  {
    hide Digits;
    var first, second := Digits(port), Digits(port + 1);
    DigitsReadBack(port);
    DigitsReadBack(port + 1);
    assert PortRange(port) == first + ['-'] + second;
    SplitPart(first, '-', second);
    SplitPart(second, '-', "");
  }

  /** The ports of an RTSP response read as the client's two and the server's two. */
  lemma ServerPortsReadBack(client: nat, server: nat)
    ensures
      var parts, key := Split(ServerPorts(client, server), ';'), "server_port=";
      && |parts| == 2 && ReadsAsRange(parts[0], client)
      && key <= parts[1] && ReadsAsRange(parts[1][|key|..], server)
  {
    hide Digits, PortRange, ReadsAsRange;
    var c, key, s := PortRange(client), "server_port=", PortRange(server);
    RangeReadsBack(client);
    RangeReadsBack(server);
    assert ServerPorts(client, server) == c + [';'] + (key + s);
    SplitPart(c, ';', key + s);
    SplitPart(key + s, ';', "");
    assert (key + s)[|key|..] == s;
  }

  // ----- commands -----

  datatype Cmd =
    | ReplaceIp(addLen: nat, start0: nat, stop1: nat, serverIp: Ip)
    | ReplacePortIp(addLen: nat, start0: nat, stop1: nat, serverIp: Ip, startPort: nat, stopPort: nat, clientPort: nat)
    | ReplacePorts(addLen: nat, startPort: nat, stopPort: nat, clientPort: nat, serverPort: nat)
    | ReplaceIpIpPort(addLen: nat, ip: Ip, ip0Start: nat, ip0Stop: nat, ip1Start: nat, ip1Stop: nat,
                      port: nat, portStart: nat, portStop: nat)
    | ReplaceViaIpIpPort(addLen: nat, ipVia: Ip, portVia: nat, viaStart: nat, viaStop: nat,
                         ip: Ip, ip0Start: nat, ip0Stop: nat, ip1Start: nat, ip1Stop: nat,
                         port: nat, portStart: nat, portStop: nat)
    | DynPayload(addLen: nat, offset: nat, words: seq<string>)
    | Eop(addLen: nat)

  function PortRange(port: nat): string { Digits(port) + "-" + Digits(port + 1) }

  function ServerPorts(client: nat, server: nat): string {
    PortRange(client) + ";server_port=" + PortRange(server)
  }

  /** In a version 6 text the digit two places before an address says so. */
  function IpEdits(start: nat, stop: nat, ip: Ip): seq<Edit>
    requires start >= 2
  {
    (if ip.V6? then [Edit(start - 2, start - 1, "6")] else []) + [Edit(start, stop, ip.Text())]
  }

  function Flat(words: seq<string>): string {
    if words == [] then "" else words[0] + Flat(words[1..])
  }

  /** What a command is meant to change in a payload of `len` bytes. */
  function Edits(cmd: Cmd, len: nat): seq<Edit>
    requires WellFormed(cmd, len)
  {
    match cmd
    case ReplaceIp(_, start, stop, ip) => [Edit(start, stop, ip.Text())]
    case ReplacePortIp(_, start, stop, ip, startPort, stopPort, port) =>
      [Edit(start, stop, ip.Text()), Edit(startPort, stopPort, PortRange(port))]
    case ReplacePorts(_, start, stop, client, server) => [Edit(start, stop, ServerPorts(client, server))]
    case ReplaceIpIpPort(_, ip, start0, stop0, start1, stop1, port, start2, stop2) =>
      [Edit(start0, stop0, ip.Text()), Edit(start1, stop1, ip.Text()), Edit(start2, stop2, Digits(port))]
    case ReplaceViaIpIpPort(_, via, portVia, start, stop, ip, start0, stop0, start1, stop1, port, start2, stop2) =>
      [Edit(start, stop, via.Text() + ":" + Digits(portVia))]
      + IpEdits(start0, stop0, ip) + IpEdits(start1, stop1, ip) + [Edit(start2, stop2, Digits(port))]
    case DynPayload(_, offset, words) =>
      if offset + 4 * |words| < len - 4 then [Edit(offset, offset + 4 * |words|, Flat(words))] else []
    case Eop(_) => []
  }

  /** The stretches of a command lie in order inside a payload of `len` bytes. */
  predicate WellFormed(cmd: Cmd, len: nat) {
    match cmd
    case ReplaceIp(_, start, stop, _) => start <= stop <= len
    case ReplacePortIp(_, start, stop, _, startPort, stopPort, _) => start <= stop <= startPort <= stopPort <= len
    case ReplacePorts(_, start, stop, _, _) => start <= stop <= len
    case ReplaceIpIpPort(_, _, start0, stop0, start1, stop1, _, start2, stop2) =>
      start0 <= stop0 <= start1 <= stop1 <= start2 <= stop2 <= len
    case ReplaceViaIpIpPort(_, _, _, start, stop, _, start0, stop0, start1, stop1, _, start2, stop2) =>
      start <= stop && stop + 2 <= start0 <= stop0 && stop0 + 2 <= start1 <= stop1 <= start2 <= stop2 <= len
    case DynPayload(_, _, words) => forall w | w in words :: |w| == 4
    case Eop(_) => true
  }

  lemma {:induction false} FlatLength(words: seq<string>)
    requires forall w | w in words :: |w| == 4
    ensures |Flat(words)| == 4 * |words|
  {
    if words != [] {
      FlatLength(words[1..]);
    }
  }

  lemma EditsInOrder(cmd: Cmd, s: string)
    requires WellFormed(cmd, |s|)
    ensures Ordered(s, 0, Edits(cmd, |s|))
  {
    match cmd {
      case ReplaceViaIpIpPort(_, _, _, _, _, _, _, _, _, _, _, _, _) => ViaInOrder(cmd, s);
      case ReplaceIpIpPort(_, _, start0, stop0, start1, stop1, _, start2, stop2) =>
        var edits := Edits(cmd, |s|);
        assert Ordered(s, stop1, edits[1..][1..]);
        assert Ordered(s, stop0, edits[1..]);
      case _ =>
    }
  }

  lemma ViaInOrder(cmd: Cmd, s: string)
    requires cmd.ReplaceViaIpIpPort? && WellFormed(cmd, |s|)
    ensures Ordered(s, 0, Edits(cmd, |s|))
  {
    hide IpEdits;
    var last := [Edit(cmd.portStart, cmd.portStop, Digits(cmd.port))];
    assert Ordered(s, cmd.ip1Stop, last);
    IpOrdered(s, cmd.ip0Stop, cmd.ip1Start, cmd.ip1Stop, cmd.ip, last);
    var rest := IpEdits(cmd.ip1Start, cmd.ip1Stop, cmd.ip) + last;
    IpOrdered(s, cmd.viaStop, cmd.ip0Start, cmd.ip0Stop, cmd.ip, rest);
    assert Edits(cmd, |s|)[1..] == IpEdits(cmd.ip0Start, cmd.ip0Stop, cmd.ip) + rest;
  }

  lemma IpOrdered(s: string, from: nat, start: nat, stop: nat, ip: Ip, rest: seq<Edit>)
    requires from + 2 <= start <= stop && Ordered(s, stop, rest)
    ensures Ordered(s, from, IpEdits(start, stop, ip) + rest)
  {
    var all := IpEdits(start, stop, ip) + rest;
    if ip.V6? {
      assert all[1..][1..] == rest;
      assert Ordered(s, start - 1, all[1..]);
    } else {
      assert all[1..] == rest;
    }
  }

  /** The payload a command makes of `s`. */
  function Outcome(cmd: Cmd, s: string): string
    requires WellFormed(cmd, |s|)
  {
    EditsInOrder(cmd, s);
    Splice(s, 0, Edits(cmd, |s|))
  }

  // ----- what the commands come to -----

  lemma IpOutcome(cmd: Cmd, s: string)
    requires cmd.ReplaceIp? && WellFormed(cmd, |s|)
    ensures Outcome(cmd, s) == s[..cmd.start0] + cmd.serverIp.Text() + s[cmd.stop1..]
  {
    OneEdit(s, 0, Edits(cmd, |s|));
    EditsInOrder(cmd, s);
  }

  lemma PortsOutcome(cmd: Cmd, s: string)
    requires cmd.ReplacePorts? && WellFormed(cmd, |s|)
    ensures Outcome(cmd, s)
         == s[..cmd.startPort] + (PortRange(cmd.clientPort) + ";server_port=" + PortRange(cmd.serverPort))
          + s[cmd.stopPort..]
  {
    EditsInOrder(cmd, s);
    OneEdit(s, 0, Edits(cmd, |s|));
  }

  lemma OneEdit(s: string, at: nat, edits: seq<Edit>)
    requires |edits| == 1 && Ordered(s, at, edits)
    ensures at <= edits[0].start <= edits[0].stop <= |s|
    ensures Splice(s, at, edits) == s[at..edits[0].start] + edits[0].text + s[edits[0].stop..]
  {
    assert edits == [edits[0]] + [];
    FirstEdit(s, at, edits[0], [], 0);
  }

  lemma PortIpOutcome(cmd: Cmd, s: string)
    requires cmd.ReplacePortIp? && WellFormed(cmd, |s|)
    ensures Outcome(cmd, s)
         == s[..cmd.start0] + cmd.serverIp.Text() + s[cmd.stop1..cmd.startPort]
          + PortRange(cmd.clientPort) + s[cmd.stopPort..]
  {
    hide Splice, PortRange;
    var edits := Edits(cmd, |s|);
    EditsInOrder(cmd, s);
    FirstOfEdits(s, 0, edits);
    OneEdit(s, cmd.stop1, edits[1..]);
  }

  lemma FirstOfEdits(s: string, at: nat, edits: seq<Edit>)
    requires edits != [] && Ordered(s, at, edits)
    ensures at <= edits[0].start <= edits[0].stop <= |s| && Ordered(s, edits[0].stop, edits[1..])
    ensures Splice(s, at, edits) == s[at..edits[0].start] + edits[0].text + Splice(s, edits[0].stop, edits[1..])
  {
    StopsInside(s, at, edits);
  }

  lemma IpIpPortOutcome(cmd: Cmd, s: string)
    requires cmd.ReplaceIpIpPort? && WellFormed(cmd, |s|)
    ensures Outcome(cmd, s)
         == s[..cmd.ip0Start] + cmd.ip.Text() + s[cmd.ip0Stop..cmd.ip1Start] + cmd.ip.Text()
          + s[cmd.ip1Stop..cmd.portStart] + Digits(cmd.port) + s[cmd.portStop..]
  {
    hide Splice, Digits;
    var edits := Edits(cmd, |s|);
    EditsInOrder(cmd, s);
    FirstOfEdits(s, 0, edits);
    FirstOfEdits(s, cmd.ip0Stop, edits[1..]);
    OneEdit(s, cmd.ip1Stop, edits[1..][1..]);
  }

  /** In front of a version 6 address the digit two places back becomes a 6. */
  lemma EditsOfIp(s: string, at: nat, start: nat, stop: nat, ip: Ip, rest: seq<Edit>)
    requires at + 2 <= start <= stop && Ordered(s, stop, rest)
    ensures stop <= |s| && Ordered(s, at, IpEdits(start, stop, ip) + rest)
    ensures Splice(s, at, IpEdits(start, stop, ip) + rest)
         == (if ip.V6? then s[at..start - 2] + "6" + s[start - 1..start] else s[at..start])
          + ip.Text() + Splice(s, stop, rest)
  {
    hide Splice;
    StopsInside(s, stop, rest);
    IpOrdered(s, at, start, stop, ip, rest);
    var e := Edit(start, stop, ip.Text());
    var all := IpEdits(start, stop, ip) + rest;
    FirstOfEdits(s, at, all);
    if ip.V6? {
      assert all[1..] == [e] + rest && ([e] + rest)[1..] == rest;
      FirstOfEdits(s, start - 1, [e] + rest);
    } else {
      assert all[1..] == rest;
    }
  }

  lemma LastEdit(s: string, at: nat, e: Edit)
    requires at <= e.start <= e.stop <= |s|
    ensures Ordered(s, at, [e])
  {
  }

  lemma ViaTail(cmd: Cmd, s: string, last: seq<Edit>)
    requires cmd.ReplaceViaIpIpPort? && WellFormed(cmd, |s|)
    requires last == [Edit(cmd.portStart, cmd.portStop, Digits(cmd.port))]
    ensures
      var rest := IpEdits(cmd.ip1Start, cmd.ip1Stop, cmd.ip) + last;
      Ordered(s, cmd.ip0Stop, rest)
      && Splice(s, cmd.ip0Stop, rest)
        == (if cmd.ip.V6? then s[cmd.ip0Stop..cmd.ip1Start - 2] + "6" + s[cmd.ip1Start - 1..cmd.ip1Start]
            else s[cmd.ip0Stop..cmd.ip1Start])
         + cmd.ip.Text() + (s[cmd.ip1Stop..cmd.portStart] + Digits(cmd.port) + s[cmd.portStop..])
  {
    hide Splice, Digits, IpEdits, Ip.Text, Ordered;
    LastEdit(s, cmd.ip1Stop, last[0]);
    OneEdit(s, cmd.ip1Stop, last);
    EditsOfIp(s, cmd.ip0Stop, cmd.ip1Start, cmd.ip1Stop, cmd.ip, last);
  }

  lemma ViaOutcome(cmd: Cmd, s: string)
    requires cmd.ReplaceViaIpIpPort? && WellFormed(cmd, |s|)
    ensures
      var six := cmd.ip.V6?;
      Outcome(cmd, s)
        == s[..cmd.viaStart] + (cmd.ipVia.Text() + ":" + Digits(cmd.portVia))
         + ((if six then s[cmd.viaStop..cmd.ip0Start - 2] + "6" + s[cmd.ip0Start - 1..cmd.ip0Start]
             else s[cmd.viaStop..cmd.ip0Start])
            + cmd.ip.Text()
            + ((if six then s[cmd.ip0Stop..cmd.ip1Start - 2] + "6" + s[cmd.ip1Start - 1..cmd.ip1Start]
                else s[cmd.ip0Stop..cmd.ip1Start])
               + cmd.ip.Text()
               + (s[cmd.ip1Stop..cmd.portStart] + Digits(cmd.port) + s[cmd.portStop..])))
  {
    hide Splice, Digits, IpEdits, Ip.Text, Ordered;
    var edits := Edits(cmd, |s|);
    EditsInOrder(cmd, s);
    var last := [Edit(cmd.portStart, cmd.portStop, Digits(cmd.port))];
    var rest := IpEdits(cmd.ip1Start, cmd.ip1Stop, cmd.ip) + last;
    assert edits[1..] == IpEdits(cmd.ip0Start, cmd.ip0Stop, cmd.ip) + rest;
    FirstOfEdits(s, 0, edits);
    ViaTail(cmd, s, last);
    EditsOfIp(s, cmd.viaStop, cmd.ip0Start, cmd.ip0Stop, cmd.ip, rest);
  }

  /** A buffer longer by `add` than the payload holds everything a command writes. */
  predicate Holds(cmd: Cmd, s: string, add: nat)
    requires WellFormed(cmd, |s|)
  {
    Roomy(s, 0, Edits(cmd, |s|), |s| + add)
  }

  // ----- the machine -----

  /** A program ends with the end-of-program mark and has no other. */
  predicate IsProgram(cmds: seq<Cmd>) {
    cmds != [] && cmds[|cmds| - 1].Eop? && forall i | 0 <= i < |cmds| - 1 :: !cmds[i].Eop?
  }

  /** Works on the payload part of a packet buffer, which starts at `base`. */
  class MiniVm {
    const buf: array<char>
    const base: nat
    var p: nat            // where the next byte goes
    var newPktSize: nat

    constructor (buf: array<char>, base: nat)
      requires base <= buf.Length
      ensures this.buf == buf && this.base == base && p == base && newPktSize == 0
    {
      this.buf, this.base, p, newPktSize := buf, base, base, 0;
    }

    ghost predicate Valid()
      reads `p
    {
      base <= p <= buf.Length
    }

    ghost function Out(): string
      requires Valid()
      reads `p, buf
    {
      buf[base..p]
    }

    /** Bytes `from` up to `upTo` of the payload are copied behind what is there. */
    method CpPktToFrom(s: string, from: nat, upTo: nat)
      requires Valid() && from <= upTo <= |s| && p + (upTo - from) <= buf.Length
      modifies `p, buf
      ensures Valid() && p == old(p) + (upTo - from) && Out() == old(Out()) + s[from..upTo]
      ensures buf[..base] == old(buf[..base])
    {
      forall i | 0 <= i < upTo - from {
        buf[p + i] := s[from + i];
      }
      p := p + (upTo - from);
      assert buf[base..old(p)] == old(buf[base..p]);
      assert buf[old(p)..p] == s[from..upTo];
    }

    /** A text is written with the NUL that ends it; the next write starts on the NUL. */
    method PutText(text: string)
      requires Valid() && p + |text| < buf.Length
      modifies `p, buf
      ensures Valid() && p == old(p) + |text| && Out() == old(Out()) + text
      ensures buf[..base] == old(buf[..base])
    {
      forall i | 0 <= i < |text| {
        buf[p + i] := text[i];
      }
      buf[p + |text|] := '\0';
      p := p + |text|;
      assert buf[base..old(p)] == old(buf[base..p]);
      assert buf[old(p)..p] == text;
    }

    /** With the edits in `rest` done from byte `at` on, the output will be `whole`. */
    ghost predicate Todo(s: string, at: nat, rest: seq<Edit>, whole: string)
      reads `p, buf
    {
      && Valid() && Ordered(s, at, rest)
      && Out() + Splice(s, at, rest) == whole
      && Roomy(s, at, rest, buf.Length - p)
    }

    /** The bytes up to the next edit are copied. */
    method CopyUpTo(s: string, at: nat, upTo: nat, ghost rest: seq<Edit>, ghost whole: string)
      requires Todo(s, at, rest, whole) && at <= upTo && if rest == [] then upTo <= |s| else upTo <= rest[0].start
      modifies `p, buf
      ensures Todo(s, upTo, rest, whole) && buf[..base] == old(buf[..base])
    {
      hide Ordered, Splice, Roomy;
      PartWay(s, at, upTo, rest, buf.Length - p);
      CpPktToFrom(s, at, upTo);
      assert Out() + Splice(s, upTo, rest) == old(Out()) + (s[at..upTo] + Splice(s, upTo, rest));
    }

    method Put(s: string, text: string, ghost e: Edit, ghost rest: seq<Edit>, ghost whole: string)
      requires text == e.text && Todo(s, e.start, [e] + rest, whole)
      modifies `p, buf
      ensures Todo(s, e.stop, rest, whole) && buf[..base] == old(buf[..base])
    {
      hide Ordered, Splice, Roomy;
      FirstEdit(s, e.start, e, rest, buf.Length - p);
      PutText(text);
      assert s[e.start..e.start] + text == text;
      assert Out() + Splice(s, e.stop, rest) == old(Out()) + (text + Splice(s, e.stop, rest));
    }

    static lemma ToFirst(s: string, at: nat, e: Edit, rest: seq<Edit>)
      requires Ordered(s, at, [e] + rest)
      ensures at <= e.start
    {
    }

    method CopyAndPut(s: string, at: nat, e: Edit, ghost rest: seq<Edit>, ghost whole: string)
      requires Todo(s, at, [e] + rest, whole)
      modifies `p, buf
      ensures Todo(s, e.stop, rest, whole) && buf[..base] == old(buf[..base])
    {
      ToFirst(s, at, e, rest);
      CopyUpTo(s, at, e.start, [e] + rest, whole);
      Put(s, e.text, e, rest, whole);
    }

    /** The bytes up to a version 6 address are copied and the digit two places back is set. */
    method CopyUpToSix(s: string, at: nat, upTo: nat, ghost rest: seq<Edit>, ghost whole: string)
      requires at + 2 <= upTo && rest != [] && upTo == rest[0].start
      requires Todo(s, at, [Edit(upTo - 2, upTo - 1, "6")] + rest, whole)
      modifies `p, buf
      ensures Todo(s, upTo, rest, whole) && buf[..base] == old(buf[..base])
    {
      hide Ordered, Splice, Roomy;
      FirstEdit(s, at, Edit(upTo - 2, upTo - 1, "6"), rest, buf.Length - p);
      PartWay(s, upTo - 1, upTo, rest, buf.Length - p - (upTo - 1 - at));
      CpPktToFrom(s, at, upTo);
      buf[p - 2] := '6';
      assert s[at..upTo] == s[at..upTo - 2] + [s[upTo - 2]] + s[upTo - 1..upTo];
      assert Out() == old(Out()) + (s[at..upTo - 2] + "6" + s[upTo - 1..upTo]);
      ghost var tail := Splice(s, upTo, rest);
      assert Out() + tail == old(Out()) + (s[at..upTo - 2] + "6" + (s[upTo - 1..upTo] + tail));
    }

    method CopyAndPutIp(s: string, at: nat, start: nat, stop: nat, ip: Ip, ghost rest: seq<Edit>, ghost whole: string)
      requires at + 2 <= start && Todo(s, at, IpEdits(start, stop, ip) + rest, whole)
      modifies `p, buf
      ensures Todo(s, stop, rest, whole) && buf[..base] == old(buf[..base])
    {
      hide MiniVm.Todo;
      ghost var e := Edit(start, stop, ip.Text());
      if ip.V6? {
        assert IpEdits(start, stop, ip) + rest == [Edit(start - 2, start - 1, "6")] + ([e] + rest);
        CopyUpToSix(s, at, start, [e] + rest, whole);
      } else {
        assert IpEdits(start, stop, ip) == [e];
        CopyUpTo(s, at, start, [e] + rest, whole);
      }
      Put(s, ip.Text(), e, rest, whole);
    }

    method CopyRest(s: string, at: nat, ghost whole: string)
      requires Todo(s, at, [], whole)
      modifies `p, buf
      ensures Valid() && Out() == whole && buf[..base] == old(buf[..base])
    {
      CpPktToFrom(s, at, |s|);
    }

    /** A command may run on payload `s`. */
    ghost predicate Ready(cmd: Cmd, s: string) {
      WellFormed(cmd, |s|) && base + |s| <= buf.Length && Holds(cmd, s, buf.Length - base - |s|)
    }

    /** The payload is what the command makes of `s`, and its length is known. */
    ghost predicate Done(cmd: Cmd, s: string)
      reads this, buf
    {
      WellFormed(cmd, |s|) && Valid() && Out() == Outcome(cmd, s) && newPktSize == p
    }

    method Begin(cmd: Cmd, s: string)
      requires Ready(cmd, s)
      modifies `p
      ensures Todo(s, 0, Edits(cmd, |s|), Outcome(cmd, s))
    {
      EditsInOrder(cmd, s);
      p := base;
      assert Out() == "";
    }

    method RunReplaceIp(cmd: Cmd, s: string)
      requires cmd.ReplaceIp? && Ready(cmd, s)
      modifies this, buf
      ensures Done(cmd, s) && buf[..base] == old(buf[..base])
    {
      hide MiniVm.Todo, Splice;
      Begin(cmd, s);
      ghost var whole := Outcome(cmd, s);
      var e := Edit(cmd.start0, cmd.stop1, cmd.serverIp.Text());
      assert Edits(cmd, |s|) == [e] + [];
      CopyAndPut(s, 0, e, [], whole);
      CopyRest(s, cmd.stop1, whole);
      newPktSize := p;
    }

    method RunReplacePortIp(cmd: Cmd, s: string)
      requires cmd.ReplacePortIp? && Ready(cmd, s)
      modifies this, buf
      ensures Done(cmd, s) && buf[..base] == old(buf[..base])
    {
      hide MiniVm.Todo, Splice;
      Begin(cmd, s);
      ghost var whole := Outcome(cmd, s);
      var e0 := Edit(cmd.start0, cmd.stop1, cmd.serverIp.Text());
      var e1 := Edit(cmd.startPort, cmd.stopPort, PortRange(cmd.clientPort));
      assert Edits(cmd, |s|) == [e0] + [e1];
      CopyAndPut(s, 0, e0, [e1], whole);
      assert [e1] == [e1] + [];
      CopyAndPut(s, cmd.stop1, e1, [], whole);
      CopyRest(s, cmd.stopPort, whole);
      newPktSize := p;
    }

    method RunReplacePorts(cmd: Cmd, s: string)
      requires cmd.ReplacePorts? && Ready(cmd, s)
      modifies this, buf
      ensures Done(cmd, s) && buf[..base] == old(buf[..base])
    {
      hide MiniVm.Todo, Splice;
      Begin(cmd, s);
      ghost var whole := Outcome(cmd, s);
      var e := Edit(cmd.startPort, cmd.stopPort, ServerPorts(cmd.clientPort, cmd.serverPort));
      assert Edits(cmd, |s|) == [e] + [];
      CopyAndPut(s, 0, e, [], whole);
      CopyRest(s, cmd.stopPort, whole);
      newPktSize := p;
    }

    method RunReplaceIpIpPort(cmd: Cmd, s: string)
      requires cmd.ReplaceIpIpPort? && Ready(cmd, s)
      modifies this, buf
      ensures Done(cmd, s) && buf[..base] == old(buf[..base])
    {
      hide MiniVm.Todo, Splice;
      Begin(cmd, s);
      ghost var whole := Outcome(cmd, s);
      var e0 := Edit(cmd.ip0Start, cmd.ip0Stop, cmd.ip.Text());
      var e1 := Edit(cmd.ip1Start, cmd.ip1Stop, cmd.ip.Text());
      var e2 := Edit(cmd.portStart, cmd.portStop, Digits(cmd.port));
      assert Edits(cmd, |s|) == [e0] + [e1, e2];
      CopyAndPut(s, 0, e0, [e1, e2], whole);
      assert [e1, e2] == [e1] + [e2];
      CopyAndPut(s, cmd.ip0Stop, e1, [e2], whole);
      assert [e2] == [e2] + [];
      CopyAndPut(s, cmd.ip1Stop, e2, [], whole);
      CopyRest(s, cmd.portStop, whole);
      newPktSize := p;
    }

    method RunReplaceViaIpIpPort(cmd: Cmd, s: string)
      requires cmd.ReplaceViaIpIpPort? && Ready(cmd, s)
      modifies this, buf
      ensures Done(cmd, s) && buf[..base] == old(buf[..base])
    {
      hide MiniVm.Todo, Splice, IpEdits;
      Begin(cmd, s);
      ghost var whole := Outcome(cmd, s);
      var e0 := Edit(cmd.viaStart, cmd.viaStop, cmd.ipVia.Text() + ":" + Digits(cmd.portVia));
      var e3 := Edit(cmd.portStart, cmd.portStop, Digits(cmd.port));
      ghost var ip1 := IpEdits(cmd.ip1Start, cmd.ip1Stop, cmd.ip) + [e3];
      ghost var ip0 := IpEdits(cmd.ip0Start, cmd.ip0Stop, cmd.ip) + ip1;
      assert Edits(cmd, |s|) == [e0] + ip0;
      CopyAndPut(s, 0, e0, ip0, whole);
      CopyAndPutIp(s, cmd.viaStop, cmd.ip0Start, cmd.ip0Stop, cmd.ip, ip1, whole);
      CopyAndPutIp(s, cmd.ip0Stop, cmd.ip1Start, cmd.ip1Stop, cmd.ip, [e3], whole);
      assert [e3] == [e3] + [];
      CopyAndPut(s, cmd.ip1Stop, e3, [], whole);
      CopyRest(s, cmd.portStop, whole);
      newPktSize := p;
    }

    /** A word of the payload is overwritten. */
    method SetWord(offset: nat, w: string)
      requires Valid() && |w| == 4 && base + offset + 4 <= p
      modifies buf
      ensures Out() == old(Out())[..offset] + w + old(Out())[offset + 4..] && buf[..base] == old(buf[..base])
    {
      var at := base + offset;
      forall k | 0 <= k < 4 {
        buf[at + k] := w[k];
      }
    }

    /** The words are set one after the other, from `offset` on. */
    method SetWords(s: string, offset: nat, words: seq<string>)
      requires Valid() && Out() == s && (forall w | w in words :: |w| == 4) && offset + 4 * |words| <= |s|
      modifies buf
      ensures |Flat(words)| == 4 * |words|
      ensures Out() == s[..offset] + Flat(words) + s[offset + 4 * |words|..] && buf[..base] == old(buf[..base])
    {
      NoWords(s, offset, words);
      for i := 0 to |words|
        invariant SoFar(s, offset, words, i) && buf[..base] == old(buf[..base])
      {
        SetNext(s, offset, words, i);
      }
      assert words[..|words|] == words;
    }

    method SetNext(s: string, offset: nat, words: seq<string>, i: nat)
      requires i < |words| && (forall w | w in words :: |w| == 4) && Valid() && offset + 4 * |words| <= |s|
      requires SoFar(s, offset, words, i)
      modifies buf
      ensures SoFar(s, offset, words, i + 1) && buf[..base] == old(buf[..base])
    {
      hide Flat;
      AfterNext(s, Out(), offset, words, i);
      SetWord(offset + 4 * i, words[i]);
    }

    /** The first `i` words are set. */
    ghost predicate SoFar(s: string, offset: nat, words: seq<string>, i: nat)
      requires i <= |words| && Valid() && offset + 4 * |words| <= |s|
      reads `p, buf
    {
      |Flat(words[..i])| == 4 * i && Out() == s[..offset] + Flat(words[..i]) + s[offset + 4 * i..]
    }

    static lemma NoWords(s: string, offset: nat, words: seq<string>)
      requires offset <= |s|
      ensures |Flat(words[..0])| == 0 && s == s[..offset] + Flat(words[..0]) + s[offset..]
    {
    }

    static lemma AfterNext(s: string, was: string, offset: nat, words: seq<string>, i: nat)
      requires i < |words| && |words[i]| == 4 && offset + 4 * |words| <= |s| && |Flat(words[..i])| == 4 * i
      requires was == s[..offset] + Flat(words[..i]) + s[offset + 4 * i..]
      ensures |was| == |s| && |Flat(words[..i + 1])| == 4 * (i + 1)
      ensures was[..offset + 4 * i] + words[i] + was[offset + 4 * i + 4..]
           == s[..offset] + Flat(words[..i + 1]) + s[offset + 4 * (i + 1)..]
    {
      FlatAppend(words[..i], words[i]);
      assert words[..i + 1] == words[..i] + [words[i]];
      NextWord(s, was, offset, Flat(words[..i]), words[i]);
    }

    /** The whole payload is copied; if they end more than four bytes before its end, words are set in
        it. */
    method RunDynPayload(cmd: Cmd, s: string)
      requires cmd.DynPayload? && Ready(cmd, s)
      modifies this, buf
      ensures Done(cmd, s) && |Out()| == |s| && buf[..base] == old(buf[..base])
    {
      p := base;
      CpPktToFrom(s, 0, |s|);
      assert Out() == s;
      if cmd.offset + 4 * |cmd.words| < |s| - 4 {
        SetWords(s, cmd.offset, cmd.words);
      }
      newPktSize := p;
      DynOutcome(cmd, s);
    }

    method RunOne(cmd: Cmd, s: string)
      requires !cmd.Eop? && Ready(cmd, s)
      modifies this, buf
      ensures Valid() && Done(cmd, s) && buf[..base] == old(buf[..base])
    {
      hide MiniVm.Ready, Outcome;
      match cmd {
        case ReplaceIp(_, _, _, _) => RunReplaceIp(cmd, s);
        case ReplacePortIp(_, _, _, _, _, _, _) => RunReplacePortIp(cmd, s);
        case ReplacePorts(_, _, _, _, _) => RunReplacePorts(cmd, s);
        case ReplaceIpIpPort(_, _, _, _, _, _, _, _, _) => RunReplaceIpIpPort(cmd, s);
        case ReplaceViaIpIpPort(_, _, _, _, _, _, _, _, _, _, _, _, _) => RunReplaceViaIpIpPort(cmd, s);
        case DynPayload(_, _, _) => RunDynPayload(cmd, s);
      }
    }

    /** Runs the commands up to the end-of-program mark; each starts the payload anew. */
    method Run(cmds: seq<Cmd>, s: string)
      requires IsProgram(cmds) && Valid()
      requires forall i | 0 <= i < |cmds| - 1 :: Ready(cmds[i], s)
      modifies this, buf
      ensures Valid() && if |cmds| == 1 then newPktSize == 0 else Done(cmds[|cmds| - 2], s)
      ensures buf[..base] == old(buf[..base])
    {
      hide MiniVm.Ready, MiniVm.Done;
      newPktSize := 0;
      var stop, cnt := false, 0;
      while !stop
        invariant 0 <= cnt <= |cmds| && Valid() && buf[..base] == old(buf[..base])
        invariant stop ==> cnt == |cmds|
        invariant !stop ==> cnt < |cmds| && if cnt == 0 then newPktSize == 0 else Done(cmds[cnt - 1], s)
        invariant stop ==> if |cmds| == 1 then newPktSize == 0 else Done(cmds[|cmds| - 2], s)
        decreases |cmds| - cnt
      {
        var cmd := cmds[cnt];
        if cmd.Eop? {
          stop := true;
        } else {
          RunOne(cmd, s);
        }
        cnt := cnt + 1;
      }
    }
  }

  lemma NextWord(s: string, was: string, offset: nat, done: string, w: string)
    requires |w| == 4 && offset + |done| + 4 <= |s|
    requires was == s[..offset] + done + s[offset + |done|..]
    ensures var at := offset + |done|; was[..at] + w + was[at + 4..] == s[..offset] + (done + w) + s[at + 4..]
  {
    assert was[..offset + |done|] == s[..offset] + done;
    assert was[offset + |done| + 4..] == s[offset + |done| + 4..];
  }

  lemma DynOutcome(cmd: Cmd, s: string)
    requires cmd.DynPayload? && WellFormed(cmd, |s|)
    ensures Outcome(cmd, s)
         == if cmd.offset + 4 * |cmd.words| < |s| - 4
            then s[..cmd.offset] + Flat(cmd.words) + s[cmd.offset + 4 * |cmd.words|..]
            else s
  {
    var edits := Edits(cmd, |s|);
    EditsInOrder(cmd, s);
    if edits != [] {
      assert edits == [edits[0]] + [];
      FirstEdit(s, 0, edits[0], [], 0);
    }
  }

  lemma {:induction false} FlatAppend(words: seq<string>, w: string)
    ensures Flat(words + [w]) == Flat(words) + w
  {
    if words != [] {
      FlatAppend(words[1..], w);
      assert (words + [w])[1..] == words[1..] + [w];
    }
  }

  lemma {:induction false} FlatAt(words: seq<string>, i: nat)
    requires i < |words| && forall w | w in words :: |w| == 4
    ensures |Flat(words)| == 4 * |words| && Flat(words)[4 * i..4 * i + 4] == words[i]
  {
    FlatLength(words);
    if i > 0 {
      FlatAt(words[1..], i - 1);
      assert Flat(words)[4..] == Flat(words[1..]);
      assert Flat(words)[4 * i..4 * i + 4] == Flat(words)[4..][4 * (i - 1)..4 * (i - 1) + 4];
    }
  }

  /** When there is room, word `i` stands `i` words behind the offset and all other bytes stay. */
  lemma WordsAreSet(cmd: Cmd, s: string)
    requires cmd.DynPayload? && WellFormed(cmd, |s|) && cmd.offset + 4 * |cmd.words| < |s| - 4
    ensures
      var r, end := Outcome(cmd, s), cmd.offset + 4 * |cmd.words|;
      && |r| == |s| && r[..cmd.offset] == s[..cmd.offset] && r[end..] == s[end..]
      && forall i | 0 <= i < |cmd.words| :: r[cmd.offset + 4 * i..cmd.offset + 4 * i + 4] == cmd.words[i]
  {
    hide Flat, Outcome, Edits;
    DynOutcome(cmd, s);
    FlatLength(cmd.words);
    var r := Outcome(cmd, s);
    forall i | 0 <= i < |cmd.words|
      ensures r[cmd.offset + 4 * i..cmd.offset + 4 * i + 4] == cmd.words[i]
    {
      FlatAt(cmd.words, i);
      assert r[cmd.offset + 4 * i..cmd.offset + 4 * i + 4] == Flat(cmd.words)[4 * i..4 * i + 4];
    }
  }
}
