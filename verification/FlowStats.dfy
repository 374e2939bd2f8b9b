/** The flow-statistics manager and its two maps as objects that are updated in place. Every operation is
    proved against the rules of FlowStatRules. */
module FlowStats {
  import opened FlowStatRules
  import FlowStatRuns

  // ----- what happens to the counts of a user -----

  /** The counts of the session move to those before it; the next session counts from 0. */
  function Folded(c: Counters): Counters
    requires c.Valid()
  {
    Counters(seq(TREX_MAX_PORTS, _ => 0), seq(TREX_MAX_PORTS, i requires 0 <= i < TREX_MAX_PORTS => c.RxTotal(i)),
             seq(TREX_MAX_PORTS, _ => 0), seq(TREX_MAX_PORTS, i requires 0 <= i < TREX_MAX_PORTS => c.TxTotal(i)))
  }

  /** The first `n` ports get the counts read from the hardware, for receiving and sending alike. */
  function WithCounts(c: Counters, read: seq<nat>, n: nat): Counters
    requires c.Valid() && n <= |read| && n <= TREX_MAX_PORTS
  {
    c.(rx := read[..n] + c.rx[n..], tx := read[..n] + c.tx[n..])
  }

  /** What the counts of a user become when its last stream stops. */
  function Released(c: Counters, hwId: nat, final: seq<nat>, n: nat): Counters
    requires c.Valid() && n <= |final| && n <= TREX_MAX_PORTS
  {
    if hwId < MAX_FLOW_STATS then WithCounts(Folded(c), final, n) else Folded(c)
  }

  /** Leaving the hardware changes no port's totals. */
  lemma FoldKeepsTotals(c: Counters, port: nat)
    requires c.Valid() && port < TREX_MAX_PORTS
    ensures Folded(c).Valid()
    ensures Folded(c).RxTotal(port) == c.RxTotal(port) && Folded(c).TxTotal(port) == c.TxTotal(port)
  {
  }

  lemma FoldedIs(c: Counters, d: Counters)
    requires c.Valid() && d.Valid()
    requires forall i | 0 <= i < TREX_MAX_PORTS ::
      d.rx[i] == 0 && d.tx[i] == 0 && d.rxBase[i] == c.RxTotal(i) && d.txBase[i] == c.TxTotal(i)
    ensures d == Folded(c)
  {
    assert d.rx == Folded(c).rx && d.rxBase == Folded(c).rxBase && d.tx == Folded(c).tx && d.txBase == Folded(c).txBase;
  }

  // ----- the sessions of a user -----

  /** One session of a user as port `port` sees it: the counts read for the periodic reports, and the
      final counts of all ports, read when the last stream stops. */
  datatype Session = Session(reports: seq<nat>, final: seq<nat>)

  /** A report stores the count it has read, unless that is 0. */
  function Reported(c: Counters, port: nat, reports: seq<nat>): (d: Counters)
    requires c.Valid() && port < TREX_MAX_PORTS
    ensures d.Valid() && d.rxBase == c.rxBase && d.rx[port] == LastReport(reports, c.rx[port])
  {
    if reports == [] then c
    else
      var d := Reported(c, port, reports[..|reports| - 1]);
      var read := reports[|reports| - 1];
      if read != 0 then d.(rx := d.rx[port := read], tx := d.tx[port := read]) else d
  }

  /** The last report of a session that was not 0, or `before` without one. */
  function LastReport(reports: seq<nat>, before: nat): nat {
    if reports == [] then before
    else if reports[|reports| - 1] != 0 then reports[|reports| - 1]
    else LastReport(reports[..|reports| - 1], before)
  }

  /** All counts are 64-bit numbers, and port `port` is one of the `n` in use. */
  ghost predicate SessionsOk(ss: seq<Session>, port: nat, n: nat) {
    && port < n <= TREX_MAX_PORTS
    && forall k | 0 <= k < |ss| :: n <= |ss[k].final| && ss[k].final[port] < U64 && AllBelow(ss[k].reports)
  }

  ghost predicate AllBelow(reports: seq<nat>) { forall i | 0 <= i < |reports| :: reports[i] < U64 }

  function ZeroCounts(): (c: Counters)
    ensures c.Valid() && forall i | 0 <= i < TREX_MAX_PORTS :: c.rx[i] == c.rxBase[i] == 0
  {
    var zeros := seq(TREX_MAX_PORTS, _ => 0);
    Counters(zeros, zeros, zeros, zeros)
  }

  /** The counts of a new user after sessions that each end with a stop. No start clears a count. */
  ghost function After(ss: seq<Session>, port: nat, n: nat): (c: Counters)
    requires SessionsOk(ss, port, n)
    ensures c.Valid()
  {
    if ss == [] then ZeroCounts()
    else
      var s := ss[|ss| - 1];
      Released(Reported(After(ss[..|ss| - 1], port, n), port, s.reports), 0, s.final, n)
  }

  /** The final count of the session before number `k`, or 0 before the first one. */
  ghost function FinalBefore(ss: seq<Session>, port: nat, k: nat): nat
    requires k <= |ss| && (k > 0 ==> port < |ss[k - 1].final|)
  {
    if k == 0 then 0 else ss[k - 1].final[port]
  }

  /** What stop number `k` adds to the base: the session's own last report, or, without one, the final
      count of the session before. */
  ghost function FoldedAt(ss: seq<Session>, port: nat, k: nat): nat
    requires k < |ss| && (k > 0 ==> port < |ss[k - 1].final|)
  {
    LastReport(ss[k].reports, FinalBefore(ss, port, k))
  }

  ghost function SumFolded(ss: seq<Session>, port: nat, n: nat, k: nat): nat
    requires SessionsOk(ss, port, n) && k <= |ss|
  {
    if k == 0 then 0 else SumFolded(ss, port, n, k - 1) + FoldedAt(ss, port, k - 1)
  }

  ghost function SumFinals(ss: seq<Session>, port: nat, n: nat, k: nat): nat
    requires SessionsOk(ss, port, n) && k <= |ss|
  {
    if k == 0 then 0 else SumFinals(ss, port, n, k - 1) + ss[k - 1].final[port]
  }

  lemma ReleasedAt(c: Counters, port: nat, final: seq<nat>, n: nat)
    requires c.Valid() && port < n <= |final| && n <= TREX_MAX_PORTS
    ensures Released(c, 0, final, n).Valid() && Released(c, 0, final, n).rx[port] == final[port]
    ensures Released(c, 0, final, n).rxBase[port] == c.RxTotal(port)
  {
  }

  lemma AfterStep(ss: seq<Session>, port: nat, n: nat, k: nat)
    requires SessionsOk(ss, port, n) && k < |ss|
    ensures After(ss[..k + 1], port, n)
      == Released(Reported(After(ss[..k], port, n), port, ss[k].reports), 0, ss[k].final, n)
  {
    assert ss[..k + 1][..k] == ss[..k];
  }

  /** After `k` stops the counter holds the last final count, and the base all that was folded. */
  lemma {:induction false} AfterIs(ss: seq<Session>, port: nat, n: nat, k: nat)
    requires SessionsOk(ss, port, n) && k <= |ss|
    ensures After(ss[..k], port, n).rx[port] == FinalBefore(ss, port, k)
    ensures After(ss[..k], port, n).rxBase[port] == SumFolded(ss, port, n, k) % U64
  {
    hide Released, Reported, LastReport, AllBelow;
    if k > 0 {
      AfterIs(ss, port, n, k - 1);
      AfterStep(ss, port, n, k - 1);
      ReleasedAt(Reported(After(ss[..k - 1], port, n), port, ss[k - 1].reports), port, ss[k - 1].final, n);
      AddModulo(SumFolded(ss, port, n, k - 1), FoldedAt(ss, port, k - 1));
    }
  }

  /** The total after `k` stops is the sum of the `k` final counts just when what the stops have folded
      adds up to the final counts of the sessions before the last (all modulo 64 bits). */
  lemma TotalIsExact(ss: seq<Session>, port: nat, n: nat, k: nat)
    requires SessionsOk(ss, port, n) && 0 < k <= |ss|
    ensures After(ss[..k], port, n).RxTotal(port) == (SumFolded(ss, port, n, k) + ss[k - 1].final[port]) % U64
    ensures After(ss[..k], port, n).RxTotal(port) == SumFinals(ss, port, n, k) % U64
       <==> SumFolded(ss, port, n, k) % U64 == SumFinals(ss, port, n, k - 1) % U64
  {
    AfterIs(ss, port, n, k);
    var x, y, f := SumFolded(ss, port, n, k), SumFinals(ss, port, n, k - 1), ss[k - 1].final[port];
    AddModulo(x, f);
    SameModulo(x, y, f);
  }

  lemma AddModulo(x: nat, f: nat)
    ensures (f + x % U64) % U64 == (x + f) % U64
  {
  }

  lemma SameModulo(x: nat, y: nat, f: nat)
    ensures (x + f) % U64 == (y + f) % U64 <==> x % U64 == y % U64
  {
  }

  /** Session `k` disturbs no total: it had no report, or its last one happens to equal the final count of
      the session before. */
  ghost predicate Harmless(ss: seq<Session>, port: nat, k: nat)
    requires k < |ss| && (k > 0 ==> port < |ss[k - 1].final|)
  {
    FoldedAt(ss, port, k) == FinalBefore(ss, port, k)
  }

  /** The total after `k` stops is the sum of their final counts. */
  ghost predicate Exact(ss: seq<Session>, port: nat, n: nat, k: nat)
    requires SessionsOk(ss, port, n) && k <= |ss|
  {
    After(ss[..k], port, n).RxTotal(port) == SumFinals(ss, port, n, k) % U64
  }

  /** The totals after all stops are right just when every session is harmless. */
  lemma {:induction false} TotalsAreExact(ss: seq<Session>, port: nat, n: nat, m: nat)
    requires SessionsOk(ss, port, n) && m <= |ss|
    ensures (forall k | 0 < k <= m :: Exact(ss, port, n, k)) <==> (forall k | 0 <= k < m :: Harmless(ss, port, k))
    ensures m > 0 && (forall k | 0 <= k < m :: Harmless(ss, port, k)) ==>
      SumFolded(ss, port, n, m) == SumFinals(ss, port, n, m - 1)
  {
    hide Exact, Harmless;
    if m > 0 {
      TotalsAreExact(ss, port, n, m - 1);
      if forall k | 0 <= k < m - 1 :: Harmless(ss, port, k) {
        LastTotal(ss, port, n, m);
      }
    }
  }

  /** As long as no session has disturbed the totals, the next one decides about its own. */
  lemma LastTotal(ss: seq<Session>, port: nat, n: nat, m: nat)
    requires SessionsOk(ss, port, n) && 0 < m <= |ss|
    requires m > 1 ==> SumFolded(ss, port, n, m - 1) == SumFinals(ss, port, n, m - 2)
    ensures Exact(ss, port, n, m) <==> Harmless(ss, port, m - 1)
    ensures Harmless(ss, port, m - 1) ==> SumFolded(ss, port, n, m) == SumFinals(ss, port, n, m - 1)
  {
    hide After, AllBelow, LastReport, FoldedAt;
    TotalIsExact(ss, port, n, m);
    FoldedBelow(ss, port, n, m - 1);
    OneTerm(if m == 1 then 0 else SumFinals(ss, port, n, m - 2), FoldedAt(ss, port, m - 1),
            FinalBefore(ss, port, m - 1));
  }

  lemma FoldedBelow(ss: seq<Session>, port: nat, n: nat, k: nat)
    requires SessionsOk(ss, port, n) && k < |ss|
    ensures FoldedAt(ss, port, k) < U64 && FinalBefore(ss, port, k) < U64
  {
    LastBelow(ss[k].reports, FinalBefore(ss, port, k));
  }

  lemma {:induction false} LastBelow(reports: seq<nat>, before: nat)
    requires AllBelow(reports) && before < U64
    ensures LastReport(reports, before) < U64
  {
    if reports != [] {
      LastBelow(reports[..|reports| - 1], before);
    }
  }

  lemma OneTerm(y: nat, x: nat, z: nat)
    requires x < U64 && z < U64
    ensures (y + x) % U64 == (y + z) % U64 <==> x == z
  {
  }

  /** Without a report all totals are right, whatever the sessions counted. */
  lemma SilentSessionsExact(ss: seq<Session>, port: nat, n: nat, k: nat)
    requires SessionsOk(ss, port, n) && 0 < k <= |ss| && forall i | 0 <= i < |ss| :: ss[i].reports == []
    ensures Exact(ss, port, n, k)
  {
    forall i | 0 <= i < |ss|
      ensures Harmless(ss, port, i)
    {
    }
    TotalsAreExact(ss, port, n, |ss|);
  }

  /** One report in the first session is counted on top of its final count; one in the second session
      takes the place of the first session's final count, which is lost. */
  lemma ReportSpoilsTotal(r: nat, f1: nat, f2: nat)
    requires 0 < r < U64 && f1 < U64 && f2 < U64
    ensures After([Session([r], [f1])], 0, 1).RxTotal(0) == (r + f1) % U64
    ensures After([Session([], [f1]), Session([r], [f2])], 0, 1).RxTotal(0) == (r + f2) % U64
  {
    var one, two := [Session([r], [f1])], [Session([], [f1]), Session([r], [f2])];
    assert one[..1] == one && two[..2] == two;
    assert [r][..0] == [];
    TotalIsExact(one, 0, 1, 1);
    TotalIsExact(two, 0, 1, 2);
    assert SumFolded(two, 0, 1, 1) == 0;
  }

  /** Until sending is counted by itself, what is received counts as sent. */
  lemma {:induction false} TxMirrorsRx(ss: seq<Session>, port: nat, n: nat)
    requires SessionsOk(ss, port, n)
    ensures After(ss, port, n).tx == After(ss, port, n).rx && After(ss, port, n).txBase == After(ss, port, n).rxBase
  {
    hide LastReport;
    if ss != [] {
      var before := ss[..|ss| - 1];
      TxMirrorsRx(before, port, n);
      ReportMirrors(After(before, port, n), port, ss[|ss| - 1].reports);
    }
  }

  lemma {:induction false} ReportMirrors(c: Counters, port: nat, reports: seq<nat>)
    requires c.Valid() && port < TREX_MAX_PORTS && c.tx == c.rx && c.txBase == c.rxBase
    ensures Reported(c, port, reports).tx == Reported(c, port, reports).rx
    ensures Reported(c, port, reports).txBase == Reported(c, port, reports).rxBase
  {
    if reports != [] {
      ReportMirrors(c, port, reports[..|reports| - 1]);
    }
  }

  // ----- one user -----

  class UserIdInfo {
    var rx: seq<nat>
    var rxBase: seq<nat>
    var tx: seq<nat>
    var txBase: seq<nat>
    var hwId: nat
    const proto: nat
    var refCount: nat
    var transRefCount: nat

    ghost function Info(): UserInfo
      reads `hwId, `refCount, `transRefCount
    {
      UserInfo(hwId, proto, refCount, transRefCount)
    }

    ghost function Counts(): Counters
      reads `rx, `rxBase, `tx, `txBase
    {
      Counters(rx, rxBase, tx, txBase)
    }

    constructor (proto: nat)
      ensures Counts().Valid() && Info() == UserInfo(FREE_HW_ID, proto, 1, 0)
      ensures forall i | 0 <= i < TREX_MAX_PORTS :: Counts().RxTotal(i) == 0 && Counts().TxTotal(i) == 0
    {
      this.proto := proto;
      rx, rxBase := seq(TREX_MAX_PORTS, _ => 0), seq(TREX_MAX_PORTS, _ => 0);
      tx, txBase := seq(TREX_MAX_PORTS, _ => 0), seq(TREX_MAX_PORTS, _ => 0);
      hwId, refCount, transRefCount := FREE_HW_ID, 1, 0;
    }

    method AddStream(p: nat) returns (ret: int)
      modifies `refCount
      ensures ret == if p == proto then 0 else -1
      ensures refCount == if p == proto then (old(refCount) + 1) % U8 else old(refCount)
    {
      if p != proto { return -1; }
      refCount := (refCount + 1) % U8;
      ret := 0;
    }

    method DelStream() returns (left: nat)
      modifies `refCount
      ensures left == refCount == (old(refCount) + U8 - 1) % U8
    {
      refCount := (refCount + U8 - 1) % U8;
      left := refCount;
    }

    method AddStartedStream()
      modifies `transRefCount
      ensures transRefCount == (old(transRefCount) + 1) % U8
    {
      transRefCount := (transRefCount + 1) % U8;
    }

    method StopStartedStream() returns (left: nat)
      modifies `transRefCount
      ensures left == transRefCount == (old(transRefCount) + U8 - 1) % U8
    {
      transRefCount := (transRefCount + U8 - 1) % U8;
      left := transRefCount;
    }

    /** The user leaves the hardware: its counts become those of earlier sessions and no port's totals
        change. */
    method ResetHwId()
      requires Counts().Valid()
      modifies `hwId, `rx, `rxBase, `tx, `txBase
      ensures hwId == FREE_HW_ID && Counts() == Folded(old(Counts())) && Counts().Valid()
      ensures forall i | 0 <= i < TREX_MAX_PORTS ::
        Counts().RxTotal(i) == old(Counts()).RxTotal(i) && Counts().TxTotal(i) == old(Counts()).TxTotal(i)
    {
      ghost var was := Counts();
      hwId := FREE_HW_ID;
      var i := 0;
      while i < TREX_MAX_PORTS
        invariant 0 <= i <= TREX_MAX_PORTS && Counts().Valid() && hwId == FREE_HW_ID
        invariant forall k | 0 <= k < i ::
          rx[k] == 0 && tx[k] == 0 && rxBase[k] == was.RxTotal(k) && txBase[k] == was.TxTotal(k)
        invariant forall k | i <= k < TREX_MAX_PORTS ::
          rx[k] == was.rx[k] && tx[k] == was.tx[k] && rxBase[k] == was.rxBase[k] && txBase[k] == was.txBase[k]
      {
        rxBase := rxBase[i := (rxBase[i] + rx[i]) % U64];
        rx := rx[i := 0];
        txBase := txBase[i := (txBase[i] + tx[i]) % U64];
        tx := tx[i := 0];
        i := i + 1;
      }
      forall k: nat | k < TREX_MAX_PORTS
        ensures Folded(was).RxTotal(k) == was.RxTotal(k) && Folded(was).TxTotal(k) == was.TxTotal(k)
      {
        FoldKeepsTotals(was, k);
      }
      FoldedIs(was, Counts());
    }

    method SetRxCounter(port: nat, value: nat)
      requires port < |rx|
      modifies `rx
      ensures rx == old(rx)[port := value]
    {
      rx := rx[port := value];
    }

    method SetTxCounter(port: nat, value: nat)
      requires port < |tx|
      modifies `tx
      ensures tx == old(tx)[port := value]
    {
      tx := tx[port := value];
    }

    /** The count read for the periodic report is stored, unless it is 0. */
    method Report(port: nat, read: nat)
      requires Counts().Valid() && port < TREX_MAX_PORTS
      modifies `rx, `tx
      ensures Counts() == Reported(old(Counts()), port, [read])
    {
      assert [read][..0] == [];
      if read != 0 {
        SetRxCounter(port, read);
        SetTxCounter(port, read);
      }
    }
  }

  // ----- hardware slots -----

  class HwIdMap {
    const slots: array<nat>
    var numFree: nat

    constructor ()
      ensures slots[..] == NoUsers().hw && numFree == NoUsers().numFree && fresh(slots)
    {
      slots := new nat[MAX_FLOW_STATS](_ => FREE_HW_ID);
      numFree := MAX_FLOW_STATS;
    }

    method FindFreeHwId() returns (h: nat)
      requires slots.Length == MAX_FLOW_STATS
      ensures h == FirstFree(slots[..], 0)
    {
      var i := 0;
      while i < MAX_FLOW_STATS
        invariant 0 <= i <= MAX_FLOW_STATS
        invariant FirstFree(slots[..], 0) == FirstFree(slots[..], i)
      {
        if slots[i] == FREE_HW_ID { return i; }
        i := i + 1;
      }
      h := FREE_HW_ID;
    }

    method Map(h: nat, user: nat)
      requires h < slots.Length
      modifies this`numFree, slots
      ensures slots[..] == old(slots[..])[h := user] && numFree == (old(numFree) + U16 - 1) % U16
    {
      slots[h] := user;
      numFree := (numFree + U16 - 1) % U16;
    }

    method Unmap(h: nat)
      requires h < slots.Length
      modifies this`numFree, slots
      ensures slots[..] == old(slots[..])[h := FREE_HW_ID] && numFree == (old(numFree) + 1) % U16
    {
      slots[h] := FREE_HW_ID;
      numFree := (numFree + 1) % U16;
    }
  }

  // ----- all users -----

  class UserIdMap {
    var users: map<nat, UserIdInfo>

    constructor ()
      ensures users == map[]
    {
      users := map[];
    }

    ghost predicate Valid()
      reads this, users.Values
    {
      && (forall u | u in users :: users[u].Counts().Valid())
      && (forall u, v | u in users && v in users && u != v :: users[u] != users[v])
    }

    ghost function Infos(): map<nat, UserInfo>
      reads this, users.Values
    {
      map u | u in users :: users[u].Info()
    }

    /** Users that stay are the objects they were, and all but `but` keep their counts. */
    twostate predicate CountsKept(but: set<nat>)
      reads this, users.Values
    {
      forall v | v in users && v in old(users) ::
        users[v] == old(users[v]) && (v !in but ==> users[v].Counts() == old(users[v].Counts()))
    }

    method AddUserId(user: nat, proto: nat)
      requires Valid() && user !in users
      modifies this
      ensures Valid() && fresh(users.Values - old(users.Values))
      ensures Infos() == old(Infos())[user := UserInfo(FREE_HW_ID, proto, 1, 0)]
      ensures CountsKept({})
    {
      hide Counters.Valid;
      var info := new UserIdInfo(proto);
      users := users[user := info];
      assert forall v | v in old(users) :: users[v] == old(users[v]) && users[v] != info;
      assert Infos() == old(Infos())[user := info.Info()];
    }

    method AddStream(user: nat, proto: nat) returns (ret: int)
      requires Valid()
      modifies this, users.Values
      ensures Valid() && fresh(users.Values - old(users.Values))
      ensures (Infos(), ret) == UsersAfterAdd(old(Infos()), user, proto)
      ensures CountsKept({})
    {
      if user !in users {
        AddUserId(user, proto);
        ret := 0;
      } else {
        ret := users[user].AddStream(proto);
        assert Infos() == UsersAfterAdd(old(Infos()), user, proto).0;
      }
    }

    method DelStream(user: nat) returns (ret: int)
      requires Valid()
      modifies this, users.Values
      ensures Valid() && users.Values <= old(users.Values)
      ensures (Infos(), ret) == UsersAfterDel(old(Infos()), user)
      ensures CountsKept({})
    {
      hide Counters.Valid;
      if user !in users { return -1; }
      var left := users[user].DelStream();
      if left == 0 {
        users := users - {user};
      }
      ret := 0;
      assert Infos() == UsersAfterDel(old(Infos()), user).0;
    }

    method StartFirst(user: nat, h: nat) returns (ret: int)
      requires Valid()
      modifies users.Values
      ensures Valid() && users == old(users)
      ensures Infos() == WithSlot(old(Infos()), user, h)
      ensures ret == if user in users && old(users[user].hwId) == FREE_HW_ID then 0 else -1
      ensures CountsKept({})
    {
      hide Counters.Valid;
      if user !in users { return -1; }
      if users[user].hwId != FREE_HW_ID { return -1; }
      users[user].hwId := h;
      users[user].AddStartedStream();
      ret := 0;
      assert Infos() == WithSlot(old(Infos()), user, h);
    }

    method StartMore(user: nat) returns (ret: int)
      requires Valid()
      modifies users.Values
      ensures Valid() && users == old(users)
      ensures if user in old(Infos()) then Infos() == OneMore(old(Infos()), user) && ret == 0
        else Infos() == old(Infos()) && ret == -1
      ensures CountsKept({})
    {
      if user !in users { return -1; }
      users[user].AddStartedStream();
      ret := 0;
      assert Infos() == OneMore(old(Infos()), user);
    }

    method StopStream(user: nat) returns (left: int)
      requires Valid()
      modifies users.Values
      ensures Valid() && users == old(users)
      ensures if user in old(Infos()) then
        Infos() == OneLess(old(Infos()), user) && left == OneLess(old(Infos()), user)[user].transRefCount
              else Infos() == old(Infos()) && left == -1
      ensures user in users ==> users[user].hwId == old(users[user].hwId)
      ensures CountsKept({})
    {
      if user !in users { return -1; }
      left := users[user].StopStartedStream();
      assert Infos() == OneLess(old(Infos()), user);
    }

    method IsStarted(user: nat) returns (r: bool)
      ensures r == FlowStatRules.IsStarted(Infos(), user)
    {
      r := user in users && users[user].transRefCount != 0;
    }

    method GetHwId(user: nat) returns (h: nat)
      ensures h == HwIdOf(Infos(), user)
    {
      h := if user in users then users[user].hwId else FREE_HW_ID;
    }

    /** A known user loses its slot and starts a new session. */
    method Unmap(user: nat) returns (h: nat)
      requires Valid()
      modifies users.Values
      ensures Valid() && users == old(users)
      ensures h == HwIdOf(old(Infos()), user)
      ensures Infos() == if user in old(Infos()) then WithoutSlot(old(Infos()), user) else old(Infos())
      ensures user in users ==> users[user].Counts() == Folded(old(users[user].Counts()))
      ensures CountsKept({user})
    {
      if user !in users { return FREE_HW_ID; }
      h := users[user].hwId;
      users[user].ResetHwId();
      assert Infos() == WithoutSlot(old(Infos()), user);
    }
  }

  // ----- the manager -----

  class TrexStream {
    const enabled: bool
    const user: nat
    const ipv4: bool
    const proto: nat
    var ipId: nat

    constructor (s: Stream)
      ensures S() == s
    {
      enabled, user, ipv4, proto, ipId := s.enabled, s.user, s.ipv4, s.proto, s.ipId;
    }

    ghost function S(): Stream
      reads this
    {
      Stream(enabled, user, ipv4, proto, ipId)
    }
  }

  class RuleMgr {
    const slots: HwIdMap
    const users: UserIdMap
    var api: bool
    var numPorts: nat

    ghost predicate Valid()
      reads this, users, users.users.Values
    {
      users.Valid() && slots.slots.Length == MAX_FLOW_STATS && numPorts <= TREX_MAX_PORTS
    }

    ghost function S(): Mgr
      reads this, slots, slots.slots, users, users.users.Values
    {
      Mgr(api, slots.slots[..], slots.numFree, users.Infos())
    }

    constructor ()
      ensures Valid() && S() == NoUsers() && fresh(slots) && fresh(slots.slots) && fresh(users)
    {
      slots := new HwIdMap();
      users := new UserIdMap();
      api, numPorts := false, 0;
      new;
      assert users.Infos() == map[];
    }

    method CompileStream(capable: bool, s: TrexStream) returns (ret: int)
      ensures ret == FlowStatRules.CompileStream(capable, s.S())
    {
      if !capable { return -2; }
      if !s.ipv4 {
        return if s.enabled then -1 else 0;
      }
      ret := 0;
    }

    method AddStream(capable: bool, ports: nat, s: TrexStream) returns (ret: int)
      requires Valid() && ports <= TREX_MAX_PORTS
      modifies this, users, users.users.Values
      ensures Valid() && fresh(users.users.Values - old(users.users.Values))
      ensures (S(), ret) == FlowStatRules.AddStream(capable, old(S()), old(s.S()))
      ensures users.CountsKept({})
    {
      hide UserIdMap.Infos, UserIdMap.Valid, UsersAfterAdd, UsersAfterDel, WithSlot, OneMore;
      if !api {
        api, numPorts := true, ports;
      }
      if !s.enabled { return 0; }
      ret := CompileStream(capable, s);
      if ret < 0 { return; }
      ret := users.AddStream(s.user, s.proto);
    }

    method DelStream(s: TrexStream) returns (ret: int)
      requires Valid()
      modifies users, users.users.Values
      ensures Valid() && users.users.Values <= old(users.users.Values)
      ensures (S(), ret) == FlowStatRules.DelStream(old(S()), s.S())
      ensures users.CountsKept({})
    {
      hide UserIdMap.Infos, UserIdMap.Valid, UsersAfterAdd, UsersAfterDel, WithSlot, OneMore;
      if !s.enabled { return 0; }
      ret := users.DelStream(s.user);
    }

    method MapFree(user: nat, h: nat)
      requires Valid() && h < MAX_FLOW_STATS
      modifies slots, slots.slots, users.users.Values
      ensures Valid() && users.users == old(users.users)
      ensures S() == MapUser(old(S()), h, user)
      ensures users.CountsKept({})
    {
      hide UserIdMap.Infos, UserIdMap.Valid, WithSlot;
      var _ := users.StartFirst(user, h);
      slots.Map(h, user);
    }

    /** The user transmits one stream more; a user that did not transmit takes the first free slot. */
    method Attach(user: nat) returns (h: nat)
      requires Valid()
      modifies slots, slots.slots, users.users.Values
      ensures Valid() && users.users == old(users.users)
      ensures !IsStarted(old(S()).users, user) ==> h == FirstFree(old(S()).hw, 0)
      ensures
        if IsStarted(old(S()).users, user) then
          S() == old(S()).(users := OneMore(old(S()).users, user)) && h != FREE_HW_ID
        else if h == FREE_HW_ID then S() == old(S())
        else S() == MapUser(old(S()), h, user)
      ensures users.CountsKept({})
    {
      hide UserIdMap.Infos, UserIdMap.Valid, MapUser, OneMore, FirstFree;
      h := 0;
      var started := users.IsStarted(user);
      if started {
        var _ := users.StartMore(user);
      } else {
        h := slots.FindFreeHwId();
        if h != FREE_HW_ID {
          MapFree(user, h);
        }
      }
    }

    method StartCounted(s: TrexStream) returns (ret: int)
      requires Valid()
      modifies slots, slots.slots, users.users.Values, s
      ensures Valid() && users.users == old(users.users)
      ensures (S(), ret, s.ipId) == FlowStatRules.StartCounted(old(S()), old(s.S()))
      ensures users.CountsKept({})
    {
      hide UserIdMap.Infos, UserIdMap.Valid, MapUser, OneMore, FirstFree, HwIdOf;
      var slot := Attach(s.user);
      if slot == FREE_HW_ID { return -1; }
      var h := users.GetHwId(s.user);
      s.ipId := (IP_ID_RESERVE_BASE + h) % U16;
      ret := 0;
    }

    method StartStream(capable: bool, s: TrexStream) returns (ret: int)
      requires Valid()
      modifies slots, slots.slots, users.users.Values, s
      ensures Valid() && users.users == old(users.users)
      ensures (S(), ret, s.ipId) == FlowStatRules.StartStream(capable, old(S()), old(s.S()))
      ensures users.CountsKept({})
    {
      hide UserIdMap.Infos, UserIdMap.Valid, FlowStatRules.StartCounted;
      if !api { return 0; }
      ret := CompileStream(capable, s);
      if ret < 0 { return; }
      if !s.enabled {
        if s.ipv4 && s.ipId >= IP_ID_RESERVE_BASE {
          s.ipId := ClearBit12(s.ipId);
        }
        return 0;
      }
      ret := StartCounted(s);
    }

    /** The final counts of the session of slot `h` go to the user that still holds it. */
    method StoreFinal(h: nat, final: seq<nat>)
      requires Valid() && numPorts <= |final| && h < MAX_FLOW_STATS && slots.slots[h] in users.users
      modifies users.users.Values
      ensures Valid() && S() == old(S())
      ensures users.CountsKept({slots.slots[h]})
      ensures users.users[slots.slots[h]].Counts()
        == WithCounts(old(users.users[slots.slots[h]].Counts()), final, numPorts)
    {
      hide UserIdMap.Infos, WithCounts;
      ghost var user := slots.slots[h];
      ghost var was := users.users[user].Counts();
      NoCounts(was, final);
      var port := 0;
      while port < numPorts
        invariant 0 <= port <= numPorts && Valid() && users.CountsKept({user})
        invariant users.users[user].Counts() == WithCounts(was, final, port)
        invariant forall v | v in users.users :: users.users[v].Info() == old(users.users[v].Info())
      {
        SetOne(users.users[slots.slots[h]], was, final, port);
        port := port + 1;
      }
      SameInfos(users);
    }

    /** The count of one port is stored. */
    static method SetOne(info: UserIdInfo, ghost was: Counters, final: seq<nat>, port: nat)
      requires was.Valid() && port < |final| && port < TREX_MAX_PORTS && info.Counts() == WithCounts(was, final, port)
      modifies info`rx, info`tx
      ensures info.Counts() == WithCounts(was, final, port + 1) && info.Counts().Valid()
    {
      info.SetRxCounter(port, final[port]);
      info.SetTxCounter(port, final[port]);
    }

    static lemma NoCounts(was: Counters, final: seq<nat>)
      requires was.Valid()
      ensures WithCounts(was, final, 0) == was
    {
    }

    twostate lemma SameInfos(m: UserIdMap)
      requires m.users == old(m.users)
      requires forall v | v in m.users :: m.users[v].Info() == old(m.users[v].Info())
      ensures m.Infos() == old(m.Infos())
    {
    }

    /** The user of slot `h` gets the final counts, and the slot is free. */
    method FreeSlot(h: nat, ghost user: nat, final: seq<nat>)
      requires Valid() && numPorts <= |final| && h < MAX_FLOW_STATS && slots.slots[h] == user && user in users.users
      modifies slots, slots.slots, users.users.Values
      ensures Valid() && users.users == old(users.users) && S() == UnmapSlot(old(S()), h)
      ensures users.CountsKept({user})
      ensures users.users[user].Counts() == WithCounts(old(users.users[user].Counts()), final, numPorts)
    {
      hide UserIdMap.Infos, WithCounts;
      StoreFinal(h, final);
      slots.Unmap(h);
    }

    /** The last stream of a user has stopped: its counts are folded, the final ones of the session are
        stored, and the slot is given back. */
    method ReleaseSlot(user: nat, final: seq<nat>) returns (ret: int)
      requires Valid() && numPorts <= |final| && FlowStatRuns.Inverse(S()) && user in users.users
      modifies slots, slots.slots, users.users.Values
      ensures Valid() && users.users == old(users.users)
      ensures (S(), ret) == FlowStatRules.ReleaseSlot(old(S()), user)
      ensures users.CountsKept({user})
      ensures users.users[user].Counts()
           == Released(old(users.users[user].Counts()), old(users.users[user].hwId), final, numPorts)
    {
      hide UserIdMap.Infos, FlowStatRuns.Inverse, WithoutSlot, UnmapSlot, Folded, WithCounts;
      Holder(user);
      var h := users.Unmap(user);
      if h >= MAX_FLOW_STATS { return -1; }
      FreeSlot(h, user, final);
      ret := 0;
    }

    lemma Holder(user: nat)
      requires Valid() && FlowStatRuns.Inverse(S()) && user in users.users
      ensures user in users.Infos() && users.Infos()[user] == users.users[user].Info()
      ensures users.users[user].hwId < MAX_FLOW_STATS ==> slots.slots[users.users[user].hwId] == user
    {
      assert users.users[user].hwId == S().users[user].hwId;
    }

    method StopStream(s: TrexStream, final: seq<nat>) returns (ret: int)
      requires Valid() && numPorts <= |final| && FlowStatRuns.Inverse(S())
      modifies slots, slots.slots, users.users.Values
      ensures Valid() && users.users == old(users.users)
      ensures (S(), ret) == FlowStatRules.StopStream(old(S()), s.S())
      ensures users.CountsKept({s.user})
      ensures s.user in users.users ==>
        (users.users[s.user].Counts()
         == if IsLast(old(S()), s.S()) then
           Released(old(users.users[s.user].Counts()), old(users.users[s.user].hwId), final, numPorts)
            else old(users.users[s.user].Counts()))
    {
      hide UserIdMap.Valid, OneLess, FlowStatRuns.Inverse, FlowStatRules.ReleaseSlot, Released;
      if !s.enabled { return 0; }
      if !api { return 0; }
      var left := users.StopStream(s.user);
      ret := 0;
      if left == 0 {
        StillInverse(old(S()), S(), s.user);
        ret := ReleaseSlot(s.user, final);
      }
    }

    static lemma StillInverse(m: Mgr, m': Mgr, user: nat)
      requires FlowStatRuns.Inverse(m) && user in m.users && m' == m.(users := OneLess(m.users, user))
      ensures FlowStatRuns.Inverse(m')
    {
      FlowStatRuns.InverseHas(m);
      FlowStatRuns.InverseKept(m, m');
    }
  }
}
