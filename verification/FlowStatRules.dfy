/** The flow-statistics rules as values: which hardware slot counts which user id, and what adding,
    starting, stopping and deleting a stream does to the tables. */
module FlowStatRules {

  const MAX_FLOW_STATS := 128
  const TREX_MAX_PORTS := 12
  const FREE_HW_ID := 65535
  const IP_ID_RESERVE_BASE := 0xff00
  const U8 := 256
  const U16 := 0x1_0000
  const U64 := 0x1_0000_0000_0000_0000

  /** Counts of one session and of the sessions before it, by port. */
  datatype Counters = Counters(rx: seq<nat>, rxBase: seq<nat>, tx: seq<nat>, txBase: seq<nat>) {
    predicate Valid() { |rx| == |rxBase| == |tx| == |txBase| == TREX_MAX_PORTS }

    function RxTotal(port: nat): nat
      requires Valid() && port < TREX_MAX_PORTS
    {
      (rx[port] + rxBase[port]) % U64
    }

    function TxTotal(port: nat): nat
      requires Valid() && port < TREX_MAX_PORTS
    {
      (tx[port] + txBase[port]) % U64
    }
  }

  datatype UserInfo = UserInfo(hwId: nat, proto: nat, refCount: nat, transRefCount: nat)

  /** What the rules need to know about a stream and its packet. */
  datatype Stream = Stream(enabled: bool, user: nat, ipv4: bool, proto: nat, ipId: nat)

  datatype Mgr = Mgr(
    api: bool,                // the platform is known; true from the first add on
    hw: seq<nat>,             // user id of each hardware slot, or FREE_HW_ID
    numFree: nat,
    users: map<nat, UserInfo>)

  function NoUsers(): Mgr { Mgr(false, seq(MAX_FLOW_STATS, _ => FREE_HW_ID), MAX_FLOW_STATS, map[]) }

  /** The platform must support IP-ID rules (`capable`), and a stream that is to be counted must carry
      an IPv4 packet. */
  function CompileStream(capable: bool, s: Stream): int {
    if !capable then -2
    else if !s.ipv4 then (if s.enabled then -1 else 0)
    else 0
  }

  function UsersAfterAdd(users: map<nat, UserInfo>, user: nat, proto: nat): (map<nat, UserInfo>, int) {
    if user !in users then (users[user := UserInfo(FREE_HW_ID, proto, 1, 0)], 0)
    else if users[user].proto != proto then (users, -1)
    else
      var u := users[user];
      (users[user := u.(refCount := (u.refCount + 1) % U8)], 0)
  }

  function AddUser(m: Mgr, user: nat, proto: nat): (Mgr, int) {
    var (users, code) := UsersAfterAdd(m.users, user, proto);
    (m.(users := users), code)
  }

  function AddStream(capable: bool, m: Mgr, s: Stream): (Mgr, int) {
    var m' := m.(api := true);
    if !s.enabled then (m', 0)
    else if CompileStream(capable, s) < 0 then (m', CompileStream(capable, s))
    else AddUser(m', s.user, s.proto)
  }

  function UsersAfterDel(users: map<nat, UserInfo>, user: nat): (map<nat, UserInfo>, int) {
    if user !in users then (users, -1)
    else
      var u := users[user];
      var count := (u.refCount + U8 - 1) % U8;
      if count == 0 then (users - {user}, 0)
      else (users[user := u.(refCount := count)], 0)
  }

  function DelStream(m: Mgr, s: Stream): (Mgr, int) {
    if !s.enabled then (m, 0)
    else
      var (users, code) := UsersAfterDel(m.users, s.user);
      (m.(users := users), code)
  }

  /** The first free slot, or FREE_HW_ID. */
  function FirstFree(hw: seq<nat>, from: nat): (h: nat)
    requires from <= |hw| <= MAX_FLOW_STATS
    ensures h == FREE_HW_ID || from <= h < |hw|
    ensures h < |hw| ==> hw[h] == FREE_HW_ID
    ensures h == FREE_HW_ID <==> forall k | from <= k < |hw| :: hw[k] != FREE_HW_ID
    ensures forall k | from <= k < |hw| && k < h :: hw[k] != FREE_HW_ID
    decreases |hw| - from
  {
    if from == |hw| then FREE_HW_ID
    else if hw[from] == FREE_HW_ID then from
    else FirstFree(hw, from + 1)
  }

  predicate IsStarted(users: map<nat, UserInfo>, user: nat) {
    user in users && users[user].transRefCount != 0
  }

  /** One more stream of a known user transmits. */
  function OneMore(users: map<nat, UserInfo>, user: nat): map<nat, UserInfo>
    requires user in users
  {
    users[user := users[user].(transRefCount := (users[user].transRefCount + 1) % U8)]
  }

  /** The first stream of a user transmits from slot `h`; nothing happens if the user is unknown or has
      a slot. */
  function WithSlot(users: map<nat, UserInfo>, user: nat, h: nat): map<nat, UserInfo> {
    if user in users && users[user].hwId == FREE_HW_ID then OneMore(users[user := users[user].(hwId := h)], user)
    else users
  }

  /** A slot is given to a user. */
  function MapUser(m: Mgr, h: nat, user: nat): Mgr
    requires h < |m.hw|
  {
    m.(hw := m.hw[h := user], numFree := (m.numFree + U16 - 1) % U16, users := WithSlot(m.users, user, h))
  }

  function HwIdOf(users: map<nat, UserInfo>, user: nat): nat {
    if user in users then users[user].hwId else FREE_HW_ID
  }

  /** The IP ID of a packet that is not to be counted must stay out of the reserved range: bit 12 is
      cleared. */
  function ClearBit12(x: nat): nat { x - (x / 0x1000 % 2) * 0x1000 }

  /** A counted stream starts: the new tables, the return code, and the IP ID of its packet. */
  function StartCounted(m: Mgr, s: Stream): (Mgr, int, nat)
    requires |m.hw| == MAX_FLOW_STATS
  {
    var h := FirstFree(m.hw, 0);
    if !IsStarted(m.users, s.user) && h == FREE_HW_ID then (m, -1, s.ipId)
    else
      var m' := if IsStarted(m.users, s.user) then m.(users := OneMore(m.users, s.user)) else MapUser(m, h, s.user);
      (m', 0, (IP_ID_RESERVE_BASE + HwIdOf(m'.users, s.user)) % U16)
  }

  /** The new tables, the return code, and the IP ID the stream's packet carries from now on. */
  function StartStream(capable: bool, m: Mgr, s: Stream): (Mgr, int, nat)
    requires |m.hw| == MAX_FLOW_STATS
  {
    if !m.api then (m, 0, s.ipId)
    else if CompileStream(capable, s) < 0 then (m, CompileStream(capable, s), s.ipId)
    else if !s.enabled then
      (m, 0, if s.ipv4 && s.ipId >= IP_ID_RESERVE_BASE then ClearBit12(s.ipId) else s.ipId)
    else StartCounted(m, s)
  }

  /** One stream less of a known user transmits. */
  function OneLess(users: map<nat, UserInfo>, user: nat): map<nat, UserInfo>
    requires user in users
  {
    users[user := users[user].(transRefCount := (users[user].transRefCount + U8 - 1) % U8)]
  }

  function WithoutSlot(users: map<nat, UserInfo>, user: nat): map<nat, UserInfo>
    requires user in users
  {
    users[user := users[user].(hwId := FREE_HW_ID)]
  }

  function UnmapSlot(m: Mgr, h: nat): Mgr
    requires h < |m.hw|
  {
    m.(hw := m.hw[h := FREE_HW_ID], numFree := (m.numFree + 1) % U16)
  }

  /** The last stream of a user has stopped: its slot is free again. */
  function ReleaseSlot(m: Mgr, user: nat): (Mgr, int)
    requires |m.hw| == MAX_FLOW_STATS && user in m.users
  {
    var h, m' := m.users[user].hwId, m.(users := WithoutSlot(m.users, user));
    if h >= MAX_FLOW_STATS then (m', -1) else (UnmapSlot(m', h), 0)
  }

  predicate IsLast(m: Mgr, s: Stream) {
    s.enabled && m.api && s.user in m.users && OneLess(m.users, s.user)[s.user].transRefCount == 0
  }

  function StopStream(m: Mgr, s: Stream): (Mgr, int)
    requires |m.hw| == MAX_FLOW_STATS
  {
    if !s.enabled || !m.api || s.user !in m.users then (m, 0)
    else
      var m' := m.(users := OneLess(m.users, s.user));
      if IsLast(m, s) then ReleaseSlot(m', s.user) else (m', 0)
  }
}
