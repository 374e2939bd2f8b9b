/** Whole runs of the flow-statistics manager: streams are added, started, stopped and deleted in any
    order that respects each stream's own life. */
module FlowStatRuns {
  import opened FlowStatRules

  type StreamId = nat

  datatype Op = Add(id: StreamId) | Start(id: StreamId) | Stop(id: StreamId) | Del(id: StreamId)

  /** The manager together with all streams there are, those added, and those transmitting. */
  datatype Site = Site(m: Mgr, streams: map<StreamId, Stream>, added: set<StreamId>, started: set<StreamId>)

  /** The counted streams of a user among `ids`. */
  ghost function Of(streams: map<StreamId, Stream>, ids: set<StreamId>, user: nat): set<StreamId> {
    set id | id in ids && id in streams && streams[id].enabled && streams[id].user == user
  }

  /** Each stream is added, started, stopped and deleted in this order; user id 65535, which the slot
      table cannot tell from a free slot, is not used, and a user has fewer than 256 streams. */
  ghost predicate Allowed(s: Site, op: Op) {
    op.id in s.streams &&
    match op
    case Add(id) => id !in s.added &&
      (s.streams[id].enabled ==>
        s.streams[id].user != FREE_HW_ID && |Of(s.streams, s.added, s.streams[id].user)| < U8 - 1)
    case Start(id) => id in s.added && id !in s.started
    case Stop(id) => id in s.started
    case Del(id) => id in s.added && id !in s.started
  }

  ghost function Step(capable: bool, s: Site, op: Op): (r: (Site, int))
    requires |s.m.hw| == MAX_FLOW_STATS && op.id in s.streams
  {
    var st := s.streams[op.id];
    match op
    case Add(id) =>
      var (m, code) := AddStream(capable, s.m, st);
      (s.(m := m, added := if code == 0 then s.added + {id} else s.added), code)
    case Start(id) =>
      var (m, code, ip) := StartStream(capable, s.m, st);
      (s.(m := m, streams := s.streams[id := st.(ipId := ip)],
          started := if code == 0 then s.started + {id} else s.started), code)
    case Stop(id) =>
      var (m, code) := StopStream(s.m, st);
      (s.(m := m, started := s.started - {id}), code)
    case Del(id) =>
      var (m, code) := DelStream(s.m, st);
      (s.(m := m, added := s.added - {id}), code)
  }

  // ----- the invariant -----

  ghost function FreeSlots(hw: seq<nat>): set<nat> {
    set h | 0 <= h < |hw| && hw[h] == FREE_HW_ID
  }

  /** The slot table and the user table are inverse to each other. */
  ghost predicate Inverse(m: Mgr) {
    && |m.hw| == MAX_FLOW_STATS
    && (forall h | 0 <= h < MAX_FLOW_STATS && m.hw[h] != FREE_HW_ID :: m.hw[h] in m.users && m.users[m.hw[h]].hwId == h)
    && (forall u | u in m.users && m.users[u].hwId != FREE_HW_ID ::
      m.users[u].hwId < MAX_FLOW_STATS && m.hw[m.users[u].hwId] == u)
    && FREE_HW_ID !in m.users
    && m.numFree == |FreeSlots(m.hw)| <= MAX_FLOW_STATS
  }

  /** A known user's counts are those of its streams, it has a slot just when one of them transmits, all
      of them carry its protocol, and those that transmit carry its tag. An unknown user has no streams. */
  ghost predicate UserOk(s: Site, u: nat) {
    var added, started := Of(s.streams, s.added, u), Of(s.streams, s.started, u);
    if u in s.m.users then
      var info := s.m.users[u];
      && info.refCount == |added| && 0 < |added| < U8
      && info.transRefCount == |started|
      && (info.hwId == FREE_HW_ID <==> started == {})
      && (forall id | id in added :: s.streams[id].ipv4 && s.streams[id].proto == info.proto)
      && (forall id | id in started :: s.streams[id].ipId == IP_ID_RESERVE_BASE + info.hwId)
    else added == {}
  }

  /** Packets that are not counted stay out of the reserved range. */
  ghost predicate Plain(st: Stream) {
    !st.enabled && st.ipv4 ==> st.ipId < IP_ID_RESERVE_BASE
  }

  ghost predicate Shape(s: Site) {
    && s.started <= s.added <= s.streams.Keys
    && (forall id | id in s.streams :: s.streams[id].ipId < U16)
    && (s.added != {} ==> s.m.api)
    && (forall id | id in s.started :: Plain(s.streams[id]))
  }

  ghost predicate Inv(s: Site) {
    Shape(s) && Inverse(s.m) && (forall u: nat :: UserOk(s, u))
  }

  // ----- the streams of one user -----

  lemma OfAdd(streams: map<StreamId, Stream>, ids: set<StreamId>, id: StreamId, user: nat)
    requires id in streams && id !in ids
    ensures Of(streams, ids + {id}, user)
         == if streams[id].enabled && streams[id].user == user then Of(streams, ids, user) + {id}
           else Of(streams, ids, user)
    ensures id !in Of(streams, ids, user)
  {
  }

  lemma OfDrop(streams: map<StreamId, Stream>, ids: set<StreamId>, id: StreamId, user: nat)
    requires id in streams && id in ids
    ensures Of(streams, ids - {id}, user)
         == if streams[id].enabled && streams[id].user == user then Of(streams, ids, user) - {id}
           else Of(streams, ids, user)
    ensures streams[id].enabled && streams[id].user == user ==> id in Of(streams, ids, user)
  {
  }

  lemma OfRetag(streams: map<StreamId, Stream>, ids: set<StreamId>, id: StreamId, ip: nat, user: nat)
    requires id in streams
    ensures Of(streams[id := streams[id].(ipId := ip)], ids, user) == Of(streams, ids, user)
  {
  }

  lemma OfSubset(streams: map<StreamId, Stream>, ids: set<StreamId>, ids': set<StreamId>, user: nat)
    requires ids <= ids'
    ensures Of(streams, ids, user) <= Of(streams, ids', user)
    ensures |Of(streams, ids, user)| <= |Of(streams, ids', user)|
    ensures forall id | id in Of(streams, ids', user) - Of(streams, ids, user) :: id !in ids
  {
    Subset(Of(streams, ids, user), Of(streams, ids', user));
  }

  lemma Subset(a: set<StreamId>, b: set<StreamId>)
    requires a <= b
    ensures |a| <= |b|
    ensures a != b ==> |a| < |b|
  {
    assert b == a + (b - a);
    assert |b| == |a| + |b - a|;
  }

  /** A step of one user's stream leaves every other user alone. */
  lemma OtherUser(s: Site, s': Site, id: StreamId, ip: nat, u: nat)
    requires UserOk(s, u) && id in s.streams
    requires !(s.streams[id].enabled && s.streams[id].user == u)
    requires s'.streams == s.streams[id := s.streams[id].(ipId := ip)]
    requires s'.added - {id} == s.added - {id} && s'.started - {id} == s.started - {id}
    requires u in s'.m.users <==> u in s.m.users
    requires u in s.m.users ==> s'.m.users[u] == s.m.users[u]
    ensures UserOk(s', u)
  {
    OfElsewhere(s, s', s.added, s'.added, id, u);
    OfElsewhere(s, s', s.started, s'.started, id, u);
  }

  lemma OfElsewhere(s: Site, s': Site, ids: set<StreamId>, ids': set<StreamId>, id: StreamId, u: nat)
    requires id in s.streams && !(s.streams[id].enabled && s.streams[id].user == u)
    requires exists ip: nat :: s'.streams == s.streams[id := s.streams[id].(ipId := ip)]
    requires ids' - {id} == ids - {id}
    ensures Of(s'.streams, ids', u) == Of(s.streams, ids, u)
  {
    forall x
      ensures x in Of(s'.streams, ids', u) <==> x in Of(s.streams, ids, u)
    {
      assert x in ids' - {id} <==> x in ids - {id};
    }
  }

  /** An operation on stream `id` keeps all users in order if it keeps that stream's own user in order. */
  lemma AllUsers(s: Site, s': Site, id: StreamId, ip: nat)
    requires forall u: nat :: UserOk(s, u)
    requires id in s.streams
    requires s'.streams == s.streams[id := s.streams[id].(ipId := ip)]
    requires s'.added - {id} == s.added - {id} && s'.started - {id} == s.started - {id}
    requires forall u | u != s.streams[id].user || !s.streams[id].enabled ::
      (u in s'.m.users <==> u in s.m.users) && (u in s.m.users ==> s'.m.users[u] == s.m.users[u])
    requires s.streams[id].enabled ==> UserOk(s', s.streams[id].user)
    ensures forall u: nat :: UserOk(s', u)
  {
    hide Of, UserOk;
    forall u: nat
      ensures UserOk(s', u)
    {
      if u != s.streams[id].user || !s.streams[id].enabled {
        OtherUser(s, s', id, ip, u);
      }
    }
  }

  // ----- the tables -----

  lemma FreeSlotsMapped(hw: seq<nat>, h: nat, user: nat)
    requires h < |hw| && hw[h] == FREE_HW_ID && user != FREE_HW_ID
    ensures |FreeSlots(hw[h := user])| == |FreeSlots(hw)| - 1
  {
    assert FreeSlots(hw[h := user]) == FreeSlots(hw) - {h};
  }

  lemma FreeSlotsUnmapped(hw: seq<nat>, h: nat)
    requires h < |hw| && hw[h] != FREE_HW_ID
    ensures |FreeSlots(hw[h := FREE_HW_ID])| == |FreeSlots(hw)| + 1
  {
    assert FreeSlots(hw[h := FREE_HW_ID]) == FreeSlots(hw) + {h};
  }

  ghost function FreeBelow(hw: seq<nat>, n: nat): set<nat>
    requires n <= |hw|
  {
    set h | 0 <= h < n && hw[h] == FREE_HW_ID
  }

  lemma FreeBelowStep(hw: seq<nat>, n: nat)
    requires 0 < n <= |hw|
    ensures |FreeBelow(hw, n)| == |FreeBelow(hw, n - 1)| + if hw[n - 1] == FREE_HW_ID then 1 else 0
  {
    assert FreeBelow(hw, n) == FreeBelow(hw, n - 1) + if hw[n - 1] == FREE_HW_ID then {n - 1} else {};
  }

  lemma {:induction false} FreeAtMost(hw: seq<nat>, n: nat)
    requires n <= |hw|
    ensures |FreeBelow(hw, n)| <= n
  {
    if n > 0 {
      FreeAtMost(hw, n - 1);
      FreeBelowStep(hw, n);
    }
  }

  lemma FreeSlotsAtMost(hw: seq<nat>)
    ensures |FreeSlots(hw)| <= |hw|
  {
    FreeAtMost(hw, |hw|);
    assert FreeSlots(hw) == FreeBelow(hw, |hw|);
  }

  lemma InverseMapped(m: Mgr, h: nat, user: nat)
    requires Inverse(m) && h < MAX_FLOW_STATS && m.hw[h] == FREE_HW_ID
    requires user in m.users && m.users[user].hwId == FREE_HW_ID
    ensures Inverse(MapUser(m, h, user))
  {
    FreeSlotsMapped(m.hw, h, user);
  }

  lemma InverseUnmapped(m: Mgr, m': Mgr, user: nat, i: UserInfo)
    requires Inverse(m) && user in m.users && m.users[user].hwId != FREE_HW_ID
    requires m'.hw == m.hw[m.users[user].hwId := FREE_HW_ID] && m'.numFree == (m.numFree + 1) % U16
    requires i.hwId == FREE_HW_ID && m'.users == m.users[user := i]
    ensures Inverse(m')
  {
    FreeSlotsUnmapped(m.hw, m.users[user].hwId);
    FreeSlotsAtMost(m'.hw);
  }

  /** The tables keep being inverse when a user appears without a slot, goes away without one, or only
      its counts change. */
  lemma InverseKept(m: Mgr, m': Mgr)
    requires Inverse(m) && m'.hw == m.hw && m'.numFree == m.numFree && FREE_HW_ID !in m'.users
    requires forall u | u in m.users && m.users[u].hwId != FREE_HW_ID ::
      u in m'.users && m'.users[u].hwId == m.users[u].hwId
    requires forall u | u in m'.users && m'.users[u].hwId != FREE_HW_ID ::
      u in m.users && m.users[u].hwId == m'.users[u].hwId
    ensures Inverse(m')
  {
  }

  lemma InverseHas(m: Mgr)
    requires Inverse(m)
    ensures |m.hw| == MAX_FLOW_STATS && FREE_HW_ID !in m.users
    ensures forall u | u in m.users :: m.users[u].hwId == FREE_HW_ID || m.users[u].hwId < MAX_FLOW_STATS
  {
  }

  // ----- each step keeps it -----

  /** What a step on a stream may touch: that stream's own tag and place, and its user. */
  ghost predicate Local(s: Site, s': Site, id: StreamId) {
    && id in s.streams && id in s'.streams
    && s'.streams == s.streams[id := s.streams[id].(ipId := s'.streams[id].ipId)]
    && s'.added - {id} == s.added - {id} && s'.started - {id} == s.started - {id}
    && (forall u | u != s.streams[id].user || !s.streams[id].enabled ::
          (u in s'.m.users <==> u in s.m.users) && (u in s.m.users ==> s'.m.users[u] == s.m.users[u]))
  }

  lemma StepLocal(capable: bool, s: Site, op: Op)
    requires |s.m.hw| == MAX_FLOW_STATS && op.id in s.streams
    ensures Local(s, Step(capable, s, op).0, op.id)
  {
    var s' := Step(capable, s, op).0;
    assert s'.streams == s.streams[op.id := s.streams[op.id].(ipId := s'.streams[op.id].ipId)];
  }

  lemma StepShape(capable: bool, s: Site, op: Op)
    requires Shape(s) && Allowed(s, op) && |s.m.hw| == MAX_FLOW_STATS
    ensures Shape(Step(capable, s, op).0)
  {
    hide Of;
    var st := s.streams[op.id];
    if op.Start? {
      ClearedIsPlain(st.ipId);
    }
  }

  /** Clearing bit 12 takes an IP ID out of the reserved range. */
  lemma ClearedIsPlain(x: nat)
    ensures IP_ID_RESERVE_BASE <= x < U16 ==> ClearBit12(x) < IP_ID_RESERVE_BASE
    ensures ClearBit12(x) <= x
  {
  }

  lemma AddUserOk(capable: bool, s: Site, id: StreamId)
    requires Inv(s) && Allowed(s, Add(id)) && s.streams[id].enabled
    ensures UserOk(Step(capable, s, Add(id)).0, s.streams[id].user)
  {
    hide Inverse, Of;
    var u := s.streams[id].user;
    OfAdd(s.streams, s.added, id, u);
    OfSubset(s.streams, s.started, s.added, u);
    assert UserOk(s, u);
  }

  lemma AddInverse(capable: bool, s: Site, id: StreamId)
    requires Inv(s) && Allowed(s, Add(id))
    ensures Inverse(Step(capable, s, Add(id)).0.m)
  {
    hide Inverse, Of, UserOk;
    InverseHas(s.m);
    InverseKept(s.m, Step(capable, s, Add(id)).0.m);
  }

  lemma StartUserOk(capable: bool, s: Site, id: StreamId)
    requires Inv(s) && Allowed(s, Start(id)) && s.streams[id].enabled
    ensures UserOk(Step(capable, s, Start(id)).0, s.streams[id].user)
  {
    hide Inverse, Of;
    InverseHas(s.m);
    var u := s.streams[id].user;
    OfAdd(s.streams, s.started, id, u);
    OfSubset(s.streams, s.started, s.added, u);
    OfSubset(s.streams, s.started + {id}, s.added, u);
    var ip := Step(capable, s, Start(id)).0.streams[id].ipId;
    OfRetag(s.streams, s.started, id, ip, u);
    OfRetag(s.streams, s.started + {id}, id, ip, u);
    OfRetag(s.streams, s.added, id, ip, u);
    assert UserOk(s, u);
    InverseHas(s.m);
    Belongs(s, id);
  }

  /** An added stream's user is known. */
  lemma Belongs(s: Site, id: StreamId)
    requires Inv(s) && id in s.added && s.streams[id].enabled
    ensures s.streams[id].user in s.m.users && id in Of(s.streams, s.added, s.streams[id].user)
    ensures id in s.started ==> id in Of(s.streams, s.started, s.streams[id].user)
  {
    assert UserOk(s, s.streams[id].user);
    assert id in Of(s.streams, s.added, s.streams[id].user);
  }

  lemma StartInverse(capable: bool, s: Site, id: StreamId)
    requires Inv(s) && Allowed(s, Start(id))
    ensures Inverse(Step(capable, s, Start(id)).0.m)
  {
    hide Inverse, Of;
    var st, m := s.streams[id], s.m;
    InverseHas(m);
    if st.enabled {
      Belongs(s, id);
      assert UserOk(s, st.user);
      if IsStarted(m.users, st.user) {
        InverseKept(m, Step(capable, s, Start(id)).0.m);
      } else {
        var h := FirstFree(m.hw, 0);
        if h != FREE_HW_ID {
          InverseMapped(m, h, st.user);
        }
      }
    }
  }

  lemma StopUserOk(capable: bool, s: Site, id: StreamId)
    requires Inv(s) && Allowed(s, Stop(id)) && s.streams[id].enabled
    ensures UserOk(Step(capable, s, Stop(id)).0, s.streams[id].user)
  {
    hide Inverse, Of;
    var u := s.streams[id].user;
    OfDrop(s.streams, s.started, id, u);
    OfSubset(s.streams, s.started, s.added, u);
    assert UserOk(s, u);
    InverseHas(s.m);
    Belongs(s, id);
    CountDrop(Of(s.streams, s.started, u), id);
  }

  lemma CountDrop(a: set<StreamId>, id: StreamId)
    requires id in a
    ensures |a - {id}| == |a| - 1
    ensures |a| == 1 ==> a - {id} == {}
  {
  }

  lemma StopInverse(capable: bool, s: Site, id: StreamId)
    requires Inv(s) && Allowed(s, Stop(id))
    ensures Inverse(Step(capable, s, Stop(id)).0.m)
  {
    hide Inverse, Of;
    var st, m := s.streams[id], s.m;
    InverseHas(m);
    var m' := Step(capable, s, Stop(id)).0.m;
    if st.enabled {
      Belongs(s, id);
      assert UserOk(s, st.user);
      OfSubset(s.streams, s.started, s.added, st.user);
      var u := m.users[st.user];
      if u.transRefCount > 1 {
        InverseKept(m, m');
      } else {
        var i := u.(transRefCount := 0, hwId := FREE_HW_ID);
        assert m'.users == m.users[st.user := i];
        InverseUnmapped(m, m', st.user, i);
      }
    }
  }

  lemma DelUserOk(capable: bool, s: Site, id: StreamId)
    requires Inv(s) && Allowed(s, Del(id)) && s.streams[id].enabled
    ensures UserOk(Step(capable, s, Del(id)).0, s.streams[id].user)
  {
    hide Inverse, Of;
    var u := s.streams[id].user;
    OfDrop(s.streams, s.added, id, u);
    OfSubset(s.streams, s.started, s.added - {id}, u);
    assert UserOk(s, u);
    Belongs(s, id);
    CountDrop(Of(s.streams, s.added, u), id);
  }

  lemma DelInverse(capable: bool, s: Site, id: StreamId)
    requires Inv(s) && Allowed(s, Del(id))
    ensures Inverse(Step(capable, s, Del(id)).0.m)
  {
    hide Inverse, Of;
    var st := s.streams[id];
    InverseHas(s.m);
    if st.enabled {
      Belongs(s, id);
      assert UserOk(s, st.user);
      OfDrop(s.streams, s.added, id, st.user);
      OfSubset(s.streams, s.started, s.added - {id}, st.user);
      CountDrop(Of(s.streams, s.added, st.user), id);
    }
    InverseKept(s.m, Step(capable, s, Del(id)).0.m);
  }

  /** Every step of every stream keeps the invariant. */
  lemma StepKeeps(capable: bool, s: Site, op: Op)
    requires Inv(s) && Allowed(s, op)
    ensures Inv(Step(capable, s, op).0)
  {
    hide Inverse, UserOk, Of, Step, Allowed, Shape;
    InverseHas(s.m);
    AllowedHas(s, op);
    var s', st := Step(capable, s, op).0, s.streams[op.id];
    StepLocal(capable, s, op);
    StepShape(capable, s, op);
    match op {
      case Add(id) =>
        AddInverse(capable, s, id);
        if st.enabled { AddUserOk(capable, s, id); }
      case Start(id) =>
        StartInverse(capable, s, id);
        if st.enabled { StartUserOk(capable, s, id); }
      case Stop(id) =>
        StopInverse(capable, s, id);
        if st.enabled { StopUserOk(capable, s, id); }
      case Del(id) =>
        DelInverse(capable, s, id);
        if st.enabled { DelUserOk(capable, s, id); }
    }
    AllUsers(s, s', op.id, s'.streams[op.id].ipId);
  }

  lemma AllowedHas(s: Site, op: Op)
    requires Allowed(s, op)
    ensures op.id in s.streams
  {
  }

  // ----- whole runs -----

  ghost function Begin(streams: map<StreamId, Stream>): Site { Site(NoUsers(), streams, {}, {}) }

  ghost predicate AllAllowed(capable: bool, s: Site, ops: seq<Op>)
    requires |s.m.hw| == MAX_FLOW_STATS
    decreases |ops|
  {
    ops == [] || (Allowed(s, ops[0]) && AllAllowed(capable, Step(capable, s, ops[0]).0, ops[1..]))
  }

  ghost function Run(capable: bool, s: Site, ops: seq<Op>): Site
    requires |s.m.hw| == MAX_FLOW_STATS && AllAllowed(capable, s, ops)
    decreases |ops|
  {
    if ops == [] then s else Run(capable, Step(capable, s, ops[0]).0, ops[1..])
  }

  lemma {:induction false} RunKeeps(capable: bool, s: Site, ops: seq<Op>)
    requires |s.m.hw| == MAX_FLOW_STATS && Inv(s) && AllAllowed(capable, s, ops)
    ensures Inv(Run(capable, s, ops))
    decreases |ops|
  {
    hide Inv, Step, Allowed;
    if ops != [] {
      StepKeeps(capable, s, ops[0]);
      AllowedHas(s, ops[0]);
      InvHas(Step(capable, s, ops[0]).0);
      RunKeeps(capable, Step(capable, s, ops[0]).0, ops[1..]);
    }
  }

  lemma InvHas(s: Site)
    requires Inv(s)
    ensures |s.m.hw| == MAX_FLOW_STATS
  {
  }

  lemma {:induction false} AllFree(n: nat)
    requires n <= MAX_FLOW_STATS
    ensures |FreeBelow(NoUsers().hw, n)| == n
  {
    if n > 0 {
      AllFree(n - 1);
      FreeBelowStep(NoUsers().hw, n);
    }
  }

  /** Every state of every run from the empty manager satisfies the invariant. */
  lemma Reached(capable: bool, streams: map<StreamId, Stream>, ops: seq<Op>)
    requires forall id | id in streams :: streams[id].ipId < U16
    requires AllAllowed(capable, Begin(streams), ops)
    ensures Inv(Run(capable, Begin(streams), ops))
  {
    hide AllAllowed, Run;
    var s := Begin(streams);
    AllFree(MAX_FLOW_STATS);
    assert FreeSlots(s.m.hw) == FreeBelow(NoUsers().hw, MAX_FLOW_STATS);
    RunKeeps(capable, s, ops);
  }

  /** In every reached state the two tables are inverse bijections between the slots in use and the users
      that transmit, and every count is the number of things it counts. */
  lemma Bijection(capable: bool, streams: map<StreamId, Stream>, ops: seq<Op>)
    requires forall id | id in streams :: streams[id].ipId < U16
    requires AllAllowed(capable, Begin(streams), ops)
    ensures
      var s := Run(capable, Begin(streams), ops);
      && |s.m.hw| == MAX_FLOW_STATS
      && (forall h: nat, u: nat | h < MAX_FLOW_STATS && u != FREE_HW_ID ::
            s.m.hw[h] == u <==> u in s.m.users && s.m.users[u].hwId == h)
      && (forall u | u in s.m.users ::
            && (s.m.users[u].hwId < MAX_FLOW_STATS <==> Of(s.streams, s.started, u) != {})
            && s.m.users[u].refCount == |Of(s.streams, s.added, u)|
            && s.m.users[u].transRefCount == |Of(s.streams, s.started, u)|)
      && (forall u: nat :: u in s.m.users <==> Of(s.streams, s.added, u) != {})
      && s.m.numFree == |FreeSlots(s.m.hw)|
  {
    hide AllAllowed, Run, Of, UserOk, Shape;
    Reached(capable, streams, ops);
    var s := Run(capable, Begin(streams), ops);
    InverseHas(s.m);
    forall u: nat
      ensures u in s.m.users <==> Of(s.streams, s.added, u) != {}
      ensures u in s.m.users ==>
        && (s.m.users[u].hwId < MAX_FLOW_STATS <==> Of(s.streams, s.started, u) != {})
        && s.m.users[u].refCount == |Of(s.streams, s.added, u)|
        && s.m.users[u].transRefCount == |Of(s.streams, s.started, u)|
    {
      UserCounts(s, u);
    }
  }

  lemma UserCounts(s: Site, u: nat)
    requires Inv(s)
    ensures u in s.m.users <==> Of(s.streams, s.added, u) != {}
    ensures u in s.m.users ==>
      && (s.m.users[u].hwId < MAX_FLOW_STATS <==> Of(s.streams, s.started, u) != {})
      && s.m.users[u].refCount == |Of(s.streams, s.added, u)|
      && s.m.users[u].transRefCount == |Of(s.streams, s.started, u)|
  {
    hide Of;
    assert UserOk(s, u);
    InverseHas(s.m);
  }

  /** The IP ID of a transmitting packet identifies its user: counted streams carry the tag of their own
      user's slot, two of them carry the same IP ID just when they are of one user, and no packet that is
      not counted carries a tag. */
  lemma Attribution(capable: bool, streams: map<StreamId, Stream>, ops: seq<Op>, id: StreamId, other: StreamId)
    requires forall i | i in streams :: streams[i].ipId < U16
    requires AllAllowed(capable, Begin(streams), ops)
    requires id in Run(capable, Begin(streams), ops).started && other in Run(capable, Begin(streams), ops).started
    ensures
      var s := Run(capable, Begin(streams), ops);
      && id in s.streams && other in s.streams && |s.m.hw| == MAX_FLOW_STATS
      && var a, b := s.streams[id], s.streams[other];
      && (a.enabled ==> 0xff00 <= a.ipId < 0xff00 + 128 && s.m.hw[a.ipId - 0xff00] == a.user)
      && (!a.enabled && a.ipv4 ==> a.ipId < 0xff00)
      && (a.enabled && b.enabled ==> (a.ipId == b.ipId <==> a.user == b.user))
      && (a.enabled && !b.enabled && b.ipv4 ==> a.ipId != b.ipId)
  {
    hide AllAllowed, Run, Of;
    Reached(capable, streams, ops);
    var s := Run(capable, Begin(streams), ops);
    InverseHas(s.m);
    Tagged(s, id);
    Tagged(s, other);
  }

  lemma Tagged(s: Site, id: StreamId)
    requires Inv(s) && id in s.started
    ensures id in s.streams
    ensures s.streams[id].enabled ==>
      && s.streams[id].user in s.m.users && s.m.users[s.streams[id].user].hwId < MAX_FLOW_STATS
      && s.streams[id].ipId == IP_ID_RESERVE_BASE + s.m.users[s.streams[id].user].hwId
  {
    hide Of;
    InverseHas(s.m);
    if s.streams[id].enabled {
      Belongs(s, id);
      assert UserOk(s, s.streams[id].user);
    }
  }

  // ----- when a start succeeds -----

  ghost function StartedUsers(s: Site): set<nat> {
    set u | u in s.m.users && Of(s.streams, s.started, u) != {}
  }

  ghost function Holders(hw: seq<nat>, n: nat): set<nat>
    requires n <= |hw|
  {
    if n == 0 then {}
    else Holders(hw, n - 1) + (if hw[n - 1] == FREE_HW_ID then {} else {hw[n - 1]})
  }

  lemma {:induction false} Holds(hw: seq<nat>, n: nat, u: nat)
    requires n <= |hw|
    ensures u in Holders(hw, n) <==> u != FREE_HW_ID && u in hw[..n]
  {
    if n > 0 {
      Holds(hw, n - 1, u);
      assert hw[..n] == hw[..n - 1] + [hw[n - 1]];
    }
  }

  ghost predicate OneSlotEach(hw: seq<nat>) {
    forall i, j | 0 <= i < j < |hw| && hw[i] != FREE_HW_ID :: hw[i] != hw[j]
  }

  lemma NewHolder(hw: seq<nat>, n: nat)
    requires OneSlotEach(hw) && 0 < n <= |hw| && hw[n - 1] != FREE_HW_ID
    ensures hw[n - 1] !in Holders(hw, n - 1)
  {
    Holds(hw, n - 1, hw[n - 1]);
  }

  /** With every user in at most one slot, the users below `n` and the free slots below `n` make up `n`. */
  lemma {:induction false} HoldersCount(hw: seq<nat>, n: nat)
    requires n <= |hw| && OneSlotEach(hw)
    ensures |Holders(hw, n)| + |FreeBelow(hw, n)| == n
  {
    hide OneSlotEach, FreeBelow;
    if n > 0 {
      HoldersCount(hw, n - 1);
      FreeBelowStep(hw, n);
      if hw[n - 1] != FREE_HW_ID {
        NewHolder(hw, n);
      }
    } else {
      NoneBelow(hw);
    }
  }

  lemma NoneBelow(hw: seq<nat>)
    ensures |FreeBelow(hw, 0)| == 0
  {
  }

  /** Each transmitting user holds exactly one of the 128 slots. */
  lemma UsersAndFreeSlots(s: Site)
    requires Inv(s)
    ensures |StartedUsers(s)| + |FreeSlots(s.m.hw)| == MAX_FLOW_STATS
  {
    hide Of;
    InverseHas(s.m);
    HoldersCount(s.m.hw, MAX_FLOW_STATS);
    assert FreeSlots(s.m.hw) == FreeBelow(s.m.hw, MAX_FLOW_STATS);
    forall u
      ensures u in StartedUsers(s) <==> u in Holders(s.m.hw, MAX_FLOW_STATS)
    {
      Holds(s.m.hw, MAX_FLOW_STATS, u);
      if u in s.m.users {
        assert UserOk(s, u);
      }
    }
    assert StartedUsers(s) == Holders(s.m.hw, MAX_FLOW_STATS);
  }

  /** Starting a counted stream succeeds just when its user transmits already or fewer than 128 users
      do. */
  lemma StartSucceeds(s: Site, id: StreamId)
    requires Inv(s) && Allowed(s, Start(id)) && s.streams[id].enabled
    ensures |s.m.hw| == MAX_FLOW_STATS
    ensures Step(true, s, Start(id)).1
         == if s.streams[id].user in StartedUsers(s) || |StartedUsers(s)| < MAX_FLOW_STATS then 0 else -1
  {
    hide Of;
    var u := s.streams[id].user;
    InverseHas(s.m);
    Belongs(s, id);
    assert UserOk(s, u);
    UsersAndFreeSlots(s);
    var h := FirstFree(s.m.hw, 0);
    if h == FREE_HW_ID {
      assert FreeSlots(s.m.hw) == {};
    } else {
      assert h in FreeSlots(s.m.hw);
    }
  }

  /** A counted stream is accepted just when the platform and its packet allow it and it carries the
      protocol of the user's other streams. */
  lemma AddSucceeds(capable: bool, s: Site, id: StreamId)
    requires Inv(s) && Allowed(s, Add(id)) && s.streams[id].enabled
    ensures |s.m.hw| == MAX_FLOW_STATS
    ensures Step(capable, s, Add(id)).1 == 0
       <==> capable && s.streams[id].ipv4
            && forall other | other in Of(s.streams, s.added, s.streams[id].user) ::
              s.streams[other].proto == s.streams[id].proto
    ensures Step(capable, s, Add(id)).1 in {0, -1, -2} && (Step(capable, s, Add(id)).1 == -2 <==> !capable)
  {
    InverseHas(s.m);
    var u := s.streams[id].user;
    assert UserOk(s, u);
    if u in s.m.users {
      var other :| other in Of(s.streams, s.added, u);
      assert s.streams[other].proto == s.m.users[u].proto;
    }
  }

  /** Stopping and deleting never fail. */
  lemma StopAndDelSucceed(capable: bool, s: Site, op: Op)
    requires Inv(s) && Allowed(s, op) && (op.Stop? || op.Del?)
    ensures |s.m.hw| == MAX_FLOW_STATS && Step(capable, s, op).1 == 0
  {
    hide Of;
    InverseHas(s.m);
    if s.streams[op.id].enabled {
      Belongs(s, op.id);
      assert UserOk(s, s.streams[op.id].user);
      OfSubset(s.streams, s.started, s.added, s.streams[op.id].user);
    }
  }

  /** A stream that is not counted changes no table. It is refused only when it is to start on a platform
      without the rules, after some stream has been added. Its IP ID loses bit 12 if it lies in the
      reserved range, and no other bit. */
  lemma UncountedIsIgnored(capable: bool, s: Site, op: Op)
    requires |s.m.hw| == MAX_FLOW_STATS && op.id in s.streams && !s.streams[op.id].enabled
    requires s.streams[op.id].ipId < U16
    ensures
      var (s', code) := Step(capable, s, op);
      && s'.m == s.m.(api := s.m.api || op.Add?)
      && (code == 0 <==> !(op.Start? && s.m.api && !capable)) && (code == 0 || code == -2)
      && op.id in s'.streams && s'.streams == s.streams[op.id := s'.streams[op.id]]
      && var was, ip := s.streams[op.id], s'.streams[op.id].ipId;
        s'.streams[op.id] == was.(ipId := ip)
        && if op.Start? && s.m.api && code == 0 && was.ipv4 && was.ipId >= IP_ID_RESERVE_BASE then
             ip % 0x1000 == was.ipId % 0x1000 && ip / 0x2000 == was.ipId / 0x2000 && ip / 0x1000 % 2 == 0
           else ip == was.ipId
  {
    OnlyBit12(s.streams[op.id].ipId);
  }

  lemma OnlyBit12(x: nat)
    ensures
      var r := ClearBit12(x);
      r % 0x1000 == x % 0x1000 && r / 0x2000 == x / 0x2000 && r / 0x1000 % 2 == 0
  {
  }

  // ----- the two limits -----

  /** A start takes its slot for good just when the user id is not the one that marks a free slot. */
  lemma SlotIsTaken(m: Mgr, user: nat)
    requires |m.hw| == MAX_FLOW_STATS && user in m.users && FirstFree(m.hw, 0) != FREE_HW_ID
    ensures
      var h := FirstFree(m.hw, 0);
      FirstFree(MapUser(m, h, user).hw, 0) != h <==> user != FREE_HW_ID
  {
    var h := FirstFree(m.hw, 0);
    if user == FREE_HW_ID {
      assert MapUser(m, h, user).hw == m.hw;
    }
  }

  /** With user id 65535 two users end up with one tag. */
  lemma SharedTag()
    ensures
      var a, b := Stream(true, FREE_HW_ID, true, 17, 1), Stream(true, 7, true, 17, 1);
      var s0 := Begin(map[0 := a, 1 := b]);
      var s1 := Step(true, s0, Add(0)).0;
      var s2 := Step(true, s1, Add(1)).0;
      var s3 := Step(true, s2, Start(0)).0;
      var s4 := Step(true, s3, Start(1)).0;
      s4.started == {0, 1} && s4.streams[0].ipId == s4.streams[1].ipId == IP_ID_RESERVE_BASE
  {
    var u := UserInfo(FREE_HW_ID, 17, 1, 0);
    var m := NoUsers().(api := true, users := map[FREE_HW_ID := u, 7 := u]);
    assert FirstFree(m.hw, 0) == 0;
    assert MapUser(m, 0, FREE_HW_ID).hw == m.hw;
  }

  ghost function Adds(m: Mgr, user: nat, proto: nat, n: nat): Mgr {
    if n == 0 then m else AddUser(Adds(m, user, proto, n - 1), user, proto).0
  }

  /** The count of a user's streams is kept in eight bits. */
  lemma {:induction false} AddsCount(m: Mgr, user: nat, proto: nat, n: nat)
    requires user !in m.users
    ensures n > 0 ==> user in Adds(m, user, proto, n).users
    ensures n > 0 ==> Adds(m, user, proto, n).users[user] == UserInfo(FREE_HW_ID, proto, n % U8, 0)
  {
    if n > 1 {
      AddsCount(m, user, proto, n - 1);
    }
  }

  /** Deleting one of a user's `n` streams forgets the user just when `n` is 1 modulo 256: from 257
      streams on this can be too early. */
  lemma DelForgets(m: Mgr, st: Stream, n: nat)
    requires st.user !in m.users && st.enabled && n > 0
    ensures st.user !in DelStream(Adds(m, st.user, st.proto, n), st).0.users <==> n % U8 == 1
  {
    AddsCount(m, st.user, st.proto, n);
  }
}
