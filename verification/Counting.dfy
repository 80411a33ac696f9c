/** What the metrics count, and how many sessions a room has. */
module Counting {
  import opened Domain
  import opened Protocol
  import opened Tables
  import opened Handlers
  import opened Safety

  function MemberPairs(c: Core): set<(string, Id)> {
    set r, u | r in c.rooms && u in c.rooms[r].users :: (r, u)
  }

  function SessionPairs(c: Core): set<(string, Id)> {
    set r, id | r in c.rooms && id in c.rooms[r].sessions :: (r, id)
  }

  function Pairs(r: string, ids: set<Id>): set<(string, Id)> {
    set id | id in ids :: (r, id)
  }

  lemma {:induction false} PairsSize(r: string, ids: set<Id>)
    ensures |Pairs(r, ids)| == |ids|
  {
    if ids != {} {
      var id :| id in ids;
      PairsSize(r, ids - {id});
      assert Pairs(r, ids) == Pairs(r, ids - {id}) + {(r, id)};
    }
  }

  /** How far a pair of counters is from what it should count. */
  function RoomDrift(c: Core): int {
    c.metrics.roomsCreated - c.metrics.roomsClosed - |c.rooms|
  }

  function SessionDrift(c: Core): int {
    c.metrics.sessionsCreated - c.metrics.sessionsClosed - |SessionPairs(c)|
  }

  function MemberDrift(c: Core): int {
    c.metrics.usersJoined - c.metrics.usersLeft - |MemberPairs(c)|
  }

  ghost predicate SameDrifts(c: Core, c': Core) {
    RoomDrift(c') == RoomDrift(c) && SessionDrift(c') == SessionDrift(c) && MemberDrift(c') == MemberDrift(c)
  }

  // ---------- counting pairs ----------

  predicate IsMember(c: Core, r: string, u: Id) {
    r in c.rooms && u in c.rooms[r].users
  }

  predicate IsSession(c: Core, r: string, id: Id) {
    r in c.rooms && id in c.rooms[r].sessions
  }

  lemma SameMembers(c: Core, c': Core)
    requires forall q, v :: IsMember(c', q, v) <==> IsMember(c, q, v)
    ensures MemberPairs(c') == MemberPairs(c)
  {
    forall q, v ensures (q, v) in MemberPairs(c') <==> (q, v) in MemberPairs(c) {
      assert IsMember(c', q, v) <==> IsMember(c, q, v);
    }
  }

  lemma SameSessions(c: Core, c': Core)
    requires forall q, id :: IsSession(c', q, id) <==> IsSession(c, q, id)
    ensures SessionPairs(c') == SessionPairs(c)
  {
    forall q, id ensures (q, id) in SessionPairs(c') <==> (q, id) in SessionPairs(c) {
      assert IsSession(c', q, id) <==> IsSession(c, q, id);
    }
  }

  /** The members us of room r more. */
  lemma MoreMembers(c: Core, c': Core, r: string, us: set<Id>)
    requires forall q, v :: IsMember(c', q, v) <==> IsMember(c, q, v) || (q == r && v in us)
    requires forall v | v in us :: !IsMember(c, r, v)
    ensures |MemberPairs(c')| == |MemberPairs(c)| + |us|
  {
    PairsSize(r, us);
    forall q, v ensures (q, v) in MemberPairs(c') <==> (q, v) in MemberPairs(c) + Pairs(r, us) {
      assert IsMember(c', q, v) <==> IsMember(c, q, v) || (q == r && v in us);
    }
    assert MemberPairs(c') == MemberPairs(c) + Pairs(r, us);
    assert MemberPairs(c) !! Pairs(r, us);
  }

  lemma MoreSessions(c: Core, c': Core, r: string, ids: set<Id>)
    requires forall q, id :: IsSession(c', q, id) <==> IsSession(c, q, id) || (q == r && id in ids)
    requires forall id | id in ids :: !IsSession(c, r, id)
    ensures |SessionPairs(c')| == |SessionPairs(c)| + |ids|
  {
    PairsSize(r, ids);
    forall q, id ensures (q, id) in SessionPairs(c') <==> (q, id) in SessionPairs(c) + Pairs(r, ids) {
      assert IsSession(c', q, id) <==> IsSession(c, q, id) || (q == r && id in ids);
    }
    assert SessionPairs(c') == SessionPairs(c) + Pairs(r, ids);
    assert SessionPairs(c) !! Pairs(r, ids);
  }

  // ---------- building blocks ----------

  lemma CloseSessionsDrift(c: Core, r: string, ids: set<Id>)
    requires r in c.rooms && ids <= c.rooms[r].sessions.Keys
    ensures SameDrifts(c, CloseSessions(c, r, ids))
  {
    var c' := CloseSessions(c, r, ids);
    assert c'.rooms.Keys == c.rooms.Keys;
    SameMembers(c, c');
    MoreSessions(c', c, r, ids);
  }

  lemma OpenSessionDrift(c: Core, r: string, st: Start)
    requires r in c.rooms && st.id !in c.rooms[r].sessions
    ensures SameDrifts(c, OpenSession(c, r, st))
  {
    var c' := OpenSession(c, r, st);
    assert c'.rooms.Keys == c.rooms.Keys;
    SameMembers(c, c');
    MoreSessions(c, c', r, {st.id});
  }

  lemma NextStartNew(c: Core, r: string, starts: seq<Start>)
    requires r in c.rooms && starts != [] && StartsFresh(c.rooms[r].sessions, starts)
    ensures starts[|starts| - 1].id !in OpenSessions(c, r, starts[..|starts| - 1]).rooms[r].sessions
  {
    var n := |starts| - 1;
    OpenSessionsAdd(c, r, starts[..n]);
    assert starts[n].id !in StartIds(starts[..n]);
  }

  lemma {:induction false} OpenSessionsDrift(c: Core, r: string, starts: seq<Start>)
    requires r in c.rooms && StartsFresh(c.rooms[r].sessions, starts)
    ensures SameDrifts(c, OpenSessions(c, r, starts))
  {
    if starts != [] {
      var n := |starts| - 1;
      NextStartNew(c, r, starts);
      OpenSessionsDrift(c, r, starts[..n]);
      OpenSessionDrift(OpenSessions(c, r, starts[..n]), r, starts[n]);
    }
  }

  lemma SameMembersDrift(c: Core, c': Core)
    requires c'.metrics == c.metrics && c'.rooms.Keys == c.rooms.Keys
    requires forall q | q in c.rooms ::
      c'.rooms[q].users.Keys == c.rooms[q].users.Keys && c'.rooms[q].sessions == c.rooms[q].sessions
    ensures SameDrifts(c, c')
  {
    assert |c'.rooms.Keys| == |c.rooms.Keys|;
    forall q, v ensures IsMember(c', q, v) <==> IsMember(c, q, v) {
      assert q in c.rooms ==> (v in c'.rooms[q].users <==> v in c'.rooms[q].users.Keys);
    }
    SameMembers(c, c');
    SameSessions(c, c');
  }

  lemma DropUserDrift(c: Core, r: string, u: Id)
    requires r in c.rooms && u in c.rooms[r].users
    ensures SameDrifts(c, DropUser(c, r, u))
  {
    var c1 := CloseSessions(c, r, SessionsOf(c.rooms[r], u));
    CloseSessionsDrift(c, r, SessionsOf(c.rooms[r], u));
    RemoveUserDrift(c1, DropUser(c, r, u), r, u);
  }

  lemma RemoveUserDrift(c: Core, c': Core, r: string, u: Id)
    requires r in c.rooms && u in c.rooms[r].users
    requires c'.rooms == c.rooms[r := c.rooms[r].(users := c.rooms[r].users - {u})]
    requires c'.metrics == c.metrics.(usersLeft := c.metrics.usersLeft + 1)
    ensures SameDrifts(c, c')
  {
    assert c'.rooms.Keys == c.rooms.Keys;
    MoreMembers(c', c, r, {u});
    SameSessions(c, c');
  }

  lemma RemoveRoomDrift(c: Core, c': Core, r: string)
    requires r in c.rooms && c.rooms[r].sessions == map[]
    requires c'.rooms == c.rooms - {r}
    requires c'.metrics == c.metrics.(usersLeft := c.metrics.usersLeft + |c.rooms[r].users|,
                                      roomsClosed := c.metrics.roomsClosed + 1)
    ensures SameDrifts(c, c')
  {
    assert c'.rooms.Keys == c.rooms.Keys - {r};
    assert |c'.rooms| == |c'.rooms.Keys| == |c.rooms.Keys| - 1;
    var us := c.rooms[r].users.Keys;
    assert |us| == |c.rooms[r].users|;
    MoreMembers(c', c, r, us);
    SameSessions(c, c');
  }

  lemma CloseRoomDrift(c: Core, r: string)
    requires r in c.rooms
    ensures SameDrifts(c, CloseRoom(c, r))
  {
    var room := c.rooms[r];
    var c2 := CloseSessions(c, r, room.sessions.Keys);
    CloseSessionsDrift(c, r, room.sessions.Keys);
    assert c2.rooms[r].sessions == map[];
    RemoveRoomDrift(c2, CloseRoom(c, r), r);
  }

  lemma {:induction false} HangupDrift(c: Core, u: Id)
    ensures SameDrifts(c, Hangup(c, u))
  {
    hide RoomDrift, SessionDrift, MemberDrift, DropUser, CloseRoom, ClosesRoom;
    var c1 := c.(connected := c.connected - {u});
    var r := RoomOf(c, u);
    SameMembersDrift(c, c1);
    if r != "" && r in c.rooms && u in c.rooms[r].users {
      DropUserDrift(c1, r, u);
      CloseRoomDrift(DropUser(c1, r, u), r);
    }
  }

  lemma AdmittedDrift(c: Core, info: ClientInfo, id: string, name: string)
    requires id in c.rooms
    ensures var c' := Admitted(c, info, id, name);
      && RoomDrift(c') == RoomDrift(c) && SessionDrift(c') == SessionDrift(c)
      && MemberDrift(c') == MemberDrift(c) + if info.id in c.rooms[id].users then 1 else 0
  {
    var c' := Admitted(c, info, id, name);
    assert c'.rooms.Keys == c.rooms.Keys;
    assert |c'.rooms| == |c'.rooms.Keys|;
    SameSessions(c, c');
    if info.id in c.rooms[id].users {
      SameMembers(c, c');
    } else {
      MoreMembers(c, c', id, {info.id});
    }
  }

  lemma FoundedDrift(c: Core, room: RoomState, u: Id, c': Core)
    requires room.id !in c.rooms && room.users.Keys == {u} && room.sessions == map[]
    requires c'.rooms == c.rooms[room.id := room]
    requires c'.metrics ==
      c.metrics.(usersJoined := c.metrics.usersJoined + 1, roomsCreated := c.metrics.roomsCreated + 1)
    ensures SameDrifts(c, c')
  {
    hide MemberPairs, SessionPairs;
    assert c'.rooms.Keys == c.rooms.Keys + {room.id};
    assert |c'.rooms| == |c'.rooms.Keys|;
    forall q, v ensures IsMember(c', q, v) <==> IsMember(c, q, v) || (q == room.id && v in {u}) {
      assert q == room.id ==> (v in room.users <==> v in room.users.Keys);
    }
    MoreMembers(c, c', room.id, {u});
    SameSessions(c, c');
  }

  // ---------- steps and runs ----------

  /** The room a message enters, if its handler gets past all checks of Join. */
  function Entering(conf: Config, c: Core, m: ClientMessage): Option<string> {
    if m.info.id in c.connected && (m.event.Join? || (m.event.Create? && Delegates(c, m.info, m.event)))
       && JoinError(conf, c, m.info, m.event.id) == None
    then Some(m.event.id) else None
  }

  /** A client enters a room whose user table already has it. */
  predicate Rejoins(conf: Config, c: Core, m: ClientMessage) {
    var r := Entering(conf, c, m);
    r.Some? && IsMember(c, r.value, m.info.id)
  }

  /** That is only possible in the room with the empty id. */
  lemma RejoinsEmptyId(conf: Config, c: Core, m: ClientMessage)
    requires Agree(c) && Rejoins(conf, c, m)
    ensures Entering(conf, c, m) == Some("")
  {
  }

  ghost predicate Drifts(c: Core, c': Core, extra: int) {
    RoomDrift(c') == RoomDrift(c) && SessionDrift(c') == SessionDrift(c) && MemberDrift(c') == MemberDrift(c) + extra
  }

  lemma {:induction false} JoinDrift(conf: Config, c: Core, info: ClientInfo, id: string, userName: string, ch: Choice)
    requires TablesOk(conf, c, {}) && info.id in c.connected && info.id in c.clients && c.clients[info.id] == info
    requires JoinLegal(conf, c, info, id, userName, ch)
    ensures Drifts(c, ExecuteJoin(conf, c, info, id, userName, ch).core,
                   if JoinError(conf, c, info, id) == None && IsMember(c, id, info.id) then 1 else 0)
  {
    hide TablesOk, IsBroadcast, RoomDrift, SessionDrift, MemberDrift;
    if JoinError(conf, c, info, id) == None {
      var name := DisplayName(info, userName, ch.randomName);
      var c1 := Admitted(c, info, id, name);
      AdmittedDrift(c, info, id, name);
      if ch.ip.IpFound? {
        AdmittedFresh(conf, c, info, id, name, ch.starts);
        hide JoinLegal;
        OpenSessionsDrift(c1, id, ch.starts);
      }
    }
  }

  lemma AdmittedFresh(conf: Config, c: Core, info: ClientInfo, id: string, name: string, starts: seq<Start>)
    requires TablesOk(conf, c, {}) && info.id in c.connected && info.id in c.clients && c.clients[info.id] == info
    requires JoinError(conf, c, info, id) == None
    requires StartsLegal(starts, c.issued, StreamersTo(Admitted(c, info, id, name).rooms[id], info.id))
    ensures StartsFresh(Admitted(c, info, id, name).rooms[id].sessions, starts)
  {
    var c1 := Admitted(c, info, id, name);
    assert c1.rooms[id].sessions == c.rooms[id].sessions && Distinct(c);
  }

  lemma {:induction false} CreateDrift(conf: Config, c: Core, info: ClientInfo, e: Event, ch: Choice)
    requires TablesOk(conf, c, {}) && info.id in c.connected && info.id in c.clients && c.clients[info.id] == info
    requires e.Create? && CreateLegal(conf, c, info, e, ch)
    ensures Drifts(c, ExecuteCreate(conf, c, info, e, ch).core,
                   if Delegates(c, info, e) && JoinError(conf, c, info, e.id) == None && IsMember(c, e.id, info.id)
                   then 1 else 0)
  {
    hide TablesOk, JoinLegal, ExecuteJoin, IsBroadcast, RoomDrift, SessionDrift, MemberDrift, JoinError;
    if Delegates(c, info, e) {
      JoinDrift(conf, c, info, e.id, e.userName, ch);
    } else if CreateError(conf, c, info, e.id, e.mode) == None {
      var room := NewRoom(e.id, e.mode, e.closeOnOwnerLeave, info, DisplayName(info, e.userName, ch.randomName));
      assert room.users.Keys == {info.id};
      FoundedDrift(c, room, info.id, ExecuteCreate(conf, c, info, e, ch).core);
    }
  }

  lemma InRoomDrift(conf: Config, c: Core, r: string, u: Id, e: Event, ch: Choice)
    requires Distinct(c) && r in c.rooms && InRoomLegal(c, r, u, e, ch)
    requires e.Name? || e.StartShare? || e.StopShare? || e.Relay?
    ensures SameDrifts(c, ExecuteInRoom(c, r, u, e, ch).core)
  {
    hide RoomDrift, SessionDrift, MemberDrift, Notices, Invitations, CloseSessions, OpenSessions, IsBroadcast;
    hide Enumerates;
    if u in c.rooms[r].users {
      match e
      case Name(name) => SameMembersDrift(c, WithName(c, r, u, name));
      case StartShare =>
        var c1 := WithStreaming(c, r, u, true);
        SameMembersDrift(c, c1);
        if ch.ip.IpFound? {
          OpenSessionsDrift(c1, r, ch.starts);
        }
      case StopShare =>
        var c1 := WithStreaming(c, r, u, false);
        SameMembersDrift(c, c1);
        CloseSessionsDrift(c1, r, HostSessionsOf(c.rooms[r], u));
      case Relay(_, _, _) =>
    }
  }

  lemma OkIsDistinct(conf: Config, c: Core)
    requires TablesOk(conf, c, {})
    ensures Distinct(c)
  {
    hide Distinct;
  }

  lemma {:induction false} ExecuteDrift(conf: Config, c: Core, m: ClientMessage, ch: Choice)
    requires TablesOk(conf, c, {}) && !m.event.Connected?
    requires m.info.id in c.connected && m.info.id in c.clients && c.clients[m.info.id] == m.info
    requires ExecuteLegal(conf, c, m, ch)
    ensures Drifts(c, Execute(conf, c, m, ch).core, if Rejoins(conf, c, m) then 1 else 0)
  {
    hide TablesOk, JoinLegal, ExecuteJoin, CreateLegal, ExecuteCreate, InRoomLegal, ExecuteInRoom, HangupLegal;
    hide Hangup, HangupMail;
    hide RoomDrift, SessionDrift, MemberDrift;
    OkIsDistinct(conf, c);
    var u := m.info.id;
    match m.event
    case Disconnected(_, _) =>
      HangupDrift(c, u);
    case Join(id, userName) =>
      JoinDrift(conf, c, m.info, id, userName, ch);
    case Create(_, _, _, _, _) =>
      CreateDrift(conf, c, m.info, m.event, ch);
    case _ =>
      if CurrentRoomError(c, u) == None {
        InRoomDrift(conf, c, RoomOf(c, u), u, m.event, ch);
      }
  }

  /** The counters of rooms and sessions never drift; the one of users drifts by one exactly with a rejoin. */
  lemma {:induction false} StepDrift(conf: Config, s: State, m: ClientMessage, ch: Choice)
    requires TablesOk(conf, s.core, {}) && StepLegal(conf, s, m, ch)
    ensures Drifts(s.core, Step(conf, s, m, ch).core, if Rejoins(conf, s.core, m) then 1 else 0)
  {
    var c := s.core;
    if m.event.Connected? {
      hide TablesOk;
      SameMembersDrift(c, Step(conf, s, m, ch).core);
    } else if m.info.id in c.connected {
      ExecuteDrift(conf, c, m, ch);
      HangupDrift(Execute(conf, c, m, ch).core, m.info.id);
      hide TablesOk, Execute, ExecuteLegal, Hangup;
    }
  }

  /** How many steps of a run were rejoins. */
  ghost function Rejoined(conf: Config, its: seq<Iteration>): nat {
    if its == [] then 0
    else Rejoined(conf, its[..|its| - 1]) +
         if Rejoins(conf, Run(conf, its[..|its| - 1]).core, its[|its| - 1].m) then 1 else 0
  }

  lemma {:induction false} RunDrift(conf: Config, its: seq<Iteration>)
    requires RunLegal(conf, its)
    ensures var c := Run(conf, its).core;
      RoomDrift(c) == 0 && SessionDrift(c) == 0 && MemberDrift(c) == Rejoined(conf, its)
  {
    if its != [] {
      var n := |its| - 1;
      RunDrift(conf, its[..n]);
      RunKeeps(conf, its[..n]);
      StepDrift(conf, Run(conf, its[..n]), its[n].m, its[n].ch);
    } else {
      assert MemberPairs(EMPTY_CORE) == {} && SessionPairs(EMPTY_CORE) == {};
    }
  }

  // ---------- how many sessions ----------

  /** No pair has two sessions. */
  ghost predicate UniqueRoom(room: RoomState) {
    forall a, b | a in room.sessions && b in room.sessions && room.sessions[a] == room.sessions[b] :: a == b
  }

  function Streamers(room: RoomState): set<Id> {
    set h | h in room.users && room.users[h].streaming
  }

  function SessionsFrom(h: Id, users: set<Id>): set<Session> {
    set v | v in users && v != h :: Session(h, v)
  }

  lemma SessionsFromSplit(h: Id, users: set<Id>, v: Id)
    requires v in users && v != h
    ensures SessionsFrom(h, users) == SessionsFrom(h, users - {v}) + {Session(h, v)}
    ensures Session(h, v) !in SessionsFrom(h, users - {v}) && |users - {h}| == |users - {v} - {h}| + 1
  {
    assert users - {h} == (users - {v} - {h}) + {v};
  }

  lemma {:induction false} SessionsFromSize(h: Id, users: set<Id>)
    ensures |SessionsFrom(h, users)| == |users - {h}|
  {
    if users - {h} == {} {
      assert SessionsFrom(h, users) == {};
    } else {
      var v :| v in users - {h};
      SessionsFromSize(h, users - {v});
      SessionsFromSplit(h, users, v);
    }
  }

  function PairsFrom(hosts: set<Id>, users: set<Id>): set<Session> {
    set h, v | h in hosts && v in users && h != v :: Session(h, v)
  }

  lemma PairsFromSplit(hosts: set<Id>, h: Id, users: set<Id>)
    requires h in hosts
    ensures |PairsFrom(hosts, users)| == |PairsFrom(hosts - {h}, users)| + |SessionsFrom(h, users)|
  {
    assert PairsFrom(hosts, users) == PairsFrom(hosts - {h}, users) + SessionsFrom(h, users);
    assert PairsFrom(hosts - {h}, users) !! SessionsFrom(h, users);
  }

  lemma {:induction false} PairsFromSize(hosts: set<Id>, users: set<Id>)
    requires hosts <= users
    ensures |PairsFrom(hosts, users)| == |hosts| * (|users| - 1)
  {
    if hosts != {} {
      var h :| h in hosts;
      var rest := hosts - {h};
      PairsFromSize(rest, users);
      SessionsFromSize(h, users);
      PairsFromSplit(hosts, h, users);
      var others := |users| - 1;
      assert |users - {h}| == others;
      assert (|rest| + 1) * others == |rest| * others + others;
    } else {
      assert PairsFrom(hosts, users) == {};
    }
  }

  function Values(sessions: map<Id, Session>): set<Session> {
    set id | id in sessions :: sessions[id]
  }

  lemma ValuesSplit(sessions: map<Id, Session>, id: Id)
    requires id in sessions
    ensures Values(sessions) == Values(sessions - {id}) + {sessions[id]}
  {
    var rest := sessions - {id};
    forall x ensures x in Values(sessions) <==> x in Values(rest) + {sessions[id]} {
      if x in Values(sessions) {
        var other :| other in sessions && sessions[other] == x;
        assert other != id ==> other in rest && rest[other] == x;
      }
      if x in Values(rest) {
        var other :| other in rest && rest[other] == x;
        assert other in sessions;
      }
    }
  }

  lemma {:induction false} ValuesSize(sessions: map<Id, Session>)
    ensures |Values(sessions)| <= |sessions|
    ensures (forall a, b | a in sessions && b in sessions && sessions[a] == sessions[b] :: a == b) ==>
              |Values(sessions)| == |sessions|
    decreases |sessions|
  {
    if sessions != map[] {
      var id :| id in sessions;
      var rest := sessions - {id};
      assert sessions.Keys == rest.Keys + {id};
      assert |rest.Keys| == |sessions.Keys| - 1;
      ValuesSize(rest);
      ValuesSplit(sessions, id);
      if forall a, b | a in sessions && b in sessions && sessions[a] == sessions[b] :: a == b {
        assert sessions[id] !in Values(rest);
      }
    } else {
      assert Values(sessions) == {};
    }
  }

  /** A sound and complete room has at least streamers times others sessions, and without duplicates exactly that. */
  lemma {:induction false} SessionCount(room: RoomState)
    requires SoundRoom(room) && CompleteRoom(room, {})
    ensures |room.sessions| >= |Streamers(room)| * (|room.users| - 1)
    ensures UniqueRoom(room) ==> |room.sessions| == |Streamers(room)| * (|room.users| - 1)
  {
    assert Values(room.sessions) == PairsFrom(Streamers(room), room.users.Keys) by {
      forall h, v | Session(h, v) in PairsFrom(Streamers(room), room.users.Keys)
        ensures Session(h, v) in Values(room.sessions)
      {
        assert HasSession(room, h, v);
      }
    }
    PairsFromSize(Streamers(room), room.users.Keys);
    ValuesSize(room.sessions);
    assert |room.users.Keys| == |room.users|;
  }
}
