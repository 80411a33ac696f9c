/** What each message makes of the tables, told without the functions of Protocol that compute it. */
module Effects {
  import opened Domain
  import opened ViewOrder
  import opened Protocol
  import opened Tables
  import opened Handlers
  import opened Safety
  import opened Mirror
  import opened Knowledge
  import opened Isolation
  import opened Theorems
  import opened Refusals

  // ---------- leaving ----------

  function KeysFor(mode: string, ids: set<Id>): set<string> {
    if mode == "turn" then (set id | id in ids :: id + "host") + (set id | id in ids :: id + "client") else {}
  }

  function Involving(room: RoomState, u: Id): set<Id> {
    set id | id in room.sessions && (room.sessions[id].host == u || room.sessions[id].client == u)
  }

  /** The tables once u, of room r, has gone and the room with it. */
  function RoomClosed(c: Core, r: string): Core
    requires r in c.rooms
  {
    var room := c.rooms[r];
    c.(connected := c.connected - room.users.Keys,
       rooms := c.rooms - {r},
       lookup := c.lookup - KeysFor(room.mode, room.sessions.Keys),
       metrics := c.metrics.(usersLeft := c.metrics.usersLeft + |room.users|,
                             sessionsClosed := c.metrics.sessionsClosed + |room.sessions|,
                             roomsClosed := c.metrics.roomsClosed + 1))
  }

  /** The tables once u has gone and its room r goes on. */
  function MemberGone(c: Core, r: string, u: Id): Core
    requires r in c.rooms
  {
    var room := c.rooms[r];
    var gone := Involving(room, u);
    c.(connected := c.connected - {u},
       rooms := c.rooms[r := room.(users := room.users - {u}, sessions := room.sessions - gone)],
       lookup := c.lookup - KeysFor(room.mode, gone),
       metrics := c.metrics.(usersLeft := c.metrics.usersLeft + 1,
                             sessionsClosed := c.metrics.sessionsClosed + |gone|))
  }

  lemma RevokedKeys(mode: string, lookup: map<string, Entry>, ids: set<Id>)
    ensures Revoked(mode, lookup, ids) == lookup - KeysFor(mode, ids)
  {
    assert KeysOf(ids) == (set id | id in ids :: id + "host") + (set id | id in ids :: id + "client");
  }

  lemma SizeWithout<V>(m: map<Id, V>, ids: set<Id>)
    requires ids <= m.Keys
    ensures |m| == |ids| + |m - ids| && |(m - ids).Keys| == |m - ids|
  {
    var rest := m - ids;
    assert m.Keys == ids + rest.Keys && |m| == |m.Keys| && |rest| == |rest.Keys|;
  }

  lemma ClosedMetrics(c: Core, r: string, u: Id)
    requires r in c.rooms && u in c.rooms[r].users
    ensures var room := c.rooms[r];
      CloseRoom(DropUser(c, r, u), r).metrics ==
      c.metrics.(usersLeft := c.metrics.usersLeft + |room.users|,
                 sessionsClosed := c.metrics.sessionsClosed + |room.sessions|,
                 roomsClosed := c.metrics.roomsClosed + 1)
  {
    hide SessionsOf, DropUser, CloseRoom;
    var room := c.rooms[r];
    SessionsOfRoom(room, u);
    SizeWithout(room.sessions, SessionsOf(room, u));
    SizeWithout(room.users, {u});
    DropMetrics(c, r, u);
    CloseMetrics(DropUser(c, r, u), r);
  }

  lemma DropMetrics(c: Core, r: string, u: Id)
    requires r in c.rooms && u in c.rooms[r].users
    ensures DropUser(c, r, u).metrics == c.metrics.(
      usersLeft := c.metrics.usersLeft + 1,
      sessionsClosed := c.metrics.sessionsClosed + |SessionsOf(c.rooms[r], u)|)
  {
    hide Revoked, SessionsOf;
  }

  lemma CloseMetrics(c: Core, r: string)
    requires r in c.rooms
    ensures CloseRoom(c, r).metrics == c.metrics.(
      usersLeft := c.metrics.usersLeft + |c.rooms[r].users|,
      sessionsClosed := c.metrics.sessionsClosed + |c.rooms[r].sessions.Keys|,
      roomsClosed := c.metrics.roomsClosed + 1)
  {
    hide Revoked;
  }

  lemma SessionsOfRoom(room: RoomState, u: Id)
    ensures SessionsOf(room, u) <= room.sessions.Keys && Involving(room, u) == SessionsOf(room, u)
  {
  }

  lemma {:induction false} ClosingTables(c: Core, u: Id)
    requires Agree(c) && Member(c, u) && ClosesRoom(c.rooms[c.connected[u]], u)
    ensures Hangup(c, u) == RoomClosed(c, c.connected[u])
  {
    hide Agree, ClosesRoom, CloseRoom, DropUser, KeysOf, KeysFor, Without;
    var r := c.connected[u];
    HangupHungUp(c, u);
    RevokedKeys(c.rooms[r].mode, c.lookup, c.rooms[r].sessions.Keys);
    ClosedMetrics(c.(connected := c.connected - {u}), r, u);
    var c' := Hangup(c, u);
    assert c'.metrics == RoomClosed(c, r).metrics;
    assert c'.lookup == RoomClosed(c, r).lookup;
    assert c'.connected == RoomClosed(c, r).connected;
    assert c'.rooms == RoomClosed(c, r).rooms;
  }

  lemma {:induction false} StayingTables(c: Core, u: Id)
    requires Agree(c) && Member(c, u) && !ClosesRoom(c.rooms[c.connected[u]], u)
    ensures Hangup(c, u) == MemberGone(c, c.connected[u], u)
  {
    hide Agree, ClosesRoom, Revoked, KeysOf, KeysFor, SessionsOf, Involving;
    var r := c.connected[u];
    SessionsOfRoom(c.rooms[r], u);
    HangupHungUp(c, u);
    RevokedKeys(c.rooms[r].mode, c.lookup, SessionsOf(c.rooms[r], u));
  }

  lemma {:induction false} HangupTables(c: Core, u: Id)
    requires Agree(c) && u in c.connected
    ensures var r := c.connected[u];
      if r == "" then Hangup(c, u) == c.(connected := c.connected - {u})
      else
        && r in c.rooms && u in c.rooms[r].users
        && var room := c.rooms[r];
           Hangup(c, u) == if (room.users[u].owner && room.closeOnOwnerLeave) || |room.users| == 1 then RoomClosed(c, r)
                           else MemberGone(c, r, u)
  {
    hide Leave, RoomClosed, MemberGone;
    var r := c.connected[u];
    if r != "" {
      OnlyMember(c.rooms[r].users, u);
      if ClosesRoom(c.rooms[r], u) {
        ClosingTables(c, u);
      } else {
        StayingTables(c, u);
      }
    }
  }

  lemma OnlyMember(users: map<Id, UserState>, u: Id)
    requires u in users
    ensures users.Keys == {u} <==> |users| == 1
  {
    assert |users| == |users.Keys| && users.Keys == {u} + (users.Keys - {u});
  }

  /**
   A client that disconnects is off the connection table. In a room that closes with it, so are all members, and the
   room, its sessions and their credentials go; otherwise the client goes with its own sessions and credentials.
   */
  lemma {:induction false} Disconnects(conf: Config, s: State, m: ClientMessage, ch: Choice)
    requires Heeded(conf, s, m, ch) && m.event.Disconnected?
    ensures var c, c', u := s.core, Step(conf, s, m, ch).core, m.info.id;
      var r := c.connected[u];
      if r == "" then c' == c.(connected := c.connected - {u})
      else
        && r in c.rooms && u in c.rooms[r].users
        && var room := c.rooms[r];
           if (room.users[u].owner && room.closeOnOwnerLeave) || |room.users| == 1 then c' == RoomClosed(c, r)
           else c' == MemberGone(c, r, u)
  {
    hide TablesOk, Hangup, HangupMail, HangupLegal;
    OkParts(conf, s.core);
    HangupTables(s.core, m.info.id);
  }

  // ---------- founding a room ----------

  /** A room is founded as asked, with the sender as its only member and owner, and the sender sees it. */
  lemma {:induction false} Creates(conf: Config, s: State, m: ClientMessage, ch: Choice)
    requires Heeded(conf, s, m, ch)
    requires m.event.Create? && s.core.connected[m.info.id] == "" && m.event.id !in s.core.rooms
    requires MayEnter(conf.authMode, m.event.mode, m.info.authenticated)
    ensures var c, c', u, e := s.core, Step(conf, s, m, ch).core, m.info.id, m.event;
      && e.id in c'.rooms && u in c'.rooms[e.id].users
      && var name := c'.rooms[e.id].users[u].name;
         && NameFits(name, m.info, e.userName, ch.randomName)
         && c' == c.(
              connected := c.connected[u := e.id],
              rooms := c.rooms[e.id := RoomState(e.id, e.closeOnOwnerLeave, e.mode,
                map[u := UserState(u, m.info.addr, name, false, true)], map[])],
              metrics := c.metrics.(roomsCreated := c.metrics.roomsCreated + 1,
                                    usersJoined := c.metrics.usersJoined + 1))
         && StepMail(conf, s, m, ch) == [Envelope(u, Sent(RoomInfo(e.id, [UserView(u, name, false, true, true)])))]
  {
    hide TablesOk, IsBroadcast, CheckAuth, DisplayName, NameFits, EntryRefusal;
    FailsExactly(conf, s.core, m, ch);
    AdmitsExactly(conf, m.event.mode, m.info.authenticated);
    DoneStep(conf, s, m, ch);
    var name := DisplayName(m.info, m.event.userName, ch.randomName);
    DisplayNameFits(m.info, m.event.userName, ch.randomName);
    var room := NewRoom(m.event.id, m.event.mode, m.event.closeOnOwnerLeave, m.info, name);
    AloneSees(ch.note, room, UserState(m.info.id, m.info.addr, name, false, true));
  }

  lemma SomeNote(note: seq<Envelope>, room: RoomState, u: Id)
    requires IsBroadcast(note, room) && u in room.users
    ensures note != [] && IsNote(note[0], room)
  {
    hide IsNote;
  }

  lemma TwoNotes(note: seq<Envelope>, room: RoomState)
    requires IsBroadcast(note, room) && |note| > 1
    ensures note[0].to in room.users && note[1].to in room.users && note[0].to != note[1].to
  {
    hide IsView;
    assert IsNote(note[0], room) && IsNote(note[1], room);
  }

  lemma AloneSees(note: seq<Envelope>, room: RoomState, user: UserState)
    requires room.users == map[user.id := user] && IsBroadcast(note, room)
    ensures var view := [UserView(user.id, user.name, user.streaming, true, user.owner)];
      note == [Envelope(user.id, Sent(RoomInfo(room.id, view)))]
  {
    hide Sorted, IsBroadcast;
    assert room.users.Keys == {user.id} && |room.users| == |room.users.Keys|;
    SomeNote(note, room, user.id);
    if |note| > 1 {
      TwoNotes(note, room);
    }
    var view := note[0].item.msg.users;
    assert IsView(view, room.users, user.id) && view[0].id in room.users.Keys;
    assert view == [Show(user, user.id)];
    assert note[0] == Envelope(user.id, Sent(RoomInfo(room.id, view)));
  }

  /** Create of a room that exists, by a client that accepts to join it, is Join. */
  lemma {:induction false} HandsOver(conf: Config, s: State, m: ClientMessage, ch: Choice)
    requires StepLegal(conf, s, m, ch) && m.info.id in s.core.connected && s.core.connected[m.info.id] == ""
    requires m.event.Create? && m.event.id in s.core.rooms && m.event.joinIfExist
    ensures var join := ClientMessage(m.info, false, Join(m.event.id, m.event.userName));
      && StepLegal(conf, s, join, ch) && Step(conf, s, m, ch) == Step(conf, s, join, ch)
      && StepMail(conf, s, m, ch) == StepMail(conf, s, join, ch)
  {
    hide ExecuteJoin, JoinLegal, Hangup, HangupLegal, HangupMail;
  }

  // ---------- opening sessions ----------

  /** after is before with one new session, under an id never used, for each pair in want. */
  ghost predicate OnTop(before: map<Id, Session>, after: map<Id, Session>, used: set<Id>, want: set<(Id, Id)>) {
    && (forall id | id in before :: id in after && after[id] == before[id])
    && (forall id | id in after && id !in before :: id !in used && (after[id].host, after[id].client) in want)
    && (forall a, b | a in after && b in after && a !in before && b !in before && after[a] == after[b] :: a == b)
    && (forall p | p in want :: HasNew(before, after, p.0, p.1))
  }

  ghost predicate HasNew(before: map<Id, Session>, after: map<Id, Session>, host: Id, client: Id) {
    exists id :: id in after && id !in before && after[id] == Session(host, client)
  }

  lemma {:induction false} OpensOnTop(c: Core, r: string, starts: seq<Start>, want: set<(Id, Id)>)
    requires r in c.rooms && Distinct(c) && StartsFit(c, r, starts) && StartsLegal(starts, c.issued, want)
    ensures OnTop(c.rooms[r].sessions, OpenSessions(c, r, starts).rooms[r].sessions, c.issued, want)
  {
    hide Distinct, StartsFit, OpenSessions;
    var before := c.rooms[r].sessions;
    var after := OpenSessions(c, r, starts).rooms[r].sessions;
    FitIsFresh(c, r, starts);
    OpenSessionsAdd(c, r, starts);
    forall id | id in after && id !in before
      ensures exists i :: 0 <= i < |starts| && starts[i].id == id
    {
      var st :| st in starts && st.id == id;
      var i :| 0 <= i < |starts| && starts[i] == st;
      assert starts[i].id == id;
    }
    forall p | p in want ensures HasNew(before, after, p.0, p.1) {
      var i :| 0 <= i < |starts| && (starts[i].host, starts[i].client) == p;
      assert starts[i].id in after && starts[i].id !in before && after[starts[i].id] == Session(p.0, p.1);
    }
  }

  lemma {:induction false} OpensCounted(c: Core, r: string, starts: seq<Start>)
    requires r in c.rooms && StartsFresh(c.rooms[r].sessions, starts)
    ensures var c' := OpenSessions(c, r, starts);
      && |c'.rooms[r].sessions| == |c.rooms[r].sessions| + |starts|
      && c'.metrics == c.metrics.(sessionsCreated := c.metrics.sessionsCreated + |starts|)
  {
    if starts != [] {
      var n := |starts| - 1;
      var c1 := OpenSessions(c, r, starts[..n]);
      OpensCounted(c, r, starts[..n]);
      OpenSessionsAdd(c, r, starts[..n]);
      forall st | st in starts[..n] ensures st.id != starts[n].id {
        var i :| 0 <= i < n && starts[..n][i] == st;
        assert starts[i] == st;
      }
      OneMore(c1.rooms[r].sessions, starts[n].id, Session(starts[n].host, starts[n].client));
    }
  }

  lemma OneMore(sessions: map<Id, Session>, id: Id, x: Session)
    requires id !in sessions
    ensures |sessions[id := x]| == |sessions| + 1
  {
    assert sessions[id := x].Keys == sessions.Keys + {id};
    assert |sessions[id := x]| == |sessions[id := x].Keys| && |sessions| == |sessions.Keys|;
  }

  /** What a handler that opens sessions on top of c1, in room r, makes of c1. */
  ghost predicate Opened(c1: Core, c': Core, r: string, want: set<(Id, Id)>) {
    && r in c1.rooms && r in c'.rooms && c'.connected == c1.connected && c'.clients == c1.clients
    && OnTop(c1.rooms[r].sessions, c'.rooms[r].sessions, c1.issued, want)
    && c'.rooms == c1.rooms[r := c1.rooms[r].(sessions := c'.rooms[r].sessions)]
    && var more := |c'.rooms[r].sessions| - |c1.rooms[r].sessions|;
       more >= 0 && c'.metrics == c1.metrics.(sessionsCreated := c1.metrics.sessionsCreated + more)
  }

  lemma OpensAll(c1: Core, r: string, starts: seq<Start>, want: set<(Id, Id)>)
    requires r in c1.rooms && Distinct(c1) && StartsFit(c1, r, starts) && StartsLegal(starts, c1.issued, want)
    ensures Opened(c1, OpenSessions(c1, r, starts), r, want)
  {
    hide Distinct, StartsFit, StartsLegal, OnTop;
    OpensOnTop(c1, r, starts, want);
    FitIsFresh(c1, r, starts);
    OpensCounted(c1, r, starts);
  }

  // ---------- joining ----------

  /** c with u as a member of room r, under the given name, and counted. */
  function WithMember(c: Core, r: string, u: Id, addr: string, name: string): Core
    requires r in c.rooms
  {
    c.(connected := c.connected[u := r],
       rooms := c.rooms[r := c.rooms[r].(users := c.rooms[r].users[u := UserState(u, addr, name, false, false)])],
       metrics := c.metrics.(usersJoined := c.metrics.usersJoined + 1))
  }

  lemma AdmittedIsMember(c: Core, info: ClientInfo, r: string, name: string)
    requires Keyed(c) && r in c.rooms
    ensures Admitted(c, info, r, name) == WithMember(c, r, info.id, info.addr, name)
  {
  }

  /** Whoever joins is a member under the name it is due, and each streaming member has one new session to it. */
  lemma {:induction false} Joins(conf: Config, s: State, m: ClientMessage, ch: Choice)
    requires Heeded(conf, s, m, ch)
    requires m.event.Join? && s.core.connected[m.info.id] == "" && m.event.id in s.core.rooms
    requires MayEnter(conf.authMode, s.core.rooms[m.event.id].mode, m.info.authenticated) && ch.ip.IpFound?
    ensures var c, c', u, r := s.core, Step(conf, s, m, ch).core, m.info.id, m.event.id;
      && r in c'.rooms && u in c'.rooms[r].users
      && var name := c'.rooms[r].users[u].name;
         && NameFits(name, m.info, m.event.userName, ch.randomName)
         && Opened(WithMember(c, r, u, m.info.addr, name), c', r,
                   set h | h in c.rooms[r].users && h != u && c.rooms[r].users[h].streaming :: (h, u))
  {
    hide TablesOk, StepLegal, Step, StepMail, Execute, ExecuteLegal, StartsLegal, OnTop, NameFits, DisplayName;
    var c, u, r := s.core, m.info.id, m.event.id;
    var name := DisplayName(m.info, m.event.userName, ch.randomName);
    DisplayNameFits(m.info, m.event.userName, ch.randomName);
    JoinsWell(conf, s, m, ch, name);
  }

  lemma {:induction false} JoinsWell(conf: Config, s: State, m: ClientMessage, ch: Choice, name: string)
    requires Heeded(conf, s, m, ch)
    requires m.event.Join? && s.core.connected[m.info.id] == "" && m.event.id in s.core.rooms
    requires MayEnter(conf.authMode, s.core.rooms[m.event.id].mode, m.info.authenticated) && ch.ip.IpFound?
    requires name == DisplayName(m.info, m.event.userName, ch.randomName)
    ensures var c, u, r := s.core, m.info.id, m.event.id;
      && Opened(WithMember(c, r, u, m.info.addr, name), Step(conf, s, m, ch).core, r,
                set h | h in c.rooms[r].users && h != u && c.rooms[r].users[h].streaming :: (h, u))
  {
    hide TablesOk, StartsLegal, Opened, DisplayName, IsBroadcast, OpenSessions, Invitations, Keyed, Distinct, CheckAuth;
    hide EntryRefusal, HangupLegal;
    var c, u, r := s.core, m.info.id, m.event.id;
    AdmitsExactly(conf, c.rooms[r].mode, m.info.authenticated);
    FailsExactly(conf, c, m, ch);
    DoneStep(conf, s, m, ch);
    OkKeyed(conf, c);
    AdmittedIsMember(c, m.info, r, name);
    var c1 := Admitted(c, m.info, r, name);
    AdmittedKeeps(conf, c, m.info, r, name);
    OkDistinct(conf, c1, {u});
    JoinStartsFit(c1, r, u, ch.starts);
    assert StreamersTo(c1.rooms[r], u) ==
           set h | h in c.rooms[r].users && h != u && c.rooms[r].users[h].streaming :: (h, u);
    OpensAll(c1, r, ch.starts, StreamersTo(c1.rooms[r], u));
  }

  lemma OkKeyed(conf: Config, c: Core)
    requires TablesOk(conf, c, {})
    ensures Keyed(c)
  {
    hide Keyed;
  }

  lemma OkDistinct(conf: Config, c: Core, but: set<Id>)
    requires TablesOk(conf, c, but)
    ensures Distinct(c)
  {
    hide Distinct;
  }

  /**
   When the address is not found, whoever joined a room other than "" leaves it again at once: no room, session or
   credential changed. In the room "" it stays in the user table.
   */
  lemma {:induction false} JoinThatFails(conf: Config, s: State, m: ClientMessage, ch: Choice)
    requires Heeded(conf, s, m, ch)
    requires m.event.Join? && s.core.connected[m.info.id] == "" && m.event.id in s.core.rooms
    requires MayEnter(conf.authMode, s.core.rooms[m.event.id].mode, m.info.authenticated) && ch.ip.IpError?
    ensures var c, c', u, r := s.core, Step(conf, s, m, ch).core, m.info.id, m.event.id;
      if r != "" then
        c' == c.(connected := c.connected - {u},
                 metrics := c.metrics.(usersJoined := c.metrics.usersJoined + 1, usersLeft := c.metrics.usersLeft + 1))
      else
        && r in c'.rooms && u in c'.rooms[r].users
        && var name := c'.rooms[r].users[u].name;
           && NameFits(name, m.info, m.event.userName, ch.randomName)
           && c' == WithMember(c, r, u, m.info.addr, name).(connected := c.connected - {u})
  {
    hide TablesOk, NameFits, DisplayName, IsBroadcast, Keyed, Agree, Sound, CheckAuth, EntryRefusal, Hangup, HangupMail;
    hide HangupLegal;
    var c, u, r := s.core, m.info.id, m.event.id;
    var name := DisplayName(m.info, m.event.userName, ch.randomName);
    DisplayNameFits(m.info, m.event.userName, ch.randomName);
    AdmitsExactly(conf, c.rooms[r].mode, m.info.authenticated);
    FailsExactly(conf, c, m, ch);
    FailedStep(conf, s, m, ch, ch.ip.reason);
    OkKeyed(conf, c);
    AdmittedIsMember(c, m.info, r, name);
    AdmittedKeeps(conf, c, m.info, r, name);
    OkIsSound(conf, Admitted(c, m.info, r, name), {u});
    OkParts(conf, c);
    InAndOut(c, r, u, m.info.addr, name);
  }

  /** A member that has just entered leaves nothing behind. */
  lemma {:induction false} InAndOut(c: Core, r: string, u: Id, addr: string, name: string)
    requires Agree(c) && Sound(c) && u in c.connected && c.connected[u] == "" && r in c.rooms
    requires Agree(WithMember(c, r, u, addr, name))
    ensures var c' := Hangup(WithMember(c, r, u, addr, name), u);
      if r != "" then
        c' == c.(connected := c.connected - {u},
                 metrics := c.metrics.(usersJoined := c.metrics.usersJoined + 1, usersLeft := c.metrics.usersLeft + 1))
      else c' == WithMember(c, r, u, addr, name).(connected := c.connected - {u})
  {
    hide Hangup, KeysFor, Involving, Agree, Sound;
    var c1 := WithMember(c, r, u, addr, name);
    HangupTables(c1, u);
    assert c1.connected - {u} == c.connected - {u};
    if r != "" {
      var room := c.rooms[r];
      NotThere(c, r, u);
      NobodyInvolved(room, c1.rooms[r], u);
      NoKeys(room.mode, c.lookup);
      OneMoreUser(room.users, u, c1.rooms[r].users[u]);
      assert c1.rooms[r].sessions - {} == room.sessions;
      assert c1.rooms[r := room] == c.rooms;
    }
  }

  lemma NotThere(c: Core, r: string, u: Id)
    requires Agree(c) && Sound(c) && u in c.connected && c.connected[u] == "" && r in c.rooms && r != ""
    ensures u !in c.rooms[r].users && c.rooms[r].users != map[] && SoundRoom(c.rooms[r])
  {
  }

  lemma NobodyInvolved(room: RoomState, room': RoomState, u: Id)
    requires SoundRoom(room) && u !in room.users && room'.sessions == room.sessions
    ensures Involving(room', u) == {}
  {
  }

  lemma NoKeys(mode: string, lookup: map<string, Entry>)
    ensures lookup - KeysFor(mode, {}) == lookup
  {
  }

  lemma OneMoreUser(users: map<Id, UserState>, u: Id, user: UserState)
    requires u !in users && users != map[]
    ensures |users[u := user]| > 1 && users[u := user] - {u} == users
  {
    assert users[u := user].Keys == users.Keys + {u} && |users[u := user]| == |users[u := user].Keys|;
    assert |users| == |users.Keys|;
  }

  /** Whoever enters, by Join or by either kind of Create, does so under the name it is due. */
  lemma {:induction false} EntersUnderItsName(conf: Config, s: State, m: ClientMessage, ch: Choice)
    requires Heeded(conf, s, m, ch)
    requires m.event.Join? || m.event.Create?
    requires FailureReason(conf, s.core, m, ch.ip) == None
    ensures var c', u := Step(conf, s, m, ch).core, m.info.id;
      && u in c'.connected && c'.connected[u] == m.event.id
      && m.event.id in c'.rooms && u in c'.rooms[m.event.id].users
      && NameFits(c'.rooms[m.event.id].users[u].name, m.info, m.event.userName, ch.randomName)
  {
    hide TablesOk, StepLegal, Step, StepMail, NameFits, MayEnter;
    if m.event.Join? {
      Joins(conf, s, m, ch);
    } else if m.event.id !in s.core.rooms {
      Creates(conf, s, m, ch);
    } else {
      HandsOver(conf, s, m, ch);
      Joins(conf, s, ClientMessage(m.info, false, Join(m.event.id, m.event.userName)), ch);
    }
  }

  // ---------- sharing ----------

  /** c with the streaming flag of u, a member of room r, set to on. */
  function Flagged(c: Core, r: string, u: Id, on: bool): Core
    requires r in c.rooms && u in c.rooms[r].users
  {
    c.(rooms := c.rooms[r := c.rooms[r].(users := c.rooms[r].users[u := c.rooms[r].users[u].(streaming := on)])])
  }

  lemma StreamingIsFlag(c: Core, r: string, u: Id, on: bool)
    requires r in c.rooms && u in c.rooms[r].users
    ensures WithStreaming(c, r, u, on) == Flagged(c, r, u, on)
  {
  }

  lemma InOwnRoom(c: Core, u: Id)
    requires Agree(c) && u in c.connected && c.connected[u] != ""
    ensures c.connected[u] in c.rooms && u in c.rooms[c.connected[u]].users
    ensures CurrentRoomError(c, u) == None && RoomOf(c, u) == c.connected[u]
  {
  }

  /** Whoever shares streams, and each other member has one new session from it. */
  lemma {:induction false} Shares(conf: Config, s: State, m: ClientMessage, ch: Choice)
    requires Heeded(conf, s, m, ch)
    requires m.event.StartShare? && s.core.connected[m.info.id] != "" && ch.ip.IpFound?
    ensures var c, u := s.core, m.info.id;
      var r := c.connected[u];
      && r in c.rooms && u in c.rooms[r].users
      && Opened(Flagged(c, r, u, true), Step(conf, s, m, ch).core, r, set v | v in c.rooms[r].users && v != u :: (u, v))
  {
    hide TablesOk, StartsLegal, Opened, IsBroadcast, OpenSessions, Invitations, Distinct, Agree, HangupLegal;
    hide WithStreaming, Flagged;
    var c, u := s.core, m.info.id;
    OkParts(conf, c);
    InOwnRoom(c, u);
    var r := c.connected[u];
    var c1 := WithStreaming(c, r, u, true);
    FailsExactly(conf, c, m, ch);
    DoneStep(conf, s, m, ch);
    SharedTables(c, r, u, ch.starts);
    StreamingIsFlag(c, r, u, true);
    OpensAll(c1, r, ch.starts, ViewersOf(c1.rooms[r], u));
  }

  lemma SharedTables(c: Core, r: string, u: Id, starts: seq<Start>)
    requires Distinct(c) && r in c.rooms && u in c.rooms[r].users
    ensures var c1 := WithStreaming(c, r, u, true);
      && Distinct(c1) && c1.issued == c.issued
      && ViewersOf(c1.rooms[r], u) == (set v | v in c.rooms[r].users && v != u :: (u, v))
      && (StartsLegal(starts, c.issued, ViewersOf(c1.rooms[r], u)) ==> StartsFit(c1, r, starts))
  {
  }

  /** When the address is not found, sharing ends as if the client had disconnected, and nobody saw it stream. */
  lemma {:induction false} ShareThatFails(conf: Config, s: State, m: ClientMessage, ch: Choice)
    requires Heeded(conf, s, m, ch)
    requires m.event.StartShare? && s.core.connected[m.info.id] != "" && ch.ip.IpError?
    ensures var bye := ClientMessage(m.info, false, Disconnected(1000, ch.ip.reason));
      && StepLegal(conf, s, bye, ch) && Step(conf, s, m, ch) == Step(conf, s, bye, ch)
      && StepMail(conf, s, m, ch) == StepMail(conf, s, bye, ch)
  {
    hide TablesOk, IsBroadcast, Agree, Hangup, HangupMail, HangupLegal, WithStreaming;
    var c, u := s.core, m.info.id;
    OkParts(conf, c);
    InOwnRoom(c, u);
    FailsExactly(conf, c, m, ch);
    FailedStep(conf, s, m, ch, ch.ip.reason);
    FlagGoes(c, u, 1000, ch.ip.reason, ch);
  }

  lemma {:induction false} FlagGoes(c: Core, u: Id, code: int, reason: string, ch: Choice)
    requires Agree(c) && u in c.connected && c.connected[u] != ""
    ensures var r := c.connected[u];
      && r in c.rooms && u in c.rooms[r].users
      && var c1 := WithStreaming(c, r, u, true);
         && Hangup(c1, u) == Hangup(c, u) && HangupMail(c1, u, code, reason, ch) == HangupMail(c, u, code, reason, ch)
         && (HangupLegal(c1, u, ch) ==> HangupLegal(c, u, ch))
  {
    hide IsBroadcast, Enumerates, Notices, Hangup;
    var r := c.connected[u];
    var c1 := WithStreaming(c, r, u, true);
    FlagAgrees(c, r, u);
    FlagWithout(c.rooms[r], c1.rooms[r], u);
    FlagNotices(c.rooms[r], c1.rooms[r], u, ch.closing);
    FlagHangup(c, u);
  }

  lemma FlagAgrees(c: Core, r: string, u: Id)
    requires Agree(c) && r in c.rooms && u in c.rooms[r].users
    ensures Agree(WithStreaming(c, r, u, true))
  {
  }

  lemma FlagWithout(room: RoomState, room': RoomState, u: Id)
    requires u in room.users && room' == room.(users := room.users[u := room.users[u].(streaming := true)])
    ensures room'.users.Keys == room.users.Keys && ClosesRoom(room', u) == ClosesRoom(room, u)
    ensures Without(room', u) == Without(room, u) && SessionsOf(room', u) == SessionsOf(room, u)
    ensures |room'.users| == |room.users|
  {
    assert room'.users.Keys == room.users.Keys;
    assert room'.users - {u} == room.users - {u};
    assert |room'.users| == |room'.users.Keys| && |room.users| == |room.users.Keys|;
  }

  lemma {:induction false} FlagNotices(room: RoomState, room': RoomState, u: Id, order: seq<Id>)
    requires room'.users.Keys == room.users.Keys && room'.sessions == room.sessions
    ensures Notices(room', u, order) == Notices(room, u, order)
  {
    if order != [] {
      FlagNotices(room, room', u, order[..|order| - 1]);
    }
  }

  lemma FlagHangup(c: Core, u: Id)
    requires Agree(c) && u in c.connected && c.connected[u] != ""
    requires c.connected[u] in c.rooms && u in c.rooms[c.connected[u]].users
    requires Agree(WithStreaming(c, c.connected[u], u, true))
    ensures Hangup(WithStreaming(c, c.connected[u], u, true), u) == Hangup(c, u)
  {
    hide Agree, Hangup, RoomClosed, MemberGone;
    var r := c.connected[u];
    var c1 := WithStreaming(c, r, u, true);
    HangupTables(c, u);
    HangupTables(c1, u);
    FlagWithout(c.rooms[r], c1.rooms[r], u);
    FlagOff(c, r, u);
  }

  lemma FlagOff(c: Core, r: string, u: Id)
    requires r in c.rooms && u in c.rooms[r].users
    ensures RoomClosed(WithStreaming(c, r, u, true), r) == RoomClosed(c, r)
    ensures MemberGone(WithStreaming(c, r, u, true), r, u) == MemberGone(c, r, u)
  {
    hide KeysFor, Involving, ClosesRoom, Without, SessionsOf, RoomClosed, MemberGone;
    var room' := WithStreaming(c, r, u, true).rooms[r];
    FlagWithout(c.rooms[r], room', u);
    SameInvolved(c.rooms[r], room', u);
    assert room'.users - {u} == c.rooms[r].users - {u};
    OtherRoomClosed(c, r, room');
    OtherMemberGone(c, r, room', u);
  }

  /** Flags of members do not matter to what is left after their room closed. */
  lemma OtherRoomClosed(c: Core, r: string, room': RoomState)
    requires r in c.rooms && room' == c.rooms[r].(users := room'.users)
    requires room'.users.Keys == c.rooms[r].users.Keys && |room'.users| == |c.rooms[r].users|
    ensures RoomClosed(c.(rooms := c.rooms[r := room']), r) == RoomClosed(c, r)
  {
    hide KeysFor;
    PutAndRemoved(c.rooms, r, room');
    var c1 := c.(rooms := c.rooms[r := room']);
    assert c1.rooms[r] == room' && c1.rooms - {r} == c.rooms - {r};
    assert RoomClosed(c1, r).metrics == RoomClosed(c, r).metrics;
  }

  /** Flags of a member do not matter to what is left after it went. */
  lemma OtherMemberGone(c: Core, r: string, room': RoomState, u: Id)
    requires r in c.rooms && room' == c.rooms[r].(users := room'.users)
    requires room'.users - {u} == c.rooms[r].users - {u} && Involving(room', u) == Involving(c.rooms[r], u)
    ensures MemberGone(c.(rooms := c.rooms[r := room']), r, u) == MemberGone(c, r, u)
  {
    hide KeysFor, Involving;
    PutTwice(c.rooms, r, room', MemberGone(c, r, u).rooms[r]);
  }

  lemma SameInvolved(room: RoomState, room': RoomState, u: Id)
    requires room'.sessions == room.sessions
    ensures Involving(room', u) == Involving(room, u)
  {
  }

  /** Whoever stops sharing no longer streams, and the sessions it hosts are gone, with their credentials. */
  lemma {:induction false} StopsSharing(conf: Config, s: State, m: ClientMessage, ch: Choice)
    requires Heeded(conf, s, m, ch)
    requires m.event.StopShare? && s.core.connected[m.info.id] != ""
    ensures var c, u := s.core, m.info.id;
      var r := c.connected[u];
      && r in c.rooms && u in c.rooms[r].users
      && var room := c.rooms[r];
         var hosted := set id | id in room.sessions && room.sessions[id].host == u;
         var c1 := Flagged(c, r, u, false);
         Step(conf, s, m, ch).core == c1.(
           rooms := c1.rooms[r := c1.rooms[r].(sessions := room.sessions - hosted)],
           lookup := c.lookup - KeysFor(room.mode, hosted),
           metrics := c.metrics.(sessionsClosed := c.metrics.sessionsClosed + |hosted|))
  {
    hide TablesOk, IsBroadcast, Agree, KeysFor, Revoked, Notices, Enumerates, HangupLegal;
    var c, u := s.core, m.info.id;
    OkParts(conf, c);
    InOwnRoom(c, u);
    FailsExactly(conf, c, m, ch);
    DoneStep(conf, s, m, ch);
    var room := c.rooms[c.connected[u]];
    RevokedKeys(room.mode, c.lookup, HostSessionsOf(room, u));
  }

  // ---------- changing the name ----------

  /** A member that changes its name has that name, and nothing else changes. */
  lemma {:induction false} Renames(conf: Config, s: State, m: ClientMessage, ch: Choice)
    requires Heeded(conf, s, m, ch)
    requires m.event.Name? && s.core.connected[m.info.id] != ""
    ensures var c, u := s.core, m.info.id;
      var r := c.connected[u];
      && r in c.rooms && u in c.rooms[r].users
      && var room := c.rooms[r];
         Step(conf, s, m, ch).core == c.(
           rooms := c.rooms[r := room.(users := room.users[u := room.users[u].(name := m.event.userName)])])
  {
    hide TablesOk, IsBroadcast, Agree, HangupLegal;
    OkParts(conf, s.core);
    InOwnRoom(s.core, m.info.id);
    FailsExactly(conf, s.core, m, ch);
    DoneStep(conf, s, m, ch);
  }

  /** Afterwards the last view of each member of the room shows the new name. */
  lemma {:induction false} RenameIsSeen(conf: Config, s: State, m: ClientMessage, ch: Choice, v: Id)
    requires Reachable(conf, s) && StepLegal(conf, s, m, ch) && m.info.id in s.core.connected
    requires m.event.Name? && s.core.connected[m.info.id] != ""
    ensures var c, s', u := s.core, Step(conf, s, m, ch), m.info.id;
      var r := c.connected[u];
      && r in c.rooms && u in c.rooms[r].users
      && (v in c.rooms[r].users ==>
            && var user := c.rooms[r].users[u];
            && r in Knows(s', v).infos
            && UserView(u, m.event.userName, user.streaming, u == v, user.owner) in Knows(s', v).infos[r])
  {
    hide Reachable, TablesOk, StepLegal, Step, Knows;
    ReachableOk(conf, s);
    Renames(conf, s, m, ch);
    var s' := Step(conf, s, m, ch);
    var r := s.core.connected[m.info.id];
    assert Goes(conf, s, Iteration(m, ch), s');
    ReachNext(conf, s, Iteration(m, ch), s');
    if v in s.core.rooms[r].users {
      MembersSee(conf, s', r, v, m.info.id);
    }
  }

  // ---------- arriving, and what no step does ----------

  /** A new client is connected and in no room, and is sent nothing. */
  lemma Connects(conf: Config, s: State, m: ClientMessage, ch: Choice)
    requires StepLegal(conf, s, m, ch) && m.event.Connected?
    ensures Step(conf, s, m, ch) == s.(core := s.core.(connected := s.core.connected[m.info.id := ""],
                                                       clients := s.core.clients[m.info.id := m.info],
                                                       issued := s.core.issued + {m.info.id}))
  {
    assert s.sent + [] == s.sent;
  }

  /** A message of a client that is gone changes nothing. */
  lemma IgnoresStrangers(conf: Config, s: State, m: ClientMessage, ch: Choice)
    requires StepLegal(conf, s, m, ch) && m.info.id !in s.core.connected && !m.event.Connected?
    ensures Step(conf, s, m, ch) == s
  {
  }

  ghost predicate SameKind(c: Core, c': Core) {
    forall r | r in c.rooms && r in c'.rooms ::
      && c'.rooms[r].id == c.rooms[r].id && c'.rooms[r].mode == c.rooms[r].mode
      && c'.rooms[r].closeOnOwnerLeave == c.rooms[r].closeOnOwnerLeave
  }

  /** No step gives a room that stays another id, another mode or another way to close. */
  lemma {:induction false} RoomKindStays(conf: Config, s: State, m: ClientMessage, ch: Choice)
    requires TablesOk(conf, s.core, {}) && StepLegal(conf, s, m, ch)
    ensures SameKind(s.core, Step(conf, s, m, ch).core)
  {
    hide TablesOk, StepLegal, Step, Execute, Hangup, StepMail, ExecuteLegal, HangupLegal, HangupMail, Refusal;
    var c, u := s.core, m.info.id;
    if m.event.Connected? {
      Connects(conf, s, m, ch);
    } else if u !in c.connected {
      IgnoresStrangers(conf, s, m, ch);
    } else {
      FailsExactly(conf, c, m, ch);
      ExecuteKind(conf, c, m, ch);
      var o := Execute(conf, c, m, ch);
      match o.verdict {
        case Done => DoneStep(conf, s, m, ch);
        case Failed(reason) =>
          FailedStep(conf, s, m, ch, reason);
          HangupKind(o.core, u);
        case Panicked =>
      }
    }
  }

  lemma HangupKind(c: Core, u: Id)
    ensures SameKind(c, Hangup(c, u)) && Hangup(c, u).rooms.Keys <= c.rooms.Keys
  {
    hide ClosesRoom, SessionsOf, Revoked;
  }

  lemma {:induction false} ExecuteKind(conf: Config, c: Core, m: ClientMessage, ch: Choice)
    ensures SameKind(c, Execute(conf, c, m, ch).core)
  {
    hide Hangup, HangupMail, ExecuteJoin, ExecuteInRoom, SameKind, DisplayName, CheckAuth;
    match m.event
    case Connected => SameRooms(c, Execute(conf, c, m, ch).core);
    case Disconnected(_, _) => HangupKind(c, m.info.id);
    case Join(id, userName) => JoinKind(conf, c, m.info, id, userName, ch);
    case Create(id, _, _, userName, _) =>
      JoinKind(conf, c, m.info, id, userName, ch);
      SameRooms(c, c);
      if !Delegates(c, m.info, m.event) && id !in c.rooms {
        OtherRooms(c, Execute(conf, c, m, ch).core, id);
      }
    case _ =>
      SameRooms(c, c);
      if CurrentRoomError(c, m.info.id) == None {
        InRoomKind(c, RoomOf(c, m.info.id), m.info.id, m.event, ch);
      }
  }

  lemma SameRooms(c: Core, c': Core)
    requires c'.rooms == c.rooms
    ensures SameKind(c, c')
  {
  }

  lemma OtherRooms(c: Core, c': Core, id: string)
    requires id !in c.rooms && c'.rooms - {id} == c.rooms
    ensures SameKind(c, c')
  {
    forall r | r in c.rooms && r in c'.rooms ensures c'.rooms[r] == c.rooms[r] {
      assert (c'.rooms - {id})[r] == c'.rooms[r];
    }
  }

  lemma JoinKind(conf: Config, c: Core, info: ClientInfo, id: string, userName: string, ch: Choice)
    ensures SameKind(c, ExecuteJoin(conf, c, info, id, userName, ch).core)
  {
    hide OpenSessions, Invitations, DisplayName, CheckAuth;
  }

  lemma InRoomKind(c: Core, r: string, u: Id, e: Event, ch: Choice)
    requires r in c.rooms && (e.Name? || e.StartShare? || e.StopShare? || e.Relay?)
    ensures SameKind(c, ExecuteInRoom(c, r, u, e, ch).core)
  {
    hide OpenSessions, Invitations, Notices, HostSessionsOf, Revoked, SameKind;
    var c' := ExecuteInRoom(c, r, u, e, ch).core;
    assert c'.rooms == c.rooms[r := c'.rooms[r]];
    OneRoomKind(c, r, c');
  }

  lemma OneRoomKind(c: Core, r: string, c': Core)
    requires r in c.rooms && r in c'.rooms && c'.rooms == c.rooms[r := c'.rooms[r]]
    requires c'.rooms[r] == c.rooms[r].(users := c'.rooms[r].users, sessions := c'.rooms[r].sessions)
    ensures SameKind(c, c')
  {
  }
}
