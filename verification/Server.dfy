/**
 The room server as the program has it: rooms, users and tables that are updated in
 place, and loops over maps in an arbitrary order. Each method is proved to do what
 its function in Protocol says, for some choice that Protocol allows.
 */
module Server {
  import opened Domain
  import opened ViewOrder
  import opened Protocol
  import opened Tables
  import opened Safety
  import opened TurnServer
  import opened Outcomes

  /** xid.New: never the same id twice. */
  class IdSource {
    var drawn: set<Id>

    constructor ()
      ensures drawn == {}
    {
      drawn := {};
    }

    method New() returns (id: Id)
      modifies this
      ensures id !in old(drawn) && drawn == old(drawn) + {id}
    {
      id := [];
      var todo := drawn;
      while todo != {}
        invariant todo <= drawn
        invariant forall other | other in drawn - todo :: |other| < |id|
        decreases |todo|
      {
        var other :| other in todo;
        todo := todo - {other};
        while |id| <= |other|
          invariant forall o | o in drawn - todo - {other} :: |o| < |id|
          decreases |other| - |id|
        {
          id := id + ['0'];
        }
      }
      assert drawn - todo == drawn;
      drawn := drawn + {id};
    }
  }

  class User {
    const id: Id
    const addr: string
    const owner: bool
    var name: string
    var streaming: bool
    ghost const home: Room

    constructor (id: Id, addr: string, name: string, owner: bool, ghost home: Room)
      ensures this.id == id && this.addr == addr && this.name == name && this.owner == owner
      ensures !streaming && this.home == home
    {
      this.id, this.addr, this.name, this.owner, this.home := id, addr, name, owner, home;
      streaming := false;
    }

    ghost function State(): UserState
      reads this`name, this`streaming
    {
      UserState(id, addr, name, streaming, owner)
    }

    /** Puts the message on the user's own channel; the transcript keeps what was put. */
    method WriteTimeout(rooms: Rooms, msg: Message)
      modifies rooms`sent
      ensures rooms.sent == old(rooms.sent) + [Envelope(id, Sent(msg))]
    {
      rooms.sent := rooms.sent + [Envelope(id, Sent(msg))];
    }
  }

  class Room {
    const id: string
    const closeOnOwnerLeave: bool
    const mode: string
    var users: map<Id, User>
    var sessions: map<Id, Session>

    constructor (id: string, closeOnOwnerLeave: bool, mode: string)
      ensures this.id == id && this.closeOnOwnerLeave == closeOnOwnerLeave && this.mode == mode
      ensures users == map[] && sessions == map[]
    {
      this.id, this.closeOnOwnerLeave, this.mode := id, closeOnOwnerLeave, mode;
      users, sessions := map[], map[];
    }

    ghost predicate Valid()
      reads this`users
    {
      forall u | u in users :: users[u].id == u && users[u].home == this
    }

    ghost function UserStates(): map<Id, UserState>
      reads this`users, users.Values`name, users.Values`streaming
    {
      map u | u in users :: users[u].State()
    }

    ghost function State(): RoomState
      reads this`users, this`sessions, users.Values`name, users.Values`streaming
    {
      RoomState(id, closeOnOwnerLeave, mode, UserStates(), sessions)
    }

    /** This is the room that rooms has under its id. */
    ghost predicate Inside(rooms: Rooms)
      reads rooms`rooms
    {
      id in rooms.rooms && rooms.rooms[id] == this
    }

    lemma RevokedTwice(lookup: map<string, Entry>, ids: set<Id>, sid: Id)
      ensures Revoked(mode, Revoked(mode, lookup, ids), {sid}) == Revoked(mode, lookup, ids + {sid})
    {
      RemoveTwice(lookup, ids, {sid});
    }

    method CloseSession(rooms: Rooms, sid: Id)
      modifies this`sessions, rooms.turnServer, rooms`metrics
      ensures sessions == old(sessions) - {sid}
      ensures rooms.turnServer.lookup == Revoked(mode, old(rooms.turnServer.lookup), {sid})
      ensures rooms.metrics == old(rooms.metrics).(sessionsClosed := old(rooms.metrics).sessionsClosed + 1)
    {
      ghost var lookup := rooms.turnServer.lookup;
      if mode == MODE_TURN {
        rooms.turnServer.Disallow(HostKey(sid));
        rooms.turnServer.Disallow(ClientKey(sid));
      }
      sessions := sessions - {sid};
      rooms.metrics := rooms.metrics.(sessionsClosed := rooms.metrics.sessionsClosed + 1);
      assert lookup - {HostKey(sid)} - {ClientKey(sid)} == lookup - KeysOf({sid});
    }

    /** Whether the user was there. */
    method RemoveUser(rooms: Rooms, userID: Id) returns (removed: bool)
      modifies this`users, rooms`metrics
      ensures removed == (userID in old(users)) && users == old(users) - {userID}
      ensures rooms.metrics ==
        if removed then old(rooms.metrics).(usersLeft := old(rooms.metrics).usersLeft + 1) else old(rooms.metrics)
    {
      if userID !in users {
        assert users == users - {userID};
        return false;
      }
      users := users - {userID};
      rooms.metrics := rooms.metrics.(usersLeft := rooms.metrics.usersLeft + 1);
      return true;
    }

    /** One session of a user ends: its peer is told, if it is there. */
    method EndSession(rooms: Rooms, userID: Id, sid: Id)
      requires Valid() && sid in sessions
      modifies this`sessions, rooms.turnServer, rooms`metrics, rooms`sent
      ensures sessions == old(sessions) - {sid}
      ensures rooms.turnServer.lookup == Revoked(mode, old(rooms.turnServer.lookup), {sid})
      ensures rooms.metrics == old(rooms.metrics).(sessionsClosed := old(rooms.metrics).sessionsClosed + 1)
      ensures rooms.sent == old(rooms.sent) + Notice(old(State()), userID, sid)
    {
      var session := sessions[sid];
      var peer := if session.host == userID then session.client else session.host;
      if peer in users {
        users[peer].WriteTimeout(rooms, EndShare(sid));
      }
      CloseSession(rooms, sid);
    }

    /** How far a loop over the sessions of userID is that has ended those in closed, in that order. */
    ghost predicate Ending(rooms: Rooms, room: RoomState, lookup: map<string, Entry>, metrics: Metrics,
                           sent: seq<Envelope>, userID: Id, closed: seq<Id>, done: set<Id>)
      reads this`sessions, rooms`metrics, rooms`sent, rooms.turnServer
    {
      && Enumerates(closed, done) && done <= room.sessions.Keys
      && sessions == room.sessions - done
      && rooms.turnServer.lookup == Revoked(mode, lookup, done)
      && rooms.metrics == metrics.(sessionsClosed := metrics.sessionsClosed + |done|)
      && rooms.sent == sent + Notices(room, userID, closed)
    }

    /** Before the first round. */
    lemma EndingNone(rooms: Rooms, userID: Id)
      ensures Ending(rooms, State(), rooms.turnServer.lookup, rooms.metrics, rooms.sent, userID, [], {})
      ensures State().users.Keys == users.Keys && State().sessions == sessions
    {
      assert rooms.turnServer.lookup - KeysOf({}) == rooms.turnServer.lookup;
      assert rooms.sent + [] == rooms.sent;
    }

    lemma SessionsOfMeans(userID: Id)
      ensures SessionsOf(State(), userID) <= sessions.Keys
      ensures forall x | x in sessions ::
        x in SessionsOf(State(), userID) <==> sessions[x].host == userID || sessions[x].client == userID
    {
    }

    lemma HostSessionsOfMeans(userID: Id)
      ensures HostSessionsOf(State(), userID) <= sessions.Keys
      ensures forall x | x in sessions :: x in HostSessionsOf(State(), userID) <==> sessions[x].host == userID
    {
    }

    /** One round of such a loop. */
    method EndNext(rooms: Rooms, ghost room: RoomState, ghost lookup: map<string, Entry>, ghost metrics: Metrics,
                   ghost sent: seq<Envelope>, userID: Id, closed: seq<Id>, ghost done: set<Id>, sid: Id)
      requires Valid() && Ending(rooms, room, lookup, metrics, sent, userID, closed, done)
      requires sid in sessions && room.users.Keys == users.Keys
      modifies this`sessions, rooms.turnServer, rooms`metrics, rooms`sent
      ensures Ending(rooms, room, lookup, metrics, sent, userID, closed + [sid], done + {sid})
      ensures sessions == old(sessions) - {sid}
    {
      hide Notice, Notices, Enumerates, State, Revoked;
      NoticeSame(room, userID, sid);
      EndSession(rooms, userID, sid);
      RevokedTwice(lookup, done, sid);
      NoticesNext(room, userID, closed, done, sid);
      Associative(sent, Notices(room, userID, closed), Notice(room, userID, sid));
    }

    lemma NoticeSame(room: RoomState, userID: Id, sid: Id)
      requires users.Keys == room.users.Keys && sid in sessions && sid in room.sessions &&
        sessions[sid] == room.sessions[sid]
      ensures Notice(State(), userID, sid) == Notice(room, userID, sid)
    {
      var peer := PeerOf(room.sessions[sid], userID);
      assert peer in State().users <==> peer in users.Keys;
      assert peer in room.users <==> peer in room.users.Keys;
    }

    /** Ends the sessions of a user on either side, walking the map in any order. */
    method CloseUserSessions(rooms: Rooms, userID: Id) returns (closed: seq<Id>)
      requires Valid()
      modifies this`sessions, rooms.turnServer, rooms`metrics, rooms`sent
      ensures Ending(rooms, old(State()), old(rooms.turnServer.lookup), old(rooms.metrics), old(rooms.sent),
                     userID, closed, SessionsOf(old(State()), userID))
    {
      hide Ending, SessionsOf, State, UserStates, Valid, Revoked, Notices;
      closed := [];
      var todo := sessions.Keys;
      ghost var room, lookup, metrics, sent := State(), rooms.turnServer.lookup, rooms.metrics, rooms.sent;
      ghost var mine := SessionsOf(room, userID);
      EndingNone(rooms, userID);
      SessionsOfMeans(userID);
      assert mine - todo == {};
      while todo != {}
        invariant forall x | x in todo ::
          x in sessions && (x in mine <==> sessions[x].host == userID || sessions[x].client == userID)
        invariant Ending(rooms, room, lookup, metrics, sent, userID, closed, mine - todo)
        decreases |todo|
      {
        var sid :| sid in todo;
        ghost var done := mine - todo;
        todo := todo - {sid};
        if sessions[sid].host == userID || sessions[sid].client == userID {
          EndNext(rooms, room, lookup, metrics, sent, userID, closed, done, sid);
          closed := closed + [sid];
          assert mine - todo == done + {sid};
        } else {
          assert mine - todo == done;
        }
      }
      assert mine - todo == mine;
    }

    /** closeUserSessions and removeUser. */
    method Drop(rooms: Rooms, userID: Id) returns (closed: seq<Id>)
      requires Valid() && userID in users
      modifies this`users, this`sessions, rooms.turnServer, rooms`metrics, rooms`sent
      ensures rooms.CalmBut(old(rooms.rooms), this)
      ensures users == old(users) - {userID} && sessions == old(sessions) - SessionsOf(old(State()), userID)
      ensures forall u | u in users :: users[u].State() == old(users[u].State())
      ensures rooms.turnServer.lookup == Revoked(mode, old(rooms.turnServer.lookup), SessionsOf(old(State()), userID))
      ensures rooms.metrics == old(rooms.metrics).(usersLeft := old(rooms.metrics).usersLeft + 1,
        sessionsClosed := old(rooms.metrics).sessionsClosed + |SessionsOf(old(State()), userID)|)
      ensures Enumerates(closed, SessionsOf(old(State()), userID))
      ensures rooms.sent == old(rooms.sent) + Notices(old(State()), userID, closed)
    {
      hide Enumerates, SessionsOf, UserStates, Notices, Revoked, Valid;
      closed := CloseUserSessions(rooms, userID);
      var removed := RemoveUser(rooms, userID);
    }

    /** Ends the sessions that a user hosts. */
    method CloseHostSessions(rooms: Rooms, userID: Id) returns (closed: seq<Id>)
      requires Valid()
      modifies this`sessions, rooms.turnServer, rooms`metrics, rooms`sent
      ensures Ending(rooms, old(State()), old(rooms.turnServer.lookup), old(rooms.metrics), old(rooms.sent),
                     userID, closed, HostSessionsOf(old(State()), userID))
    {
      hide Ending, HostSessionsOf, State, UserStates, Valid, Revoked, Notices;
      closed := [];
      var todo := sessions.Keys;
      ghost var room, lookup, metrics, sent := State(), rooms.turnServer.lookup, rooms.metrics, rooms.sent;
      ghost var mine := HostSessionsOf(room, userID);
      EndingNone(rooms, userID);
      HostSessionsOfMeans(userID);
      assert mine - todo == {};
      while todo != {}
        invariant forall x | x in todo :: x in sessions && (x in mine <==> sessions[x].host == userID)
        invariant Ending(rooms, room, lookup, metrics, sent, userID, closed, mine - todo)
        decreases |todo|
      {
        var sid :| sid in todo;
        ghost var done := mine - todo;
        todo := todo - {sid};
        if sessions[sid].host == userID {
          EndNext(rooms, room, lookup, metrics, sent, userID, closed, done, sid);
          closed := closed + [sid];
          assert mine - todo == done + {sid};
        } else {
          assert mine - todo == done;
        }
      }
      assert mine - todo == mine;
    }

    /** Ends every session of the room, telling nobody. */
    method CloseAllSessions(rooms: Rooms)
      modifies this`sessions, rooms.turnServer, rooms`metrics
      ensures sessions == map[]
      ensures rooms.turnServer.lookup == Revoked(mode, old(rooms.turnServer.lookup), old(sessions).Keys)
      ensures rooms.metrics ==
        old(rooms.metrics).(sessionsClosed := old(rooms.metrics).sessionsClosed + |old(sessions)|)
    {
      var todo := sessions.Keys;
      ghost var all, lookup := sessions, rooms.turnServer.lookup;
      assert rooms.turnServer.lookup - KeysOf({}) == rooms.turnServer.lookup;
      assert all.Keys - todo == {};
      while todo != {}
        invariant todo <= all.Keys
        invariant sessions == all - (all.Keys - todo)
        invariant rooms.turnServer.lookup == Revoked(mode, lookup, all.Keys - todo)
        invariant rooms.metrics == old(rooms.metrics).(sessionsClosed :=
          old(rooms.metrics).sessionsClosed + |all.Keys - todo|)
        decreases |todo|
      {
        var sid :| sid in todo;
        ghost var done := all.Keys - todo;
        todo := todo - {sid};
        CloseSession(rooms, sid);
        RevokedTwice(lookup, done, sid);
        assert all.Keys - todo == done + {sid};
        assert all - done - {sid} == all - (done + {sid});
      }
      assert all.Keys - todo == all.Keys && |all.Keys| == |all|;
    }

    // ---------- newSession ----------

    /** The tables are those of c with the sessions of starts opened. */
    ghost predicate Opened(rooms: Rooms, c: Core, starts: seq<Start>)
      requires id in c.rooms
      reads this`sessions, rooms.turnServer, rooms`issued, rooms`metrics
    {
      var c' := OpenSessions(c, id, starts);
      && sessions == c'.rooms[id].sessions && rooms.turnServer.lookup == c'.lookup
      && rooms.issued == c'.issued && rooms.metrics == c'.metrics
    }

    lemma OpenedNext(c: Core, starts: seq<Start>, st: Start)
      requires id in c.rooms
      ensures OpenSessions(c, id, starts + [st]) == OpenSession(OpenSessions(c, id, starts), id, st)
      ensures Invitations(mode, starts + [st]) == Invitations(mode, starts) + Invitation(mode, st)
    {
      assert (starts + [st])[..|starts|] == starts;
    }

    /** The ICE servers of both ends; in turn mode, with credentials that the TURN server now accepts. */
    method IceServers(host: Id, client: Id, rooms: Rooms, sid: Id)
      returns (iceHost: Ice, iceClient: Ice, ghost hostPassword: string, ghost clientPassword: string)
      requires Valid() && host in users && client in users
      modifies rooms.turnServer
      ensures iceHost == IceFor(mode, HostKey(sid), hostPassword)
      ensures iceClient == IceFor(mode, ClientKey(sid), clientPassword)
      ensures rooms.turnServer.lookup ==
        if mode == MODE_TURN
        then Allow(Allow(old(rooms.turnServer.lookup), HostKey(sid), hostPassword, AddrOf(State(), host)),
                   ClientKey(sid), clientPassword, AddrOf(State(), client))
        else old(rooms.turnServer.lookup)
    {
      iceHost, iceClient := NoServers, NoServers;
      hostPassword, clientPassword := "", "";
      if mode == MODE_STUN {
        iceHost, iceClient := Stun, Stun;
      } else if mode == MODE_TURN {
        var hostName, hostPW := rooms.turnServer.Credentials(HostKey(sid), users[host].addr);
        var clientName, clientPW := rooms.turnServer.Credentials(ClientKey(sid), users[client].addr);
        iceHost, iceClient := Turn(hostName, hostPW), Turn(clientName, clientPW);
        hostPassword, clientPassword := hostPW, clientPW;
      }
    }

    method NewSession(host: Id, client: Id, rooms: Rooms, ghost c: Core, ghost starts: seq<Start>)
      returns (ghost st: Start)
      requires Valid() && host in users && client in users
      requires id in c.rooms && c.rooms[id].users == UserStates() && c.rooms[id].mode == mode &&
        Opened(rooms, c, starts)
      modifies this`sessions, rooms.ids, rooms.turnServer, rooms`issued, rooms`metrics, rooms`sent
      ensures st.host == host && st.client == client && st.id !in old(rooms.ids.drawn)
      ensures rooms.ids.drawn == old(rooms.ids.drawn) + {st.id}
      ensures Opened(rooms, c, starts + [st])
      ensures rooms.sent == old(rooms.sent) + Invitation(mode, st)
    {
      var sid := rooms.ids.New();
      sessions := sessions[sid := Session(host, client)];
      rooms.metrics := rooms.metrics.(sessionsCreated := rooms.metrics.sessionsCreated + 1);
      rooms.issued := rooms.issued + {sid};
      ghost var hostPassword, clientPassword;
      var iceHost, iceClient;
      iceHost, iceClient, hostPassword, clientPassword := IceServers(host, client, rooms, sid);
      users[host].WriteTimeout(rooms, HostSession(sid, client, iceHost));
      users[client].WriteTimeout(rooms, ClientSession(sid, host, iceClient));
      st := Start(sid, host, client, hostPassword, clientPassword);
      OpenedNext(c, starts, st);
    }

    /** How far a loop is that has opened the sessions of starts, one for each pair in done. */
    ghost predicate Opening(rooms: Rooms, c: Core, sent: seq<Envelope>, starts: seq<Start>, done: set<(Id, Id)>)
      requires id in c.rooms
      reads this`sessions, rooms.turnServer, rooms`issued, rooms`metrics, rooms`sent, rooms.ids
    {
      && Opened(rooms, c, starts) && StartsLegal(starts, c.issued, done)
      && rooms.issued <= rooms.ids.drawn && c.issued <= rooms.issued
      && (forall st | st in starts :: st.id in rooms.issued)
      && rooms.sent == sent + Invitations(mode, starts)
    }

    /** One round of such a loop. */
    method OpenNext(host: Id, client: Id, rooms: Rooms, ghost c: Core, ghost sent: seq<Envelope>,
                    ghost starts: seq<Start>, ghost done: set<(Id, Id)>)
      returns (ghost st: Start)
      requires Valid() && host in users && client in users
      requires id in c.rooms && c.rooms[id].users == UserStates() && c.rooms[id].mode == mode
      requires Opening(rooms, c, sent, starts, done) && (host, client) !in done
      modifies this`sessions, rooms.ids, rooms.turnServer, rooms`issued, rooms`metrics, rooms`sent
      ensures Opening(rooms, c, sent, starts + [st], done + {(host, client)})
      ensures IssuedGrow(old(rooms.issued), old(rooms.ids.drawn), rooms.issued, rooms.ids.drawn)
    {
      hide StartsLegal, OpenSessions, Invitation, UserStates, Valid;
      st := NewSession(host, client, rooms, c, starts);
      OpenedNext(c, starts, st);
      Associative(sent, Invitations(mode, starts), Invitation(mode, st));
      StartsNext(starts, c.issued, done, st);
    }

    lemma UserStateMeans(u: Id)
      requires u in users
      ensures u in UserStates() && UserStates()[u].streaming == users[u].streaming
    {
    }

    /** A session from every other user that streams to me. */
    method OpenFromStreamers(me: Id, rooms: Rooms, ghost c: Core) returns (ghost starts: seq<Start>)
      requires Valid() && me in users
      requires id in c.rooms && c.rooms[id] == State() && Opening(rooms, c, rooms.sent, [], {})
      modifies this`sessions, rooms.ids, rooms.turnServer, rooms`issued, rooms`metrics, rooms`sent
      ensures Opening(rooms, c, old(rooms.sent), starts, StreamersTo(c.rooms[id], me))
      ensures IssuedGrow(old(rooms.issued), old(rooms.ids.drawn), rooms.issued, rooms.ids.drawn)
    {
      hide Opening, UserStates, State, StreamersTo;
      starts := [];
      var todo := users.Keys;
      ghost var want, done: set<(Id, Id)> := StreamersTo(c.rooms[id], me), {};
      StreamersToMeans(c.rooms[id], me);
      assert c.rooms[id].users == UserStates() && c.rooms[id].users.Keys == users.Keys && c.rooms[id].mode == mode by {
        StateMeans();
      }
      while todo != {}
        invariant todo <= users.Keys && done <= want && forall p | p in want :: p in done <==> p.0 !in todo
        invariant Opening(rooms, c, old(rooms.sent), starts, done)
        invariant IssuedGrow(old(rooms.issued), old(rooms.ids.drawn), rooms.issued, rooms.ids.drawn)
        decreases |todo|
      {
        var u :| u in todo;
        todo := todo - {u};
        UserStateMeans(u);
        if u == me || !users[u].streaming {
          continue;
        }
        ghost var st := OpenNext(u, me, rooms, c, old(rooms.sent), starts, done);
        starts, done := starts + [st], done + {(u, me)};
      }
      assert done == want;
    }

    /** A session from me to every other user. */
    method OpenToOthers(me: Id, rooms: Rooms, ghost c: Core) returns (ghost starts: seq<Start>)
      requires Valid() && me in users
      requires id in c.rooms && c.rooms[id] == State() && Opening(rooms, c, rooms.sent, [], {})
      modifies this`sessions, rooms.ids, rooms.turnServer, rooms`issued, rooms`metrics, rooms`sent
      ensures Opening(rooms, c, old(rooms.sent), starts, ViewersOf(c.rooms[id], me))
      ensures IssuedGrow(old(rooms.issued), old(rooms.ids.drawn), rooms.issued, rooms.ids.drawn)
    {
      hide Opening, UserStates, State, ViewersOf;
      starts := [];
      var todo := users.Keys;
      ghost var want, done: set<(Id, Id)> := ViewersOf(c.rooms[id], me), {};
      ViewersOfMeans(c.rooms[id], me);
      assert c.rooms[id].users == UserStates() && c.rooms[id].users.Keys == users.Keys && c.rooms[id].mode == mode by {
        StateMeans();
      }
      while todo != {}
        invariant todo <= users.Keys && done <= want && forall p | p in want :: p in done <==> p.1 !in todo
        invariant Opening(rooms, c, old(rooms.sent), starts, done)
        invariant IssuedGrow(old(rooms.issued), old(rooms.ids.drawn), rooms.issued, rooms.ids.drawn)
        decreases |todo|
      {
        var u :| u in todo;
        todo := todo - {u};
        UserStateMeans(u);
        if u == me {
          continue;
        }
        ghost var st := OpenNext(me, u, rooms, c, old(rooms.sent), starts, done);
        starts, done := starts + [st], done + {(me, u)};
      }
      assert done == want;
    }

    // ---------- notifyInfoChanged ----------

    /** The users as current sees them, in the order of the sort. */
    method ViewFor(current: User) returns (view: seq<UserView>)
      requires Valid() && current.id in users && users[current.id] == current
      ensures IsView(view, UserStates(), current.id)
    {
      var raw: seq<UserView> := [];
      var todo := users.Keys;
      while todo != {}
        invariant todo <= users.Keys
        invariant |raw| + |todo| == |users.Keys|
        invariant forall i | 0 <= i < |raw| ::
          raw[i].id in users && raw[i].id !in todo && raw[i] == Show(users[raw[i].id].State(), current.id)
        invariant forall i, j | 0 <= i < j < |raw| :: raw[i].id != raw[j].id
        decreases |todo|
      {
        var u :| u in todo;
        todo := todo - {u};
        var user := users[u];
        raw := raw + [UserView(user.id, user.name, user.streaming, current == user, user.owner)];
      }
      view := SortViews(raw);
      SortKeeps(raw, view);
      assert UserStates().Keys == users.Keys;
      assert |UserStates()| == |UserStates().Keys|;
      forall i | 0 <= i < |view| ensures view[i] in raw {
        assert view[i] in multiset(view);
      }
    }

    lemma StateMeans()
      ensures var room := State();
        && room.id == id && room.mode == mode && room.sessions == sessions
        && room.users == UserStates() && room.users.Keys == users.Keys
    {
    }

    /** One round of notifyInfoChanged. */
    method TellOne(rooms: Rooms, u: Id, ghost note: seq<Envelope>, ghost told: set<Id>) returns (ghost e: Envelope)
      requires Valid() && u in users && u !in told && Telling(note, State(), told)
      modifies rooms`sent
      ensures rooms.sent == old(rooms.sent) + [e]
      ensures Telling(note + [e], State(), told + {u})
    {
      hide IsView, UserStates, Telling;
      var view := ViewFor(users[u]);
      users[u].WriteTimeout(rooms, RoomInfo(id, view));
      e := Envelope(u, Sent(RoomInfo(id, view)));
      StateMeans();
      TellingNext(note, State(), told, e);
    }

    method NotifyInfoChanged(rooms: Rooms) returns (ghost note: seq<Envelope>)
      requires Valid()
      modifies rooms`sent
      ensures rooms.sent == old(rooms.sent) + note
      ensures IsBroadcast(note, State())
    {
      hide State, UserStates, Telling, IsBroadcast, Valid;
      note := [];
      var todo := users.Keys;
      ghost var told: set<Id> := {};
      TellingNobody(State());
      while todo != {}
        invariant todo * told == {} && todo + told == users.Keys
        invariant rooms.sent == old(rooms.sent) + note
        invariant Telling(note, State(), told)
        decreases |todo|
      {
        var u :| u in todo;
        ghost var e := TellOne(rooms, u, note, told);
        Associative(old(rooms.sent), note, [e]);
        note := note + [e];
        todo, told := todo - {u}, told + {u};
      }
      StateMeans();
      TellingAll(note, State());
    }
  }

  datatype Lookup = InRoom(room: Room) | NoRoom(error: string)

  class Rooms {
    const config: Config
    const turnServer: InternalServer
    const ids: IdSource
    var rooms: map<string, Room>
    var connected: map<Id, string>
    var metrics: Metrics
    ghost var clients: map<Id, ClientInfo>
    ghost var issued: set<Id>
    ghost var sent: seq<Envelope>

    constructor (config: Config)
      ensures this.config == config && Valid() && Model() == INIT
      ensures fresh(turnServer) && fresh(ids) && rooms == map[]
    {
      this.config := config;
      turnServer := new InternalServer();
      ids := new IdSource();
      rooms, connected, metrics := map[], map[], Metrics(0, 0, 0, 0, 0, 0);
      clients, issued, sent := map[], {}, [];
    }

    /** The users of all rooms. */
    ghost function AllUsers(): set<User>
      reads this`rooms, rooms.Values`users
    {
      set r, u | r in rooms && u in rooms[r].users :: rooms[r].users[u]
    }

    twostate predicate SameObjects()
      reads this`rooms, rooms.Values`users
    {
      rooms == old(rooms) && AllUsers() == old(AllUsers())
    }

    twostate predicate NothingNew()
      reads this`rooms, rooms.Values`users
    {
      rooms.Values <= old(rooms.Values) && AllUsers() <= old(AllUsers())
    }

    ghost predicate Valid()
      reads this`rooms, this`issued, ids, rooms.Values`users
    {
      && (forall r | r in rooms :: rooms[r].id == r && rooms[r].Valid())
      && issued <= ids.drawn
    }

    ghost function RoomStates(): map<string, RoomState>
      reads this`rooms, rooms.Values`users, rooms.Values`sessions, AllUsers()`name, AllUsers()`streaming
    {
      map r | r in rooms :: rooms[r].State()
    }

    ghost function Tables(): Core
      reads this`connected, this`rooms, this`metrics, this`clients, this`issued, turnServer
      reads rooms.Values`users, rooms.Values`sessions, AllUsers()`name, AllUsers()`streaming
    {
      Core(connected, RoomStates(), turnServer.lookup, metrics, clients, issued)
    }

    ghost function Model(): State
      reads this, turnServer, rooms.Values`users, rooms.Values`sessions, AllUsers()`name, AllUsers()`streaming
    {
      State(Tables(), sent)
    }

    /** room and its users are as they were. */
    twostate predicate Calm(room: Room)
      reads room`users, room`sessions, room.users.Values`name, room.users.Values`streaming
    {
      room.users == old(room.users) && room.State() == old(room.State())
    }

    /** The rooms of rs other than room, and their users, are as they were. */
    twostate predicate CalmBut(rs: map<string, Room>, room: Room)
      reads rs.Values`users, rs.Values`sessions
      reads (set r, u | r in rs && u in rs[r].users :: rs[r].users[u])`name
      reads (set r, u | r in rs && u in rs[r].users :: rs[r].users[u])`streaming
    {
      forall r | r in rs && rs[r] != room :: Calm(rs[r])
    }

    /** When only room and its users changed, only its entry of the model did. */
    twostate lemma OnlyRoom(room: Room)
      requires old(Valid()) && old(room.Inside(this)) && CalmBut(old(rooms), room) && rooms == old(rooms)
      ensures RoomStates() == old(RoomStates())[room.id := room.State()]
    {
    }

    /** When no room and no user changed, the model's rooms did not. */
    twostate lemma AllCalm()
      requires rooms == old(rooms)
      requires forall r | r in rooms :: Calm(rooms[r])
      ensures RoomStates() == old(RoomStates())
    {
    }

    /** What the tables lose when room goes. */
    twostate lemma RoomGone(room: Room)
      requires old(Valid()) && old(room.Inside(this)) && CalmBut(old(rooms), room) && rooms == old(rooms) - {room.id}
      requires issued == old(issued) && ids.drawn == old(ids.drawn)
      ensures RoomStates() == old(RoomStates()) - {room.id}
      ensures Valid() && NothingNew()
    {
      forall r | r in rooms ensures Calm(rooms[r]) {
        assert rooms[r] != room;
      }
    }

    /** What the tables lose when a user is taken off room. */
    twostate lemma UserGone(room: Room, new userID: Id)
      requires old(Valid()) && old(room.Inside(this)) && CalmBut(old(rooms), room) && rooms == old(rooms)
      requires issued == old(issued) && ids.drawn == old(ids.drawn) && room.users == old(room.users) - {userID}
      requires forall u | u in room.users :: room.users[u].State() == old(room.users[u].State())
      requires room.sessions == old(room.sessions) - SessionsOf(old(room.State()), userID)
      ensures Valid() && NothingNew()
      ensures RoomStates() == old(RoomStates())[room.id := Without(old(room.State()), userID)]
    {
      assert room.State() == Without(old(room.State()), userID) by {
        assert room.UserStates() == old(room.UserStates()) - {userID};
      }
    }

    /** Takes every member of room off the connection table and tells it. */
    method ThrowOut(room: Room) returns (ghost kicked: seq<Id>)
      requires room.Valid()
      modifies this`connected, this`sent
      ensures connected == old(connected) - room.users.Keys
      ensures Enumerates(kicked, room.users.Keys) && sent == old(sent) + Goodbyes(kicked)
    {
      hide Goodbyes, Enumerates;
      kicked := [];
      var todo := room.users.Keys;
      ghost var all, done: set<Id> := room.users.Keys, {};
      ThrownOutNone(connected, sent);
      while todo != {}
        invariant todo <= all && done <= all && forall u | u in all :: u in done <==> u !in todo
        invariant connected == old(connected) - done && Enumerates(kicked, done)
        invariant sent == old(sent) + Goodbyes(kicked)
        decreases |todo|
      {
        var u :| u in todo;
        connected := connected - {u};
        room.users[u].WriteTimeout(this, CloseWriter(CLOSE_NORMAL, CLOSE_OWNER_LEFT));
        ThrownOutNext(old(connected), old(sent), kicked, done, u);
        kicked := kicked + [u];
        todo, done := todo - {u}, done + {u};
      }
      assert done == all;
    }

    /** Throws out every member and ends all sessions. */
    method TearDown(room: Room) returns (ghost kicked: seq<Id>)
      requires room.Valid()
      modifies this`connected, this`metrics, this`sent, turnServer, room`sessions
      ensures CalmBut(rooms, room) && connected == old(connected) - room.users.Keys
      ensures turnServer.lookup == Revoked(room.mode, old(turnServer.lookup), old(room.sessions).Keys)
      ensures metrics == TornDown(old(metrics), |room.users|, |old(room.sessions)|)
      ensures Enumerates(kicked, room.users.Keys) && sent == old(sent) + Goodbyes(kicked)
    {
      hide Goodbyes, Enumerates, Revoked, Room.State, Room.UserStates, Room.Valid, TornDown;
      TornDownMeans(metrics, |room.users|, |room.sessions|);
      kicked := ThrowOut(room);
      metrics := metrics.(usersLeft := metrics.usersLeft + |room.users|);
      room.CloseAllSessions(this);
    }

    /** Throws out every remaining member, ends all sessions and forgets the room. */
    method Destroy(room: Room) returns (ghost kicked: seq<Id>)
      requires Valid() && room.Inside(this)
      modifies this`connected, this`rooms, this`metrics, this`sent, turnServer, room`sessions
      ensures Valid() && NothingNew() && Tables() == Protocol.CloseRoom(old(Tables()), room.id)
      ensures Enumerates(kicked, room.users.Keys) && sent == old(sent) + Goodbyes(kicked)
    {
      hide Goodbyes, Enumerates, Protocol.CloseRoom, NothingNew, AllUsers, RoomStates, Room.State, Revoked;
      hide Valid, Room.Valid;
      hide TornDown, CalmBut, Room.UserStates;
      ghost var c := Tables();
      RoomEntry(room.id);
      kicked := TearDown(room);
      rooms := rooms - {room.id};
      metrics := metrics.(roomsClosed := metrics.roomsClosed + 1);
      RoomGone(room);
      CloseRoomFields(c, room.id, Tables());
    }

    method CloseRoom(roomID: string) returns (ghost kicked: seq<Id>)
      requires Valid()
      modifies this`connected, this`rooms, this`metrics, this`sent, turnServer, rooms.Values`sessions
      ensures Valid() && NothingNew()
      ensures roomID !in old(rooms) ==> Tables() == old(Tables()) && sent == old(sent)
      ensures roomID in old(rooms) ==>
        && Tables() == Protocol.CloseRoom(old(Tables()), roomID)
        && Enumerates(kicked, old(rooms[roomID].users.Keys)) && sent == old(sent) + Goodbyes(kicked)
    {
      hide Goodbyes, Enumerates, Protocol.CloseRoom, AllUsers, RoomStates, Room.State, Revoked, Room.Valid;
      kicked := [];
      if roomID !in rooms {
        return;
      }
      kicked := Destroy(rooms[roomID]);
    }

    /** The sessions of a user end and it is taken off its room. */
    method DropFromRoom(room: Room, userID: Id) returns (ghost closing: seq<Id>)
      requires Valid() && room.Inside(this) && userID in room.users
      modifies room`users, room`sessions, this`metrics, this`sent, turnServer
      ensures Valid() && NothingNew() && room.users == old(room.users) - {userID}
      ensures Tables() == DropUser(old(Tables()), room.id, userID)
      ensures Enumerates(closing, SessionsOf(old(room.State()), userID))
      ensures sent == old(sent) + Notices(old(room.State()), userID, closing)
    {
      hide Enumerates, DropUser, RoomStates, SessionsOf, Notices, Revoked, Valid, Without, Room.Valid, AllUsers;
      hide NothingNew, CalmBut, Room.State, Room.UserStates;
      ghost var c := Tables();
      RoomEntry(room.id);
      closing := room.Drop(this, userID);
      UserGone(room, userID);
      DropUserFields(c, room.id, userID, Tables());
    }

    /** notifyInfoChanged leaves the tables alone. */
    method Broadcast(room: Room) returns (ghost note: seq<Envelope>)
      requires Valid() && room.Inside(this)
      modifies this`sent
      ensures Valid() && SameObjects() && Tables() == old(Tables()) && room.Inside(this)
      ensures sent == old(sent) + note && IsBroadcast(note, Tables().rooms[room.id])
    {
      hide IsBroadcast, AllUsers, Valid, Room.State;
      RoomEntry(room.id);
      note := room.NotifyInfoChanged(this);
      AllCalm();
    }

    /** Nor does a message to a member. */
    method Tell(room: Room, to: Id, msg: Message)
      requires Valid() && room.Inside(this) && to in room.users
      modifies this`sent
      ensures Valid() && SameObjects() && Tables() == old(Tables())
      ensures sent == old(sent) + [Envelope(to, Sent(msg))]
    {
      hide AllUsers, Room.State;
      room.users[to].WriteTimeout(this, msg);
      AllCalm();
    }

    /** The single way out of a room. */
    method RemoveUserFromRoom(roomID: string, userID: Id)
      returns (ghost closing: seq<Id>, ghost kicked: seq<Id>, ghost farewell: seq<Envelope>)
      requires Valid()
      modifies this`connected, this`rooms, this`metrics, this`sent, turnServer
      modifies rooms.Values`users, rooms.Values`sessions
      ensures Valid() && NothingNew()
      ensures var ch := Leaving(closing, kicked, farewell);
        && LeaveLegal(old(Tables()), roomID, userID, ch)
        && Tables() == Leave(old(Tables()), roomID, userID)
        && sent == old(sent) + LeaveMail(old(Tables()), roomID, userID, ch)
    {
      hide Enumerates, DropUser, RoomStates, SessionsOf, Notices, Protocol.CloseRoom, IsBroadcast, AllUsers, Goodbyes;
      hide Room.State, Valid, Room.Valid, LeaveLegal, LeaveMail, Leave, ClosesRoom, Without;
      closing, kicked, farewell := [], [], [];
      ghost var c, sent0 := Tables(), sent;
      KeysOfModel();
      LeaveNothing(c, roomID, userID, Leaving(closing, kicked, farewell), sent);
      if roomID !in rooms {
        return;
      }
      var room := rooms[roomID];
      RoomEntry(roomID);
      if userID !in room.users {
        return;
      }
      var isOwner := room.users[userID].owner;
      OwnerEntry(room, userID);
      ClosesRoomMeans(c.rooms[roomID], userID);
      closing := DropFromRoom(room, userID);
      assert room.users.Keys == c.rooms[roomID].users.Keys - {userID} && |room.users| == |room.users.Keys|;
      if isOwner && room.closeOnOwnerLeave {
        kicked := CloseRoom(roomID);
        LeaveClosing(c, roomID, userID, Leaving(closing, kicked, farewell), sent0);
        return;
      }
      if |room.users| == 0 {
        kicked := CloseRoom(roomID);
        LeaveClosing(c, roomID, userID, Leaving(closing, kicked, farewell), sent0);
        return;
      }
      farewell := Broadcast(room);
      LeaveStaying(c, roomID, userID, Leaving(closing, kicked, farewell), sent0);
    }

    // ---------- what the handlers do to the tables ----------

    /** A user belongs to one room only, so its other users and the other rooms stay. */
    twostate lemma UserSet(room: Room, new u: Id)
      requires old(Valid()) && old(room.Inside(this)) && rooms == old(rooms) && u in old(room.users)
      requires ids.drawn == old(ids.drawn) && issued == old(issued)
      requires forall r | r in rooms ::
        rooms[r].users == old(rooms[r].users) && rooms[r].sessions == old(rooms[r].sessions)
      requires forall r | r in rooms :: forall v | v in rooms[r].users && rooms[r].users[v] != room.users[u] ::
        rooms[r].users[v].State() == old(rooms[r].users[v].State())
      ensures Valid() && SameObjects() && u in old(room.State()).users &&
        old(room.State()).users[u] == old(room.users[u].State())
      ensures RoomStates() == old(RoomStates())[room.id :=
        old(room.State()).(users := old(room.State()).users[u := room.users[u].State()])]
    {
      hide RoomStates, AllUsers;
      OneUserChanged(room, u);
      OnlyRoom(room);
      assert room.UserStates() == old(room.UserStates())[u := room.users[u].State()];
    }

    twostate lemma OneUserChanged(room: Room, new u: Id)
      requires old(Valid()) && old(room.Inside(this)) && rooms == old(rooms) && u in old(room.users)
      requires forall r | r in rooms ::
        rooms[r].users == old(rooms[r].users) && rooms[r].sessions == old(rooms[r].sessions)
      requires forall r | r in rooms :: forall v | v in rooms[r].users && rooms[r].users[v] != room.users[u] ::
        rooms[r].users[v].State() == old(rooms[r].users[v].State())
      ensures CalmBut(old(rooms), room)
      ensures forall v | v in room.users && v != u :: room.users[v].State() == old(room.users[v].State())
    {
      forall r | r in rooms && rooms[r] != room ensures Calm(rooms[r]) {
        forall v | v in rooms[r].users ensures rooms[r].users[v].State() == old(rooms[r].users[v].State()) {
          assert rooms[r].users[v].home == rooms[r];
          assert room.users[u].home == room;
        }
      }
    }

    method SetStreaming(room: Room, u: Id, streaming: bool)
      requires Valid() && room.Inside(this) && u in room.users
      modifies room.users.Values`streaming
      ensures Valid() && SameObjects() && Tables() == WithStreaming(old(Tables()), room.id, u, streaming)
    {
      hide RoomStates, AllUsers, Valid, Room.Valid, SameObjects, Room.State, Room.UserStates;
      RoomEntry(room.id);
      var user := room.users[u];
      user.streaming := streaming;
      UserSet(room, u);
    }

    method SetName(room: Room, u: Id, name: string)
      requires Valid() && room.Inside(this) && u in room.users
      modifies room.users.Values`name
      ensures Valid() && SameObjects() && Tables() == WithName(old(Tables()), room.id, u, name)
    {
      hide RoomStates, AllUsers, Valid, Room.Valid, SameObjects, Room.State, Room.UserStates;
      RoomEntry(room.id);
      var user := room.users[u];
      user.name := name;
      UserSet(room, u);
    }

    /** Only the sessions of room changed. */
    twostate lemma SessionsSet(room: Room)
      requires old(Valid()) && old(room.Inside(this)) && rooms == old(rooms) && issued <= ids.drawn
      requires forall r | r in rooms ::
        rooms[r].users == old(rooms[r].users) && rooms[r].UserStates() == old(rooms[r].UserStates())
      requires forall r | r in rooms && rooms[r] != room :: rooms[r].sessions == old(rooms[r].sessions)
      ensures Valid() && SameObjects()
      ensures RoomStates() == old(RoomStates())[room.id := old(room.State()).(sessions := room.sessions)]
    {
      hide RoomStates, AllUsers, Room.UserStates;
      OnlyRoom(room);
    }

    lemma OpeningNone(room: Room)
      requires Valid() && room.Inside(this)
      ensures room.id in Tables().rooms && room.Opening(this, Tables(), sent, [], {})
    {
      assert sent + [] == sent;
      RoomEntry(room.id);
    }

    lemma Opened(room: Room, c: Core, was: seq<Envelope>, starts: seq<Start>, done: set<(Id, Id)>)
      requires room.id in c.rooms && room.Opening(this, c, was, starts, done)
      requires connected == c.connected && clients == c.clients
      requires RoomStates() == c.rooms[room.id := c.rooms[room.id].(sessions := room.sessions)]
      ensures Tables() == OpenSessions(c, room.id, starts) && StartsLegal(starts, c.issued, done)
      ensures sent == was + Invitations(room.mode, starts)
    {
      hide RoomStates, OpenSessions, StartsLegal, Invitations;
    }

    method OpenFromStreamers(room: Room, me: Id) returns (ghost starts: seq<Start>)
      requires Valid() && room.Inside(this) && me in room.users
      modifies room`sessions, ids, turnServer, this`issued, this`metrics, this`sent
      ensures Valid() && SameObjects() && room.Inside(this)
      ensures IssuedGrow(old(issued), old(ids.drawn), issued, ids.drawn)
      ensures Tables() == OpenSessions(old(Tables()), room.id, starts)
      ensures StartsLegal(starts, old(Tables()).issued, StreamersTo(old(Tables()).rooms[room.id], me))
      ensures sent == old(sent) + Invitations(room.mode, starts)
    {
      hide RoomStates, AllUsers, Valid, Room.Valid, SameObjects, Room.State, Room.UserStates, OpenSessions;
      hide StartsLegal, Invitations;
      hide Room.Opening, StreamersTo;
      ghost var c := Tables();
      RoomEntry(room.id);
      OpeningNone(room);
      starts := room.OpenFromStreamers(me, this, c);
      SessionsSet(room);
      Opened(room, c, old(sent), starts, StreamersTo(c.rooms[room.id], me));
    }

    method OpenToOthers(room: Room, me: Id) returns (ghost starts: seq<Start>)
      requires Valid() && room.Inside(this) && me in room.users
      modifies room`sessions, ids, turnServer, this`issued, this`metrics, this`sent
      ensures Valid() && SameObjects() && room.Inside(this)
      ensures IssuedGrow(old(issued), old(ids.drawn), issued, ids.drawn)
      ensures Tables() == OpenSessions(old(Tables()), room.id, starts)
      ensures StartsLegal(starts, old(Tables()).issued, ViewersOf(old(Tables()).rooms[room.id], me))
      ensures sent == old(sent) + Invitations(room.mode, starts)
    {
      hide RoomStates, AllUsers, Valid, Room.Valid, SameObjects, Room.State, Room.UserStates, OpenSessions;
      hide StartsLegal, Invitations;
      hide Room.Opening, ViewersOf;
      ghost var c := Tables();
      RoomEntry(room.id);
      OpeningNone(room);
      starts := room.OpenToOthers(me, this, c);
      SessionsSet(room);
      Opened(room, c, old(sent), starts, ViewersOf(c.rooms[room.id], me));
    }

    /** All sessions that u hosts end. */
    method EndHosting(room: Room, u: Id) returns (ghost closing: seq<Id>)
      requires Valid() && room.Inside(this)
      modifies room`sessions, turnServer, this`metrics, this`sent
      ensures Valid() && SameObjects() && room.Inside(this)
      ensures var was := old(Tables()).rooms[room.id];
        && Tables() == CloseSessions(old(Tables()), room.id, HostSessionsOf(was, u))
        && Enumerates(closing, HostSessionsOf(was, u)) && sent == old(sent) + Notices(was, u, closing)
    {
      hide RoomStates, AllUsers, Valid, Room.Valid, SameObjects, Room.State, Room.UserStates, Notices;
      hide Enumerates, Revoked;
      hide HostSessionsOf;
      RoomEntry(room.id);
      closing := room.CloseHostSessions(this, u);
      SessionsSet(room);
    }

    /** What the tables gain when room.users[u] is new. */
    twostate lemma UserAdded(room: Room, new u: Id)
      requires old(Valid()) && old(room.Inside(this)) && rooms == old(rooms) && issued == old(issued)
      requires ids.drawn == old(ids.drawn) && CalmBut(old(rooms), room)
      requires u in room.users && fresh(room.users[u]) && room.users[u].id == u && room.users[u].home == room
      requires room.users == old(room.users)[u := room.users[u]]
      requires forall v | v in old(room.users) :: old(room.users[v]).State() == old(room.users[v].State())
      ensures Valid() && Grown()
      ensures RoomStates() == old(RoomStates())[room.id := old(room.State()).(
        users := old(room.State()).users[u := room.users[u].State()], sessions := room.sessions)]
    {
      hide RoomStates;
      OnlyRoom(room);
      assert room.UserStates() == old(room.UserStates())[u := room.users[u].State()];
    }

    /** The rooms and users that were not there before are new objects. */
    twostate predicate Grown()
      reads this`rooms, rooms.Values`users
    {
      fresh(rooms.Values - old(rooms.Values)) && forall u | u in AllUsers() && u !in old(AllUsers()) :: fresh(u)
    }

    twostate lemma SameIsGrown()
      requires SameObjects()
      ensures Grown()
    {
    }

    /** A client becomes a member of an existing room. */
    method Enter(room: Room, info: ClientInfo, name: string)
      requires Valid() && room.Inside(this)
      modifies room`users, this`connected
      ensures Valid() && Grown() && room.Inside(this) && info.id in room.users
      ensures Tables() == Admitted(old(Tables()), info, room.id, name).(metrics := old(metrics))
    {
      hide RoomStates, AllUsers, Valid, Room.Valid, Grown, Room.State, Room.UserStates;
      RoomEntry(room.id);
      var user := new User(info.id, info.addr, name, false, room);
      room.users := room.users[info.id := user];
      connected := connected[info.id := room.id];
      UserAdded(room, info.id);
    }

    /** A client founds a room with itself as its owner. */
    method Found(id: string, mode: string, closeOnOwnerLeave: bool, info: ClientInfo, name: string) returns (room: Room)
      requires Valid() && id !in rooms
      modifies this`rooms, this`connected
      ensures Valid() && Grown() && room.id == id && room.Inside(this)
      ensures Tables() == old(Tables()).(connected := old(connected)[info.id := id],
                rooms := old(RoomStates())[id := NewRoom(id, mode, closeOnOwnerLeave, info, name)])
    {
      hide RoomStates, AllUsers, Valid, Grown, Room.State;
      room := new Room(id, closeOnOwnerLeave, mode);
      var user := new User(info.id, info.addr, name, true, room);
      room.users := map[info.id := user];
      connected := connected[info.id := room.id];
      rooms := rooms[id := room];
      FounderOnly(room, user);
      RoomAdded(room);
    }

    lemma FounderOnly(room: Room, user: User)
      requires room.users == map[user.id := user] && user.home == room && room.sessions == map[]
      ensures room.Valid() && room.State() ==
        RoomState(room.id, room.closeOnOwnerLeave, room.mode, map[user.id := user.State()], map[])
    {
      assert room.UserStates() == map[user.id := user.State()];
    }

    /** What the tables gain when room is new. */
    twostate lemma RoomAdded(new room: Room)
      requires old(Valid()) && room.id !in old(rooms) && fresh(room) && rooms == old(rooms)[room.id := room]
      requires room.Valid() && forall u | u in room.users :: fresh(room.users[u])
      requires ids.drawn == old(ids.drawn) && issued == old(issued)
      requires forall r | r in old(rooms) ::
        old(rooms[r]).users == old(rooms[r].users) && old(rooms[r]).State() == old(rooms[r].State())
      ensures Valid() && Grown() && RoomStates() == old(RoomStates())[room.id := room.State()]
    {
    }

    // ---------- the handlers ----------

    /** The handler of e did what Execute says for ch: its tables, its messages, its error. */
    twostate predicate Executed(new info: ClientInfo, new e: Event, new ch: Choice, new error: Option<string>)
      reads this, turnServer, ids, rooms.Values`users, rooms.Values`sessions, AllUsers()`name, AllUsers()`streaming
    {
      var m, c := ClientMessage(info, false, e), old(Tables());
      var o := Execute(config, c, m, ch);
      && Valid() && IssuedGrow(old(issued), old(ids.drawn), issued, ids.drawn) && ExecuteLegal(config, c, m, ch)
      && Tables() == o.core && sent == old(sent) + o.out
      && o.verdict == if error.Some? then Failed(error.value) else Done
    }

    twostate lemma Executes(new info: ClientInfo, new e: Event, new ch: Choice, new error: Option<string>,
                            new o: Outcome)
      requires Valid() && IssuedGrow(old(issued), old(ids.drawn), issued, ids.drawn)
      requires ExecuteLegal(config, old(Tables()), ClientMessage(info, false, e), ch)
      requires o == Execute(config, old(Tables()), ClientMessage(info, false, e), ch)
      requires Tables() == o.core
      requires sent == old(sent) + o.out
      requires o.verdict == if error.Some? then Failed(error.value) else Done
      ensures Executed(info, e, ch, error)
    {
      hide RoomStates, AllUsers, Valid, Grown, IssuedGrow, ExecuteLegal, Execute;
    }

    /** The room that the sender of a message is in. */
    function CurrentRoom(info: ClientInfo): Lookup
      reads this`connected, this`rooms
    {
      if info.id !in connected then NoRoom("not connected")
      else
        var roomID := connected[info.id];
        if roomID == "" then NoRoom("not in a room")
        else if roomID !in rooms then NoRoom("room with id " + roomID + " does not exist")
        else InRoom(rooms[roomID])
    }

    lemma CurrentRoomMeans(info: ClientInfo)
      requires Valid()
      ensures CurrentRoomError(Tables(), info.id) ==
        match CurrentRoom(info) case NoRoom(error) => Some(error) case InRoom(_) => None
      ensures CurrentRoom(info).InRoom? ==>
        CurrentRoom(info).room.id == RoomOf(Tables(), info.id) && CurrentRoom(info).room.Inside(this)
    {
    }

    /** A client in a room has its entry there. */
    lemma InItsRoom(u: Id)
      requires Valid() && Agree(Tables()) && CurrentRoomError(Tables(), u) == None
      ensures RoomOf(Tables(), u) in rooms && u in rooms[RoomOf(Tables(), u)].users
      ensures rooms[RoomOf(Tables(), u)].users.Values <= AllUsers()
      ensures u in Tables().rooms[RoomOf(Tables(), u)].users
    {
      KeysOfModel();
    }

    method Rename(info: ClientInfo, userName: string) returns (error: Option<string>, ghost ch: Choice)
      requires Valid() && Agree(Tables())
      modifies rooms.Values`users, AllUsers()`name, this`sent
      ensures SameObjects() && Executed(info, Name(userName), ch, error)
    {
      hide RoomStates, AllUsers, Valid, WithName, IsBroadcast, Agree, CurrentRoomError, CurrentRoom;
      hide ExecuteLegal, Execute;
      ch, error := QUIET, None;
      CurrentRoomMeans(info);
      NotInRoom(config, Tables(), info, Name(userName), ch, sent);
      if CurrentRoom(info).NoRoom? {
        return Some(CurrentRoom(info).error), ch;
      }
      var room := CurrentRoom(info).room;
      InItsRoom(info.id);
      ghost var c := Tables();
      SetName(room, info.id, userName);
      ghost var note := Broadcast(room);
      ch := QUIET.(note := note);
      RenameOutcome(config, c, info, userName, ch);
    }

    method Share(info: ClientInfo) returns (error: Option<string>, ghost ch: Choice)
      requires Valid() && Agree(Tables())
      modifies rooms.Values`sessions, AllUsers()`streaming, ids, turnServer, this`issued, this`metrics, this`sent
      ensures SameObjects() && Executed(info, StartShare, ch, error)
    {
      hide RoomStates, AllUsers, Valid, Agree, CurrentRoomError, CurrentRoom, ExecuteLegal, Execute;
      ch := QUIET;
      CurrentRoomMeans(info);
      NotInRoom(config, Tables(), info, StartShare, ch, sent);
      if CurrentRoom(info).NoRoom? {
        return Some(CurrentRoom(info).error), ch;
      }
      InItsRoom(info.id);
      error, ch := ShareIn(CurrentRoom(info).room, info);
    }

    method OpenAndTell(room: Room, me: Id) returns (ghost starts: seq<Start>, ghost note: seq<Envelope>)
      requires Valid() && room.Inside(this) && me in room.users
      modifies room`sessions, ids, turnServer, this`issued, this`metrics, this`sent
      ensures Valid() && SameObjects() && IssuedGrow(old(issued), old(ids.drawn), issued, ids.drawn)
      ensures Tables() == OpenSessions(old(Tables()), room.id, starts)
      ensures StartsLegal(starts, old(Tables()).issued, ViewersOf(old(Tables()).rooms[room.id], me))
      ensures IsBroadcast(note, Tables().rooms[room.id])
      ensures sent == old(sent) + (Invitations(room.mode, starts) + note)
    {
      hide OpenSessions, StartsLegal, Invitations, ViewersOf, IsBroadcast, Tables, IssuedGrow, Valid, AllUsers;
      starts := OpenToOthers(room, me);
      note := Broadcast(room);
      Associative(old(sent), Invitations(room.mode, starts), note);
    }

    /** The room's user streams; only then is the address looked up, and that may fail. */
    method ShareIn(room: Room, info: ClientInfo) returns (error: Option<string>, ghost ch: Choice)
      requires Valid() && Agree(Tables()) && room.Inside(this)
      requires CurrentRoomError(Tables(), info.id) == None && room.id == RoomOf(Tables(), info.id)
      modifies room`sessions, room.users.Values`streaming, ids, turnServer, this`issued, this`metrics, this`sent
      ensures SameObjects() && Executed(info, StartShare, ch, error)
    {
      hide RoomStates, AllUsers, Valid, WithStreaming, IsBroadcast, Agree, CurrentRoomError, ExecuteLegal, Execute;
      hide OpenSessions, StartsLegal, Invitations, ViewersOf, Executed, Tables, IssuedGrow, Grown;
      InItsRoom(info.id);
      RoomEntry(room.id);
      NothingIssued(issued, ids.drawn);
      ghost var c, m := Tables(), ClientMessage(info, false, StartShare);
      SetStreaming(room, info.id, true);
      var ip: IpResult := *;
      ch := QUIET.(ip := ip);
      if ip.IpError? {
        error := Some(ip.reason);
        ShareFails(config, c, info, ch);
        Executes(info, StartShare, ch, error, Execute(config, c, m, ch));
        return;
      }
      ghost var starts, note := OpenAndTell(room, info.id);
      error, ch := None, QUIET.(ip := ip, starts := starts, note := note);
      ShareOutcome(config, c, info, ch);
      Executes(info, StartShare, ch, error, Execute(config, c, m, ch));
    }

    method Unshare(info: ClientInfo) returns (error: Option<string>, ghost ch: Choice)
      requires Valid() && Agree(Tables())
      modifies rooms.Values`sessions, AllUsers()`streaming, turnServer, this`metrics, this`sent
      ensures SameObjects() && Executed(info, StopShare, ch, error)
    {
      hide RoomStates, AllUsers, Valid, WithStreaming, IsBroadcast, Agree, CurrentRoomError, CurrentRoom;
      hide ExecuteLegal, Execute;
      hide CloseSessions, HostSessionsOf, Enumerates, Notices, Tables, IssuedGrow, Executed;
      ch, error := QUIET, None;
      CurrentRoomMeans(info);
      NotInRoom(config, Tables(), info, StopShare, ch, sent);
      NothingIssued(issued, ids.drawn);
      if CurrentRoom(info).NoRoom? {
        error := Some(CurrentRoom(info).error);
        Executes(info, StopShare, ch, error, Execute(config, Tables(), ClientMessage(info, false, StopShare), ch));
        return;
      }
      var room := CurrentRoom(info).room;
      InItsRoom(info.id);
      ghost var c := Tables();
      SetStreaming(room, info.id, false);
      sent := sent + [Envelope(info.id, StopShareDone)];
      ghost var closing := EndHosting(room, info.id);
      ghost var note := Broadcast(room);
      ch := QUIET.(closing := closing, note := note);
      UnshareOutcome(config, c, info, ch);
      Executes(info, StopShare, ch, error, Execute(config, c, ClientMessage(info, false, StopShare), ch));
    }

    /** HostOffer, HostICE, ClientAnswer and ClientICE; they differ in which side of the session must send. */
    method RelaySignal(info: ClientInfo, signal: Signal, sid: Id, value: string) returns (error: Option<string>)
      requires Valid() && Agree(Tables()) && Sound(Tables())
      modifies this`sent
      ensures SameObjects() && Executed(info, Relay(signal, sid, value), QUIET, error)
    {
      hide RoomStates, AllUsers, Valid, Agree, Sound, CurrentRoomError, CurrentRoom, ExecuteLegal, Execute;
      hide Tables, Room.Valid;
      hide IssuedGrow, Executed;
      ghost var m := ClientMessage(info, false, Relay(signal, sid, value));
      ghost var o := Execute(config, Tables(), m, QUIET);
      error := None;
      CurrentRoomMeans(info);
      NotInRoom(config, Tables(), info, m.event, QUIET, sent);
      NothingIssued(issued, ids.drawn);
      if CurrentRoom(info).NoRoom? {
        error := Some(CurrentRoom(info).error);
        Executes(info, m.event, QUIET, error, o);
        return;
      }
      var room := CurrentRoom(info).room;
      InItsRoom(info.id);
      RoomEntry(room.id);
      RelayOutcome(config, Tables(), info, signal, sid, value);
      if sid !in room.sessions {
        Executes(info, m.event, QUIET, error, o);
        return;
      }
      var session := room.sessions[sid];
      var mine, theirs := session.client, session.host;
      if signal.FromHost() {
        mine, theirs := session.host, session.client;
      }
      if mine != info.id {
        error := Some("permission denied for session " + sid);
        Executes(info, m.event, QUIET, error, o);
        return;
      }
      EndsAreThere(room, sid);
      Tell(room, theirs, Relayed(signal, sid, value));
      Executes(info, m.event, QUIET, error, o);
    }

    /** Both ends of a session are members. */
    lemma EndsAreThere(room: Room, sid: Id)
      requires Valid() && room.Inside(this) && Sound(Tables()) && sid in room.sessions
      ensures forall end | end == room.sessions[sid].host || end == room.sessions[sid].client ::
        end in room.users
    {
      assert SoundRoom(Tables().rooms[room.id]);
      assert Tables().rooms[room.id].users.Keys == room.users.Keys;
    }

    method JoinRoom(info: ClientInfo, id: string, userName: string) returns (error: Option<string>, ghost ch: Choice)
      requires Valid()
      modifies rooms.Values`users, rooms.Values`sessions, ids, turnServer
      modifies this`connected, this`issued, this`metrics, this`sent
      ensures Grown() && Executed(info, Join(id, userName), ch, error)
    {
      hide RoomStates, AllUsers, Valid, Grown, Tables, ExecuteLegal, Execute, IssuedGrow, Executed, JoinCheck;
      hide JoinError;
      ghost var c, m := Tables(), ClientMessage(info, false, Join(id, userName));
      ch := QUIET;
      error := JoinCheck(info, id);
      JoinCheckMeans(info, id);
      NothingIssued(issued, ids.drawn);
      if error.Some? {
        JoinFails(config, c, info, id, userName, sent);
        SameIsGrown();
        Executes(info, m.event, ch, error, Execute(config, c, m, ch));
        return;
      }
      var room, randomName: string := rooms[id], *;
      error, ch := Admit(room, info, DisplayName(info, userName, randomName));
      ch := ch.(randomName := randomName);
      JoinOutcome(config, c, info, id, userName, ch);
      Executes(info, m.event, ch, error, Execute(config, c, m, ch));
    }

    /** Why a client may not join a room, or None. */
    function JoinCheck(info: ClientInfo, id: string): Option<string>
      reads this`connected, this`rooms
    {
      if info.id in connected && connected[info.id] != "" then Some("cannot join room, you are already in one")
      else if id !in rooms then Some("room with id " + id + " does not exist")
      else CheckAuth(config, rooms[id].mode, info.authenticated)
    }

    lemma JoinCheckMeans(info: ClientInfo, id: string)
      requires Valid()
      ensures JoinCheck(info, id) == JoinError(config, Tables(), info, id)
      ensures JoinCheck(info, id) == None ==> id in rooms && rooms[id].Inside(this) && rooms[id].id == id
      ensures id in rooms ==> id in Tables().rooms && Tables().rooms[id].mode == rooms[id].mode
    {
    }

    /** The client is a member and everybody knows. */
    method EnterAndTell(room: Room, info: ClientInfo, name: string) returns (ghost note: seq<Envelope>)
      requires Valid() && room.Inside(this)
      modifies room`users, this`connected, this`metrics, this`sent
      ensures Valid() && Grown() && room.Inside(this) && info.id in room.users
      ensures Tables() == Admitted(old(Tables()), info, room.id, name)
      ensures IsBroadcast(note, Tables().rooms[room.id]) && sent == old(sent) + note
    {
      hide RoomStates, AllUsers, Valid, Grown, IsBroadcast;
      Enter(room, info, name);
      note := Broadcast(room);
      metrics := metrics.(usersJoined := metrics.usersJoined + 1);
    }

    /** Only now the address is looked up, and that may fail. */
    method Admit(room: Room, info: ClientInfo, name: string) returns (error: Option<string>, ghost ch: Choice)
      requires Valid() && room.Inside(this)
      modifies room`users, room`sessions, ids, turnServer, this`connected, this`issued, this`metrics, this`sent
      ensures Valid() && Grown() && IssuedGrow(old(issued), old(ids.drawn), issued, ids.drawn)
      ensures var c1 := Admitted(old(Tables()), info, room.id, name);
        && IsBroadcast(ch.note, c1.rooms[room.id])
        && (ch.ip.IpFound? ==> StartsLegal(ch.starts, c1.issued, StreamersTo(c1.rooms[room.id], info.id)))
        && Tables() == (if ch.ip.IpError? then c1 else OpenSessions(c1, room.id, ch.starts))
        && sent == old(sent) + if ch.ip.IpError? then ch.note else ch.note + Invitations(room.mode, ch.starts)
      ensures error == if ch.ip.IpError? then Some(ch.ip.reason) else None
    {
      hide RoomStates, AllUsers, Valid, Tables, IsBroadcast, StartsLegal, StreamersTo, OpenSessions, Invitations;
      hide IssuedGrow, Admitted;
      NothingIssued(issued, ids.drawn);
      ghost var note := EnterAndTell(room, info, name);
      var ip: IpResult := *;
      if ip.IpError? {
        return Some(ip.reason), QUIET.(ip := ip, note := note);
      }
      ghost var starts := OpenFromStreamers(room, info.id);
      Associative(old(sent), note, Invitations(room.mode, starts));
      return None, QUIET.(ip := ip, note := note, starts := starts);
    }

    method CreateRoom(info: ClientInfo, e: Event) returns (error: Option<string>, ghost ch: Choice)
      requires Valid() && e.Create?
      modifies rooms.Values`users, rooms.Values`sessions, ids, turnServer
      modifies this`rooms, this`connected, this`issued, this`metrics, this`sent
      ensures Grown() && Executed(info, e, ch, error)
    {
      hide RoomStates, AllUsers, Valid, Grown, Tables, ExecuteLegal, Execute, IssuedGrow, Executed, CreateCheck;
      hide CreateError;
      ghost var c, m := Tables(), ClientMessage(info, false, e);
      CreateCheckMeans(info, e);
      if CreateCheck(info, e) == None && e.id in rooms {
        error, ch := JoinRoom(info, e.id, e.userName);
        CreateDelegates(config, c, info, e, ch);
        ExecutedAs(info, Join(e.id, e.userName), e, ch, error);
        return;
      }
      error, ch := CreateCheck(info, e), QUIET;
      NothingIssued(issued, ids.drawn);
      if error.Some? {
        CreateFails(config, c, info, e, sent);
        SameIsGrown();
        Executes(info, e, ch, error, Execute(config, c, m, ch));
        return;
      }
      var randomName: string := *;
      ghost var note := Establish(info, e, DisplayName(info, e.userName, randomName));
      ch := ch.(randomName := randomName, note := note);
      CreateOutcome(config, c, info, e, ch);
      Executes(info, e, ch, error, Execute(config, c, m, ch));
    }

    /** Why a room may not be created, or None; None too when it exists and the client may ask to join it instead. */
    function CreateCheck(info: ClientInfo, e: Event): Option<string>
      requires e.Create?
      reads this`connected, this`rooms
    {
      if info.id in connected && connected[info.id] != "" then Some("cannot join room, you are already in one")
      else if e.id in rooms then
        if e.joinIfExist then None else Some("room with id " + e.id + " does already exist")
      else CheckAuth(config, e.mode, info.authenticated)
    }

    lemma CreateCheckMeans(info: ClientInfo, e: Event)
      requires Valid() && e.Create?
      ensures Delegates(Tables(), info, e) <==> CreateCheck(info, e) == None && e.id in rooms
      ensures !Delegates(Tables(), info, e) ==>
        CreateCheck(info, e) == CreateError(config, Tables(), info, e.id, e.mode)
    {
    }

    /** The room exists and its owner knows. */
    method Establish(info: ClientInfo, e: Event, name: string) returns (ghost note: seq<Envelope>)
      requires Valid() && e.Create? && e.id !in rooms
      modifies this`rooms, this`connected, this`metrics, this`sent
      ensures Valid() && Grown() && IsBroadcast(note, NewRoom(e.id, e.mode, e.closeOnOwnerLeave, info, name))
      ensures Tables() == Created(old(Tables()), info, e, name) && sent == old(sent) + note
    {
      hide RoomStates, AllUsers, Valid, Grown, IsBroadcast;
      var room := Found(e.id, e.mode, e.closeOnOwnerLeave, info, name);
      note := Broadcast(room);
      metrics := metrics.(usersJoined := metrics.usersJoined + 1);
      metrics := metrics.(roomsCreated := metrics.roomsCreated + 1);
    }

    /** An event that is executed as another one. */
    twostate lemma ExecutedAs(new info: ClientInfo, new e: Event, new e': Event, new ch: Choice,
                              new error: Option<string>)
      requires Executed(info, e, ch, error)
      requires var m, m' := ClientMessage(info, false, e), ClientMessage(info, false, e');
        && (ExecuteLegal(config, old(Tables()), m, ch) ==> ExecuteLegal(config, old(Tables()), m', ch))
        && Execute(config, old(Tables()), m', ch) == Execute(config, old(Tables()), m, ch)
      ensures Executed(info, e', ch, error)
    {
      hide RoomStates, AllUsers, Valid, IssuedGrow, ExecuteLegal, Execute, Tables;
    }

    /** executeNoError: off the connection table, a last message, and out of the room. */
    method HangUp(info: ClientInfo, code: int, reason: string) returns (ghost ch: Choice)
      requires Valid()
      modifies this`connected, this`rooms, this`metrics, this`sent, turnServer
      modifies rooms.Values`users, rooms.Values`sessions
      ensures Valid() && NothingNew() && HangupLegal(old(Tables()), info.id, ch)
      ensures Tables() == Hangup(old(Tables()), info.id)
      ensures sent == old(sent) + HangupMail(old(Tables()), info.id, code, reason, ch)
    {
      hide RoomStates, AllUsers, Valid, LeaveLegal, LeaveMail, Leave;
      ch := QUIET;
      var roomID := if info.id in connected then connected[info.id] else "";
      ghost var c := Tables();
      connected := connected - {info.id};
      sent := sent + [Envelope(info.id, Sent(CloseWriter(code, reason)))];
      if roomID == "" {
        return;
      }
      ghost var c1 := Tables();
      ghost var closing, kicked, farewell := RemoveUserFromRoom(roomID, info.id);
      ch := Leaving(closing, kicked, farewell);
      LeaveSame(c, c1, roomID, info.id, ch);
      Associative(old(sent), [Envelope(info.id, Sent(CloseWriter(code, reason)))], LeaveMail(c, roomID, info.id, ch));
    }

    method Connect(info: ClientInfo)
      requires Valid()
      modifies this`connected
      ensures SameObjects() && Executed(info, Connected, QUIET, None)
    {
      hide RoomStates, AllUsers, Valid;
      connected := connected[info.id := ""];
    }

    method Disconnect(info: ClientInfo, code: int, reason: string) returns (ghost ch: Choice)
      requires Valid()
      modifies this`connected, this`rooms, this`metrics, this`sent, turnServer
      modifies rooms.Values`users, rooms.Values`sessions
      ensures NothingNew() && Executed(info, Disconnected(code, reason), ch, None)
    {
      hide RoomStates, AllUsers, Valid, Hangup, HangupLegal, HangupMail;
      ch := HangUp(info, code, reason);
    }

    twostate lemma LessIsGrown()
      requires NothingNew()
      ensures Grown()
    {
      assert rooms.Values - old(rooms.Values) == {} && AllUsers() - old(AllUsers()) == {};
    }

    /** Event.Execute. */
    method Dispatch(info: ClientInfo, e: Event) returns (error: Option<string>, ghost ch: Choice)
      requires Valid() && Agree(Tables()) && Sound(Tables())
      modifies rooms.Values`users, rooms.Values`sessions, AllUsers()`name, AllUsers()`streaming, ids, turnServer
      modifies this`rooms, this`connected, this`issued, this`metrics, this`sent
      ensures Grown() && Executed(info, e, ch, error)
    {
      hide RoomStates, AllUsers, Valid, Grown, Agree, Sound, Executed;
      error, ch := None, QUIET;
      match e
      case Connected =>
        Connect(info);
        SameIsGrown();
      case Disconnected(code, reason) =>
        ch := Disconnect(info, code, reason);
        LessIsGrown();
      case Create(_, _, _, _, _) =>
        error, ch := CreateRoom(info, e);
      case Join(id, userName) =>
        error, ch := JoinRoom(info, id, userName);
      case Name(userName) =>
        error, ch := Rename(info, userName);
        SameIsGrown();
      case StartShare =>
        error, ch := Share(info);
        SameIsGrown();
      case StopShare =>
        error, ch := Unshare(info);
        SameIsGrown();
      case Relay(signal, sid, value) =>
        error := RelaySignal(info, signal, sid, value);
        SameIsGrown();
    }

    // ---------- the event loop ----------

    /** Bookkeeping: the client of a Connected message was given its id by newClient. */
    ghost method Enrol(m: ClientMessage)
      requires Valid() && TablesOk(config, Tables(), {}) && (m.event.Connected? ==> m.info.id in ids.drawn)
      modifies this`clients, this`issued
      ensures Valid() && SameObjects() && Tables() == Register(old(Tables()), m) && Agree(Tables()) && Sound(Tables())
      ensures issued <= old(issued) + NewIds(m) && clients == Enrolled(old(clients), m)
    {
      hide RoomStates, AllUsers, Agree, Sound, TablesOk;
      RegisterMeans(config, Tables(), m);
      if m.event.Connected? {
        clients, issued := clients[m.info.id := m.info], issued + {m.info.id};
      }
    }

    /** One turn of the loop: ignore, or execute and, on an error, hang up. */
    method Handle(m: ClientMessage) returns (ghost ch: Choice)
      requires Valid() && TablesOk(config, Tables(), {})
      requires Arrives(Tables(), m) && (m.event.Connected? ==> m.info.id in ids.drawn)
      modifies rooms.Values`users, rooms.Values`sessions, AllUsers()`name, AllUsers()`streaming, ids, turnServer
      modifies this`rooms, this`connected, this`issued, this`clients, this`metrics, this`sent
      ensures Valid() && Grown() && TablesOk(config, Tables(), {})
      ensures StepLegal(config, old(Model()), m, ch) && Model() == Step(config, old(Model()), m, ch)
      ensures IssuedGrow(old(issued) + NewIds(m), old(ids.drawn), issued, ids.drawn)
      ensures clients == Enrolled(old(clients), m)
    {
      hide RoomStates, AllUsers, Valid, Agree, Sound, TablesOk, Tables, Register, Ignored, Arrives, StepLegal;
      hide Step, NewIds, Enrolled;
      hide ExecuteLegal, Execute, HangupLegal, Hangup, HangupMail, IssuedGrow;
      ghost var s := Model();
      Enrol(m);
      ghost var c := Tables();
      IgnoredMeans(m);
      IssuedWithin(old(issued) + NewIds(m), issued, ids.drawn);
      ghost var issued1, drawn1 := issued, ids.drawn;
      ch := QUIET;
      if !m.skipConnectedCheck && m.info.id !in connected {
        StepIgnored(config, s, m, ch);
        StepKeeps(config, s, m, ch);
        SameIsGrown();
        return;
      }
      var error: Option<string>;
      error, ch := Dispatch(m.info, m.event);
      IssuedWeaker(old(issued) + NewIds(m), issued1, drawn1, issued, ids.drawn);
      if error == None {
        StepDone(config, s, m, ch);
        StepKeeps(config, s, m, ch);
        assert Model() == Step(config, s, m, ch);
        return;
      }
      ghost var last := HangUp(m.info, CLOSE_NORMAL, error.value);
      StepFailed(config, s, m, ch, last, error.value);
      ch := Both(ch, last);
      StepKeeps(config, s, m, ch);
      assert Model() == Step(config, s, m, ch);
    }

    lemma IgnoredMeans(m: ClientMessage)
      ensures Ignored(Tables(), m) <==> !m.skipConnectedCheck && m.info.id !in connected
    {
    }

    /** The event loop, for as long as there are messages: what it does is a run of the model. */
    method Start(incoming: seq<ClientMessage>) returns (ghost its: seq<Iteration>)
      requires Valid() && Model() == INIT && Feed(incoming, ids.drawn)
      modifies this`rooms, this`connected, this`issued, this`clients, this`metrics, this`sent, ids, turnServer
      modifies rooms.Values`users, rooms.Values`sessions, AllUsers()`name, AllUsers()`streaming
      ensures Valid() && |its| == |incoming| && forall n | 0 <= n < |its| :: its[n].m == incoming[n]
      ensures RunLegal(config, its) && Model() == Run(config, its) && Reachable(config, Model())
    {
      hide RoomStates, AllUsers, Valid, TablesOk, StepLegal, Step, Booked, Fed, Arrives, IssuedGrow, NewIds;
      hide Enrolled, Run, RunLegal, Reachable;
      its := [];
      BookedNothing(clients, issued, ids.drawn);
      RunNothing(config);
      SameIsGrown();
      for n := 0 to |incoming|
        invariant Valid() && Grown() && |its| == n && forall k | 0 <= k < n :: its[k].m == incoming[k]
        invariant RunLegal(config, its) && Model() == Run(config, its)
        invariant Booked(incoming[..n], clients, issued, old(ids.drawn), ids.drawn)
      {
        var m := incoming[n];
        ghost var clients0, issued0, drawn0 := clients, issued, ids.drawn;
        assert Fed(incoming[..n], m, old(ids.drawn));
        BookedArrives(incoming[..n], m, Tables(), old(ids.drawn), ids.drawn);
        RunKeeps(config, its);
        ghost var ch := Handle(m);
        RunNext(config, its, Iteration(m, ch));
        its := its + [Iteration(m, ch)];
        BookedNext(incoming[..n], m, clients0, issued0, clients, issued, old(ids.drawn), drawn0, ids.drawn);
        assert incoming[..n] + [m] == incoming[..n + 1];
      }
      RunReaches(config, its);
    }

    lemma KeysOfModel()
      ensures RoomStates().Keys == rooms.Keys
      ensures forall r | r in rooms :: RoomStates()[r].users.Keys == rooms[r].users.Keys
    {
    }

    lemma OwnerEntry(room: Room, u: Id)
      requires Valid() && u in room.users
      ensures u in room.State().users && room.State().users[u].owner == room.users[u].owner
    {
    }

    /** The room under an id, and its entry in the model. */
    lemma RoomEntry(r: string)
      requires Valid() && r in rooms
      ensures rooms[r].Valid() && rooms[r].Inside(this) && rooms[r].id == r && issued <= ids.drawn
      ensures r in RoomStates() && RoomStates()[r] == rooms[r].State() && Tables().rooms == RoomStates()
      ensures var room, s := rooms[r], rooms[r].State();
        && s.id == r && s.mode == room.mode && s.closeOnOwnerLeave == room.closeOnOwnerLeave
        && s.users == room.UserStates() && s.users.Keys == room.users.Keys && |s.users| == |room.users|
        && s.sessions == room.sessions
    {
      var room := rooms[r];
      assert room.State().users.Keys == room.users.Keys;
      assert |room.State().users| == |room.State().users.Keys| && |room.users| == |room.users.Keys|;
    }
  }
}
