/** Every handler keeps the invariant of the tables. */
module Handlers {
  import opened Domain
  import opened Protocol
  import opened Tables

  // ---------- entering a room ----------

  /** c' is c after user entered room r, which it was not in. */
  ghost predicate Entered(c: Core, r: string, user: UserState, c': Core) {
    && r in c.rooms && user.id in c.connected && c.connected[user.id] == "" && user.id in c.clients
    && !user.streaming && !user.owner
    && c'.rooms == c.rooms[r := c.rooms[r].(users := c.rooms[r].users[user.id := user])]
    && c'.connected == c.connected[user.id := r]
    && c'.lookup == c.lookup && c'.clients == c.clients && c'.issued == c.issued
  }

  lemma AdmittedEntered(conf: Config, c: Core, info: ClientInfo, id: string, name: string)
    requires Keyed(c) && info.id in c.connected && JoinError(conf, c, info, id) == None
    ensures Entered(c, id, UserState(info.id, info.addr, name, false, false), Admitted(c, info, id, name))
  {
  }

  lemma EnteredKeyed(c: Core, r: string, user: UserState, c': Core)
    requires Keyed(c) && Entered(c, r, user, c')
    ensures Keyed(c')
  {
  }

  lemma EnteredAgree(c: Core, r: string, user: UserState, c': Core)
    requires Agree(c) && Entered(c, r, user, c')
    ensures Agree(c')
  {
    assert user.id in c'.rooms[r].users;
  }

  lemma {:induction false} EnteredBasic(c: Core, r: string, user: UserState, c': Core)
    requires Basic(c) && Entered(c, r, user, c')
    ensures Basic(c')
  {
    hide Keyed, Agree, Entered;
    EnteredKeyed(c, r, user, c');
    EnteredAgree(c, r, user, c');
  }

  /** The sessions of the room do not involve the newcomer. */
  lemma EnteredStranger(c: Core, r: string, user: UserState, c': Core, id: Id)
    requires Basic(c) && Sessions(c) && Entered(c, r, user, c')
    requires id in c.rooms[r].sessions
    ensures c.rooms[r].sessions[id].host != user.id && c.rooms[r].sessions[id].client != user.id
  {
  }

  lemma EnteredSound(c: Core, r: string, user: UserState, c': Core)
    requires Basic(c) && Sessions(c) && Entered(c, r, user, c')
    ensures Sound(c')
  {
    hide Keyed, Agree, Mute, Distinct;
    assert SoundRoom(c.rooms[r]);
    forall id | id in c.rooms[r].sessions
      ensures c.rooms[r].sessions[id].host != user.id && c.rooms[r].sessions[id].client != user.id
    {
      EnteredStranger(c, r, user, c', id);
    }
    assert SoundRoom(c'.rooms[r]);
    forall q | q in c'.rooms && q != r ensures SoundRoom(c'.rooms[q]) {
      assert c'.rooms[q] == c.rooms[q];
    }
  }

  lemma EnteredMute(c: Core, r: string, user: UserState, c': Core)
    requires Mute(c) && Entered(c, r, user, c')
    ensures Mute(c')
  {
  }

  lemma EnteredDistinct(c: Core, r: string, user: UserState, c': Core)
    requires Distinct(c) && Entered(c, r, user, c')
    ensures Distinct(c')
  {
    forall q | q in c'.rooms ensures q in c.rooms && c'.rooms[q].sessions == c.rooms[q].sessions {
    }
  }

  lemma {:induction false} EnteredSessions(c: Core, r: string, user: UserState, c': Core)
    requires Basic(c) && Sessions(c) && Entered(c, r, user, c')
    ensures Sessions(c')
  {
    hide Basic, Sound, Mute, Distinct, Entered;
    EnteredSound(c, r, user, c');
    EnteredMute(c, r, user, c');
    EnteredDistinct(c, r, user, c');
  }

  lemma EnteredComplete(c: Core, r: string, user: UserState, c': Core)
    requires Complete(c, {}) && Entered(c, r, user, c')
    ensures Complete(c', {user.id})
  {
    forall q | q in c'.rooms ensures CompleteRoom(c'.rooms[q], {user.id}) {
      assert CompleteRoom(c.rooms[q], {});
      forall h, v | h in c'.rooms[q].users && v in c'.rooms[q].users && h != v && c'.rooms[q].users[h].streaming
                    && h != user.id && v != user.id
        ensures HasSession(c'.rooms[q], h, v)
      {
        assert HasSession(c.rooms[q], h, v);
      }
    }
  }

  /** Sessions that keep their keys keep the TURN table exact. */
  lemma TurnFrame(c: Core, c': Core)
    requires TurnExact(c) && c'.lookup == c.lookup
    requires forall q, id :: TurnSession(c', q, id) <==> TurnSession(c, q, id)
    requires forall q, id | TurnSession(c, q, id) && Keyholder(c, q, id) :: Keyholder(c', q, id)
    ensures TurnExact(c')
  {
    forall key | key in c'.lookup ensures KeyOwned(c', key) {
      assert KeyOwned(c, key);
      var r, id :| TurnSession(c, r, id) && (key == HostKey(id) || key == ClientKey(id));
      assert TurnSession(c', r, id);
    }
  }

  lemma EnteredKeyholder(c: Core, r: string, user: UserState, c': Core, q: string, id: Id)
    requires Basic(c) && Sessions(c) && Entered(c, r, user, c') && TurnSession(c, q, id) && Keyholder(c, q, id)
    ensures Keyholder(c', q, id)
  {
    if q == r {
      EnteredStranger(c, r, user, c', id);
    }
  }

  lemma {:induction false} EnteredTurn(c: Core, r: string, user: UserState, c': Core)
    requires Basic(c) && Sessions(c) && TurnExact(c) && Entered(c, r, user, c')
    ensures TurnExact(c')
  {
    forall q, id | TurnSession(c, q, id) && Keyholder(c, q, id) ensures Keyholder(c', q, id) {
      EnteredKeyholder(c, r, user, c', q, id);
    }
    hide Tables.Basic, Tables.Sessions, Keyholder, KeyOwned;
    forall q, id ensures TurnSession(c', q, id) <==> TurnSession(c, q, id) {
    }
    TurnFrame(c, c');
  }

  lemma EnteredOwners(c: Core, r: string, user: UserState, c': Core)
    requires Agree(c) && Owners(c) && Entered(c, r, user, c')
    ensures Owners(c')
  {
    if r != "" {
      assert user.id !in c.rooms[r].users;
      if c.rooms[r].closeOnOwnerLeave {
        var o :| o in c.rooms[r].users && c.rooms[r].users[o].owner;
        assert o in c'.rooms[r].users && c'.rooms[r].users[o].owner;
      }
    }
  }

  // ---------- creating a room ----------

  ghost predicate Founded(c: Core, room: RoomState, u: Id, c': Core) {
    && room.id !in c.rooms && u in c.connected && c.connected[u] == "" && u in c.clients
    && room.users.Keys == {u} && room.users[u].id == u && room.users[u].owner && !room.users[u].streaming
    && room.sessions == map[]
    && c'.rooms == c.rooms[room.id := room]
    && c'.connected == c.connected[u := room.id]
    && c'.lookup == c.lookup && c'.clients == c.clients && c'.issued == c.issued
  }

  lemma FoundedKeyed(c: Core, room: RoomState, u: Id, c': Core)
    requires Keyed(c) && Founded(c, room, u, c')
    ensures Keyed(c')
  {
  }

  lemma FoundedAgree(c: Core, room: RoomState, u: Id, c': Core)
    requires Agree(c) && Founded(c, room, u, c')
    ensures Agree(c')
  {
    assert u in room.users;
  }

  lemma {:induction false} FoundedBasic(c: Core, room: RoomState, u: Id, c': Core)
    requires Basic(c) && Founded(c, room, u, c')
    ensures Basic(c')
  {
    hide Keyed, Agree, Founded;
    FoundedKeyed(c, room, u, c');
    FoundedAgree(c, room, u, c');
  }

  lemma FoundedSessions(c: Core, room: RoomState, u: Id, c': Core)
    requires Sessions(c) && Founded(c, room, u, c')
    ensures Sessions(c')
  {
    assert forall v | v in room.users :: v in room.users.Keys && v == u;
  }

  lemma FoundedComplete(c: Core, room: RoomState, u: Id, c': Core)
    requires Complete(c, {}) && Founded(c, room, u, c')
    ensures Complete(c', {})
  {
    assert forall v | v in room.users :: v in room.users.Keys && v == u;
  }

  lemma FoundedTurn(c: Core, room: RoomState, u: Id, c': Core)
    requires TurnExact(c) && Founded(c, room, u, c')
    ensures TurnExact(c')
  {
    forall q, id ensures TurnSession(c', q, id) <==> TurnSession(c, q, id) {
    }
    TurnFrame(c, c');
  }

  lemma FoundedOwners(c: Core, room: RoomState, u: Id, c': Core)
    requires Owners(c) && Founded(c, room, u, c')
    ensures Owners(c')
  {
    assert u in room.users;
    assert forall v | v in room.users :: v in room.users.Keys && v == u;
  }

  lemma FoundedAdmission(conf: Config, c: Core, room: RoomState, u: Id, c': Core)
    requires Admission(conf, c) && Founded(c, room, u, c')
    requires CheckAuth(conf, room.mode, c.clients[u].authenticated) == None && room.users[u].addr == c.clients[u].addr
    ensures Admission(conf, c')
  {
    assert forall v | v in room.users :: v in room.users.Keys && v == u;
  }

  // ---------- opening sessions ----------

  /** A start that newSession is called with: fresh id, streaming host, another member as client. */
  ghost predicate StartFits(c: Core, r: string, st: Start) {
    && r in c.rooms && st.host in c.rooms[r].users && st.client in c.rooms[r].users
    && st.host != st.client && c.rooms[r].users[st.host].streaming && st.id !in c.issued
  }

  lemma OpenSessionSessions(c: Core, r: string, st: Start)
    requires Sessions(c) && StartFits(c, r, st)
    ensures Sessions(OpenSession(c, r, st))
  {
  }

  lemma OpenSessionTurnSession(c: Core, r: string, st: Start, q: string, id: Id)
    requires Distinct(c) && StartFits(c, r, st)
    ensures TurnSession(OpenSession(c, r, st), q, id) <==>
            TurnSession(c, q, id) || (q == r && id == st.id && c.rooms[r].mode == MODE_TURN)
  {
  }

  lemma OpenSessionNoLeak(c: Core, r: string, st: Start, key: string)
    requires Distinct(c) && TurnExact(c) && StartFits(c, r, st)
    requires key in OpenSession(c, r, st).lookup
    ensures KeyOwned(OpenSession(c, r, st), key)
  {
    if key in c.lookup {
      assert KeyOwned(c, key);
      var q, id :| TurnSession(c, q, id) && (key == HostKey(id) || key == ClientKey(id));
      OpenSessionTurnSession(c, r, st, q, id);
    } else {
      OpenSessionTurnSession(c, r, st, r, st.id);
      assert key == HostKey(st.id) || key == ClientKey(st.id);
    }
  }

  lemma OpenSessionOldKey(c: Core, r: string, st: Start, q: string, id: Id)
    requires Distinct(c) && StartFits(c, r, st) && TurnSession(c, q, id)
    requires HostKey(id) in c.lookup && ClientKey(id) in c.lookup
    ensures var l := OpenSession(c, r, st).lookup;
      && HostKey(id) in l && l[HostKey(id)] == c.lookup[HostKey(id)]
      && ClientKey(id) in l && l[ClientKey(id)] == c.lookup[ClientKey(id)]
  {
    KeysAreDistinct(id, st.id);
    KeysAreDistinct(st.id, id);
    assert id != st.id;
  }

  lemma OpenSessionNewKey(c: Core, r: string, st: Start)
    requires StartFits(c, r, st) && c.rooms[r].mode == MODE_TURN
    ensures var l := OpenSession(c, r, st).lookup; var room := c.rooms[r];
      && HostKey(st.id) in l && ClientKey(st.id) in l
      && l[HostKey(st.id)] == Entry(AddrOf(room, st.host), AuthKey(HostKey(st.id), REALM, st.hostPassword))
      && l[ClientKey(st.id)] == Entry(AddrOf(room, st.client), AuthKey(ClientKey(st.id), REALM, st.clientPassword))
  {
    KeysAreDistinct(st.id, st.id);
  }

  lemma OpenSessionKeyholder(c: Core, r: string, st: Start, q: string, id: Id)
    requires Distinct(c) && StartFits(c, r, st) && TurnSession(c, q, id) && Keyholder(c, q, id)
    ensures Keyholder(OpenSession(c, r, st), q, id)
  {
    OpenSessionOldKey(c, r, st, q, id);
  }

  lemma OpenSessionTurn(c: Core, r: string, st: Start)
    requires Distinct(c) && TurnExact(c) && StartFits(c, r, st)
    ensures TurnExact(OpenSession(c, r, st))
  {
    var c' := OpenSession(c, r, st);
    forall key | key in c'.lookup ensures KeyOwned(c', key) {
      OpenSessionNoLeak(c, r, st, key);
    }
    forall q, id | TurnSession(c', q, id) ensures Keyholder(c', q, id) {
      OpenSessionTurnSession(c, r, st, q, id);
      if TurnSession(c, q, id) {
        OpenSessionKeyholder(c, r, st, q, id);
      } else {
        OpenSessionNewKey(c, r, st);
      }
    }
  }

  /** What a list of starts is allowed to be: each fits, and no id twice. */
  ghost predicate StartsFit(c: Core, r: string, starts: seq<Start>) {
    && (forall i | 0 <= i < |starts| :: StartFits(c, r, starts[i]))
    && (forall i, j | 0 <= i < j < |starts| :: starts[i].id != starts[j].id)
  }

  function StartIds(starts: seq<Start>): set<Id> {
    set st | st in starts :: st.id
  }

  lemma {:induction false} OpenSessionsIssued(c: Core, r: string, starts: seq<Start>)
    requires r in c.rooms
    ensures OpenSessions(c, r, starts).issued == c.issued + StartIds(starts)
  {
    if starts != [] {
      var n := |starts| - 1;
      OpenSessionsIssued(c, r, starts[..n]);
      assert starts == starts[..n] + [starts[n]];
    }
  }

  /** The new ids are new, and no two are the same. */
  ghost predicate StartsFresh(sessions: map<Id, Session>, starts: seq<Start>) {
    && (forall i | 0 <= i < |starts| :: starts[i].id !in sessions)
    && (forall i, j | 0 <= i < j < |starts| :: starts[i].id != starts[j].id)
  }

  lemma FitIsFresh(c: Core, r: string, starts: seq<Start>)
    requires r in c.rooms && Distinct(c) && StartsFit(c, r, starts)
    ensures StartsFresh(c.rooms[r].sessions, starts)
  {
    forall i | 0 <= i < |starts| ensures starts[i].id !in c.rooms[r].sessions {
      assert StartFits(c, r, starts[i]);
    }
  }

  lemma StillFits(c: Core, r: string, starts: seq<Start>, st: Start)
    requires StartFits(c, r, st) && st.id !in OpenSessions(c, r, starts).issued
    ensures StartFits(OpenSessions(c, r, starts), r, st)
  {
  }

  lemma {:induction false} NextStartFits(c: Core, r: string, starts: seq<Start>)
    requires r in c.rooms && StartsFit(c, r, starts) && starts != []
    ensures StartsFit(c, r, starts[..|starts| - 1])
    ensures StartFits(OpenSessions(c, r, starts[..|starts| - 1]), r, starts[|starts| - 1])
  {
    hide StartFits, OpenSessions;
    var n := |starts| - 1;
    FitsMeans(c, r, starts[n]);
    OpenSessionsIssued(c, r, starts[..n]);
    StillFits(c, r, starts[..n], starts[n]);
  }

  lemma FitsMeans(c: Core, r: string, st: Start)
    requires StartFits(c, r, st)
    ensures st.id !in c.issued
  {
  }

  lemma {:induction false} OpenSessionsKeep(c: Core, r: string, starts: seq<Start>)
    requires r in c.rooms && Sessions(c) && TurnExact(c) && StartsFit(c, r, starts)
    ensures Sessions(OpenSessions(c, r, starts)) && TurnExact(OpenSessions(c, r, starts))
  {
    if starts != [] {
      var n := |starts| - 1;
      NextStartFits(c, r, starts);
      OpenSessionsKeep(c, r, starts[..n]);
      var c1 := OpenSessions(c, r, starts[..n]);
      OpenSessionSessions(c1, r, starts[n]);
      OpenSessionTurn(c1, r, starts[n]);
    }
  }

  lemma {:induction false} OpenSessionsAdd(c: Core, r: string, starts: seq<Start>)
    requires r in c.rooms && StartsFresh(c.rooms[r].sessions, starts)
    ensures var m := OpenSessions(c, r, starts).rooms[r].sessions;
      && (forall id | id in c.rooms[r].sessions :: id in m && m[id] == c.rooms[r].sessions[id])
      && (forall i | 0 <= i < |starts| ::
            starts[i].id in m && m[starts[i].id] == Session(starts[i].host, starts[i].client))
      && (forall id | id in m :: id in c.rooms[r].sessions || id in StartIds(starts))
  {
    if starts != [] {
      var n := |starts| - 1;
      var m0 := OpenSessions(c, r, starts[..n]).rooms[r].sessions;
      var m := OpenSessions(c, r, starts).rooms[r].sessions;
      OpenSessionsAdd(c, r, starts[..n]);
      assert m == m0[starts[n].id := Session(starts[n].host, starts[n].client)];
      forall i | 0 <= i < n
        ensures starts[i].id in m && m[starts[i].id] == Session(starts[i].host, starts[i].client)
      {
        assert starts[..n][i] == starts[i];
      }
    }
  }

  /** The pairs of a Join or StartShare make fitting starts. */
  lemma StartsLegalFit(c: Core, r: string, starts: seq<Start>, want: set<(Id, Id)>)
    requires r in c.rooms && StartsLegal(starts, c.issued, want)
    requires forall p | p in want ::
      p.0 in c.rooms[r].users && p.1 in c.rooms[r].users && p.0 != p.1 && c.rooms[r].users[p.0].streaming
    ensures StartsFit(c, r, starts)
  {
    forall i | 0 <= i < |starts| ensures StartFits(c, r, starts[i]) {
      assert (starts[i].host, starts[i].client) in want;
    }
  }

  /** After opening sessions for all pairs in want, each of them has one, and no old session is lost. */
  lemma {:induction false} OpenSessionsServe(c: Core, r: string, starts: seq<Start>, want: set<(Id, Id)>)
    requires r in c.rooms && Distinct(c) && StartsFit(c, r, starts) && StartsLegal(starts, c.issued, want)
    ensures var room' := OpenSessions(c, r, starts).rooms[r];
      && (forall p | p in want :: HasSession(room', p.0, p.1))
      && (forall h, v | HasSession(c.rooms[r], h, v) :: HasSession(room', h, v))
  {
    FitIsFresh(c, r, starts);
    OpenSessionsAdd(c, r, starts);
    var room' := OpenSessions(c, r, starts).rooms[r];
    forall p | p in want ensures HasSession(room', p.0, p.1) {
      var i :| 0 <= i < |starts| && (starts[i].host, starts[i].client) == p;
      assert room'.sessions[starts[i].id] == Session(p.0, p.1);
    }
    forall h, v | HasSession(c.rooms[r], h, v) ensures HasSession(room', h, v) {
      var id :| id in c.rooms[r].sessions && c.rooms[r].sessions[id] == Session(h, v);
      assert room'.sessions[id] == Session(h, v);
    }
  }

  lemma JoinServes(c: Core, r: string, u: Id, starts: seq<Start>)
    requires r in c.rooms && u in c.rooms[r].users && !c.rooms[r].users[u].streaming
    requires Distinct(c) && Complete(c, {u}) && (forall q | q in c.rooms && q != r :: CompleteRoom(c.rooms[q], {}))
    requires StartsFit(c, r, starts) && StartsLegal(starts, c.issued, StreamersTo(c.rooms[r], u))
    ensures Complete(OpenSessions(c, r, starts), {})
  {
    var c' := OpenSessions(c, r, starts);
    var room := c.rooms[r];
    OpenSessionsServe(c, r, starts, StreamersTo(room, u));
    forall h, v | h in room.users && v in room.users && h != v && room.users[h].streaming
      ensures HasSession(c'.rooms[r], h, v)
    {
      if v == u {
        assert (h, u) in StreamersTo(room, u);
      } else {
        assert CompleteRoom(room, {u});
      }
    }
    assert CompleteRoom(c'.rooms[r], {});
  }

  lemma {:induction false} ShareServes(c: Core, r: string, u: Id, starts: seq<Start>)
    requires r in c.rooms && u in c.rooms[r].users && Distinct(c)
    requires forall q | q in c.rooms && q != r :: CompleteRoom(c.rooms[q], {})
    requires forall h, v | h in c.rooms[r].users && v in c.rooms[r].users && h != v && h != u &&
                           c.rooms[r].users[h].streaming ::
      HasSession(c.rooms[r], h, v)
    requires StartsFit(c, r, starts) && StartsLegal(starts, c.issued, ViewersOf(c.rooms[r], u))
    ensures Complete(OpenSessions(c, r, starts), {})
  {
    var c' := OpenSessions(c, r, starts);
    var room := c.rooms[r];
    OpenSessionsServe(c, r, starts, ViewersOf(room, u));
    forall h, v | h in room.users && v in room.users && h != v && room.users[h].streaming
      ensures HasSession(c'.rooms[r], h, v)
    {
      if h == u {
        assert (u, v) in ViewersOf(room, u);
      }
    }
    assert CompleteRoom(c'.rooms[r], {});
  }

  // ---------- editing a user: Name, and StartShare up to the IP lookup ----------

  ghost predicate Edited(c: Core, r: string, u: Id, user: UserState, c': Core) {
    && r in c.rooms && r != "" && u in c.rooms[r].users
    && user == c.rooms[r].users[u].(name := user.name, streaming := user.streaming)
    && (c.rooms[r].users[u].streaming ==> user.streaming)
    && c'.rooms == c.rooms[r := c.rooms[r].(users := c.rooms[r].users[u := user])]
    && c'.connected == c.connected && c'.lookup == c.lookup && c'.clients == c.clients && c'.issued == c.issued
  }

  lemma EditedKeyed(c: Core, r: string, u: Id, user: UserState, c': Core)
    requires Keyed(c) && Edited(c, r, u, user, c')
    ensures Keyed(c')
  {
  }

  lemma EditedAgree(c: Core, r: string, u: Id, user: UserState, c': Core)
    requires Agree(c) && Edited(c, r, u, user, c')
    ensures Agree(c')
  {
    assert u in c'.rooms[r].users;
  }

  lemma {:induction false} EditedBasic(c: Core, r: string, u: Id, user: UserState, c': Core)
    requires Basic(c) && Edited(c, r, u, user, c')
    ensures Basic(c')
  {
    hide Keyed, Agree, Edited;
    EditedKeyed(c, r, u, user, c');
    EditedAgree(c, r, u, user, c');
  }

  lemma EditedSessions(c: Core, r: string, u: Id, user: UserState, c': Core)
    requires Sessions(c) && Edited(c, r, u, user, c')
    ensures Sessions(c')
  {
  }

  /** Only the pairs with u as a new host may lack a session. */
  lemma EditedComplete(c: Core, r: string, u: Id, user: UserState, c': Core)
    requires Complete(c, {}) && Edited(c, r, u, user, c')
    ensures forall q | q in c'.rooms && q != r :: CompleteRoom(c'.rooms[q], {})
    ensures forall h, v | h in c'.rooms[r].users && v in c'.rooms[r].users && h != v && c'.rooms[r].users[h].streaming
                          && (h != u || user.streaming == c.rooms[r].users[u].streaming) ::
              HasSession(c'.rooms[r], h, v)
    ensures Complete(c', {u})
  {
    assert CompleteRoom(c.rooms[r], {});
    forall h, v | h in c'.rooms[r].users && v in c'.rooms[r].users && h != v && c'.rooms[r].users[h].streaming
                  && (h != u || user.streaming == c.rooms[r].users[u].streaming)
      ensures HasSession(c'.rooms[r], h, v)
    {
      assert HasSession(c.rooms[r], h, v);
    }
    forall q | q in c'.rooms && q != r ensures CompleteRoom(c'.rooms[q], {}) {
      assert CompleteRoom(c.rooms[q], {});
    }
  }

  lemma RenamedComplete(c: Core, r: string, u: Id, user: UserState, c': Core)
    requires Complete(c, {}) && Edited(c, r, u, user, c') && user.streaming == c.rooms[r].users[u].streaming
    ensures Complete(c', {})
  {
    EditedComplete(c, r, u, user, c');
    assert CompleteRoom(c'.rooms[r], {});
  }

  lemma EditedAdmission(conf: Config, c: Core, r: string, u: Id, user: UserState, c': Core)
    requires Admission(conf, c) && Edited(c, r, u, user, c')
    ensures Admission(conf, c')
  {
  }

  lemma EditedTurn(c: Core, r: string, u: Id, user: UserState, c': Core)
    requires TurnExact(c) && Edited(c, r, u, user, c')
    ensures TurnExact(c')
  {
    forall q, id ensures TurnSession(c', q, id) <==> TurnSession(c, q, id) {
    }
    TurnFrame(c, c');
  }

  lemma EditedOwners(c: Core, r: string, u: Id, user: UserState, c': Core)
    requires Owners(c) && Edited(c, r, u, user, c')
    ensures Owners(c')
  {
    if c.rooms[r].closeOnOwnerLeave {
      var o :| o in c.rooms[r].users && c.rooms[r].users[o].owner;
      assert o in c'.rooms[r].users && c'.rooms[r].users[o].owner;
    }
  }

  // ---------- StopShare ----------

  ghost predicate Stopped(c: Core, r: string, u: Id, c': Core) {
    && r in c.rooms && u in c.rooms[r].users
    && var room := c.rooms[r];
       && c'.rooms == c.rooms[r := room.(users := room.users[u := room.users[u].(streaming := false)],
                                         sessions := room.sessions - HostSessionsOf(room, u))]
       && c'.lookup == (if room.mode == MODE_TURN then c.lookup - KeysOf(HostSessionsOf(room, u)) else c.lookup)
       && c'.connected == c.connected && c'.clients == c.clients && c'.issued == c.issued
  }

  lemma StopShareStopped(c: Core, r: string, u: Id)
    requires r in c.rooms && u in c.rooms[r].users
    ensures Stopped(c, r, u, CloseSessions(WithStreaming(c, r, u, false), r, HostSessionsOf(c.rooms[r], u)))
  {
  }

  lemma StoppedAgree(c: Core, r: string, u: Id, c': Core)
    requires Agree(c) && Stopped(c, r, u, c')
    ensures Agree(c')
  {
    assert u in c'.rooms[r].users;
  }

  lemma StoppedKeyed(c: Core, r: string, u: Id, c': Core)
    requires Keyed(c) && Stopped(c, r, u, c')
    ensures Keyed(c')
  {
    forall q, v | q in c'.rooms && v in c'.rooms[q].users
      ensures c'.rooms[q].users[v].id == v && v in c'.clients
    {
      var w := c.rooms[q].users[v];
      assert w.id == v;
      if q == r {
        assert c'.rooms[q].users[v].id == w.id;
      }
    }
  }

  lemma StoppedSessions(c: Core, r: string, u: Id, c': Core)
    requires Sessions(c) && Stopped(c, r, u, c')
    ensures Sessions(c')
  {
  }

  lemma StoppedComplete(c: Core, r: string, u: Id, c': Core)
    requires Complete(c, {}) && Stopped(c, r, u, c')
    ensures Complete(c', {})
  {
    forall q | q in c'.rooms ensures CompleteRoom(c'.rooms[q], {}) {
      assert CompleteRoom(c.rooms[q], {});
      forall h, v | h in c'.rooms[q].users && v in c'.rooms[q].users && h != v && c'.rooms[q].users[h].streaming
        ensures HasSession(c'.rooms[q], h, v)
      {
        assert HasSession(c.rooms[q], h, v);
        var id :| id in c.rooms[q].sessions && c.rooms[q].sessions[id] == Session(h, v);
        assert id in c'.rooms[q].sessions;
      }
    }
  }

  lemma StoppedTurnSession(c: Core, r: string, u: Id, c': Core, q: string, id: Id)
    requires Distinct(c) && Stopped(c, r, u, c')
    ensures TurnSession(c', q, id) <==> TurnSession(c, q, id) && id !in HostSessionsOf(c.rooms[r], u)
  {
  }

  lemma StoppedKeyholder(c: Core, r: string, u: Id, c': Core, q: string, id: Id)
    requires Distinct(c) && Stopped(c, r, u, c') && TurnSession(c', q, id) && Keyholder(c, q, id)
    ensures Keyholder(c', q, id)
  {
    StoppedTurnSession(c, r, u, c', q, id);
    KeysOfMembers(HostSessionsOf(c.rooms[r], u), id);
  }

  lemma StoppedTurn(c: Core, r: string, u: Id, c': Core)
    requires Distinct(c) && TurnExact(c) && Stopped(c, r, u, c')
    ensures TurnExact(c')
  {
    forall key | key in c'.lookup ensures KeyOwned(c', key) {
      assert KeyOwned(c, key);
      var q, id :| TurnSession(c, q, id) && (key == HostKey(id) || key == ClientKey(id));
      StoppedTurnSession(c, r, u, c', q, id);
      KeysOfMembers(HostSessionsOf(c.rooms[r], u), id);
    }
    forall q, id | TurnSession(c', q, id) ensures Keyholder(c', q, id) {
      StoppedTurnSession(c, r, u, c', q, id);
      StoppedKeyholder(c, r, u, c', q, id);
    }
  }

  lemma StoppedAdmission(conf: Config, c: Core, r: string, u: Id, c': Core)
    requires Admission(conf, c) && Stopped(c, r, u, c')
    ensures Admission(conf, c')
  {
  }

  lemma StoppedOwners(c: Core, r: string, u: Id, c': Core)
    requires Owners(c) && Stopped(c, r, u, c')
    ensures Owners(c')
  {
    if r != "" && c.rooms[r].closeOnOwnerLeave {
      var o :| o in c.rooms[r].users && c.rooms[r].users[o].owner;
      assert o in c'.rooms[r].users && c'.rooms[r].users[o].owner;
    }
  }
}
