/** What holds of the three tables between two turns of the event loop, and that every handler keeps it. */
module Tables {
  import opened Domain
  import opened Protocol

  // ---------- the invariant ----------

  /** Stored ids equal their keys, and every stored client has connected. */
  ghost predicate Keyed(c: Core) {
    && (forall u | u in c.clients :: c.clients[u].id == u && u in c.issued)
    && (forall u | u in c.connected :: u in c.clients)
    && (forall r | r in c.rooms :: c.rooms[r].id == r)
    && (forall r | r in c.rooms :: forall u | u in c.rooms[r].users :: c.rooms[r].users[u].id == u && u in c.clients)
  }

  /** Room tables and connection table agree, and no room is empty. */
  ghost predicate Agree(c: Core) {
    && (forall u | u in c.connected && c.connected[u] != "" ::
          c.connected[u] in c.rooms && u in c.rooms[c.connected[u]].users)
    && (forall r | r in c.rooms && r != "" ::
          forall u | u in c.rooms[r].users :: u in c.connected && c.connected[u] == r)
    && (forall r | r in c.rooms :: c.rooms[r].users != map[])
  }

  ghost predicate SoundRoom(room: RoomState) {
    forall id | id in room.sessions ::
      var s := room.sessions[id];
      s.host != s.client && s.host in room.users && s.client in room.users && room.users[s.host].streaming
  }

  ghost predicate HasSession(room: RoomState, host: Id, client: Id) {
    exists id :: id in room.sessions && room.sessions[id] == Session(host, client)
  }

  /** Every streaming user has a session to every other user; pairs with an id in but are not promised. */
  ghost predicate CompleteRoom(room: RoomState, but: set<Id>) {
    forall h, v | h in room.users && v in room.users && h != v && room.users[h].streaming && h !in but && v !in but ::
      HasSession(room, h, v)
  }

  ghost predicate Sound(c: Core) {
    forall r | r in c.rooms :: SoundRoom(c.rooms[r])
  }

  ghost predicate Complete(c: Core, but: set<Id>) {
    forall r | r in c.rooms :: CompleteRoom(c.rooms[r], but)
  }

  /** Nobody streams in the room with the empty id. */
  ghost predicate Mute(c: Core) {
    "" in c.rooms ==> forall u | u in c.rooms[""].users :: !c.rooms[""].users[u].streaming
  }

  /** Session ids were issued, and no two rooms share one. */
  ghost predicate Distinct(c: Core) {
    && (forall r | r in c.rooms :: forall id | id in c.rooms[r].sessions :: id in c.issued)
    && (forall r, q, id | r in c.rooms && q in c.rooms && id in c.rooms[r].sessions && id in c.rooms[q].sessions ::
          r == q)
  }

  /** A live session of a turn-mode room. */
  ghost predicate TurnSession(c: Core, r: string, id: Id) {
    r in c.rooms && c.rooms[r].mode == MODE_TURN && id in c.rooms[r].sessions
  }

  ghost predicate HasKeys(lookup: map<string, Entry>, id: Id, hostAddr: string, clientAddr: string) {
    && HostKey(id) in lookup && lookup[HostKey(id)].addr == hostAddr
    && ClientKey(id) in lookup && lookup[ClientKey(id)].addr == clientAddr
  }

  /** The two keys of a session are in the table, with the addresses of its ends. */
  ghost predicate Keyholder(c: Core, r: string, id: Id) {
    r in c.rooms && id in c.rooms[r].sessions &&
    var s := c.rooms[r].sessions[id];
    HasKeys(c.lookup, id, AddrOf(c.rooms[r], s.host), AddrOf(c.rooms[r], s.client))
  }

  ghost predicate KeyOwned(c: Core, key: string) {
    exists r, id :: TurnSession(c, r, id) && (key == HostKey(id) || key == ClientKey(id))
  }

  /** The credential table holds the two keys of each live turn session, and nothing else. */
  ghost predicate TurnExact(c: Core) {
    && (forall key | key in c.lookup :: KeyOwned(c, key))
    && (forall r, id | TurnSession(c, r, id) :: Keyholder(c, r, id))
  }

  /** At most one owner, and exactly one where the room closes with its owner. */
  ghost predicate OwnersRoom(room: RoomState) {
    && (forall u, v | u in room.users && v in room.users && room.users[u].owner && room.users[v].owner :: u == v)
    && (room.closeOnOwnerLeave ==> exists u :: u in room.users && room.users[u].owner)
  }

  ghost predicate Owners(c: Core) {
    forall r | r in c.rooms && r != "" :: OwnersRoom(c.rooms[r])
  }

  /** Every member passed the check of its room, with the login state and the address it connected with. */
  ghost predicate Admission(conf: Config, c: Core) {
    forall r | r in c.rooms :: forall u | u in c.rooms[r].users && u in c.clients ::
      && CheckAuth(conf, c.rooms[r].mode, c.clients[u].authenticated) == None
      && c.rooms[r].users[u].addr == c.clients[u].addr
  }

  ghost predicate Basic(c: Core) {
    Keyed(c) && Agree(c)
  }

  ghost predicate Sessions(c: Core) {
    Sound(c) && Mute(c) && Distinct(c)
  }

  // ---------- keys of the TURN table ----------

  lemma KeysAreDistinct(a: Id, b: Id)
    ensures HostKey(a) != ClientKey(b)
    ensures HostKey(a) == HostKey(b) ==> a == b
    ensures ClientKey(a) == ClientKey(b) ==> a == b
  {
    assert HostKey(a)[|a| + 2] == 's';
    assert ClientKey(b)[|b| + 4] == 'n';
    if HostKey(a) == HostKey(b) {
      assert a == HostKey(a)[..|a|] && b == HostKey(b)[..|b|];
    }
    if ClientKey(a) == ClientKey(b) {
      assert a == ClientKey(a)[..|a|] && b == ClientKey(b)[..|b|];
    }
  }

  lemma KeysOfMembers(ids: set<Id>, id: Id)
    ensures HostKey(id) in KeysOf(ids) <==> id in ids
    ensures ClientKey(id) in KeysOf(ids) <==> id in ids
  {
    forall k ensures HostKey(id) != ClientKey(k) && HostKey(k) != ClientKey(id)
      ensures HostKey(id) == HostKey(k) ==> id == k
      ensures ClientKey(id) == ClientKey(k) ==> id == k
    {
      KeysAreDistinct(id, k);
      KeysAreDistinct(k, id);
    }
  }

  // ---------- hanging up ----------

  /** The member that hangs up, its room, and whether the room goes. */
  ghost predicate Member(c: Core, u: Id) {
    u in c.connected && c.connected[u] != "" && c.connected[u] in c.rooms && u in c.rooms[c.connected[u]].users
  }

  /** The sessions that end when u hangs up. */
  function Ended(c: Core, u: Id): set<Id>
    requires Member(c, u)
  {
    var room := c.rooms[c.connected[u]];
    if ClosesRoom(room, u) then room.sessions.Keys else SessionsOf(room, u)
  }

  lemma KeysOfUnion(a: set<Id>, b: set<Id>)
    ensures KeysOf(a + b) == KeysOf(a) + KeysOf(b)
  {
  }

  lemma HangupRooms(c: Core, u: Id)
    requires Member(c, u)
    ensures var r := c.connected[u]; var room := c.rooms[r];
      Hangup(c, u).rooms == if ClosesRoom(room, u) then c.rooms - {r} else c.rooms[r := Without(room, u)]
  {
    hide ClosesRoom, Without, SessionsOf, Revoked;
    var r := c.connected[u];
    var room := Without(c.rooms[r], u);
    PutAndRemoved(c.rooms, r, room);
    var rooms := c.rooms[r := room];
    PutTwice(c.rooms, r, room, room.(sessions := room.sessions - room.sessions.Keys));
    PutAndRemoved(c.rooms, r, room.(sessions := room.sessions - room.sessions.Keys));
  }

  lemma PutAndRemoved(rooms: map<string, RoomState>, r: string, room: RoomState)
    ensures rooms[r := room] - {r} == rooms - {r}
  {
  }

  lemma PutTwice(rooms: map<string, RoomState>, r: string, room: RoomState, room': RoomState)
    ensures rooms[r := room][r := room'] == rooms[r := room']
  {
  }

  lemma HangupConnected(c: Core, u: Id)
    requires Member(c, u)
    ensures var room := c.rooms[c.connected[u]];
      Hangup(c, u).connected == c.connected - if ClosesRoom(room, u) then room.users.Keys else {u}
  {
    var room := c.rooms[c.connected[u]];
    assert (room.users - {u}).Keys == room.users.Keys - {u};
    assert c.connected - {u} - (room.users.Keys - {u}) == c.connected - room.users.Keys;
  }

  lemma RemoveTwice(lookup: map<string, Entry>, mine: set<Id>, rest: set<Id>)
    ensures lookup - KeysOf(mine) - KeysOf(rest) == lookup - KeysOf(mine + rest)
  {
    KeysOfUnion(mine, rest);
  }

  lemma {:induction false} HangupLookup(c: Core, u: Id)
    requires Member(c, u)
    ensures Hangup(c, u).lookup ==
      if c.rooms[c.connected[u]].mode == MODE_TURN then c.lookup - KeysOf(Ended(c, u)) else c.lookup
  {
    var r := c.connected[u];
    var room := c.rooms[r];
    var c2 := DropUser(c.(connected := c.connected - {u}), r, u);
    if ClosesRoom(room, u) {
      var mine := SessionsOf(room, u);
      var rest := c2.rooms[r].sessions.Keys;
      assert rest == (room.sessions - mine).Keys;
      assert mine + rest == room.sessions.Keys;
      assert Hangup(c, u).lookup == CloseRoom(c2, r).lookup;
      RemoveTwice(c.lookup, mine, rest);
    }
  }

  /** c' is c after u hung up, table by table. */
  ghost predicate HungUp(c: Core, u: Id, c': Core) {
    && c'.clients == c.clients && c'.issued == c.issued
    && if RoomOf(c, u) == "" then
         c'.rooms == c.rooms && c'.connected == c.connected - {u} && c'.lookup == c.lookup
       else
         && Member(c, u)
         && var r := c.connected[u]; var room := c.rooms[r];
            && c'.rooms == (if ClosesRoom(room, u) then c.rooms - {r} else c.rooms[r := Without(room, u)])
            && c'.connected == c.connected - (if ClosesRoom(room, u) then room.users.Keys else {u})
            && c'.lookup == (if room.mode == MODE_TURN then c.lookup - KeysOf(Ended(c, u)) else c.lookup)
  }

  lemma {:induction false} HangupHungUp(c: Core, u: Id)
    requires Agree(c)
    ensures HungUp(c, u, Hangup(c, u))
  {
    if RoomOf(c, u) != "" {
      HangupRooms(c, u);
      HangupConnected(c, u);
      HangupLookup(c, u);
    }
  }

  lemma OthersRemain(room: RoomState, u: Id)
    requires u in room.users && room.users.Keys != {u}
    ensures Without(room, u).users != map[]
  {
    var rest := room.users.Keys - {u};
    assert room.users.Keys == {u} + rest;
    var v :| v in rest;
    assert v in Without(room, u).users;
  }

  lemma HangupKeyed(c: Core, u: Id, c': Core)
    requires Keyed(c) && HungUp(c, u, c')
    ensures Keyed(c')
  {
  }

  lemma HangupAgree(c: Core, u: Id, c': Core)
    requires Agree(c) && HungUp(c, u, c')
    ensures Agree(c')
  {
    if RoomOf(c, u) != "" {
      var room := c.rooms[c.connected[u]];
      if ClosesRoom(room, u) {
        forall r, v | r in c'.rooms && r != "" && v in c'.rooms[r].users
          ensures v in c'.connected && c'.connected[v] == r
        {
          assert c.connected[v] == r && v !in room.users;
        }
      } else {
        OthersRemain(room, u);
      }
    }
  }

  lemma HangupSessions(c: Core, u: Id, c': Core)
    requires Sessions(c) && HungUp(c, u, c')
    ensures Sessions(c')
  {
  }

  lemma WithoutComplete(room: RoomState, u: Id)
    requires CompleteRoom(room, {u})
    ensures CompleteRoom(Without(room, u), {})
  {
    var room' := Without(room, u);
    forall h, v | h in room'.users && v in room'.users && h != v && room'.users[h].streaming
      ensures HasSession(room', h, v)
    {
      var id :| id in room.sessions && room.sessions[id] == Session(h, v);
      assert id in room'.sessions;
    }
  }

  /** Where u is not a member, or nobody streams, leaving out the pairs of u leaves out nothing. */
  lemma CompleteElsewhere(c: Core, r: string, u: Id)
    requires Agree(c) && Mute(c) && r in c.rooms && (r == "" || r != RoomOf(c, u))
    requires CompleteRoom(c.rooms[r], {u})
    ensures CompleteRoom(c.rooms[r], {})
  {
  }

  lemma {:induction false} HangupComplete(c: Core, u: Id, c': Core)
    requires Agree(c) && Mute(c) && Complete(c, {u}) && HungUp(c, u, c')
    ensures Complete(c', {})
  {
    forall r | r in c'.rooms
      ensures CompleteRoom(c'.rooms[r], {})
    {
      if RoomOf(c, u) == "" || r != RoomOf(c, u) {
        assert c'.rooms[r] == c.rooms[r];
        CompleteElsewhere(c, r, u);
      } else {
        WithoutComplete(c.rooms[r], u);
      }
    }
  }

  lemma HangupOwners(c: Core, u: Id, c': Core)
    requires Owners(c) && HungUp(c, u, c')
    ensures Owners(c')
  {
    if RoomOf(c, u) != "" {
      var room := c.rooms[c.connected[u]];
      if !ClosesRoom(room, u) && room.closeOnOwnerLeave {
        var o :| o in room.users && room.users[o].owner;
        assert o in Without(room, u).users;
      }
    }
  }

  lemma HangupAdmission(conf: Config, c: Core, u: Id, c': Core)
    requires Admission(conf, c) && HungUp(c, u, c')
    ensures Admission(conf, c')
  {
  }

  /** A session survives, with its room, exactly when it is not among the ended ones. */
  lemma HangupTurnSession(c: Core, u: Id, c': Core, r: string, id: Id)
    requires HungUp(c, u, c') && Distinct(c)
    ensures TurnSession(c', r, id) <==> TurnSession(c, r, id) && (RoomOf(c, u) != "" ==> id !in Ended(c, u))
  {
  }

  lemma HangupTurnNoLeak(c: Core, u: Id, c': Core, key: string)
    requires Distinct(c) && KeyOwned(c, key) && HungUp(c, u, c')
    requires key in c'.lookup
    ensures KeyOwned(c', key)
  {
    var r, id :| TurnSession(c, r, id) && (key == HostKey(id) || key == ClientKey(id));
    if RoomOf(c, u) != "" {
      KeysOfMembers(Ended(c, u), id);
    }
    HangupTurnSession(c, u, c', r, id);
  }

  lemma HangupRoomKept(c: Core, u: Id, c': Core, r: string, id: Id)
    requires Sound(c) && HungUp(c, u, c')
    requires r in c'.rooms && id in c'.rooms[r].sessions
    ensures r in c.rooms && id in c.rooms[r].sessions && c'.rooms[r].sessions[id] == c.rooms[r].sessions[id]
    ensures var s := c.rooms[r].sessions[id];
      AddrOf(c'.rooms[r], s.host) == AddrOf(c.rooms[r], s.host) &&
        AddrOf(c'.rooms[r], s.client) == AddrOf(c.rooms[r], s.client)
  {
  }

  lemma HangupKeysKept(c: Core, u: Id, c': Core, r: string, id: Id)
    requires Distinct(c) && HungUp(c, u, c') && TurnSession(c', r, id)
    requires HostKey(id) in c.lookup && ClientKey(id) in c.lookup
    ensures HostKey(id) in c'.lookup && c'.lookup[HostKey(id)] == c.lookup[HostKey(id)]
    ensures ClientKey(id) in c'.lookup && c'.lookup[ClientKey(id)] == c.lookup[ClientKey(id)]
  {
    HangupTurnSession(c, u, c', r, id);
    if RoomOf(c, u) != "" {
      KeysOfMembers(Ended(c, u), id);
    }
  }

  lemma HangupKeyholder(c: Core, u: Id, c': Core, r: string, id: Id)
    requires Sound(c) && Distinct(c) && HungUp(c, u, c') && TurnSession(c', r, id) && Keyholder(c, r, id)
    ensures Keyholder(c', r, id)
  {
    HangupRoomKept(c, u, c', r, id);
    HangupKeysKept(c, u, c', r, id);
  }

  lemma HangupTurn(c: Core, u: Id, c': Core)
    requires Sound(c) && Distinct(c) && TurnExact(c) && HungUp(c, u, c')
    ensures TurnExact(c')
  {
    forall key | key in c'.lookup ensures KeyOwned(c', key) {
      HangupTurnNoLeak(c, u, c', key);
    }
    forall r, id | TurnSession(c', r, id) ensures Keyholder(c', r, id) {
      HangupTurnSession(c, u, c', r, id);
      HangupKeyholder(c, u, c', r, id);
    }
  }
}
