/** What every client knows agrees with the tables, after every turn of the event loop. */
module Knowledge {
  import opened Domain
  import opened Protocol
  import opened Tables
  import opened Handlers
  import opened Mirror
  import opened Safety

  // ---------- the invariant, client by client ----------

  /** The live sessions of v's room. */
  function Live(c: Core, v: Id): map<Id, Session> {
    if RoomOf(c, v) in c.rooms then c.rooms[RoomOf(c, v)].sessions else map[]
  }

  /** The servers a client was given work: in turn mode, its credential is the one in the table. */
  ghost predicate IceOk(mode: string, lookup: map<string, Entry>, key: string, ice: Ice) {
    if mode == MODE_TURN then
      && ice.Turn? && ice.username == key
      && Authenticate(lookup, key) == Some(AuthKey(key, REALM, ice.credential))
    else ice == if mode == MODE_STUN then Stun else NoServers
  }

  ghost predicate SeatOk(c: Core, r: string, key: string, peer: Id, seat: Seat) {
    r in c.rooms && seat.peer == peer && IceOk(c.rooms[r].mode, c.lookup, key, seat.ice)
  }

  ghost predicate WatchingOk(c: Core, v: Id, k: Client) {
    && (forall id :: id in k.watching <==> id in Live(c, v) && Live(c, v)[id].client == v)
    && (forall id | id in k.watching :: SeatOk(c, RoomOf(c, v), ClientKey(id), Live(c, v)[id].host, k.watching[id]))
  }

  ghost predicate HostingOk(c: Core, v: Id, k: Client) {
    && (forall id :: id in k.hosting <==> id in Live(c, v) && Live(c, v)[id].host == v)
    && (forall id | id in k.hosting :: SeatOk(c, RoomOf(c, v), HostKey(id), Live(c, v)[id].client, k.hosting[id]))
  }

  /** A connected client knows exactly its live sessions, with the right peer and a working credential. */
  ghost predicate MirrorOk(c: Core, v: Id, k: Client) {
    v in c.connected ==> WatchingOk(c, v, k) && HostingOk(c, v, k)
  }

  /**
   A client is connected until it was sent CloseWriter, once. Unless there is a room
   with the empty id, it is sent nothing after that.
   */
  ghost predicate ClosesOk(c: Core, v: Id, k: Client) {
    && (if v in c.clients then k.closes == if v in c.connected then 0 else 1 else k == NEW_CLIENT)
    && ("" !in c.rooms ==> k.late == 0)
  }

  /**
   The last Room message about its room shows a member the room as it is. Unless there
   is a room with the empty id, that is the last Room message of all. Room but is not promised.
   */
  ghost predicate FreshOk(c: Core, v: Id, k: Client, but: string) {
    var r := RoomOf(c, v);
    r != "" && r != but && r in c.rooms ==>
      && r in k.infos && IsView(k.infos[r], c.rooms[r].users, v)
      && ("" !in c.rooms ==> k.lastRoom == Some(r))
  }

  ghost predicate ClientOk(c: Core, v: Id, k: Client, but: string) {
    ClosesOk(c, v, k) && MirrorOk(c, v, k) && FreshOk(c, v, k, but)
  }

  // ---------- broadcasts ----------

  /** Room messages, relayed messages and the count of late messages leave the session part alone. */
  ghost predicate SameSeats(k: Client, k': Client) {
    k'.watching == k.watching && k'.hosting == k.hosting && k'.closes == k.closes
  }

  lemma SeatsSeen(c: Core, v: Id, k: Client, k': Client)
    requires MirrorOk(c, v, k) && SameSeats(k, k')
    ensures MirrorOk(c, v, k')
  {
  }

  lemma {:induction false} BroadcastKeeps(c: Core, r: string, note: seq<Envelope>, v: Id, k: Client)
    requires Basic(c) && r in c.rooms && IsBroadcast(note, c.rooms[r]) && ClientOk(c, v, k, r)
    ensures ClientOk(c, v, Replay(k, note, v), "")
  {
    hide MirrorOk, IsView, IsBroadcast, Replay;
    var room := c.rooms[r];
    var k' := Replay(k, note, v);
    var view := ReplayBroadcast(k, note, room, v);
    SeatsSeen(c, v, k, k');
    assert room.id == r;
    if v in c.connected && RoomOf(c, v) == r && r != "" {
      assert v in room.users;
    }
    assert v !in c.clients ==> v !in room.users;
  }

  // ---------- changes of the tables that leave sessions alone ----------

  /** Nothing that v's seats depend on changes. */
  ghost predicate SameSessionsFor(c: Core, c': Core, v: Id) {
    && RoomOf(c', v) == RoomOf(c, v) && c'.lookup == c.lookup && Live(c', v) == Live(c, v)
    && (RoomOf(c, v) in c.rooms ==>
          RoomOf(c, v) in c'.rooms && c'.rooms[RoomOf(c, v)].mode == c.rooms[RoomOf(c, v)].mode)
  }

  lemma SeatsStay(c: Core, c': Core, v: Id, k: Client)
    requires MirrorOk(c, v, k) && SameSessionsFor(c, c', v) && (v in c'.connected ==> v in c.connected)
    ensures MirrorOk(c', v, k)
  {
    if v in c'.connected {
      forall id | id in k.watching
        ensures SeatOk(c', RoomOf(c', v), ClientKey(id), Live(c', v)[id].host, k.watching[id])
      {
        assert SeatOk(c, RoomOf(c, v), ClientKey(id), Live(c, v)[id].host, k.watching[id]);
      }
      forall id | id in k.hosting
        ensures SeatOk(c', RoomOf(c', v), HostKey(id), Live(c', v)[id].client, k.hosting[id])
      {
        assert SeatOk(c, RoomOf(c, v), HostKey(id), Live(c, v)[id].client, k.hosting[id]);
      }
    }
  }

  lemma EditedClient(c: Core, r: string, u: Id, user: UserState, c': Core, v: Id, k: Client)
    requires Edited(c, r, u, user, c') && ClientOk(c, v, k, "")
    ensures ClientOk(c', v, k, r)
  {
    SeatsStay(c, c', v, k);
  }

  /** In no room, a client knows no session. */
  lemma OutsideKnowsNothing(c: Core, u: Id, k: Client)
    requires Sound(c) && Mute(c) && u in c.connected && c.connected[u] == "" && MirrorOk(c, u, k)
    ensures k.watching == map[] && k.hosting == map[]
  {
    if "" in c.rooms {
      assert SoundRoom(c.rooms[""]);
      assert Live(c, u) == map[];
    }
    assert k.watching.Keys == {} && k.hosting.Keys == {};
  }

  lemma KnowsNothing(c: Core, v: Id, k: Client)
    requires k.watching == map[] && k.hosting == map[]
    requires forall id | id in Live(c, v) :: Live(c, v)[id].host != v && Live(c, v)[id].client != v
    ensures MirrorOk(c, v, k)
  {
  }

  lemma {:induction false} EnteredSeats(c: Core, r: string, user: UserState, c': Core, v: Id, k: Client)
    requires Basic(c) && Sessions(c) && Entered(c, r, user, c') && MirrorOk(c, v, k)
    ensures MirrorOk(c', v, k)
  {
    hide WatchingOk, HostingOk, Keyed, Distinct, Sound, Mute;
    if v == user.id {
      OutsideKnowsNothing(c, v, k);
      forall id | id in c.rooms[r].sessions
        ensures c.rooms[r].sessions[id].host != v && c.rooms[r].sessions[id].client != v
      {
        EnteredStranger(c, r, user, c', id);
      }
      assert Live(c', v) == c.rooms[r].sessions;
      KnowsNothing(c', v, k);
    } else {
      SeatsStay(c, c', v, k);
    }
  }

  lemma {:induction false} EnteredClient(c: Core, r: string, user: UserState, c': Core, v: Id, k: Client)
    requires Basic(c) && Sessions(c) && Entered(c, r, user, c') && ClientOk(c, v, k, "")
    ensures ClientOk(c', v, k, r)
  {
    hide MirrorOk, IsView, Sound, Mute, Distinct;
    EnteredSeats(c, r, user, c', v, k);
  }

  lemma {:induction false} FoundedClient(c: Core, room: RoomState, u: Id, c': Core, v: Id, k: Client)
    requires Basic(c) && Sessions(c) && Founded(c, room, u, c') && ClientOk(c, v, k, "")
    ensures ClientOk(c', v, k, room.id)
  {
    hide WatchingOk, HostingOk, IsView, Distinct, Sound, Mute;
    if v == u {
      OutsideKnowsNothing(c, v, k);
      assert Live(c', v) == map[];
      KnowsNothing(c', v, k);
    } else if RoomOf(c, v) == room.id {
      assert room.id == "";
      assert Live(c', v) == map[];
      if v in c.connected {
        OutsideKnowsNothing(c, v, k);
        KnowsNothing(c', v, k);
      }
    } else {
      SeatsStay(c, c', v, k);
    }
  }

  // ---------- opening sessions ----------

  /** The keys of other sessions are untouched. */
  lemma OpenSessionSeat(c: Core, r: string, st: Start, q: string, id: Id, s: Session, seat: Seat)
    requires Distinct(c) && StartFits(c, r, st) && q in c.rooms && id in c.rooms[q].sessions
    ensures SeatOk(c, q, ClientKey(id), s.host, seat) ==> SeatOk(OpenSession(c, r, st), q, ClientKey(id), s.host, seat)
    ensures SeatOk(c, q, HostKey(id), s.client, seat) ==> SeatOk(OpenSession(c, r, st), q, HostKey(id), s.client, seat)
  {
    KeysAreDistinct(id, st.id);
    KeysAreDistinct(st.id, id);
    assert id != st.id;
  }

  lemma {:induction false} OpenSessionWatching(c: Core, r: string, st: Start, v: Id, k: Client)
    requires Agree(c) && Distinct(c) && StartFits(c, r, st) && r != ""
    requires WatchingOk(c, v, k) && v in c.connected && k.closes == 0
    ensures WatchingOk(OpenSession(c, r, st), v, Replay(k, Invitation(c.rooms[r].mode, st), v))
  {
    var c' := OpenSession(c, r, st);
    var k' := Replay(k, Invitation(c.rooms[r].mode, st), v);
    ReplayInvitation(k, c.rooms[r].mode, st, v);
    forall id | id in k'.watching
      ensures id in Live(c', v) && Live(c', v)[id].client == v
      ensures SeatOk(c', RoomOf(c', v), ClientKey(id), Live(c', v)[id].host, k'.watching[id])
    {
      if id in k.watching && id != st.id {
        OpenSessionSeat(c, r, st, RoomOf(c, v), id, Live(c, v)[id], k.watching[id]);
      } else {
        OpenSessionNewSeat(c, r, st);
      }
    }
  }

  lemma OpenSessionNewSeat(c: Core, r: string, st: Start)
    requires StartFits(c, r, st)
    ensures var c' := OpenSession(c, r, st); var mode := c.rooms[r].mode;
      && SeatOk(c', r, HostKey(st.id), st.client, Seat(st.client, IceFor(mode, HostKey(st.id), st.hostPassword)))
      && SeatOk(c', r, ClientKey(st.id), st.host, Seat(st.host, IceFor(mode, ClientKey(st.id), st.clientPassword)))
  {
    KeysAreDistinct(st.id, st.id);
  }

  lemma {:induction false} OpenSessionHosting(c: Core, r: string, st: Start, v: Id, k: Client)
    requires Agree(c) && Distinct(c) && StartFits(c, r, st) && r != ""
    requires HostingOk(c, v, k) && v in c.connected && k.closes == 0
    ensures HostingOk(OpenSession(c, r, st), v, Replay(k, Invitation(c.rooms[r].mode, st), v))
  {
    var c' := OpenSession(c, r, st);
    var k' := Replay(k, Invitation(c.rooms[r].mode, st), v);
    ReplayInvitation(k, c.rooms[r].mode, st, v);
    forall id | id in k'.hosting
      ensures id in Live(c', v) && Live(c', v)[id].host == v
      ensures SeatOk(c', RoomOf(c', v), HostKey(id), Live(c', v)[id].client, k'.hosting[id])
    {
      if id in k.hosting && id != st.id {
        OpenSessionSeat(c, r, st, RoomOf(c, v), id, Live(c, v)[id], k.hosting[id]);
      } else {
        OpenSessionNewSeat(c, r, st);
      }
    }
  }

  /** Sessions are opened between connected clients of a room that is not "". */
  lemma OpenSessionEnds(c: Core, r: string, st: Start)
    requires Agree(c) && Mute(c) && StartFits(c, r, st)
    ensures r != "" && st.host in c.connected && st.client in c.connected
  {
  }

  /** Clients that are gone hear nothing of it. */
  lemma OpenSessionSilent(c: Core, r: string, st: Start, v: Id, k: Client)
    requires Agree(c) && Mute(c) && StartFits(c, r, st) && v !in c.connected
    ensures Replay(k, Invitation(c.rooms[r].mode, st), v) == k
  {
    hide Agree, Mute;
    OpenSessionEnds(c, r, st);
    ReplayNothing(k, Invitation(c.rooms[r].mode, st), v);
  }

  lemma OpenSessionMirror(c: Core, r: string, st: Start, v: Id, k: Client)
    requires Agree(c) && Sessions(c) && StartFits(c, r, st) && MirrorOk(c, v, k) && (v in c.connected ==> k.closes == 0)
    ensures MirrorOk(OpenSession(c, r, st), v, Replay(k, Invitation(c.rooms[r].mode, st), v))
  {
    hide Agree, Sound, Mute, Distinct, StartFits, WatchingOk, HostingOk, Invitation, Replay;
    FitsMeans(c, r, st);
    OpenSessionEnds(c, r, st);
    if v in c.connected {
      OpenSessionWatching(c, r, st, v, k);
      OpenSessionHosting(c, r, st, v, k);
    }
  }

  lemma OpenSessionCloses(c: Core, r: string, st: Start, v: Id, k: Client)
    requires Keyed(c) && Agree(c) && Mute(c) && StartFits(c, r, st) && ClosesOk(c, v, k)
    ensures ClosesOk(OpenSession(c, r, st), v, Replay(k, Invitation(c.rooms[r].mode, st), v))
  {
    hide Agree, Mute, Invitation, Replay;
    OpenSessionEnds(c, r, st);
    if v in c.connected {
      ReplayInvitation(k, c.rooms[r].mode, st, v);
    } else {
      OpenSessionSilent(c, r, st, v, k);
    }
  }

  lemma OpenSessionFresh(c: Core, r: string, st: Start, v: Id, k: Client, but: string)
    requires Agree(c) && Mute(c) && StartFits(c, r, st) && FreshOk(c, v, k, but) && (v in c.connected ==> k.closes == 0)
    ensures FreshOk(OpenSession(c, r, st), v, Replay(k, Invitation(c.rooms[r].mode, st), v), but)
  {
    hide Agree, Mute, Invitation, Replay, IsView;
    OpenSessionEnds(c, r, st);
    if v in c.connected {
      ReplayInvitation(k, c.rooms[r].mode, st, v);
    } else {
      OpenSessionSilent(c, r, st, v, k);
    }
  }

  lemma {:induction false} OpenSessionClient(c: Core, r: string, st: Start, v: Id, k: Client, but: string)
    requires Basic(c) && Sessions(c) && StartFits(c, r, st) && ClientOk(c, v, k, but)
    ensures ClientOk(OpenSession(c, r, st), v, Replay(k, Invitation(c.rooms[r].mode, st), v), but)
  {
    hide Keyed, Agree, Sound, Mute, Distinct, StartFits, ClosesOk, MirrorOk, FreshOk, OpenSession, Invitation, Replay;
    ConnectedIsOpen(c, v, k);
    OpenSessionCloses(c, r, st, v, k);
    OpenSessionMirror(c, r, st, v, k);
    OpenSessionFresh(c, r, st, v, k, but);
  }

  lemma ConnectedIsOpen(c: Core, v: Id, k: Client)
    requires Keyed(c) && ClosesOk(c, v, k)
    ensures v in c.connected ==> k.closes == 0
  {
  }

  lemma {:induction false} OpenSessionsClient(c: Core, r: string, starts: seq<Start>, v: Id, k: Client, but: string)
    requires r in c.rooms && Basic(c) && Sessions(c) && TurnExact(c) && StartsFit(c, r, starts)
    requires ClientOk(c, v, k, but)
    ensures ClientOk(OpenSessions(c, r, starts), v, Replay(k, Invitations(c.rooms[r].mode, starts), v), but)
  {
    if starts != [] {
      var n := |starts| - 1;
      var mode := c.rooms[r].mode;
      var c1 := OpenSessions(c, r, starts[..n]);
      NextStartFits(c, r, starts);
      OpenSessionsClient(c, r, starts[..n], v, k, but);
      OpenSessionsKeep(c, r, starts[..n]);
      OpenSessionsSame(c, r, starts[..n]);
      SameBasic(c, c1);
      OpenSessionClient(c1, r, starts[n], v, Replay(k, Invitations(mode, starts[..n]), v), but);
      ReplayConcat(k, Invitations(mode, starts[..n]), Invitation(mode, starts[n]), v);
    }
  }

  // ---------- closing sessions ----------

  /** Seats of sessions that stay keep their credential when the keys of other sessions go. */
  lemma SeatSurvives(mode: string, lookup: map<string, Entry>, ids: set<Id>, id: Id, ice: Ice)
    requires id !in ids
    ensures IceOk(mode, lookup, HostKey(id), ice) ==> IceOk(mode, lookup - KeysOf(ids), HostKey(id), ice)
    ensures IceOk(mode, lookup, ClientKey(id), ice) ==> IceOk(mode, lookup - KeysOf(ids), ClientKey(id), ice)
  {
    KeysOfMembers(ids, id);
  }

  /** Sessions ids of v's room r end, with their keys; v forgets those it knew. */
  lemma ForgottenSeats(c: Core, c': Core, v: Id, k: Client, k': Client, ids: set<Id>)
    requires v in c.connected && WatchingOk(c, v, k) && HostingOk(c, v, k)
    requires RoomOf(c', v) == RoomOf(c, v)
    requires RoomOf(c, v) in c.rooms ==>
      && RoomOf(c, v) in c'.rooms && c'.rooms[RoomOf(c, v)].mode == c.rooms[RoomOf(c, v)].mode
    requires c'.lookup == c.lookup || c'.lookup == c.lookup - KeysOf(ids)
    requires Live(c', v) == Live(c, v) - ids
    requires k'.watching == k.watching - ids && k'.hosting == k.hosting - ids
    ensures WatchingOk(c', v, k') && HostingOk(c', v, k')
  {
    forall id | id in k'.watching
      ensures SeatOk(c', RoomOf(c', v), ClientKey(id), Live(c', v)[id].host, k'.watching[id])
    {
      assert SeatOk(c, RoomOf(c, v), ClientKey(id), Live(c, v)[id].host, k.watching[id]);
      SeatSurvives(c.rooms[RoomOf(c, v)].mode, c.lookup, ids, id, k.watching[id].ice);
    }
    forall id | id in k'.hosting
      ensures SeatOk(c', RoomOf(c', v), HostKey(id), Live(c', v)[id].client, k'.hosting[id])
    {
      assert SeatOk(c, RoomOf(c, v), HostKey(id), Live(c, v)[id].client, k.hosting[id]);
      SeatSurvives(c.rooms[RoomOf(c, v)].mode, c.lookup, ids, id, k.hosting[id].ice);
    }
  }

  /** Forgetting the announced ids is, for v, forgetting all of them. */
  lemma AnnouncedEnough(c: Core, r: string, u: Id, order: seq<Id>, ids: set<Id>, v: Id, k: Client)
    requires v in c.connected && WatchingOk(c, v, k) && HostingOk(c, v, k) && RoomOf(c, v) == r && r in c.rooms
    requires SoundRoom(c.rooms[r]) && v in c.rooms[r].users && v != u
    requires Enumerates(order, ids) && ids <= SessionsOf(c.rooms[r], u)
    ensures Forget(k, Announced(c.rooms[r], u, order, v)).watching == k.watching - ids
    ensures Forget(k, Announced(c.rooms[r], u, order, v)).hosting == k.hosting - ids
  {
    var room := c.rooms[r];
    var a := Announced(room, u, order, v);
    forall id | id in k.watching ensures id in a <==> id in ids {
      assert room.sessions[id].client == v;
    }
    forall id | id in k.hosting ensures id in a <==> id in ids {
      assert room.sessions[id].host == v;
    }
    assert k.watching - a == k.watching - ids;
    assert k.hosting - a == k.hosting - ids;
  }

  /** Nothing is announced to the one who leaves, nor to anybody outside the room. */
  lemma NoticesStayInside(room: RoomState, u: Id, order: seq<Id>, v: Id)
    requires SoundRoom(room) && forall id | id in order :: id in SessionsOf(room, u)
    requires Addressed(Notices(room, u, order), v)
    ensures v in room.users && v != u
  {
    NoticesAddress(room, u, order, v);
    var id :| id in order && id in room.sessions && PeerOf(room.sessions[id], u) == v;
    assert id in SessionsOf(room, u);
  }

  // ---------- StopShare ----------

  function StopMail(room: RoomState, u: Id, order: seq<Id>): seq<Envelope> {
    [Envelope(u, StopShareDone)] + Notices(room, u, order)
  }

  lemma ReplayStop(room: RoomState, u: Id, order: seq<Id>, v: Id, k: Client)
    requires SoundRoom(room) && Enumerates(order, HostSessionsOf(room, u))
    ensures v == u ==> Replay(k, StopMail(room, u, order), v) == k.(hosting := map[])
    ensures v != u && k.closes == 0 ==>
      Replay(k, StopMail(room, u, order), v) == Forget(k, Announced(room, u, order, v))
    ensures v !in room.users && v != u ==> Replay(k, StopMail(room, u, order), v) == k
  {
    var mail := Notices(room, u, order);
    ReplayConcat(k, [Envelope(u, StopShareDone)], mail, v);
    ReplayOne(k, Envelope(u, StopShareDone), v);
    assert forall id | id in order :: id in SessionsOf(room, u);
    if v == u || v !in room.users {
      if Addressed(mail, v) {
        NoticesStayInside(room, u, order, v);
      }
      ReplayNothing(if v == u then k.(hosting := map[]) else k, mail, v);
    }
    if v != u && k.closes == 0 {
      ReplayNotices(k, room, u, order, v);
    }
  }

  lemma StoppedSelf(c: Core, r: string, u: Id, c': Core, k: Client)
    requires Stopped(c, r, u, c') && SoundRoom(c.rooms[r]) && RoomOf(c, u) == r && u in c.connected
    requires WatchingOk(c, u, k) && HostingOk(c, u, k)
    ensures WatchingOk(c', u, k.(hosting := map[])) && HostingOk(c', u, k.(hosting := map[]))
  {
    var ids := HostSessionsOf(c.rooms[r], u);
    forall id | id in k.watching ensures id !in ids {
      assert Live(c, u)[id].client == u;
    }
    forall id | id in k.hosting ensures id in ids {
      assert Live(c, u)[id].host == u;
    }
    assert k.watching - ids == k.watching;
    assert k.hosting - ids == map[];
    ForgottenSeats(c, c', u, k, k.(hosting := map[]), ids);
  }

  lemma StoppedOutside(c: Core, r: string, u: Id, c': Core, v: Id, k: Client)
    requires Distinct(c) && Stopped(c, r, u, c') && RoomOf(c, v) != r && v in c.connected
    requires WatchingOk(c, v, k) && HostingOk(c, v, k)
    ensures WatchingOk(c', v, k) && HostingOk(c', v, k)
  {
    var ids := HostSessionsOf(c.rooms[r], u);
    assert Live(c, v) - ids == Live(c, v);
    assert k.watching - ids == k.watching;
    assert k.hosting - ids == k.hosting;
    ForgottenSeats(c, c', v, k, k, ids);
  }

  lemma StoppedClient(c: Core, r: string, u: Id, c': Core, order: seq<Id>, v: Id, k: Client)
    requires Basic(c) && Sound(c) && Distinct(c) && r != "" && Stopped(c, r, u, c') && ClientOk(c, v, k, "")
    requires Enumerates(order, HostSessionsOf(c.rooms[r], u))
    ensures ClientOk(c', v, Replay(k, StopMail(c.rooms[r], u, order), v), r)
  {
    hide WatchingOk, HostingOk, IsView, Mute, Distinct, Enumerates, Keyed;
    var room := c.rooms[r];
    assert SoundRoom(room);
    ReplayStop(room, u, order, v, k);
    if v == u {
      StoppedSelf(c, r, u, c', k);
    } else if v in c.connected && RoomOf(c, v) == r {
      var ids := HostSessionsOf(room, u);
      AnnouncedEnough(c, r, u, order, ids, v, k);
      ForgottenSeats(c, c', v, k, Forget(k, Announced(room, u, order, v)), ids);
    } else {
      assert v !in room.users;
      if v in c.connected {
        StoppedOutside(c, r, u, c', v, k);
      }
    }
  }

  // ---------- hanging up ----------

  /** The mail of removeUserFromRoom reaches members other than the leaver only. */
  lemma LeaveMailStaysInside(c: Core, r: string, u: Id, ch: Choice, v: Id)
    requires r in c.rooms && u in c.rooms[r].users && SoundRoom(c.rooms[r]) && LeaveLegal(c, r, u, ch)
    requires Addressed(LeaveMail(c, r, u, ch), v)
    ensures v in c.rooms[r].users && v != u
  {
    var room := c.rooms[r];
    var notices := Notices(room, u, ch.closing);
    var rest := if ClosesRoom(room, u) then Goodbyes(ch.kicked) else ch.farewell;
    var i :| 0 <= i < |LeaveMail(c, r, u, ch)| && LeaveMail(c, r, u, ch)[i].to == v;
    if i < |notices| {
      assert notices[i].to == v;
      NoticesStayInside(room, u, ch.closing, v);
    } else {
      assert rest[i - |notices|].to == v;
      if !ClosesRoom(room, u) {
        assert IsNote(ch.farewell[i - |notices|], Without(room, u));
      } else {
        assert v in ch.kicked;
      }
    }
  }

  /** A remaining member of a room that goes is told once. */
  lemma ReplayTeardown(c: Core, r: string, u: Id, ch: Choice, v: Id, k: Client)
    requires r in c.rooms && u in c.rooms[r].users && LeaveLegal(c, r, u, ch) && ClosesRoom(c.rooms[r], u)
    requires v in c.rooms[r].users && v != u && k.closes == 0
    ensures Replay(k, LeaveMail(c, r, u, ch), v) == Forget(k, Announced(c.rooms[r], u, ch.closing, v)).(closes := 1)
  {
    var room := c.rooms[r];
    ReplayConcat(k, Notices(room, u, ch.closing), Goodbyes(ch.kicked), v);
    ReplayNotices(k, room, u, ch.closing, v);
    ReplayGoodbyes(Forget(k, Announced(room, u, ch.closing, v)), ch.kicked, v);
  }

  /** A remaining member of a room that stays forgets the sessions and gets a fresh view. */
  lemma {:induction false} ReplayFarewell(c: Core, r: string, u: Id, ch: Choice, v: Id, k: Client)
    returns (view: seq<UserView>)
    requires r in c.rooms && u in c.rooms[r].users && LeaveLegal(c, r, u, ch) && !ClosesRoom(c.rooms[r], u)
    requires v in c.rooms[r].users && v != u && k.closes == 0
    ensures IsView(view, Without(c.rooms[r], u).users, v)
    ensures Replay(k, LeaveMail(c, r, u, ch), v) ==
      Hear(Forget(k, Announced(c.rooms[r], u, ch.closing, v)), RoomInfo(c.rooms[r].id, view))
  {
    var room := c.rooms[r];
    ReplayConcat(k, Notices(room, u, ch.closing), ch.farewell, v);
    ReplayNotices(k, room, u, ch.closing, v);
    view := ReplayBroadcast(Forget(k, Announced(room, u, ch.closing, v)), ch.farewell, Without(room, u), v);
  }

  lemma ReplayHangup(c: Core, u: Id, code: int, reason: string, ch: Choice, v: Id, k: Client)
    ensures var rest := if RoomOf(c, u) == "" then [] else LeaveMail(c, RoomOf(c, u), u, ch);
      Replay(k, HangupMail(c, u, code, reason, ch), v) ==
      Replay(if v == u then See(k, Sent(CloseWriter(code, reason))) else k, rest, v)
  {
    var rest := if RoomOf(c, u) == "" then [] else LeaveMail(c, RoomOf(c, u), u, ch);
    var bye := Envelope(u, Sent(CloseWriter(code, reason)));
    ReplayConcat(k, [bye], rest, v);
    ReplayOne(k, bye, v);
  }

  lemma {:induction false} HangupSelf(c: Core, u: Id, c': Core, code: int, reason: string, ch: Choice, k: Client)
    requires Basic(c) && Sound(c) && HungUp(c, u, c') && HangupLegal(c, u, ch) && u in c.connected && ClosesOk(c, u, k)
    ensures ClientOk(c', u, Replay(k, HangupMail(c, u, code, reason, ch), u), "")
  {
    ReplayHangup(c, u, code, reason, ch, u, k);
    var k1 := See(k, Sent(CloseWriter(code, reason)));
    if RoomOf(c, u) != "" {
      var r := RoomOf(c, u);
      assert SoundRoom(c.rooms[r]);
      if Addressed(LeaveMail(c, r, u, ch), u) {
        LeaveMailStaysInside(c, r, u, ch, u);
      }
      ReplayNothing(k1, LeaveMail(c, r, u, ch), u);
    }
    assert u !in c'.connected;
  }

  /** Who was not with u hears nothing of its leaving. */
  lemma HangupOutsideSilent(c: Core, u: Id, c': Core, code: int, reason: string, ch: Choice, v: Id, k: Client)
    requires Agree(c) && Sound(c) && HungUp(c, u, c') && HangupLegal(c, u, ch) && v != u
    requires RoomOf(c, u) == "" || v !in c.connected || RoomOf(c, v) != RoomOf(c, u)
    ensures Replay(k, HangupMail(c, u, code, reason, ch), v) == k
  {
    hide LeaveMail, HangupMail, Replay, Enumerates, IsBroadcast;
    ReplayHangup(c, u, code, reason, ch, v, k);
    if RoomOf(c, u) == "" {
      ReplayNothing(k, [], v);
    } else {
      var r := RoomOf(c, u);
      assert SoundRoom(c.rooms[r]);
      if Addressed(LeaveMail(c, r, u, ch), v) {
        LeaveMailStaysInside(c, r, u, ch, v);
      }
      ReplayNothing(k, LeaveMail(c, r, u, ch), v);
    }
  }

  /** Nobody else notices the leaving of a client that is in no room. */
  lemma HangupNowhere(c: Core, u: Id, c': Core, v: Id, k: Client)
    requires HungUp(c, u, c') && RoomOf(c, u) == "" && v != u && ClientOk(c, v, k, "")
    ensures ClientOk(c', v, k, "")
  {
    hide WatchingOk, HostingOk, IsView;
    SeatsStay(c, c', v, k);
  }

  lemma {:induction false} HangupOutside(c: Core, u: Id, c': Core, code: int, reason: string, ch: Choice, v: Id,
                                         k: Client)
    requires Basic(c) && Sound(c) && Distinct(c) && HungUp(c, u, c') && HangupLegal(c, u, ch)
    requires v != u && ClientOk(c, v, k, RoomOf(c, u))
    requires RoomOf(c, u) == "" || v !in c.connected || RoomOf(c, v) != RoomOf(c, u)
    ensures ClientOk(c', v, Replay(k, HangupMail(c, u, code, reason, ch), v), "")
  {
    hide Keyed, Agree, Sound, Distinct, HungUp, ClientOk, HangupLegal, HangupMail, Replay;
    HangupOutsideSilent(c, u, c', code, reason, ch, v, k);
    if RoomOf(c, u) == "" {
      HangupNowhere(c, u, c', v, k);
    } else {
      OtherRoom(c, u, v);
      HangupOutsideSeats(c, u, c', v, k);
    }
  }

  lemma OtherRoom(c: Core, u: Id, v: Id)
    requires RoomOf(c, u) != "" && (v !in c.connected || RoomOf(c, v) != RoomOf(c, u))
    ensures RoomOf(c, v) != RoomOf(c, u)
  {
  }

  lemma {:induction false} HangupOutsideMirror(c: Core, u: Id, c': Core, v: Id, k: Client)
    requires Agree(c) && Distinct(c) && HungUp(c, u, c') && RoomOf(c, u) != "" && v != u && RoomOf(c, v) != RoomOf(c, u)
    requires MirrorOk(c, v, k) && v in c.connected && v in c'.connected && RoomOf(c', v) == RoomOf(c, v)
    ensures MirrorOk(c', v, k)
  {
    hide WatchingOk, HostingOk, ClosesRoom;
    var ids := Ended(c, u);
    assert Live(c', v) == Live(c, v);
    assert Live(c, v) - ids == Live(c, v);
    KnowsOnlyLive(c, v, k, ids);
    ForgottenSeats(c, c', v, k, k, ids);
  }

  /** Ids that are not live for a client are not in its mirror either. */
  lemma KnowsOnlyLive(c: Core, v: Id, k: Client, ids: set<Id>)
    requires WatchingOk(c, v, k) && HostingOk(c, v, k) && Live(c, v) - ids == Live(c, v)
    ensures k.watching - ids == k.watching && k.hosting - ids == k.hosting
  {
    forall id | id in Live(c, v) ensures id !in ids {
      assert id in Live(c, v) - ids;
    }
  }

  lemma {:induction false} HangupOutsideSeats(c: Core, u: Id, c': Core, v: Id, k: Client)
    requires Agree(c) && Distinct(c) && HungUp(c, u, c') && RoomOf(c, u) != "" && v != u && RoomOf(c, v) != RoomOf(c, u)
    requires ClientOk(c, v, k, RoomOf(c, u))
    ensures ClientOk(c', v, k, "")
  {
    hide WatchingOk, HostingOk, Distinct, IsView, SessionsOf;
    var r := RoomOf(c, u);
    assert v !in c.rooms[r].users;
    assert v in c'.connected <==> v in c.connected;
    assert RoomOf(c', v) == RoomOf(c, v);
    if v in c.connected {
      HangupOutsideMirror(c, u, c', v, k);
    }
    hide MirrorOk;
  }

  lemma FellowKicked(c: Core, u: Id, c': Core, ch: Choice, v: Id, k: Client)
    requires Agree(c) && HungUp(c, u, c') && HangupLegal(c, u, ch) && v != u && ClosesOk(c, v, k)
    requires RoomOf(c, u) != "" && v in c.clients && v in c.connected && RoomOf(c, v) == RoomOf(c, u)
    requires ClosesRoom(c.rooms[RoomOf(c, u)], u)
    ensures ClientOk(c', v, Replay(k, LeaveMail(c, RoomOf(c, u), u, ch), v), "")
  {
    ReplayTeardown(c, RoomOf(c, u), u, ch, v, k);
    assert v !in c'.connected;
  }

  lemma {:induction false} FellowSeats(c: Core, u: Id, c': Core, order: seq<Id>, v: Id, k: Client, k': Client)
    requires Agree(c) && Sound(c) && HungUp(c, u, c') && v != u && MirrorOk(c, v, k)
    requires RoomOf(c, u) != "" && v in c.connected && RoomOf(c, v) == RoomOf(c, u)
    requires !ClosesRoom(c.rooms[RoomOf(c, u)], u) && Enumerates(order, SessionsOf(c.rooms[RoomOf(c, u)], u))
    requires SameSeats(Forget(k, Announced(c.rooms[RoomOf(c, u)], u, order, v)), k')
    ensures MirrorOk(c', v, k')
  {
    var r := RoomOf(c, u);
    var ids := SessionsOf(c.rooms[r], u);
    AnnouncedEnough(c, r, u, order, ids, v, k);
    assert Live(c', v) == Live(c, v) - ids;
    ForgottenSeats(c, c', v, k, k', ids);
  }

  /** The tables that a remaining member finds. */
  lemma FellowTables(c: Core, u: Id, c': Core, v: Id)
    requires Basic(c) && HungUp(c, u, c') && v != u
    requires RoomOf(c, u) != "" && v in c.connected && RoomOf(c, v) == RoomOf(c, u)
    requires !ClosesRoom(c.rooms[RoomOf(c, u)], u)
    ensures var r := RoomOf(c, u);
      && r in c.rooms && c.rooms[r].id == r && u in c.rooms[r].users && v in c.rooms[r].users && v in c.clients
      && v in c'.connected && RoomOf(c', v) == r && v in c'.clients && ("" in c'.rooms <==> "" in c.rooms)
      && r in c'.rooms && c'.rooms[r] == Without(c.rooms[r], u)
  {
  }

  lemma {:induction false} FellowStays(c: Core, u: Id, c': Core, ch: Choice, v: Id, k: Client)
    requires Basic(c) && Sound(c) && HungUp(c, u, c') && HangupLegal(c, u, ch)
    requires v != u && ClientOk(c, v, k, RoomOf(c, u))
    requires RoomOf(c, u) != "" && v in c.connected && RoomOf(c, v) == RoomOf(c, u)
    requires !ClosesRoom(c.rooms[RoomOf(c, u)], u)
    ensures ClientOk(c', v, Replay(k, LeaveMail(c, RoomOf(c, u), u, ch), v), "")
  {
    hide MirrorOk, Sound, Distinct, IsView, Announced, LeaveMail, Enumerates, ClosesRoom, Keyed, HungUp, RoomOf;
    var r := RoomOf(c, u);
    FellowTables(c, u, c', v);
    var view := ReplayFarewell(c, r, u, ch, v, k);
    FellowSeats(c, u, c', ch.closing, v, k, Replay(k, LeaveMail(c, r, u, ch), v));
  }

  lemma {:induction false} HangupFellow(c: Core, u: Id, c': Core, code: int, reason: string, ch: Choice, v: Id,
                                        k: Client)
    requires Basic(c) && Sound(c) && HungUp(c, u, c') && HangupLegal(c, u, ch)
    requires v != u && ClientOk(c, v, k, RoomOf(c, u))
    requires RoomOf(c, u) != "" && v in c.connected && RoomOf(c, v) == RoomOf(c, u)
    ensures ClientOk(c', v, Replay(k, HangupMail(c, u, code, reason, ch), v), "")
  {
    ReplayHangup(c, u, code, reason, ch, v, k);
    if ClosesRoom(c.rooms[RoomOf(c, u)], u) {
      FellowKicked(c, u, c', ch, v, k);
    } else {
      FellowStays(c, u, c', ch, v, k);
    }
  }

  lemma {:induction false} HangupClient(c: Core, u: Id, code: int, reason: string, ch: Choice, v: Id, k: Client)
    requires Basic(c) && Sound(c) && Distinct(c) && HangupLegal(c, u, ch) && u in c.connected
    requires ClientOk(c, v, k, RoomOf(c, u))
    ensures ClientOk(Hangup(c, u), v, Replay(k, HangupMail(c, u, code, reason, ch), v), "")
  {
    var c' := Hangup(c, u);
    HangupHungUp(c, u);
    if v == u {
      HangupSelf(c, u, c', code, reason, ch, k);
    } else if RoomOf(c, u) == "" || v !in c.connected || RoomOf(c, v) != RoomOf(c, u) {
      HangupOutside(c, u, c', code, reason, ch, v, k);
    } else {
      HangupFellow(c, u, c', code, reason, ch, v, k);
    }
  }

  // ---------- handlers, steps, runs ----------

  /** After a handler: every client is up to date; after a failed one, all but those in the sender's room. */
  ghost predicate OutcomeOk(o: Outcome, u: Id, v: Id, k: Client) {
    match o.verdict
    case Done => ClientOk(o.core, v, Replay(k, o.out, v), "")
    case Failed(_) => u in o.core.connected && ClientOk(o.core, v, Replay(k, o.out, v), RoomOf(o.core, u))
    case Panicked => true
  }

  lemma FreshWeaker(c: Core, v: Id, k: Client, but: string)
    requires ClientOk(c, v, k, "")
    ensures ClientOk(c, v, k, but)
  {
  }

  lemma {:induction false} JoinClient(conf: Config, c: Core, info: ClientInfo, id: string, userName: string,
                                      ch: Choice, v: Id, k: Client)
    requires TablesOk(conf, c, {}) && info.id in c.connected && info.id in c.clients && c.clients[info.id] == info
    requires JoinLegal(conf, c, info, id, userName, ch) && ClientOk(c, v, k, "")
    ensures OutcomeOk(ExecuteJoin(conf, c, info, id, userName, ch), info.id, v, k)
  {
    hide ClientOk, TurnExact, Owners, Admission, Complete, Sound, Mute, Distinct, Agree, CompleteRoom, IsBroadcast;
    hide OpenSessions, Invitations, StartsLegal, CheckAuth;
    if JoinError(conf, c, info, id) == None {
      var name := DisplayName(info, userName, ch.randomName);
      var c1 := Admitted(c, info, id, name);
      var user := UserState(info.id, info.addr, name, false, false);
      AdmittedEntered(conf, c, info, id, name);
      AdmittedKeeps(conf, c, info, id, name);
      EnteredClient(c, id, user, c1, v, k);
      BroadcastKeeps(c1, id, ch.note, v, k);
      var k1 := Replay(k, ch.note, v);
      if ch.ip.IpFound? {
        JoinStartsFit(c1, id, info.id, ch.starts);
        OpenSessionsClient(c1, id, ch.starts, v, k1, "");
        ReplayConcat(k, ch.note, Invitations(c1.rooms[id].mode, ch.starts), v);
      } else {
        FreshWeaker(c1, v, k1, RoomOf(c1, info.id));
      }
    } else {
      FreshWeaker(c, v, k, RoomOf(c, info.id));
    }
  }

  lemma JoinStartsFit(c: Core, r: string, u: Id, starts: seq<Start>)
    requires r in c.rooms && u in c.rooms[r].users && StartsLegal(starts, c.issued, StreamersTo(c.rooms[r], u))
    ensures StartsFit(c, r, starts)
  {
    StartsLegalFit(c, r, starts, StreamersTo(c.rooms[r], u));
  }

  lemma ShareStartsFit(c: Core, r: string, u: Id, starts: seq<Start>)
    requires r in c.rooms && u in c.rooms[r].users && c.rooms[r].users[u].streaming
    requires StartsLegal(starts, c.issued, ViewersOf(c.rooms[r], u))
    ensures StartsFit(c, r, starts)
  {
    StartsLegalFit(c, r, starts, ViewersOf(c.rooms[r], u));
  }

  lemma {:induction false} CreateClient(conf: Config, c: Core, info: ClientInfo, e: Event, ch: Choice, v: Id, k: Client)
    requires TablesOk(conf, c, {}) && info.id in c.connected && info.id in c.clients && c.clients[info.id] == info
    requires e.Create? && CreateLegal(conf, c, info, e, ch) && ClientOk(c, v, k, "")
    ensures OutcomeOk(ExecuteCreate(conf, c, info, e, ch), info.id, v, k)
  {
    hide ClientOk, TurnExact, Owners, Admission, Complete, Sound, Mute, Distinct, Keyed, Agree, CompleteRoom;
    hide IsBroadcast;
    if Delegates(c, info, e) {
      JoinClient(conf, c, info, e.id, e.userName, ch, v, k);
    } else if CreateError(conf, c, info, e.id, e.mode) == None {
      var room := NewRoom(e.id, e.mode, e.closeOnOwnerLeave, info, DisplayName(info, e.userName, ch.randomName));
      var c' := ExecuteCreate(conf, c, info, e, ch).core;
      assert room.users.Keys == {info.id};
      assert Founded(c, room, info.id, c');
      FoundedBasic(c, room, info.id, c');
      FoundedClient(c, room, info.id, c', v, k);
      BroadcastKeeps(c', e.id, ch.note, v, k);
    } else {
      FreshWeaker(c, v, k, RoomOf(c, info.id));
    }
  }

  lemma {:induction false} NameClient(conf: Config, c: Core, r: string, u: Id, name: string, note: seq<Envelope>,
                                      v: Id, k: Client)
    requires TablesOk(conf, c, {}) && r in c.rooms && r != "" && u in c.rooms[r].users && ClientOk(c, v, k, "")
    requires IsBroadcast(note, WithName(c, r, u, name).rooms[r])
    ensures ClientOk(WithName(c, r, u, name), v, Replay(k, note, v), "")
  {
    hide ClientOk, IsBroadcast;
    var c' := WithName(c, r, u, name);
    NameKeeps(conf, c, r, u, name);
    hide Keyed, Agree, TurnExact, Owners, Admission, Complete, Sound, Mute, Distinct;
    EditedClient(c, r, u, c.rooms[r].users[u].(name := name), c', v, k);
    BroadcastKeeps(c', r, note, v, k);
  }

  lemma {:induction false} ShareClient(conf: Config, c: Core, r: string, u: Id, ch: Choice, v: Id, k: Client)
    requires TablesOk(conf, c, {}) && Member(c, u) && r == c.connected[u] && ClientOk(c, v, k, "")
    requires InRoomLegal(c, r, u, StartShare, ch)
    ensures OutcomeOk(ExecuteInRoom(c, r, u, StartShare, ch), u, v, k)
  {
    hide ClientOk, IsBroadcast, Keyed, Agree, TurnExact, Owners, Admission, Complete, Sound, Mute, Distinct;
    var c1 := WithStreaming(c, r, u, true);
    StreamingKeeps(conf, c, r, u);
    EditedClient(c, r, u, c.rooms[r].users[u].(streaming := true), c1, v, k);
    if ch.ip.IpFound? {
      var c2 := OpenSessions(c1, r, ch.starts);
      var invitations := Invitations(c.rooms[r].mode, ch.starts);
      var k1 := Replay(k, invitations, v);
      ShareStartsFit(c1, r, u, ch.starts);
      ShareKeeps(conf, c, r, u, ch.starts);
      OpenSessionsClient(c1, r, ch.starts, v, k, r);
      BroadcastOfUsers(ch.note, c1.rooms[r], c2.rooms[r]);
      BroadcastKeeps(c2, r, ch.note, v, k1);
      ReplayConcat(k, invitations, ch.note, v);
    }
  }

  lemma {:induction false} StopClient(conf: Config, c: Core, r: string, u: Id, ch: Choice, v: Id, k: Client)
    requires TablesOk(conf, c, {}) && Member(c, u) && r == c.connected[u] && ClientOk(c, v, k, "")
    requires InRoomLegal(c, r, u, StopShare, ch)
    ensures OutcomeOk(ExecuteInRoom(c, r, u, StopShare, ch), u, v, k)
  {
    hide ClientOk, IsBroadcast, Keyed, Agree, TurnExact, Owners, Admission, Complete, Sound, Mute, Distinct;
    var room := c.rooms[r];
    var c1 := WithStreaming(c, r, u, false);
    var c' := CloseSessions(c1, r, HostSessionsOf(room, u));
    StopShareStopped(c, r, u);
    StopKeeps(conf, c, r, u);
    StoppedClient(c, r, u, c', ch.closing, v, k);
    BroadcastOfUsers(ch.note, c1.rooms[r], c'.rooms[r]);
    BroadcastKeeps(c', r, ch.note, v, Replay(k, StopMail(room, u, ch.closing), v));
    ReplayConcat(k, StopMail(room, u, ch.closing), ch.note, v);
  }

  lemma {:induction false} RelayClient(c: Core, r: string, u: Id, e: Event, ch: Choice, v: Id, k: Client)
    requires Agree(c) && Sound(c) && Member(c, u) && r == c.connected[u] && e.Relay? && ClientOk(c, v, k, "")
    ensures OutcomeOk(ExecuteInRoom(c, r, u, e, ch), u, v, k)
  {
    hide WatchingOk, HostingOk, IsView;
    RelayFindsPeer(c, r, u, e, ch);
    var o := ExecuteInRoom(c, r, u, e, ch);
    FreshWeaker(c, v, k, RoomOf(c, u));
    if o.out != [] {
      var to := o.out[0];
      ReplayOne(k, to, v);
      if v == to.to {
        var k' := Replay(k, o.out, v);
        assert SameSeats(k, k') && k'.infos == k.infos;
        SeatsStay(c, c, v, k);
        assert v in c.rooms[r].users;
      }
    }
  }

  lemma {:induction false} InRoomClient(conf: Config, c: Core, u: Id, e: Event, ch: Choice, v: Id, k: Client)
    requires TablesOk(conf, c, {}) && Member(c, u) && ClientOk(c, v, k, "")
    requires e.Name? || e.StartShare? || e.StopShare? || e.Relay?
    requires InRoomLegal(c, c.connected[u], u, e, ch)
    ensures OutcomeOk(ExecuteInRoom(c, c.connected[u], u, e, ch), u, v, k)
  {
    var r := c.connected[u];
    match e
    case Name(name) =>
      hide ClientOk, TablesOk;
      NameClient(conf, c, r, u, name, ch.note, v, k);
    case StartShare =>
      hide ClientOk, TablesOk, ExecuteInRoom;
      ShareClient(conf, c, r, u, ch, v, k);
    case StopShare =>
      hide ClientOk, TablesOk, ExecuteInRoom;
      StopClient(conf, c, r, u, ch, v, k);
    case Relay(_, _, _) =>
      hide ClientOk, ExecuteInRoom;
      RelayClient(c, r, u, e, ch, v, k);
  }

  lemma OkParts(conf: Config, c: Core)
    requires TablesOk(conf, c, {})
    ensures Basic(c) && Agree(c) && Sound(c) && Distinct(c)
  {
    hide Keyed, Agree, Sound, Mute, Distinct;
  }

  lemma {:induction false} ExecuteClient(conf: Config, c: Core, m: ClientMessage, ch: Choice, v: Id, k: Client)
    requires TablesOk(conf, c, {}) && !m.event.Connected? && ClientOk(c, v, k, "")
    requires m.info.id in c.connected && m.info.id in c.clients && c.clients[m.info.id] == m.info
    requires ExecuteLegal(conf, c, m, ch)
    ensures OutcomeOk(Execute(conf, c, m, ch), m.info.id, v, k)
  {
    hide TablesOk, ClientOk, JoinLegal, ExecuteJoin, CreateLegal, ExecuteCreate, InRoomLegal, ExecuteInRoom;
    hide Hangup, HangupMail;
    hide HangupLegal;
    OkParts(conf, c);
    var u := m.info.id;
    match m.event
    case Disconnected(code, reason) =>
      FreshWeaker(c, v, k, RoomOf(c, u));
      HangupClient(c, u, code, reason, ch, v, k);
    case Join(id, userName) => JoinClient(conf, c, m.info, id, userName, ch, v, k);
    case Create(_, _, _, _, _) => CreateClient(conf, c, m.info, m.event, ch, v, k);
    case _ =>
      if CurrentRoomError(c, u) == None {
        InRoomClient(conf, c, u, m.event, ch, v, k);
      } else {
        FreshWeaker(c, v, k, RoomOf(c, u));
      }
  }

  lemma ConnectClient(c: Core, m: ClientMessage, v: Id, k: Client)
    requires Keyed(c) && m.event.Connected? && m.info.id !in c.issued && ClientOk(c, v, k, "")
    requires Sound(c) && Mute(c)
    ensures var c1 := Register(c, m); ClientOk(c1.(connected := c1.connected[m.info.id := ""]), v, k, "")
  {
    var c1 := Register(c, m);
    var c' := c1.(connected := c1.connected[m.info.id := ""]);
    assert m.info.id !in c.clients;
    if v == m.info.id {
      assert k == NEW_CLIENT;
      if "" in c.rooms {
        assert SoundRoom(c.rooms[""]);
      }
      assert Live(c', v) == map[];
    } else {
      SeatsStay(c, c', v, k);
    }
  }

  lemma {:induction false} StepClient(conf: Config, s: State, m: ClientMessage, ch: Choice, v: Id)
    requires TablesOk(conf, s.core, {}) && StepLegal(conf, s, m, ch) && ClientOk(s.core, v, Knows(s, v), "")
    ensures ClientOk(Step(conf, s, m, ch).core, v, Knows(Step(conf, s, m, ch), v), "")
  {
    var k := Knows(s, v);
    if m.event.Connected? {
      ConnectClient(s.core, m, v, k);
      assert s.sent + [] == s.sent;
    } else if m.info.id in s.core.connected {
      var o := Execute(conf, s.core, m, ch);
      hide ClientOk, Complete, TurnExact, Owners, Admission, Mute, Execute, ExecuteLegal;
      ExecuteClient(conf, s.core, m, ch, v, k);
      ExecuteKeeps(conf, s.core, m, ch);
      ReplayConcat(NEW_CLIENT, s.sent, o.out, v);
      if o.verdict.Failed? {
        var mail := HangupMail(o.core, m.info.id, CLOSE_NORMAL, o.verdict.reason, ch);
        HangupClient(o.core, m.info.id, CLOSE_NORMAL, o.verdict.reason, ch, v, Replay(k, o.out, v));
        ReplayConcat(NEW_CLIENT, s.sent + o.out, mail, v);
      }
    }
  }

  lemma {:induction false} RunClient(conf: Config, its: seq<Iteration>, v: Id)
    requires RunLegal(conf, its)
    ensures ClientOk(Run(conf, its).core, v, Knows(Run(conf, its), v), "")
  {
    if its != [] {
      var n := |its| - 1;
      RunClient(conf, its[..n], v);
      RunKeeps(conf, its[..n]);
      StepClient(conf, Run(conf, its[..n]), its[n].m, its[n].ch, v);
    }
  }
}
