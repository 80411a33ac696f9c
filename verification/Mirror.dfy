/**
 A reference client: what a client knows that folds the messages it was sent.
 The invariant says that this knowledge agrees with the server's tables.
 */
module Mirror {
  import opened Domain
  import opened Protocol

  datatype Seat = Seat(peer: Id, ice: Ice)

  datatype Client = Client(
    watching: map<Id, Seat>,             // from ClientSession, until EndShare
    hosting: map<Id, Seat>,              // from HostSession, until EndShare or its own StopShare
    infos: map<string, seq<UserView>>,   // the last Room message of each room id
    lastRoom: Option<string>,            // the room id of the last Room message
    closes: nat,                         // CloseWriter messages
    late: nat)                           // messages after the first CloseWriter

  const NEW_CLIENT := Client(map[], map[], map[], None, 0, 0)

  function Hear(k: Client, msg: Message): Client {
    match msg
    case RoomInfo(id, users) => k.(infos := k.infos[id := users], lastRoom := Some(id))
    case HostSession(id, peer, ice) => k.(hosting := k.hosting[id := Seat(peer, ice)])
    case ClientSession(id, peer, ice) => k.(watching := k.watching[id := Seat(peer, ice)])
    case EndShare(id) => k.(watching := k.watching - {id}, hosting := k.hosting - {id})
    case Relayed(_, _, _) => k
    case CloseWriter(_, _) => k.(closes := k.closes + 1)
  }

  function See(k: Client, item: Item): Client {
    match item
    case StopShareDone => k.(hosting := map[])
    case Sent(msg) => Hear(if k.closes > 0 then k.(late := k.late + 1) else k, msg)
  }

  /** u reads its part of mail. */
  function Replay(k: Client, mail: seq<Envelope>, u: Id): Client {
    if mail == [] then k
    else
      var k1 := Replay(k, mail[..|mail| - 1], u);
      var e := mail[|mail| - 1];
      if e.to == u then See(k1, e.item) else k1
  }

  function Knows(s: State, u: Id): Client {
    Replay(NEW_CLIENT, s.sent, u)
  }

  lemma {:induction false} ReplayConcat(k: Client, a: seq<Envelope>, b: seq<Envelope>, u: Id)
    ensures Replay(k, a + b, u) == Replay(Replay(k, a, u), b, u)
  {
    if b == [] {
      assert a + b == a;
    } else {
      var n := |b| - 1;
      ReplayConcat(k, a, b[..n], u);
      assert (a + b)[..|a + b| - 1] == a + b[..n];
    }
  }

  lemma ReplayOne(k: Client, e: Envelope, v: Id)
    ensures Replay(k, [e], v) == if e.to == v then See(k, e.item) else k
  {
    assert [e][..0] == [];
  }

  ghost predicate Addressed(mail: seq<Envelope>, u: Id) {
    exists i :: 0 <= i < |mail| && mail[i].to == u
  }

  lemma {:induction false} ReplayNothing(k: Client, mail: seq<Envelope>, u: Id)
    requires !Addressed(mail, u)
    ensures Replay(k, mail, u) == k
  {
    if mail != [] {
      var n := |mail| - 1;
      assert mail[n].to != u;
      forall i | 0 <= i < n ensures mail[..n][i].to != u {
        assert mail[..n][i] == mail[i];
      }
      ReplayNothing(k, mail[..n], u);
    }
  }

  // ---------- what each kind of mail does to a client ----------

  /** A broadcast gives every user of the room one view of it, and nobody else anything. */
  lemma {:induction false} ReplayNotes(k: Client, note: seq<Envelope>, room: RoomState, u: Id)
    returns (view: seq<UserView>)
    requires forall i | 0 <= i < |note| :: IsNote(note[i], room)
    requires forall i, j | 0 <= i < j < |note| :: note[i].to != note[j].to
    requires Addressed(note, u)
    ensures IsView(view, room.users, u)
    ensures Replay(k, note, u) == See(k, Sent(RoomInfo(room.id, view)))
  {
    var n := |note| - 1;
    if note[n].to == u {
      ReplayNothing(k, note[..n], u);
      view := note[n].item.msg.users;
      assert IsNote(note[n], room);
    } else {
      var i :| 0 <= i < |note| && note[i].to == u;
      assert note[..n][i].to == u;
      view := ReplayNotes(k, note[..n], room, u);
    }
  }

  lemma {:induction false} ReplayBroadcast(k: Client, note: seq<Envelope>, room: RoomState, u: Id)
    returns (view: seq<UserView>)
    requires IsBroadcast(note, room)
    ensures u in room.users ==>
      IsView(view, room.users, u) && Replay(k, note, u) == See(k, Sent(RoomInfo(room.id, view)))
    ensures u !in room.users ==> Replay(k, note, u) == k && !Addressed(note, u)
  {
    if u in room.users {
      view := ReplayNotes(k, note, room, u);
    } else {
      assert forall i | 0 <= i < |note| :: IsNote(note[i], room);
      ReplayNothing(k, note, u);
      view := [];
    }
  }

  /** A broadcast depends on the users of a room, not on its sessions. */
  lemma BroadcastOfUsers(note: seq<Envelope>, room: RoomState, room': RoomState)
    requires IsBroadcast(note, room) && room'.users == room.users && room'.id == room.id
    ensures IsBroadcast(note, room')
  {
    forall i | 0 <= i < |note| ensures IsNote(note[i], room') {
      assert IsNote(note[i], room);
    }
  }

  /** The sessions among order whose end is announced to v. */
  function Announced(room: RoomState, u: Id, order: seq<Id>, v: Id): set<Id> {
    set id | id in order && id in room.sessions && PeerOf(room.sessions[id], u) == v && v in room.users
  }

  /** k after EndShare for every id in ids. */
  function Forget(k: Client, ids: set<Id>): Client {
    k.(watching := k.watching - ids, hosting := k.hosting - ids)
  }

  lemma ForgetTwice(k: Client, a: set<Id>, id: Id)
    ensures Forget(Forget(k, a), {id}) == Forget(k, a + {id})
  {
    assert k.watching - a - {id} == k.watching - (a + {id});
    assert k.hosting - a - {id} == k.hosting - (a + {id});
  }

  lemma AnnouncedNext(room: RoomState, u: Id, order: seq<Id>, v: Id)
    requires order != []
    ensures var id := order[|order| - 1];
      Announced(room, u, order, v) == Announced(room, u, order[..|order| - 1], v) +
        if id in room.sessions && PeerOf(room.sessions[id], u) == v && v in room.users then {id} else {}
  {
    assert order == order[..|order| - 1] + [order[|order| - 1]];
  }

  lemma NothingForgotten(k: Client, room: RoomState, u: Id, v: Id)
    ensures Replay(k, Notices(room, u, []), v) == Forget(k, Announced(room, u, [], v))
  {
    assert Announced(room, u, [], v) == {};
  }

  /** Reading one more EndShare. */
  lemma ReplayEndShare(k: Client, mail: seq<Envelope>, id: Id, to: Id, v: Id)
    requires Replay(k, mail, v).closes == 0
    ensures var k1 := Replay(k, mail, v);
      Replay(k, mail + [Envelope(to, Sent(EndShare(id)))], v) == if to == v then Forget(k1, {id}) else k1
  {
    var e := Envelope(to, Sent(EndShare(id)));
    ReplayConcat(k, mail, [e], v);
    ReplayOne(Replay(k, mail, v), e, v);
  }

  lemma {:induction false} ReplayNotices(k: Client, room: RoomState, u: Id, order: seq<Id>, v: Id)
    requires k.closes == 0
    ensures Replay(k, Notices(room, u, order), v) == Forget(k, Announced(room, u, order, v))
  {
    hide Replay, Announced;
    if order == [] {
      NothingForgotten(k, room, u, v);
    } else {
      var n := |order| - 1;
      var id := order[n];
      ReplayNotices(k, room, u, order[..n], v);
      AnnouncedNext(room, u, order, v);
      var mail0 := Notices(room, u, order[..n]);
      if id in room.sessions && PeerOf(room.sessions[id], u) in room.users {
        ReplayEndShare(k, mail0, id, PeerOf(room.sessions[id], u), v);
        ForgetTwice(k, Announced(room, u, order[..n], v), id);
      } else {
        assert Notices(room, u, order) == mail0 + [] == mail0;
      }
    }
  }

  lemma {:induction false} NoticesAddress(room: RoomState, u: Id, order: seq<Id>, v: Id)
    requires forall id | id in order :: id in room.sessions
    ensures Addressed(Notices(room, u, order), v) ==>
      v in room.users && exists id :: id in order && id in room.sessions && PeerOf(room.sessions[id], u) == v
  {
    if order != [] {
      var n := |order| - 1;
      NoticesAddress(room, u, order[..n], v);
      var mail0 := Notices(room, u, order[..n]);
      var mail := Notices(room, u, order);
      if i :| 0 <= i < |mail| && mail[i].to == v {
        if i < |mail0| {
          assert mail0[i].to == v;
          var id :| id in order[..n] && id in room.sessions && PeerOf(room.sessions[id], u) == v;
          assert id in order;
        } else {
          assert order[n] in order;
        }
      }
    }
  }

  lemma {:induction false} ReplayGoodbyes(k: Client, kicked: seq<Id>, v: Id)
    requires forall i, j | 0 <= i < j < |kicked| :: kicked[i] != kicked[j]
    ensures Replay(k, Goodbyes(kicked), v) ==
      if v in kicked then See(k, Sent(CloseWriter(CLOSE_NORMAL, CLOSE_OWNER_LEFT))) else k
  {
    if kicked != [] {
      var n := |kicked| - 1;
      ReplayGoodbyes(k, kicked[..n], v);
      assert Goodbyes(kicked)[..n] == Goodbyes(kicked[..n]);
      assert kicked == kicked[..n] + [kicked[n]];
    }
  }

  lemma ReplayInvitation(k: Client, mode: string, st: Start, v: Id)
    requires k.closes == 0 && st.host != st.client
    ensures Replay(k, Invitation(mode, st), v) ==
      if v == st.host then
        k.(hosting := k.hosting[st.id := Seat(st.client, IceFor(mode, HostKey(st.id), st.hostPassword))])
      else if v == st.client then
        k.(watching := k.watching[st.id := Seat(st.host, IceFor(mode, ClientKey(st.id), st.clientPassword))])
      else k
  {
    var mail := Invitation(mode, st);
    assert mail == [mail[0]] + [mail[1]];
    ReplayConcat(k, [mail[0]], [mail[1]], v);
    ReplayOne(k, mail[0], v);
    ReplayOne(Replay(k, [mail[0]], v), mail[1], v);
  }

  lemma {:induction false} InvitationsAddress(mode: string, starts: seq<Start>, v: Id)
    ensures Addressed(Invitations(mode, starts), v) ==>
      exists i :: 0 <= i < |starts| && (starts[i].host == v || starts[i].client == v)
  {
    if starts != [] {
      var n := |starts| - 1;
      InvitationsAddress(mode, starts[..n], v);
      var mail0 := Invitations(mode, starts[..n]);
      var mail := Invitations(mode, starts);
      if i :| 0 <= i < |mail| && mail[i].to == v {
        if i < |mail0| {
          assert mail0[i].to == v;
          var j :| 0 <= j < n && (starts[..n][j].host == v || starts[..n][j].client == v);
          assert starts[j].host == v || starts[j].client == v;
        } else {
          assert starts[n].host == v || starts[n].client == v;
        }
      }
    }
  }
}
