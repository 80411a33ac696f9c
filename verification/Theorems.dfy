/** The promises of the room server, over every run, every choice and every order. */
module Theorems {
  import opened Domain
  import opened ViewOrder
  import opened Protocol
  import opened Tables
  import opened Safety
  import opened Mirror
  import opened Knowledge
  import opened Isolation
  import opened Counting
  import opened Uniqueness

  lemma ReachableOk(conf: Config, s: State)
    requires Reachable(conf, s)
    ensures TablesOk(conf, s.core, {})
  {
    hide Reachable, RunLegal, Run, TablesOk;
    var its := RunTo(conf, s);
    RunKeeps(conf, its);
  }

  lemma ReachableClient(conf: Config, s: State, u: Id)
    requires Reachable(conf, s)
    ensures ClientOk(s.core, u, Knows(s, u), "")
  {
    hide Reachable, RunLegal, Run, ClientOk, Knows;
    var its := RunTo(conf, s);
    RunClient(conf, its, u);
  }

  // ---------- tables ----------

  /** For a non-empty room id, the room table and the connection table tell the same story. */
  lemma MembershipAgreement(conf: Config, s: State, r: string, u: Id)
    requires Reachable(conf, s) && r != ""
    ensures var c := s.core;
      && (r in c.rooms && u in c.rooms[r].users <==> u in c.connected && c.connected[u] == r)
      && (r in c.rooms ==> c.rooms[r].id == r && c.rooms[r].users != map[])
      && (r in c.rooms && u in c.rooms[r].users ==> c.rooms[r].users[u].id == u)
  {
    hide Reachable;
    ReachableOk(conf, s);
  }

  /** No handler of any run dereferences a missing user. */
  lemma NoPanic(conf: Config, s: State, m: ClientMessage, ch: Choice)
    requires Reachable(conf, s) && StepLegal(conf, s, m, ch)
    ensures var c := s.core;
      !Ignored(c, m) ==> !Execute(conf, Register(c, m), m, ch).verdict.Panicked?
  {
    hide Reachable, TablesOk, StepLegal, Execute;
    ReachableOk(conf, s);
    StepKeeps(conf, s, m, ch);
  }

  /** In every room, h has a session to v exactly when h streams and v is another member. */
  lemma SessionsFollowStreams(conf: Config, s: State, r: string, h: Id, v: Id)
    requires Reachable(conf, s) && r in s.core.rooms
    ensures var room := s.core.rooms[r];
      HasSession(room, h, v) <==> h in room.users && v in room.users && h != v && room.users[h].streaming
  {
    hide Reachable;
    ReachableOk(conf, s);
    var c := s.core;
    assert SoundRoom(c.rooms[r]) && CompleteRoom(c.rooms[r], {});
  }

  /** One of the two names of a live session of a turn-mode room. */
  ghost predicate NameOf(c: Core, r: string, id: Id, username: string) {
    r in c.rooms && c.rooms[r].mode == "turn" && id in c.rooms[r].sessions &&
    (username == id + "host" || username == id + "client")
  }

  /** A user name authenticates exactly when it is one of the two of a live session of a turn-mode room. */
  lemma AuthenticateExactly(conf: Config, s: State, username: string)
    requires Reachable(conf, s)
    ensures var c := s.core; username in c.lookup <==> exists r, id :: NameOf(c, r, id, username)
    ensures Authenticate(s.core.lookup, username) ==
      if username in s.core.lookup then Some(s.core.lookup[username].key) else None
  {
    hide Reachable;
    ReachableOk(conf, s);
    var c := s.core;
    if username in c.lookup {
      assert KeyOwned(c, username);
      var r, id :| TurnSession(c, r, id) && (username == HostKey(id) || username == ClientKey(id));
      assert NameOf(c, r, id, username);
    }
    if r, id :| NameOf(c, r, id, username) {
      assert TurnSession(c, r, id) && Keyholder(c, r, id);
    }
  }

  /** The two entries of such a session hold the addresses with which its two ends connected. */
  lemma EntryAddresses(conf: Config, s: State, r: string, id: Id)
    requires Reachable(conf, s)
    requires r in s.core.rooms && s.core.rooms[r].mode == "turn" && id in s.core.rooms[r].sessions
    ensures var c := s.core; var x := c.rooms[r].sessions[id];
      && x.host in c.clients && x.client in c.clients && id + "host" in c.lookup && id + "client" in c.lookup
      && c.lookup[id + "host"].addr == c.clients[x.host].addr
      && c.lookup[id + "client"].addr == c.clients[x.client].addr
  {
    hide Reachable;
    ReachableOk(conf, s);
    assert TurnSession(s.core, r, id) && Keyholder(s.core, r, id) && SoundRoom(s.core.rooms[r]);
  }

  function OwnersOf(room: RoomState): set<Id> {
    set u | u in room.users && room.users[u].owner
  }

  /** At most one owner, exactly one where the room closes with it. */
  lemma OneOwner(conf: Config, s: State, r: string)
    requires Reachable(conf, s) && r != "" && r in s.core.rooms
    ensures var room := s.core.rooms[r];
      |OwnersOf(room)| <= 1 && (room.closeOnOwnerLeave ==> |OwnersOf(room)| == 1)
  {
    hide Reachable;
    ReachableOk(conf, s);
    OwnersCount(s.core.rooms[r]);
  }

  lemma OwnersCount(room: RoomState)
    requires OwnersRoom(room)
    ensures |OwnersOf(room)| <= 1 && (room.closeOnOwnerLeave ==> |OwnersOf(room)| == 1)
  {
    if u :| u in room.users && room.users[u].owner {
      assert OwnersOf(room) == {u};
    } else {
      assert OwnersOf(room) == {};
    }
  }

  /**
   Every member passed the check of its room: with mode "all" it is logged in, with mode
   "turn" it is unless the room is local or stun, and with an unknown mode nobody is a member.
   */
  lemma MembersAdmitted(conf: Config, s: State, r: string, u: Id)
    requires Reachable(conf, s)
    ensures var c := s.core;
      r in c.rooms && u in c.rooms[r].users ==>
        && u in c.clients && CheckAuth(conf, c.rooms[r].mode, c.clients[u].authenticated) == None
        && (conf.authMode == "all" ==> c.clients[u].authenticated)
        && (conf.authMode == "turn" && c.rooms[r].mode != "local" && c.rooms[r].mode != "stun" ==>
              c.clients[u].authenticated)
        && (conf.authMode == "none" || conf.authMode == "all" || conf.authMode == "turn")
  {
    hide Reachable;
    ReachableOk(conf, s);
  }

  lemma TurnNeedsLogin(conf: Config, clients: map<Id, ClientInfo>, mode: string)
    requires conf.authMode == AUTH_TURN && mode == MODE_TURN
    ensures forall u | u in clients && CheckAuth(conf, mode, clients[u].authenticated) == None ::
      clients[u].authenticated
  {
  }

  /** With mode "turn", both ends of a session that has TURN credentials are logged in. */
  lemma CredentialsForLoggedIn(conf: Config, s: State, r: string, id: Id)
    requires Reachable(conf, s) && conf.authMode == "turn"
    requires r in s.core.rooms && s.core.rooms[r].mode == "turn" && id in s.core.rooms[r].sessions
    ensures var c := s.core; var x := c.rooms[r].sessions[id];
      && x.host in c.clients && c.clients[x.host].authenticated
      && x.client in c.clients && c.clients[x.client].authenticated
  {
    hide Reachable, TablesOk, CheckAuth;
    ReachableOk(conf, s);
    var c := s.core;
    var x := c.rooms[r].sessions[id];
    OkIsSound(conf, c, {});
    assert SoundRoom(c.rooms[r]);
    TurnNeedsLogin(conf, c.clients, c.rooms[r].mode);
    MembersAdmitted(conf, s, r, x.host);
    MembersAdmitted(conf, s, r, x.client);
  }

  // ---------- clients ----------

  /** A live session of any room. */
  ghost predicate LiveSession(c: Core, id: Id, host: Id, client: Id) {
    exists r :: r in c.rooms && id in c.rooms[r].sessions && c.rooms[r].sessions[id] == Session(host, client)
  }

  /** A connected client that folds its messages knows exactly its live sessions, and who is at the other end. */
  lemma ClientMirror(conf: Config, s: State, u: Id, id: Id, peer: Id)
    requires Reachable(conf, s) && u in s.core.connected
    ensures var c := s.core; var k := Knows(s, u);
      && (id in k.watching && k.watching[id].peer == peer <==> LiveSession(c, id, peer, u))
      && (id in k.hosting && k.hosting[id].peer == peer <==> LiveSession(c, id, u, peer))
  {
    hide Reachable;
    ReachableOk(conf, s);
    ReachableClient(conf, s, u);
    SessionsOfOwnRoom(conf, s.core, u, id, peer);
  }

  /** Sessions of a connected client are sessions of its room. */
  lemma SessionsOfOwnRoom(conf: Config, c: Core, u: Id, id: Id, peer: Id)
    requires Agree(c) && Sound(c) && Mute(c) && u in c.connected
    ensures LiveSession(c, id, peer, u) <==> id in Live(c, u) && Live(c, u)[id] == Session(peer, u)
    ensures LiveSession(c, id, u, peer) <==> id in Live(c, u) && Live(c, u)[id] == Session(u, peer)
  {
    forall r | r in c.rooms && id in c.rooms[r].sessions &&
               (c.rooms[r].sessions[id].host == u || c.rooms[r].sessions[id].client == u)
      ensures r == RoomOf(c, u)
    {
      assert SoundRoom(c.rooms[r]);
      assert r != "";
    }
    if id in Live(c, u) {
      assert RoomOf(c, u) in c.rooms;
    }
  }

  /** The TURN server accepts the credential, under the name it was sent with, and knows the address it is for. */
  ghost predicate Accepted(lookup: map<string, Entry>, ice: Ice, username: string, addr: string) {
    ice.Turn? && ice.username == username && username in lookup &&
    lookup[username] == Entry(addr, AuthKey(username, "screego", ice.credential))
  }

  /** A client has for each live session the ICE servers of its room's mode, in turn mode with a good credential. */
  lemma CredentialsWork(conf: Config, s: State, u: Id, id: Id)
    requires Reachable(conf, s) && u in s.core.connected && s.core.connected[u] in s.core.rooms
    ensures var c := s.core; var k := Knows(s, u); var mode := c.rooms[c.connected[u]].mode;
      && u in c.clients
      && (id in k.watching ==>
            if mode == "turn" then Accepted(c.lookup, k.watching[id].ice, id + "client", c.clients[u].addr)
            else k.watching[id].ice == if mode == "stun" then Stun else NoServers)
      && (id in k.hosting ==>
            if mode == "turn" then Accepted(c.lookup, k.hosting[id].ice, id + "host", c.clients[u].addr)
            else k.hosting[id].ice == if mode == "stun" then Stun else NoServers)
  {
    hide Reachable, Knows;
    ReachableOk(conf, s);
    ReachableClient(conf, s, u);
    var c := s.core;
    var k := Knows(s, u);
    var r := c.connected[u];
    assert Keyed(c);
    if id in k.watching {
      assert SeatOk(c, r, ClientKey(id), Live(c, u)[id].host, k.watching[id]);
      if c.rooms[r].mode == "turn" {
        EntryAddresses(conf, s, r, id);
      }
    }
    if id in k.hosting {
      assert SeatOk(c, r, HostKey(id), Live(c, u)[id].client, k.hosting[id]);
      if c.rooms[r].mode == "turn" {
        EntryAddresses(conf, s, r, id);
      }
    }
  }

  /**
   A client is connected exactly until it is sent CloseWriter; it is sent one at most, and
   without a room "" nothing after it.
   */
  lemma CloseWriterIsFinal(conf: Config, s: State, u: Id)
    requires Reachable(conf, s) && u in s.core.clients
    ensures var c := s.core; var k := Knows(s, u);
      && k.closes <= 1 && (u in c.connected <==> k.closes == 0)
      && ("" !in c.rooms ==> k.late == 0)
  {
    hide Reachable;
    ReachableClient(conf, s, u);
  }

  /** The last view a member was sent of its room is the room as it is now. */
  lemma ViewsAreFresh(conf: Config, s: State, r: string, u: Id)
    requires Reachable(conf, s) && r != ""
    requires r in s.core.rooms && u in s.core.rooms[r].users
    ensures var c := s.core; var k := Knows(s, u);
      && r in k.infos && IsView(k.infos[r], c.rooms[r].users, u)
      && ("" !in c.rooms ==> k.lastRoom == Some(r))
  {
    hide Reachable;
    ReachableOk(conf, s);
    ReachableClient(conf, s, u);
    var c := s.core;
    assert RoomOf(c, u) == r;
  }

  /** A view shows each user once, as it is, and You on the reader only. */
  lemma ViewShowsEverybody(view: seq<UserView>, users: map<Id, UserState>, me: Id, u: Id)
    requires IsView(view, users, me) && forall v | v in users :: users[v].id == v
    ensures |view| == |users|
    ensures u in users ==> UserView(u, users[u].name, users[u].streaming, u == me, users[u].owner) in view
    ensures forall i | 0 <= i < |view| :: view[i].you <==> view[i].id == me
    ensures forall i | 0 <= i < |view| && view[i].owner :: forall j | 0 <= j < i :: view[j].owner
  {
    var shown := set i | 0 <= i < |view| :: view[i].id;
    DistinctIds(view, shown);
    assert shown <= users.Keys;
    SubsetOfSameSize(shown, users.Keys);
    if u in users {
      assert u in shown;
      var i :| 0 <= i < |view| && view[i].id == u;
      assert view[i] == UserView(u, users[u].name, users[u].streaming, u == me, users[u].owner);
    }
    forall i, j | 0 <= j < i < |view| && view[i].owner ensures view[j].owner {
      SortedMeans(view, j, i);
    }
  }

  /** The last view that a member v was sent of its room shows each member u as it is now. */
  lemma MembersSee(conf: Config, s: State, r: string, v: Id, u: Id)
    requires Reachable(conf, s) && r != ""
    requires r in s.core.rooms && v in s.core.rooms[r].users && u in s.core.rooms[r].users
    ensures var k, user := Knows(s, v), s.core.rooms[r].users[u];
      r in k.infos && UserView(u, user.name, user.streaming, u == v, user.owner) in k.infos[r]
  {
    hide Reachable, Knows, IsView;
    ViewsAreFresh(conf, s, r, v);
    ReachableOk(conf, s);
    ViewShowsEverybody(Knows(s, v).infos[r], s.core.rooms[r].users, v, u);
  }

  lemma {:induction false} DistinctIds(view: seq<UserView>, ids: set<Id>)
    requires forall i, j | 0 <= i < j < |view| :: view[i].id != view[j].id
    requires ids == set i | 0 <= i < |view| :: view[i].id
    ensures |ids| == |view|
  {
    if view != [] {
      var n := |view| - 1;
      var rest := set i | 0 <= i < n :: view[..n][i].id;
      assert rest == set i | 0 <= i < |view[..n]| :: view[..n][i].id;
      DistinctIds(view[..n], rest);
      forall x ensures x in ids <==> x in rest + {view[n].id} {
        if x in ids {
          var i :| 0 <= i < |view| && view[i].id == x;
          assert i < n ==> view[..n][i].id == x;
        }
        if x in rest {
          var i :| 0 <= i < n && view[..n][i].id == x;
          assert view[i].id == x;
        }
      }
      assert ids == rest + {view[n].id};
    }
  }

  lemma SubsetOfSameSize(a: set<Id>, b: set<Id>)
    requires a <= b && |a| == |b|
    ensures a == b
  {
    assert b == a + (b - a);
    assert |b| == |a| + |b - a|;
  }

  // ---------- counters ----------

  /** Created minus closed is what there is, and joined minus left too, unless there is a room "". */
  lemma Conservation(conf: Config, s: State)
    requires Reachable(conf, s)
    ensures var c := s.core;
      && c.metrics.roomsCreated - c.metrics.roomsClosed == |c.rooms|
      && c.metrics.sessionsCreated - c.metrics.sessionsClosed == |SessionPairs(c)|
      && ("" !in c.rooms ==> c.metrics.usersJoined - c.metrics.usersLeft == |MemberPairs(c)|)
      && c.metrics.usersJoined - c.metrics.usersLeft >= |MemberPairs(c)|
  {
    hide Reachable, RunLegal, Run, Rejoined, MemberPairs, SessionPairs;
    var its := RunTo(conf, s);
    RunDrift(conf, its);
    if "" !in s.core.rooms {
      RejoinedNeedsEmptyId(conf, its);
    }
  }

  /** The room with the empty id never closes and never loses a user. */
  lemma {:induction false} EmptyIdStays(conf: Config, s: State, m: ClientMessage, ch: Choice)
    requires TablesOk(conf, s.core, {}) && StepLegal(conf, s, m, ch) && "" in s.core.rooms
    ensures var c' := Step(conf, s, m, ch).core;
      "" in c'.rooms && s.core.rooms[""].users.Keys <= c'.rooms[""].users.Keys
  {
    var c := s.core;
    if m.event.Connected? || m.info.id !in c.connected {
      hide TablesOk;
    } else if Target(c, m) != Some("") {
      hide TablesOk, Step, StepLegal;
      StepLocal(conf, s, m, ch);
    } else {
      EmptyIdStaysEntered(conf, s, m, ch);
    }
  }

  lemma EmptyIdStaysEntered(conf: Config, s: State, m: ClientMessage, ch: Choice)
    requires Keyed(s.core) && StepLegal(conf, s, m, ch) && "" in s.core.rooms && Target(s.core, m) == Some("")
    requires !m.event.Connected? && m.info.id in s.core.connected
    ensures var c' := Step(conf, s, m, ch).core;
      "" in c'.rooms && s.core.rooms[""].users.Keys <= c'.rooms[""].users.Keys
  {
    hide IsBroadcast, StartsLegal, Invitations, HangupLegal, Hangup, HangupMail, CheckAuth;
    var c := s.core;
    var o := Execute(conf, c, m, ch);
    assert m.event.Join? || m.event.Create?;
    assert RoomOf(o.core, m.info.id) == "";
    HangupOther(o.core, m.info.id);
  }

  lemma HangupOther(c: Core, u: Id)
    requires RoomOf(c, u) == ""
    ensures Hangup(c, u) == c.(connected := c.connected - {u})
  {
  }

  lemma {:induction false} RejoinedNeedsEmptyId(conf: Config, its: seq<Iteration>)
    requires RunLegal(conf, its) && "" !in Run(conf, its).core.rooms
    ensures Rejoined(conf, its) == 0
  {
    if its != [] {
      var n := |its| - 1;
      var s := Run(conf, its[..n]);
      RunKeeps(conf, its[..n]);
      if "" in s.core.rooms {
        EmptyIdStays(conf, s, its[n].m, its[n].ch);
      }
      RejoinedNeedsEmptyId(conf, its[..n]);
      if Rejoins(conf, s.core, its[n].m) {
        RejoinsEmptyId(conf, s.core, its[n].m);
      }
    }
  }

  // ---------- session counts ----------

  /** At least one session for each streamer and each other member. */
  lemma RoomSessionCount(conf: Config, s: State, r: string)
    requires Reachable(conf, s) && r in s.core.rooms
    ensures var room := s.core.rooms[r]; |room.sessions| >= |Streamers(room)| * (|room.users| - 1)
  {
    hide Reachable, TablesOk, SoundRoom, CompleteRoom;
    ReachableOk(conf, s);
    OkRoom(conf, s.core, r);
    SessionCount(s.core.rooms[r]);
  }

  /** Exactly one if nobody of the run shares while it streams to others. */
  lemma {:induction false} ExactSessionCount(conf: Config, its: seq<Iteration>, r: string)
    requires RunLegal(conf, its) && NeverReshares(conf, its)
    ensures r in Run(conf, its).core.rooms ==>
      var room := Run(conf, its).core.rooms[r]; |room.sessions| == |Streamers(room)| * (|room.users| - 1)
  {
    hide RunLegal, Run, NeverReshares, TablesOk, SoundRoom, CompleteRoom;
    var c := Run(conf, its).core;
    if r in c.rooms {
      RunKeeps(conf, its);
      OkRoom(conf, c, r);
      SessionCount(c.rooms[r]);
      RunUnique(conf, its);
    }
  }

  lemma OkRoom(conf: Config, c: Core, r: string)
    requires TablesOk(conf, c, {}) && r in c.rooms
    ensures SoundRoom(c.rooms[r]) && CompleteRoom(c.rooms[r], {})
  {
    hide SoundRoom, CompleteRoom;
  }
}
