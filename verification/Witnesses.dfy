/**
 Concrete runs that reach the states other modules speak of: what the room id "" does to those who leave and to the
 counters, what a second StartShare does to the sessions, and a room in turn mode that closes with its owner.
 */
module Witnesses {
  import opened Domain
  import opened ViewOrder
  import opened Protocol
  import opened Mirror
  import opened Counting
  import opened Uniqueness

  const CONF := Config("turn")

  // Both have logged in.
  const A := ClientInfo("a", true, "x", "")
  const B := ClientInfo("b", true, "y", "")

  const X := UserState("a", "", "x", false, true)
  const X_SHARING := X.(streaming := true)
  const Y := UserState("b", "", "y", false, false)

  // ---------- a founds a room, and b joins it ----------

  /** What a room is founded with. */
  datatype Kind = Kind(r: string, mode: string, closeOnOwnerLeave: bool)

  const NAMELESS := Kind("", "local", false)
  const LOCAL := Kind("r", "local", false)
  const RELAYED := Kind("r", "turn", true)

  function Alone(k: Kind): RoomState {
    RoomState(k.r, k.closeOnOwnerLeave, k.mode, map["a" := X], map[])
  }

  function Both(k: Kind, a: UserState, sessions: map<Id, Session>): RoomState {
    RoomState(k.r, k.closeOnOwnerLeave, k.mode, map["a" := a, "b" := Y], sessions)
  }

  function ToA(r: string): seq<Envelope> {
    [Envelope("a", Sent(RoomInfo(r, [Show(X, "a")])))]
  }

  function ToBoth(r: string, a: UserState): seq<Envelope> {
    [Envelope("a", Sent(RoomInfo(r, [Show(a, "a"), Show(Y, "a")]))),
     Envelope("b", Sent(RoomInfo(r, [Show(a, "b"), Show(Y, "b")])))]
  }

  lemma ToAIsBroadcast(k: Kind)
    ensures IsBroadcast(ToA(k.r), Alone(k))
  {
    assert |Alone(k).users| == |Alone(k).users.Keys| && Alone(k).users.Keys == {"a"};
    assert ToA(k.r)[0].to == "a";
  }

  lemma ViewOfBoth(k: Kind, a: UserState, sessions: map<Id, Session>, me: Id)
    requires a == X || a == X_SHARING
    ensures IsView([Show(a, me), Show(Y, me)], Both(k, a, sessions).users, me)
  {
    var users := Both(k, a, sessions).users;
    assert |users| == |users.Keys| && users.Keys == {"a", "b"};
    assert !Less(Show(Y, me), Show(a, me));
  }

  lemma ToBothIsBroadcast(k: Kind, a: UserState, sessions: map<Id, Session>)
    requires a == X || a == X_SHARING
    ensures IsBroadcast(ToBoth(k.r, a), Both(k, a, sessions))
  {
    hide IsView;
    ViewOfBoth(k, a, sessions, "a");
    ViewOfBoth(k, a, sessions, "b");
    assert Both(k, a, sessions).users.Keys == {"a", "b"};
    assert ToBoth(k.r, a)[0].to == "a" && ToBoth(k.r, a)[1].to == "b";
  }

  const CONNECT_A := Iteration(ClientMessage(A, true, Connected), QUIET)
  const CONNECT_B := Iteration(ClientMessage(B, true, Connected), QUIET)

  function CreateRoom(k: Kind): Iteration {
    Iteration(ClientMessage(A, false, Create(k.r, k.mode, k.closeOnOwnerLeave, "", false)), QUIET.(note := ToA(k.r)))
  }

  function JoinRoom(r: string): Iteration {
    Iteration(ClientMessage(B, false, Join(r, "")), QUIET.(note := ToBoth(r, X)))
  }

  const NONE := Metrics(0, 0, 0, 0, 0, 0)
  const ONE := NONE.(roomsCreated := 1, usersJoined := 1)

  /** a is connected. */
  const START := State(Core(map["a" := ""], map[], map[], NONE, map["a" := A], {"a"}), [])

  lemma ConnectA()
    ensures Goes(CONF, INIT, CONNECT_A, START)
  {
  }

  /** a has founded its room. */
  function Founded(k: Kind): State {
    State(Core(map["a" := k.r], map[k.r := Alone(k)], map[], ONE, map["a" := A], {"a"}), ToA(k.r))
  }

  lemma AloneIsNew(k: Kind)
    ensures NewRoom(k.r, k.mode, k.closeOnOwnerLeave, A, "x") == Alone(k) && Alone(k).id == k.r
  {
  }

  lemma CreateGoes(k: Kind)
    ensures Goes(CONF, START, CreateRoom(k), Founded(k))
  {
    hide IsBroadcast, NewRoom, Alone, ToA;
    ToAIsBroadcast(k);
    AloneIsNew(k);
    assert CreateError(CONF, START.core, A, k.r, k.mode) == None;
    assert START.core.connected["a" := k.r] == map["a" := k.r];
    assert START.core.rooms[k.r := Alone(k)] == map[k.r := Alone(k)];
    assert START.sent + ToA(k.r) == ToA(k.r);
  }

  lemma FoundedIsReachable(k: Kind)
    ensures Reachable(CONF, Founded(k))
  {
    hide Reachable, Goes;
    ReachNothing(CONF);
    ConnectA();
    ReachNext(CONF, INIT, CONNECT_A, START);
    CreateGoes(k);
    ReachNext(CONF, START, CreateRoom(k), Founded(k));
  }

  /** b enters the room of a state in which it is in no room. */
  lemma JoinGoes(k: Kind, s: State, s': State)
    requires s.core.rooms == map[k.r := Alone(k)] || s.core.rooms == map[k.r := Both(k, X, map[])]
    requires "b" in s.core.connected && s.core.connected["b"] == "" && "b" in s.core.clients && s.core.clients["b"] == B
    requires s'.core == s.core.(rooms := map[k.r := Both(k, X, map[])], connected := s.core.connected["b" := k.r],
                                metrics := s.core.metrics.(usersJoined := s.core.metrics.usersJoined + 1))
    requires s'.sent == s.sent + ToBoth(k.r, X)
    ensures Goes(CONF, s, JoinRoom(k.r), s')
  {
    hide IsBroadcast, ToBoth;
    ToBothIsBroadcast(k, X, map[]);
    var c := s.core;
    assert JoinError(CONF, c, B, k.r) == None;
    assert Admitted(c, B, k.r, "y").rooms[k.r].users == Both(k, X, map[]).users;
    assert Admitted(c, B, k.r, "y").rooms == map[k.r := Both(k, X, map[])];
    assert StreamersTo(Both(k, X, map[]), "b") == {};
    assert ToBoth(k.r, X) + [] == ToBoth(k.r, X);
  }

  // ---------- the room "" ----------

  const BYE := [Envelope("a", Sent(CloseWriter(1001, "")))]

  const CLOSE := Iteration(ClientMessage(A, false, Disconnected(1001, "")), QUIET)

  /** a has gone, b is connected. */
  const GONE := State(Core(map[], map["" := Alone(NAMELESS)], map[], ONE, map["a" := A], {"a"}), ToA("") + BYE)
  const GONE_B := State(Core(map["b" := ""], map["" := Alone(NAMELESS)], map[], ONE, map["a" := A, "b" := B],
                             {"a", "b"}),
                        GONE.sent)

  /** b has joined, once and twice. */
  const JOINED := State(GONE_B.core.(rooms := map["" := Both(NAMELESS, X, map[])], metrics := ONE.(usersJoined := 2)),
                        GONE.sent + ToBoth("", X))
  const REJOINED := State(JOINED.core.(metrics := ONE.(usersJoined := 3)), JOINED.sent + ToBoth("", X))

  lemma CloseGoes()
    ensures Goes(CONF, Founded(NAMELESS), CLOSE, GONE)
  {
    hide Leave, LeaveLegal, LeaveMail;
    var c := Founded(NAMELESS).core;
    assert RoomOf(c, "a") == "";
    assert c.connected - {"a"} == map[];
    assert BYE + [] == BYE;
  }

  lemma ConnectBGoes()
    ensures Goes(CONF, GONE, CONNECT_B, GONE_B)
  {
    assert GONE.sent + [] == GONE.sent;
  }

  lemma JoinedIsReachable()
    ensures Reachable(CONF, JOINED)
  {
    hide Reachable, Goes, ToBoth;
    FoundedIsReachable(NAMELESS);
    CloseGoes();
    ReachNext(CONF, Founded(NAMELESS), CLOSE, GONE);
    ConnectBGoes();
    ReachNext(CONF, GONE, CONNECT_B, GONE_B);
    assert GONE_B.core.connected["b" := ""] == GONE_B.core.connected;
    JoinGoes(NAMELESS, GONE_B, JOINED);
    ReachNext(CONF, GONE_B, JoinRoom(""), JOINED);
  }

  /** u has connected and gone, is still a member of a room, and got a message after its CloseWriter. */
  ghost predicate Haunts(s: State, u: Id) {
    && u in s.core.clients && u !in s.core.connected && "" in s.core.rooms && u in s.core.rooms[""].users
    && Knows(s, u).closes == 1 && Knows(s, u).late == 1
  }

  lemma WhatAHears()
    ensures Knows(JOINED, "a").closes == 1 && Knows(JOINED, "a").late == 1
  {
    var first, second := ToA(""), ToBoth("", X);
    ReplayConcat(NEW_CLIENT, first + BYE, second, "a");
    ReplayConcat(NEW_CLIENT, first, BYE, "a");
    var k := Replay(Replay(NEW_CLIENT, first, "a"), BYE, "a");
    ReplayConcat(k, second[..1], second[1..], "a");
    assert second == second[..1] + second[1..];
    ReplayOne(NEW_CLIENT, first[0], "a");
    ReplayOne(Replay(NEW_CLIENT, first, "a"), BYE[0], "a");
    ReplayOne(k, second[0], "a");
    ReplayOne(Replay(k, second[..1], "a"), second[1], "a");
    assert second[..1] == [second[0]] && second[1..] == [second[1]];
  }

  /** A client that is gone can still be a member, and be written to. */
  lemma GoneButNotLeft()
    ensures exists conf, s :: Reachable(conf, s) && Haunts(s, "a")
  {
    hide Reachable, Haunts;
    JoinedIsReachable();
    JoinedHaunts();
  }

  lemma JoinedHaunts()
    ensures Haunts(JOINED, "a")
  {
    hide Knows;
    WhatAHears();
  }

  /** A client can enter the room "" again, and is counted again. */
  lemma CountedTwice()
    ensures exists conf, s :: Reachable(conf, s) && MemberDrift(s.core) > 0
  {
    hide Reachable, Goes, MemberDrift;
    JoinedIsReachable();
    RejoinGoes();
    ReachNext(CONF, JOINED, JoinRoom(""), REJOINED);
    RejoinedDrift();
  }

  lemma RejoinGoes()
    ensures Goes(CONF, JOINED, JoinRoom(""), REJOINED)
  {
    hide Goes, ToBoth;
    assert JOINED.core.connected["b" := ""] == JOINED.core.connected;
    JoinGoes(NAMELESS, JOINED, REJOINED);
  }

  lemma RejoinedDrift()
    ensures MemberDrift(REJOINED.core) == 1
  {
    var c := REJOINED.core;
    assert MemberPairs(c) == {("", "a"), ("", "b")};
  }

  // ---------- a shares its screen with b ----------

  const TOGETHER := map["a" := A, "b" := B]

  /** a has founded its room, and b is connected. */
  function Waiting(k: Kind): State {
    State(Core(map["a" := k.r, "b" := ""], map[k.r := Alone(k)], map[], ONE, TOGETHER, {"a", "b"}), ToA(k.r))
  }

  /** b has joined. */
  function Joined(k: Kind): State {
    State(Waiting(k).core.(connected := map["a" := k.r, "b" := k.r], rooms := map[k.r := Both(k, X, map[])],
                           metrics := ONE.(usersJoined := 2)),
          ToA(k.r) + ToBoth(k.r, X))
  }

  function Shares(k: Kind, id: Id): Iteration {
    Iteration(ClientMessage(A, false, StartShare), QUIET.(starts := [ToB(id)], note := ToBoth(k.r, X_SHARING)))
  }

  function ToB(id: Id): Start {
    Start(id, "a", "b", "p", "q")
  }

  /** The TURN table with the keys of session id. */
  function WithKeys(lookup: map<string, Entry>, id: Id): map<string, Entry> {
    lookup[id + "host" := Entry("", AuthKey(id + "host", "screego", "p"))]
          [id + "client" := Entry("", AuthKey(id + "client", "screego", "q"))]
  }

  /** a shares, with the new session id on top of the sessions there are. */
  function Sharing(k: Kind, s: State, sessions: map<Id, Session>, id: Id): State {
    State(s.core.(rooms := map[k.r := Both(k, X_SHARING, sessions[id := Session("a", "b")])],
                  lookup := if k.mode == "turn" then WithKeys(s.core.lookup, id) else s.core.lookup,
                  issued := s.core.issued + {id},
                  metrics := s.core.metrics.(sessionsCreated := s.core.metrics.sessionsCreated + 1)),
          s.sent + (Invitation(k.mode, ToB(id)) + ToBoth(k.r, X_SHARING)))
  }

  function Shared(k: Kind): State {
    Sharing(k, Joined(k), map[], "1")
  }

  const SHARED_TWICE := Sharing(LOCAL, Shared(LOCAL), map["1" := Session("a", "b")], "2")

  lemma ConnectBInRoom(k: Kind)
    ensures Goes(CONF, Founded(k), CONNECT_B, Waiting(k))
  {
    assert Founded(k).sent + [] == Founded(k).sent;
  }

  lemma OneSession(c: Core, k: Kind, id: Id)
    requires k.r in c.rooms
    ensures OpenSessions(c, k.r, [ToB(id)]) == OpenSession(c, k.r, ToB(id))
    ensures Invitations(k.mode, [ToB(id)]) == Invitation(k.mode, ToB(id))
  {
    var starts := [ToB(id)];
    assert starts[..0] == [];
    assert [] + Invitation(k.mode, starts[0]) == Invitation(k.mode, starts[0]);
  }

  lemma OneViewer(k: Kind, a: UserState, sessions: map<Id, Session>, issued: set<Id>, id: Id)
    requires id !in issued
    ensures StartsLegal([ToB(id)], issued, ViewersOf(Both(k, a, sessions), "a"))
  {
    var starts := [ToB(id)];
    assert ViewersOf(Both(k, a, sessions), "a") == {("a", "b")};
    assert (starts[0].host, starts[0].client) == ("a", "b");
  }

  lemma ShareGoes(k: Kind, s: State, a: UserState, sessions: map<Id, Session>, id: Id)
    requires k.r != "" && s.core.rooms == map[k.r := Both(k, a, sessions)] && (a == X || a == X_SHARING)
    requires "a" in s.core.connected && s.core.connected["a"] == k.r
    requires "a" in s.core.clients && s.core.clients["a"] == A
    requires id !in s.core.issued
    ensures Goes(CONF, s, Shares(k, id), Sharing(k, s, sessions, id))
  {
    hide IsBroadcast, StartsLegal, ToBoth, OpenSessions, Invitations, Invitation, ViewersOf, OpenSession, ToB;
    var c1 := WithStreaming(s.core, k.r, "a", true);
    assert c1.rooms[k.r] == Both(k, X_SHARING, sessions);
    ToBothIsBroadcast(k, X_SHARING, sessions);
    OneViewer(k, X_SHARING, sessions, s.core.issued, id);
    OneSession(c1, k, id);
    SharingIsOpen(k, s, c1, sessions, id);
  }

  lemma SharingIsOpen(k: Kind, s: State, c1: Core, sessions: map<Id, Session>, id: Id)
    requires k.r in c1.rooms && c1.rooms[k.r] == Both(k, X_SHARING, sessions) && c1.rooms.Keys == {k.r}
    requires c1 == s.core.(rooms := c1.rooms)
    ensures OpenSession(c1, k.r, ToB(id)) == Sharing(k, s, sessions, id).core
  {
    hide ToBoth, Invitation;
    var rooms := OpenSession(c1, k.r, ToB(id)).rooms;
    assert rooms[k.r] == Both(k, X_SHARING, sessions[id := Session("a", "b")]);
    assert rooms == map[k.r := rooms[k.r]];
  }

  lemma SharedIsReachable(k: Kind)
    requires k.r != ""
    ensures Reachable(CONF, Joined(k)) && Reachable(CONF, Shared(k))
  {
    hide Reachable, Goes, ToBoth, Sharing;
    FoundedIsReachable(k);
    ConnectBInRoom(k);
    ReachNext(CONF, Founded(k), CONNECT_B, Waiting(k));
    assert Waiting(k).core.connected["b" := k.r] == map["a" := k.r, "b" := k.r];
    JoinGoes(k, Waiting(k), Joined(k));
    ReachNext(CONF, Waiting(k), JoinRoom(k.r), Joined(k));
    ShareGoes(k, Joined(k), X, map[], "1");
    ReachNext(CONF, Joined(k), Shares(k, "1"), Shared(k));
  }

  lemma TwoForOnePair()
    ensures Reshares(Shared(LOCAL).core, Shares(LOCAL, "2").m, Shares(LOCAL, "2").ch) && !Unique(SHARED_TWICE.core)
  {
    var room := SHARED_TWICE.core.rooms["r"];
    assert room.sessions["1"] == room.sessions["2"] == Session("a", "b");
    assert !UniqueRoom(room);
    assert Shared(LOCAL).core.rooms["r"].users.Keys == {"a", "b"} && "b" != "a";
  }

  /** Sharing twice is possible, and gives a pair of members two sessions. */
  lemma SharesTwice()
    ensures exists conf, s :: Reachable(conf, s) && !Unique(s.core)
    ensures exists conf, s, it: Iteration ::
      Reachable(conf, s) && StepLegal(conf, s, it.m, it.ch) && Reshares(s.core, it.m, it.ch)
  {
    hide Reachable, Unique, Reshares, StepLegal, Step, Sharing;
    SharedIsReachable(LOCAL);
    ShareTwiceGoes();
    ReachNext(CONF, Shared(LOCAL), Shares(LOCAL, "2"), SHARED_TWICE);
    TwoForOnePair();
    assert StepLegal(CONF, Shared(LOCAL), Shares(LOCAL, "2").m, Shares(LOCAL, "2").ch);
  }

  lemma ShareTwiceGoes()
    ensures Goes(CONF, Shared(LOCAL), Shares(LOCAL, "2"), SHARED_TWICE)
  {
    hide Goes;
    ShareGoes(LOCAL, Shared(LOCAL), X_SHARING, map["1" := Session("a", "b")], "2");
  }

  // ---------- a room in turn mode ----------

  /** A room in turn mode that closes with its owner u, who shares with v, and whose session has its two keys. */
  ghost predicate SharesByTurn(s: State, u: Id, v: Id) {
    exists r, id ::
      && r in s.core.rooms && s.core.rooms[r].mode == "turn" && s.core.rooms[r].closeOnOwnerLeave
      && u in s.core.rooms[r].users && s.core.rooms[r].users[u].owner && v in s.core.rooms[r].users
      && id in s.core.rooms[r].sessions && s.core.rooms[r].sessions[id] == Session(u, v)
      && id + "host" in s.core.lookup && id + "client" in s.core.lookup
      && u in s.core.connected && v in s.core.connected
  }

  /** Such a room is reachable with auth mode "turn", so what is proved of credentials has instances. */
  lemma TurnIsReachable()
    ensures exists conf: Config, s ::
      conf.authMode == "turn" && Reachable(conf, s) && SharesByTurn(s, "a", "b")
  {
    hide Reachable, SharesByTurn;
    SharedIsReachable(RELAYED);
    RelayedShares();
  }

  lemma RelayedShares()
    ensures SharesByTurn(Shared(RELAYED), "a", "b")
  {
    var c := Shared(RELAYED).core;
    assert "r" in c.rooms && "1" in c.rooms["r"].sessions && "1" + "host" in c.lookup && "1" + "client" in c.lookup;
  }
}
