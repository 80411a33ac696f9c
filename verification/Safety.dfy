/** The invariant of the tables over whole runs. */
module Safety {
  import opened Domain
  import opened Protocol
  import opened Tables
  import opened Handlers

  /** The invariant; sessions are not promised for pairs with an id in but. */
  ghost predicate TablesOk(conf: Config, c: Core, but: set<Id>) {
    Basic(c) && Sessions(c) && TurnExact(c) && Owners(c) && Admission(conf, c) && Complete(c, but)
  }

  lemma {:induction false} HangupKeeps(conf: Config, c: Core, u: Id)
    requires TablesOk(conf, c, {u})
    ensures TablesOk(conf, Hangup(c, u), {})
  {
    var c' := Hangup(c, u);
    HangupHungUp(c, u);
    HangupKeyed(c, u, c');
    HangupAgree(c, u, c');
    HangupSessions(c, u, c');
    HangupTurn(c, u, c');
    HangupOwners(c, u, c');
    HangupAdmission(conf, c, u, c');
    HangupComplete(c, u, c');
  }

  lemma Loosen(conf: Config, c: Core, u: Id)
    requires TablesOk(conf, c, {})
    ensures TablesOk(conf, c, {u})
  {
    forall r | r in c.rooms ensures CompleteRoom(c.rooms[r], {u}) {
      assert CompleteRoom(c.rooms[r], {});
    }
  }

  lemma AdmittedAdmission(conf: Config, c: Core, info: ClientInfo, id: string, name: string)
    requires Keyed(c) && Admission(conf, c) && info.id in c.clients && c.clients[info.id] == info
    requires JoinError(conf, c, info, id) == None
    ensures Admission(conf, Admitted(c, info, id, name))
  {
  }

  lemma {:induction false} AdmittedKeeps(conf: Config, c: Core, info: ClientInfo, id: string, name: string)
    requires TablesOk(conf, c, {}) && info.id in c.connected && c.clients[info.id] == info
    requires JoinError(conf, c, info, id) == None
    ensures TablesOk(conf, Admitted(c, info, id, name), {info.id})
    ensures var c' := Admitted(c, info, id, name); forall q | q in c'.rooms && q != id :: CompleteRoom(c'.rooms[q], {})
  {
    hide Keyed, Agree, Sound, Mute, Distinct, TurnExact, Owners, Admission;
    var c' := Admitted(c, info, id, name);
    var user := UserState(info.id, info.addr, name, false, false);
    AdmittedEntered(conf, c, info, id, name);
    EnteredBasic(c, id, user, c');
    EnteredSessions(c, id, user, c');
    EnteredTurn(c, id, user, c');
    EnteredOwners(c, id, user, c');
    EnteredComplete(c, id, user, c');
    AdmittedAdmission(conf, c, info, id, name);
    forall q | q in c.rooms && q != id ensures CompleteRoom(c'.rooms[q], {}) {
      assert c'.rooms[q] == c.rooms[q];
    }
  }

  /** A handler that is done leaves the tables in order; one that fails, in order up to the sender. */
  ghost predicate Kept(conf: Config, o: Outcome, u: Id) {
    match o.verdict
    case Done => TablesOk(conf, o.core, {})
    case Failed(_) => TablesOk(conf, o.core, {u})
    case Panicked => false
  }

  /** OpenSessions touches only the sessions of one room, so the rest follows. */
  ghost predicate SameButSessions(c: Core, c': Core) {
    && c'.connected == c.connected && c'.clients == c.clients && c.issued <= c'.issued
    && c'.rooms.Keys == c.rooms.Keys
    && forall q | q in c.rooms :: SameButSessionsRoom(c.rooms[q], c'.rooms[q])
  }

  ghost predicate SameButSessionsRoom(room: RoomState, room': RoomState) {
    && room'.id == room.id && room'.closeOnOwnerLeave == room.closeOnOwnerLeave
    && room'.mode == room.mode && room'.users == room.users
  }

  lemma OpenSessionsSame(c: Core, r: string, starts: seq<Start>)
    requires r in c.rooms
    ensures SameButSessions(c, OpenSessions(c, r, starts))
  {
    OpenSessionsIssued(c, r, starts);
  }

  lemma SameBasic(c: Core, c': Core)
    requires Basic(c) && SameButSessions(c, c')
    ensures Basic(c')
  {
    assert Keyed(c') by {
      hide Agree;
    }
    assert Agree(c') by {
      hide Keyed;
    }
  }

  lemma SameOwners(c: Core, c': Core)
    requires Owners(c) && SameButSessions(c, c')
    ensures Owners(c')
  {
    forall q | q in c'.rooms && q != "" ensures OwnersRoom(c'.rooms[q]) {
      assert OwnersRoom(c.rooms[q]);
    }
  }

  lemma SameAdmission(conf: Config, c: Core, c': Core)
    requires Admission(conf, c) && SameButSessions(c, c')
    ensures Admission(conf, c')
  {
  }

  lemma {:induction false} OpenSessionsOk(conf: Config, c: Core, r: string, starts: seq<Start>, but: set<Id>)
    requires r in c.rooms && TablesOk(conf, c, but) && StartsFit(c, r, starts)
    requires Complete(OpenSessions(c, r, starts), {})
    ensures TablesOk(conf, OpenSessions(c, r, starts), {})
  {
    var c' := OpenSessions(c, r, starts);
    OpenSessionsKeep(c, r, starts);
    OpenSessionsSame(c, r, starts);
    SameBasic(c, c');
    SameOwners(c, c');
    SameAdmission(conf, c, c');
  }

  lemma {:induction false} JoinOpens(conf: Config, c: Core, r: string, u: Id, starts: seq<Start>)
    requires TablesOk(conf, c, {u}) && r in c.rooms && u in c.rooms[r].users && !c.rooms[r].users[u].streaming
    requires forall q | q in c.rooms && q != r :: CompleteRoom(c.rooms[q], {})
    requires StartsLegal(starts, c.issued, StreamersTo(c.rooms[r], u))
    ensures TablesOk(conf, OpenSessions(c, r, starts), {})
  {
    StartsLegalFit(c, r, starts, StreamersTo(c.rooms[r], u));
    JoinServes(c, r, u, starts);
    OpenSessionsOk(conf, c, r, starts, {u});
  }

  lemma {:induction false} JoinKeeps(conf: Config, c: Core, info: ClientInfo, id: string, userName: string, ch: Choice)
    requires TablesOk(conf, c, {}) && info.id in c.connected && info.id in c.clients && c.clients[info.id] == info
    requires JoinLegal(conf, c, info, id, userName, ch)
    ensures Kept(conf, ExecuteJoin(conf, c, info, id, userName, ch), info.id)
  {
    hide TablesOk;
    if JoinError(conf, c, info, id) == None {
      var name := DisplayName(info, userName, ch.randomName);
      AdmittedKeeps(conf, c, info, id, name);
      if ch.ip.IpFound? {
        JoinOpens(conf, Admitted(c, info, id, name), id, info.id, ch.starts);
      }
    } else {
      Loosen(conf, c, info.id);
    }
  }

  lemma {:induction false} FoundedKeeps(conf: Config, c: Core, room: RoomState, u: Id, c': Core)
    requires TablesOk(conf, c, {}) && Founded(c, room, u, c')
    requires CheckAuth(conf, room.mode, c.clients[u].authenticated) == None && room.users[u].addr == c.clients[u].addr
    ensures TablesOk(conf, c', {})
  {
    FoundedBasic(c, room, u, c');
    FoundedSessions(c, room, u, c');
    FoundedTurn(c, room, u, c');
    FoundedOwners(c, room, u, c');
    FoundedComplete(c, room, u, c');
    FoundedAdmission(conf, c, room, u, c');
  }

  lemma {:induction false} CreateKeeps(conf: Config, c: Core, info: ClientInfo, e: Event, ch: Choice)
    requires TablesOk(conf, c, {}) && info.id in c.connected && info.id in c.clients && c.clients[info.id] == info
    requires e.Create? && CreateLegal(conf, c, info, e, ch)
    ensures Kept(conf, ExecuteCreate(conf, c, info, e, ch), info.id)
  {
    hide TablesOk;
    if Delegates(c, info, e) {
      JoinKeeps(conf, c, info, e.id, e.userName, ch);
    } else if CreateError(conf, c, info, e.id, e.mode) == None {
      var room := NewRoom(e.id, e.mode, e.closeOnOwnerLeave, info, DisplayName(info, e.userName, ch.randomName));
      assert room.users.Keys == {info.id};
      FoundedKeeps(conf, c, room, info.id, ExecuteCreate(conf, c, info, e, ch).core);
    } else {
      Loosen(conf, c, info.id);
    }
  }

  lemma {:induction false} NameKeeps(conf: Config, c: Core, r: string, u: Id, name: string)
    requires TablesOk(conf, c, {}) && r in c.rooms && r != "" && u in c.rooms[r].users
    ensures TablesOk(conf, WithName(c, r, u, name), {})
  {
    hide Keyed, Agree, Sound, Mute, Distinct, TurnExact, Owners, Admission, CompleteRoom;
    var c' := WithName(c, r, u, name);
    var user := c.rooms[r].users[u].(name := name);
    assert Edited(c, r, u, user, c');
    EditedBasic(c, r, u, user, c');
    EditedSessions(c, r, u, user, c');
    RenamedComplete(c, r, u, user, c');
    EditedTurn(c, r, u, user, c');
    EditedOwners(c, r, u, user, c');
    EditedAdmission(conf, c, r, u, user, c');
  }

  lemma {:induction false} StreamingKeeps(conf: Config, c: Core, r: string, u: Id)
    requires TablesOk(conf, c, {}) && r in c.rooms && r != "" && u in c.rooms[r].users
    ensures TablesOk(conf, WithStreaming(c, r, u, true), {u})
    ensures Edited(c, r, u, c.rooms[r].users[u].(streaming := true), WithStreaming(c, r, u, true))
  {
    hide Keyed, Agree, Sound, Mute, Distinct, TurnExact, Owners, Admission, CompleteRoom;
    var c' := WithStreaming(c, r, u, true);
    var user := c.rooms[r].users[u].(streaming := true);
    assert Edited(c, r, u, user, c');
    EditedBasic(c, r, u, user, c');
    EditedSessions(c, r, u, user, c');
    EditedComplete(c, r, u, user, c');
    EditedTurn(c, r, u, user, c');
    EditedOwners(c, r, u, user, c');
    EditedAdmission(conf, c, r, u, user, c');
  }

  lemma {:induction false} ShareKeeps(conf: Config, c: Core, r: string, u: Id, starts: seq<Start>)
    requires TablesOk(conf, c, {}) && r in c.rooms && r != "" && u in c.rooms[r].users
    requires StartsLegal(starts, c.issued, ViewersOf(WithStreaming(c, r, u, true).rooms[r], u))
    ensures TablesOk(conf, OpenSessions(WithStreaming(c, r, u, true), r, starts), {})
  {
    var c1 := WithStreaming(c, r, u, true);
    StreamingKeeps(conf, c, r, u);
    EditedComplete(c, r, u, c.rooms[r].users[u].(streaming := true), c1);
    StartsLegalFit(c1, r, starts, ViewersOf(c1.rooms[r], u));
    ShareServes(c1, r, u, starts);
    OpenSessionsOk(conf, c1, r, starts, {u});
  }

  lemma {:induction false} StopKeeps(conf: Config, c: Core, r: string, u: Id)
    requires TablesOk(conf, c, {}) && r in c.rooms && u in c.rooms[r].users
    ensures TablesOk(conf, CloseSessions(WithStreaming(c, r, u, false), r, HostSessionsOf(c.rooms[r], u)), {})
  {
    hide Keyed, Agree, Sound, Mute, Distinct, TurnExact, Owners, Admission, Complete;
    var c' := CloseSessions(WithStreaming(c, r, u, false), r, HostSessionsOf(c.rooms[r], u));
    StopShareStopped(c, r, u);
    StoppedKeyed(c, r, u, c');
    StoppedAgree(c, r, u, c');
    StoppedSessions(c, r, u, c');
    StoppedComplete(c, r, u, c');
    StoppedTurn(c, r, u, c');
    StoppedOwners(c, r, u, c');
    StoppedAdmission(conf, c, r, u, c');
  }

  lemma RelayFindsPeer(c: Core, r: string, u: Id, e: Event, ch: Choice)
    requires Sound(c) && r in c.rooms && e.Relay?
    ensures var o := ExecuteInRoom(c, r, u, e, ch); o.core == c && !o.verdict.Panicked?
  {
    assert SoundRoom(c.rooms[r]);
  }

  lemma OkIsSound(conf: Config, c: Core, but: set<Id>)
    requires TablesOk(conf, c, but)
    ensures Sound(c) && Agree(c)
  {
    hide Sound, Agree;
  }

  lemma {:induction false} InRoomKeeps(conf: Config, c: Core, u: Id, e: Event, ch: Choice)
    requires TablesOk(conf, c, {}) && Member(c, u)
    requires e.Name? || e.StartShare? || e.StopShare? || e.Relay?
    requires InRoomLegal(c, c.connected[u], u, e, ch)
    ensures Kept(conf, ExecuteInRoom(c, c.connected[u], u, e, ch), u)
  {
    hide TablesOk, StartsLegal, IsBroadcast, Enumerates, Notices, Invitations, OpenSessions, CloseSessions;
    OkIsSound(conf, c, {});
    var r := c.connected[u];
    match e
    case Name(name) =>
      NameKeeps(conf, c, r, u, name);
    case StartShare =>
      if ch.ip.IpFound? {
        ShareKeeps(conf, c, r, u, ch.starts);
      } else {
        StreamingKeeps(conf, c, r, u);
      }
    case StopShare =>
      StopKeeps(conf, c, r, u);
    case Relay(_, _, _) =>
      Loosen(conf, c, u);
      RelayFindsPeer(c, r, u, e, ch);
  }

  lemma ConnectedKeyed(c: Core, m: ClientMessage)
    requires Keyed(c) && m.event.Connected? && m.info.id !in c.issued
    ensures var c1 := Register(c, m); Keyed(c1.(connected := c1.connected[m.info.id := ""]))
  {
    assert m.info.id !in c.clients;
  }

  lemma ConnectedAgree(c: Core, m: ClientMessage)
    requires Keyed(c) && Agree(c) && m.event.Connected? && m.info.id !in c.issued
    ensures var c1 := Register(c, m); Agree(c1.(connected := c1.connected[m.info.id := ""]))
  {
    NobodyIsNew(c, m.info.id);
    hide Keyed;
  }

  /** An id that was never issued is in no table. */
  lemma NobodyIsNew(c: Core, u: Id)
    requires Keyed(c) && u !in c.issued
    ensures u !in c.clients && u !in c.connected && forall r | r in c.rooms :: u !in c.rooms[r].users
  {
  }

  lemma ConnectedBasic(c: Core, m: ClientMessage)
    requires Basic(c) && m.event.Connected? && m.info.id !in c.issued
    ensures var c1 := Register(c, m); Basic(c1.(connected := c1.connected[m.info.id := ""]))
  {
    hide Keyed, Agree, Register;
    ConnectedKeyed(c, m);
    ConnectedAgree(c, m);
  }

  lemma ConnectedTurn(c: Core, c': Core)
    requires TurnExact(c) && c'.rooms == c.rooms && c'.lookup == c.lookup
    ensures TurnExact(c')
  {
    forall q, id ensures TurnSession(c', q, id) <==> TurnSession(c, q, id) {
    }
    TurnFrame(c, c');
  }

  lemma ConnectedRest(conf: Config, c: Core, m: ClientMessage, c': Core)
    requires Keyed(c) && Sessions(c) && Owners(c) && Admission(conf, c) && Complete(c, {}) && m.info.id !in c.clients
    requires c'.rooms == c.rooms && c'.clients == c.clients[m.info.id := m.info] && c.issued <= c'.issued
    ensures Sessions(c') && Owners(c') && Admission(conf, c') && Complete(c', {})
  {
  }

  lemma {:induction false} ConnectKeeps(conf: Config, c: Core, m: ClientMessage)
    requires TablesOk(conf, c, {}) && m.event.Connected? && m.info.id !in c.issued
    ensures var c1 := Register(c, m); TablesOk(conf, c1.(connected := c1.connected[m.info.id := ""]), {})
  {
    var c1 := Register(c, m);
    var c' := c1.(connected := c1.connected[m.info.id := ""]);
    assert m.info.id !in c.clients;
    ConnectedBasic(c, m);
    ConnectedTurn(c, c');
    ConnectedRest(conf, c, m, c');
    hide Tables.Basic, Tables.Sessions, TurnExact, Owners, Admission, Complete;
  }

  /** No handler uses a missing user. */
  lemma {:induction false} ExecuteKeeps(conf: Config, c: Core, m: ClientMessage, ch: Choice)
    requires TablesOk(conf, c, {}) && !m.event.Connected?
    requires m.info.id in c.connected && m.info.id in c.clients && c.clients[m.info.id] == m.info
    requires ExecuteLegal(conf, c, m, ch)
    ensures Kept(conf, Execute(conf, c, m, ch), m.info.id)
  {
    hide TablesOk, InRoomLegal, ExecuteInRoom, JoinLegal, ExecuteJoin, CreateLegal, ExecuteCreate, HangupLegal;
    hide Hangup, HangupMail;
    var u := m.info.id;
    OkIsSound(conf, c, {});
    match m.event
    case Disconnected(_, _) =>
      Loosen(conf, c, u);
      HangupKeeps(conf, c, u);
    case Join(id, userName) => JoinKeeps(conf, c, m.info, id, userName, ch);
    case Create(_, _, _, _, _) => CreateKeeps(conf, c, m.info, m.event, ch);
    case _ =>
      if CurrentRoomError(c, u) == None {
        InRoomKeeps(conf, c, u, m.event, ch);
      } else {
        Loosen(conf, c, u);
      }
  }

  lemma {:induction false} StepKeeps(conf: Config, s: State, m: ClientMessage, ch: Choice)
    requires TablesOk(conf, s.core, {}) && StepLegal(conf, s, m, ch)
    ensures TablesOk(conf, Step(conf, s, m, ch).core, {})
    ensures !Ignored(s.core, m) ==> !Execute(conf, Register(s.core, m), m, ch).verdict.Panicked?
  {
    hide TablesOk;
    if m.event.Connected? {
      ConnectKeeps(conf, s.core, m);
    } else if m.info.id in s.core.connected {
      ExecuteKeeps(conf, s.core, m, ch);
      var o := Execute(conf, s.core, m, ch);
      if o.verdict.Failed? {
        HangupKeeps(conf, o.core, m.info.id);
      }
    }
  }

  lemma {:induction false} RunKeeps(conf: Config, its: seq<Iteration>)
    requires RunLegal(conf, its)
    ensures TablesOk(conf, Run(conf, its).core, {})
  {
    if its != [] {
      var n := |its| - 1;
      RunKeeps(conf, its[..n]);
      StepKeeps(conf, Run(conf, its[..n]), its[n].m, its[n].ch);
    }
  }
}
