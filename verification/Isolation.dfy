/** A step touches one room: its tables, its credentials, and the inboxes of its members. */
module Isolation {
  import opened Domain
  import opened Protocol
  import opened Tables
  import opened Handlers
  import opened Safety
  import opened Mirror
  import opened Knowledge

  /** The room a message is about: the sender's own, or the one it asks to enter. */
  function Target(c: Core, m: ClientMessage): Option<string> {
    if RoomOf(c, m.info.id) != "" then Some(RoomOf(c, m.info.id))
    else if m.event.Join? || m.event.Create? then Some(m.event.id)
    else None
  }

  predicate InTarget(c: Core, t: Option<string>, v: Id) {
    t.Some? && t.value in c.rooms && v in c.rooms[t.value].users
  }

  ghost predicate HasBothKeys(c: Core, id: Id) {
    HostKey(id) in c.lookup && ClientKey(id) in c.lookup
  }

  ghost predicate SameKeys(c: Core, c': Core, id: Id) {
    HasBothKeys(c, id) ==>
      && HasBothKeys(c', id)
      && c'.lookup[HostKey(id)] == c.lookup[HostKey(id)] && c'.lookup[ClientKey(id)] == c.lookup[ClientKey(id)]
  }

  ghost predicate LocalRooms(c: Core, t: Option<string>, c': Core) {
    && (forall q | Some(q) != t :: q in c'.rooms <==> q in c.rooms)
    && (forall q | Some(q) != t && q in c.rooms && q in c'.rooms :: c'.rooms[q] == c.rooms[q])
  }

  ghost predicate LocalClients(c: Core, t: Option<string>, u: Id, c': Core) {
    forall v | v != u && !InTarget(c, t, v) ::
      && (v in c'.connected <==> v in c.connected) && RoomOf(c', v) == RoomOf(c, v)
      && !InTarget(c', t, v)
  }

  ghost predicate LocalKeys(c: Core, t: Option<string>, c': Core) {
    forall q, id | TurnSession(c, q, id) && Some(q) != t :: SameKeys(c, c', id)
  }

  /** c' differs from c only in room t, in the connection of u and of members of t, and in the keys of t. */
  ghost predicate Local(c: Core, t: Option<string>, u: Id, c': Core) {
    LocalRooms(c, t, c') && LocalClients(c, t, u, c') && LocalKeys(c, t, c')
  }

  /** Mail for u and for members of t only. */
  ghost predicate MailLocal(mail: seq<Envelope>, c: Core, t: Option<string>, u: Id) {
    forall v | Addressed(mail, v) :: v == u || InTarget(c, t, v)
  }

  lemma MailLocalConcat(a: seq<Envelope>, b: seq<Envelope>, c: Core, t: Option<string>, u: Id)
    requires MailLocal(a, c, t, u) && MailLocal(b, c, t, u)
    ensures MailLocal(a + b, c, t, u)
  {
    forall v | Addressed(a + b, v) ensures v == u || InTarget(c, t, v) {
      AddressedSplit(a, b, v);
    }
  }

  lemma AddressedSplit(a: seq<Envelope>, b: seq<Envelope>, v: Id)
    ensures Addressed(a + b, v) <==> Addressed(a, v) || Addressed(b, v)
  {
    if i :| 0 <= i < |a + b| && (a + b)[i].to == v {
      if i < |a| {
        assert a[i].to == v;
      } else {
        assert b[i - |a|].to == v;
      }
    }
    if i :| 0 <= i < |a| && a[i].to == v {
      assert (a + b)[i].to == v;
    }
    if i :| 0 <= i < |b| && b[i].to == v {
      assert (a + b)[|a| + i].to == v;
    }
  }

  lemma LocalKeysTransitive(c: Core, c1: Core, c2: Core, t: Option<string>)
    requires LocalRooms(c, t, c1) && LocalKeys(c, t, c1) && LocalKeys(c1, t, c2)
    ensures LocalKeys(c, t, c2)
  {
    forall q, id | TurnSession(c, q, id) && Some(q) != t ensures SameKeys(c, c2, id) {
      assert SameKeys(c, c1, id);
      assert TurnSession(c1, q, id);
      assert SameKeys(c1, c2, id);
    }
  }

  lemma LocalTransitive(c: Core, c1: Core, c2: Core, t: Option<string>, u: Id)
    requires Local(c, t, u, c1) && Local(c1, t, u, c2)
    ensures Local(c, t, u, c2)
  {
    LocalKeysTransitive(c, c1, c2, t);
  }

  lemma MailTransitive(mail: seq<Envelope>, c: Core, c1: Core, t: Option<string>, u: Id)
    requires Local(c, t, u, c1) && MailLocal(mail, c1, t, u)
    ensures MailLocal(mail, c, t, u)
  {
    forall v | Addressed(mail, v) ensures v == u || InTarget(c, t, v) {
      assert v != u && !InTarget(c, t, v) ==> !InTarget(c1, t, v);
    }
  }

  // ---------- building blocks ----------

  lemma HungUpKeys(c: Core, u: Id, c': Core, t: Option<string>)
    requires Distinct(c) && HungUp(c, u, c') && (RoomOf(c, u) != "" ==> t == Some(RoomOf(c, u)))
    ensures LocalKeys(c, t, c')
  {
    forall q, id | TurnSession(c, q, id) && Some(q) != t ensures SameKeys(c, c', id) {
      if RoomOf(c, u) != "" {
        KeysOfMembers(Ended(c, u), id);
      }
    }
  }

  lemma HungUpClients(c: Core, u: Id, c': Core, t: Option<string>)
    requires HungUp(c, u, c') && (RoomOf(c, u) != "" ==> t == Some(RoomOf(c, u)))
    ensures LocalClients(c, t, u, c') && LocalRooms(c, t, c')
  {
  }

  lemma {:induction false} HangupLocal(c: Core, u: Id, t: Option<string>)
    requires Agree(c) && Distinct(c) && (RoomOf(c, u) != "" ==> t == Some(RoomOf(c, u)))
    ensures Local(c, t, u, Hangup(c, u))
  {
    HangupHungUp(c, u);
    HungUpKeys(c, u, Hangup(c, u), t);
    HungUpClients(c, u, Hangup(c, u), t);
  }

  lemma HangupMailLocal(c: Core, u: Id, code: int, reason: string, ch: Choice, t: Option<string>)
    requires Agree(c) && Sound(c) && HangupLegal(c, u, ch) && (RoomOf(c, u) != "" ==> t == Some(RoomOf(c, u)))
    ensures MailLocal(HangupMail(c, u, code, reason, ch), c, t, u)
  {
    var bye := [Envelope(u, Sent(CloseWriter(code, reason)))];
    var rest := if RoomOf(c, u) == "" then [] else LeaveMail(c, RoomOf(c, u), u, ch);
    forall v | Addressed(bye + rest, v) ensures v == u || InTarget(c, t, v) {
      AddressedSplit(bye, rest, v);
      if v != u {
        assert !Addressed(bye, v);
        assert SoundRoom(c.rooms[RoomOf(c, u)]);
        LeaveMailStaysInside(c, RoomOf(c, u), u, ch, v);
      }
    }
  }

  lemma EnteredLocal(c: Core, r: string, user: UserState, c': Core)
    requires Entered(c, r, user, c')
    ensures Local(c, Some(r), user.id, c')
  {
  }

  lemma FoundedLocal(c: Core, room: RoomState, u: Id, c': Core)
    requires Founded(c, room, u, c')
    ensures Local(c, Some(room.id), u, c')
  {
    assert forall v | v in room.users :: v in room.users.Keys && v == u;
  }

  lemma EditedLocal(c: Core, r: string, u: Id, user: UserState, c': Core)
    requires Edited(c, r, u, user, c')
    ensures Local(c, Some(r), u, c')
  {
  }

  lemma {:induction false} StoppedLocal(c: Core, r: string, u: Id, c': Core)
    requires Distinct(c) && Stopped(c, r, u, c')
    ensures Local(c, Some(r), u, c')
  {
    forall q, id | TurnSession(c, q, id) && q != r ensures SameKeys(c, c', id) {
      KeysOfMembers(HostSessionsOf(c.rooms[r], u), id);
    }
  }

  lemma {:induction false} OpenSessionsKeys(c: Core, r: string, starts: seq<Start>, id: Id)
    requires r in c.rooms && id !in StartIds(starts)
    ensures SameKeys(c, OpenSessions(c, r, starts), id)
  {
    if starts != [] {
      var n := |starts| - 1;
      assert starts[n] in starts && starts[n].id in StartIds(starts);
      assert StartIds(starts[..n]) <= StartIds(starts) by {
        assert forall st | st in starts[..n] :: st in starts;
      }
      OpenSessionsKeys(c, r, starts[..n], id);
      KeysAreDistinct(id, starts[n].id);
      KeysAreDistinct(starts[n].id, id);
    }
  }

  lemma StartIdsAreNew(c: Core, r: string, starts: seq<Start>)
    requires StartsFit(c, r, starts)
    ensures StartIds(starts) !! c.issued
  {
    forall st | st in starts ensures st.id !in c.issued {
      var i :| 0 <= i < |starts| && starts[i] == st;
      assert StartFits(c, r, starts[i]);
    }
  }

  lemma {:induction false} OpenSessionsLocal(c: Core, r: string, starts: seq<Start>, u: Id)
    requires r in c.rooms && Distinct(c) && StartsFit(c, r, starts)
    ensures Local(c, Some(r), u, OpenSessions(c, r, starts))
  {
    StartIdsAreNew(c, r, starts);
    forall q, id | TurnSession(c, q, id) && q != r ensures SameKeys(c, OpenSessions(c, r, starts), id) {
      OpenSessionsKeys(c, r, starts, id);
    }
  }

  lemma InvitationsLocal(c: Core, r: string, starts: seq<Start>, u: Id)
    requires r in c.rooms && StartsFit(c, r, starts)
    ensures MailLocal(Invitations(c.rooms[r].mode, starts), c, Some(r), u)
  {
    forall v | Addressed(Invitations(c.rooms[r].mode, starts), v) ensures InTarget(c, Some(r), v) {
      InvitationsAddress(c.rooms[r].mode, starts, v);
      var i :| 0 <= i < |starts| && (starts[i].host == v || starts[i].client == v);
      assert StartFits(c, r, starts[i]);
    }
  }

  lemma BroadcastLocal(c: Core, r: string, note: seq<Envelope>, u: Id)
    requires r in c.rooms && IsBroadcast(note, c.rooms[r])
    ensures MailLocal(note, c, Some(r), u)
  {
    forall v | Addressed(note, v) ensures InTarget(c, Some(r), v) {
      var i :| 0 <= i < |note| && note[i].to == v;
      assert IsNote(note[i], c.rooms[r]);
    }
  }

  lemma StopMailLocal(c: Core, r: string, u: Id, order: seq<Id>)
    requires r in c.rooms && SoundRoom(c.rooms[r]) && Enumerates(order, HostSessionsOf(c.rooms[r], u))
    ensures MailLocal(StopMail(c.rooms[r], u, order), c, Some(r), u)
  {
    var bye := [Envelope(u, StopShareDone)];
    var rest := Notices(c.rooms[r], u, order);
    forall v | Addressed(bye + rest, v) ensures v == u || InTarget(c, Some(r), v) {
      AddressedSplit(bye, rest, v);
      if v != u {
        assert !Addressed(bye, v);
        NoticesStayInside(c.rooms[r], u, order, v);
      }
    }
  }

  // ---------- handlers ----------

  ghost predicate OutcomeLocal(c: Core, o: Outcome, t: Option<string>, u: Id) {
    && Local(c, t, u, o.core) && MailLocal(o.out, c, t, u)
    && (o.verdict.Failed? && RoomOf(o.core, u) != "" ==> t == Some(RoomOf(o.core, u)))
  }

  lemma NoChange(c: Core, t: Option<string>, u: Id)
    ensures Local(c, t, u, c) && MailLocal([], c, t, u)
  {
  }

  lemma {:induction false} AdmittedLocal(conf: Config, c: Core, info: ClientInfo, id: string, name: string,
                                         note: seq<Envelope>)
    requires TablesOk(conf, c, {}) && info.id in c.connected && JoinError(conf, c, info, id) == None
    requires IsBroadcast(note, Admitted(c, info, id, name).rooms[id])
    ensures Local(c, Some(id), info.id, Admitted(c, info, id, name)) && MailLocal(note, c, Some(id), info.id)
    ensures RoomOf(Admitted(c, info, id, name), info.id) == id
  {
    var c1 := Admitted(c, info, id, name);
    AdmittedEntered(conf, c, info, id, name);
    hide TablesOk, Local, MailLocal, IsBroadcast;
    EnteredLocal(c, id, UserState(info.id, info.addr, name, false, false), c1);
    BroadcastLocal(c1, id, note, info.id);
    MailTransitive(note, c, c1, Some(id), info.id);
  }

  /** Mail and tables of newSession, on top of changes that were local already. */
  lemma {:induction false} OpenSessionsOnTop(c: Core, c1: Core, r: string, u: Id, starts: seq<Start>)
    requires r in c1.rooms && Distinct(c1) && StartsFit(c1, r, starts) && Local(c, Some(r), u, c1)
    ensures Local(c, Some(r), u, OpenSessions(c1, r, starts))
    ensures MailLocal(Invitations(c1.rooms[r].mode, starts), c, Some(r), u)
  {
    hide Distinct, StartsFit, Local, MailLocal;
    OpenSessionsLocal(c1, r, starts, u);
    LocalTransitive(c, c1, OpenSessions(c1, r, starts), Some(r), u);
    InvitationsLocal(c1, r, starts, u);
    MailTransitive(Invitations(c1.rooms[r].mode, starts), c, c1, Some(r), u);
  }

  lemma {:induction false} AdmittedFits(conf: Config, c: Core, info: ClientInfo, id: string, name: string,
                                        starts: seq<Start>)
    requires TablesOk(conf, c, {}) && info.id in c.connected && info.id in c.clients && c.clients[info.id] == info
    requires JoinError(conf, c, info, id) == None
    requires StartsLegal(starts, c.issued, StreamersTo(Admitted(c, info, id, name).rooms[id], info.id))
    ensures Distinct(Admitted(c, info, id, name)) && StartsFit(Admitted(c, info, id, name), id, starts)
  {
    AdmittedKeeps(conf, c, info, id, name);
    JoinStartsFit(Admitted(c, info, id, name), id, info.id, starts);
  }

  lemma {:induction false} JoinLocal(conf: Config, c: Core, info: ClientInfo, id: string, userName: string, ch: Choice)
    requires TablesOk(conf, c, {}) && info.id in c.connected && info.id in c.clients && c.clients[info.id] == info
    requires JoinLegal(conf, c, info, id, userName, ch) && JoinError(conf, c, info, id) == None
    ensures OutcomeLocal(c, ExecuteJoin(conf, c, info, id, userName, ch), Some(id), info.id)
  {
    hide TablesOk, Local, MailLocal, IsBroadcast;
    var name := DisplayName(info, userName, ch.randomName);
    var c1 := Admitted(c, info, id, name);
    AdmittedLocal(conf, c, info, id, name, ch.note);
    if ch.ip.IpFound? {
      AdmittedFits(conf, c, info, id, name, ch.starts);
      hide Distinct, StartsFit, Admitted, StartsLegal;
      OpenSessionsOnTop(c, c1, id, info.id, ch.starts);
      MailLocalConcat(ch.note, Invitations(c1.rooms[id].mode, ch.starts), c, Some(id), info.id);
    }
  }

  lemma {:induction false} CreateLocal(conf: Config, c: Core, info: ClientInfo, e: Event, ch: Choice)
    requires TablesOk(conf, c, {}) && info.id in c.connected && info.id in c.clients && c.clients[info.id] == info
    requires e.Create? && CreateLegal(conf, c, info, e, ch) && RoomOf(c, info.id) == ""
    ensures OutcomeLocal(c, ExecuteCreate(conf, c, info, e, ch), Some(e.id), info.id)
  {
    var u := info.id;
    hide Keyed, TurnExact, Owners, Admission, Complete, Sound, Mute, Distinct, Agree, Local, MailLocal;
    hide IsBroadcast, CompleteRoom;
    if Delegates(c, info, e) {
      if JoinError(conf, c, info, e.id) == None {
        JoinLocal(conf, c, info, e.id, e.userName, ch);
      } else {
        NoChange(c, Some(e.id), u);
      }
    } else if CreateError(conf, c, info, e.id, e.mode) == None {
      var room := NewRoom(e.id, e.mode, e.closeOnOwnerLeave, info, DisplayName(info, e.userName, ch.randomName));
      var c' := ExecuteCreate(conf, c, info, e, ch).core;
      assert room.users.Keys == {u};
      FoundedLocal(c, room, u, c');
      BroadcastLocal(c', e.id, ch.note, u);
      MailTransitive(ch.note, c, c', Some(e.id), u);
    } else {
      NoChange(c, Some(e.id), u);
    }
  }

  lemma StreamingLocal(c: Core, r: string, u: Id, c1: Core)
    requires r in c.rooms && r != "" && u in c.rooms[r].users && c1 == WithStreaming(c, r, u, true)
    ensures Local(c, Some(r), u, c1)
  {
    EditedLocal(c, r, u, c.rooms[r].users[u].(streaming := true), c1);
  }

  lemma {:induction false} ShareLocal(conf: Config, c: Core, r: string, u: Id, ch: Choice)
    requires TablesOk(conf, c, {}) && Member(c, u) && r == c.connected[u] && InRoomLegal(c, r, u, StartShare, ch)
    ensures OutcomeLocal(c, ExecuteInRoom(c, r, u, StartShare, ch), Some(r), u)
  {
    hide Keyed, Agree, TurnExact, Owners, Admission, Complete, Sound, Mute, Distinct, Local, MailLocal;
    hide IsBroadcast, StartsLegal;
    hide StartsFit, OpenSessions, Invitations, ViewersOf;
    var c1 := WithStreaming(c, r, u, true);
    StreamingKeeps(conf, c, r, u);
    StreamingLocal(c, r, u, c1);
    if ch.ip.IpFound? {
      ShareStartsFit(c1, r, u, ch.starts);
      OpenSessionsOnTop(c, c1, r, u, ch.starts);
      ShareNoteLocal(c, r, u, ch.note);
      MailLocalConcat(Invitations(c.rooms[r].mode, ch.starts), ch.note, c, Some(r), u);
    } else {
      NoChange(c, Some(r), u);
    }
  }

  lemma ShareNoteLocal(c: Core, r: string, u: Id, note: seq<Envelope>)
    requires r in c.rooms && u in c.rooms[r].users && IsBroadcast(note, WithStreaming(c, r, u, true).rooms[r])
    ensures MailLocal(note, c, Some(r), u)
  {
    BroadcastLocal(WithStreaming(c, r, u, true), r, note, u);
  }

  lemma {:induction false} StopLocal(conf: Config, c: Core, r: string, u: Id, ch: Choice)
    requires TablesOk(conf, c, {}) && Member(c, u) && r == c.connected[u] && InRoomLegal(c, r, u, StopShare, ch)
    ensures OutcomeLocal(c, ExecuteInRoom(c, r, u, StopShare, ch), Some(r), u)
  {
    var t := Some(r);
    var c1 := WithStreaming(c, r, u, false);
    var c' := CloseSessions(c1, r, HostSessionsOf(c.rooms[r], u));
    assert SoundRoom(c.rooms[r]);
    hide Keyed, TurnExact, Owners, Admission, Complete, Sound, Mute, Agree, Local, MailLocal, IsBroadcast;
    hide CompleteRoom;
    StopShareStopped(c, r, u);
    StoppedLocal(c, r, u, c');
    StopMailLocal(c, r, u, ch.closing);
    BroadcastOfUsers(ch.note, c1.rooms[r], c'.rooms[r]);
    BroadcastLocal(c', r, ch.note, u);
    MailTransitive(ch.note, c, c', t, u);
    MailLocalConcat(StopMail(c.rooms[r], u, ch.closing), ch.note, c, t, u);
  }

  lemma NameLocal(c: Core, r: string, u: Id, name: string, note: seq<Envelope>)
    requires r in c.rooms && r != "" && u in c.rooms[r].users
    requires IsBroadcast(note, WithName(c, r, u, name).rooms[r])
    ensures Local(c, Some(r), u, WithName(c, r, u, name)) && MailLocal(note, c, Some(r), u)
  {
    var c' := WithName(c, r, u, name);
    hide Local, MailLocal, IsBroadcast;
    EditedLocal(c, r, u, c.rooms[r].users[u].(name := name), c');
    BroadcastLocal(c', r, note, u);
    MailTransitive(note, c, c', Some(r), u);
  }

  lemma RelayLocal(c: Core, r: string, u: Id, e: Event, ch: Choice)
    requires r in c.rooms && e.Relay? && u in c.connected && c.connected[u] == r
    ensures OutcomeLocal(c, ExecuteInRoom(c, r, u, e, ch), Some(r), u)
  {
  }

  lemma {:induction false} InRoomLocal(conf: Config, c: Core, u: Id, e: Event, ch: Choice)
    requires TablesOk(conf, c, {}) && Member(c, u)
    requires e.Name? || e.StartShare? || e.StopShare? || e.Relay?
    requires InRoomLegal(c, c.connected[u], u, e, ch)
    ensures OutcomeLocal(c, ExecuteInRoom(c, c.connected[u], u, e, ch), Some(c.connected[u]), u)
  {
    var r := c.connected[u];
    match e
    case Name(name) =>
      hide TablesOk, Local, MailLocal, IsBroadcast;
      NameLocal(c, r, u, name, ch.note);
    case StartShare =>
      hide TablesOk, OutcomeLocal, ExecuteInRoom;
      ShareLocal(conf, c, r, u, ch);
    case StopShare =>
      hide TablesOk, OutcomeLocal, ExecuteInRoom;
      StopLocal(conf, c, r, u, ch);
    case Relay(_, _, _) =>
      hide TablesOk, OutcomeLocal, ExecuteInRoom;
      RelayLocal(c, r, u, e, ch);
  }

  lemma {:induction false} ExecuteLocal(conf: Config, c: Core, m: ClientMessage, ch: Choice)
    requires TablesOk(conf, c, {}) && !m.event.Connected?
    requires m.info.id in c.connected && m.info.id in c.clients && c.clients[m.info.id] == m.info
    requires ExecuteLegal(conf, c, m, ch)
    ensures OutcomeLocal(c, Execute(conf, c, m, ch), Target(c, m), m.info.id)
  {
    hide TablesOk, InRoomLegal, ExecuteInRoom, HangupLegal, Hangup, HangupMail, Local, MailLocal;
    hide IsBroadcast, StartsLegal, OpenSessions, Invitations, CheckAuth;
    OkParts(conf, c);
    var u := m.info.id;
    var t := Target(c, m);
    match m.event
    case Disconnected(code, reason) =>
      HangupLocal(c, u, t);
      HangupMailLocal(c, u, code, reason, ch, t);
    case Join(id, userName) =>
      if JoinError(conf, c, m.info, id) == None {
        JoinLocal(conf, c, m.info, id, userName, ch);
      } else {
        NoChange(c, t, u);
      }
    case Create(_, _, _, _, _) =>
      if RoomOf(c, u) == "" {
        CreateLocal(conf, c, m.info, m.event, ch);
      } else {
        NoChange(c, t, u);
      }
    case _ =>
      if CurrentRoomError(c, u) == None {
        InRoomLocal(conf, c, u, m.event, ch);
      } else {
        NoChange(c, t, u);
      }
  }

  /** The messages of one step. */
  function StepMail(conf: Config, s: State, m: ClientMessage, ch: Choice): (mail: seq<Envelope>)
    ensures Step(conf, s, m, ch).sent == s.sent + mail
  {
    var c := Register(s.core, m);
    if Ignored(c, m) then assert s.sent + [] == s.sent; []
    else
      var o := Execute(conf, c, m, ch);
      if o.verdict.Failed? then
        var mail := HangupMail(o.core, m.info.id, CLOSE_NORMAL, o.verdict.reason, ch);
        assert s.sent + o.out + mail == s.sent + (o.out + mail);
        o.out + mail
      else o.out
  }

  /** The forced disconnect after a failed handler adds nothing outside the target. */
  lemma {:induction false} FailedLocal(c: Core, o: Outcome, t: Option<string>, u: Id, reason: string, ch: Choice)
    requires OutcomeLocal(c, o, t, u) && o.verdict.Failed?
    requires Agree(o.core) && Sound(o.core) && Distinct(o.core) && HangupLegal(o.core, u, ch)
    ensures Local(c, t, u, Hangup(o.core, u))
    ensures MailLocal(o.out + HangupMail(o.core, u, CLOSE_NORMAL, reason, ch), c, t, u)
  {
    var mail := HangupMail(o.core, u, CLOSE_NORMAL, reason, ch);
    hide Agree, Sound, Distinct, HangupLegal, Local, MailLocal, Hangup, HangupMail;
    HangupLocal(o.core, u, t);
    LocalTransitive(c, o.core, Hangup(o.core, u), t, u);
    HangupMailLocal(o.core, u, CLOSE_NORMAL, reason, ch, t);
    MailTransitive(mail, c, o.core, t, u);
    MailLocalConcat(o.out, mail, c, t, u);
  }

  lemma ConnectedCore(c: Core, c': Core, t: Option<string>, u: Id)
    requires c'.rooms == c.rooms && c'.lookup == c.lookup && c'.connected == c.connected[u := ""]
    ensures Local(c, t, u, c')
  {
  }

  lemma ConnectedLocal(conf: Config, s: State, m: ClientMessage, ch: Choice)
    requires m.event.Connected? && StepLegal(conf, s, m, ch) && TablesOk(conf, s.core, {})
    ensures Local(s.core, Target(s.core, m), m.info.id, Step(conf, s, m, ch).core)
    ensures StepMail(conf, s, m, ch) == []
  {
    hide TablesOk;
    ConnectedCore(s.core, Step(conf, s, m, ch).core, Target(s.core, m), m.info.id);
  }

  lemma {:induction false} HandledLocal(conf: Config, s: State, m: ClientMessage, ch: Choice)
    requires !m.event.Connected? && m.info.id in s.core.connected
    requires StepLegal(conf, s, m, ch) && TablesOk(conf, s.core, {})
    ensures Local(s.core, Target(s.core, m), m.info.id, Step(conf, s, m, ch).core)
    ensures MailLocal(StepMail(conf, s, m, ch), s.core, Target(s.core, m), m.info.id)
  {
    var c := s.core;
    var u := m.info.id;
    var o := Execute(conf, c, m, ch);
    hide Local, MailLocal, Execute, ExecuteLegal, Keyed, Agree, Sound, Distinct, TurnExact, Owners, Admission;
    hide Complete, Mute;
    hide HangupLegal;
    ExecuteLocal(conf, c, m, ch);
    ExecuteKeeps(conf, c, m, ch);
    if o.verdict.Failed? {
      FailedLocal(c, o, Target(c, m), u, o.verdict.reason, ch);
    }
  }

  /** A step touches only the room it is about and the sender. */
  lemma {:induction false} StepLocal(conf: Config, s: State, m: ClientMessage, ch: Choice)
    requires TablesOk(conf, s.core, {}) && StepLegal(conf, s, m, ch)
    ensures Local(s.core, Target(s.core, m), m.info.id, Step(conf, s, m, ch).core)
    ensures MailLocal(StepMail(conf, s, m, ch), s.core, Target(s.core, m), m.info.id)
  {
    var c := s.core;
    var u := m.info.id;
    var t := Target(c, m);
    if m.event.Connected? {
      ConnectedLocal(conf, s, m, ch);
    } else if u in c.connected {
      hide TablesOk, Local, MailLocal;
      HandledLocal(conf, s, m, ch);
    } else {
      hide Local, MailLocal, Execute, ExecuteLegal, TablesOk;
      NoChange(c, t, u);
    }
  }
}
