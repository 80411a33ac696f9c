/**
 What the single steps of the imperative server amount to in the model: the choices they make, the outcomes of
 the handlers, the feed of the event loop. All on values, so that the methods need not unfold the model.
 */
module Outcomes {
  import opened Domain
  import opened Protocol
  import opened Tables
  import opened Safety
  import opened Mirror
  import opened Isolation

  /** One more pair has its session. */
  lemma StartsNext(starts: seq<Start>, issued: set<Id>, done: set<(Id, Id)>, st: Start)
    requires StartsLegal(starts, issued, done) && st.id !in issued && (st.host, st.client) !in done
    requires forall s | s in starts :: s.id != st.id
    ensures StartsLegal(starts + [st], issued, done + {(st.host, st.client)})
  {
    var starts' := starts + [st];
    forall p | p in done + {(st.host, st.client)}
      ensures exists i :: 0 <= i < |starts'| && (starts'[i].host, starts'[i].client) == p
    {
      if p in done {
        var i :| 0 <= i < |starts| && (starts[i].host, starts[i].client) == p;
        assert starts'[i] == starts[i];
      } else {
        assert starts'[|starts|] == st;
      }
    }
    forall i | 0 <= i < |starts|
      ensures starts[i].id != st.id && (starts[i].host, starts[i].client) != (st.host, st.client)
    {
      assert starts[i] in starts;
    }
  }

  lemma StreamersToMeans(room: RoomState, u: Id)
    ensures forall p :: p in StreamersTo(room, u) <==>
      p.0 in room.users && p.0 != u && room.users[p.0].streaming && p.1 == u
  {
  }

  lemma ViewersOfMeans(room: RoomState, u: Id)
    ensures forall p :: p in ViewersOf(room, u) <==> p.1 in room.users && p.1 != u && p.0 == u
  {
  }

  /** One more session is closed. */
  lemma NoticesNext(room: RoomState, u: Id, closed: seq<Id>, done: set<Id>, sid: Id)
    requires Enumerates(closed, done) && sid !in done
    ensures Enumerates(closed + [sid], done + {sid}) && |done + {sid}| == |done| + 1
    ensures Notices(room, u, closed + [sid]) == Notices(room, u, closed) + Notice(room, u, sid)
    ensures room.sessions - done - {sid} == room.sessions - (done + {sid})
  {
    assert (closed + [sid])[..|closed|] == closed;
  }

  lemma Associative(a: seq<Envelope>, b: seq<Envelope>, c: seq<Envelope>)
    ensures a + b + c == a + (b + c)
  {
  }

  /** Exactly the users in told have their Room message. */
  ghost predicate Telling(note: seq<Envelope>, room: RoomState, told: set<Id>) {
    && (forall i | 0 <= i < |note| :: IsNote(note[i], room))
    && (forall i, j | 0 <= i < j < |note| :: note[i].to != note[j].to)
    && (forall u :: Addressed(note, u) <==> u in told)
  }

  lemma TellingNobody(room: RoomState)
    ensures Telling([], room, {})
  {
  }

  lemma TellingNext(note: seq<Envelope>, room: RoomState, told: set<Id>, e: Envelope)
    requires Telling(note, room, told) && IsNote(e, room) && e.to !in told
    ensures Telling(note + [e], room, told + {e.to})
  {
    forall u ensures Addressed(note + [e], u) <==> u in told + {e.to} {
      AddressedSplit(note, [e], u);
      assert Addressed([e], u) <==> [e][0].to == u;
    }
    forall i | 0 <= i < |note| ensures note[i].to != e.to {
      assert Addressed(note, note[i].to);
    }
  }

  lemma TellingAll(note: seq<Envelope>, room: RoomState)
    requires Telling(note, room, room.users.Keys)
    ensures IsBroadcast(note, room)
  {
    forall u | u in room.users ensures exists i :: 0 <= i < |note| && note[i].to == u {
      assert Addressed(note, u);
    }
  }

  /** Sorting keeps what was listed, each once. */
  lemma SortKeeps(raw: seq<UserView>, view: seq<UserView>)
    requires multiset(view) == multiset(raw)
    requires forall i, j | 0 <= i < j < |raw| :: raw[i].id != raw[j].id
    ensures |view| == |raw|
    ensures forall i, j | 0 <= i < j < |view| :: view[i].id != view[j].id
  {
    assert |multiset(view)| == |view| && |multiset(raw)| == |raw|;
    forall i, j | 0 <= i < j < |view| ensures view[i].id != view[j].id {
      assert view[i] in multiset(raw) && view[j] in multiset(raw);
      if view[i] == view[j] {
        TwiceInMultiset(view, i, j);
        OnceInMultiset(raw, view[i]);
      } else {
        var k :| 0 <= k < |raw| && raw[k] == view[i];
        var l :| 0 <= l < |raw| && raw[l] == view[j];
        assert k < l || l < k;
      }
    }
  }

  lemma TwiceInMultiset(view: seq<UserView>, i: nat, j: nat)
    requires i < j < |view| && view[i] == view[j]
    ensures multiset(view)[view[i]] >= 2
  {
    assert view == view[..j] + [view[j]] + view[j + 1..];
    assert view[i] in view[..j];
  }

  lemma {:induction false} OnceInMultiset(raw: seq<UserView>, v: UserView)
    requires forall i, j | 0 <= i < j < |raw| :: raw[i].id != raw[j].id
    ensures multiset(raw)[v] <= 1
  {
    if raw != [] {
      var n := |raw| - 1;
      OnceInMultiset(raw[..n], v);
      assert raw == raw[..n] + [raw[n]];
      if v == raw[n] {
        assert v !in raw[..n];
      }
    }
  }

  /** Only ids drawn meanwhile were issued meanwhile. */
  ghost predicate IssuedGrow(issued: set<Id>, drawn: set<Id>, issued': set<Id>, drawn': set<Id>) {
    drawn <= drawn' && issued' <= issued + (drawn' - drawn)
  }

  lemma NothingIssued(issued: set<Id>, drawn: set<Id>)
    ensures IssuedGrow(issued, drawn, issued, drawn)
  {
  }

  lemma IssuedWithin(issued: set<Id>, issued': set<Id>, drawn: set<Id>)
    requires issued' <= issued
    ensures IssuedGrow(issued, drawn, issued', drawn)
  {
  }

  lemma IssuedWeaker(issued: set<Id>, issued1: set<Id>, drawn: set<Id>, issued': set<Id>, drawn': set<Id>)
    requires issued1 <= issued && IssuedGrow(issued1, drawn, issued', drawn')
    ensures IssuedGrow(issued, drawn, issued', drawn')
  {
  }

  lemma NotInRoom(conf: Config, c: Core, info: ClientInfo, e: Event, ch: Choice, sent: seq<Envelope>)
    requires e.Name? || e.StartShare? || e.StopShare? || e.Relay?
    ensures CurrentRoomError(c, info.id).Some? ==>
      var m := ClientMessage(info, false, e);
      && ExecuteLegal(conf, c, m, ch) && Execute(conf, c, m, ch) == Fail(c, CurrentRoomError(c, info.id).value)
      && sent + Execute(conf, c, m, ch).out == sent
  {
  }

  lemma RenameOutcome(conf: Config, c: Core, info: ClientInfo, userName: string, ch: Choice)
    requires CurrentRoomError(c, info.id) == None && info.id in c.rooms[RoomOf(c, info.id)].users
    requires IsBroadcast(ch.note, WithName(c, RoomOf(c, info.id), info.id, userName).rooms[RoomOf(c, info.id)])
    ensures var m := ClientMessage(info, false, Name(userName));
      && ExecuteLegal(conf, c, m, ch)
      && Execute(conf, c, m, ch) == Outcome(WithName(c, RoomOf(c, info.id), info.id, userName), ch.note, Done)
  {
    hide WithName, IsBroadcast;
  }

  lemma ShareFails(conf: Config, c: Core, info: ClientInfo, ch: Choice)
    requires CurrentRoomError(c, info.id) == None && info.id in c.rooms[RoomOf(c, info.id)].users && ch.ip.IpError?
    ensures var m, r := ClientMessage(info, false, StartShare), RoomOf(c, info.id);
      && ExecuteLegal(conf, c, m, ch)
      && Execute(conf, c, m, ch) == Outcome(WithStreaming(c, r, info.id, true), [], Failed(ch.ip.reason))
  {
    hide WithStreaming;
  }

  lemma ShareOutcome(conf: Config, c: Core, info: ClientInfo, ch: Choice)
    requires CurrentRoomError(c, info.id) == None && info.id in c.rooms[RoomOf(c, info.id)].users && ch.ip.IpFound?
    requires var r := RoomOf(c, info.id);
      var c1 := WithStreaming(c, r, info.id, true);
      && StartsLegal(ch.starts, c1.issued, ViewersOf(c1.rooms[r], info.id))
      && IsBroadcast(ch.note, OpenSessions(c1, r, ch.starts).rooms[r])
    ensures var m, r := ClientMessage(info, false, StartShare), RoomOf(c, info.id);
      && ExecuteLegal(conf, c, m, ch)
      && Execute(conf, c, m, ch) == Outcome(OpenSessions(WithStreaming(c, r, info.id, true), r, ch.starts),
                                            Invitations(c.rooms[r].mode, ch.starts) + ch.note, Done)
  {
    hide StartsLegal, OpenSessions, Invitations, ViewersOf, IsBroadcast;
    var r := RoomOf(c, info.id);
    var c1 := WithStreaming(c, r, info.id, true);
    BroadcastOfUsers(ch.note, OpenSessions(c1, r, ch.starts).rooms[r], c1.rooms[r]);
  }

  lemma UnshareOutcome(conf: Config, c: Core, info: ClientInfo, ch: Choice)
    requires CurrentRoomError(c, info.id) == None && info.id in c.rooms[RoomOf(c, info.id)].users
    requires var r := RoomOf(c, info.id);
      var c1 := WithStreaming(c, r, info.id, false);
      && Enumerates(ch.closing, HostSessionsOf(c1.rooms[r], info.id))
      && IsBroadcast(ch.note, CloseSessions(c1, r, HostSessionsOf(c1.rooms[r], info.id)).rooms[r])
    ensures var m, r := ClientMessage(info, false, StopShare), RoomOf(c, info.id);
      var c1 := WithStreaming(c, r, info.id, false);
      && ExecuteLegal(conf, c, m, ch)
      && Execute(conf, c, m, ch) ==
         Outcome(CloseSessions(c1, r, HostSessionsOf(c1.rooms[r], info.id)),
                 [Envelope(info.id, StopShareDone)] + Notices(c1.rooms[r], info.id, ch.closing) + ch.note, Done)
  {
    hide Enumerates, Notices, IsBroadcast;
    var r := RoomOf(c, info.id);
    var c1 := WithStreaming(c, r, info.id, false);
    assert HostSessionsOf(c1.rooms[r], info.id) == HostSessionsOf(c.rooms[r], info.id);
    NoticesSame(c.rooms[r], c1.rooms[r], info.id, ch.closing);
    BroadcastOfUsers(ch.note, CloseSessions(c1, r, HostSessionsOf(c1.rooms[r], info.id)).rooms[r], c1.rooms[r]);
  }

  /** The EndShare messages depend on who is there and on the sessions only. */
  lemma {:induction false} NoticesSame(room: RoomState, room': RoomState, u: Id, order: seq<Id>)
    requires room'.users.Keys == room.users.Keys && room'.sessions == room.sessions
    ensures Notices(room', u, order) == Notices(room, u, order)
  {
    if order != [] {
      NoticesSame(room, room', u, order[..|order| - 1]);
      var id := order[|order| - 1];
      if id in room.sessions {
        var peer := PeerOf(room.sessions[id], u);
        assert peer in room.users.Keys <==> peer in room'.users.Keys;
      }
    }
  }

  lemma RelayOutcome(conf: Config, c: Core, info: ClientInfo, signal: Signal, sid: Id, value: string)
    requires CurrentRoomError(c, info.id) == None && Sound(c)
    ensures var m, room := ClientMessage(info, false, Relay(signal, sid, value)), c.rooms[RoomOf(c, info.id)];
      && ExecuteLegal(conf, c, m, QUIET)
      && Execute(conf, c, m, QUIET) ==
         if sid !in room.sessions then Outcome(c, [], Done)
         else
           var s := room.sessions[sid];
           var mine := if signal.FromHost() then s.host else s.client;
           var theirs := if signal.FromHost() then s.client else s.host;
           if mine != info.id then Outcome(c, [], Failed("permission denied for session " + sid))
           else Outcome(c, [Envelope(theirs, Sent(Relayed(signal, sid, value)))], Done)
  {
    var room := c.rooms[RoomOf(c, info.id)];
    assert SoundRoom(room);
  }

  lemma JoinFails(conf: Config, c: Core, info: ClientInfo, id: string, userName: string, sent: seq<Envelope>)
    requires JoinError(conf, c, info, id).Some?
    ensures var m := ClientMessage(info, false, Join(id, userName));
      && ExecuteLegal(conf, c, m, QUIET) && Execute(conf, c, m, QUIET) == Fail(c, JoinError(conf, c, info, id).value)
      && sent + Execute(conf, c, m, QUIET).out == sent
  {
  }

  lemma JoinOutcome(conf: Config, c: Core, info: ClientInfo, id: string, userName: string, ch: Choice)
    requires JoinError(conf, c, info, id) == None
    requires var c1 := Admitted(c, info, id, DisplayName(info, userName, ch.randomName));
      && IsBroadcast(ch.note, c1.rooms[id])
      && (ch.ip.IpFound? ==> StartsLegal(ch.starts, c1.issued, StreamersTo(c1.rooms[id], info.id)))
    ensures var m := ClientMessage(info, false, Join(id, userName));
      var c1 := Admitted(c, info, id, DisplayName(info, userName, ch.randomName));
      && ExecuteLegal(conf, c, m, ch)
      && Execute(conf, c, m, ch) ==
         if ch.ip.IpError? then Outcome(c1, ch.note, Failed(ch.ip.reason))
         else Outcome(OpenSessions(c1, id, ch.starts), ch.note + Invitations(c1.rooms[id].mode, ch.starts), Done)
  {
    hide IsBroadcast, StartsLegal, StreamersTo, OpenSessions, Invitations;
  }

  lemma CreateDelegates(conf: Config, c: Core, info: ClientInfo, e: Event, ch: Choice)
    requires e.Create? && Delegates(c, info, e)
    ensures var m, m' := ClientMessage(info, false, Join(e.id, e.userName)), ClientMessage(info, false, e);
      && ExecuteLegal(conf, c, m', ch) == ExecuteLegal(conf, c, m, ch)
      && Execute(conf, c, m', ch) == Execute(conf, c, m, ch)
  {
    hide JoinLegal, Protocol.ExecuteJoin;
  }

  lemma CreateFails(conf: Config, c: Core, info: ClientInfo, e: Event, sent: seq<Envelope>)
    requires e.Create? && !Delegates(c, info, e) && CreateError(conf, c, info, e.id, e.mode).Some?
    ensures var m := ClientMessage(info, false, e);
      && ExecuteLegal(conf, c, m, QUIET)
      && Execute(conf, c, m, QUIET) == Fail(c, CreateError(conf, c, info, e.id, e.mode).value)
      && sent + Execute(conf, c, m, QUIET).out == sent
  {
    hide CreateError, Delegates;
  }

  /** The tables once a room was created. */
  function Created(c: Core, info: ClientInfo, e: Event, name: string): Core
    requires e.Create?
  {
    c.(connected := c.connected[info.id := e.id],
       rooms := c.rooms[e.id := NewRoom(e.id, e.mode, e.closeOnOwnerLeave, info, name)],
       metrics := c.metrics.(usersJoined := c.metrics.usersJoined + 1, roomsCreated := c.metrics.roomsCreated + 1))
  }

  lemma CreateOutcome(conf: Config, c: Core, info: ClientInfo, e: Event, ch: Choice)
    requires e.Create? && !Delegates(c, info, e) && CreateError(conf, c, info, e.id, e.mode) == None
    requires var name := DisplayName(info, e.userName, ch.randomName);
      IsBroadcast(ch.note, NewRoom(e.id, e.mode, e.closeOnOwnerLeave, info, name))
    ensures var m := ClientMessage(info, false, e);
      && ExecuteLegal(conf, c, m, ch)
      && Execute(conf, c, m, ch) ==
         Outcome(Created(c, info, e, DisplayName(info, e.userName, ch.randomName)), ch.note, Done)
  {
    hide IsBroadcast, CreateError, Delegates;
  }

  /** Leaving looks at the rooms only. */
  lemma LeaveSame(c: Core, c1: Core, r: string, u: Id, ch: Choice)
    requires c1.rooms == c.rooms
    ensures LeaveLegal(c1, r, u, ch) == LeaveLegal(c, r, u, ch) && LeaveMail(c1, r, u, ch) == LeaveMail(c, r, u, ch)
  {
    hide Enumerates, IsBroadcast, Notices, Goodbyes, ClosesRoom, Without, SessionsOf;
  }

  /** The id that a message brings in. */
  function NewIds(m: ClientMessage): set<Id> {
    if m.event.Connected? then {m.info.id} else {}
  }

  lemma RegisterMeans(conf: Config, c: Core, m: ClientMessage)
    requires TablesOk(conf, c, {})
    ensures Agree(Register(c, m)) && Sound(Register(c, m))
  {
    hide SoundRoom;
  }

  function Enrolled(clients: map<Id, ClientInfo>, m: ClientMessage): map<Id, ClientInfo> {
    if m.event.Connected? then clients[m.info.id := m.info] else clients
  }

  /**
   What Upgrade and the read loops put on the channel: per client one Connected with an id of its own (here drawn
   before the loop starts, which is no restriction: an id is only ever compared with others), then its events.
   */
  ghost predicate Feed(incoming: seq<ClientMessage>, drawn: set<Id>) {
    forall n | 0 <= n < |incoming| :: Fed(incoming[..n], incoming[n], drawn)
  }

  ghost predicate Fed(before: seq<ClientMessage>, m: ClientMessage, drawn: set<Id>) {
    && m.skipConnectedCheck == m.event.Connected?
    && if m.event.Connected?
       then m.info.id in drawn && forall p | p in before && p.event.Connected? :: p.info.id != m.info.id
       else exists p :: p in before && p.event.Connected? && p.info == m.info
  }

  /** The bookkeeping after the messages of before. */
  ghost predicate Booked(before: seq<ClientMessage>, clients: map<Id, ClientInfo>, issued: set<Id>, drawn: set<Id>,
                         drawn': set<Id>) {
    && drawn <= drawn'
    && (forall id | id in issued && id in drawn :: exists p :: p in before && p.event.Connected? && p.info.id == id)
    && (forall p | p in before && p.event.Connected? :: p.info.id in clients && clients[p.info.id] == p.info)
  }

  lemma BookedNothing(clients: map<Id, ClientInfo>, issued: set<Id>, drawn: set<Id>)
    requires issued == {}
    ensures Booked([], clients, issued, drawn, drawn)
  {
  }

  lemma BookedArrives(before: seq<ClientMessage>, m: ClientMessage, c: Core, drawn: set<Id>, drawn': set<Id>)
    requires Booked(before, c.clients, c.issued, drawn, drawn') && Fed(before, m, drawn)
    ensures Arrives(c, m) && (m.event.Connected? ==> m.info.id in drawn')
  {
  }

  lemma BookedNext(before: seq<ClientMessage>, m: ClientMessage, clients: map<Id, ClientInfo>, issued: set<Id>,
                   clients': map<Id, ClientInfo>, issued': set<Id>, drawn: set<Id>, drawn1: set<Id>, drawn2: set<Id>)
    requires Booked(before, clients, issued, drawn, drawn1) && Fed(before, m, drawn)
    requires clients' == Enrolled(clients, m) && IssuedGrow(issued + NewIds(m), drawn1, issued', drawn2)
    ensures Booked(before + [m], clients', issued', drawn, drawn2)
  {
    var after := before + [m];
    assert m in after;
    forall p ensures p in after <==> p in before || p == m {
    }
    forall id | id in issued' && id in drawn ensures exists p :: p in after && p.event.Connected? && p.info.id == id {
      if id in issued {
        var p :| p in before && p.event.Connected? && p.info.id == id;
        assert p in after;
      }
    }
  }

  /** The choices of a handler that failed, and of the hang-up that follows. */
  function Both(ch: Choice, last: Choice): Choice {
    ch.(closing := last.closing, kicked := last.kicked, farewell := last.farewell)
  }

  lemma StepIgnored(conf: Config, s: State, m: ClientMessage, ch: Choice)
    requires Arrives(s.core, m) && Ignored(Register(s.core, m), m)
    ensures StepLegal(conf, s, m, ch) && Step(conf, s, m, ch) == State(Register(s.core, m), s.sent)
  {
    hide Execute, ExecuteLegal, Ignored, Register, Arrives;
  }

  /** Whether the message skipped the connected check does not matter to its handler. */
  lemma CheckDoesNotMatter(conf: Config, c: Core, m: ClientMessage, ch: Choice)
    ensures var m' := ClientMessage(m.info, false, m.event);
      && Execute(conf, c, m, ch) == Execute(conf, c, m', ch)
      && ExecuteLegal(conf, c, m, ch) == ExecuteLegal(conf, c, m', ch)
  {
    hide Protocol.ExecuteJoin, Protocol.ExecuteCreate, ExecuteInRoom, Hangup, HangupMail, JoinLegal;
    hide CreateLegal, InRoomLegal, HangupLegal;
  }

  lemma StepDone(conf: Config, s: State, m: ClientMessage, ch: Choice)
    requires var c, m' := Register(s.core, m), ClientMessage(m.info, false, m.event);
      && Arrives(s.core, m) && !Ignored(c, m)
      && ExecuteLegal(conf, c, m', ch) && Execute(conf, c, m', ch).verdict == Done
    ensures StepLegal(conf, s, m, ch)
    ensures var o := Execute(conf, Register(s.core, m), ClientMessage(m.info, false, m.event), ch);
      Step(conf, s, m, ch) == State(o.core, s.sent + o.out)
  {
    hide Execute, ExecuteLegal, Ignored, Register, Arrives;
    CheckDoesNotMatter(conf, Register(s.core, m), m, ch);
  }

  /** A handler that fails did not look at the choices of the hang-up. */
  lemma FailedChoice(conf: Config, c: Core, m: ClientMessage, ch: Choice, last: Choice)
    requires Execute(conf, c, m, ch).verdict.Failed? && ExecuteLegal(conf, c, m, ch)
    ensures Execute(conf, c, m, Both(ch, last)) == Execute(conf, c, m, ch)
    ensures ExecuteLegal(conf, c, m, Both(ch, last))
  {
    hide IsBroadcast, StartsLegal, OpenSessions, Hangup, HangupMail, HangupLegal, CloseSessions, Notices;
    hide Admitted, JoinError;
    hide CheckAuth, WithName, WithStreaming, Invitations, NewRoom, CurrentRoomError, StreamersTo, ViewersOf;
    hide HostSessionsOf, Enumerates;
  }

  lemma HangupChoice(c: Core, u: Id, reason: string, ch: Choice, last: Choice)
    ensures HangupLegal(c, u, Both(ch, last)) == HangupLegal(c, u, last)
    ensures HangupMail(c, u, CLOSE_NORMAL, reason, Both(ch, last)) == HangupMail(c, u, CLOSE_NORMAL, reason, last)
  {
    hide IsBroadcast, Enumerates, Notices, Goodbyes, ClosesRoom, Without, SessionsOf;
  }

  lemma StepFailed(conf: Config, s: State, m: ClientMessage, ch: Choice, last: Choice, reason: string)
    requires var c, m' := Register(s.core, m), ClientMessage(m.info, false, m.event);
      && Arrives(s.core, m) && !Ignored(c, m)
      && ExecuteLegal(conf, c, m', ch) && Execute(conf, c, m', ch).verdict == Failed(reason)
      && HangupLegal(Execute(conf, c, m', ch).core, m.info.id, last)
    ensures StepLegal(conf, s, m, Both(ch, last))
    ensures var o := Execute(conf, Register(s.core, m), ClientMessage(m.info, false, m.event), ch);
      Step(conf, s, m, Both(ch, last)) ==
      State(Hangup(o.core, m.info.id), s.sent + o.out + HangupMail(o.core, m.info.id, CLOSE_NORMAL, reason, last))
  {
    hide Execute, ExecuteLegal, Ignored, Register, Arrives, Hangup, HangupLegal, HangupMail, Both;
    var c, m' := Register(s.core, m), ClientMessage(m.info, false, m.event);
    CheckDoesNotMatter(conf, c, m, ch);
    FailedChoice(conf, c, m, ch, last);
    HangupChoice(Execute(conf, c, m, ch).core, m.info.id, reason, ch, last);
  }

  /** The part of a choice that concerns leaving. */
  function Leaving(closing: seq<Id>, kicked: seq<Id>, farewell: seq<Envelope>): Choice {
    Choice("", IpFound, [], [], closing, kicked, farewell)
  }

  lemma LeaveNothing(c: Core, r: string, u: Id, ch: Choice, sent: seq<Envelope>)
    ensures r !in c.rooms || u !in c.rooms[r].users ==>
      LeaveLegal(c, r, u, ch) && c == Leave(c, r, u) && sent == sent + LeaveMail(c, r, u, ch)
  {
  }

  /** removeUserFromRoom asks for the owner first and then counts the users that are left. */
  lemma ClosesRoomMeans(room: RoomState, u: Id)
    requires u in room.users
    ensures ClosesRoom(room, u) <==>
      (room.users[u].owner && room.closeOnOwnerLeave) || |room.users.Keys - {u}| == 0
  {
    var others := room.users.Keys - {u};
    assert room.users.Keys == {u} + others;
  }

  lemma LeaveClosing(c: Core, r: string, u: Id, ch: Choice, sent: seq<Envelope>)
    requires r in c.rooms && u in c.rooms[r].users && ClosesRoom(c.rooms[r], u)
    requires Enumerates(ch.closing, SessionsOf(c.rooms[r], u)) && Enumerates(ch.kicked, c.rooms[r].users.Keys - {u})
    ensures LeaveLegal(c, r, u, ch) && Leave(c, r, u) == Protocol.CloseRoom(DropUser(c, r, u), r)
    ensures sent + Notices(c.rooms[r], u, ch.closing) + Goodbyes(ch.kicked) == sent + LeaveMail(c, r, u, ch)
  {
    hide Enumerates, SessionsOf, DropUser, Protocol.CloseRoom, Goodbyes, Notices, ClosesRoom, Without;
    Associative(sent, Notices(c.rooms[r], u, ch.closing), Goodbyes(ch.kicked));
  }

  lemma LeaveStaying(c: Core, r: string, u: Id, ch: Choice, sent: seq<Envelope>)
    requires r in c.rooms && u in c.rooms[r].users && !ClosesRoom(c.rooms[r], u)
    requires Enumerates(ch.closing, SessionsOf(c.rooms[r], u)) && IsBroadcast(ch.farewell, DropUser(c, r, u).rooms[r])
    ensures LeaveLegal(c, r, u, ch) && Leave(c, r, u) == DropUser(c, r, u)
    ensures sent + Notices(c.rooms[r], u, ch.closing) + ch.farewell == sent + LeaveMail(c, r, u, ch)
  {
    hide Enumerates, SessionsOf, DropUser, Notices, IsBroadcast, ClosesRoom, Without;
    Associative(sent, Notices(c.rooms[r], u, ch.closing), ch.farewell);
  }

  lemma DropUserFields(c: Core, r: string, u: Id, c': Core)
    requires r in c.rooms && u in c.rooms[r].users && c'.connected == c.connected
    requires c'.rooms == c.rooms[r := Without(c.rooms[r], u)]
    requires c'.lookup == Revoked(c.rooms[r].mode, c.lookup, SessionsOf(c.rooms[r], u))
    requires c'.clients == c.clients && c'.issued == c.issued
    requires c'.metrics == c.metrics.(usersLeft := c.metrics.usersLeft + 1,
                                      sessionsClosed := c.metrics.sessionsClosed + |SessionsOf(c.rooms[r], u)|)
    ensures c' == DropUser(c, r, u)
  {
    hide SessionsOf, Revoked;
  }

  /** The counters after closeRoom, but for that of the rooms. */
  function TornDown(m: Metrics, users: nat, sessions: nat): Metrics {
    m.(usersLeft := m.usersLeft + users, sessionsClosed := m.sessionsClosed + sessions)
  }

  lemma TornDownMeans(m: Metrics, users: nat, sessions: nat)
    ensures var m1 := m.(usersLeft := m.usersLeft + users);
      m1.(sessionsClosed := m1.sessionsClosed + sessions) == TornDown(m, users, sessions)
  {
  }

  lemma CloseRoomFields(c: Core, r: string, c': Core)
    requires r in c.rooms && c'.connected == c.connected - c.rooms[r].users.Keys && c'.rooms == c.rooms - {r}
    requires c'.lookup == Revoked(c.rooms[r].mode, c.lookup, c.rooms[r].sessions.Keys)
    requires c'.clients == c.clients && c'.issued == c.issued
    requires var m := TornDown(c.metrics, |c.rooms[r].users|, |c.rooms[r].sessions|);
      c'.metrics == m.(roomsClosed := m.roomsClosed + 1)
    ensures c' == Protocol.CloseRoom(c, r)
  {
    hide Revoked;
    SizeOfKeys(c.rooms[r].sessions);
    PutAndRemoved(c.rooms, r, c.rooms[r].(sessions := c.rooms[r].sessions - c.rooms[r].sessions.Keys));
  }

  lemma SizeOfKeys<K, V>(m: map<K, V>)
    ensures |m.Keys| == |m|
  {
  }

  lemma ThrownOutNone(connected: map<Id, string>, sent: seq<Envelope>)
    ensures connected - {} == connected && Enumerates([], {}) && sent + Goodbyes([]) == sent
  {
  }

  lemma ThrownOutNext(connected: map<Id, string>, sent: seq<Envelope>, kicked: seq<Id>, done: set<Id>, u: Id)
    requires u !in done && Enumerates(kicked, done)
    ensures connected - done - {u} == connected - (done + {u})
    ensures Enumerates(kicked + [u], done + {u})
    ensures sent + Goodbyes(kicked + [u]) ==
      sent + Goodbyes(kicked) + [Envelope(u, Sent(CloseWriter(CLOSE_NORMAL, CLOSE_OWNER_LEFT)))]
  {
    var bye := Envelope(u, Sent(CloseWriter(CLOSE_NORMAL, CLOSE_OWNER_LEFT)));
    assert Goodbyes(kicked + [u]) == Goodbyes(kicked) + [bye];
  }
}
