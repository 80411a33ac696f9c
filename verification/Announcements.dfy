/** What each message makes the server send, and in which order. */
module Announcements {
  import opened Domain
  import opened ViewOrder
  import opened Protocol
  import opened Tables
  import opened Handlers
  import opened Safety
  import opened Knowledge
  import opened Isolation
  import opened Steps
  import opened Theorems
  import opened Refusals
  import opened Effects

  /** view lists the users, each once and as it is, the way me is shown them. */
  ghost predicate ShowsAll(view: seq<UserView>, users: map<Id, UserState>, me: Id) {
    && |view| == |users| && Sorted(view)
    && forall u | u in users ::
         UserView(u, users[u].name, users[u].streaming, u == me, users[u].owner) in view
  }

  /** The only message for v in note, at i, shows it the room. */
  ghost predicate TellsAt(note: seq<Envelope>, room: RoomState, v: Id, i: nat) {
    && i < |note| && note[i].to == v && (forall j | 0 <= j < |note| && note[j].to == v :: j == i)
    && note[i].item.Sent? && note[i].item.msg.RoomInfo? && note[i].item.msg.id == room.id
    && ShowsAll(note[i].item.msg.users, room.users, v)
  }

  /** note shows the room to each of its members, once, and to nobody else. */
  ghost predicate Tells(note: seq<Envelope>, room: RoomState) {
    && (forall j | 0 <= j < |note| :: note[j].to in room.users)
    && (forall v | v in room.users :: exists i: nat :: TellsAt(note, room, v, i))
  }

  lemma BroadcastTells(note: seq<Envelope>, room: RoomState, room': RoomState)
    requires IsBroadcast(note, room) && room'.id == room.id && room'.users == room.users
    requires forall u | u in room.users :: room.users[u].id == u
    ensures Tells(note, room')
  {
    hide IsView, ShowsAll;
    forall j | 0 <= j < |note| ensures note[j].to in room.users {
      assert IsNote(note[j], room);
    }
    forall v | v in room.users ensures exists i: nat :: TellsAt(note, room', v, i) {
      var i :| 0 <= i < |note| && note[i].to == v;
      assert IsNote(note[i], room);
      ViewShowsAll(note[i].item.msg.users, room.users, v);
      assert TellsAt(note, room', v, i);
    }
  }

  lemma ViewShowsAll(view: seq<UserView>, users: map<Id, UserState>, me: Id)
    requires IsView(view, users, me) && forall u | u in users :: users[u].id == u
    ensures ShowsAll(view, users, me)
  {
    forall u | u in users ensures UserView(u, users[u].name, users[u].streaming, u == me, users[u].owner) in view {
      ViewShowsEverybody(view, users, me, u);
    }
  }

  lemma RoomKeyed(conf: Config, c: Core, but: set<Id>, r: string)
    requires TablesOk(conf, c, but) && r in c.rooms
    ensures forall u | u in c.rooms[r].users :: c.rooms[r].users[u].id == u
  {
  }

  /** A message that opens one of the new sessions, to the end it is for. */
  predicate IsInvite(e: Envelope, before: map<Id, Session>, after: map<Id, Session>) {
    e.item.Sent? &&
    match e.item.msg
    case HostSession(id, peer, _) => id !in before && id in after && after[id] == Session(e.to, peer)
    case ClientSession(id, peer, _) => id !in before && id in after && after[id] == Session(peer, e.to)
    case _ => false
  }

  /** Two invitations for each new session; that both ends know it says Theorems.ClientMirror. */
  ghost predicate AreInvites(mail: seq<Envelope>, before: map<Id, Session>, after: map<Id, Session>) {
    |mail| == 2 * (|after| - |before|) && forall e | e in mail :: IsInvite(e, before, after)
  }

  lemma {:induction false} InvitationsInvite(mode: string, starts: seq<Start>, before: map<Id, Session>,
                                             after: map<Id, Session>)
    requires forall i | 0 <= i < |starts| ::
      && starts[i].id !in before && starts[i].id in after
      && after[starts[i].id] == Session(starts[i].host, starts[i].client)
    ensures |Invitations(mode, starts)| == 2 * |starts|
    ensures forall e | e in Invitations(mode, starts) :: IsInvite(e, before, after)
  {
    if starts != [] {
      InvitationsInvite(mode, starts[..|starts| - 1], before, after);
    }
  }

  lemma OpensInvite(c: Core, r: string, starts: seq<Start>, mode: string)
    requires r in c.rooms && StartsFresh(c.rooms[r].sessions, starts)
    ensures AreInvites(Invitations(mode, starts), c.rooms[r].sessions, OpenSessions(c, r, starts).rooms[r].sessions)
  {
    hide OpenSessions, Invitations;
    var before, after := c.rooms[r].sessions, OpenSessions(c, r, starts).rooms[r].sessions;
    OpenSessionsAdd(c, r, starts);
    OpensCounted(c, r, starts);
    InvitationsInvite(mode, starts, before, after);
  }

  /** Joining: first every member is sent the room with the newcomer, then the new sessions are announced. */
  lemma {:induction false} JoinTells(conf: Config, s: State, m: ClientMessage, ch: Choice)
    requires Heeded(conf, s, m, ch)
    requires m.event.Join? && s.core.connected[m.info.id] == "" && m.event.id in s.core.rooms
    requires MayEnter(conf.authMode, s.core.rooms[m.event.id].mode, m.info.authenticated) && ch.ip.IpFound?
    ensures var c, c', mail, r := s.core, Step(conf, s, m, ch).core, StepMail(conf, s, m, ch), m.event.id;
      r in c'.rooms && exists k: nat ::
        && k <= |mail| && Tells(mail[..k], c'.rooms[r])
        && AreInvites(mail[k..], c.rooms[r].sessions, c'.rooms[r].sessions)
  {
    hide TablesOk, StartsLegal, AreInvites, Tells, DisplayName, IsBroadcast, OpenSessions, Invitations, Distinct;
    hide CheckAuth, EntryRefusal, HangupLegal;
    var c, u, r := s.core, m.info.id, m.event.id;
    var name := DisplayName(m.info, m.event.userName, ch.randomName);
    AdmitsExactly(conf, c.rooms[r].mode, m.info.authenticated);
    FailsExactly(conf, c, m, ch);
    DoneStep(conf, s, m, ch);
    var c1 := Admitted(c, m.info, r, name);
    AdmittedKeeps(conf, c, m.info, r, name);
    OkDistinct(conf, c1, {u});
    JoinStartsFit(c1, r, u, ch.starts);
    FitIsFresh(c1, r, ch.starts);
    OpensInvite(c1, r, ch.starts, c1.rooms[r].mode);
    var c' := Step(conf, s, m, ch).core;
    RoomKeyed(conf, c1, {u}, r);
    BroadcastTells(ch.note, c1.rooms[r], c'.rooms[r]);
    var mail := StepMail(conf, s, m, ch);
    assert mail[..|ch.note|] == ch.note && mail[|ch.note|..] == Invitations(c1.rooms[r].mode, ch.starts);
  }

  /** When the address is not found, the members saw the newcomer before it is told to go. */
  lemma {:induction false} FailedJoinTells(conf: Config, s: State, m: ClientMessage, ch: Choice)
    requires Heeded(conf, s, m, ch)
    requires m.event.Join? && s.core.connected[m.info.id] == "" && m.event.id in s.core.rooms
    requires MayEnter(conf.authMode, s.core.rooms[m.event.id].mode, m.info.authenticated) && ch.ip.IpError?
    ensures var c, mail, u, r := s.core, StepMail(conf, s, m, ch), m.info.id, m.event.id;
      exists k: nat, name ::
        && k < |mail| && NameFits(name, m.info, m.event.userName, ch.randomName)
        && Tells(mail[..k], WithMember(c, r, u, m.info.addr, name).rooms[r])
        && mail[k] == Envelope(u, Sent(CloseWriter(1000, ch.ip.reason)))
  {
    hide TablesOk, DisplayName, IsBroadcast, CheckAuth, EntryRefusal, HangupLegal, NameFits, Keyed, Hangup, LeaveMail;
    hide Tells;
    var c, u, r := s.core, m.info.id, m.event.id;
    var name := DisplayName(m.info, m.event.userName, ch.randomName);
    DisplayNameFits(m.info, m.event.userName, ch.randomName);
    AdmitsExactly(conf, c.rooms[r].mode, m.info.authenticated);
    FailsExactly(conf, c, m, ch);
    FailedStep(conf, s, m, ch, ch.ip.reason);
    OkKeyed(conf, c);
    AdmittedIsMember(c, m.info, r, name);
    AdmittedKeeps(conf, c, m.info, r, name);
    var c1 := Admitted(c, m.info, r, name);
    RoomKeyed(conf, c1, {u}, r);
    BroadcastTells(ch.note, c1.rooms[r], c1.rooms[r]);
    var mail := StepMail(conf, s, m, ch);
    assert mail[..|ch.note|] == ch.note;
    assert mail[|ch.note|] == Envelope(u, Sent(CloseWriter(1000, ch.ip.reason)));
  }

  /** Sharing: first the new sessions are announced, then every member is sent the room. */
  lemma {:induction false} ShareTells(conf: Config, s: State, m: ClientMessage, ch: Choice)
    requires Heeded(conf, s, m, ch)
    requires m.event.StartShare? && s.core.connected[m.info.id] != "" && ch.ip.IpFound?
    ensures var c, c', mail := s.core, Step(conf, s, m, ch).core, StepMail(conf, s, m, ch);
      var r := c.connected[m.info.id];
      r in c.rooms && r in c'.rooms && exists k: nat ::
        && k <= |mail| && AreInvites(mail[..k], c.rooms[r].sessions, c'.rooms[r].sessions)
        && Tells(mail[k..], c'.rooms[r])
  {
    hide TablesOk, StartsLegal, AreInvites, Tells, IsBroadcast, OpenSessions, Invitations, Distinct, Agree, HangupLegal;
    var c, u := s.core, m.info.id;
    OkParts(conf, c);
    InOwnRoom(c, u);
    var r := c.connected[u];
    var c1 := WithStreaming(c, r, u, true);
    FailsExactly(conf, c, m, ch);
    DoneStep(conf, s, m, ch);
    SharedTables(c, r, u, ch.starts);
    FitIsFresh(c1, r, ch.starts);
    OpensInvite(c1, r, ch.starts, c1.rooms[r].mode);
    var c' := Step(conf, s, m, ch).core;
    RoomKeyed(conf, c, {}, r);
    BroadcastTells(ch.note, c1.rooms[r], c'.rooms[r]);
    var mail, invites := StepMail(conf, s, m, ch), Invitations(c1.rooms[r].mode, ch.starts);
    assert mail[..|invites|] == invites && mail[|invites|..] == ch.note;
  }

  /** A new name: every member is sent the room. */
  lemma {:induction false} RenameTells(conf: Config, s: State, m: ClientMessage, ch: Choice)
    requires Heeded(conf, s, m, ch)
    requires m.event.Name? && s.core.connected[m.info.id] != ""
    ensures var c', r := Step(conf, s, m, ch).core, s.core.connected[m.info.id];
      r in c'.rooms && Tells(StepMail(conf, s, m, ch), c'.rooms[r])
  {
    hide TablesOk, IsBroadcast, Tells, Agree, HangupLegal;
    var r := s.core.connected[m.info.id];
    OkParts(conf, s.core);
    InOwnRoom(s.core, m.info.id);
    FailsExactly(conf, s.core, m, ch);
    DoneStep(conf, s, m, ch);
    RoomKeyed(conf, s.core, {}, r);
    var room := Step(conf, s, m, ch).core.rooms[r];
    BroadcastTells(ch.note, room, room);
  }

  /** How often mail tells v that session id has ended. */
  function TimesEnded(mail: seq<Envelope>, v: Id, id: Id): nat {
    multiset(mail)[Envelope(v, Sent(EndShare(id)))]
  }

  lemma TimesEndedConcat(a: seq<Envelope>, b: seq<Envelope>, v: Id, id: Id)
    ensures TimesEnded(a + b, v, id) == TimesEnded(a, v, id) + TimesEnded(b, v, id)
  {
  }

  lemma NoneEnded(mail: seq<Envelope>, v: Id, id: Id)
    requires forall e | e in mail :: !(e.item.Sent? && e.item.msg.EndShare?)
    ensures TimesEnded(mail, v, id) == 0
  {
  }

  predicate Pairs(room: RoomState, host: Id, client: Id, id: Id) {
    id in room.sessions && room.sessions[id] == Session(host, client)
  }

  /** The other end of each session of u is told once that it ended, and nobody is told anything else of the kind. */
  lemma {:induction false} DisconnectTellsPeers(conf: Config, s: State, m: ClientMessage, ch: Choice, v: Id, id: Id)
    requires Heeded(conf, s, m, ch) && m.event.Disconnected?
    requires s.core.connected[m.info.id] != ""
    ensures var c, u := s.core, m.info.id;
      var r := c.connected[u];
      && r in c.rooms
      && TimesEnded(StepMail(conf, s, m, ch), v, id) ==
         if Pairs(c.rooms[r], u, v, id) || Pairs(c.rooms[r], v, u, id) then 1 else 0
  {
    hide TablesOk, LeaveLegal, LeaveMail, Hangup, TimesEnded, Agree;
    var c, u := s.core, m.info.id;
    OkParts(conf, c);
    InOwnRoom(c, u);
    var r := c.connected[u];
    var first := [Envelope(u, Sent(CloseWriter(m.event.code, m.event.reason)))];
    TimesEndedConcat(first, LeaveMail(c, r, u, ch), v, id);
    NoneEnded(first, v, id);
    assert SoundRoom(c.rooms[r]);
    LeaveTellsPeers(c, r, u, ch, v, id);
  }

  lemma {:induction false} LeaveTellsPeers(c: Core, r: string, u: Id, ch: Choice, v: Id, id: Id)
    requires r in c.rooms && u in c.rooms[r].users && SoundRoom(c.rooms[r]) && LeaveLegal(c, r, u, ch)
    ensures TimesEnded(LeaveMail(c, r, u, ch), v, id) ==
      if Pairs(c.rooms[r], u, v, id) || Pairs(c.rooms[r], v, u, id) then 1 else 0
  {
    hide IsBroadcast, ClosesRoom, Notices;
    var room := c.rooms[r];
    EachEndShareOnce(room, u, ch.closing, v, id);
    if ClosesRoom(room, u) {
      TimesEndedConcat(Notices(room, u, ch.closing), Goodbyes(ch.kicked), v, id);
      NoneEnded(Goodbyes(ch.kicked), v, id);
    } else {
      TimesEndedConcat(Notices(room, u, ch.closing), ch.farewell, v, id);
      NoteIsInfo(ch.farewell, Without(room, u));
      NoneEnded(ch.farewell, v, id);
    }
  }

  /** When the room goes on, each member that stays is sent it last. */
  lemma {:induction false} DisconnectTells(conf: Config, s: State, m: ClientMessage, ch: Choice)
    requires Heeded(conf, s, m, ch) && m.event.Disconnected? && s.core.connected[m.info.id] != ""
    ensures var c', mail, r := Step(conf, s, m, ch).core, StepMail(conf, s, m, ch), s.core.connected[m.info.id];
      r in c'.rooms ==> exists k: nat :: k <= |mail| && Tells(mail[k..], c'.rooms[r])
  {
    hide TablesOk, IsBroadcast, Tells, Agree, Notices, ClosesRoom, SessionsOf;
    var c, u := s.core, m.info.id;
    OkParts(conf, c);
    InOwnRoom(c, u);
    var r := c.connected[u];
    HangupHungUp(c, u);
    if !ClosesRoom(c.rooms[r], u) {
      RoomKeyed(conf, c, {}, r);
      BroadcastTells(ch.farewell, Without(c.rooms[r], u), Without(c.rooms[r], u));
      var mail := StepMail(conf, s, m, ch);
      var k := 1 + |Notices(c.rooms[r], u, ch.closing)|;
      assert mail[k..] == ch.farewell;
    }
  }

  /** Stopping to share: the mark, then one EndShare to each viewer, then every member is sent the room. */
  lemma {:induction false} StopTells(conf: Config, s: State, m: ClientMessage, ch: Choice, v: Id, id: Id)
    requires Heeded(conf, s, m, ch)
    requires m.event.StopShare? && s.core.connected[m.info.id] != ""
    ensures var c, c', mail, u := s.core, Step(conf, s, m, ch).core, StepMail(conf, s, m, ch), m.info.id;
      var r := c.connected[u];
      && r in c.rooms && r in c'.rooms && mail != [] && mail[0] == Envelope(u, StopShareDone)
      && (exists k: nat :: k <= |mail| && Tells(mail[k..], c'.rooms[r]))
      && TimesEnded(mail, v, id) == if Pairs(c.rooms[r], u, v, id) then 1 else 0
  {
    hide TablesOk, IsBroadcast, Tells, Agree, Notices, HangupLegal, TimesEnded, Revoked;
    var c, u := s.core, m.info.id;
    OkParts(conf, c);
    InOwnRoom(c, u);
    var r := c.connected[u];
    FailsExactly(conf, c, m, ch);
    DoneStep(conf, s, m, ch);
    var mail, ends := StepMail(conf, s, m, ch), Notices(c.rooms[r], u, ch.closing);
    RoomKeyed(conf, c, {}, r);
    BroadcastTells(ch.note, WithStreaming(c, r, u, false).rooms[r], Step(conf, s, m, ch).core.rooms[r]);
    assert mail[1 + |ends|..] == ch.note;
    NoteIsInfo(ch.note, WithStreaming(c, r, u, false).rooms[r]);
    StopEnds(c.rooms[r], u, ch.closing, ch.note, v, id);
  }

  lemma {:induction false} StopEnds(room: RoomState, u: Id, closing: seq<Id>, note: seq<Envelope>, v: Id, id: Id)
    requires SoundRoom(room) && Enumerates(closing, HostSessionsOf(room, u))
    requires forall e | e in note :: e.item.Sent? && e.item.msg.RoomInfo?
    ensures TimesEnded([Envelope(u, StopShareDone)] + Notices(room, u, closing) + note, v, id) ==
      if Pairs(room, u, v, id) then 1 else 0
  {
    hide Notices;
    var mark, ends := [Envelope(u, StopShareDone)], Notices(room, u, closing);
    EachEndShareOnce(room, u, closing, v, id);
    TimesEndedConcat(mark, ends, v, id);
    TimesEndedConcat(mark + ends, note, v, id);
    NoneEnded(mark, v, id);
    NoneEnded(note, v, id);
  }
}
