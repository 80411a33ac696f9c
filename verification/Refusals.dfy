/**
 Which messages the server refuses, and what it tells the sender. Texts, modes and numbers are spelled out, and the
 functions of Protocol that compute an answer are not used to state it.
 */
module Refusals {
  import opened Domain
  import opened Protocol
  import opened Tables
  import opened Safety
  import opened Mirror
  import opened Knowledge
  import opened Isolation
  import opened Steps

  // ---------- who may enter, and under which name ----------

  predicate MayEnter(authMode: string, roomMode: string, loggedIn: bool) {
    || authMode == "none"
    || (authMode == "all" && loggedIn)
    || (authMode == "turn" && (loggedIn || roomMode == "local" || roomMode == "stun"))
  }

  function EntryRefusal(conf: Config, mode: string, loggedIn: bool): Option<string> {
    if MayEnter(conf.authMode, mode, loggedIn) then None
    else if conf.authMode == "all" || conf.authMode == "turn" then Some("you need to login")
    else Some("invalid authmode:" + conf.authMode)
  }

  /** checkAuth admits exactly those who may enter, and says why to the others. */
  lemma AdmitsExactly(conf: Config, mode: string, loggedIn: bool)
    ensures CheckAuth(conf, mode, loggedIn) == None <==> MayEnter(conf.authMode, mode, loggedIn)
    ensures CheckAuth(conf, mode, loggedIn) == EntryRefusal(conf, mode, loggedIn)
  {
  }

  /** The login name, else for those who have not logged in the name they ask for, else a random one. */
  predicate NameFits(name: string, info: ClientInfo, userName: string, randomName: string) {
    var wanted := if info.authenticated then info.authenticatedUser else userName;
    name == if wanted != "" then wanted else randomName
  }

  lemma DisplayNameFits(info: ClientInfo, userName: string, randomName: string)
    ensures NameFits(DisplayName(info, userName, randomName), info, userName, randomName)
  {
  }

  // ---------- messages that are refused ----------

  /** A turn with a message of a connected client. */
  ghost predicate Heeded(conf: Config, s: State, m: ClientMessage, ch: Choice) {
    TablesOk(conf, s.core, {}) && StepLegal(conf, s, m, ch) && m.info.id in s.core.connected
  }

  /** Why a message of a connected client is refused, if it is. */
  function Refusal(conf: Config, c: Core, info: ClientInfo, e: Event): Option<string>
    requires info.id in c.connected
  {
    var r := c.connected[info.id];
    match e
    case Connected => None
    case Disconnected(_, _) => None
    case Create(id, mode, _, _, joinIfExist) =>
      if r != "" then Some("cannot join room, you are already in one")
      else if id !in c.rooms then EntryRefusal(conf, mode, info.authenticated)
      else if joinIfExist then EntryRefusal(conf, c.rooms[id].mode, info.authenticated)
      else Some("room with id " + id + " does already exist")
    case Join(id, _) =>
      if r != "" then Some("cannot join room, you are already in one")
      else if id !in c.rooms then Some("room with id " + id + " does not exist")
      else EntryRefusal(conf, c.rooms[id].mode, info.authenticated)
    case Relay(signal, sid, _) =>
      if r == "" || r !in c.rooms then Some("not in a room")
      else if sid !in c.rooms[r].sessions then None
      else if (signal.HostOffer? || signal.HostICE?) && info.id == c.rooms[r].sessions[sid].host then None
      else if (signal.ClientAnswer? || signal.ClientICE?) && info.id == c.rooms[r].sessions[sid].client then None
      else Some("permission denied for session " + sid)
    case _ => if r == "" then Some("not in a room") else None
  }

  /** Whether the handler asks for the server's address. */
  predicate NeedsIp(c: Core, e: Event) {
    e.Join? || e.StartShare? || (e.Create? && e.id in c.rooms)
  }

  /** What a handler makes of a refusal, of a failed lookup, and of neither. */
  ghost predicate EndsAsItShould(c: Core, o: Outcome, refusal: Option<string>, lookup: bool, ip: IpResult) {
    && (refusal.Some? ==> o == Outcome(c, [], Failed(refusal.value)))
    && (refusal == None && lookup && ip.IpError? ==> o.verdict == Failed(ip.reason))
    && (refusal == None && !(lookup && ip.IpError?) ==> o.verdict == Done)
  }

  lemma JoinEnds(conf: Config, c: Core, info: ClientInfo, id: string, userName: string, ch: Choice)
    requires info.id in c.connected
    ensures var refusal := Refusal(conf, c, info, Join(id, userName));
      EndsAsItShould(c, ExecuteJoin(conf, c, info, id, userName, ch), refusal, true, ch.ip)
  {
    hide OpenSessions, Invitations, Admitted, CheckAuth, EntryRefusal;
    if id in c.rooms {
      AdmitsExactly(conf, c.rooms[id].mode, info.authenticated);
    }
  }

  lemma CreateEnds(conf: Config, c: Core, info: ClientInfo, e: Event, ch: Choice)
    requires info.id in c.connected && e.Create?
    ensures EndsAsItShould(c, ExecuteCreate(conf, c, info, e, ch), Refusal(conf, c, info, e), e.id in c.rooms, ch.ip)
  {
    hide ExecuteJoin, CheckAuth, EntryRefusal;
    JoinEnds(conf, c, info, e.id, e.userName, ch);
    AdmitsExactly(conf, e.mode, info.authenticated);
  }

  lemma InRoomEnds(conf: Config, c: Core, info: ClientInfo, e: Event, ch: Choice)
    requires Agree(c) && Sound(c) && info.id in c.connected && c.connected[info.id] != ""
    requires e.Name? || e.StartShare? || e.StopShare? || e.Relay?
    ensures var r := c.connected[info.id];
      && r in c.rooms && info.id in c.rooms[r].users
      && EndsAsItShould(c, ExecuteInRoom(c, r, info.id, e, ch), Refusal(conf, c, info, e), e.StartShare?, ch.ip)
  {
    hide OpenSessions, CloseSessions, Invitations, Notices, WithName, WithStreaming;
    assert SoundRoom(c.rooms[c.connected[info.id]]);
  }

  /** A handler fails exactly when the message is refused, or when an address that it needs is not found. */
  lemma {:induction false} FailsExactly(conf: Config, c: Core, m: ClientMessage, ch: Choice)
    requires TablesOk(conf, c, {}) && m.info.id in c.connected && !m.event.Connected?
    ensures EndsAsItShould(c, Execute(conf, c, m, ch), Refusal(conf, c, m.info, m.event), NeedsIp(c, m.event), ch.ip)
  {
    hide TablesOk, ExecuteJoin, ExecuteCreate, ExecuteInRoom, Hangup, HangupMail, EntryRefusal;
    OkParts(conf, c);
    match m.event
    case Connected =>
    case Disconnected(_, _) =>
    case Join(id, userName) => JoinEnds(conf, c, m.info, id, userName, ch);
    case Create(_, _, _, _, _) => CreateEnds(conf, c, m.info, m.event, ch);
    case _ =>
      if c.connected[m.info.id] != "" {
        InRoomEnds(conf, c, m.info, m.event, ch);
      }
  }

  /** A message that is refused is treated as if the client had disconnected for that reason, with code 1000. */
  lemma {:induction false} Refused(conf: Config, s: State, m: ClientMessage, ch: Choice, reason: string)
    requires Heeded(conf, s, m, ch) && !m.event.Connected?
    requires Refusal(conf, s.core, m.info, m.event) == Some(reason)
    ensures var bye := ClientMessage(m.info, false, Disconnected(1000, reason));
      && StepLegal(conf, s, bye, ch) && Step(conf, s, m, ch) == Step(conf, s, bye, ch)
      && StepMail(conf, s, m, ch) == StepMail(conf, s, bye, ch)
  {
    FailsExactly(conf, s.core, m, ch);
    FailedStep(conf, s, m, ch, reason);
    assert s.sent + [] == s.sent;
  }

  /** The step of a handler that fails. */
  lemma FailedStep(conf: Config, s: State, m: ClientMessage, ch: Choice, reason: string)
    requires StepLegal(conf, s, m, ch) && m.info.id in s.core.connected && !m.event.Connected?
    requires Execute(conf, s.core, m, ch).verdict == Failed(reason)
    ensures var o := Execute(conf, s.core, m, ch);
      && m.info.id in s.core.clients && s.core.clients[m.info.id] == m.info
      && ExecuteLegal(conf, s.core, m, ch) && HangupLegal(o.core, m.info.id, ch)
      && StepMail(conf, s, m, ch) == o.out + HangupMail(o.core, m.info.id, 1000, reason, ch)
      && Step(conf, s, m, ch) == State(Hangup(o.core, m.info.id), s.sent + StepMail(conf, s, m, ch))
  {
    hide Execute, ExecuteLegal, HangupLegal, HangupMail, Hangup;
    var o := Execute(conf, s.core, m, ch);
    assert s.sent + o.out + HangupMail(o.core, m.info.id, 1000, reason, ch) ==
           s.sent + (o.out + HangupMail(o.core, m.info.id, 1000, reason, ch));
  }

  /** The step of a handler that is done. */
  lemma DoneStep(conf: Config, s: State, m: ClientMessage, ch: Choice)
    requires StepLegal(conf, s, m, ch) && m.info.id in s.core.connected && !m.event.Connected?
    requires Execute(conf, s.core, m, ch).verdict == Done
    ensures var o := Execute(conf, s.core, m, ch);
      && m.info.id in s.core.clients && s.core.clients[m.info.id] == m.info
      && ExecuteLegal(conf, s.core, m, ch) && StepMail(conf, s, m, ch) == o.out
      && Step(conf, s, m, ch) == State(o.core, s.sent + o.out)
  {
    hide Execute, ExecuteLegal;
  }

  // ---------- saying goodbye ----------

  /** mail[i] tells u why it is disconnected, is the only message of that kind for u, and u's last message. */
  ghost predicate TellsWhyAt(mail: seq<Envelope>, u: Id, code: int, reason: string, i: nat) {
    && i < |mail| && mail[i] == Envelope(u, Sent(CloseWriter(code, reason)))
    && forall j | 0 <= j < |mail| && mail[j].to == u && j != i ::
         j < i && !(mail[j].item.Sent? && mail[j].item.msg.CloseWriter?)
  }

  ghost predicate TellsWhy(mail: seq<Envelope>, u: Id, code: int, reason: string) {
    exists i: nat :: TellsWhyAt(mail, u, code, reason, i)
  }

  /** The first message after a hang-up is the sender's, and it is the sender's last. */
  lemma {:induction false} HangupTellsWhy(c: Core, u: Id, code: int, reason: string, ch: Choice)
    requires Agree(c) && Sound(c) && HangupLegal(c, u, ch)
    ensures TellsWhyAt(HangupMail(c, u, code, reason, ch), u, code, reason, 0)
  {
    hide LeaveLegal, LeaveMail;
    var mail := HangupMail(c, u, code, reason, ch);
    var r := RoomOf(c, u);
    if r != "" {
      assert SoundRoom(c.rooms[r]);
      var rest := LeaveMail(c, r, u, ch);
      forall j | 0 < j < |mail| ensures mail[j].to != u {
        if mail[j].to == u {
          assert rest[j - 1].to == u;
          assert Addressed(rest, u);
          LeaveMailStaysInside(c, r, u, ch, u);
        }
      }
    }
  }

  /** A client that disconnects is told the code and the reason of its event, first of all. */
  lemma {:induction false} DisconnectTellsWhy(conf: Config, s: State, m: ClientMessage, ch: Choice)
    requires Heeded(conf, s, m, ch) && m.event.Disconnected?
    ensures TellsWhyAt(StepMail(conf, s, m, ch), m.info.id, m.event.code, m.event.reason, 0)
  {
    hide TablesOk, HangupMail, HangupLegal, Hangup, TellsWhyAt;
    OkParts(conf, s.core);
    HangupTellsWhy(s.core, m.info.id, m.event.code, m.event.reason, ch);
  }

  lemma TellsWhyAfter(first: seq<Envelope>, mail: seq<Envelope>, u: Id, code: int, reason: string)
    requires TellsWhyAt(mail, u, code, reason, 0)
    requires forall j | 0 <= j < |first| && first[j].to == u :: !(first[j].item.Sent? && first[j].item.msg.CloseWriter?)
    ensures TellsWhyAt(first + mail, u, code, reason, |first|)
  {
    var all := first + mail;
    assert forall j | 0 < j < |mail| :: mail[j].to != u;
    assert forall j | |first| < j < |all| :: all[j].to == mail[j - |first|].to;
  }

  /** Why a message of a connected client ends with its disconnection, if it does. */
  function FailureReason(conf: Config, c: Core, m: ClientMessage, ip: IpResult): Option<string>
    requires m.info.id in c.connected
  {
    var refusal := Refusal(conf, c, m.info, m.event);
    if refusal.Some? then refusal
    else if NeedsIp(c, m.event) && ip.IpError? then Some(ip.reason)
    else None
  }

  /** In each failing case the sender is told that case's reason, once, with code 1000, and nothing afterwards. */
  lemma {:induction false} FailureTellsWhy(conf: Config, s: State, m: ClientMessage, ch: Choice)
    requires Heeded(conf, s, m, ch) && !m.event.Connected?
    requires FailureReason(conf, s.core, m, ch.ip).Some?
    ensures TellsWhy(StepMail(conf, s, m, ch), m.info.id, 1000, FailureReason(conf, s.core, m, ch.ip).value)
    ensures m.info.id !in Step(conf, s, m, ch).core.connected
  {
    hide TablesOk, Execute, ExecuteLegal, Refusal, HangupMail, HangupLegal, Hangup, StepLegal, Step, StepMail;
    hide TellsWhyAt;
    var u := m.info.id;
    var reason := FailureReason(conf, s.core, m, ch.ip).value;
    FailsExactly(conf, s.core, m, ch);
    FailedStep(conf, s, m, ch, reason);
    var o := Execute(conf, s.core, m, ch);
    FailedTables(conf, s.core, m, ch);
    HangupTellsWhy(o.core, u, 1000, reason, ch);
    FailedOut(conf, s.core, m, ch);
    TellsWhyAfter(o.out, HangupMail(o.core, u, 1000, reason, ch), u, 1000, reason);
    HangupLeaves(o.core, u);
  }

  lemma NoteIsInfo(note: seq<Envelope>, room: RoomState)
    requires IsBroadcast(note, room)
    ensures forall e | e in note :: e.item.Sent? && e.item.msg.RoomInfo?
  {
    hide IsView;
    forall e | e in note ensures e.item.Sent? && e.item.msg.RoomInfo? {
      var i :| 0 <= i < |note| && note[i] == e;
      assert IsNote(note[i], room);
    }
  }

  lemma JoinOut(conf: Config, c: Core, info: ClientInfo, id: string, userName: string, ch: Choice)
    requires JoinLegal(conf, c, info, id, userName, ch) && ExecuteJoin(conf, c, info, id, userName, ch).verdict.Failed?
    ensures forall e | e in ExecuteJoin(conf, c, info, id, userName, ch).out :: e.item.Sent? && e.item.msg.RoomInfo?
  {
    hide IsBroadcast, OpenSessions, Invitations, StartsLegal, CheckAuth;
    if JoinError(conf, c, info, id) == None {
      NoteIsInfo(ch.note, Admitted(c, info, id, DisplayName(info, userName, ch.randomName)).rooms[id]);
    }
  }

  /** A handler that fails has at most told the members of a room how it looks. */
  lemma {:induction false} FailedOut(conf: Config, c: Core, m: ClientMessage, ch: Choice)
    requires ExecuteLegal(conf, c, m, ch) && Execute(conf, c, m, ch).verdict.Failed?
    ensures forall e | e in Execute(conf, c, m, ch).out :: e.item.Sent? && e.item.msg.RoomInfo?
  {
    hide IsBroadcast, ExecuteJoin, JoinLegal, OpenSessions, CloseSessions, Notices, Hangup, HangupMail, CreateError;
    match m.event
    case Join(id, userName) => JoinOut(conf, c, m.info, id, userName, ch);
    case Create(id, _, _, userName, _) =>
      if Delegates(c, m.info, m.event) {
        JoinOut(conf, c, m.info, id, userName, ch);
      }
    case _ =>
  }

  lemma {:induction false} FailedTables(conf: Config, c: Core, m: ClientMessage, ch: Choice)
    requires TablesOk(conf, c, {}) && !m.event.Connected?
    requires m.info.id in c.connected && m.info.id in c.clients && c.clients[m.info.id] == m.info
    requires ExecuteLegal(conf, c, m, ch) && Execute(conf, c, m, ch).verdict.Failed?
    ensures Agree(Execute(conf, c, m, ch).core) && Sound(Execute(conf, c, m, ch).core)
  {
    hide TablesOk, Execute, ExecuteLegal, Agree, Sound;
    ExecuteKeeps(conf, c, m, ch);
    OkIsSound(conf, Execute(conf, c, m, ch).core, {m.info.id});
  }
}
