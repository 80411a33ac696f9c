/** What single steps mean, from any state the server can be in. */
module Steps {
  import opened Domain
  import opened ViewOrder
  import opened Protocol
  import opened Tables
  import opened Safety
  import opened Mirror
  import opened Knowledge
  import opened Isolation
  import opened Counting
  import opened Outcomes
  import opened Theorems

  // ---------- leaving ----------

  /**
   In whatever order the sessions of u are closed, each surviving peer is told once of each of them,
   and of no other.
   */
  lemma {:induction false} EachEndShareOnce(room: RoomState, u: Id, order: seq<Id>, v: Id, id: Id)
    requires forall i, j | 0 <= i < j < |order| :: order[i] != order[j]
    ensures multiset(Notices(room, u, order))[Envelope(v, Sent(EndShare(id)))] ==
      if id in order && id in room.sessions && PeerOf(room.sessions[id], u) == v && v in room.users then 1 else 0
  {
    if order != [] {
      var n := |order| - 1;
      EachEndShareOnce(room, u, order[..n], v, id);
      assert order == order[..n] + [order[n]];
      assert id == order[n] ==> id !in order[..n];
    }
  }

  /** Two views that list the same users as they are, both sorted: they may differ in the order of ties only. */
  ghost predicate SameView(view1: seq<UserView>, view2: seq<UserView>) {
    view1 == view2 || (multiset(view1) == multiset(view2) && Sorted(view1) && Sorted(view2))
  }

  ghost predicate SameViews(infos1: map<string, seq<UserView>>, infos2: map<string, seq<UserView>>) {
    infos1.Keys == infos2.Keys && forall r | r in infos1 :: SameView(infos1[r], infos2[r])
  }

  ghost predicate SameKnowledge(k1: Client, k2: Client) {
    && k1.watching == k2.watching && k1.hosting == k2.hosting && k1.closes == k2.closes && k1.lastRoom == k2.lastRoom
    && SameViews(k1.infos, k2.infos)
  }

  lemma TwoViews(users: map<Id, UserState>, me: Id, view1: seq<UserView>, view2: seq<UserView>)
    requires IsView(view1, users, me) && IsView(view2, users, me) && forall v | v in users :: users[v].id == v
    ensures SameView(view1, view2)
  {
    forall x: UserView ensures multiset(view1)[x] == multiset(view2)[x] {
      OnceInMultiset(view1, x);
      OnceInMultiset(view2, x);
      if x in view1 || x in view2 {
        ViewShowsEverybody(view1, users, me, x.id);
        ViewShowsEverybody(view2, users, me, x.id);
      }
    }
  }

  /** What everybody else knows after u hung up does not depend on the order in which maps were walked. */
  lemma {:induction false} LeaveOrderDoesNotMatter(c: Core, u: Id, code: int, reason: string, ch1: Choice, ch2: Choice,
                                                   v: Id, k: Client)
    requires Basic(c) && Sound(c) && HangupLegal(c, u, ch1) && HangupLegal(c, u, ch2) && u in c.connected
    requires ClosesOk(c, v, k) && v in c.connected && v != u
    ensures SameKnowledge(Replay(k, HangupMail(c, u, code, reason, ch1), v),
                          Replay(k, HangupMail(c, u, code, reason, ch2), v))
  {
    hide Replay, HangupMail, LeaveMail, LeaveLegal, SameKnowledge;
    ReplayHangup(c, u, code, reason, ch1, v, k);
    ReplayHangup(c, u, code, reason, ch2, v, k);
    SameKnowledgeIsReflexive(k);
    var r := RoomOf(c, u);
    if r != "" {
      assert SoundRoom(c.rooms[r]);
      if v in c.rooms[r].users {
        FellowsAgree(c, u, r, ch1, ch2, v, k);
      } else {
        OutsiderHearsNothing(c, r, u, ch1, v, k);
        OutsiderHearsNothing(c, r, u, ch2, v, k);
      }
    } else {
      ReplayNothing(k, [], v);
    }
  }

  lemma SameKnowledgeIsReflexive(k: Client)
    ensures SameKnowledge(k, k)
  {
  }

  lemma {:induction false} FellowsAgree(c: Core, u: Id, r: string, ch1: Choice, ch2: Choice, v: Id, k: Client)
    requires r in c.rooms && u in c.rooms[r].users && LeaveLegal(c, r, u, ch1) && LeaveLegal(c, r, u, ch2)
    requires v in c.rooms[r].users && v != u && k.closes == 0
    requires forall w | w in c.rooms[r].users :: c.rooms[r].users[w].id == w
    ensures SameKnowledge(Replay(k, LeaveMail(c, r, u, ch1), v), Replay(k, LeaveMail(c, r, u, ch2), v))
  {
    hide Replay, LeaveMail, IsView, Announced, Enumerates, IsBroadcast, ClosesRoom;
    var view1 := FellowKnowledge(c, u, r, ch1, v, k);
    var view2 := FellowKnowledge(c, u, r, ch2, v, k);
    SameAnnounced(c.rooms[r], u, ch1.closing, ch2.closing, v);
    if !ClosesRoom(c.rooms[r], u) {
      TwoViews(Without(c.rooms[r], u).users, v, view1, view2);
    }
  }

  lemma OutsiderHearsNothing(c: Core, r: string, u: Id, ch: Choice, v: Id, k: Client)
    requires r in c.rooms && u in c.rooms[r].users && SoundRoom(c.rooms[r]) && LeaveLegal(c, r, u, ch)
    requires v !in c.rooms[r].users
    ensures Replay(k, LeaveMail(c, r, u, ch), v) == k
  {
    if Addressed(LeaveMail(c, r, u, ch), v) {
      LeaveMailStaysInside(c, r, u, ch, v);
    }
    ReplayNothing(k, LeaveMail(c, r, u, ch), v);
  }

  lemma SameAnnounced(room: RoomState, u: Id, order1: seq<Id>, order2: seq<Id>, v: Id)
    requires Enumerates(order1, SessionsOf(room, u)) && Enumerates(order2, SessionsOf(room, u))
    ensures Announced(room, u, order1, v) == Announced(room, u, order2, v)
  {
  }

  lemma {:induction false} FellowKnowledge(c: Core, u: Id, r: string, ch: Choice, v: Id, k: Client)
    returns (view: seq<UserView>)
    requires r in c.rooms && u in c.rooms[r].users && LeaveLegal(c, r, u, ch)
    requires v in c.rooms[r].users && v != u && k.closes == 0
    ensures var room := c.rooms[r]; var ids := Announced(room, u, ch.closing, v);
            var k' := Replay(k, LeaveMail(c, r, u, ch), v);
      && k'.watching == k.watching - ids && k'.hosting == k.hosting - ids
      && if ClosesRoom(room, u) then k'.closes == 1 && k'.lastRoom == k.lastRoom && k'.infos == k.infos
         else
           && k'.closes == 0 && k'.lastRoom == Some(room.id)
           && k'.infos == k.infos[room.id := view] && IsView(view, Without(room, u).users, v)
  {
    if ClosesRoom(c.rooms[r], u) {
      view := [];
      ReplayTeardown(c, r, u, ch, v, k);
    } else {
      view := ReplayFarewell(c, r, u, ch, v, k);
    }
  }

  /**
   A member that goes takes the room with it exactly if it is the owner of a CloseOnOwnerLeave room or
   the last member.
   */
  lemma Teardown(conf: Config, c: Core, u: Id)
    requires TablesOk(conf, c, {u}) && Member(c, u)
    ensures var r := c.connected[u]; var room := c.rooms[r]; var c' := Hangup(c, u);
      && (r !in c'.rooms <==> (room.users[u].owner && room.closeOnOwnerLeave) || room.users.Keys == {u})
      && u !in c'.connected
      && (r !in c'.rooms ==>
            && (forall v | v in room.users :: v !in c'.connected)
            && (forall id | id in room.sessions && room.mode == MODE_TURN ::
                  Authenticate(c'.lookup, HostKey(id)) == None && Authenticate(c'.lookup, ClientKey(id)) == None))
      && (r in c'.rooms ==>
            && c'.rooms[r].users == room.users - {u}
            && c'.rooms[r].sessions == room.sessions - SessionsOf(room, u)
            && forall v | v in room.users && v != u :: v in c'.connected && c'.connected[v] == r)
  {
    hide Hangup, TurnExact, Owners, Admission, Complete, Sound, Mute, Distinct, KeysOf;
    var room := c.rooms[c.connected[u]];
    HangupHungUp(c, u);
    forall id | id in room.sessions && room.mode == MODE_TURN && ClosesRoom(room, u)
      ensures HostKey(id) in KeysOf(Ended(c, u)) && ClientKey(id) in KeysOf(Ended(c, u))
    {
      KeysOfMembers(Ended(c, u), id);
    }
  }

  ghost predicate LastWord(mail: seq<Envelope>, v: Id, i: nat) {
    && i < |mail| && mail[i] == Envelope(v, Sent(CloseWriter(1000, "Owner Left")))
    && forall j | 0 <= j < |mail| && mail[j].to == v && j != i ::
         j < i && mail[j].item.Sent? && mail[j].item.msg.EndShare?
  }

  /** Whoever is thrown out with a room is sent CloseWriter once, with the reason "Owner Left", as its last message. */
  lemma TeardownMail(conf: Config, c: Core, u: Id, code: int, reason: string, ch: Choice, v: Id)
    requires TablesOk(conf, c, {u}) && Member(c, u) && HangupLegal(c, u, ch) && ClosesRoom(c.rooms[c.connected[u]], u)
    requires v in c.rooms[c.connected[u]].users && v != u
    ensures exists i: nat :: LastWord(HangupMail(c, u, code, reason, ch), v, i)
  {
    hide TablesOk, IsBroadcast, SessionsOf, ClosesRoom, Notices, Goodbyes, LastWord;
    var room := c.rooms[c.connected[u]];
    assert v in ch.kicked;
    var n: nat :| n < |ch.kicked| && ch.kicked[n] == v;
    var first := [Envelope(u, Sent(CloseWriter(code, reason)))];
    LastWordIsGoodbye(room, u, first, ch.closing, ch.kicked, v, n);
    assert HangupMail(c, u, code, reason, ch) == first + (Notices(room, u, ch.closing) + Goodbyes(ch.kicked));
  }

  lemma LastWordIsGoodbye(room: RoomState, u: Id, first: seq<Envelope>, closing: seq<Id>, kicked: seq<Id>, v: Id,
                          n: nat)
    requires |first| == 1 && first[0].to == u && v != u && n < |kicked| && kicked[n] == v
    requires forall i, j | 0 <= i < j < |kicked| :: kicked[i] != kicked[j]
    ensures LastWord(first + (Notices(room, u, closing) + Goodbyes(kicked)), v, 1 + |Notices(room, u, closing)| + n)
  {
    hide Notices;
    var notices := Notices(room, u, closing);
    var mail := first + (notices + Goodbyes(kicked));
    var i := 1 + |notices| + n;
    assert mail[i] == Goodbyes(kicked)[n];
    assert forall j | |notices| < j < |mail| :: mail[j].to == kicked[j - 1 - |notices|];
    forall j | 0 <= j < |mail| && mail[j].to == v && j != i
      ensures j < i && mail[j].item.Sent? && mail[j].item.msg.EndShare?
    {
      assert j <= |notices|;
      NoticesAreEndShares(room, u, closing, j - 1);
      assert mail[j] == notices[j - 1];
    }
  }

  lemma {:induction false} NoticesAreEndShares(room: RoomState, u: Id, order: seq<Id>, i: nat)
    requires i < |Notices(room, u, order)|
    ensures Notices(room, u, order)[i].item.Sent? && Notices(room, u, order)[i].item.msg.EndShare?
  {
    if order != [] {
      var before := Notices(room, u, order[..|order| - 1]);
      if i < |before| {
        NoticesAreEndShares(room, u, order[..|order| - 1], i);
      }
    }
  }

  // ---------- relays ----------

  datatype RelayFate = IgnoredRelay | Disconnecting(reason: string) | UnknownSession | Delivered(to: Id)

  /** What is to happen to an offer, an answer or an ICE message. */
  function FateOf(c: Core, u: Id, signal: Signal, sid: Id): RelayFate {
    if u !in c.connected then IgnoredRelay
    else if c.connected[u] == "" then Disconnecting("not in a room")
    else if c.connected[u] !in c.rooms then Disconnecting("room with id " + c.connected[u] + " does not exist")
    else
      var sessions := c.rooms[c.connected[u]].sessions;
      if sid !in sessions then UnknownSession
      else
        var x := sessions[sid];
        if (signal.HostOffer? || signal.HostICE?) && x.host == u then Delivered(x.client)
        else if (signal.ClientAnswer? || signal.ClientICE?) && x.client == u then Delivered(x.host)
        else Disconnecting("permission denied for session " + sid)
  }

  /**
   A relayed message reaches the other end of the session, a fellow member, and changes
   nothing else; a sender that does not own its side of the session is disconnected.
   */
  lemma {:induction false} RelayCases(conf: Config, s: State, m: ClientMessage, ch: Choice)
    requires TablesOk(conf, s.core, {}) && StepLegal(conf, s, m, ch) && m.event.Relay?
    ensures var c := s.core; var u := m.info.id; var s' := Step(conf, s, m, ch);
      match FateOf(c, u, m.event.signal, m.event.sid)
      case IgnoredRelay => s' == s
      case UnknownSession => s' == s
      case Disconnecting(reason) =>
        u !in s'.core.connected && s' == State(Hangup(c, u), s.sent + HangupMail(c, u, CLOSE_NORMAL, reason, ch))
      case Delivered(to) =>
        && s' == State(c, s.sent + [Envelope(to, Sent(Relayed(m.event.signal, m.event.sid, m.event.value)))])
        && to != u && to in c.connected && c.connected[to] == c.connected[u] && to in c.rooms[c.connected[u]].users
  {
    var c := s.core;
    var u := m.info.id;
    match FateOf(c, u, m.event.signal, m.event.sid)
    case IgnoredRelay => RelaySilent(conf, s, m, ch);
    case UnknownSession => RelaySilent(conf, s, m, ch);
    case Disconnecting(reason) =>
      HangupLeaves(c, u);
      RelayDenied(conf, s, m, ch, reason);
      hide TablesOk, Hangup, HangupMail, StepLegal, Step;
    case Delivered(to) =>
      PeersAreFellows(c, c.connected[u], m.event.sid);
      RelayDelivered(conf, s, m, ch, to);
      hide TablesOk, StepLegal, Step;
  }

  lemma RelaySilent(conf: Config, s: State, m: ClientMessage, ch: Choice)
    requires m.event.Relay? && !m.skipConnectedCheck
    requires var f := FateOf(s.core, m.info.id, m.event.signal, m.event.sid); f.IgnoredRelay? || f.UnknownSession?
    ensures Step(conf, s, m, ch) == s
  {
    assert s.sent + [] == s.sent;
  }

  lemma RelayDenied(conf: Config, s: State, m: ClientMessage, ch: Choice, reason: string)
    requires m.event.Relay? && !m.skipConnectedCheck
    requires FateOf(s.core, m.info.id, m.event.signal, m.event.sid) == Disconnecting(reason)
    ensures Step(conf, s, m, ch) ==
      State(Hangup(s.core, m.info.id), s.sent + HangupMail(s.core, m.info.id, CLOSE_NORMAL, reason, ch))
  {
    var o := Execute(conf, s.core, m, ch);
    assert o.core == s.core && o.out == [] && o.verdict == Failed(reason);
    hide Execute, Hangup, HangupMail;
    assert s.sent + [] == s.sent;
  }

  lemma RelayDelivered(conf: Config, s: State, m: ClientMessage, ch: Choice, to: Id)
    requires m.event.Relay? && !m.skipConnectedCheck
    requires FateOf(s.core, m.info.id, m.event.signal, m.event.sid) == Delivered(to)
    requires to in s.core.rooms[s.core.connected[m.info.id]].users
    ensures Step(conf, s, m, ch) ==
      State(s.core, s.sent + [Envelope(to, Sent(Relayed(m.event.signal, m.event.sid, m.event.value)))])
  {
  }

  lemma PeersAreFellows(c: Core, r: string, sid: Id)
    requires Agree(c) && Sound(c) && r != "" && r in c.rooms && sid in c.rooms[r].sessions
    ensures var x := c.rooms[r].sessions[sid];
      && x.host != x.client
      && x.host in c.rooms[r].users && x.host in c.connected && c.connected[x.host] == r
      && x.client in c.rooms[r].users && x.client in c.connected && c.connected[x.client] == r
  {
    assert SoundRoom(c.rooms[r]);
  }

  lemma HangupLeaves(c: Core, u: Id)
    requires Agree(c)
    ensures u !in Hangup(c, u).connected
  {
    HangupHungUp(c, u);
  }

  predicate IsRelay(e: Envelope) {
    e.item.Sent? && e.item.msg.Relayed?
  }

  ghost predicate NoRelay(mail: seq<Envelope>) {
    forall e | e in mail :: !IsRelay(e)
  }

  lemma {:induction false} InvitationsDoNotRelay(mode: string, starts: seq<Start>)
    ensures NoRelay(Invitations(mode, starts))
  {
    if starts != [] {
      InvitationsDoNotRelay(mode, starts[..|starts| - 1]);
    }
  }

  lemma {:induction false} NoticesDoNotRelay(room: RoomState, u: Id, order: seq<Id>)
    ensures NoRelay(Notices(room, u, order))
  {
    if order != [] {
      NoticesDoNotRelay(room, u, order[..|order| - 1]);
    }
  }

  lemma BroadcastDoesNotRelay(note: seq<Envelope>, room: RoomState)
    requires IsBroadcast(note, room)
    ensures NoRelay(note)
  {
    hide IsView;
    forall e | e in note ensures !IsRelay(e) {
      var i :| 0 <= i < |note| && note[i] == e;
      assert IsNote(note[i], room);
    }
  }

  lemma {:induction false} HangupDoesNotRelay(c: Core, u: Id, code: int, reason: string, ch: Choice)
    requires HangupLegal(c, u, ch)
    ensures NoRelay(HangupMail(c, u, code, reason, ch))
  {
    hide IsBroadcast, Enumerates, Notices, ClosesRoom;
    var r := RoomOf(c, u);
    if r != "" && r in c.rooms && u in c.rooms[r].users {
      NoticesDoNotRelay(c.rooms[r], u, ch.closing);
      if !ClosesRoom(c.rooms[r], u) {
        BroadcastDoesNotRelay(ch.farewell, Without(c.rooms[r], u));
      }
    }
  }

  lemma {:induction false} JoinDoesNotRelay(conf: Config, c: Core, info: ClientInfo, id: string, userName: string,
                                            ch: Choice)
    requires JoinLegal(conf, c, info, id, userName, ch)
    ensures NoRelay(ExecuteJoin(conf, c, info, id, userName, ch).out)
  {
    hide IsBroadcast, StartsLegal, OpenSessions, Invitations, CheckAuth;
    if JoinError(conf, c, info, id) == None {
      var room := Admitted(c, info, id, DisplayName(info, userName, ch.randomName)).rooms[id];
      BroadcastDoesNotRelay(ch.note, room);
      InvitationsDoNotRelay(room.mode, ch.starts);
    }
  }

  lemma {:induction false} CreateDoesNotRelay(conf: Config, c: Core, info: ClientInfo, e: Event, ch: Choice)
    requires e.Create? && CreateLegal(conf, c, info, e, ch)
    ensures NoRelay(ExecuteCreate(conf, c, info, e, ch).out)
  {
    hide IsBroadcast, ExecuteJoin, JoinLegal, CreateError, NewRoom;
    if Delegates(c, info, e) {
      JoinDoesNotRelay(conf, c, info, e.id, e.userName, ch);
    } else if CreateError(conf, c, info, e.id, e.mode) == None {
      var name := DisplayName(info, e.userName, ch.randomName);
      BroadcastDoesNotRelay(ch.note, NewRoom(e.id, e.mode, e.closeOnOwnerLeave, info, name));
    }
  }

  lemma {:induction false} InRoomDoesNotRelay(c: Core, r: string, u: Id, e: Event, ch: Choice)
    requires r in c.rooms && InRoomLegal(c, r, u, e, ch) && (e.Name? || e.StartShare? || e.StopShare?)
    ensures NoRelay(ExecuteInRoom(c, r, u, e, ch).out)
  {
    hide IsBroadcast, StartsLegal, Enumerates, OpenSessions, CloseSessions, Invitations, Notices, WithName;
    hide WithStreaming;
    if u in c.rooms[r].users {
      NoticesDoNotRelay(c.rooms[r], u, ch.closing);
      InvitationsDoNotRelay(c.rooms[r].mode, ch.starts);
      match e
      case Name(name) => BroadcastDoesNotRelay(ch.note, WithName(c, r, u, name).rooms[r]);
      case StartShare =>
        if ch.ip.IpFound? {
          BroadcastDoesNotRelay(ch.note, WithStreaming(c, r, u, true).rooms[r]);
        }
      case StopShare => BroadcastDoesNotRelay(ch.note, WithStreaming(c, r, u, false).rooms[r]);
    }
  }

  /** Only the four relay events make the server send such a message. */
  lemma {:induction false} OnlyRelaysRelay(conf: Config, s: State, m: ClientMessage, ch: Choice)
    requires StepLegal(conf, s, m, ch) && !m.event.Relay?
    ensures NoRelay(StepMail(conf, s, m, ch))
  {
    hide HangupMail, HangupLegal, Hangup, ExecuteJoin, JoinLegal, ExecuteCreate, CreateLegal, ExecuteInRoom;
    hide InRoomLegal;
    var c := Register(s.core, m);
    if !Ignored(c, m) {
      var u := m.info.id;
      match m.event {
        case Connected =>
        case Disconnected(code, reason) => HangupDoesNotRelay(c, u, code, reason, ch);
        case Create(_, _, _, _, _) => CreateDoesNotRelay(conf, c, m.info, m.event, ch);
        case Join(id, userName) => JoinDoesNotRelay(conf, c, m.info, id, userName, ch);
        case _ =>
          if CurrentRoomError(c, u) == None {
            InRoomDoesNotRelay(c, RoomOf(c, u), u, m.event, ch);
          }
      }
      var o := Execute(conf, c, m, ch);
      if o.verdict.Failed? {
        HangupDoesNotRelay(o.core, u, CLOSE_NORMAL, o.verdict.reason, ch);
      }
    }
  }

  lemma SameTail(a: seq<Envelope>, b: seq<Envelope>, c: seq<Envelope>)
    requires a + b == a + c
    ensures b == c
  {
    assert b == (a + b)[|a|..] && c == (a + c)[|a|..];
  }

  /** The relayed messages of a step. */
  lemma {:induction false} RelayMail(conf: Config, s: State, m: ClientMessage, ch: Choice)
    requires TablesOk(conf, s.core, {}) && StepLegal(conf, s, m, ch) && m.event.Relay?
    ensures var mail, fate := StepMail(conf, s, m, ch), FateOf(s.core, m.info.id, m.event.signal, m.event.sid);
      if fate.Delivered? then mail == [Envelope(fate.to, Sent(Relayed(m.event.signal, m.event.sid, m.event.value)))]
      else NoRelay(mail)
  {
    var mail, fate := StepMail(conf, s, m, ch), FateOf(s.core, m.info.id, m.event.signal, m.event.sid);
    RelayCases(conf, s, m, ch);
    RelayHangupLegal(conf, s, m, ch);
    hide TablesOk, StepLegal, Step, StepMail, HangupLegal, Hangup, HangupMail;
    match fate
    case Delivered(to) =>
      SameTail(s.sent, mail, [Envelope(to, Sent(Relayed(m.event.signal, m.event.sid, m.event.value)))]);
    case Disconnecting(reason) =>
      HangupDoesNotRelay(s.core, m.info.id, CLOSE_NORMAL, reason, ch);
      SameTail(s.sent, mail, HangupMail(s.core, m.info.id, CLOSE_NORMAL, reason, ch));
    case _ =>
      assert s.sent + [] == s.sent;
      SameTail(s.sent, mail, []);
  }

  lemma RelayHangupLegal(conf: Config, s: State, m: ClientMessage, ch: Choice)
    requires StepLegal(conf, s, m, ch) && m.event.Relay?
    ensures FateOf(s.core, m.info.id, m.event.signal, m.event.sid).Disconnecting? ==> HangupLegal(s.core, m.info.id, ch)
  {
    hide HangupLegal;
  }

  /**
   A relayed message only reaches a client that, by the messages it was sent so far, knows the session, on the right
   side and with the sender at the other end.
   */
  lemma {:induction false} RelayedWithinSession(conf: Config, s: State, m: ClientMessage, ch: Choice,
                                                v: Id, signal: Signal, sid: Id, value: string)
    requires Reachable(conf, s) && StepLegal(conf, s, m, ch)
    requires Envelope(v, Sent(Relayed(signal, sid, value))) in StepMail(conf, s, m, ch)
    ensures m.event == Relay(signal, sid, value) && v in s.core.connected
    ensures var k := Knows(s, v); var seats := if signal.HostOffer? || signal.HostICE? then k.watching else k.hosting;
      sid in seats && seats[sid].peer == m.info.id
  {
    hide Reachable, TablesOk, StepLegal, StepMail, Knows;
    ReachableOk(conf, s);
    var e := Envelope(v, Sent(Relayed(signal, sid, value)));
    assert IsRelay(e);
    if !m.event.Relay? {
      OnlyRelaysRelay(conf, s, m, ch);
    } else {
      RelayMail(conf, s, m, ch);
      var fate := FateOf(s.core, m.info.id, m.event.signal, m.event.sid);
      assert fate == Delivered(v);
      OkParts(conf, s.core);
      OkMute(conf, s.core);
      PeersAreFellows(s.core, s.core.connected[m.info.id], sid);
      ClientMirror(conf, s, v, sid, m.info.id);
      DeliveredInSession(s.core, m.info.id, signal, sid, v);
    }
  }

  lemma OkMute(conf: Config, c: Core)
    requires TablesOk(conf, c, {})
    ensures Mute(c)
  {
    hide Mute;
  }

  lemma DeliveredInSession(c: Core, u: Id, signal: Signal, sid: Id, v: Id)
    requires FateOf(c, u, signal, sid) == Delivered(v)
    ensures if signal.HostOffer? || signal.HostICE? then LiveSession(c, sid, u, v) else LiveSession(c, sid, v, u)
  {
    var r := c.connected[u];
    assert c.rooms[r].sessions[sid] == Session(c.rooms[r].sessions[sid].host, c.rooms[r].sessions[sid].client);
  }

  // ---------- the empty room id ----------

  /**
   A step writes to somebody else who is gone, or about a room it is not in, exactly when somebody
   enters the room with the empty id while that client is in its user table.
   */
  lemma {:induction false} StrayExactly(conf: Config, s: State, m: ClientMessage, ch: Choice, v: Id)
    requires TablesOk(conf, s.core, {}) && StepLegal(conf, s, m, ch)
    requires v != m.info.id && (v !in s.core.connected || s.core.connected[v] != "")
    ensures var c := s.core;
      Addressed(StepMail(conf, s, m, ch), v) && (v !in c.connected || Target(c, m) != Some(c.connected[v])) <==>
      Entering(conf, c, m) == Some("") && "" in c.rooms && v in c.rooms[""].users
  {
    hide TablesOk, StepLegal, StepMail, Addressed, Agree, Entering, Target;
    var c := s.core;
    OkParts(conf, c);
    EnteringTarget(conf, c, m, v);
    if Entering(conf, c, m) == Some("") && "" in c.rooms && v in c.rooms[""].users {
      EnteringTellsAll(conf, s, m, ch, v);
    }
    if Addressed(StepMail(conf, s, m, ch), v) && (v !in c.connected || Target(c, m) != Some(c.connected[v])) {
      StepLocal(conf, s, m, ch);
      assert InTarget(c, Target(c, m), v);
      StrayTarget(c, Target(c, m), v);
      if Entering(conf, c, m) == None {
        FailedEntryIsPrivate(conf, s, m, ch, v);
      }
    }
  }

  lemma EnteringTarget(conf: Config, c: Core, m: ClientMessage, v: Id)
    ensures Entering(conf, c, m).Some? ==> Entering(conf, c, m) == Target(c, m)
  {
  }

  /** The only room whose members need not be connected to it is "". */
  lemma StrayTarget(c: Core, t: Option<string>, v: Id)
    requires Agree(c) && InTarget(c, t, v) && (v !in c.connected || t != Some(c.connected[v]))
    ensures t == Some("")
  {
  }

  /** In particular a client that is gone, whoever sends. */
  lemma {:induction false} LateExactly(conf: Config, s: State, m: ClientMessage, ch: Choice, v: Id)
    requires TablesOk(conf, s.core, {}) && StepLegal(conf, s, m, ch)
    requires v in s.core.clients && v !in s.core.connected
    ensures Addressed(StepMail(conf, s, m, ch), v) <==>
      Entering(conf, s.core, m) == Some("") && v in s.core.rooms[""].users
  {
    hide TablesOk, StepLegal, StepMail;
    if v == m.info.id {
      SilentToTheGone(conf, s, m, ch);
    } else {
      StrayExactly(conf, s, m, ch, v);
    }
  }

  /** An ignored message, or a first Connected, sends nothing to its sender. */
  lemma SilentToTheGone(conf: Config, s: State, m: ClientMessage, ch: Choice)
    requires StepLegal(conf, s, m, ch) && m.info.id !in s.core.connected
    ensures StepMail(conf, s, m, ch) == []
  {
  }

  lemma {:induction false} EnteringTellsAll(conf: Config, s: State, m: ClientMessage, ch: Choice, v: Id)
    requires StepLegal(conf, s, m, ch) && Entering(conf, s.core, m) == Some("") && v in s.core.rooms[""].users
    ensures Addressed(StepMail(conf, s, m, ch), v)
  {
    var c := s.core;
    var name := DisplayName(m.info, m.event.userName, ch.randomName);
    var room := Admitted(c, m.info, "", name).rooms[""];
    var mail := StepMail(conf, s, m, ch);
    assert IsBroadcast(ch.note, room);
    assert v in room.users;
    var i :| 0 <= i < |ch.note| && ch.note[i].to == v;
    assert ch.note <= mail;
    assert mail[i].to == v;
  }

  /** A message about the room "" that fails its checks only reaches its sender. */
  lemma FailedEntryIsPrivate(conf: Config, s: State, m: ClientMessage, ch: Choice, v: Id)
    requires StepLegal(conf, s, m, ch) && Target(s.core, m) == Some("") && "" in s.core.rooms
    requires Entering(conf, s.core, m) == None && v != m.info.id
    ensures !Addressed(StepMail(conf, s, m, ch), v)
  {
    var c := s.core;
    if m.info.id in c.connected {
      var reason := Execute(conf, c, m, ch).verdict.reason;
      assert StepMail(conf, s, m, ch) == [Envelope(m.info.id, Sent(CloseWriter(CLOSE_NORMAL, reason)))];
    }
  }
}
