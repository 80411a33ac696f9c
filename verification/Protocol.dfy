/**
 The room server as a step function on values. One step is one turn of the event
 loop: the connected check, the handler, and the forced disconnect on an error.
 Everything the program leaves open (fresh ids, passwords, random names, the IP
 lookup, the order in which a Go map is walked, the order among equal elements of
 a sort) is a Choice, and StepLegal says which choices the program can make.
 */
module Protocol {
  import opened Domain
  import opened ViewOrder

  const MODE_LOCAL := "local"
  const MODE_STUN := "stun"
  const MODE_TURN := "turn"

  const AUTH_NONE := "none"
  const AUTH_ALL := "all"
  const AUTH_TURN := "turn"

  const REALM := "screego"
  const CLOSE_NORMAL := 1000
  const CLOSE_OWNER_LEFT := "Owner Left"

  datatype Config = Config(authMode: string)

  datatype UserState = UserState(id: Id, addr: string, name: string, streaming: bool, owner: bool)

  datatype Session = Session(host: Id, client: Id)

  datatype RoomState = RoomState(
    id: string, closeOnOwnerLeave: bool, mode: string, users: map<Id, UserState>, sessions: map<Id, Session>)

  // The key that TURN derives from user name, realm and password.
  datatype AuthKey = AuthKey(username: string, realm: string, password: string)

  datatype Entry = Entry(addr: string, key: AuthKey)

  datatype Metrics = Metrics(
    roomsCreated: nat, roomsClosed: nat, usersJoined: nat, usersLeft: nat, sessionsCreated: nat, sessionsClosed: nat)

  /** The tables. clients and issued are bookkeeping: who ever connected, and which ids xid.New ever returned. */
  datatype Core = Core(
    connected: map<Id, string>,
    rooms: map<string, RoomState>,
    lookup: map<string, Entry>,
    metrics: Metrics,
    clients: map<Id, ClientInfo>,
    issued: set<Id>)

  /** The tables and the transcript of everything sent so far. */
  datatype State = State(core: Core, sent: seq<Envelope>)

  // One session to open: its fresh id, its two ends and their TURN passwords.
  datatype Start = Start(id: Id, host: Id, client: Id, hostPassword: string, clientPassword: string)

  datatype IpResult = IpFound | IpError(reason: string)

  datatype Choice = Choice(
    randomName: string,        // what RandUserName returns
    ip: IpResult,              // whether the IP lookup succeeds
    starts: seq<Start>,        // the sessions opened, in order
    note: seq<Envelope>,       // the handler's broadcast
    closing: seq<Id>,          // the sessions closed one by one, in order
    kicked: seq<Id>,           // the members thrown out by closeRoom, in order
    farewell: seq<Envelope>)   // the broadcast after somebody left

  // Nothing was left open.
  const QUIET := Choice("", IpFound, [], [], [], [], [])

  datatype Verdict = Done | Failed(reason: string) | Panicked

  datatype Outcome = Outcome(core: Core, out: seq<Envelope>, verdict: Verdict)

  const EMPTY_CORE := Core(map[], map[], map[], Metrics(0, 0, 0, 0, 0, 0), map[], {})
  const INIT := State(EMPTY_CORE, [])

  // ---------- lookups ----------

  /** Reading connected[id] in Go: a missing key reads as "". */
  function RoomOf(c: Core, id: Id): string {
    if id in c.connected then c.connected[id] else ""
  }

  /** The error of CurrentRoom; the room is RoomOf when there is none. */
  function CurrentRoomError(c: Core, id: Id): Option<string> {
    if id !in c.connected then Some("not connected")
    else if c.connected[id] == "" then Some("not in a room")
    else if c.connected[id] !in c.rooms then Some("room with id " + c.connected[id] + " does not exist")
    else None
  }

  function CheckAuth(conf: Config, mode: string, authenticated: bool): Option<string> {
    if conf.authMode == AUTH_NONE then None
    else if conf.authMode == AUTH_ALL then
      if !authenticated then Some("you need to login") else None
    else if conf.authMode == AUTH_TURN then
      if mode != MODE_STUN && mode != MODE_LOCAL && !authenticated then Some("you need to login") else None
    else Some("invalid authmode:" + conf.authMode)
  }

  function DisplayName(info: ClientInfo, userName: string, randomName: string): string {
    var name := if info.authenticated then info.authenticatedUser else userName;
    if name == "" then randomName else name
  }

  // ---------- TURN table ----------

  function HostKey(id: Id): string { id + "host" }

  function ClientKey(id: Id): string { id + "client" }

  function Allow(lookup: map<string, Entry>, username: string, password: string, addr: string): map<string, Entry> {
    lookup[username := Entry(addr, AuthKey(username, REALM, password))]
  }

  /** InternalServer.authenticate. */
  function Authenticate(lookup: map<string, Entry>, username: string): Option<AuthKey> {
    if username in lookup then Some(lookup[username].key) else None
  }

  function KeysOf(ids: set<Id>): set<string> {
    (set id | id in ids :: HostKey(id)) + (set id | id in ids :: ClientKey(id))
  }

  // ---------- sessions ----------

  function AddrOf(room: RoomState, id: Id): string {
    if id in room.users then room.users[id].addr else ""
  }

  /** newSession: its effect on the tables. */
  function OpenSession(c: Core, r: string, st: Start): Core
    requires r in c.rooms
  {
    var room := c.rooms[r];
    c.(rooms := c.rooms[r := room.(sessions := room.sessions[st.id := Session(st.host, st.client)])],
       lookup := if room.mode == MODE_TURN
                 then Allow(Allow(c.lookup, HostKey(st.id), st.hostPassword, AddrOf(room, st.host)),
                            ClientKey(st.id), st.clientPassword, AddrOf(room, st.client))
                 else c.lookup,
       issued := c.issued + {st.id},
       metrics := c.metrics.(sessionsCreated := c.metrics.sessionsCreated + 1))
  }

  function OpenSessions(c: Core, r: string, starts: seq<Start>): (c': Core)
    requires r in c.rooms
    ensures c' == c.(rooms := c'.rooms, lookup := c'.lookup, issued := c'.issued, metrics := c'.metrics)
    ensures r in c'.rooms
    ensures c'.rooms == c.rooms[r := c.rooms[r].(sessions := c'.rooms[r].sessions)]
  {
    if starts == [] then c
    else OpenSession(OpenSessions(c, r, starts[..|starts| - 1]), r, starts[|starts| - 1])
  }

  function IceFor(mode: string, key: string, password: string): Ice {
    if mode == MODE_STUN then Stun
    else if mode == MODE_TURN then Turn(key, password)
    else NoServers
  }

  /** newSession: the two messages. */
  function Invitation(mode: string, st: Start): seq<Envelope> {
    [Envelope(st.host, Sent(HostSession(st.id, st.client, IceFor(mode, HostKey(st.id), st.hostPassword)))),
     Envelope(st.client, Sent(ClientSession(st.id, st.host, IceFor(mode, ClientKey(st.id), st.clientPassword))))]
  }

  function Invitations(mode: string, starts: seq<Start>): seq<Envelope> {
    if starts == [] then []
    else Invitations(mode, starts[..|starts| - 1]) + Invitation(mode, starts[|starts| - 1])
  }

  /** lookup without the keys of the sessions in ids, if the room's mode gave them any. */
  function Revoked(mode: string, lookup: map<string, Entry>, ids: set<Id>): map<string, Entry> {
    if mode == MODE_TURN then lookup - KeysOf(ids) else lookup
  }

  /** closeSession for every id in ids. */
  function CloseSessions(c: Core, r: string, ids: set<Id>): Core
    requires r in c.rooms
  {
    var room := c.rooms[r];
    c.(rooms := c.rooms[r := room.(sessions := room.sessions - ids)],
       lookup := Revoked(room.mode, c.lookup, ids),
       metrics := c.metrics.(sessionsClosed := c.metrics.sessionsClosed + |ids|))
  }

  function PeerOf(s: Session, u: Id): Id {
    if s.host == u then s.client else s.host
  }

  /** The EndShare message when session id of u ends: to the peer, if it is there. */
  function Notice(room: RoomState, u: Id, id: Id): seq<Envelope> {
    if id in room.sessions && PeerOf(room.sessions[id], u) in room.users
    then [Envelope(PeerOf(room.sessions[id], u), Sent(EndShare(id)))]
    else []
  }

  /** The EndShare messages for the sessions of u, closed in the given order. */
  function Notices(room: RoomState, u: Id, order: seq<Id>): seq<Envelope> {
    if order == [] then []
    else Notices(room, u, order[..|order| - 1]) + Notice(room, u, order[|order| - 1])
  }

  function SessionsOf(room: RoomState, u: Id): set<Id> {
    set id | id in room.sessions && (room.sessions[id].host == u || room.sessions[id].client == u)
  }

  function HostSessionsOf(room: RoomState, u: Id): set<Id> {
    set id | id in room.sessions && room.sessions[id].host == u
  }

  // ---------- broadcasts ----------

  function Show(user: UserState, me: Id): UserView {
    UserView(user.id, user.name, user.streaming, user.id == me, user.owner)
  }

  /** view lists every user once, as me sees them, in the order of the sort. */
  ghost predicate IsView(view: seq<UserView>, users: map<Id, UserState>, me: Id) {
    && |view| == |users|
    && (forall i | 0 <= i < |view| :: view[i].id in users && view[i] == Show(users[view[i].id], me))
    && (forall i, j | 0 <= i < j < |view| :: view[i].id != view[j].id)
    && Sorted(view)
  }

  ghost predicate IsNote(e: Envelope, room: RoomState) {
    e.to in room.users && e.item.Sent? && e.item.msg.RoomInfo? && e.item.msg.id == room.id
    && IsView(e.item.msg.users, room.users, e.to)
  }

  /** notifyInfoChanged: one Room message to every user, in any order. */
  ghost predicate IsBroadcast(note: seq<Envelope>, room: RoomState) {
    && (forall i | 0 <= i < |note| :: IsNote(note[i], room))
    && (forall i, j | 0 <= i < j < |note| :: note[i].to != note[j].to)
    && (forall u | u in room.users :: exists i :: 0 <= i < |note| && note[i].to == u)
  }

  ghost predicate Enumerates(order: seq<Id>, ids: set<Id>) {
    && (forall i, j | 0 <= i < j < |order| :: order[i] != order[j])
    && (forall x :: x in order <==> x in ids)
  }

  // ---------- leaving ----------

  function Goodbyes(kicked: seq<Id>): seq<Envelope> {
    seq(|kicked|, i requires 0 <= i < |kicked| =>
      Envelope(kicked[i], Sent(CloseWriter(CLOSE_NORMAL, CLOSE_OWNER_LEFT))))
  }

  function CloseRoom(c: Core, r: string): Core
    requires r in c.rooms
  {
    var room := c.rooms[r];
    var c1 := c.(connected := c.connected - room.users.Keys,
                 metrics := c.metrics.(usersLeft := c.metrics.usersLeft + |room.users|));
    var c2 := CloseSessions(c1, r, room.sessions.Keys);
    c2.(rooms := c2.rooms - {r},
        metrics := c2.metrics.(roomsClosed := c2.metrics.roomsClosed + 1))
  }

  /** The room without u and without u's sessions. */
  function Without(room: RoomState, u: Id): RoomState {
    room.(users := room.users - {u}, sessions := room.sessions - SessionsOf(room, u))
  }

  predicate ClosesRoom(room: RoomState, u: Id)
    requires u in room.users
  {
    (room.users[u].owner && room.closeOnOwnerLeave) || room.users.Keys == {u}
  }

  /** removeUserFromRoom: the tables after closeUserSessions and removeUser. */
  function DropUser(c: Core, r: string, u: Id): (c': Core)
    requires r in c.rooms && u in c.rooms[r].users
    ensures r in c'.rooms && c'.rooms == c.rooms[r := Without(c.rooms[r], u)]
  {
    var c1 := CloseSessions(c, r, SessionsOf(c.rooms[r], u));
    c1.(rooms := c1.rooms[r := c1.rooms[r].(users := c1.rooms[r].users - {u})],
        metrics := c1.metrics.(usersLeft := c1.metrics.usersLeft + 1))
  }

  function Leave(c: Core, r: string, u: Id): Core {
    if r !in c.rooms || u !in c.rooms[r].users then c
    else if ClosesRoom(c.rooms[r], u) then CloseRoom(DropUser(c, r, u), r)
    else DropUser(c, r, u)
  }

  function LeaveMail(c: Core, r: string, u: Id, ch: Choice): seq<Envelope> {
    if r !in c.rooms || u !in c.rooms[r].users then []
    else Notices(c.rooms[r], u, ch.closing) +
         if ClosesRoom(c.rooms[r], u) then Goodbyes(ch.kicked) else ch.farewell
  }

  ghost predicate LeaveLegal(c: Core, r: string, u: Id, ch: Choice) {
    r in c.rooms && u in c.rooms[r].users ==>
      && Enumerates(ch.closing, SessionsOf(c.rooms[r], u))
      && (if ClosesRoom(c.rooms[r], u) then Enumerates(ch.kicked, c.rooms[r].users.Keys - {u})
          else IsBroadcast(ch.farewell, Without(c.rooms[r], u)))
  }

  /** executeNoError. */
  function Hangup(c: Core, u: Id): Core {
    var c1 := c.(connected := c.connected - {u});
    if RoomOf(c, u) == "" then c1 else Leave(c1, RoomOf(c, u), u)
  }

  function HangupMail(c: Core, u: Id, code: int, reason: string, ch: Choice): seq<Envelope> {
    [Envelope(u, Sent(CloseWriter(code, reason)))] +
    if RoomOf(c, u) == "" then [] else LeaveMail(c, RoomOf(c, u), u, ch)
  }

  ghost predicate HangupLegal(c: Core, u: Id, ch: Choice) {
    RoomOf(c, u) != "" ==> LeaveLegal(c, RoomOf(c, u), u, ch)
  }

  // ---------- handlers ----------

  function Fail(c: Core, reason: string): Outcome {
    Outcome(c, [], Failed(reason))
  }

  function WithUser(c: Core, r: string, user: UserState): (c': Core)
    requires r in c.rooms
    ensures r in c'.rooms && c' == c.(rooms := c'.rooms)
  {
    c.(rooms := c.rooms[r := c.rooms[r].(users := c.rooms[r].users[user.id := user])])
  }

  function JoinError(conf: Config, c: Core, info: ClientInfo, id: string): Option<string> {
    if RoomOf(c, info.id) != "" then Some("cannot join room, you are already in one")
    else if id !in c.rooms then Some("room with id " + id + " does not exist")
    else CheckAuth(conf, c.rooms[id].mode, info.authenticated)
  }

  /** Join, up to the IP lookup. */
  function Admitted(c: Core, info: ClientInfo, id: string, name: string): (c': Core)
    requires id in c.rooms
    ensures id in c'.rooms
  {
    WithUser(c, id, UserState(info.id, info.addr, name, false, false))
    .(connected := c.connected[info.id := c.rooms[id].id],
      metrics := c.metrics.(usersJoined := c.metrics.usersJoined + 1))
  }

  function ExecuteJoin(conf: Config, c: Core, info: ClientInfo, id: string, userName: string, ch: Choice): Outcome {
    var error := JoinError(conf, c, info, id);
    if error.Some? then Fail(c, error.value)
    else
      var c1 := Admitted(c, info, id, DisplayName(info, userName, ch.randomName));
      if ch.ip.IpError? then Outcome(c1, ch.note, Failed(ch.ip.reason))
      else Outcome(OpenSessions(c1, id, ch.starts), ch.note + Invitations(c1.rooms[id].mode, ch.starts), Done)
  }

  /** starts opens one session for each (host, client) pair in want, with fresh ids. */
  ghost predicate StartsLegal(starts: seq<Start>, issued: set<Id>, want: set<(Id, Id)>) {
    && (forall i | 0 <= i < |starts| :: starts[i].id !in issued && (starts[i].host, starts[i].client) in want)
    && (forall i, j | 0 <= i < j < |starts| ::
          starts[i].id != starts[j].id && (starts[i].host, starts[i].client) != (starts[j].host, starts[j].client))
    && (forall p | p in want :: exists i :: 0 <= i < |starts| && (starts[i].host, starts[i].client) == p)
  }

  function StreamersTo(room: RoomState, u: Id): set<(Id, Id)> {
    set h | h in room.users && h != u && room.users[h].streaming :: (h, u)
  }

  function ViewersOf(room: RoomState, u: Id): set<(Id, Id)> {
    set v | v in room.users && v != u :: (u, v)
  }

  ghost predicate JoinLegal(
    conf: Config, c: Core, info: ClientInfo, id: string, userName: string, ch: Choice)
  {
    JoinError(conf, c, info, id) == None ==>
      var room := Admitted(c, info, id, DisplayName(info, userName, ch.randomName)).rooms[id];
      && IsBroadcast(ch.note, room)
      && (ch.ip.IpFound? ==> StartsLegal(ch.starts, c.issued, StreamersTo(room, info.id)))
  }

  function NewRoom(id: string, mode: string, closeOnOwnerLeave: bool, info: ClientInfo, name: string): RoomState {
    RoomState(id, closeOnOwnerLeave, mode, map[info.id := UserState(info.id, info.addr, name, false, true)], map[])
  }

  function CreateError(conf: Config, c: Core, info: ClientInfo, id: string, mode: string): Option<string> {
    if RoomOf(c, info.id) != "" then Some("cannot join room, you are already in one")
    else if id in c.rooms then Some("room with id " + id + " does already exist")
    else CheckAuth(conf, mode, info.authenticated)
  }

  /** Create hands over to Join. */
  predicate Delegates(c: Core, info: ClientInfo, e: Event) {
    e.Create? && RoomOf(c, info.id) == "" && e.id in c.rooms && e.joinIfExist
  }

  function ExecuteCreate(conf: Config, c: Core, info: ClientInfo, e: Event, ch: Choice): Outcome
    requires e.Create?
  {
    var error := CreateError(conf, c, info, e.id, e.mode);
    if Delegates(c, info, e) then ExecuteJoin(conf, c, info, e.id, e.userName, ch)
    else if error.Some? then Fail(c, error.value)
    else
      var room := NewRoom(e.id, e.mode, e.closeOnOwnerLeave, info, DisplayName(info, e.userName, ch.randomName));
      Outcome(c.(connected := c.connected[info.id := room.id],
                 rooms := c.rooms[e.id := room],
                 metrics := c.metrics.(usersJoined := c.metrics.usersJoined + 1,
                                       roomsCreated := c.metrics.roomsCreated + 1)),
              ch.note, Done)
  }

  ghost predicate CreateLegal(conf: Config, c: Core, info: ClientInfo, e: Event, ch: Choice)
    requires e.Create?
  {
    if Delegates(c, info, e) then JoinLegal(conf, c, info, e.id, e.userName, ch)
    else CreateError(conf, c, info, e.id, e.mode) == None ==>
      var name := DisplayName(info, e.userName, ch.randomName);
      IsBroadcast(ch.note, NewRoom(e.id, e.mode, e.closeOnOwnerLeave, info, name))
  }

  function WithName(c: Core, r: string, u: Id, name: string): (c': Core)
    requires r in c.rooms && u in c.rooms[r].users
    ensures r in c'.rooms
  {
    c.(rooms := c.rooms[r := c.rooms[r].(users := c.rooms[r].users[u := c.rooms[r].users[u].(name := name)])])
  }

  function WithStreaming(c: Core, r: string, u: Id, streaming: bool): (c': Core)
    requires r in c.rooms && u in c.rooms[r].users
    ensures r in c'.rooms
  {
    c.(rooms := c.rooms[r := c.rooms[r].(users := c.rooms[r].users[u := c.rooms[r].users[u].(streaming := streaming)])])
  }

  /** The handlers of a client that is in room r. Using a missing user is a nil dereference. */
  function ExecuteInRoom(c: Core, r: string, u: Id, e: Event, ch: Choice): Outcome
    requires r in c.rooms
    requires e.Name? || e.StartShare? || e.StopShare? || e.Relay?
  {
    var room := c.rooms[r];
    match e
    case Name(userName) =>
      if u !in room.users then Outcome(c, [], Panicked)
      else Outcome(WithName(c, r, u, userName), ch.note, Done)
    case StartShare =>
      if u !in room.users then Outcome(c, [], Panicked)
      else
        var c1 := WithStreaming(c, r, u, true);
        if ch.ip.IpError? then Outcome(c1, [], Failed(ch.ip.reason))
        else Outcome(OpenSessions(c1, r, ch.starts), Invitations(room.mode, ch.starts) + ch.note, Done)
    case StopShare =>
      if u !in room.users then Outcome(c, [], Panicked)
      else
        var c1 := WithStreaming(c, r, u, false);
        Outcome(CloseSessions(c1, r, HostSessionsOf(room, u)),
                [Envelope(u, StopShareDone)] + Notices(room, u, ch.closing) + ch.note, Done)
    case Relay(signal, sid, value) =>
      if sid !in room.sessions then Outcome(c, [], Done)
      else
        var s := room.sessions[sid];
        var (mine, theirs) := if signal.FromHost() then (s.host, s.client) else (s.client, s.host);
        if mine != u then Fail(c, "permission denied for session " + sid)
        else if theirs !in room.users then Outcome(c, [], Panicked)
        else Outcome(c, [Envelope(theirs, Sent(Relayed(signal, sid, value)))], Done)
  }

  ghost predicate InRoomLegal(c: Core, r: string, u: Id, e: Event, ch: Choice)
    requires r in c.rooms
  {
    u in c.rooms[r].users ==>
      match e
      case Name(userName) => IsBroadcast(ch.note, WithName(c, r, u, userName).rooms[r])
      case StartShare =>
        var room := WithStreaming(c, r, u, true).rooms[r];
        ch.ip.IpFound? ==> StartsLegal(ch.starts, c.issued, ViewersOf(room, u)) && IsBroadcast(ch.note, room)
      case StopShare =>
        && Enumerates(ch.closing, HostSessionsOf(c.rooms[r], u))
        && IsBroadcast(ch.note, WithStreaming(c, r, u, false).rooms[r])
      case _ => true
  }

  /** Event.Execute. */
  function Execute(conf: Config, c: Core, m: ClientMessage, ch: Choice): Outcome {
    var u := m.info.id;
    match m.event
    case Connected => Outcome(c.(connected := c.connected[u := ""]), [], Done)
    case Disconnected(code, reason) => Outcome(Hangup(c, u), HangupMail(c, u, code, reason, ch), Done)
    case Join(id, userName) => ExecuteJoin(conf, c, m.info, id, userName, ch)
    case Create(_, _, _, _, _) => ExecuteCreate(conf, c, m.info, m.event, ch)
    case _ =>
      var error := CurrentRoomError(c, u);
      if error.Some? then Fail(c, error.value) else ExecuteInRoom(c, RoomOf(c, u), u, m.event, ch)
  }

  ghost predicate ExecuteLegal(conf: Config, c: Core, m: ClientMessage, ch: Choice) {
    var u := m.info.id;
    match m.event
    case Connected => true
    case Disconnected(_, _) => HangupLegal(c, u, ch)
    case Join(id, userName) => JoinLegal(conf, c, m.info, id, userName, ch)
    case Create(_, _, _, _, _) => CreateLegal(conf, c, m.info, m.event, ch)
    case _ => CurrentRoomError(c, u) == None ==> InRoomLegal(c, RoomOf(c, u), u, m.event, ch)
  }

  // ---------- the event loop ----------

  /** The bookkeeping of newClient. */
  function Register(c: Core, m: ClientMessage): Core {
    if m.event.Connected? then c.(clients := c.clients[m.info.id := m.info], issued := c.issued + {m.info.id}) else c
  }

  predicate Ignored(c: Core, m: ClientMessage) {
    !m.skipConnectedCheck && m.info.id !in c.connected
  }

  function Step(conf: Config, s: State, m: ClientMessage, ch: Choice): State {
    var c := Register(s.core, m);
    if Ignored(c, m) then State(c, s.sent)
    else
      var o := Execute(conf, c, m, ch);
      match o.verdict
      case Failed(reason) =>
        State(Hangup(o.core, m.info.id), s.sent + o.out + HangupMail(o.core, m.info.id, CLOSE_NORMAL, reason, ch))
      case _ => State(o.core, s.sent + o.out)
  }

  /** Upgrade sends one Connected with a fresh id before anything else; later messages repeat that client's info. */
  predicate Arrives(c: Core, m: ClientMessage) {
    && m.skipConnectedCheck == m.event.Connected?
    && if m.event.Connected? then m.info.id !in c.issued
       else m.info.id in c.clients && c.clients[m.info.id] == m.info
  }

  ghost predicate StepLegal(conf: Config, s: State, m: ClientMessage, ch: Choice) {
    && Arrives(s.core, m)
    && var c := Register(s.core, m);
       (!Ignored(c, m) ==>
         && ExecuteLegal(conf, c, m, ch)
         && var o := Execute(conf, c, m, ch);
            (o.verdict.Failed? ==> HangupLegal(o.core, m.info.id, ch)))
  }

  datatype Iteration = Iteration(m: ClientMessage, ch: Choice)

  function Run(conf: Config, its: seq<Iteration>): State {
    if its == [] then INIT
    else Step(conf, Run(conf, its[..|its| - 1]), its[|its| - 1].m, its[|its| - 1].ch)
  }

  ghost predicate RunLegal(conf: Config, its: seq<Iteration>) {
    its != [] ==>
      && RunLegal(conf, its[..|its| - 1])
      && StepLegal(conf, Run(conf, its[..|its| - 1]), its[|its| - 1].m, its[|its| - 1].ch)
  }

  /** One turn from s to s'. */
  ghost predicate Goes(conf: Config, s: State, it: Iteration, s': State) {
    StepLegal(conf, s, it.m, it.ch) && s' == Step(conf, s, it.m, it.ch)
  }

  /** The states that a run passes through. */
  ghost predicate Trace(conf: Config, its: seq<Iteration>, states: seq<State>) {
    && |states| == |its| + 1 && states[0] == INIT
    && forall n | 0 <= n < |its| :: Goes(conf, states[n], its[n], states[n + 1])
  }

  /** The states that the server can be in between two turns. */
  ghost predicate Reachable(conf: Config, s: State) {
    exists its, states :: Trace(conf, its, states) && states[|its|] == s
  }

  lemma {:induction false} TraceIsRun(conf: Config, its: seq<Iteration>, states: seq<State>)
    requires Trace(conf, its, states)
    ensures RunLegal(conf, its) && Run(conf, its) == states[|its|]
  {
    hide StepLegal, Step;
    if its != [] {
      var n := |its| - 1;
      assert Trace(conf, its[..n], states[..n + 1]);
      TraceIsRun(conf, its[..n], states[..n + 1]);
      assert Goes(conf, states[n], its[n], states[n + 1]);
    }
  }

  /** A run to a reachable state. */
  lemma RunTo(conf: Config, s: State) returns (its: seq<Iteration>)
    requires Reachable(conf, s)
    ensures RunLegal(conf, its) && Run(conf, its) == s
  {
    hide Goes, RunLegal, Run;
    var states;
    its, states :| Trace(conf, its, states) && states[|its|] == s;
    TraceIsRun(conf, its, states);
  }

  lemma {:induction false} RunHasTrace(conf: Config, its: seq<Iteration>) returns (states: seq<State>)
    requires RunLegal(conf, its)
    ensures Trace(conf, its, states) && states[|its|] == Run(conf, its)
  {
    hide StepLegal, Step;
    if its == [] {
      states := [INIT];
    } else {
      var n := |its| - 1;
      var before := RunHasTrace(conf, its[..n]);
      states := before + [Run(conf, its)];
      forall k | 0 <= k < |its| ensures Goes(conf, states[k], its[k], states[k + 1]) {
        if k < n {
          assert Goes(conf, before[k], its[..n][k], before[k + 1]);
        }
      }
    }
  }

  /** Every legal run leads to a reachable state. */
  lemma RunReaches(conf: Config, its: seq<Iteration>)
    requires RunLegal(conf, its)
    ensures Reachable(conf, Run(conf, its))
  {
    hide Trace, RunLegal, Run;
    var states := RunHasTrace(conf, its);
  }

  lemma RunNothing(conf: Config)
    ensures RunLegal(conf, []) && Run(conf, []) == INIT
  {
  }

  lemma RunNext(conf: Config, its: seq<Iteration>, it: Iteration)
    requires RunLegal(conf, its) && StepLegal(conf, Run(conf, its), it.m, it.ch)
    ensures RunLegal(conf, its + [it]) && Run(conf, its + [it]) == Step(conf, Run(conf, its), it.m, it.ch)
  {
    hide StepLegal, Step;
    assert (its + [it])[..|its|] == its;
  }

  lemma ReachNothing(conf: Config)
    ensures Reachable(conf, INIT)
  {
    RunNothing(conf);
    hide Trace, Run;
    RunReaches(conf, []);
  }

  lemma ReachNext(conf: Config, s: State, it: Iteration, s': State)
    requires Reachable(conf, s) && Goes(conf, s, it, s')
    ensures Reachable(conf, s')
  {
    hide Reachable, RunLegal, Run, StepLegal, Step;
    var its := RunTo(conf, s);
    RunNext(conf, its, it);
    RunReaches(conf, its + [it]);
  }
}
