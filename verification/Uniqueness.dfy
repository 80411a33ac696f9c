/** When a pair of users has exactly one session, and the one event that breaks it. */
module Uniqueness {
  import opened Domain
  import opened Protocol
  import opened Tables
  import opened Handlers
  import opened Safety
  import opened Counting

  ghost predicate Unique(c: Core) {
    forall r | r in c.rooms :: UniqueRoom(c.rooms[r])
  }

  /** StartShare of somebody who already streams to others. */
  predicate Reshares(c: Core, m: ClientMessage, ch: Choice) {
    var u := m.info.id;
    && m.event.StartShare? && CurrentRoomError(c, u) == None && ch.ip.IpFound?
    && var room := c.rooms[RoomOf(c, u)];
       u in room.users && room.users[u].streaming && room.users.Keys != {u}
  }

  lemma {:induction false} OpenSessionsUnique(c: Core, r: string, starts: seq<Start>, want: set<(Id, Id)>)
    requires r in c.rooms && UniqueRoom(c.rooms[r])
    requires StartsFresh(c.rooms[r].sessions, starts) && StartsLegal(starts, c.issued, want)
    requires forall p | p in want :: !HasSession(c.rooms[r], p.0, p.1)
    ensures UniqueRoom(OpenSessions(c, r, starts).rooms[r])
  {
    var before := c.rooms[r].sessions;
    var m := OpenSessions(c, r, starts).rooms[r].sessions;
    OpenSessionsAdd(c, r, starts);
    forall a, b | a in m && b in m && m[a] == m[b] ensures a == b {
      NewSessionPair(c.rooms[r], m, starts, want, a);
      NewSessionPair(c.rooms[r], m, starts, want, b);
      if a in before || b in before {
        if a !in before || b !in before {
          var o := if a in before then a else b;
          assert HasSession(c.rooms[r], before[o].host, before[o].client);
          assert false;
        }
      } else {
        var i :| 0 <= i < |starts| && starts[i].id == a;
        var j :| 0 <= j < |starts| && starts[j].id == b;
      }
    }
  }

  /** A session that is not old is one of the starts, for a wanted pair. */
  lemma NewSessionPair(room: RoomState, m: map<Id, Session>, starts: seq<Start>, want: set<(Id, Id)>, id: Id)
    requires id in m && (id in room.sessions || id in StartIds(starts))
    requires forall i | 0 <= i < |starts| ::
      starts[i].id in m && m[starts[i].id] == Session(starts[i].host, starts[i].client)
      && (starts[i].host, starts[i].client) in want
    ensures id !in room.sessions ==>
      (m[id].host, m[id].client) in want && exists i :: 0 <= i < |starts| && starts[i].id == id
  {
    if id !in room.sessions {
      var st :| st in starts && st.id == id;
      var i :| 0 <= i < |starts| && starts[i] == st;
      assert starts[i].id == id;
    }
  }

  /** Doubling: opening a session for a pair that has one makes a duplicate. */
  lemma OpenSessionsDuplicate(c: Core, r: string, starts: seq<Start>, want: set<(Id, Id)>, p: (Id, Id))
    requires r in c.rooms && StartsFresh(c.rooms[r].sessions, starts) && StartsLegal(starts, c.issued, want)
    requires p in want && HasSession(c.rooms[r], p.0, p.1)
    ensures !UniqueRoom(OpenSessions(c, r, starts).rooms[r])
  {
    OpenSessionsAdd(c, r, starts);
    var room' := OpenSessions(c, r, starts).rooms[r];
    var id :| id in c.rooms[r].sessions && c.rooms[r].sessions[id] == Session(p.0, p.1);
    var i :| 0 <= i < |starts| && (starts[i].host, starts[i].client) == p;
    assert room'.sessions[id] == room'.sessions[starts[i].id] && id != starts[i].id;
  }

  lemma HangupUnique(c: Core, u: Id)
    requires Agree(c) && Unique(c)
    ensures Unique(Hangup(c, u))
  {
    HangupHungUp(c, u);
    HungUpUnique(c, u, Hangup(c, u));
  }

  lemma HungUpUnique(c: Core, u: Id, c': Core)
    requires Unique(c) && HungUp(c, u, c')
    ensures Unique(c')
  {
    forall r | r in c'.rooms ensures UniqueRoom(c'.rooms[r]) {
      assert UniqueRoom(c.rooms[r]);
    }
  }

  /** All rooms but r are as they were. */
  lemma UniqueElsewhere(c: Core, c': Core, r: string)
    requires Unique(c) && r in c.rooms && r in c'.rooms && c'.rooms == c.rooms[r := c'.rooms[r]]
    ensures Unique(c') <==> UniqueRoom(c'.rooms[r])
  {
  }

  lemma {:induction false} JoinUnique(conf: Config, c: Core, info: ClientInfo, id: string, userName: string, ch: Choice)
    requires TablesOk(conf, c, {}) && info.id in c.connected && info.id in c.clients && c.clients[info.id] == info
    requires JoinLegal(conf, c, info, id, userName, ch) && Unique(c)
    ensures Unique(ExecuteJoin(conf, c, info, id, userName, ch).core)
  {
    hide TablesOk, IsBroadcast, Unique;
    if JoinError(conf, c, info, id) == None {
      var name := DisplayName(info, userName, ch.randomName);
      var c1 := Admitted(c, info, id, name);
      AdmittedUnique(c, info, id, name);
      if ch.ip.IpFound? {
        AdmittedFresh(conf, c, info, id, name, ch.starts);
        NewcomerHasNone(conf, c, info, id, name);
        hide UniqueRoom, Admitted;
        OpenSessionsUnique(c1, id, ch.starts, StreamersTo(c1.rooms[id], info.id));
        UniqueElsewhere(c1, OpenSessions(c1, id, ch.starts), id);
      }
    }
  }

  lemma AdmittedUnique(c: Core, info: ClientInfo, id: string, name: string)
    requires Unique(c) && id in c.rooms
    ensures Unique(Admitted(c, info, id, name)) && UniqueRoom(Admitted(c, info, id, name).rooms[id])
  {
    assert UniqueRoom(c.rooms[id]);
    UniqueElsewhere(c, Admitted(c, info, id, name), id);
  }

  lemma NewcomerHasNone(conf: Config, c: Core, info: ClientInfo, id: string, name: string)
    requires TablesOk(conf, c, {}) && info.id in c.connected && info.id in c.clients && c.clients[info.id] == info
    requires JoinError(conf, c, info, id) == None
    ensures var room := Admitted(c, info, id, name).rooms[id];
      forall p | p in StreamersTo(room, info.id) :: !HasSession(room, p.0, p.1)
  {
    var c1 := Admitted(c, info, id, name);
    var user := UserState(info.id, info.addr, name, false, false);
    AdmittedEntered(conf, c, info, id, name);
    forall sid | sid in c.rooms[id].sessions ensures c.rooms[id].sessions[sid].client != info.id {
      EnteredStranger(c, id, user, c1, sid);
    }
  }

  /** StartShare of a streaming user opens second sessions; of any other, first ones. */
  lemma {:induction false} ShareUnique(c: Core, r: string, u: Id, starts: seq<Start>)
    requires r in c.rooms && u in c.rooms[r].users && Unique(c) && Sound(c) && Complete(c, {}) && Distinct(c)
    requires StartsLegal(starts, c.issued, ViewersOf(WithStreaming(c, r, u, true).rooms[r], u))
    ensures Unique(OpenSessions(WithStreaming(c, r, u, true), r, starts)) <==>
            !(c.rooms[r].users[u].streaming && c.rooms[r].users.Keys != {u})
  {
    var room := c.rooms[r];
    var c1 := WithStreaming(c, r, u, true);
    var want := ViewersOf(c1.rooms[r], u);
    assert UniqueRoom(room) && SoundRoom(room) && CompleteRoom(room, {});
    assert StartsFresh(c1.rooms[r].sessions, starts);
    assert c1.rooms[r].users.Keys == room.users.Keys;
    UniqueElsewhere(c, c1, r);
    hide Sound, Complete, Distinct, StartsFresh;
    if room.users[u].streaming && room.users.Keys != {u} {
      var others := room.users.Keys - {u};
      assert room.users.Keys == {u} + others;
      var v :| v in others;
      assert HasSession(room, u, v);
      SameHas(room, c1.rooms[r], u, v);
      hide UniqueRoom, SoundRoom, CompleteRoom;
      OpenSessionsDuplicate(c1, r, starts, want, (u, v));
    } else {
      forall p | p in want ensures !HasSession(c1.rooms[r], p.0, p.1) {
        SameHas(room, c1.rooms[r], p.0, p.1);
        assert p.1 in room.users.Keys && p.1 != u;
      }
      hide UniqueRoom, SoundRoom, CompleteRoom;
      OpenSessionsUnique(c1, r, starts, want);
    }
    UniqueElsewhere(c1, OpenSessions(c1, r, starts), r);
  }

  lemma SameHas(room: RoomState, room': RoomState, h: Id, v: Id)
    requires room'.sessions == room.sessions
    ensures HasSession(room', h, v) <==> HasSession(room, h, v)
  {
  }

  lemma {:induction false} InRoomUnique(conf: Config, c: Core, u: Id, e: Event, ch: Choice)
    requires TablesOk(conf, c, {}) && Member(c, u) && Unique(c)
    requires e.Name? || e.StartShare? || e.StopShare? || e.Relay?
    requires InRoomLegal(c, c.connected[u], u, e, ch)
    ensures var room := c.rooms[c.connected[u]];
      Unique(ExecuteInRoom(c, c.connected[u], u, e, ch).core) <==>
      !(e.StartShare? && ch.ip.IpFound? && room.users[u].streaming && room.users.Keys != {u})
  {
    var r := c.connected[u];
    if e.StartShare? && ch.ip.IpFound? {
      hide Unique, Sound, Complete, Distinct, IsBroadcast;
      ShareUnique(c, r, u, ch.starts);
    } else {
      hide TablesOk, ExecuteInRoom, InRoomLegal;
      QuietUnique(c, r, u, e, ch);
    }
  }

  lemma QuietUnique(c: Core, r: string, u: Id, e: Event, ch: Choice)
    requires Unique(c) && r in c.rooms && (e.Name? || e.StartShare? || e.StopShare? || e.Relay?)
    requires e.StartShare? ==> ch.ip.IpError?
    ensures Unique(ExecuteInRoom(c, r, u, e, ch).core)
  {
    assert UniqueRoom(c.rooms[r]);
    var c' := ExecuteInRoom(c, r, u, e, ch).core;
    assert UniqueRoom(c'.rooms[r]);
    UniqueElsewhere(c, c', r);
  }

  lemma {:induction false} CreateUnique(conf: Config, c: Core, info: ClientInfo, e: Event, ch: Choice)
    requires TablesOk(conf, c, {}) && info.id in c.connected && info.id in c.clients && c.clients[info.id] == info
    requires e.Create? && CreateLegal(conf, c, info, e, ch) && Unique(c)
    ensures Unique(ExecuteCreate(conf, c, info, e, ch).core)
  {
    hide TablesOk, ExecuteJoin, JoinLegal, IsBroadcast, JoinError;
    if Delegates(c, info, e) {
      JoinUnique(conf, c, info, e.id, e.userName, ch);
    }
  }

  lemma {:induction false} ExecuteUnique(conf: Config, c: Core, m: ClientMessage, ch: Choice)
    requires TablesOk(conf, c, {}) && !m.event.Connected? && Unique(c)
    requires m.info.id in c.connected && m.info.id in c.clients && c.clients[m.info.id] == m.info
    requires ExecuteLegal(conf, c, m, ch)
    ensures Unique(Execute(conf, c, m, ch).core) <==> !Reshares(c, m, ch)
    ensures Reshares(c, m, ch) ==> Execute(conf, c, m, ch).verdict.Done?
  {
    hide TablesOk, ExecuteJoin, JoinLegal, ExecuteCreate, CreateLegal, InRoomLegal, Hangup, HangupMail;
    hide HangupLegal, Unique;
    var u := m.info.id;
    OkIsSound(conf, c, {});
    match m.event
    case Disconnected(_, _) =>
      HangupUnique(c, u);
    case Join(id, userName) =>
      JoinUnique(conf, c, m.info, id, userName, ch);
    case Create(_, _, _, _, _) =>
      CreateUnique(conf, c, m.info, m.event, ch);
    case _ =>
      if CurrentRoomError(c, u) == None {
        InRoomUnique(conf, c, u, m.event, ch);
      }
  }

  /** From a state without duplicates, exactly one kind of event makes one. */
  lemma {:induction false} StepUnique(conf: Config, s: State, m: ClientMessage, ch: Choice)
    requires TablesOk(conf, s.core, {}) && StepLegal(conf, s, m, ch) && Unique(s.core)
    ensures Unique(Step(conf, s, m, ch).core) <==> !Reshares(s.core, m, ch)
  {
    var c := s.core;
    if m.event.Connected? {
      hide TablesOk;
      assert Step(conf, s, m, ch).core.rooms == c.rooms;
    } else if m.info.id in c.connected {
      var o := Execute(conf, c, m, ch);
      ExecuteUnique(conf, c, m, ch);
      ExecuteKeeps(conf, c, m, ch);
      if o.verdict.Failed? {
        HangupUnique(o.core, m.info.id);
      }
      hide Unique, TablesOk, Execute, ExecuteLegal, Hangup;
    } else {
      hide TablesOk;
    }
  }

  /** No step of the run was a StartShare of somebody who already streams to others. */
  ghost predicate NeverReshares(conf: Config, its: seq<Iteration>) {
    its != [] ==>
      && NeverReshares(conf, its[..|its| - 1])
      && !Reshares(Run(conf, its[..|its| - 1]).core, its[|its| - 1].m, its[|its| - 1].ch)
  }

  /** A run never sees a duplicate exactly if nobody in it shares again. */
  lemma {:induction false} RunUnique(conf: Config, its: seq<Iteration>)
    requires RunLegal(conf, its)
    ensures (forall n | 0 <= n <= |its| :: Unique(Run(conf, its[..n]).core)) <==> NeverReshares(conf, its)
    ensures NeverReshares(conf, its) ==> Unique(Run(conf, its).core)
  {
    hide StepLegal, Step, Unique, Reshares;
    assert its[..|its|] == its;
    if its == [] {
      NothingIsUnique(conf);
    } else {
      var k := |its| - 1;
      RunUnique(conf, its[..k]);
      RunKeeps(conf, its[..k]);
      forall n | 0 <= n <= k ensures its[..k][..n] == its[..n] {
      }
      if Unique(Run(conf, its[..k]).core) {
        StepUnique(conf, Run(conf, its[..k]), its[k].m, its[k].ch);
      }
      assert forall n | 0 <= n <= |its| :: n <= k || its[..n] == its;
    }
  }

  lemma NothingIsUnique(conf: Config)
    ensures Unique(Run(conf, []).core)
  {
  }
}
