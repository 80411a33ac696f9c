# Verification of the screego room server

A Dafny model of screego's signalling server: rooms, members, screen-sharing sessions, the TURN credentials that
belong to them, and the messages that clients are sent. Three smaller parts follow: the `once` that decides who closes
a client, the 16-bit choice of a relay port, and the cached lookup of the server's own address.

Verify everything with `dafny verify dfyconfig.toml`.

## How it is built

The room server is written twice.

* `Protocol` is the server as a function on values. `Step` is one turn of the event loop: the connected check, the
  handler, and the forced disconnect on an error. What the program leaves open is a `Choice`: fresh session ids,
  passwords, random names, whether the IP lookup fails, the order of every walk over a Go map, and the place of equal
  elements in a sort. `StepLegal` says which choices are possible and what clients can send; `Run` folds steps from the
  empty server. Every message sent, and every completed StopShare, is a line of a transcript.
* `Server` (with `TurnServer` and `ViewOrder`) is the server as the program has it: classes `Rooms`, `Room`, `User` and
  `InternalServer` whose maps are updated in place, loops that pick map keys in any order, a sort of the user list.
  Each method is proved to do what its function in `Protocol` says, for a choice that `StepLegal` allows;
  `Server.Rooms.Start` concludes that the event loop performs a legal `Run`, so every theorem about runs holds for it.
  Since `Handle` always finds a choice, `StepLegal` shuts out no message that can arrive.

`Tables`, `Handlers` and `Safety` hold the invariant of the tables. `Mirror` is a reference client that folds the
messages it is sent, and `Knowledge` the invariant that ties it to the tables. `Isolation`, `Counting` and `Uniqueness`
are about single rooms, counters and duplicate sessions. `Outcomes` holds the facts on values that the methods of
`Server` use. Many proofs begin with `hide`, which keeps definitions they do not need out of the solver's way; nothing
is assumed by it. The results are collected in `Theorems` (over runs and the states they reach) and `Steps` (over single
steps from any good state); `Witnesses` holds concrete runs.

`Refusals`, `Effects` and `Announcements` describe each message a second time, independently of the functions of
`Protocol` that compute its effect: whether it is refused and with which text, what the tables are afterwards, field by
field, and what is sent in which order. Texts, modes and numbers are literal there.

## What the proofs found

* **The room id `""`.** `Create` accepts it (ws/event_create.go:28-66), but in the connection table `""` means "in no
  room". So a member of that room is never taken off it, the room never closes (`Theorems.EmptyIdStays`), a client can
  enter it again and again, and clients hear about a room they are not in, even after they have gone.
  `Steps.StrayExactly` says exactly when a step writes to somebody who is gone, or about a room it is not in: when
  somebody enters the room `""` while that client is in its user table; `Counting.RunDrift` says exactly how far the
  user counter is off. `Witnesses.GoneButNotLeft` and `Witnesses.CountedTwice` are runs in which both happen. Theorems
  that would fail because of this ask for `r != ""` or for the absence of the room `""`; sessions and credentials are
  not affected, because nobody can share in that room.
* **Sharing twice.** `StartShare` does not look whether the sender already streams (ws/event_share.go:17-29), so a
  second one duplicates all its sessions. `Uniqueness.StepUnique` states that this is the only event that does, with
  the exact condition, `Uniqueness.RunUnique` says the same of whole runs, and `Witnesses.SharesTwice` is a run with a
  duplicate. Without one the number of sessions is streamers times other members.
* **Leaving `once` early.** A caller that loses does not wait for the winner. `Once.LeavesEarlyExactly` says when it
  leaves before the connection is closed: exactly while the winner is on its way through `f`. It does happen
  (`Once.LoserMayReturnFirst`), but not to a caller that comes after the winner is back
  (`Once.LateCallerFindsItClosed`). At most one close is guaranteed in any case.

## Model

| member | source | states |
|---|---|---|
| Server.Rooms.Start | ws/rooms.go:99-112 | the loop over any feed of messages performs a legal run of the model with exactly those messages, and ends in its state, which is thus `Reachable` |
| Server.Rooms.Handle | ws/rooms.go:101-110 | one turn: tables and transcript are those of `Step` for a legal choice, and the table invariant is kept |
| Server.Rooms.HangUp | ws/event_disconnected.go:17-27 | the sender is off the connection table, was sent CloseWriter first, and left its room as `Hangup` says |
| Server.Rooms.Connect | ws/event_connected.go:5-8 | the client is connected and in no room |
| Server.Rooms.Disconnect | ws/event_disconnected.go:12-15 | a Disconnected event never fails and hangs up with its own code and reason |
| Server.Rooms.RemoveUserFromRoom | ws/rooms.go:142-174 | missing room or user: nothing; else sessions end, the user goes, and the room is closed or the others told, as `Leave` says |
| Server.Rooms.CloseRoom | ws/rooms.go:181-202 | members off the connection table with one CloseWriter each, all sessions and keys gone, counters in bulk, room gone |
| Server.Rooms.JoinRoom | ws/event_join.go:18-65 | admission, broadcast, then the IP lookup whose failure leaves the member in, then a session from every streamer |
| Server.Rooms.CreateRoom | ws/event_create.go:23-71 | delegation to Join, refusal, or a new room with its owner, in the checks' order |
| Server.Rooms.Rename | ws/event_name.go:13-23 | the name changes in place and everybody is told |
| Server.Rooms.Share | ws/event_share.go:11-33 | streaming is set before the IP lookup; on success one session to every other member, then the broadcast |
| Server.Rooms.Unshare | ws/event_stop_share.go:11-21 | streaming off, hosted sessions ended with their notices, then the broadcast |
| Server.Rooms.RelaySignal | ws/event_hostoffer.go:18-38 | unknown session: nothing; wrong side: error; else the message to the other end, which exists |
| Server.Rooms.CurrentRoomMeans | ws/rooms.go:58-72 | the lookup errs exactly as the model says, and otherwise yields the sender's room |
| Server.Room.CloseUserSessions | ws/room.go:112-130 | deleting while ranging, in any order, ends exactly the sessions of the user on either side and tells each present peer in that order |
| Server.Room.CloseHostSessions | ws/room.go:136-148 | the same for the sessions the user hosts |
| Server.Room.CloseAllSessions | ws/room.go:154-158 | no session and none of their keys remain; one counted close each; nobody is told |
| Server.Room.CloseSession | ws/room.go:85-92 | the session is gone, and with it both keys in turn mode and no other key |
| Server.Room.RemoveUser | ws/room.go:98-105 | whether the user was there, the map without it, and the counter only if it was |
| Server.Room.NewSession | ws/room.go:36-67 | a fresh id, the session, both credentials in turn mode, and the two invitations that carry them |
| Server.Room.OpenFromStreamers | ws/event_join.go:57-62 | the loop opens exactly one session for each pair (streaming other, newcomer), ids fresh and distinct |
| Server.Room.OpenToOthers | ws/event_share.go:24-29 | the loop opens exactly one session for each pair (sharer, other member) |
| Server.Room.NotifyInfoChanged | ws/room.go:165-198 | each member is sent one sorted view of all members |
| Server.Room.ViewFor | ws/room.go:167-191 | the view lists every user once with its own flags, `you` on the reader only, sorted |
| Server.IdSource.New | ws/room.go:37 | an id never drawn before |
| ViewOrder.SortViews | ws/room.go:178-191 | a sorted permutation |
| ViewOrder.LessIsStrictWeakOrder | ws/room.go:178-191 | the comparison is what sort.Slice needs, and ties are equal in all three keys |
| TurnServer.InternalServer.Credentials | turn/server.go:173-177 | the name and password returned are the ones that will be accepted |
| TurnServer.InternalServer.Allow | turn/server.go:138-145 | the entry of that name, and no other, is replaced |
| TurnServer.InternalServer.Disallow | turn/server.go:147-152 | that name, and no other, is gone |
| TurnServer.InternalServer.Authenticate | turn/server.go:158-171 | the stored key of a known name, whatever realm and address are claimed |
| Safety.StepKeeps | ws/rooms.go:99-112 | every legal turn, failing ones included, keeps the invariant of the tables, and no handler dereferences a missing user |
| Safety.RunKeeps | ws/rooms.go:99-112 | the invariant holds after every run |
| Safety.JoinKeeps | ws/event_join.go:18-65 | Join keeps the invariant, up to the newcomer's sessions if the lookup failed after it was added |
| Safety.HangupKeeps | ws/event_disconnected.go:17-27 | the forced disconnect restores the full invariant after such a failure |
| Theorems.MembershipAgreement | ws/rooms.go:142-202 | for r not empty, u is a user of r if and only if connected[u] is r; stored ids equal keys; no empty room |
| Theorems.NoPanic | ws/event_name.go:19 | in no reachable state does a handler use a user that is not there |
| Theorems.SessionsFollowStreams | ws/event_join.go:52-62 | h has a session to v if and only if both are members, distinct, and h streams |
| Theorems.RoomSessionCount | ws/event_join.go:57-62 | a room has at least streamers times (users minus 1) sessions |
| Theorems.ExactSessionCount | ws/event_share.go:24-29 | it has exactly that many after a run in which nobody shares while streaming to others |
| Refusals.AdmitsExactly | ws/auth.go:12-28 | who may enter a room, by the auth mode, the room's mode and the login, if and only if; and the text for the others |
| Refusals.FailsExactly | ws/rooms.go:107-110 | a handler fails if and only if its message is refused or the address it needs is not found, and with which text |
| Refusals.Refused | ws/rooms.go:107-110 | a refused message is exactly a disconnection with code 1000 and that text |
| Refusals.DisconnectTellsWhy | ws/event_disconnected.go:17-20 | the first message after a Disconnected is its sender's CloseWriter with its code and reason, the only one and its last message |
| Refusals.FailureTellsWhy | ws/rooms.go:107-110 | in each failing case, given by tables and message, the sender gets one CloseWriter with code 1000 and that case's text, and is off the connection table |
| Effects.Connects | ws/event_connected.go:5-8 | a new client is connected, in no room, and is sent nothing |
| Effects.IgnoresStrangers | ws/rooms.go:101-105 | a message of a client that is gone changes nothing |
| Effects.Creates | ws/event_create.go:28-71 | the room has the mode and the CloseOnOwnerLeave asked for, the sender as its only user and owner under the name due, and no session; nothing else changes; the sender is sent that view |
| Effects.HandsOver | ws/event_create.go:28-32 | with JoinIfExist, Create of an existing room is Join in tables and mail |
| Effects.Joins | ws/event_join.go:32-62 | the newcomer is a plain member under the name due, with one new session from each streaming member; nothing else changes |
| Effects.JoinThatFails | ws/event_join.go:52-55 | without an address nothing is left of the join but two counts, except in the room "" |
| Effects.EntersUnderItsName | ws/event_join.go:32-38 | by Join or either kind of Create: the login name of a client that is logged in, the name asked for by one that is not, a random name where that is empty |
| Effects.Shares | ws/event_share.go:11-29 | the sender streams and has one new session to each other member; nothing else changes |
| Effects.ShareThatFails | ws/event_share.go:17-22 | without an address, sharing is exactly a disconnection, and nobody saw the sender stream |
| Effects.StopsSharing | ws/event_stop_share.go:11-21 | the sender does not stream, the sessions it hosts are gone with their keys and are counted; nothing else changes |
| Effects.Disconnects | ws/rooms.go:142-202 | where the room closes, all its members, sessions, keys and the room go and are counted; else exactly the leaver and its sessions and keys |
| Effects.Renames | ws/event_name.go:13-23 | the sender has the new name, and nothing else changes |
| Effects.RenameIsSeen | ws/event_name.go:13-23 | in a reachable state, the last view of every member of the room shows the new name afterwards |
| Effects.RoomKindStays | ws/event_create.go:49-52 | no step changes the id, the mode or CloseOnOwnerLeave of a room that stays |
| Announcements.JoinTells | ws/event_join.go:49-62 | first each member is sent once the room with the newcomer, everybody in it as it is, then come two invitations for each new session, to its ends |
| Announcements.FailedJoinTells | ws/event_join.go:49-55 | the members see the newcomer before it is told to go |
| Announcements.ShareTells | ws/event_share.go:24-31 | first two invitations for each new session, then the room to each member |
| Announcements.RenameTells | ws/event_name.go:21 | exactly the room to each member |
| Announcements.StopTells | ws/event_stop_share.go:17-19 | one EndShare for each hosted session, to its viewer, no other, and then the room to each member |
| Announcements.DisconnectTellsPeers | ws/room.go:112-130 | one EndShare for each session of the leaver, to its other end, and no other |
| Announcements.DisconnectTells | ws/rooms.go:167-173 | if the room goes on, each member that stays is sent it once, after the notices |
| Theorems.AuthenticateExactly | turn/server.go:158-171 | a name authenticates if and only if it is id+"host" or id+"client" of a live session of a turn-mode room: none leaked, none missing |
| Theorems.EntryAddresses | ws/room.go:52-53 | the two entries of such a session hold the addresses with which its two ends connected |
| Theorems.CredentialsWork | ws/room.go:44-66 | each live session came to its ends with no server, STUN or TURN as the room's mode says, and in mode turn with the name and password the TURN server accepts for that client |
| Theorems.OneOwner | ws/event_create.go:54-59 | at most one owner, exactly one where the room closes with it |
| Theorems.MembersAdmitted | ws/auth.go:12-28 | every member passed the check: logged in in mode "all", and in mode "turn" unless the room is local or stun; with an unknown mode there are no members |
| Theorems.CredentialsForLoggedIn | ws/auth.go:20-23 | in mode "turn" both ends of a session with credentials are logged in |
| Theorems.ClientMirror | ws/room.go:65-66 | ClientSession minus EndShare, and HostSession since the last StopShare minus EndShare, are exactly a client's live sessions with the right peer |
| Theorems.CloseWriterIsFinal | ws/event_disconnected.go:17-27 | at most one CloseWriter per client, connected exactly until then, and without a room "" nothing after it |
| Theorems.ViewsAreFresh | ws/room.go:165-198 | the last view a member was sent of its room is the room as it is now |
| Theorems.MembersSee | ws/room.go:165-198 | so it contains every member with its current name and flags |
| Theorems.ViewShowsEverybody | ws/room.go:168-191 | such a view contains every user with its current id, name and flags, marks the reader alone, and puts owners first |
| ViewOrder.StringLessExactly | ws/room.go:190 | the order of names is lexicographic, a proper prefix first |
| ViewOrder.SortedMeans | ws/room.go:178-191 | owners before others, then streaming users, then by name |
| Theorems.Conservation | ws/rooms.go:195-201 | created minus closed is what exists, for rooms and sessions; joined minus left is the membership without a room "", and never less |
| Theorems.EmptyIdStays | ws/event_disconnected.go:22-24 | the room "" never goes and never loses a user |
| Theorems.RejoinedNeedsEmptyId | ws/event_join.go:19-21 | while there is no room "", no step of the run was a rejoin |
| Knowledge.RunClient | ws/rooms.go:99-112 | the mirror invariant, for every client over every run |
| Knowledge.StepClient | ws/rooms.go:99-112 | one turn keeps what every client knows in agreement with the tables |
| Steps.EachEndShareOnce | ws/room.go:112-130 | in any order, one EndShare per closed session to its surviving peer, and to nobody else |
| Steps.LeaveOrderDoesNotMatter | ws/room.go:112-130 | two orders of walking the maps leave every other client with the same sessions, closes and last room, and with views of the same users that differ in the order of ties only |
| Steps.Teardown | ws/rooms.go:153-171 | leaving removes the room if and only if the closing owner or the last member goes; then members, sessions and credentials go too, else exactly the leaver and its sessions |
| Steps.TeardownMail | ws/rooms.go:188-194 | each thrown-out member is sent CloseWriter "Owner Left" once, as its last message |
| Steps.RelayCases | ws/event_clientanswer.go:18-38 | a relayed message reaches the opposite end in the sender's own room and changes no table; any other sender is disconnected |
| Steps.RelayedWithinSession | ws/event_hostoffer.go:24-35 | a relayed message only reaches a client whose own messages so far name the session, on the right side and with the sender at the other end |
| Steps.StrayExactly | ws/event_join.go:40-48 | a step writes to somebody else who is gone or is in another room if and only if somebody enters room "" and that client is in its user table |
| Steps.LateExactly | ws/event_join.go:40-48 | the same for a client that is gone, whoever sends |
| Witnesses.GoneButNotLeft | ws/event_disconnected.go:22-24 | a reachable state in which a client has gone, is still a member, and was written to after its CloseWriter |
| Witnesses.CountedTwice | ws/event_join.go:19-21 | a reachable state in which a member of room "" was counted twice |
| Witnesses.SharesTwice | ws/event_share.go:17-29 | a reachable state with two sessions for one pair, and the second StartShare that makes it |
| Witnesses.TurnIsReachable | ws/event_create.go:49-52 | a reachable state with auth mode "turn" in which a turn-mode room that closes with its owner has two members and a session with both keys |
| Isolation.StepLocal | ws/rooms.go:107-110 | a step changes no other room, no other room's keys, nobody else's connection, and writes to nobody else |
| Uniqueness.StepUnique | ws/event_share.go:17-29 | from a state without duplicate sessions, a step makes one if and only if somebody shares again with others present |
| Uniqueness.RunUnique | ws/event_share.go:17-29 | no state of a run has two sessions for a pair if and only if nobody of the run shares again |
| Counting.RunDrift | ws/room.go:42 | the counters of rooms and sessions are exact after every run, that of users up to the counted rejoins |
| Tables.KeysAreDistinct | ws/room.go:52-53 | id+"host" and id+"client" never collide, for any two ids |
| Mirror.ReplayNotices | ws/room.go:114-128 | a peer that reads the EndShare messages forgets exactly the sessions announced to it |
| Once.ExactlyOneWinner | ws/once.go:19-36 | in every interleaving exactly one caller wins once done is 1, and none before |
| Once.AtMostOneClose | ws/client.go:71-97 | at most one Disconnected is posted and one close frame written, and a post only by a CloseOnError |
| Once.OnceEverybodyIsBack | ws/client.go:72-91 | when all callers are back there was exactly one frame, and one post if the winner had an error |
| Once.NobodyIsStuck | ws/once.go:28-36 | while a caller is inside, some caller can go on |
| Once.LeavesEarlyExactly | ws/once.go:12-26 | in every schedule, a loser that leaves does so before the close frame if and only if the winner has not come back from f |
| Once.LateCallerFindsItClosed | ws/once.go:20-22 | whoever calls after the winner is back never executes and finds the close frame written |
| Once.LoserMayReturnFirst | ws/once.go:12-13 | a schedule in which a loser leaves before f has done anything |
| Once.DecidedKept | ws/once.go:19-36 | every atomic step keeps the invariant on winner, lock, posts and frames |
| PortRange.RoundTrip | config/config.go:73-94 | any two 16-bit numbers written as min:max are read back |
| PortRange.ParsesExactly | config/config.go:73-94 | a text is read as a pair if and only if it is empty, read as 0:0, or two decimal 16-bit numbers around one colon |
| PortRange.PassesExactly | config/config.go:208-222 | exactly the empty text, 0:0 and 1 <= min <= max get no fatal log |
| PortRange.AcceptedRange | config/config.go:208-222 | a setting without a fatal log gives no range or 1 <= min <= max <= 65535 |
| PortRange.EveryRangeIsAccepted | config/config.go:208-222 | every such range is let pass, with the warning below 40 |
| PortRange.OffsetsNamePorts | turn/portrange.go:36 | offset to port is a bijection onto min..max, also where max+1 wraps |
| PortRange.RelayAddressGeneratorPortRange.AllocatePacketConn | turn/portrange.go:25-47 | a requested port is tried once; else at most ten ports of the range, the first free one, or an error after ten failures |
| IpDns.DNS.Query | config/ipdns/dns.go:54-77 | v4 is the earliest address without a colon if there is one, v6 the earliest with one; an error if there is neither, or the resolver's own |
| IpDns.FirstIsEarliest | config/ipdns/dns.go:63-70 | what the loop keeps is the earliest of its family, and none only if there is none |
| IpDns.DNS.Get | config/ipdns/dns.go:27-51 | past the deadline, what the lookup picked, and a deadline 60 s or 1 s ahead; before it, the cached fields unchanged |
| IpDns.NextLookup | config/ipdns/dns.go:31-46 | after a lookup the next one is the first call more than 60 s, or 1 s after a failure, later |
| IpDns.LookupsApart | config/ipdns/dns.go:31-46 | any two lookups start that far apart |
| IpDns.ReturnsLastLookup | config/ipdns/dns.go:50 | in every sequence of calls, a call returns what the last lookup picked out of its answer, family by family |
| IpDns.NoErrorMeansAddress | config/ipdns/dns.go:72-76 | in every sequence of calls, no error means a v4 or a v6 address, and an error means neither |

## Left out

- WebSocket upgrade, JSON, deadlines and pings: plumbing of libraries. What a client can send is `Protocol.Arrives`.
- Real time in `writeTimeout`: the transcript records what is sent; a message may be dropped after two seconds.
- Goroutines of the read and write loops: only their messages to the event loop and their calls of `once` are modelled.
- The four relay handlers are one method with the kind of message as a parameter, because they differ in the side that must send and in nothing else.
- Once is a state machine over atomic steps and not a class, because its claim is about interleavings.
- The text of the ICE URLs (`addresses`): string building. The mode, user name and credential of each ICE server are modelled.
- Ids are their printed text, because `xid` printing is injective; that a new one is fresh is `IdSource.New`. Client ids are drawn before the loop starts.
- `turn.GenerateAuthKey`, HMAC, bcrypt, session cookies: an auth key is the triple it is derived from, a login is a flag and a name.
- `ExternalServer` of turn/server.go: it has no table and revokes nothing.
- `Health` and `Count`: they only report the number of clients.
- Parsing of network addresses: an address is the text it prints as.
- The rest of config, the HTTP router, users, logger, command line and the `ui` client: plumbing, or not part of the server's protocol.
