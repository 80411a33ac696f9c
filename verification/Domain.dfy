/** The vocabulary of the room server: ids, messages in, messages out. */
module Domain {

  datatype Option<+T> = None | Some(value: T)

  // An xid.ID. Printing one is injective, so an id is identified with its text.
  type Id = string

  datatype ClientInfo = ClientInfo(id: Id, authenticated: bool, authenticatedUser: string, addr: string)

  // The four WebRTC messages the server only passes on.
  datatype Signal = HostOffer | HostICE | ClientAnswer | ClientICE {
    predicate FromHost() {
      HostOffer? || HostICE?
    }
  }

  datatype Event =
    | Connected
    | Disconnected(code: int, reason: string)
    | Create(id: string, mode: string, closeOnOwnerLeave: bool, userName: string, joinIfExist: bool)
    | Join(id: string, userName: string)
    | Name(userName: string)
    | StartShare
    | StopShare
    | Relay(signal: Signal, sid: Id, value: string)

  datatype ClientMessage = ClientMessage(info: ClientInfo, skipConnectedCheck: bool, event: Event)

  datatype UserView = UserView(id: Id, name: string, streaming: bool, you: bool, owner: bool)

  // The ICE servers of a session; the URLs are left out.
  datatype Ice = NoServers | Stun | Turn(username: string, credential: string)

  datatype Message =
    | RoomInfo(id: string, users: seq<UserView>)
    | HostSession(id: Id, peer: Id, ice: Ice)
    | ClientSession(id: Id, peer: Id, ice: Ice)
    | EndShare(id: Id)
    | Relayed(signal: Signal, sid: Id, value: string)
    | CloseWriter(code: int, reason: string)

  // One line of the server's transcript: a message sent to a client, or the mark
  // that a StopShare of that client was carried out.
  datatype Item = Sent(msg: Message) | StopShareDone

  datatype Envelope = Envelope(to: Id, item: Item)
}
