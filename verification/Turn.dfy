/** The credential table of the built-in TURN server, updated in place. */
module TurnServer {
  import opened Domain
  import Protocol

  class InternalServer {
    var lookup: map<string, Protocol.Entry>

    constructor ()
      ensures lookup == map[]
    {
      lookup := map[];
    }

    method Allow(username: string, password: string, addr: string)
      modifies this
      ensures lookup == Protocol.Allow(old(lookup), username, password, addr)
    {
      lookup := lookup[username := Protocol.Entry(addr, Protocol.AuthKey(username, Protocol.REALM, password))];
    }

    method Disallow(username: string)
      modifies this
      ensures lookup == old(lookup) - {username}
    {
      lookup := lookup - {username};
    }

    /** The handler that pion calls: the key of a known user name, whatever the realm and address of the request. */
    method Authenticate(username: string, realm: string, addr: string) returns (key: Option<Protocol.AuthKey>)
      ensures key == Protocol.Authenticate(lookup, username)
    {
      if username !in lookup {
        return None;
      }
      return Some(lookup[username].key);
    }

    /** A random password of the given length. */
    method RandString(length: nat) returns (password: string)
      ensures |password| == length
    {
      password := [];
      while |password| < length
        invariant |password| <= length
      {
        var c: char := *;
        password := password + [c];
      }
    }

    /** A new password for id; what is returned is what will be accepted. */
    method Credentials(id: string, addr: string) returns (username: string, password: string)
      modifies this
      ensures username == id && |password| == 20
      ensures lookup == Protocol.Allow(old(lookup), id, password, addr)
      ensures Protocol.Authenticate(lookup, username) == Some(Protocol.AuthKey(username, Protocol.REALM, password))
    {
      password := RandString(20);
      Allow(id, password, addr);
      username := id;
    }
  }
}
