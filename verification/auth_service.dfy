/**
  The client's session: after a login reply carrying a token, the token and the user name
  are kept in the browser's local storage under 'token' and 'username'. Logging out
  removes both. The client counts as signed in while a non-empty token is stored.
*/
module AuthService {
  import opened Common
  import AuthRoutes

  const TokenKey := "token"
  const UsernameKey := "username"

  /** The storage after a login reply: both keys are written only when the reply holds a token. */
  function Stored(items: map<string, string>, reply: AuthRoutes.LoginReply): (r: map<string, string>)
    ensures r.Keys == if reply.token != "" then items.Keys + {TokenKey, UsernameKey} else items.Keys
  {
    if reply.token != "" then items[TokenKey := reply.token][UsernameKey := reply.username] else items
  }

  /** `!!localStorage.getItem('token')`. */
  predicate SignedIn(items: map<string, string>)
  {
    TokenKey in items && items[TokenKey] != ""
  }

  /** `localStorage.getItem('username')`. */
  function UserOf(items: map<string, string>): (r: Option<string>)
    ensures r.Some? <==> UsernameKey in items
    ensures r.Some? ==> r.value == items[UsernameKey]
  {
    if UsernameKey in items then Some(items[UsernameKey]) else None
  }

  /** After a login reply with a token the client is signed in as the reply's user. */
  lemma LoginSignsIn(items: map<string, string>, reply: AuthRoutes.LoginReply)
    requires reply.token != ""
    ensures SignedIn(Stored(items, reply))
    ensures UserOf(Stored(items, reply)) == Some(reply.username)
    ensures Stored(items, reply)[TokenKey] == reply.token
  {
  }

  /** A login reply without a token leaves the storage as it was. */
  lemma TokenlessReplyStoresNothing(items: map<string, string>, reply: AuthRoutes.LoginReply)
    requires reply.token == ""
    ensures Stored(items, reply) == items
  {
  }

  /** After logging out the client is signed out and has no user; a second logout changes nothing. */
  lemma LogoutSignsOut(items: map<string, string>)
    ensures !SignedIn(items - {TokenKey, UsernameKey})
    ensures UserOf(items - {TokenKey, UsernameKey}) == None
    ensures (items - {TokenKey, UsernameKey}) - {TokenKey, UsernameKey} == items - {TokenKey, UsernameKey}
  {
  }

  /** Only the two session keys are touched by a login. */
  lemma LoginKeepsOtherKeys(items: map<string, string>, reply: AuthRoutes.LoginReply, k: string)
    requires k != TokenKey && k != UsernameKey
    ensures k in Stored(items, reply) <==> k in items
    ensures k in items ==> Stored(items, reply)[k] == items[k]
  {
  }

  /** The browser's local storage as the auth service uses it. */
  class SessionStorage {
    var items: map<string, string>

    constructor ()
      ensures items == map[]
    {
      items := map[];
    }

    /** `authService.login`: stores the session from the reply and hands the reply back. */
    method Login(reply: AuthRoutes.LoginReply) returns (r: AuthRoutes.LoginReply)
      modifies this
      ensures r == reply
      ensures items == Stored(old(items), reply)
    {
      if reply.token != "" {
        items := items[TokenKey := reply.token];
        items := items[UsernameKey := reply.username];
      }
      r := reply;
    }

    /** `authService.logout`: removes both session keys and nothing else. */
    method Logout()
      modifies this
      ensures items == old(items) - {TokenKey, UsernameKey}
    {
      items := items - {TokenKey};
      items := items - {UsernameKey};
    }

    /** `authService.getCurrentUser`. */
    method CurrentUser() returns (r: Option<string>)
      ensures r.Some? <==> UsernameKey in items
      ensures r.Some? ==> r.value == items[UsernameKey]
    {
      if UsernameKey in items {
        r := Some(items[UsernameKey]);
      } else {
        r := None;
      }
    }

    /** `authService.isAuthenticated`. */
    method IsAuthenticated() returns (b: bool)
      ensures b <==> TokenKey in items && items[TokenKey] != ""
    {
      b := TokenKey in items && items[TokenKey] != "";
    }
  }
}
