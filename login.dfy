/**
 * The login service: turns the identity service's verdict on a token into a
 * player bound to the connection that presented it. Nothing is cached; each
 * authentication asks the identity service once.
 */
module Login {
  import opened Base
  import opened Decimal
  import MockAuth

  datatype AuthResult = Authenticated(player: Player) | AuthFailed(error: string)

  /** Authenticate, given the one VerifyToken reply it obtains for the token. */
  function Authenticate(reply: VerifyReply, client: ConnId): (r: AuthResult)
    ensures r.AuthFailed? <==> reply.VerifyFailed?
    ensures reply.VerifyFailed? ==> r.error == reply.error
    ensures reply.Verified? ==> r.player.id == reply.data.id && r.player.name == reply.data.name
    ensures reply.Verified? ==> r.player.client == client
  {
    match reply
    case VerifyFailed(e) => AuthFailed(e)
    case Verified(data) => Authenticated(Player(data.id, data.name, client))
  }

  /**
   * Authenticate against the mock identity client: exactly one VerifyToken
   * call per login, so two logins never yield the same player id.
   */
  method AuthenticateWithMock(auth: MockAuth.AuthClient, token: string, client: ConnId) returns (r: AuthResult)
    modifies auth
    ensures auth.counter == old(auth.counter) + 1
    ensures r == Authenticated(Player(IntToString(auth.counter), MockAuth.NamePrefix + IntToString(auth.counter), client))
  {
    var reply := auth.VerifyToken(token);
    r := Authenticate(reply, client);
  }

  /** Two successive logins through the mock client give different players. */
  method TwoLoginsDiffer(auth: MockAuth.AuthClient, token: string, client: ConnId)
    returns (first: AuthResult, second: AuthResult)
    modifies auth
    ensures first.Authenticated? && second.Authenticated?
    ensures first.player.id != second.player.id
    ensures auth.counter == old(auth.counter) + 2
  {
    first := AuthenticateWithMock(auth, token, client);
    second := AuthenticateWithMock(auth, token, client);
    MockAuth.MockUsersDistinct(auth.counter - 1, auth.counter);
  }
}
