/**
 * The mock identity client: it ignores the token and issues a fresh user for
 * every call, numbered by a counter that starts at 1000000.
 */
module MockAuth {
  import opened Base
  import opened Decimal

  const InitialCounter: int := 1000000
  const NamePrefix: string := "MockPlayer"

  /** The user issued when the counter has reached n. */
  function MockUser(n: int): (u: UserData)
    ensures u.id == IntToString(n) && u.name == NamePrefix + u.id
    ensures Atoi(u.id).value == n || n < MinInt64 || n > MaxInt64
  {
    var id := IntToString(n);
    AtoiItoa(if MinInt64 <= n <= MaxInt64 then n else 0);
    UserData(id, NamePrefix + id)
  }

  /** Users issued at different counter values have different ids. */
  lemma MockUsersDistinct(a: int, b: int)
    requires a != b
    ensures MockUser(a).id != MockUser(b).id
  {
    IntToStringInjective(a, b);
  }

  /** The first user a fresh client issues is "1000001". */
  lemma FirstIssuedId()
    ensures MockUser(InitialCounter + 1).id == "1000001"
  {
    assert NatToString(1) == "1";
    assert NatToString(10) == "10";
    assert NatToString(100) == "100";
    assert NatToString(1000) == "1000";
    assert NatToString(10000) == "10000";
    assert NatToString(100000) == "100000";
    assert NatToString(1000001) == "1000001";
  }

  class AuthClient {
    /** counterID: the number of the last user issued. */
    var counter: int

    /** NewAuthClient. */
    constructor ()
      ensures counter == InitialCounter
    {
      counter := InitialCounter;
    }

    /** VerifyToken: always succeeds, whatever the token, with the next user. */
    method VerifyToken(token: string) returns (reply: VerifyReply)
      modifies this
      ensures counter == old(counter) + 1
      ensures reply == Verified(MockUser(counter))
    {
      counter := counter + 1;
      reply := Verified(MockUser(counter));
    }
  }
}
