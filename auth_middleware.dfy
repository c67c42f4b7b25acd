/** The bearer-token gate in front of the protected routes: a request without a
    `Bearer ` header is refused as unauthenticated; a token that does not verify, or a
    lookup that throws, is refused as invalid; a verified token whose user id names no
    active user is refused as unknown; anything else is admitted with the user's row.
    Token verification is a parameter: the signature check is not part of this model. */
module AuthGate {
  import opened Wrappers
  import opened Strings
  import opened Js
  import opened Http
  import opened Tables

  const BearerPrefix := "Bearer "
  const AuthenticationRequired := HttpError(401, "Authentication required")
  const InvalidToken := HttpError(401, "Invalid token")
  const UserNotFound := HttpError(401, "User not found")

  /** The columns the lookup selects: `id, name, age`. */
  datatype AuthUser = AuthUser(id: Id, name: Option<string>, age: Value)

  datatype Gate = Refused(error: HttpError) | Admitted(user: AuthUser)

  /** The token of a bearer `Authorization` header: everything after its first seven
      characters. */
  function BearerToken(header: Option<string>): (t: Option<string>)
    ensures t.Some? <==> header.Some? && StartsWith(header.value, BearerPrefix)
    ensures t.Some? ==> header.value == BearerPrefix + t.value
  {
    if header.Some? && StartsWith(header.value, BearerPrefix) then
      assert header.value == header.value[..7] + header.value[7..];
      Some(header.value[7..])
    else None
  }

  /** A bearer header built from a token gives that token back. */
  lemma BearerTokenRoundTrip(token: string)
    ensures BearerToken(Some(BearerPrefix + token)) == Some(token)
  {
    var h := BearerPrefix + token;
    assert h[..|BearerPrefix|] == BearerPrefix;
    assert StartsWith(h, BearerPrefix);
    assert h[7..] == token;
  }

  /** A claim the lookup can bind without an error: a number, or a missing id that is
      bound as `NULL`. */
  predicate BindableClaim(claim: Value) {
    claim == Undefined || claim == Null || (claim.Atom? && claim.scalar.Num?)
  }

  /** `users` row `u` answers `WHERE id = claim AND is_active = true`. */
  predicate Answers(u: User, claim: Value) {
    claim.Atom? && claim.scalar.Num? && u.id == claim.scalar.n && u.isActive
  }

  /** The first row the lookup returns, projected on the selected columns. */
  function ActiveUser(users: seq<User>, claim: Value): (r: Option<AuthUser>)
    ensures r.None? <==> forall i :: 0 <= i < |users| ==> !Answers(users[i], claim)
    ensures r.Some? ==> exists i :: (0 <= i < |users| && Answers(users[i], claim)
      && r.value == AuthUser(users[i].id, users[i].name, users[i].age))
  {
    if users == [] then None
    else if Answers(users[0], claim) then Some(AuthUser(users[0].id, users[0].name, users[0].age))
    else
      var r := ActiveUser(users[1..], claim);
      assert forall i :: 1 <= i < |users| ==> users[i] == users[1..][i - 1];
      r
  }

  /** The middleware's decision. `verify` gives the claimed `userId` of a token that
      verifies; `users` is `None` when the request carries no usable database handle, so
      that the lookup throws. */
  function Decide(header: Option<string>, verify: string -> Option<Value>, users: Option<seq<User>>): (g: Gate)
    ensures BearerToken(header).None? ==> g == Refused(AuthenticationRequired)
    ensures BearerToken(header).Some? && verify(BearerToken(header).value).None? ==> g == Refused(InvalidToken)
    ensures users.None? && BearerToken(header).Some? ==> g.Refused? && g.error.status == 401
    ensures g.Admitted? ==> (BearerToken(header).Some? && users.Some?
      && verify(BearerToken(header).value) == Some(Atom(Num(g.user.id)))
      && exists i :: 0 <= i < |users.value| && users.value[i].id == g.user.id && users.value[i].isActive)
    ensures g == Refused(UserNotFound) <==> (BearerToken(header).Some? && users.Some?
      && verify(BearerToken(header).value).Some? && BindableClaim(verify(BearerToken(header).value).value)
      && forall i :: 0 <= i < |users.value| ==> !Answers(users.value[i], verify(BearerToken(header).value).value))
    ensures (BearerToken(header).Some? && verify(BearerToken(header).value).Some?
      && !BindableClaim(verify(BearerToken(header).value).value)) ==> g == Refused(InvalidToken)
    ensures (BearerToken(header).Some? && users.Some? && verify(BearerToken(header).value).Some?
      && ActiveUser(users.value, verify(BearerToken(header).value).value).Some?) ==>
        g == Admitted(ActiveUser(users.value, verify(BearerToken(header).value).value).value)
  {
    match BearerToken(header)
    case None => Refused(AuthenticationRequired)
    case Some(token) =>
      match verify(token)
      case None => Refused(InvalidToken)
      case Some(claim) =>
        if users.None? || !BindableClaim(claim) then Refused(InvalidToken)
        else match ActiveUser(users.value, claim)
          case None => Refused(UserNotFound)
          case Some(u) => Admitted(u)
  }

  /** Without a database handle no token, however valid, gets through. */
  lemma {:induction false} NoHandleAdmitsNobody(header: Option<string>, verify: string -> Option<Value>)
    ensures Decide(header, verify, None).Refused?
  {
    match BearerToken(header)
    case None =>
    case Some(token) =>
      if verify(token).Some? {
        assert Decide(header, verify, None) == Refused(InvalidToken);
      }
  }

  /** A request passing through the middleware. */
  class AuthRequest {
    const authorization: Option<string>
    var user: Option<AuthUser>
    var refusal: Option<HttpError>
    var nextCalls: nat

    constructor (authorization: Option<string>)
      ensures this.authorization == authorization
      ensures user.None? && refusal.None? && nextCalls == 0
    {
      this.authorization := authorization;
      user := None;
      refusal := None;
      nextCalls := 0;
    }

    /** `req.user = row; next()` on admission; a 401 answer and no `next` otherwise. */
    method Guard(verify: string -> Option<Value>, users: Option<seq<User>>)
      modifies this
      ensures Decide(authorization, verify, users).Admitted? ==>
        user == Some(Decide(authorization, verify, users).user) && nextCalls == old(nextCalls) + 1 && refusal == old(refusal)
      ensures Decide(authorization, verify, users).Refused? ==>
        refusal == Some(Decide(authorization, verify, users).error) && nextCalls == old(nextCalls) && user == old(user)
    {
      var g := Decide(authorization, verify, users);
      if g.Admitted? {
        user := Some(g.user);
        nextCalls := nextCalls + 1;
      } else {
        refusal := Some(g.error);
      }
    }
  }
}
