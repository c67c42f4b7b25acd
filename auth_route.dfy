/** The sign-in route: find a user by name or create one with an empty About-Me profile,
    audit which of the two happened, and answer with the claims of a seven-day token.
    Signing is foreign code; `secretSet` says whether the signing secret is configured,
    without which signing throws after the database work is done. */
module AuthRoute {
  import opened Wrappers
  import opened Js
  import opened Http
  import opened Tables
  import opened Audit

  const AuthenticationFailed := HttpError(500, "Authentication failed")
  const TokenLifetime := "7d"

  /** The claims the token carries. */
  datatype Claims = Claims(userId: Id, name: Option<string>, expiresIn: string)

  datatype AuthAnswer = AuthAnswer(token: Claims, user: User)

  /** The first user named `name`; a missing name is bound as `NULL`, which equals
      nothing. */
  function FindByName(users: seq<User>, name: Option<string>): (r: Option<nat>)
    ensures r.None? <==> name.None? || forall j :: 0 <= j < |users| ==> users[j].name != name
    ensures r.Some? ==> (r.value < |users| && name.Some? && users[r.value].name == name
      && forall j :: 0 <= j < r.value ==> users[j].name != name)
  {
    if name.None? || users == [] then None
    else if users[0].name == name then Some(0)
    else match FindByName(users[1..], name)
      case None => None
      case Some(k) => Some(k + 1)
  }

  function NewUser(id: Id, name: Option<string>, age: Value, now: string): User {
    User(id, name, Stored(age), now, 0, true)
  }

  function EmptyProfile(id: Id, userId: Id): AboutMe {
    AboutMe(id, userId, Null, Null, Null, Null, 0)
  }

  /** The users table after `UPDATE users SET last_visit = now WHERE id = userId`. */
  function TouchLastVisit(users: seq<User>, userId: Id, now: string): (r: seq<User>)
    ensures |r| == |users|
    ensures forall i :: 0 <= i < |users| ==> r[i].id == users[i].id && r[i].name == users[i].name
    ensures forall i :: 0 <= i < |users| && users[i].id == userId ==> r[i] == users[i].(lastVisit := now)
    ensures forall i :: 0 <= i < |users| && users[i].id != userId ==> r[i] == users[i]
  {
    seq(|users|, i requires 0 <= i < |users| => if users[i].id == userId then users[i].(lastVisit := now) else users[i])
  }

  /** The users table after a sign-in with `name`. */
  function UsersAfterSignIn(users: seq<User>, name: Option<string>, age: Value, now: string): seq<User> {
    match FindByName(users, name)
    case None => users + [NewUser(NextId(|users|), name, age, now)]
    case Some(i) => TouchLastVisit(users, users[i].id, now)
  }

  /** `POST /users/auth`. */
  method SignIn(db: Database, name: Option<string>, age: Value, secretSet: bool, client: Client, now: string)
    returns (res: Result<AuthAnswer, HttpError>)
    modifies db
    ensures !db.reachable ==> res == Err(AuthenticationFailed) && db.tables == old(db.tables)
    ensures db.reachable ==> db.tables.users == UsersAfterSignIn(old(db.tables.users), name, age, now)
    ensures db.reachable && FindByName(old(db.tables.users), name).None? ==>
      var u := NewUser(NextId(|old(db.tables.users)|), name, age, now);
      && db.tables == old(db.tables).(
           users := old(db.tables.users) + [u],
           profiles := old(db.tables.profiles) + [EmptyProfile(NextId(|old(db.tables.profiles)|), u.id)],
           audit := Audited(old(db.tables.audit), LogRow(Atom(Num(u.id)), "USER_CREATED", "users", Atom(Num(u.id)), client, now), db.auditAccepts))
      && res == (if secretSet then Ok(AuthAnswer(Claims(u.id, name, TokenLifetime), u)) else Err(AuthenticationFailed))
    ensures db.reachable && FindByName(old(db.tables.users), name).Some? ==>
      var u := old(db.tables.users)[FindByName(old(db.tables.users), name).value];
      && db.tables == old(db.tables).(
           users := TouchLastVisit(old(db.tables.users), u.id, now),
           audit := Audited(old(db.tables.audit), LogRow(Atom(Num(u.id)), "USER_LOGIN", "users", Atom(Num(u.id)), client, now), db.auditAccepts))
      && res == (if secretSet then Ok(AuthAnswer(Claims(u.id, u.name, TokenLifetime), u)) else Err(AuthenticationFailed))
  {
    if !db.reachable {
      return Err(AuthenticationFailed);
    }
    var found := FindByName(db.tables.users, name);
    var user: User;
    if found.None? {
      user := NewUser(NextId(|db.tables.users|), name, age, now);
      db.tables := db.tables.(users := db.tables.users + [user]);
      db.tables := db.tables.(profiles := db.tables.profiles + [EmptyProfile(NextId(|db.tables.profiles|), user.id)]);
      AuditLog(db, Atom(Num(user.id)), "USER_CREATED", "users", Atom(Num(user.id)), client, now);
    } else {
      user := db.tables.users[found.value];
      db.tables := db.tables.(users := TouchLastVisit(db.tables.users, user.id, now));
      AuditLog(db, Atom(Num(user.id)), "USER_LOGIN", "users", Atom(Num(user.id)), client, now);
    }
    if !secretSet {
      return Err(AuthenticationFailed);
    }
    res := Ok(AuthAnswer(Claims(user.id, user.name, TokenLifetime), user));
  }

  /** No two users share a name. */
  predicate NamesDistinct(users: seq<User>) {
    forall i, j :: 0 <= i < j < |users| && users[i].name.Some? ==> users[i].name != users[j].name
  }

  /** Sign-in creates a user only for a name it does not find, so it keeps names
      distinct. */
  lemma {:induction false} SignInKeepsNamesDistinct(users: seq<User>, name: Option<string>, age: Value, now: string)
    requires NamesDistinct(users)
    ensures NamesDistinct(UsersAfterSignIn(users, name, age, now))
  {
    var after := UsersAfterSignIn(users, name, age, now);
    match FindByName(users, name)
    case None =>
      forall i, j | 0 <= i < j < |after| && after[i].name.Some?
        ensures after[i].name != after[j].name
      {
        if j == |users| {
          assert name.Some? ==> users[i].name != name;
        }
      }
    case Some(k) =>
  }

  /** Signing in twice with the same name creates at most one user: the second sign-in
      finds the user the first one found or created. */
  lemma {:induction false} SecondSignInCreatesNothing(users: seq<User>, name: string, age: Value, age2: Value, now: string, later: string)
    ensures var after := UsersAfterSignIn(users, Some(name), age, now);
      && FindByName(after, Some(name)).Some?
      && |UsersAfterSignIn(after, Some(name), age2, later)| == |after| <= |users| + 1
  {
    var after := UsersAfterSignIn(users, Some(name), age, now);
    match FindByName(users, Some(name))
    case None =>
      assert after[|users|].name == Some(name);
    case Some(k) =>
      assert after[k].name == Some(name);
  }

  /** Without a name every sign-in creates a new user. */
  lemma NamelessSignInAlwaysCreates(users: seq<User>, age: Value, now: string)
    ensures |UsersAfterSignIn(users, None, age, now)| == |users| + 1
  {
  }
}
