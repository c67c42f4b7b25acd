/** The session routes: creating a session stores it, raises the caller's session count
    by one and audits the creation; updating one changes only a session that belongs to
    the caller, and writes no audit row. */
module SessionsRoute {
  import opened Wrappers
  import opened Js
  import opened Http
  import opened Tables
  import opened Audit

  const SessionCreateFailed := HttpError(500, "Failed to create session")
  const SessionUpdateFailed := HttpError(500, "Failed to update session")

  /** The users table after `total_sessions = total_sessions + 1 WHERE id = userId`. */
  function CountSession(users: seq<User>, userId: Id): (r: seq<User>)
    ensures |r| == |users|
    ensures forall i :: 0 <= i < |users| && users[i].id == userId ==>
      r[i] == users[i].(totalSessions := users[i].totalSessions + 1)
    ensures forall i :: 0 <= i < |users| && users[i].id != userId ==> r[i] == users[i]
  {
    seq(|users|, i requires 0 <= i < |users| =>
      if users[i].id == userId then users[i].(totalSessions := users[i].totalSessions + 1) else users[i])
  }

  /** The sum of every user's session count. */
  function TotalSessions(users: seq<User>): int {
    if users == [] then 0 else TotalSessions(users[..|users| - 1]) + users[|users| - 1].totalSessions
  }

  /** The number of user rows with id `userId`. */
  function RowsWithId(users: seq<User>, userId: Id): nat {
    if users == [] then 0
    else RowsWithId(users[..|users| - 1], userId) + (if users[|users| - 1].id == userId then 1 else 0)
  }

  /** Counting a session adds one to the total for each row of the caller, so exactly one
      when user ids are unique. */
  lemma {:induction false} CountSessionAddsOnePerRow(users: seq<User>, userId: Id)
    ensures TotalSessions(CountSession(users, userId)) == TotalSessions(users) + RowsWithId(users, userId)
  {
    if users != [] {
      var init := users[..|users| - 1];
      CountSessionAddsOnePerRow(init, userId);
      assert CountSession(users, userId)[..|users| - 1] == CountSession(init, userId);
    }
  }

  function NewSession(id: Id, userId: Id): Session {
    Session(id, userId, Null, Null, Null)
  }

  /** `POST /sessions`. */
  method CreateSession(db: Database, userId: Id, client: Client, now: string) returns (res: Result<Session, HttpError>)
    modifies db
    ensures !db.reachable ==> res == Err(SessionCreateFailed) && db.tables == old(db.tables)
    ensures db.reachable ==>
      var s := NewSession(NextId(|old(db.tables.sessions)|), userId);
      && res == Ok(s)
      && db.tables == old(db.tables).(
           sessions := old(db.tables.sessions) + [s],
           users := CountSession(old(db.tables.users), userId),
           audit := Audited(old(db.tables.audit),
             LogRow(Atom(Num(userId)), "SESSION_CREATED", "sessions", Atom(Num(s.id)), client, now), db.auditAccepts))
  {
    if !db.reachable {
      return Err(SessionCreateFailed);
    }
    var s := NewSession(NextId(|db.tables.sessions|), userId);
    db.tables := db.tables.(sessions := db.tables.sessions + [s]);
    db.tables := db.tables.(users := CountSession(db.tables.users, userId));
    AuditLog(db, Atom(Num(userId)), "SESSION_CREATED", "sessions", Atom(Num(s.id)), client, now);
    res := Ok(s);
  }

  datatype SessionInput = SessionInput(durationMinutes: Value, mainTopics: Value, conversationLog: Value)

  predicate Owned(s: Session, sessionId: Id, userId: Id) {
    s.id == sessionId && s.userId == userId
  }

  function Revised(s: Session, input: SessionInput): Session {
    s.(durationMinutes := Stored(input.durationMinutes), mainTopics := Stored(input.mainTopics),
       conversationLog := Stored(input.conversationLog))
  }

  /** The sessions table after `UPDATE ... WHERE id = sessionId AND user_id = userId`. */
  function ReviseOwned(sessions: seq<Session>, sessionId: Id, userId: Id, input: SessionInput): (r: seq<Session>)
    ensures |r| == |sessions|
    ensures forall i :: 0 <= i < |sessions| && Owned(sessions[i], sessionId, userId) ==> r[i] == Revised(sessions[i], input)
    ensures forall i :: 0 <= i < |sessions| && !Owned(sessions[i], sessionId, userId) ==> r[i] == sessions[i]
  {
    seq(|sessions|, i requires 0 <= i < |sessions| =>
      if Owned(sessions[i], sessionId, userId) then Revised(sessions[i], input) else sessions[i])
  }

  /** The first session that has the given id and belongs to the caller. */
  function FindOwned(sessions: seq<Session>, sessionId: Id, userId: Id): (r: Option<nat>)
    ensures r.None? <==> forall j :: 0 <= j < |sessions| ==> !Owned(sessions[j], sessionId, userId)
    ensures r.Some? ==> (r.value < |sessions| && Owned(sessions[r.value], sessionId, userId)
      && forall j :: 0 <= j < r.value ==> !Owned(sessions[j], sessionId, userId))
  {
    if sessions == [] then None
    else if Owned(sessions[0], sessionId, userId) then Some(0)
    else match FindOwned(sessions[1..], sessionId, userId)
      case None => None
      case Some(k) => Some(k + 1)
  }

  /** `PUT /sessions/:sessionId`. `sessionId` is `None` when the path segment is not an
      integer, which the database refuses. The answer is the first updated row, or no
      row at all when the caller owns no such session. */
  method UpdateSession(db: Database, userId: Id, sessionId: Option<Id>, input: SessionInput)
    returns (res: Result<Option<Session>, HttpError>)
    modifies db
    ensures !db.reachable || sessionId.None? ==> res == Err(SessionUpdateFailed) && db.tables == old(db.tables)
    ensures db.reachable && sessionId.Some? ==>
      var found := FindOwned(old(db.tables.sessions), sessionId.value, userId);
      && db.tables == old(db.tables).(sessions := ReviseOwned(old(db.tables.sessions), sessionId.value, userId, input))
      && (found.None? ==> res == Ok(None))
      && (found.Some? ==> res == Ok(Some(Revised(old(db.tables.sessions)[found.value], input))))
  {
    if !db.reachable || sessionId.None? {
      return Err(SessionUpdateFailed);
    }
    var found := FindOwned(db.tables.sessions, sessionId.value, userId);
    db.tables := db.tables.(sessions := ReviseOwned(db.tables.sessions, sessionId.value, userId, input));
    if found.None? {
      res := Ok(None);
    } else {
      res := Ok(Some(db.tables.sessions[found.value]));
    }
  }

  /** An update naming a session the caller does not own changes nothing. */
  lemma {:induction false} ForeignSessionUntouched(sessions: seq<Session>, sessionId: Id, userId: Id, input: SessionInput)
    requires FindOwned(sessions, sessionId, userId).None?
    ensures ReviseOwned(sessions, sessionId, userId, input) == sessions
  {
    var r := ReviseOwned(sessions, sessionId, userId, input);
    assert forall i :: 0 <= i < |sessions| ==> r[i] == sessions[i];
  }
}
