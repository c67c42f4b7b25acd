/** The last-resort error handler: it answers with the error's own status and message,
    falling back to 500 and a generic text, and includes the stack trace only in
    development. When the request carries a database handle it also records the error in
    the audit log; that write is not awaited and its failure is swallowed, so the answer
    never depends on it. */
module ErrorHandler {
  import opened Wrappers
  import opened Js
  import opened Tables
  import opened Audit

  const DefaultStatus := 500
  const DefaultMessage := "Internal server error"

  /** The fields of a thrown error the handler reads; a missing one is `None`. */
  datatype Failure = Failure(status: Option<int>, message: Option<string>, stack: Option<string>)

  /** The answer: the status and a body `{ error, stack? }`; a `stack` that is
      `undefined` is dropped when the body is serialised. */
  datatype ErrorAnswer = ErrorAnswer(status: int, error: string, stack: Option<string>)

  /** `err.status || 500`, `err.message || 'Internal server error'`, and the stack only
      when `development` holds. */
  function Answer(err: Failure, development: bool): (r: ErrorAnswer)
    ensures r.status != 0 && r.error != ""
    ensures r.status == DefaultStatus <==> err.status.None? || err.status.value in {0, DefaultStatus}
    ensures err.status.Some? && err.status.value != 0 ==> r.status == err.status.value
    ensures r.error == DefaultMessage <==> !Given(err.message) || err.message.value == DefaultMessage
    ensures Given(err.message) ==> r.error == err.message.value
    ensures r.stack.Some? <==> development && err.stack.Some?
    ensures r.stack.Some? ==> r.stack == err.stack
  {
    ErrorAnswer(
      if Truthy(if err.status.Some? then Some(Num(err.status.value)) else None) then err.status.value else DefaultStatus,
      OrDefault(err.message, DefaultMessage),
      if development then err.stack else None)
  }

  /** An error carrying neither a status nor a message is answered 500 with the generic
      text, and outside development it discloses nothing else. */
  lemma BareErrorDefaults(stack: Option<string>)
    ensures Answer(Failure(None, None, stack), false) == ErrorAnswer(DefaultStatus, DefaultMessage, None)
  {
  }

  /** `req.user?.id || null`. */
  function Caller(user: Option<Id>): (v: Value)
    ensures v == Null <==> user.None? || user.value == 0
  {
    if user.Some? && user.value != 0 then Atom(Num(user.value)) else Null
  }

  /** The audit row describing the error. */
  function ErrorRow(err: Failure, user: Option<Id>, path: string, httpMethod: string, development: bool, now: string): (row: AuditRow)
    ensures row.action == "error" && row.resourceType == "system" && row.resourceId == Null
    ensures row.userId == Caller(user)
    ensures row.metadata == ErrorReport(err.message, if development then err.stack else None, path, httpMethod, now)
  {
    AuditRow(Caller(user), "error", "system", Null, Null, Null,
      ErrorReport(err.message, if development then err.stack else None, path, httpMethod, now))
  }

  /** `errorHandler(err, req, res, next)`. `hasHandle` says whether the request carries a
      database handle; only then is an audit row attempted. */
  method HandleError(db: Database, hasHandle: bool, err: Failure, user: Option<Id>, path: string, httpMethod: string,
                     development: bool, now: string)
    returns (answer: ErrorAnswer)
    modifies db
    ensures answer == Answer(err, development)
    ensures db.tables == old(db.tables).(audit := Audited(old(db.tables.audit),
      ErrorRow(err, user, path, httpMethod, development, now), hasHandle && db.reachable && db.auditAccepts))
  {
    if hasHandle && db.reachable && db.auditAccepts {
      db.tables := db.tables.(audit := db.tables.audit + [ErrorRow(err, user, path, httpMethod, development, now)]);
    }
    answer := Answer(err, development);
  }
}
