/** The PostgreSQL tables the server routes read and write. Each table is a sequence of
    rows in insertion order; no route deletes a row, so a serial id is modelled as the
    table's row count plus one at the moment of the insert. Column defaults come from a
    schema that is not part of this model: a new user is active with no sessions, and a
    new About-Me profile is empty with completeness 0. */
module Tables {
  import opened Wrappers
  import opened Js

  type Id = nat

  datatype User = User(id: Id, name: Option<string>, age: Value, lastVisit: string, totalSessions: int, isActive: bool)

  datatype AboutMe = AboutMe(
    id: Id,
    userId: Id,
    bestLifeElements: Value,
    concerns: Value,
    confidenceLevel: Value,
    nextSteps: Value,
    completeness: nat)

  /** A `profile_variable_history` row. */
  datatype HistoryRow = HistoryRow(
    id: Id,
    userId: Id,
    variableName: Value,
    variableValue: Value,
    previousValue: Value,
    source: Value,
    sourceDetails: Value)

  datatype Session = Session(id: Id, userId: Id, durationMinutes: Value, mainTopics: Value, conversationLog: Value)

  datatype SafetyEvent = SafetyEvent(
    id: Id,
    userId: Id,
    sessionId: Value,
    triggerType: Value,
    severity: Value,
    keywords: Value,
    context: Value,
    clinicianNotified: bool)

  datatype ClinicalAlert = ClinicalAlert(
    id: Id,
    userId: Id,
    safetyEventId: Id,
    alertType: string,
    priority: string,
    message: string,
    acknowledged: bool,
    createdAt: string)

  /** A `document_uploads` row; `processedAt` is set by the status update. */
  datatype DocumentUpload = DocumentUpload(
    id: Id,
    userId: Id,
    filename: Value,
    fileType: Value,
    fileSize: Value,
    extractedCount: Value,
    metadata: Value,
    appliedCount: Value,
    processedAt: Option<string>)

  /** The JSON kept in an audit row's `metadata` column. */
  datatype AuditMetadata =
    | Stamped(timestamp: string)
    | RequestStamped(timestamp: string, httpMethod: string, path: string)
    | ErrorReport(error: Option<string>, stack: Option<string>, path: string, httpMethod: string, timestamp: string)

  datatype AuditRow = AuditRow(
    userId: Value,
    action: string,
    resourceType: string,
    resourceId: Value,
    ip: Value,
    userAgent: Value,
    metadata: AuditMetadata)

  datatype Tables = Tables(
    users: seq<User>,
    profiles: seq<AboutMe>,
    history: seq<HistoryRow>,
    sessions: seq<Session>,
    safetyEvents: seq<SafetyEvent>,
    alerts: seq<ClinicalAlert>,
    uploads: seq<DocumentUpload>,
    audit: seq<AuditRow>)

  const NoTables := Tables([], [], [], [], [], [], [], [])

  /** The caller's address and `user-agent` header, copied into audit rows. */
  datatype Client = Client(ip: Value, userAgent: Value)

  /** The connection pool. When the database is unreachable every query throws; when it
      rejects audit rows only the inserts into `audit_log` throw. */
  class Database {
    var tables: Tables
    const reachable: bool
    const auditAccepts: bool

    constructor (reachable: bool, auditAccepts: bool)
      ensures tables == NoTables
      ensures this.reachable == reachable && this.auditAccepts == auditAccepts
    {
      tables := NoTables;
      this.reachable := reachable;
      this.auditAccepts := auditAccepts;
    }
  }

  /** The id the next insert into a table of `n` rows receives. */
  function NextId(n: nat): (id: Id)
    ensures id > n
  {
    n + 1
  }

  /** The ids of a table that has only ever been appended to: row `i` holds id `i + 1`. */
  predicate SerialIds(ids: seq<Id>) {
    forall i :: 0 <= i < |ids| ==> ids[i] == i + 1
  }

  /** On such a table the next id is new, and appending a row with it keeps the table
      serial, so every id handed out this way names one row. */
  lemma NextIdIsFresh(ids: seq<Id>)
    requires SerialIds(ids)
    ensures NextId(|ids|) !in ids
    ensures SerialIds(ids + [NextId(|ids|)])
    ensures forall i, j :: 0 <= i < j < |ids| ==> ids[i] < ids[j]
  {
    var next := ids + [NextId(|ids|)];
    forall i | 0 <= i < |next|
      ensures next[i] == i + 1
    {
      if i < |ids| {
        assert next[i] == ids[i];
      }
    }
  }
}
