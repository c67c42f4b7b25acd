/** The database-backed document and profile-history routes: recording an upload or a
    profile change inserts one row and audits it with the new row's id; the status
    update touches only the caller's own upload; the history read builds a filtered
    query and audits the read with no resource id. */
module DocumentsRoute {
  import opened Wrappers
  import opened Js
  import opened Http
  import opened Tables
  import opened Audit
  import opened Sql

  const UploadTrackFailed := HttpError(500, "Failed to track document upload")
  const UploadUpdateFailed := HttpError(500, "Failed to update document status")
  const ChangeTrackFailed := HttpError(500, "Failed to track profile change")
  const HistoryFetchFailed := HttpError(500, "Failed to fetch profile history")

  datatype UploadInput = UploadInput(filename: Value, fileType: Value, fileSize: Value, extractedCount: Value, metadata: Value)

  function UploadRow(id: Id, userId: Id, input: UploadInput): DocumentUpload {
    DocumentUpload(id, userId, Stored(input.filename), Stored(input.fileType), Stored(input.fileSize),
      Stored(input.extractedCount), Stored(input.metadata), Null, None)
  }

  /** `POST /document-uploads`. */
  method RecordUpload(db: Database, userId: Id, input: UploadInput, client: Client, now: string)
    returns (res: Result<DocumentUpload, HttpError>)
    modifies db
    ensures !db.reachable ==> res == Err(UploadTrackFailed) && db.tables == old(db.tables)
    ensures db.reachable ==>
      var u := UploadRow(NextId(|old(db.tables.uploads)|), userId, input);
      && res == Ok(u)
      && db.tables == old(db.tables).(
           uploads := old(db.tables.uploads) + [u],
           audit := Audited(old(db.tables.audit),
             LogRow(Atom(Num(userId)), "DOCUMENT_UPLOADED", "document_uploads", Atom(Num(u.id)), client, now), db.auditAccepts))
  {
    if !db.reachable {
      return Err(UploadTrackFailed);
    }
    var u := UploadRow(NextId(|db.tables.uploads|), userId, input);
    db.tables := db.tables.(uploads := db.tables.uploads + [u]);
    AuditLog(db, Atom(Num(userId)), "DOCUMENT_UPLOADED", "document_uploads", Atom(Num(u.id)), client, now);
    res := Ok(u);
  }

  predicate OwnedUpload(u: DocumentUpload, uploadId: Id, userId: Id) {
    u.id == uploadId && u.userId == userId
  }

  /** The uploads table after `UPDATE ... WHERE id = uploadId AND user_id = userId`. */
  function MarkProcessed(uploads: seq<DocumentUpload>, uploadId: Id, userId: Id, appliedCount: Value, now: string): (r: seq<DocumentUpload>)
    ensures |r| == |uploads|
    ensures forall i :: 0 <= i < |uploads| && OwnedUpload(uploads[i], uploadId, userId) ==>
      r[i] == uploads[i].(appliedCount := Stored(appliedCount), processedAt := Some(now))
    ensures forall i :: 0 <= i < |uploads| && !OwnedUpload(uploads[i], uploadId, userId) ==> r[i] == uploads[i]
  {
    seq(|uploads|, i requires 0 <= i < |uploads| =>
      if OwnedUpload(uploads[i], uploadId, userId) then uploads[i].(appliedCount := Stored(appliedCount), processedAt := Some(now))
      else uploads[i])
  }

  function FindOwnedUpload(uploads: seq<DocumentUpload>, uploadId: Id, userId: Id): (r: Option<nat>)
    ensures r.None? <==> forall j :: 0 <= j < |uploads| ==> !OwnedUpload(uploads[j], uploadId, userId)
    ensures r.Some? ==> (r.value < |uploads| && OwnedUpload(uploads[r.value], uploadId, userId)
      && forall j :: 0 <= j < r.value ==> !OwnedUpload(uploads[j], uploadId, userId))
  {
    if uploads == [] then None
    else if OwnedUpload(uploads[0], uploadId, userId) then Some(0)
    else match FindOwnedUpload(uploads[1..], uploadId, userId)
      case None => None
      case Some(k) => Some(k + 1)
  }

  /** `PUT /document-uploads/:uploadId`. `uploadId` is `None` when the path segment is
      not an integer, which the database refuses. The answer is the first updated row,
      or none when the caller owns no such upload. */
  method UpdateUploadStatus(db: Database, userId: Id, uploadId: Option<Id>, appliedCount: Value, now: string)
    returns (res: Result<Option<DocumentUpload>, HttpError>)
    modifies db
    ensures !db.reachable || uploadId.None? ==> res == Err(UploadUpdateFailed) && db.tables == old(db.tables)
    ensures db.reachable && uploadId.Some? ==>
      var found := FindOwnedUpload(old(db.tables.uploads), uploadId.value, userId);
      && db.tables == old(db.tables).(uploads := MarkProcessed(old(db.tables.uploads), uploadId.value, userId, appliedCount, now))
      && (found.None? ==> res == Ok(None))
      && (found.Some? ==> res == Ok(Some(old(db.tables.uploads)[found.value].(appliedCount := Stored(appliedCount), processedAt := Some(now)))))
  {
    if !db.reachable || uploadId.None? {
      return Err(UploadUpdateFailed);
    }
    var found := FindOwnedUpload(db.tables.uploads, uploadId.value, userId);
    db.tables := db.tables.(uploads := MarkProcessed(db.tables.uploads, uploadId.value, userId, appliedCount, now));
    if found.None? {
      res := Ok(None);
    } else {
      res := Ok(Some(db.tables.uploads[found.value]));
    }
  }

  /** Another user's upload is never marked processed, whatever id is named. */
  lemma {:induction false} ForeignUploadUntouched(uploads: seq<DocumentUpload>, uploadId: Id, userId: Id, appliedCount: Value, now: string, i: nat)
    requires i < |uploads| && uploads[i].userId != userId
    ensures MarkProcessed(uploads, uploadId, userId, appliedCount, now)[i] == uploads[i]
  {
    assert !OwnedUpload(uploads[i], uploadId, userId);
  }

  datatype ChangeInput = ChangeInput(variableName: Value, variableValue: Value, previousValue: Value, source: Value, sourceDetails: Value)

  function ChangeRow(id: Id, userId: Id, input: ChangeInput): HistoryRow {
    HistoryRow(id, userId, Stored(input.variableName), Stored(input.variableValue), Stored(input.previousValue),
      Stored(input.source), Stored(input.sourceDetails))
  }

  /** `POST /profile-history`. */
  method RecordProfileChange(db: Database, userId: Id, input: ChangeInput, client: Client, now: string)
    returns (res: Result<HistoryRow, HttpError>)
    modifies db
    ensures !db.reachable ==> res == Err(ChangeTrackFailed) && db.tables == old(db.tables)
    ensures db.reachable ==>
      var h := ChangeRow(NextId(|old(db.tables.history)|), userId, input);
      && res == Ok(h)
      && db.tables == old(db.tables).(
           history := old(db.tables.history) + [h],
           audit := Audited(old(db.tables.audit),
             LogRow(Atom(Num(userId)), "PROFILE_VARIABLE_UPDATED", "profile_variable_history", Atom(Num(h.id)), client, now), db.auditAccepts))
  {
    if !db.reachable {
      return Err(ChangeTrackFailed);
    }
    var h := ChangeRow(NextId(|db.tables.history|), userId, input);
    db.tables := db.tables.(history := db.tables.history + [h]);
    AuditLog(db, Atom(Num(userId)), "PROFILE_VARIABLE_UPDATED", "profile_variable_history", Atom(Num(h.id)), client, now);
    res := Ok(h);
  }

  const HistorySelect := "SELECT * FROM profile_variable_history"
  const HistoryUserFilter := " WHERE user_id = "
  const VariableFilter := " AND variable_name = "
  const SourceFilter := " AND source = "
  const NewestChangesLimit := " ORDER BY timestamp DESC LIMIT "
  const DefaultHistoryLimit := 50

  lemma HistoryClausesDistinct()
    ensures HistoryUserFilter != VariableFilter && HistoryUserFilter != SourceFilter && HistoryUserFilter != NewestChangesLimit
    ensures VariableFilter != SourceFilter && VariableFilter != NewestChangesLimit && SourceFilter != NewestChangesLimit
  {
    assert |HistoryUserFilter| == 17 && |VariableFilter| == 21 && |SourceFilter| == 14 && |NewestChangesLimit| == 31;
  }

  function HistoryLimit(limit: Option<string>): Scalar {
    if limit.Some? then Str(limit.value) else Num(DefaultHistoryLimit)
  }

  /** The query of `GET /profile-history/:userId` and its parameters. */
  method ProfileHistoryQuery(userId: string, variableName: Option<string>, source: Option<string>, limit: Option<string>)
    returns (query: seq<Part>, params: seq<Scalar>)
    ensures NumberedUpTo(query, |params|)
    ensures |params| == 2 + (if Given(variableName) then 1 else 0) + (if Given(source) then 1 else 0)
    ensures params[0] == Str(userId) && params[|params| - 1] == HistoryLimit(limit)
    ensures Binding(query, params, HistoryUserFilter) == Some(Str(userId))
    ensures Binding(query, params, VariableFilter) == if Given(variableName) then Some(Str(variableName.value)) else None
    ensures Binding(query, params, SourceFilter) == if Given(source) then Some(Str(source.value)) else None
    ensures Binding(query, params, NewestChangesLimit) == Some(HistoryLimit(limit))
  {
    HistoryClausesDistinct();
    var b := new QueryBuilder(HistorySelect, HistoryUserFilter, Str(userId));
    if Given(variableName) {
      b.Bind(VariableFilter, Str(variableName.value));
    }
    if Given(source) {
      b.Bind(SourceFilter, Str(source.value));
    }
    b.Bind(NewestChangesLimit, HistoryLimit(limit));
    query, params := b.query, b.params;
  }

  datatype SqlQuery = SqlQuery(query: seq<Part>, params: seq<Scalar>)

  /** `GET /profile-history/:userId`: the query whose rows are the answer, and one
      `PROFILE_HISTORY_VIEWED` audit of the named user with no resource id. */
  method ViewProfileHistory(db: Database, userId: string, variableName: Option<string>, source: Option<string>,
                            limit: Option<string>, client: Client, now: string)
    returns (res: Result<SqlQuery, HttpError>)
    modifies db
    ensures !db.reachable ==> res == Err(HistoryFetchFailed) && db.tables == old(db.tables)
    ensures db.reachable ==>
      && res.Ok? && NumberedUpTo(res.value.query, |res.value.params|)
      && |res.value.params| == 2 + (if Given(variableName) then 1 else 0) + (if Given(source) then 1 else 0)
      && res.value.params[0] == Str(userId) && res.value.params[|res.value.params| - 1] == HistoryLimit(limit)
      && Binding(res.value.query, res.value.params, HistoryUserFilter) == Some(Str(userId))
      && Binding(res.value.query, res.value.params, VariableFilter) ==
           (if Given(variableName) then Some(Str(variableName.value)) else None)
      && Binding(res.value.query, res.value.params, SourceFilter) ==
           (if Given(source) then Some(Str(source.value)) else None)
      && Binding(res.value.query, res.value.params, NewestChangesLimit) == Some(HistoryLimit(limit))
      && db.tables == old(db.tables).(audit := Audited(old(db.tables.audit),
           LogRow(Atom(Str(userId)), "PROFILE_HISTORY_VIEWED", "profile_variable_history", Null, client, now), db.auditAccepts))
  {
    var query, params := ProfileHistoryQuery(userId, variableName, source, limit);
    if !db.reachable {
      return Err(HistoryFetchFailed);
    }
    AuditLog(db, Atom(Str(userId)), "PROFILE_HISTORY_VIEWED", "profile_variable_history", Null, client, now);
    res := Ok(SqlQuery(query, params));
  }

  const UploadsFetchFailed := HttpError(500, "Failed to fetch document uploads")

  /** The caller's uploads in insertion order: the reference the newest-first listing
      is checked against. */
  function OwnedUploads(uploads: seq<DocumentUpload>, userId: Id): (r: seq<DocumentUpload>)
    ensures forall u :: u in r <==> u in uploads && u.userId == userId
  {
    if uploads == [] then []
    else (if uploads[0].userId == userId then [uploads[0]] else []) + OwnedUploads(uploads[1..], userId)
  }

  /** Filtering commutes with appending one upload at the end. */
  lemma {:induction false} OwnedUploadsAppend(uploads: seq<DocumentUpload>, u: DocumentUpload, userId: Id)
    ensures OwnedUploads(uploads + [u], userId) ==
      OwnedUploads(uploads, userId) + (if u.userId == userId then [u] else [])
  {
    if uploads != [] {
      assert (uploads + [u])[1..] == uploads[1..] + [u];
      OwnedUploadsAppend(uploads[1..], u, userId);
    } else {
      assert [u][1..] == [];
    }
  }

  /** The caller's uploads newest first, reading insertion order as upload time. */
  function UploadsNewestFirst(uploads: seq<DocumentUpload>, userId: Id): (r: seq<DocumentUpload>)
    ensures |r| <= |uploads|
    ensures forall u :: u in r <==> u in uploads && u.userId == userId
    ensures |uploads| > 0 && uploads[|uploads| - 1].userId == userId ==> r[0] == uploads[|uploads| - 1]
  {
    if uploads == [] then []
    else
      var last := uploads[|uploads| - 1];
      var init := uploads[..|uploads| - 1];
      assert uploads == init + [last];
      (if last.userId == userId then [last] else []) + UploadsNewestFirst(init, userId)
  }

  /** The listing is exactly the caller's uploads in reverse insertion order: a later
      upload always comes before an earlier one, and none is missing or repeated. */
  lemma {:induction false} NewestFirstIsReversedOwned(uploads: seq<DocumentUpload>, userId: Id)
    ensures UploadsNewestFirst(uploads, userId) == Reverse(OwnedUploads(uploads, userId))
  {
    if uploads != [] {
      var last := uploads[|uploads| - 1];
      var init := uploads[..|uploads| - 1];
      assert uploads == init + [last];
      NewestFirstIsReversedOwned(init, userId);
      OwnedUploadsAppend(init, last, userId);
      var owned := OwnedUploads(init, userId);
      if last.userId == userId {
        assert (owned + [last])[..|owned + [last]| - 1] == owned;
      } else {
        assert owned + [] == owned;
      }
    }
  }

  /** `GET /document-uploads/:userId`; `userId` is `None` when the path segment is not
      an integer, which the database refuses. No audit row is written. */
  method ListUploads(db: Database, userId: Option<Id>) returns (res: Result<seq<DocumentUpload>, HttpError>)
    ensures !db.reachable || userId.None? ==> res == Err(UploadsFetchFailed)
    ensures db.reachable && userId.Some? ==> (res.Ok? &&
      res.value == Reverse(OwnedUploads(db.tables.uploads, userId.value)))
  {
    if !db.reachable || userId.None? {
      return Err(UploadsFetchFailed);
    }
    NewestFirstIsReversedOwned(db.tables.uploads, userId.value);
    res := Ok(UploadsNewestFirst(db.tables.uploads, userId.value));
  }
}
