# Sofia brain-health web app — a Dafny model of its core

Sofia is a conversational brain-health companion. A browser client talks to an Express
back end over a JSON API. The back end keeps users, their About-Me profiles, sessions,
safety events, clinical alerts, document uploads, profile-variable history and an audit
log in PostgreSQL. This project models the parts of the system that make decisions:

- **Value alignment (client).** The manager scores an AI response against the user's
  best-life elements, concerns and active goals. It recommends what to bring up when the
  score is low, keeps a bounded log, appends a follow-up question to weak responses and
  checks whether a topic change fits the user's values (`value_alignment.dfy`).
- **API client (client).** This covers request building, the 401 handling that drops the
  token, and the offline API queue and its replay. It also covers the data queue that
  `saveToAPI` falls back to, and the sync that replays that queue (`api_client.dfy`).
- **Document uploads.** There are three variants of the upload routes: the in-memory
  router (`documents_simple.dfy`), the JSON-file-backed routes defined on the server
  itself (`server_documents.dfy`) and the stateless mock router (`documents_test.dfy`).
  They share the upload filter, the classification, the preview and the notification
  lists (`document_pipeline.dfy`).
- **Database routes.** Sign-in (`auth_route.dfy`), profile read and About-Me update with
  change history (`users_routes.dfy`, completeness in `helpers.dfy`), sessions
  (`sessions_route.dfy`), safety events and clinical alerts (`safety_route.dfy`), the
  admin views (`admin_routes.dfy`) and the upload/profile-history tracking routes
  (`documents_routes.dfy`).
- **Middleware.** The audit logger and the auditing `res.json` wrapper (`audit.dfy`), the
  bearer-token gate (`auth_middleware.dfy`) and the error handler (`error_handler.dfy`).

The database is an object (`Tables.Database`) whose `tables` field holds one sequence per
table, in insertion order. Every route is a method that states the tables it leaves
behind. `Sql` models the query text and parameter array that the dynamic queries build.
`Js` models the JavaScript values that reach the database: `undefined`, `null`, scalars
and arrays, with their truthiness, `||` defaults and template-literal text.

## Model

| member | source | states |
|---|---|---|
| Js.OrDefault | backend/routes/documents-simple.js:72 | `x \|\| d` on an optional string: the string when it is present and non-empty, the default otherwise |
| Js.Stored | backend/routes/documents.js:10-15 | a value bound as a query parameter: `undefined` is stored as `NULL`, anything else unchanged |
| Js.TemplateText | utils/clinicalAlerts.js:15 | template-literal text of a value: a string as itself, `undefined` and `null` spelled out |
| Tables.NextId | backend/routes/documents.js:10-15 | the serial id given to a new row is larger than the row count |
| Tables.NextIdIsFresh | backend/routes/documents.js:10-15 | on a table whose row `i` holds id `i + 1`, the next id is in no row, appending it keeps that shape, and ids increase with position |
| Tables.Database.constructor | backend/server.js:153 | a fresh pool: empty tables with the given reachability and audit behaviour |
| Sql.QueryBuilder.constructor | backend/routes/admin.js:28-36 | the base query with its first filter bound to `$1`; well numbered, and only that filter is bound |
| Sql.QueryBuilder.Bind | backend/routes/admin.js:38-41 | appending a filter with placeholder `$(n+1)` and pushing its value keeps the query well numbered, keeps every earlier binding and binds the new clause |
| Audit.Audited | backend/middleware/audit.js:2-20 | an accepted audit insert appends the row; a failing one leaves the log as it was |
| Audit.LogRow | backend/middleware/audit.js:4-16 | the row `auditLog` inserts carries the given user, action, resource type and id, and a timestamp |
| Audit.AuditLog | backend/middleware/audit.js:2-20 | `auditLog` changes only the audit table, by at most that one row, and swallows a failing insert |
| Audit.InterceptedRow | backend/middleware/audit.js:36-48 | the deferred row: caller id or `NULL`, the action, `METHOD path`, `params.id` or `NULL`, and method/path metadata |
| Audit.ReverseKeepsElements | backend/middleware/audit.js:26-57 | nested wrappers fire innermost first: the same rows, in reverse installation order |
| Audit.DeferredRows | backend/middleware/audit.js:31-53 | one deferred row per installed wrapper, each built from the request and its own action |
| Audit.Exchange.constructor | backend/middleware/audit.js:24 | a fresh request: no wrappers, nothing sent, nothing deferred |
| Audit.Exchange.AuditMiddleware | backend/middleware/audit.js:23-61 | installing the middleware adds one wrapper and calls `next` exactly once |
| Audit.Exchange.Json | backend/middleware/audit.js:29-57 | `res.json` sends the data once and defers one insert per installed wrapper, innermost first |
| Audit.Exchange.CallLayer | backend/middleware/audit.js:29-57 | calling the k-th saved `json` defers only the inserts of the wrappers below it |
| Audit.Exchange.RunDeferred | backend/middleware/audit.js:31-53 | running the deferred callbacks appends their rows when inserts succeed and drops them silently otherwise |
| Audit.JsonAuditRows | backend/middleware/audit.js:29-57 | one `json` call and the deferred work write one row per installed wrapper, the last-installed wrapper's row first; one wrapper writes exactly its own row |
| AuthGate.BearerToken | backend/middleware/auth.js:7-11 | a token exists iff the header starts with `Bearer `, and the header is that prefix followed by the token |
| AuthGate.BearerTokenRoundTrip | backend/middleware/auth.js:11 | the token of `Bearer ` + t is t |
| AuthGate.ActiveUser | backend/middleware/auth.js:17-24 | the lookup finds a row iff some row has the claimed id and is active, and returns such a row's id, name and age |
| AuthGate.Decide | backend/middleware/auth.js:3-34 | missing bearer header → 401 authentication required; unverifiable token or failing lookup → 401 invalid token; no active row → 401 user not found (iff); a claim that is neither a number nor missing → 401 invalid token; admitted only with an active row whose id is the verified claim, and always admitted, with the first such row, when one exists |
| AuthGate.NoHandleAdmitsNobody | backend/middleware/auth.js:17-20 | without a database handle on the request every request is refused |
| AuthGate.AuthRequest.constructor | backend/middleware/auth.js:3-6 | an incoming request with its `Authorization` header, no user and no answer yet |
| AuthGate.AuthRequest.Guard | backend/middleware/auth.js:3-34 | admission sets `req.user` and calls `next` once; refusal records the 401 and never calls `next` |
| ErrorHandler.Answer | backend/middleware/errorHandler.js:22-28 | the status is the error's own when truthy and 500 otherwise, the message likewise with the generic text, and the stack appears iff in development and present |
| ErrorHandler.BareErrorDefaults | backend/middleware/errorHandler.js:22-28 | an error with neither status nor message is answered 500 with the generic text and, outside development, nothing else |
| ErrorHandler.Caller | backend/middleware/errorHandler.js:10 | `req.user?.id \|\| null`: `NULL` exactly when there is no user or the id is 0 |
| ErrorHandler.ErrorRow | backend/middleware/errorHandler.js:5-17 | the error row: action `error`, resource `system`, no resource id, the caller, and message/stack/path/method metadata |
| ErrorHandler.HandleError | backend/middleware/errorHandler.js:1-29 | the answer never depends on the database; an error row is appended only when the request has a handle and the insert succeeds |
| Completeness.CalculateCompleteness | utils/helpers.js:2-8 | the score is one of 0, 20, …, 100; 100 iff all three answers are given, 0 iff none is; at least 40 iff some list is given, at least 80 iff both are; the confidence level alone decides the odd 20 — together 40 per list plus 20 for the confidence level on every input |
| Completeness.AbsentAnswersScoreZero | utils/helpers.js:2-8 | missing, empty or falsy answers score 0 |
| Completeness.CompletenessMonotone | utils/helpers.js:2-8 | answering more never lowers the score |
| AuthRoute.FindByName | routes/auth.js:11 | the first user with the given name; a missing name (bound as `NULL`) matches nobody |
| AuthRoute.TouchLastVisit | routes/auth.js:32-35 | only rows with the user's id get the new `last_visit`; all other rows are unchanged |
| AuthRoute.SignIn | routes/auth.js:6-52 | an unknown name creates a user, an empty About-Me profile and a `USER_CREATED` audit; a known name updates its last visit and audits `USER_LOGIN`; both answer with a token for that user; an unreachable database gives the 500 and changes nothing |
| AuthRoute.SignInKeepsNamesDistinct | routes/auth.js:11-28 | sign-in keeps user names distinct |
| AuthRoute.SecondSignInCreatesNothing | routes/auth.js:29-38 | signing in twice under one name creates one user |
| AuthRoute.NamelessSignInAlwaysCreates | routes/auth.js:11-20 | a sign-in without a name always inserts a new user |
| UsersRoute.FindProfile | backend/routes/users.js:74-78 | the first About-Me profile of the user, or none when the user has no profile |
| UsersRoute.FindUser | backend/routes/users.js:11-12 | the first user row with the id, or none |
| UsersRoute.ChangedVariables | backend/routes/users.js:83-131 | exactly the tracked variables whose sent value differs from the stored one, in the order the route checks them |
| UsersRoute.TrackedRow | backend/routes/users.js:84-96 | a history row names the variable, stores the sent and the previous value, and has source `manual` |
| UsersRoute.RowsFor | backend/routes/users.js:83-131 | one history row per changed variable, with consecutive ids |
| UsersRoute.VariableNamesDistinct | backend/routes/users.js:90 | the three tracked variables have distinct names |
| UsersRoute.RowsNamedIff | backend/routes/users.js:83-131 | a history row names a variable iff that variable is in the changed list |
| UsersRoute.ChangeRows | backend/routes/users.js:81-131 | at most three rows, and a row for a variable iff that variable changed |
| UsersRoute.Updated | backend/routes/users.js:134-147 | the updated profile keeps its ids, takes the sent answers and stores their completeness |
| UsersRoute.UpdateProfiles | backend/routes/users.js:134-147 | only the user's profile rows are updated; all others are unchanged |
| UsersRoute.Record | backend/routes/users.js:84-96 | one history insert appends exactly that variable's row |
| UsersRoute.RecordChanges | backend/routes/users.js:81-131 | the change-tracking block appends exactly the change rows and nothing else |
| UsersRoute.UpdateAboutMe | backend/routes/users.js:68-156 | with a profile: history rows for the changes, the updated profile and an `ABOUT_ME_UPDATED` audit; without a profile or a reachable database: the 500 and no change |
| UsersRoute.ViewProfile | backend/routes/users.js:6-65 | the caller's user row and profile, and one `PROFILE_VIEWED` audit; the 500 when unreachable |
| UsersRoute.UnchangedAnswersWriteNoHistory | backend/routes/users.js:83-131 | resending the stored answers writes no history |
| UsersRoute.OmittedAnswerIsRecorded | backend/routes/users.js:83-131 | leaving out a stored answer is recorded as a change |
| SessionsRoute.CountSession | routes/sessions.js:15-18 | `total_sessions + 1` on rows with the user's id; other rows unchanged |
| SessionsRoute.CountSessionAddsOnePerRow | routes/sessions.js:15-18 | the total across users grows by the number of rows with that id |
| SessionsRoute.CreateSession | routes/sessions.js:5-27 | a new session row for the user, the user's counter incremented and a `SESSION_CREATED` audit; the 500 and no change when unreachable |
| SessionsRoute.ReviseOwned | routes/sessions.js:35-40 | only the session with that id owned by the user is revised |
| SessionsRoute.FindOwned | routes/sessions.js:35-42 | the first session with that id owned by the user, or none |
| SessionsRoute.UpdateSession | routes/sessions.js:30-47 | the owned session is revised and returned; a foreign or missing one is answered with nothing and left alone; the 500 when unreachable or the id is not numeric |
| SessionsRoute.ForeignSessionUntouched | routes/sessions.js:38 | a session the user does not own is never changed |
| SafetyRoute.AlertRow | utils/clinicalAlerts.js:6-17 | the alert is a `safety_trigger` with the given priority, unacknowledged, and a message carrying the context |
| SafetyRoute.CreateClinicalAlert | utils/clinicalAlerts.js:4-34 | appends the alert when the database answers; a failure is swallowed |
| SafetyRoute.EventRow | routes/safety.js:14-19 | the inserted row as read back: the given id and user, missing fields as `NULL`, the notify flag set exactly for `critical` or `high` |
| SafetyRoute.RaisedAlerts | routes/safety.js:22-24 | one alert exactly when the severity needs a clinician, with the next alert id, for this event and user, the severity as priority and the request's own context in the message |
| SafetyRoute.CreateSafetyEvent | routes/safety.js:6-33 | answers with the inserted row (missing fields read back as `NULL`) and appends it, the alert when needed and a `SAFETY_EVENT_CREATED` audit of the new id; the 500 and no change when unreachable |
| SafetyRoute.OnlyTopSeveritiesNotify | routes/safety.js:12 | a clinician is notified iff the severity is the string `critical` or `high` |
| AdminRoute.TextOrderTotal | backend/routes/admin.js:13 | the text order on priorities is total |
| AdminRoute.TextOrderAsymmetric | backend/routes/admin.js:13 | the text order on priorities is asymmetric |
| AdminRoute.TextOrderTransitive | backend/routes/admin.js:13 | the text order on priorities is transitive |
| AdminRoute.TextOrderIrreflexive | backend/routes/admin.js:13 | the text order on priorities is irreflexive |
| AdminRoute.ListedFirstIsTotalOrder | backend/routes/admin.js:13 | `ORDER BY priority DESC, created_at ASC` is a total, transitive order |
| AdminRoute.Insert | backend/routes/admin.js:13 | inserting into a sorted list keeps it sorted and adds exactly that element |
| AdminRoute.Sort | backend/routes/admin.js:13 | the result is sorted and a permutation of the input |
| AdminRoute.SortedPairwise | backend/routes/admin.js:13 | in a sorted list every earlier element comes first in the order |
| AdminRoute.Unacknowledged | backend/routes/admin.js:12 | exactly the unacknowledged alerts |
| AdminRoute.PendingAlerts | backend/routes/admin.js:5-20 | the pending alerts: a permutation of the unacknowledged ones, ordered by priority text descending, then oldest first |
| AdminRoute.HighListedBeforeCritical | backend/routes/admin.js:13 | as written, a `high` alert is listed before every `critical` one |
| AdminRoute.MoreUrgentFirstIsTotalOrder | backend/routes/admin.js:13 | ordering by urgency rank, then age, is a total, transitive order |
| AdminRoute.PendingAlertsByUrgency | backend/routes/admin.js:5-20 | the same alerts as `PendingAlerts`, ordered most urgent first |
| AdminRoute.CriticalListedBeforeHigh | backend/routes/admin.js:13 | ordered by urgency, every `critical` alert comes before every `high` one |
| AdminRoute.TrailClausesDistinct | backend/routes/admin.js:34-48 | the four filter clauses are distinct texts |
| AdminRoute.AuditTrailQuery | backend/routes/admin.js:23-58 | a well-numbered query binding the user id, each given date bound and the limit (default 100), and no clause for an absent date |
| DocumentsRoute.RecordUpload | backend/routes/documents.js:5-24 | appends the upload row and a `DOCUMENT_UPLOADED` audit; the 500 and no change when unreachable |
| DocumentsRoute.MarkProcessed | backend/routes/documents.js:32-37 | only the user's upload with that id gets the applied count and the processing time |
| DocumentsRoute.FindOwnedUpload | backend/routes/documents.js:32-39 | the first upload with that id owned by the user, or none |
| DocumentsRoute.UpdateUploadStatus | backend/routes/documents.js:27-44 | the owned upload is marked processed and returned, a foreign one is left alone, and no audit is written |
| DocumentsRoute.ForeignUploadUntouched | backend/routes/documents.js:36 | an upload the user does not own is never changed |
| DocumentsRoute.RecordProfileChange | backend/routes/documents.js:47-66 | appends the history row and a `PROFILE_VARIABLE_UPDATED` audit |
| DocumentsRoute.HistoryClausesDistinct | backend/routes/documents.js:74-91 | the four filter clauses are distinct texts |
| DocumentsRoute.ProfileHistoryQuery | backend/routes/documents.js:72-91 | a well-numbered query binding the user id, the variable name and source when given, and the limit (default 50) |
| DocumentsRoute.ViewProfileHistory | backend/routes/documents.js:69-102 | answers with that query: user id first, limit last, each optional filter bound exactly when given; writes a `PROFILE_HISTORY_VIEWED` audit; the 500 when unreachable |
| DocumentsRoute.OwnedUploads | backend/routes/documents.js:109-113 | exactly the user's uploads |
| DocumentsRoute.OwnedUploadsAppend | backend/routes/documents.js:109-113 | filtering an upload appended at the end appends it to the filtered list when it is the user's |
| DocumentsRoute.UploadsNewestFirst | backend/routes/documents.js:109-114 | exactly the user's uploads, the last one inserted first when it is the user's |
| DocumentsRoute.NewestFirstIsReversedOwned | backend/routes/documents.js:109-114 | the listing is the user's uploads in reverse insertion order |
| DocumentsRoute.ListUploads | backend/routes/documents.js:105-121 | reads only: answers with the user's uploads in reverse insertion order; the 500 when unreachable or the id is not numeric |
| DocumentPipeline.EffectiveUser | backend/routes/documents-simple.js:72 | the query's user id when given, `test-user-123` otherwise |
| DocumentPipeline.JsonAccepted | backend/routes/documents-simple.js:25-34 | the shared filter admits JSON, although its type does not mention `text` |
| DocumentPipeline.Screen | backend/routes/documents-simple.js:20-35 | the upload passes iff its type is accepted and its size is at most 10 MiB; the type is checked first |
| DocumentPipeline.Classify | backend/routes/documents-simple.js:83-106 | PDF, JSON and text are recognised only after a successful read, with the read text; a failed read gives the prefixed diagnostic; other types stay `unknown` with no text |
| DocumentPipeline.FailedExtractionIsUnknown | backend/routes/documents-simple.js:83-115 | a failed read always leaves the type unknown and counts one extracted item |
| DocumentPipeline.ExtractedCount | backend/routes/documents-simple.js:115 | 1 iff any text was extracted, else 0 |
| DocumentPipeline.Preview | backend/routes/documents-simple.js:152 | the whole text up to 500 characters; otherwise its first 500 followed by `...` |
| DocumentPipeline.PreviewIsBoundedPrefix | backend/routes/documents-simple.js:152 | the preview is at most 503 characters and starts with the text's first 500 |
| DocumentPipeline.BuildDocument | backend/routes/documents-simple.js:108-124 | the stored document carries the file's name, type and size, the extracted count and the classification |
| DocumentPipeline.BuildNotification | backend/routes/documents-simple.js:126-143 | the new notification points at the document, belongs to the user and is undelivered and unread |
| DocumentPipeline.ContentOf | backend/routes/documents-simple.js:175-183 | a document without metadata shows empty text and type `unknown` |
| DocumentPipeline.AppendTouchesOnlyOwner | backend/routes/documents-simple.js:136-143 | appending to one user's list leaves every other user's list unchanged |
| DocumentPipeline.Pending | backend/routes/documents-simple.js:191 | exactly the undelivered notifications |
| DocumentPipeline.PendingAppend | backend/routes/documents-simple.js:141-143 | a new undelivered notification becomes the last pending one |
| DocumentPipeline.FindNotification | backend/routes/documents-simple.js:202 | the first notification with the id, or none |
| DocumentPipeline.FindDocument | backend/routes/documents-simple.js:169 | the first document with the id, or none |
| DocumentPipeline.MarkDelivered | backend/routes/documents-simple.js:208-209 | only that notification becomes delivered, with the time |
| DocumentPipeline.MarkKeepsLookup | backend/routes/documents-simple.js:197-212 | marking keeps every id, so a second mark finds the same notification |
| DocumentPipeline.MarkRemovesFromPending | backend/routes/documents-simple.js:187-212 | marking removes one entry from the pending list, or none if it was already delivered |
| DocumentsSimple.SimpleDocumentStore.constructor | backend/routes/documents-simple.js:38-39 | both stores start empty |
| DocumentsSimple.SimpleDocumentStore.GetUserDocuments | backend/routes/documents-simple.js:42-47 | the user's documents, installing an empty list when absent |
| DocumentsSimple.SimpleDocumentStore.GetUserNotifications | backend/routes/documents-simple.js:50-55 | the user's notifications, installing an empty list when absent |
| DocumentsSimple.SimpleDocumentStore.Upload | backend/routes/documents-simple.js:69-161 | no file → 400; otherwise the document and its notification are appended to the effective user's lists and returned |
| DocumentsSimple.SimpleDocumentStore.Content | backend/routes/documents-simple.js:164-184 | the content view of the user's first document with the id (no earlier one has it), or 404 exactly when none has it |
| DocumentsSimple.SimpleDocumentStore.PendingNotifications | backend/routes/documents-simple.js:187-194 | the user's undelivered notifications, in order |
| DocumentsSimple.SimpleDocumentStore.MarkNotificationDelivered | backend/routes/documents-simple.js:197-212 | the user's first notification with the id is marked delivered, or 404 and no change |
| DocumentsSimple.SimpleDocumentStore.UserDocuments | backend/routes/documents-simple.js:215-220 | all of the user's documents |
| DocumentsSimple.UploadedNotificationIsPending | backend/routes/documents-simple.js:136-194 | after an upload, the pending list is the old one plus the new notification |
| ServerDocuments.ServerRejectsJson | backend/server.js:48-63 | as written, the server's filter admits exactly PDF and types mentioning `text`, so it rejects JSON |
| ServerDocuments.ServerExtractionAlwaysFails | backend/server.js:218-250 | because the read always throws, every admitted file is `unknown` with a diagnostic and a count of 1 |
| ServerDocuments.FileBackedDocuments.constructor | backend/server.js:273-312 | neither JSON file exists yet |
| ServerDocuments.FileBackedDocuments.Upload | backend/server.js:204-330 | no file → 400; otherwise the document and notification are appended to the files, classified from a failed read |
| ServerDocuments.FileBackedDocuments.PendingNotifications | backend/server.js:333-351 | no file → an empty list; otherwise the user's undelivered notifications |
| ServerDocuments.FileBackedDocuments.Content | backend/server.js:354-385 | no file → 404 "No documents found"; otherwise the user's first document with the id, or 404 exactly when none has it |
| ServerDocuments.FileBackedDocuments.MarkNotificationDelivered | backend/server.js:388-417 | no file → 404; otherwise the user's first notification with the id is marked delivered, or 404 |
| DocumentsTest.MockUpload | backend/routes/documents-test.js:47-114 | no file → 400; otherwise the mock document with the file's name, type and size, the time and the extracted count, the preview, the characters-extracted message, the classification and the mock notification |
| DocumentsTest.MockUploadClassifies | backend/routes/documents-test.js:58-90 | a successful read of an accepted file gives a typed document counting one extracted item iff the text is non-empty |
| DocumentsTest.MockContent | backend/routes/documents-test.js:117-130 | the requested id with the fixed mock fields |
| ValueAlignment.ProfileFrom | frontend/js/value-alignment-manager.js:17-24 | missing answers become empty lists and a confidence level of 0 |
| ValueAlignment.ActiveGoals | frontend/js/value-alignment-manager.js:76 | exactly the goals whose status is `active` |
| ValueAlignment.ActiveGoalsConcat | frontend/js/value-alignment-manager.js:76 | the filter keeps profile order: filtering a concatenation concatenates the filtered parts |
| ValueAlignment.MatchElements | frontend/js/value-alignment-manager.js:45-58 | the loop collects exactly the elements whose text or description the response mentions |
| ValueAlignment.MatchConcerns | frontend/js/value-alignment-manager.js:60-73 | the loop collects exactly the concerns the response mentions |
| ValueAlignment.MatchGoals | frontend/js/value-alignment-manager.js:75-88 | the loop collects exactly the active goals the response mentions |
| ValueAlignment.EvaluateAlignment | frontend/js/value-alignment-manager.js:32-96 | the matches, the score (2 per element or concern, 1 per goal) and the misalignment flag |
| ValueAlignment.BestLifePart | frontend/js/value-alignment-manager.js:116-125 | one best-life recommendation iff the user has an element, about one of them |
| ValueAlignment.ConcernPart | frontend/js/value-alignment-manager.js:128-137 | one concern recommendation iff the user has a concern, about one of them |
| ValueAlignment.GoalPart | frontend/js/value-alignment-manager.js:140-150 | one goal recommendation iff the user has an active goal, about one of them |
| ValueAlignment.AlignmentRecommendations | frontend/js/value-alignment-manager.js:112-153 | at most one per category, in the order best life, concern, goal, each present iff its category is non-empty |
| ValueAlignment.CategoriesInOrder | frontend/js/value-alignment-manager.js:112-153 | concatenating the three parts lists them in category order |
| ValueAlignment.BoundedLog | frontend/js/value-alignment-manager.js:158-164 | at most the newest 100 entries, a suffix of the full log |
| ValueAlignment.LogKeepsNewestLast | frontend/js/value-alignment-manager.js:158-164 | the newest entry is always kept, as the last one |
| ValueAlignment.EnhancementFollowsCategoryOrder | frontend/js/value-alignment-manager.js:228-248 | a weak response gets the follow-up of the first non-empty category; a strong one is unchanged |
| ValueAlignment.ExpectedAlignmentFields | frontend/js/value-alignment-manager.js:32-107 | recommendations are made exactly when the score is below 3 |
| ValueAlignment.EnhancedByFirstPick | frontend/js/value-alignment-manager.js:233-245 | the appended follow-up is the one for the first recommendation |
| ValueAlignment.FirstRecommendation | frontend/js/value-alignment-manager.js:112-153 | the first recommendation is the first non-empty category's |
| ValueAlignment.ElementMatchesCount | frontend/js/value-alignment-manager.js:45-58 | no more element matches than elements, and none iff no element matches |
| ValueAlignment.ConcernMatchesCount | frontend/js/value-alignment-manager.js:60-73 | no more concern matches than concerns, and none iff no concern matches |
| ValueAlignment.GoalMatchesCount | frontend/js/value-alignment-manager.js:75-88 | no more goal matches than goals, and none iff no goal matches |
| ValueAlignment.NoAlignmentIffNothingMatches | frontend/js/value-alignment-manager.js:90-96 | the response is flagged as misaligned iff nothing matches, and otherwise carries no misalignment |
| ValueAlignment.ScoreBounded | frontend/js/value-alignment-manager.js:45-88 | the score is at most 2 per element and concern plus 1 per active goal |
| ValueAlignment.ElementMentionScoresTwo | frontend/js/value-alignment-manager.js:46-57 | mentioning an element scores at least 2 |
| ValueAlignment.EmptyElementMatchesEverything | frontend/js/value-alignment-manager.js:48 | an element with empty text matches every response |
| ValueAlignment.MissingDescriptionMatchesUndefined | frontend/js/value-alignment-manager.js:49 | a missing description makes the word `undefined` count as a match |
| ValueAlignment.LowScoreRecommends | frontend/js/value-alignment-manager.js:98-101 | a score of 3 or more yields no recommendation; a lower one with a non-empty profile yields at least one |
| ValueAlignment.ConversationContextOf | frontend/js/value-alignment-manager.js:253-260 | the element and concern texts in order, the texts of the active goals in profile order, and the confidence level |
| ValueAlignment.FirstRelatedElement | frontend/js/value-alignment-manager.js:272-275 | the first element related to the topic either way round, or none |
| ValueAlignment.FirstRelatedConcern | frontend/js/value-alignment-manager.js:283-286 | the first concern related to the topic, or none |
| ValueAlignment.ValidateTopicChange | frontend/js/value-alignment-manager.js:265-304 | the topic is aligned iff some element or concern is related to it, and the reasoning names the first related element, else the first related concern, else gives the fixed no-match reasoning and approach |
| ValueAlignment.Stats | frontend/js/value-alignment-manager.js:187-223 | the number of checks, and the aligned count as the number of positions whose score is at least 3 (zero iff none) |
| ValueAlignment.AlignedIndicesAppend | frontend/js/value-alignment-manager.js:199 | appending a check adds one aligned position exactly when it scored at least 3 |
| ValueAlignment.StatsOfOne | frontend/js/value-alignment-manager.js:197-199 | one check counts once, adds its score and is aligned iff it scored at least 3 |
| ValueAlignment.StatsConcat | frontend/js/value-alignment-manager.js:197-199 | the statistics of two logs in sequence are the field-by-field sums, which with StatsOfOne fixes the score sum of every log |
| ValueAlignment.Manager.constructor | frontend/js/value-alignment-manager.js:8-12 | no profile and an empty log |
| ValueAlignment.Manager.Initialize | frontend/js/value-alignment-manager.js:17-24 | the profile is derived from the history; the log is unchanged |
| ValueAlignment.Manager.LogAlignmentCheck | frontend/js/value-alignment-manager.js:158-164 | the log becomes the bounded log with the new entry |
| ValueAlignment.Manager.CheckValueAlignment | frontend/js/value-alignment-manager.js:32-107 | returns the specified alignment and logs it |
| ValueAlignment.Manager.EnhanceResponseWithValues | frontend/js/value-alignment-manager.js:228-248 | returns the enhanced response and logs the check |
| ApiClient.BuildRequest | frontend/js/api-client.js:16-30 | URL, method and JSON content type; a bearer header iff a token is held; a body iff data is given and the method is not GET |
| ApiClient.CallResult | frontend/js/api-client.js:32-49 | success iff the server answered with a 2xx status; a 401 gives "Authentication required" |
| ApiClient.ApiErrorMessageIsPlain | frontend/js/api-client.js:42 | an `API error` message never reads as an auth or a network failure |
| ApiClient.ServerErrorIsNotNetworkFailure | frontend/js/api-client.js:42-58 | a non-401 server error is not queued offline when the browser is online |
| ApiClient.RequeueIsOrderedSubsequence | frontend/js/api-client.js:90-111 | the kept queue is an ordered subsequence of the old one and holds no auth request |
| ApiClient.ReplayCountsBounded | frontend/js/api-client.js:88-113 | processed plus re-queued never exceeds the queue length |
| ApiClient.RequeueKeepsExactlyFailures | frontend/js/api-client.js:101-106 | a request is kept iff its replay failed with something other than an auth error |
| ApiClient.ReplayScenario | frontend/js/api-client.js:82-116 | with the queued auth request's fetch failing, it is skipped anyway; a success is counted; an entry answered 500 is kept; the token stays |
| ApiClient.DispatchOf | frontend/js/api-client.js:443-461 | which wrapper each data type reaches: nothing for unknown types, a throw for feedback without data, PUT for About-Me, POST otherwise, the endpoint of each type, the feedback body built from the current session id and the item's text and context, and a safety event carrying the current session id unless its own `sessionId` overrides it |
| ApiClient.SaveLandsOnce | frontend/js/api-client.js:443-469 | each save lands in at most one queue, and in none exactly when the call succeeds |
| ApiClient.SyncStep | frontend/js/api-client.js:485-495 | one sync step queues the item's request, re-queues the item, or neither, as its save did |
| ApiClient.SyncAccountsForEveryItem | frontend/js/api-client.js:485-495 | with the retaining sync every item either lands or is kept in a queue |
| ApiClient.LostItemExample | frontend/js/api-client.js:498-503 | as written, a failed item is dropped from the data queue |
| ApiClient.Client.constructor | frontend/js/api-client.js:8-10 | the stored token is loaded; no user and no session |
| ApiClient.Client.ApiCall | frontend/js/api-client.js:16-50 | sends the built request, returns the call's result and drops the token on 401 |
| ApiClient.Client.ApiCallWithOfflineSupport | frontend/js/api-client.js:53-79 | a network failure or an offline browser queues the request and answers `queued_offline`; other errors propagate |
| ApiClient.Client.ProcessOfflineQueue | frontend/js/api-client.js:82-116 | an empty queue answers 0/0; otherwise the queue becomes the failed requests and the counts are returned |
| ApiClient.Client.GetOfflineQueueStatus | frontend/js/api-client.js:350-358 | the two queue lengths and their sum |
| ApiClient.Client.Logout | frontend/js/api-client.js:361-366 | clears the token, the user and the session, keeping both queues |
| ApiClient.Client.SaveToAPI | frontend/js/api-client.js:443-469 | a failed save appends the item to the data queue; a network failure queues the API request instead |
| ApiClient.Client.SaveAll | frontend/js/api-client.js:485-495 | the loop saves every item in order, growing the queues by exactly what each save adds |
| ApiClient.Client.SyncOfflineData | frontend/js/api-client.js:472-505 | as written: the API queue is replayed, every item saved and then the data queue is emptied; the token is forgotten when any replay or save got a 401 |
| ApiClient.Client.SyncOfflineDataRetaining | frontend/js/api-client.js:472-505 | corrected: the data queue ends as exactly the items whose save failed; the token is forgotten when any replay or save got a 401 |

## Left out

- I/O and time: `fetch`, `localStorage`, the JSON files of the server, the clock and
  id generation are parameters (outcome oracles, `now`, ids). `JSON.parse`/`stringify`
  round trips are taken as the identity on the modelled values.
- The outcome of each network call is given as a parameter. The state of the
  `navigator.onLine` flag is a boolean parameter.
- Concurrency: the `setImmediate` callbacks of the audit wrapper run when
  `Exchange.RunDeferred` is called; interleaving with other requests is not modelled, and
  all deferred rows share one time stamp.
- Database failures are all-or-nothing: a request either reaches an unavailable database
  at its first query (the route's 500) or every query but the audit insert succeeds. A
  failure halfway through a route is not modelled. Real SQL execution, joined columns
  (`user_name`, `context`), column defaults and type coercion are not modelled. Text is
  ordered by code point, not by the database's collation.
- The order of uploads is their insertion order, standing in for `upload_timestamp`.
- The routes do not carry the serial-id shape of each table (`Tables.SerialIds`) as an
  invariant; `Tables.NextIdIsFresh` states it for one table of ids.
- DocumentPipeline.Preview: lengths and cut points count Unicode scalar values, where
  JavaScript's `length` and `substring` count UTF-16 code units; the same holds for the
  character count reported by `DocumentPipeline.UploadMessage`. Text outside the Basic
  Multilingual Plane is cut at a different place and counted differently.
- ApiClient.DispatchOf: only an event passed through unchanged (`Json`) can carry its own
  `sessionId`; the client's other body shapes stored as a safety event are taken to have
  none.
- ApiClient.Client.SyncOfflineDataRetaining: keeps items whose save was refused with 401
  as well. `saveToAPI` re-queues them in its own catch, so the sync's test against
  authentication errors never sees them; that exclusion is not modelled.
- JWT signing and verification: the sign-in answer carries the user, and token
  verification is a function parameter of `AuthGate.Decide`. A claim that is not a
  number is treated as a query error.
- Express wiring is not modelled. `server.js` destructures `authenticateToken` and
  `errorHandler` from modules that export different shapes. It never sets `req.db`, which
  the token gate and the error handler read. Route order and mounting are left out.
  `AuthGate.NoHandleAdmitsNobody` and the `hasHandle` flag of `ErrorHandler.HandleError`
  state what happens without the handle.
- The routes read the caller as `req.user.userId`, but the token gate stores the row
  (which has `id`) in `req.user`. The routes take the caller id as a parameter.
- The token gate's outer catch, which passes an unexpected error to `next`, is not
  modelled.
- The clinician webhook (`axios.post`) and all logging (`console`, `req.logger`) are not
  modelled.
- Lower-casing covers ASCII letters only.
- ValueAlignment.Stats: returns the sum of scores and the aligned count instead of the
  rounded floating-point average and rate, and leaves out the top-five recommendation
  ranking.
- ValueAlignment.Manager.CheckValueAlignment: requires an initialized profile. The
  source throws a `TypeError` when none is set.
- ValueAlignment.Manager.EnhanceResponseWithValues: requires an initialized profile, as
  above.
- The persistence of the alignment log into the global `userHistory` is not modelled.
  `validateTopicChange`'s unused `currentContext` argument is not modelled.
- Which element, concern or goal a recommendation picks relies on `Math.random`. The pick
  is a parameter (`Picks`).
- The other `SofiaAPI` wrappers (authenticate, profile, sessions, uploads) are calls of
  `ApiCall`/`ApiCallWithOfflineSupport` with fixed endpoints. They are not modelled one by
  one. `isAuthenticated`, `getCurrentUser` and the `online` event listener are not
  modelled.
- The upload middleware (`multer`) writes files to disk. Only its filter and size cap are
  modelled (`DocumentPipeline.Screen`).
- PDF parsing and file reads are results given as parameters.
- `routes/feedback.js`, `routes/chapters.js`, `routes/goals.js` and
  `backend/middleware/encryption.js` are not part of this model.

## Findings

| source | as written | input that shows it | evidently intended | confidence | as-written member | corrected member |
|---|---|---|---|---|---|---|
| frontend/js/api-client.js:485-503 | `saveToAPI` catches its own errors and re-queues the item in the data queue, so the sync never sees a failure and then removes the whole data queue | one queued `goal` item whose save fails with a server error: after the sync both queues are empty | items whose save failed stay in the data queue (the loop's comment also drops authentication failures; `saveToAPI` re-queues those too, and the corrected member keeps them) | high; not executed | ApiClient.Client.SyncOfflineData, ApiClient.LostItemExample | ApiClient.Client.SyncOfflineDataRetaining, ApiClient.SyncAccountsForEveryItem |
| backend/server.js:223-250 | `fs` is the callback API, so `await fs.readFile(path)` throws before any read, and every upload is classified `unknown` with a failure text | any PDF or text upload | the file is read and classified by its content | high; not executed | ServerDocuments.FileBackedDocuments.Upload, ServerDocuments.ServerExtractionAlwaysFails | DocumentPipeline.Classify, DocumentsTest.MockUploadClassifies |
| backend/server.js:48-63 | the filter's third test repeats `text/plain` where the other routers accept `application/json` | an `application/json` upload is rejected | JSON uploads are accepted as by the other routers | medium; not executed | ServerDocuments.ServerRejectsJson | DocumentPipeline.Screen, DocumentPipeline.JsonAccepted |
| backend/routes/admin.js:13 | `ORDER BY priority DESC` on the text priority sorts `high` before `critical` | one `critical` and one `high` pending alert: the `high` one is listed first | most urgent first: critical, high, medium, low | medium (assumes a text column); not executed | AdminRoute.PendingAlerts, AdminRoute.HighListedBeforeCritical | AdminRoute.PendingAlertsByUrgency, AdminRoute.CriticalListedBeforeHigh |
