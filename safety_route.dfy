/** The safety-event route: every event is stored and audited; a `critical` or `high`
    one is marked as notifying a clinician and raises a clinical alert whose priority is
    the severity. The alert helper swallows its own failures, and its webhook call is not
    part of this model. */
module SafetyRoute {
  import opened Wrappers
  import opened Js
  import opened Http
  import opened Tables
  import opened Audit

  const SafetyEventFailed := HttpError(500, "Failed to create safety event")
  const AlertType := "safety_trigger"
  const AlertMessagePrefix := "User requires immediate clinical attention. Context: "

  datatype SafetyInput = SafetyInput(sessionId: Value, triggerType: Value, severity: Value, keywords: Value, context: Value)

  /** `severity === 'critical' || severity === 'high'`. */
  predicate NotifiesClinician(severity: Value) {
    severity == Atom(Str("critical")) || severity == Atom(Str("high"))
  }

  /** The alert row `createClinicalAlert` inserts. */
  function AlertRow(id: Id, userId: Id, eventId: Id, priority: string, context: Value, now: string): (a: ClinicalAlert)
    ensures a.alertType == AlertType && a.priority == priority && !a.acknowledged
    ensures a.message == AlertMessagePrefix + TemplateText(context)
  {
    ClinicalAlert(id, userId, eventId, AlertType, priority, AlertMessagePrefix + TemplateText(context), false, now)
  }

  /** `createClinicalAlert`: one alert insert; a failure is logged and swallowed. */
  method CreateClinicalAlert(db: Database, userId: Id, eventId: Id, priority: string, context: Value, now: string)
    modifies db
    ensures db.reachable ==>
      db.tables == old(db.tables).(alerts := old(db.tables.alerts) + [AlertRow(NextId(|old(db.tables.alerts)|), userId, eventId, priority, context, now)])
    ensures !db.reachable ==> db.tables == old(db.tables)
  {
    if db.reachable {
      var a := AlertRow(NextId(|db.tables.alerts|), userId, eventId, priority, context, now);
      db.tables := db.tables.(alerts := db.tables.alerts + [a]);
    }
  }

  /** The row the insert returns: each body field bound as given, so a missing one reads
      back as `NULL`, and the notification flag computed from the severity. */
  function EventRow(id: Id, userId: Id, input: SafetyInput): (e: SafetyEvent)
    ensures e.id == id && e.userId == userId
    ensures e.clinicianNotified <==> NotifiesClinician(input.severity)
    ensures e.sessionId != Undefined && e.triggerType != Undefined && e.severity != Undefined
    ensures e.keywords != Undefined && e.context != Undefined
    ensures input.severity != Undefined ==> e.severity == input.severity
  {
    SafetyEvent(id, userId, Stored(input.sessionId), Stored(input.triggerType), Stored(input.severity),
      Stored(input.keywords), Stored(input.context), NotifiesClinician(input.severity))
  }

  /** The alerts a new event adds: one, with the severity as priority and the request's
      own context in its message, exactly when the severity notifies a clinician. */
  function RaisedAlerts(alerts: seq<ClinicalAlert>, userId: Id, eventId: Id, input: SafetyInput, now: string)
    : (r: seq<ClinicalAlert>)
    ensures |r| == (if NotifiesClinician(input.severity) then 1 else 0)
    ensures forall a :: a in r ==>
      && a.id == NextId(|alerts|) && a.safetyEventId == eventId && a.userId == userId
      && input.severity == Atom(Str(a.priority))
      && a.message == AlertMessagePrefix + TemplateText(input.context)
  {
    if NotifiesClinician(input.severity)
    then [AlertRow(NextId(|alerts|), userId, eventId, input.severity.scalar.s, input.context, now)]
    else []
  }

  /** `POST /safety-events`. */
  method CreateSafetyEvent(db: Database, userId: Id, input: SafetyInput, client: Client, now: string)
    returns (res: Result<SafetyEvent, HttpError>)
    modifies db
    ensures !db.reachable ==> res == Err(SafetyEventFailed) && db.tables == old(db.tables)
    ensures db.reachable ==>
      var e := EventRow(NextId(|old(db.tables.safetyEvents)|), userId, input);
      && res == Ok(e)
      && db.tables == old(db.tables).(
           safetyEvents := old(db.tables.safetyEvents) + [e],
           alerts := old(db.tables.alerts) + RaisedAlerts(old(db.tables.alerts), userId, e.id, input, now),
           audit := Audited(old(db.tables.audit),
             LogRow(Atom(Num(userId)), "SAFETY_EVENT_CREATED", "safety_events", Atom(Num(e.id)), client, now), db.auditAccepts))
  {
    if !db.reachable {
      return Err(SafetyEventFailed);
    }
    var notify := NotifiesClinician(input.severity);
    var e := EventRow(NextId(|db.tables.safetyEvents|), userId, input);
    db.tables := db.tables.(safetyEvents := db.tables.safetyEvents + [e]);
    if notify {
      CreateClinicalAlert(db, userId, e.id, input.severity.scalar.s, input.context, now);
    }
    AuditLog(db, Atom(Num(userId)), "SAFETY_EVENT_CREATED", "safety_events", Atom(Num(e.id)), client, now);
    res := Ok(e);
  }

  /** Only the two top severities reach a clinician; any other value, including a
      missing one, does not. */
  lemma {:induction false} OnlyTopSeveritiesNotify(severity: Value)
    ensures NotifiesClinician(severity) <==> severity.Atom? && severity.scalar.Str? && severity.scalar.s in {"critical", "high"}
    ensures !NotifiesClinician(Atom(Str("medium"))) && !NotifiesClinician(Undefined)
  {
    assert "medium" != "critical" && "medium" != "high" by {
      assert |"medium"| == 6 && |"high"| == 4 && |"critical"| == 8;
    }
  }
}
