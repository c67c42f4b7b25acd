/** The audit recorder and the `res.json` interceptor. A route calls `AuditLog`, which
    issues one insert into `audit_log` and swallows its failure. The interceptor wraps
    `res.json`: each call passes the payload on unchanged and defers one audit insert per
    installed wrapper until after the response; `setImmediate` is modelled as a queue of
    pending inserts that `RunDeferred` drains. */
module Audit {
  import opened Wrappers
  import opened Js
  import opened Tables

  /** The audit log after an insert of `row` that lands exactly when `accepted`. */
  function Audited(log: seq<AuditRow>, row: AuditRow, accepted: bool): (r: seq<AuditRow>)
    ensures accepted ==> r == log + [row]
    ensures !accepted ==> r == log
  {
    if accepted then log + [row] else log
  }

  /** The row `auditLog` inserts: the arguments as given, the caller's address and agent,
      and a timestamp. */
  function LogRow(userId: Value, action: string, resourceType: string, resourceId: Value, client: Client, now: string): (row: AuditRow)
    ensures row.userId == userId && row.action == action
    ensures row.resourceType == resourceType && row.resourceId == resourceId
    ensures row.metadata.Stamped? && row.metadata.timestamp == now
  {
    AuditRow(userId, action, resourceType, resourceId, client.ip, client.userAgent, Stamped(now))
  }

  /** `auditLog`: one insert; a failing insert is logged and never reaches the caller,
      and no other table changes. */
  method AuditLog(db: Database, userId: Value, action: string, resourceType: string, resourceId: Value, client: Client, now: string)
    modifies db
    ensures db.tables == old(db.tables).(audit := Audited(old(db.tables.audit),
      LogRow(userId, action, resourceType, resourceId, client, now), db.reachable && db.auditAccepts))
  {
    if db.reachable && db.auditAccepts {
      db.tables := db.tables.(audit := db.tables.audit + [LogRow(userId, action, resourceType, resourceId, client, now)]);
    }
  }

  /** What the interceptor reads from the request; `callerId` is `req.user?.userId`,
      `Undefined` when no user is attached. */
  datatype Request = Request(callerId: Value, httpMethod: string, path: string, paramsId: Option<string>, client: Client)

  /** The row the interceptor inserts for `actionType`, stamped when the deferred insert
      runs. */
  function InterceptedRow(req: Request, actionType: string, now: string): (row: AuditRow)
    ensures IsTruthy(req.callerId) ==> row.userId == req.callerId
    ensures !IsTruthy(req.callerId) ==> row.userId == Null
    ensures row.action == actionType
    ensures row.resourceType == req.httpMethod + " " + req.path
    ensures Given(req.paramsId) ==> row.resourceId == Atom(Str(req.paramsId.value))
    ensures !Given(req.paramsId) ==> row.resourceId == Null
    ensures row.metadata == RequestStamped(now, req.httpMethod, req.path)
  {
    AuditRow(
      if IsTruthy(req.callerId) then req.callerId else Null,
      actionType,
      req.httpMethod + " " + req.path,
      if Given(req.paramsId) then Atom(Str(req.paramsId.value)) else Null,
      req.client.ip,
      req.client.userAgent,
      RequestStamped(now, req.httpMethod, req.path))
  }

  /** The elements of `s`, last first. */
  function Reverse<T>(s: seq<T>): (r: seq<T>)
  {
    if s == [] then [] else [s[|s| - 1]] + Reverse(s[..|s| - 1])
  }

  /** Reversal keeps every element exactly once, so a `json` call schedules one insert per
      installed wrapper, each wrapper's action exactly once. */
  lemma {:induction false} ReverseKeepsElements<T>(s: seq<T>)
    ensures |Reverse(s)| == |s|
    ensures multiset(Reverse(s)) == multiset(s)
    ensures forall i :: 0 <= i < |s| ==> Reverse(s)[i] == s[|s| - 1 - i]
  {
    if s != [] {
      var init := s[..|s| - 1];
      ReverseKeepsElements(init);
      assert s == init + [s[|s| - 1]];
      forall i | 1 <= i < |s|
        ensures Reverse(s)[i] == s[|s| - 1 - i]
      {
        assert Reverse(s)[i] == Reverse(init)[i - 1];
      }
    }
  }

  /** The rows the deferred inserts write, in the order they were scheduled, all stamped
      with the time the deferred work runs. */
  function DeferredRows(req: Request, actions: seq<string>, now: string): (rows: seq<AuditRow>)
    ensures |rows| == |actions|
    ensures forall i :: 0 <= i < |actions| ==> rows[i] == InterceptedRow(req, actions[i], now)
  {
    if actions == [] then []
    else DeferredRows(req, actions[..|actions| - 1], now) + [InterceptedRow(req, actions[|actions| - 1], now)]
  }

  /** One request/response exchange. `wrappers` are the action types of the audit
      wrappers installed on `res.json`, innermost first; `sent` the payloads the original
      `json` sent; `pending` the action types of the audit inserts `setImmediate` has
      queued; `nextCalls` how often the middleware chain was continued. */
  class Exchange {
    const request: Request
    var wrappers: seq<string>
    var sent: seq<Value>
    var pending: seq<string>
    var nextCalls: nat

    constructor (request: Request)
      ensures this.request == request
      ensures wrappers == [] && sent == [] && pending == [] && nextCalls == 0
    {
      this.request := request;
      wrappers := [];
      sent := [];
      pending := [];
      nextCalls := 0;
    }

    /** `auditMiddleware(actionType)` applied to this exchange: wraps `res.json` and
        calls `next` exactly once. */
    method AuditMiddleware(actionType: string)
      modifies this
      ensures wrappers == old(wrappers) + [actionType]
      ensures nextCalls == old(nextCalls) + 1
      ensures sent == old(sent) && pending == old(pending)
    {
      wrappers := wrappers + [actionType];
      nextCalls := nextCalls + 1;
    }

    /** `res.json(data)` through every installed wrapper: each wrapper, outermost first,
        queues its insert and hands `data` unchanged to the one it replaced; the original
        sends it and returns the response itself. */
    method Json(data: Value) returns (r: Exchange)
      modifies this
      ensures r == this
      ensures sent == old(sent) + [data]
      ensures pending == old(pending) + Reverse(old(wrappers))
      ensures wrappers == old(wrappers) && nextCalls == old(nextCalls)
    {
      assert wrappers[..|wrappers|] == wrappers;
      r := CallLayer(|wrappers|, data);
    }

    /** The `json` installed by the `k` innermost wrappers. */
    method CallLayer(k: nat, data: Value) returns (r: Exchange)
      requires k <= |wrappers|
      modifies this
      ensures r == this
      ensures sent == old(sent) + [data]
      ensures pending == old(pending) + Reverse(old(wrappers)[..k])
      ensures wrappers == old(wrappers) && nextCalls == old(nextCalls)
      decreases k
    {
      if k == 0 {
        sent := sent + [data];
        r := this;
      } else {
        pending := pending + [wrappers[k - 1]];
        r := CallLayer(k - 1, data);
        assert old(wrappers)[..k][..k - 1] == old(wrappers)[..k - 1];
      }
    }

    /** The deferred work runs after the response: every queued insert is attempted in
        order, a failing one is logged and skipped, and the queue is empty afterwards. */
    method RunDeferred(db: Database, now: string)
      modifies this, db
      ensures pending == []
      ensures db.tables == old(db.tables).(audit := old(db.tables.audit) +
        (if db.reachable && db.auditAccepts then DeferredRows(request, old(pending), now) else []))
      ensures wrappers == old(wrappers) && sent == old(sent) && nextCalls == old(nextCalls)
    {
      var jobs := pending;
      var i := 0;
      while i < |jobs|
        invariant 0 <= i <= |jobs|
        invariant db.tables == old(db.tables).(audit := old(db.tables.audit) +
          (if db.reachable && db.auditAccepts then DeferredRows(request, jobs[..i], now) else []))
        invariant pending == jobs && wrappers == old(wrappers) && sent == old(sent) && nextCalls == old(nextCalls)
      {
        if db.reachable && db.auditAccepts {
          db.tables := db.tables.(audit := db.tables.audit + [InterceptedRow(request, jobs[i], now)]);
        }
        assert jobs[..i + 1][..i] == jobs[..i];
        i := i + 1;
      }
      assert jobs[..i] == jobs;
      pending := [];
    }
  }

  /** With wrappers `ws` installed, one `json` call followed by the deferred work writes
      one row per wrapper, the last-installed wrapper's row first; with a single wrapper
      that is exactly one row, for its own action type. */
  lemma {:induction false} JsonAuditRows(req: Request, ws: seq<string>, now: string)
    ensures |DeferredRows(req, Reverse(ws), now)| == |ws|
    ensures forall i :: 0 <= i < |ws| ==>
      DeferredRows(req, Reverse(ws), now)[i] == InterceptedRow(req, ws[|ws| - 1 - i], now)
    ensures |ws| == 1 ==> DeferredRows(req, Reverse(ws), now) == [InterceptedRow(req, ws[0], now)]
  {
    ReverseKeepsElements(ws);
  }
}
