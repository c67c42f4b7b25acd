/** The browser-side API client: authenticated JSON calls, the offline API queue that
    collects requests failing for network reasons and replays them later, and the data
    queue that collects items whose save failed for any other reason. */
module ApiClient {
  import opened Wrappers
  import opened Strings
  import opened Js

  const AuthEndpoint := "/users/auth"
  const AuthRequired := "Authentication required"
  const ApiErrorPrefix := "API error: "
  const QueuedMessage := "Request queued for when connection is restored"
  const JsonContentType := "application/json"

  /** The JSON payloads the client sends. `Json` stands for an object passed through
      unchanged, with its own `sessionId` property when it has one; the other shapes are
      the ones the client builds itself. */
  datatype Data =
    | Json(ownSessionId: Option<string>, json: string)
    | FeedbackInput(text: Option<string>, context: Option<string>)
    | FeedbackBody(sessionId: Option<string>, feedbackText: Option<string>, conversationContext: Option<string>)
    | SessionTagged(sessionId: Option<string>, event: Option<Data>)

  datatype HttpRequest = HttpRequest(
    url: string,
    httpMethod: string,
    contentType: string,
    authorization: Option<string>,
    body: Option<Data>)

  /** What `fetch` yields for one call: a response with its status and parsed JSON, or a
      rejection carrying an error message (e.g. "Failed to fetch"). */
  datatype FetchOutcome = Responded(status: nat, body: Data) | Rejected(message: string)

  /** An entry of the API queue (`sofia_offline_api_queue`). */
  datatype QueuedRequest = QueuedRequest(endpoint: string, httpMethod: string, data: Option<Data>, timestamp: string)

  /** An entry of the data queue (`sofia_offline_queue`). */
  datatype DataItem = DataItem(dataType: string, data: Option<Data>, timestamp: string)

  datatype OfflineResult = Delivered(body: Data) | QueuedOffline(message: string, queueLength: nat)

  datatype ReplaySummary = ReplaySummary(processed: nat, failed: nat)

  datatype QueueStatus = QueueStatus(apiRequests: nat, dataItems: nat, total: nat)

  // ---------------------------------------------------------------- a single call

  /** The request `apiCall` hands to `fetch`. */
  function BuildRequest(baseUrl: string, token: Option<string>, endpoint: string, httpMethod: string, data: Option<Data>): (r: HttpRequest)
    ensures r.url == baseUrl + endpoint && r.httpMethod == httpMethod && r.contentType == JsonContentType
    ensures r.authorization.Some? <==> Given(token)
    ensures r.authorization.Some? ==> r.authorization.value == "Bearer " + token.value
    ensures r.body.Some? <==> data.Some? && httpMethod != "GET"
    ensures r.body.Some? ==> r.body == data
  {
    HttpRequest(baseUrl + endpoint, httpMethod, JsonContentType,
      if Given(token) then Some("Bearer " + token.value) else None,
      if data.Some? && httpMethod != "GET" then data else None)
  }

  predicate IsOk(status: nat) {
    200 <= status < 300
  }

  function ApiErrorMessage(status: nat): string {
    ApiErrorPrefix + NatToString(status)
  }

  /** A 401 response clears the held and the stored token. */
  predicate ClearsToken(outcome: FetchOutcome) {
    outcome.Responded? && outcome.status == 401
  }

  /** What `apiCall` resolves to (`Ok`) or the message it throws (`Err`). */
  function CallResult(outcome: FetchOutcome): (r: Result<Data, string>)
    ensures r.Ok? <==> outcome.Responded? && IsOk(outcome.status)
    ensures r.Ok? ==> r.value == outcome.body
    ensures ClearsToken(outcome) ==> r == Err(AuthRequired)
  {
    match outcome
    case Responded(status, body) =>
      if IsOk(status) then Ok(body)
      else if status == 401 then Err(AuthRequired)
      else Err(ApiErrorMessage(status))
    case Rejected(message) => Err(message)
  }

  /** The test that sends a failed call to the offline queue. */
  predicate NetworkFailure(online: bool, message: string) {
    !online || Contains(message, "Failed to fetch") || Contains(message, "NetworkError")
  }

  /** The message of a non-401 error status mentions neither authentication nor a
      network failure, so such an error is neither dropped as an auth failure nor queued
      while the browser is online. */
  lemma ApiErrorMessageIsPlain(status: nat)
    ensures !Contains(ApiErrorMessage(status), AuthRequired)
    ensures !Contains(ApiErrorMessage(status), "Failed to fetch")
    ensures !Contains(ApiErrorMessage(status), "NetworkError")
  {
    var m := ApiErrorMessage(status);
    var d := NatToString(status);
    assert forall i :: 0 <= i < |m| ==> (i < 11 ==> m[i] == ApiErrorPrefix[i]) && (i >= 11 ==> m[i] == d[i - 11]);
    assert forall i :: 0 <= i < |m| ==> m[i] != 'F' && m[i] != 'N' && (m[i] == 'A' ==> i == 0);
    NoMatchByLeadingPair(m, AuthRequired);
    NoMatchByLeadingPair(m, "Failed to fetch");
    NoMatchByLeadingPair(m, "NetworkError");
  }

  /** While online, a call answered with an error status other than 401 is not treated as
      a network failure. */
  lemma {:induction false} ServerErrorIsNotNetworkFailure(status: nat, body: Data)
    requires !IsOk(status) && status != 401
    ensures CallResult(Responded(status, body)).Err?
    ensures !NetworkFailure(true, CallResult(Responded(status, body)).error)
    ensures !Contains(CallResult(Responded(status, body)).error, AuthRequired)
  {
    ApiErrorMessageIsPlain(status);
  }

  // ---------------------------------------------------------------- replaying the API queue

  predicate Skipped(q: QueuedRequest) {
    q.endpoint == AuthEndpoint
  }

  /** A replayed entry that failed with an error other than an authentication failure. */
  predicate Requeued(q: QueuedRequest, outcome: FetchOutcome) {
    !Skipped(q) && CallResult(outcome).Err? && !Contains(CallResult(outcome).error, AuthRequired)
  }

  predicate Succeeded(q: QueuedRequest, outcome: FetchOutcome) {
    !Skipped(q) && CallResult(outcome).Ok?
  }

  predicate Unauthorized(q: QueuedRequest, outcome: FetchOutcome) {
    !Skipped(q) && ClearsToken(outcome)
  }

  /** The entries kept after a replay pass, in queue order. */
  function Requeue(queue: seq<QueuedRequest>, outcomes: seq<FetchOutcome>): seq<QueuedRequest>
    requires |queue| == |outcomes|
  {
    if queue == [] then []
    else
      var n := |queue| - 1;
      Requeue(queue[..n], outcomes[..n]) + (if Requeued(queue[n], outcomes[n]) then [queue[n]] else [])
  }

  /** The number of entries replayed successfully. */
  function ProcessedCount(queue: seq<QueuedRequest>, outcomes: seq<FetchOutcome>): nat
    requires |queue| == |outcomes|
  {
    if queue == [] then 0
    else
      var n := |queue| - 1;
      ProcessedCount(queue[..n], outcomes[..n]) + (if Succeeded(queue[n], outcomes[n]) then 1 else 0)
  }

  /** Some replayed entry was answered with 401. */
  predicate ReplayUnauthorized(queue: seq<QueuedRequest>, outcomes: seq<FetchOutcome>)
    requires |queue| == |outcomes|
  {
    queue != [] &&
      var n := |queue| - 1;
      ReplayUnauthorized(queue[..n], outcomes[..n]) || Unauthorized(queue[n], outcomes[n])
  }

  /** `a` is `b` with some entries removed, the rest in their original order. */
  predicate IsSubsequence<T(==)>(a: seq<T>, b: seq<T>) {
    if a == [] then true
    else if b == [] then false
    else if a[|a| - 1] == b[|b| - 1] then IsSubsequence(a[..|a| - 1], b[..|b| - 1])
    else IsSubsequence(a, b[..|b| - 1])
  }

  lemma {:induction false} SubsequenceOfSelfExtended<T>(a: seq<T>, b: seq<T>, x: T)
    requires IsSubsequence(a, b)
    ensures IsSubsequence(a, b + [x])
    decreases |a| + |b|, 1
  {
    if a != [] {
      var c := b + [x];
      assert c[..|c| - 1] == b;
      if a[|a| - 1] == x {
        SubsequenceDropLast(a, b);
      }
    }
  }

  lemma {:induction false} SubsequenceDropLast<T>(a: seq<T>, b: seq<T>)
    requires a != [] && IsSubsequence(a, b)
    ensures IsSubsequence(a[..|a| - 1], b)
    decreases |a| + |b|, 0
  {
    var a' := a[..|a| - 1];
    var b' := b[..|b| - 1];
    assert b' + [b[|b| - 1]] == b;
    if a[|a| - 1] == b[|b| - 1] {
      SubsequenceOfSelfExtended(a', b', b[|b| - 1]);
    } else {
      SubsequenceDropLast(a, b');
      SubsequenceOfSelfExtended(a', b', b[|b| - 1]);
    }
  }

  /** The kept entries keep their relative order, and no `/users/auth` entry survives. */
  lemma {:induction false} RequeueIsOrderedSubsequence(queue: seq<QueuedRequest>, outcomes: seq<FetchOutcome>)
    requires |queue| == |outcomes|
    ensures IsSubsequence(Requeue(queue, outcomes), queue)
    ensures forall q :: q in Requeue(queue, outcomes) ==> q.endpoint != AuthEndpoint
  {
    if queue != [] {
      var n := |queue| - 1;
      RequeueIsOrderedSubsequence(queue[..n], outcomes[..n]);
      var r := Requeue(queue[..n], outcomes[..n]);
      assert queue[..n] + [queue[n]] == queue;
      if Requeued(queue[n], outcomes[n]) {
        assert Requeue(queue, outcomes) == r + [queue[n]];
        assert (r + [queue[n]])[..|r|] == r;
      } else {
        assert Requeue(queue, outcomes) == r;
        SubsequenceOfSelfExtended(r, queue[..n], queue[n]);
      }
    }
  }

  /** Every entry is counted at most once: processed plus kept never exceeds the queue. */
  lemma {:induction false} ReplayCountsBounded(queue: seq<QueuedRequest>, outcomes: seq<FetchOutcome>)
    requires |queue| == |outcomes|
    ensures ProcessedCount(queue, outcomes) + |Requeue(queue, outcomes)| <= |queue|
  {
    if queue != [] {
      var n := |queue| - 1;
      ReplayCountsBounded(queue[..n], outcomes[..n]);
    }
  }

  /** An entry is kept exactly when it failed with an error whose message does not
      mention authentication. */
  lemma {:induction false} RequeueKeepsExactlyFailures(queue: seq<QueuedRequest>, outcomes: seq<FetchOutcome>, q: QueuedRequest)
    requires |queue| == |outcomes|
    ensures q in Requeue(queue, outcomes) <==> exists i :: 0 <= i < |queue| && queue[i] == q && Requeued(queue[i], outcomes[i])
  {
    if queue != [] {
      var n := |queue| - 1;
      var r := Requeue(queue[..n], outcomes[..n]);
      var tail := if Requeued(queue[n], outcomes[n]) then [queue[n]] else [];
      assert Requeue(queue, outcomes) == r + tail;
      RequeueKeepsExactlyFailures(queue[..n], outcomes[..n], q);
      if q in r {
        var i :| 0 <= i < n && queue[..n][i] == q && Requeued(queue[..n][i], outcomes[..n][i]);
        assert queue[i] == q && Requeued(queue[i], outcomes[i]);
      } else if q in tail {
        assert queue[n] == q && Requeued(queue[n], outcomes[n]);
      }
      if exists i :: 0 <= i < |queue| && queue[i] == q && Requeued(queue[i], outcomes[i]) {
        var i :| 0 <= i < |queue| && queue[i] == q && Requeued(queue[i], outcomes[i]);
        if i < n {
          assert queue[..n][i] == q && Requeued(queue[..n][i], outcomes[..n][i]);
          assert q in r;
        } else {
          assert q in tail;
        }
      }
    }
  }

  /** Replaying `[auth, a, b]` where `a` succeeds and `b` gets a 500 keeps only `b` and
      reports one processed and one failed entry. */
  lemma ReplayScenario(auth: QueuedRequest, a: QueuedRequest, b: QueuedRequest, body: Data)
    requires auth.endpoint == AuthEndpoint && a.endpoint != AuthEndpoint && b.endpoint != AuthEndpoint
    ensures var queue := [auth, a, b];
      var outcomes := [Rejected("Failed to fetch"), Responded(200, body), Responded(500, body)];
      Requeue(queue, outcomes) == [b] && ProcessedCount(queue, outcomes) == 1
      && !ReplayUnauthorized(queue, outcomes)
  {
    var queue := [auth, a, b];
    var outcomes := [Rejected("Failed to fetch"), Responded(200, body), Responded(500, body)];
    ServerErrorIsNotNetworkFailure(500, body);
    var q1, o1 := [auth], [Rejected("Failed to fetch")];
    var q2, o2 := [auth, a], [Rejected("Failed to fetch"), Responded(200, body)];
    assert q1[..0] == [] && o1[..0] == [];
    assert Requeue(q1, o1) == [] && ProcessedCount(q1, o1) == 0 && !ReplayUnauthorized(q1, o1);
    assert q2[..1] == q1 && o2[..1] == o1;
    assert Requeue(q2, o2) == [] && ProcessedCount(q2, o2) == 1 && !ReplayUnauthorized(q2, o2);
    assert queue[..2] == q2 && outcomes[..2] == o2;
  }

  // ---------------------------------------------------------------- the data queue

  /** What `saveToAPI` does with an item: nothing for an unknown type; a `feedback` item
      without data fails before any call (`data.text` throws); otherwise one call. */
  datatype Dispatch =
    | NoCall
    | ThrowsBeforeCall
    | Call(endpoint: string, httpMethod: string, body: Option<Data>)

  function FeedbackText(d: Data): Option<string> {
    if d.FeedbackInput? then d.text else None
  }

  function FeedbackContext(d: Data): Option<string> {
    if d.FeedbackInput? then d.context else None
  }

  /** The `sessionId` the server reads from a body the client built. In
      `{sessionId: currentSessionId, ...eventData}` the event's own property is spread
      last, so it wins when the event has one. */
  function SentSessionId(body: Data): (r: Option<string>)
    ensures body.FeedbackBody? ==> r == body.sessionId
    ensures body.SessionTagged? && (body.event.None? || !body.event.value.Json? || body.event.value.ownSessionId.None?)
      ==> r == body.sessionId
  {
    match body
    case SessionTagged(sid, Some(Json(Some(own), _))) => Some(own)
    case SessionTagged(sid, _) => sid
    case FeedbackBody(sid, _, _) => sid
    case _ => None
  }

  /** The route `saveToAPI` chooses for a data type. */
  function DispatchOf(dataType: string, data: Option<Data>, sessionId: Option<string>): (d: Dispatch)
    ensures d.NoCall? <==> dataType !in {"aboutMe", "chapter", "goal", "feedback", "safetyEvent"}
    ensures d.ThrowsBeforeCall? <==> dataType == "feedback" && data.None?
    ensures d.Call? && dataType in {"aboutMe", "chapter", "goal"} ==> d.body == data
    ensures d.Call? ==> d.httpMethod == (if dataType == "aboutMe" then "PUT" else "POST")
    ensures d.Call? ==>
      && (dataType == "aboutMe" ==> d.endpoint == "/users/about-me")
      && (dataType == "chapter" ==> d.endpoint == "/story-chapters")
      && (dataType == "goal" ==> d.endpoint == "/goals")
      && (dataType == "feedback" ==> d.endpoint == "/feedback")
      && (dataType == "safetyEvent" ==> d.endpoint == "/safety-events")
    ensures d.Call? && dataType == "feedback" ==>
      && d.body == Some(FeedbackBody(sessionId, FeedbackText(data.value), FeedbackContext(data.value)))
      && SentSessionId(d.body.value) == sessionId
    ensures d.Call? && dataType == "safetyEvent" ==>
      && d.body.Some? && d.body.value.SessionTagged? && d.body.value.event == data
      && SentSessionId(d.body.value) ==
           if data.Some? && data.value.Json? && data.value.ownSessionId.Some? then data.value.ownSessionId else sessionId
  {
    if dataType == "aboutMe" then Call("/users/about-me", "PUT", data)
    else if dataType == "chapter" then Call("/story-chapters", "POST", data)
    else if dataType == "goal" then Call("/goals", "POST", data)
    else if dataType == "feedback" then
      if data.None? then ThrowsBeforeCall
      else Call("/feedback", "POST", Some(FeedbackBody(sessionId, FeedbackText(data.value), FeedbackContext(data.value))))
    else if dataType == "safetyEvent" then Call("/safety-events", "POST", Some(SessionTagged(sessionId, data)))
    else NoCall
  }

  /** The entry the offline API queue gains from one save: one exactly when the call failed
      for a network reason. */
  function ApiQueuedBy(d: Dispatch, outcome: FetchOutcome, online: bool, now: string): seq<QueuedRequest> {
    if d.Call? && CallResult(outcome).Err? && NetworkFailure(online, CallResult(outcome).error)
    then [QueuedRequest(d.endpoint, d.httpMethod, d.body, now)]
    else []
  }

  /** The save throws into `saveToAPI`'s own catch, which re-queues the item as data. */
  predicate SaveFails(d: Dispatch, outcome: FetchOutcome, online: bool) {
    d.ThrowsBeforeCall? || (d.Call? && CallResult(outcome).Err? && !NetworkFailure(online, CallResult(outcome).error))
  }

  predicate SaveUnauthorized(d: Dispatch, outcome: FetchOutcome) {
    d.Call? && ClearsToken(outcome)
  }

  /** A save lands in exactly one place: delivered, in the API queue, in the data queue,
      or (unknown type) nowhere. */
  lemma SaveLandsOnce(d: Dispatch, outcome: FetchOutcome, online: bool, now: string)
    ensures |ApiQueuedBy(d, outcome, online, now)| + (if SaveFails(d, outcome, online) then 1 else 0) <= 1
    ensures d.Call? ==> (CallResult(outcome).Ok? <==> ApiQueuedBy(d, outcome, online, now) == [] && !SaveFails(d, outcome, online))
    ensures d.NoCall? ==> ApiQueuedBy(d, outcome, online, now) == [] && !SaveFails(d, outcome, online)
  {
  }

  /** The API-queue entries gained while syncing the data queue. */
  function SyncApiQueued(items: seq<DataItem>, outcomes: seq<FetchOutcome>, online: bool, sessionId: Option<string>, now: string): seq<QueuedRequest>
    requires |items| == |outcomes|
  {
    if items == [] then []
    else
      var n := |items| - 1;
      SyncApiQueued(items[..n], outcomes[..n], online, sessionId, now)
        + ApiQueuedBy(DispatchOf(items[n].dataType, items[n].data, sessionId), outcomes[n], online, now)
  }

  /** The items `saveToAPI` re-appends to the data queue while syncing it. */
  function SyncFailedItems(items: seq<DataItem>, outcomes: seq<FetchOutcome>, online: bool, sessionId: Option<string>, now: string): seq<DataItem>
    requires |items| == |outcomes|
  {
    if items == [] then []
    else
      var n := |items| - 1;
      SyncFailedItems(items[..n], outcomes[..n], online, sessionId, now)
        + (if SaveFails(DispatchOf(items[n].dataType, items[n].data, sessionId), outcomes[n], online)
           then [DataItem(items[n].dataType, items[n].data, now)] else [])
  }

  predicate SyncUnauthorized(items: seq<DataItem>, outcomes: seq<FetchOutcome>, sessionId: Option<string>)
    requires |items| == |outcomes|
  {
    items != [] &&
      var n := |items| - 1;
      SyncUnauthorized(items[..n], outcomes[..n], sessionId)
        || SaveUnauthorized(DispatchOf(items[n].dataType, items[n].data, sessionId), outcomes[n])
  }

  /** One more item of the sync pass, for the loop that performs it. */
  lemma SyncStep(items: seq<DataItem>, outcomes: seq<FetchOutcome>, online: bool, sessionId: Option<string>, now: string, i: nat)
    requires |items| == |outcomes| && i < |items|
    ensures var d := DispatchOf(items[i].dataType, items[i].data, sessionId);
      && SyncApiQueued(items[..i + 1], outcomes[..i + 1], online, sessionId, now)
           == SyncApiQueued(items[..i], outcomes[..i], online, sessionId, now) + ApiQueuedBy(d, outcomes[i], online, now)
      && SyncFailedItems(items[..i + 1], outcomes[..i + 1], online, sessionId, now)
           == SyncFailedItems(items[..i], outcomes[..i], online, sessionId, now)
              + (if SaveFails(d, outcomes[i], online) then [DataItem(items[i].dataType, items[i].data, now)] else [])
      && (SyncUnauthorized(items[..i + 1], outcomes[..i + 1], sessionId) <==>
            SyncUnauthorized(items[..i], outcomes[..i], sessionId) || SaveUnauthorized(d, outcomes[i]))
  {
    assert items[..i + 1][..i] == items[..i] && outcomes[..i + 1][..i] == outcomes[..i];
  }

  /** Every item of a known type is delivered, moved to the API queue, or re-appended to
      the data queue by `saveToAPI`. */
  lemma {:induction false} SyncAccountsForEveryItem(items: seq<DataItem>, outcomes: seq<FetchOutcome>, online: bool, sessionId: Option<string>, now: string, i: nat)
    requires |items| == |outcomes| && i < |items|
    ensures var d := DispatchOf(items[i].dataType, items[i].data, sessionId);
      || d.NoCall?
      || (d.Call? && CallResult(outcomes[i]).Ok?)
      || (d.Call? && QueuedRequest(d.endpoint, d.httpMethod, d.body, now) in SyncApiQueued(items, outcomes, online, sessionId, now))
      || DataItem(items[i].dataType, items[i].data, now) in SyncFailedItems(items, outcomes, online, sessionId, now)
    decreases |items|
  {
    var n := |items| - 1;
    if i < n {
      SyncAccountsForEveryItem(items[..n], outcomes[..n], online, sessionId, now, i);
    }
  }

  /** A `goal` item whose save gets a 500 while online ends up in neither queue once the
      data queue is removed at the end of the sync. */
  lemma LostItemExample(goal: Data, body: Data, now: string)
    ensures var items := [DataItem("goal", Some(goal), "t0")];
      var outcomes := [Responded(500, body)];
      SyncApiQueued(items, outcomes, true, None, now) == []
      && SyncFailedItems(items, outcomes, true, None, now) == [DataItem("goal", Some(goal), now)]
  {
    ServerErrorIsNotNetworkFailure(500, body);
  }

  // ---------------------------------------------------------------- the client

  /** The fields of a `Client`, as one value. */
  datatype ClientState = ClientState(apiQueue: seq<QueuedRequest>, dataQueue: seq<DataItem>, authToken: Option<string>,
    storedToken: Option<string>, currentUser: Option<Data>, currentSessionId: Option<string>)

  class Client {
    const baseUrl: string
    /** The token held in memory. */
    var authToken: Option<string>
    /** `localStorage['sofia_auth_token']`. */
    var storedToken: Option<string>
    var currentUser: Option<Data>
    var currentSessionId: Option<string>
    /** `localStorage['sofia_offline_api_queue']`. */
    var apiQueue: seq<QueuedRequest>
    /** `localStorage['sofia_offline_queue']`. */
    var dataQueue: seq<DataItem>

    /** Loading the module reads the stored token into memory. */
    constructor (baseUrl: string, storedToken: Option<string>, apiQueue: seq<QueuedRequest>, dataQueue: seq<DataItem>)
      ensures this.baseUrl == baseUrl && authToken == storedToken && this.storedToken == storedToken
      ensures currentUser == None && currentSessionId == None
      ensures this.apiQueue == apiQueue && this.dataQueue == dataQueue
    {
      this.baseUrl := baseUrl;
      authToken := storedToken;
      this.storedToken := storedToken;
      currentUser := None;
      currentSessionId := None;
      this.apiQueue := apiQueue;
      this.dataQueue := dataQueue;
    }

    /** `apiCall`: sends `BuildRequest` and turns the outcome into a result; a 401
        forgets the token in memory and in storage. */
    method ApiCall(endpoint: string, httpMethod: string, data: Option<Data>, outcome: FetchOutcome)
      returns (res: Result<Data, string>, sent: HttpRequest)
      modifies this
      ensures sent == BuildRequest(baseUrl, old(authToken), endpoint, httpMethod, data)
      ensures res == CallResult(outcome)
      ensures authToken == (if ClearsToken(outcome) then None else old(authToken))
      ensures storedToken == (if ClearsToken(outcome) then None else old(storedToken))
      ensures currentUser == old(currentUser) && currentSessionId == old(currentSessionId)
      ensures apiQueue == old(apiQueue) && dataQueue == old(dataQueue)
    {
      sent := BuildRequest(baseUrl, authToken, endpoint, httpMethod, data);
      match outcome {
        case Rejected(message) =>
          res := Err(message);
        case Responded(status, body) =>
          if !IsOk(status) {
            if status == 401 {
              storedToken := None;
              authToken := None;
              res := Err(AuthRequired);
              return;
            }
            res := Err(ApiErrorPrefix + NatToString(status));
            return;
          }
          res := Ok(body);
      }
    }

    /** `apiCallWithOfflineSupport`: a network-class failure appends exactly one entry to
        the API queue and reports the new queue length; any other failure is rethrown
        with the queue unchanged. */
    method ApiCallWithOfflineSupport(endpoint: string, httpMethod: string, data: Option<Data>, outcome: FetchOutcome, online: bool, now: string)
      returns (res: Result<OfflineResult, string>)
      modifies this
      ensures var r := CallResult(outcome);
        && (r.Ok? ==> res == Ok(Delivered(r.value)) && apiQueue == old(apiQueue))
        && (r.Err? && NetworkFailure(online, r.error) ==>
              && apiQueue == old(apiQueue) + [QueuedRequest(endpoint, httpMethod, data, now)]
              && res == Ok(QueuedOffline(QueuedMessage, |apiQueue|)))
        && (r.Err? && !NetworkFailure(online, r.error) ==> res == Err(r.error) && apiQueue == old(apiQueue))
      ensures authToken == (if ClearsToken(outcome) then None else old(authToken))
      ensures storedToken == (if ClearsToken(outcome) then None else old(storedToken))
      ensures currentUser == old(currentUser) && currentSessionId == old(currentSessionId)
      ensures dataQueue == old(dataQueue)
    {
      var r, _ := ApiCall(endpoint, httpMethod, data, outcome);
      match r {
        case Ok(body) =>
          res := Ok(Delivered(body));
        case Err(message) =>
          if !online || Contains(message, "Failed to fetch") || Contains(message, "NetworkError") {
            apiQueue := apiQueue + [QueuedRequest(endpoint, httpMethod, data, now)];
            res := Ok(QueuedOffline(QueuedMessage, |apiQueue|));
          } else {
            res := Err(message);
          }
      }
    }

    /** `processOfflineQueue`, with one fetch outcome per queued entry. */
    method ProcessOfflineQueue(outcomes: seq<FetchOutcome>) returns (summary: ReplaySummary)
      requires |outcomes| == |apiQueue|
      modifies this
      ensures old(apiQueue) == [] ==> summary == ReplaySummary(0, 0) && apiQueue == []
      ensures apiQueue == Requeue(old(apiQueue), outcomes)
      ensures summary == ReplaySummary(ProcessedCount(old(apiQueue), outcomes), |apiQueue|)
      ensures authToken == (if ReplayUnauthorized(old(apiQueue), outcomes) then None else old(authToken))
      ensures storedToken == (if ReplayUnauthorized(old(apiQueue), outcomes) then None else old(storedToken))
      ensures currentUser == old(currentUser) && currentSessionId == old(currentSessionId)
      ensures dataQueue == old(dataQueue)
    {
      var queue := apiQueue;
      if |queue| == 0 {
        return ReplaySummary(0, 0);
      }
      var failed: seq<QueuedRequest> := [];
      var processed: nat := 0;
      var i := 0;
      while i < |queue|
        invariant 0 <= i <= |queue|
        invariant failed == Requeue(queue[..i], outcomes[..i])
        invariant processed == ProcessedCount(queue[..i], outcomes[..i])
        invariant authToken == (if ReplayUnauthorized(queue[..i], outcomes[..i]) then None else old(authToken))
        invariant storedToken == (if ReplayUnauthorized(queue[..i], outcomes[..i]) then None else old(storedToken))
        invariant currentUser == old(currentUser) && currentSessionId == old(currentSessionId)
        invariant apiQueue == queue && dataQueue == old(dataQueue)
      {
        assert queue[..i + 1][..i] == queue[..i] && outcomes[..i + 1][..i] == outcomes[..i];
        var request := queue[i];
        if request.endpoint != AuthEndpoint {
          var r, _ := ApiCall(request.endpoint, request.httpMethod, request.data, outcomes[i]);
          if r.Ok? {
            processed := processed + 1;
          } else if !Contains(r.error, AuthRequired) {
            failed := failed + [request];
          }
        }
        i := i + 1;
      }
      assert queue[..i] == queue && outcomes[..i] == outcomes;
      apiQueue := failed;
      summary := ReplaySummary(processed, |failed|);
    }

    /** `getOfflineQueueStatus`. */
    method GetOfflineQueueStatus() returns (s: QueueStatus)
      ensures s.apiRequests == |apiQueue| && s.dataItems == |dataQueue|
      ensures s.total == |apiQueue| + |dataQueue|
    {
      s := QueueStatus(|apiQueue|, |dataQueue|, |apiQueue| + |dataQueue|);
    }

    /** `logout` forgets the token, the user and the session; the queues stay. */
    method Logout()
      modifies this
      ensures authToken == None && storedToken == None
      ensures currentUser == None && currentSessionId == None
      ensures apiQueue == old(apiQueue) && dataQueue == old(dataQueue)
    {
      authToken := None;
      currentUser := None;
      currentSessionId := None;
      storedToken := None;
    }

    /** `saveToAPI`: routes the item by its type; a network failure lands in the API queue
        (inside `apiCallWithOfflineSupport`), any other failure re-appends the item to the
        data queue; nothing is thrown to the caller. */
    method SaveToAPI(dataType: string, data: Option<Data>, outcome: FetchOutcome, online: bool, now: string)
      modifies this
      ensures var d := DispatchOf(dataType, data, old(currentSessionId));
        && apiQueue == old(apiQueue) + ApiQueuedBy(d, outcome, online, now)
        && dataQueue == old(dataQueue) + (if SaveFails(d, outcome, online) then [DataItem(dataType, data, now)] else [])
        && authToken == (if SaveUnauthorized(d, outcome) then None else old(authToken))
        && storedToken == (if SaveUnauthorized(d, outcome) then None else old(storedToken))
      ensures currentUser == old(currentUser) && currentSessionId == old(currentSessionId)
    {
      var d := DispatchOf(dataType, data, currentSessionId);
      match d {
        case NoCall =>
        case ThrowsBeforeCall =>
          dataQueue := dataQueue + [DataItem(dataType, data, now)];
        case Call(endpoint, httpMethod, body) =>
          var r := ApiCallWithOfflineSupport(endpoint, httpMethod, body, outcome, online, now);
          if r.Err? {
            dataQueue := dataQueue + [DataItem(dataType, data, now)];
          }
      }
    }

    /** The loop shared by both sync variants: saves every item of the data queue in turn. */
    method SaveAll(items: seq<DataItem>, outcomes: seq<FetchOutcome>, online: bool, now: string)
      requires |items| == |outcomes|
      modifies this
      ensures apiQueue == old(apiQueue) + SyncApiQueued(items, outcomes, online, old(currentSessionId), now)
      ensures dataQueue == old(dataQueue) + SyncFailedItems(items, outcomes, online, old(currentSessionId), now)
      ensures authToken == (if SyncUnauthorized(items, outcomes, old(currentSessionId)) then None else old(authToken))
      ensures storedToken == (if SyncUnauthorized(items, outcomes, old(currentSessionId)) then None else old(storedToken))
      ensures currentUser == old(currentUser) && currentSessionId == old(currentSessionId)
    {
      ghost var start := Snapshot();
      var i := 0;
      assert items[..0] == [] && outcomes[..0] == [];
      while i < |items|
        invariant 0 <= i <= |items|
        invariant SavedPrefix(items, outcomes, online, now, i, start)
      {
        SaveNext(items, outcomes, online, now, i, start);
        i := i + 1;
      }
      assert items[..i] == items && outcomes[..i] == outcomes;
    }

    /** The client's state as a value. */
    function Snapshot(): (s: ClientState)
      reads this
      ensures s.apiQueue == apiQueue && s.dataQueue == dataQueue && s.authToken == authToken
      ensures s.storedToken == storedToken && s.currentUser == currentUser && s.currentSessionId == currentSessionId
    {
      ClientState(apiQueue, dataQueue, authToken, storedToken, currentUser, currentSessionId)
    }

    /** The state after saving the first `k` items, starting from `start`. */
    ghost predicate SavedPrefix(items: seq<DataItem>, outcomes: seq<FetchOutcome>, online: bool, now: string, k: nat, start: ClientState)
      reads this
    {
      var sid := start.currentSessionId;
      && k <= |items| == |outcomes|
      && currentUser == start.currentUser && currentSessionId == sid
      && apiQueue == start.apiQueue + SyncApiQueued(items[..k], outcomes[..k], online, sid, now)
      && dataQueue == start.dataQueue + SyncFailedItems(items[..k], outcomes[..k], online, sid, now)
      && authToken == (if SyncUnauthorized(items[..k], outcomes[..k], sid) then None else start.authToken)
      && storedToken == (if SyncUnauthorized(items[..k], outcomes[..k], sid) then None else start.storedToken)
    }

    /** One turn of the `SaveAll` loop: saving item `i` extends the outcome of the first
        `i` items to the first `i + 1`. */
    method SaveNext(items: seq<DataItem>, outcomes: seq<FetchOutcome>, online: bool, now: string, i: nat, ghost start: ClientState)
      requires i < |items| && SavedPrefix(items, outcomes, online, now, i, start)
      modifies this
      ensures SavedPrefix(items, outcomes, online, now, i + 1, start)
    {
      SyncStep(items, outcomes, online, currentSessionId, now, i);
      SaveToAPI(items[i].dataType, items[i].data, outcomes[i], online, now);
    }

    /** `syncOfflineData` as written: replays the API queue, saves every data item, and
        then removes the data queue, because `saveToAPI` never throws and so no item is
        ever collected as failed. Items re-appended during the pass are lost. */
    method SyncOfflineData(apiOutcomes: seq<FetchOutcome>, dataOutcomes: seq<FetchOutcome>, online: bool, now: string)
      requires |apiOutcomes| == |apiQueue| && |dataOutcomes| == |dataQueue|
      modifies this
      ensures dataQueue == []
      ensures apiQueue == Requeue(old(apiQueue), apiOutcomes)
        + SyncApiQueued(old(dataQueue), dataOutcomes, online, old(currentSessionId), now)
      ensures var cleared := ReplayUnauthorized(old(apiQueue), apiOutcomes)
          || SyncUnauthorized(old(dataQueue), dataOutcomes, old(currentSessionId));
        && authToken == (if cleared then None else old(authToken))
        && storedToken == (if cleared then None else old(storedToken))
      ensures currentUser == old(currentUser) && currentSessionId == old(currentSessionId)
    {
      var _ := ProcessOfflineQueue(apiOutcomes);
      var items := dataQueue;
      if |items| == 0 {
        return;
      }
      SaveAll(items, dataOutcomes, online, now);
      dataQueue := [];
    }

    /** `syncOfflineData` as evidently intended: the data queue ends holding exactly the
        items whose save failed during the pass, so no item of a known type is lost. */
    method SyncOfflineDataRetaining(apiOutcomes: seq<FetchOutcome>, dataOutcomes: seq<FetchOutcome>, online: bool, now: string)
      requires |apiOutcomes| == |apiQueue| && |dataOutcomes| == |dataQueue|
      modifies this
      ensures dataQueue == SyncFailedItems(old(dataQueue), dataOutcomes, online, old(currentSessionId), now)
      ensures apiQueue == Requeue(old(apiQueue), apiOutcomes)
        + SyncApiQueued(old(dataQueue), dataOutcomes, online, old(currentSessionId), now)
      ensures var cleared := ReplayUnauthorized(old(apiQueue), apiOutcomes)
          || SyncUnauthorized(old(dataQueue), dataOutcomes, old(currentSessionId));
        && authToken == (if cleared then None else old(authToken))
        && storedToken == (if cleared then None else old(storedToken))
      ensures currentUser == old(currentUser) && currentSessionId == old(currentSessionId)
    {
      var _ := ProcessOfflineQueue(apiOutcomes);
      var items := dataQueue;
      if |items| == 0 {
        return;
      }
      SaveAll(items, dataOutcomes, online, now);
      dataQueue := dataQueue[|items|..];
    }
  }
}
