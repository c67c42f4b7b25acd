/** The administrative routes: the pending clinical alerts, and the query for one user's
    audit trail. The alert priority is a text column, so `ORDER BY priority DESC` orders
    it by text, compared here by code point; ties in the stated order are broken by
    insertion order, one of the orders the database may return. */
module AdminRoute {
  import opened Wrappers
  import opened Js
  import opened Tables
  import opened Sql

  /** Strict lexicographic order on strings, by code point. */
  predicate TextBefore(s: string, t: string)
    decreases |s|
  {
    |t| > 0 && (|s| == 0 || s[0] < t[0] || (s[0] == t[0] && TextBefore(s[1..], t[1..])))
  }

  lemma {:induction false} TextOrderTotal(s: string, t: string)
    ensures s == t || TextBefore(s, t) || TextBefore(t, s)
    decreases |s|
  {
    if |s| > 0 && |t| > 0 && s[0] == t[0] {
      TextOrderTotal(s[1..], t[1..]);
      if s[1..] == t[1..] {
        assert s == [s[0]] + s[1..] && t == [t[0]] + t[1..];
      }
    }
  }

  lemma {:induction false} TextOrderAsymmetric(s: string, t: string)
    ensures !(TextBefore(s, t) && TextBefore(t, s))
    decreases |s|
  {
    if |s| > 0 && |t| > 0 && s[0] == t[0] {
      TextOrderAsymmetric(s[1..], t[1..]);
    }
  }

  lemma {:induction false} TextOrderTransitive(s: string, t: string, u: string)
    requires TextBefore(s, t) && TextBefore(t, u)
    ensures TextBefore(s, u)
    decreases |s|
  {
    if |s| > 0 && s[0] == t[0] && t[0] == u[0] {
      TextOrderTransitive(s[1..], t[1..], u[1..]);
    }
  }

  lemma TextOrderIrreflexive(s: string)
    ensures !TextBefore(s, s)
  {
    TextOrderAsymmetric(s, s);
  }

  /** Whether `a` may be listed before `b` under `ORDER BY priority DESC, created_at ASC`. */
  predicate ListedFirst(a: ClinicalAlert, b: ClinicalAlert) {
    TextBefore(b.priority, a.priority) || (a.priority == b.priority && !TextBefore(b.createdAt, a.createdAt))
  }

  /** `order` can place any two elements, and places them consistently. */
  ghost predicate Total<T(!new)>(order: (T, T) -> bool) {
    forall a, b :: order(a, b) || order(b, a)
  }

  ghost predicate Transitive<T(!new)>(order: (T, T) -> bool) {
    forall a, b, c :: order(a, b) && order(b, c) ==> order(a, c)
  }

  lemma ListedFirstIsTotalOrder()
    ensures Total(ListedFirst) && Transitive(ListedFirst)
  {
    forall a, b ensures ListedFirst(a, b) || ListedFirst(b, a) {
      TextOrderTotal(a.priority, b.priority);
      TextOrderAsymmetric(a.createdAt, b.createdAt);
    }
    forall a, b, c | ListedFirst(a, b) && ListedFirst(b, c) ensures ListedFirst(a, c) {
      if TextBefore(b.priority, a.priority) && TextBefore(c.priority, b.priority) {
        TextOrderTransitive(c.priority, b.priority, a.priority);
      } else if a.priority == b.priority && b.priority == c.priority {
        TextOrderTotal(a.createdAt, c.createdAt);
        if TextBefore(c.createdAt, a.createdAt) {
          TextOrderTotal(b.createdAt, a.createdAt);
          if TextBefore(c.createdAt, b.createdAt) {
          } else if c.createdAt == b.createdAt {
          } else {
            TextOrderTransitive(c.createdAt, a.createdAt, b.createdAt);
          }
        }
      }
    }
  }

  /** Every two neighbours are in order. */
  predicate Sorted<T>(s: seq<T>, order: (T, T) -> bool) {
    forall i :: 0 < i < |s| ==> order(s[i - 1], s[i])
  }

  function Insert<T(!new)>(x: T, s: seq<T>, order: (T, T) -> bool): (r: seq<T>)
    requires Total(order) && Sorted(s, order)
    ensures Sorted(r, order)
    ensures multiset(r) == multiset(s) + multiset{x}
    ensures |r| == |s| + 1 && (r[0] == x || (s != [] && r[0] == s[0]))
    decreases |s|
  {
    if s == [] || order(x, s[0]) then [x] + s
    else
      var rest := Insert(x, s[1..], order);
      assert s == [s[0]] + s[1..];
      [s[0]] + rest
  }

  /** Insertion sort: a sorted rearrangement of `s`. */
  function Sort<T(!new)>(s: seq<T>, order: (T, T) -> bool): (r: seq<T>)
    requires Total(order)
    ensures Sorted(r, order) && multiset(r) == multiset(s)
  {
    if s == [] then []
    else
      assert s == [s[0]] + s[1..];
      Insert(s[0], Sort(s[1..], order), order)
  }

  /** Under a transitive order, neighbours in order means every pair in order. */
  lemma {:induction false} SortedPairwise<T(!new)>(s: seq<T>, order: (T, T) -> bool)
    requires Sorted(s, order) && Transitive(order)
    ensures forall i, j :: 0 <= i < j < |s| ==> order(s[i], s[j])
  {
    forall i, j | 0 <= i < j < |s| ensures order(s[i], s[j]) {
      var k := i + 1;
      while k < j
        invariant i < k <= j && order(s[i], s[k])
      {
        k := k + 1;
      }
    }
  }

  /** `WHERE acknowledged = false`, in table order. */
  function Unacknowledged(alerts: seq<ClinicalAlert>): (r: seq<ClinicalAlert>)
    ensures forall a :: a in r <==> a in alerts && !a.acknowledged
  {
    if alerts == [] then []
    else Unacknowledged(alerts[..|alerts| - 1]) + (if alerts[|alerts| - 1].acknowledged then [] else [alerts[|alerts| - 1]])
  }

  /** `GET /admin/clinical-alerts/pending`: every unacknowledged alert once, priority
      descending by text and then oldest first. */
  function PendingAlerts(alerts: seq<ClinicalAlert>): (r: seq<ClinicalAlert>)
    ensures multiset(r) == multiset(Unacknowledged(alerts))
    ensures forall a :: a in r <==> a in alerts && !a.acknowledged
    ensures forall i, j :: 0 <= i < j < |r| ==> ListedFirst(r[i], r[j])
  {
    ListedFirstIsTotalOrder();
    var r := Sort(Unacknowledged(alerts), ListedFirst);
    assert forall a :: a in r <==> a in multiset(r);
    SortedPairwise(r, ListedFirst);
    r
  }

  /** As written, a `high` alert is listed before a `critical` one: `"high"` follows
      `"critical"` as text, so it comes first in descending order. */
  lemma {:induction false} HighListedBeforeCritical(alerts: seq<ClinicalAlert>, i: nat, j: nat)
    requires i < |PendingAlerts(alerts)| && j < |PendingAlerts(alerts)|
    requires PendingAlerts(alerts)[i].priority == "critical" && PendingAlerts(alerts)[j].priority == "high"
    ensures j < i
  {
    var r := PendingAlerts(alerts);
    assert !TextBefore("high", "critical") by {
      assert "high"[0] == 'h' && "critical"[0] == 'c';
    }
    assert "critical" != "high" by {
      assert |"critical"| == 8 && |"high"| == 4;
    }
    assert i != j;
  }

  /** The urgency a priority stands for: `critical` above `high` above anything else. */
  function Urgency(priority: string): nat {
    if priority == "critical" then 2 else if priority == "high" then 1 else 0
  }

  /** Whether `a` may be listed before `b`: more urgent first, then oldest first. */
  predicate MoreUrgentFirst(a: ClinicalAlert, b: ClinicalAlert) {
    Urgency(a.priority) > Urgency(b.priority)
      || (Urgency(a.priority) == Urgency(b.priority) && !TextBefore(b.createdAt, a.createdAt))
  }

  lemma MoreUrgentFirstIsTotalOrder()
    ensures Total(MoreUrgentFirst) && Transitive(MoreUrgentFirst)
  {
    forall a, b ensures MoreUrgentFirst(a, b) || MoreUrgentFirst(b, a) {
      TextOrderAsymmetric(a.createdAt, b.createdAt);
    }
    forall a, b, c | MoreUrgentFirst(a, b) && MoreUrgentFirst(b, c) ensures MoreUrgentFirst(a, c) {
      if Urgency(a.priority) == Urgency(b.priority) == Urgency(c.priority) {
        TextOrderTotal(a.createdAt, c.createdAt);
        if TextBefore(c.createdAt, a.createdAt) {
          TextOrderTotal(b.createdAt, a.createdAt);
          if TextBefore(c.createdAt, b.createdAt) {
          } else if c.createdAt == b.createdAt {
          } else {
            TextOrderTransitive(c.createdAt, a.createdAt, b.createdAt);
          }
        }
      }
    }
  }

  /** The pending alerts most urgent first, then oldest first. */
  function PendingAlertsByUrgency(alerts: seq<ClinicalAlert>): (r: seq<ClinicalAlert>)
    ensures multiset(r) == multiset(Unacknowledged(alerts))
    ensures forall a :: a in r <==> a in alerts && !a.acknowledged
    ensures forall i, j :: 0 <= i < j < |r| ==> MoreUrgentFirst(r[i], r[j])
  {
    MoreUrgentFirstIsTotalOrder();
    var r := Sort(Unacknowledged(alerts), MoreUrgentFirst);
    assert forall a :: a in r <==> a in multiset(r);
    SortedPairwise(r, MoreUrgentFirst);
    r
  }

  /** Ordered by urgency, every `critical` alert precedes every `high` one. */
  lemma {:induction false} CriticalListedBeforeHigh(alerts: seq<ClinicalAlert>, i: nat, j: nat)
    requires i < |PendingAlertsByUrgency(alerts)| && j < |PendingAlertsByUrgency(alerts)|
    requires PendingAlertsByUrgency(alerts)[i].priority == "critical" && PendingAlertsByUrgency(alerts)[j].priority == "high"
    ensures i < j
  {
    var r := PendingAlertsByUrgency(alerts);
    assert "critical" != "high" by {
      assert |"critical"| == 8 && |"high"| == 4;
    }
    assert i != j;
  }

  const AuditTrailSelect := "SELECT al.*, u.name as user_name FROM audit_log al LEFT JOIN users u ON al.user_id = u.id"
  const UserFilter := " WHERE al.user_id = "
  const FromBound := " AND al.created_at >= "
  const ToBound := " AND al.created_at <= "
  const NewestFirstLimit := " ORDER BY al.created_at DESC LIMIT "
  const DefaultTrailLimit := 100

  lemma TrailClausesDistinct()
    ensures UserFilter != FromBound && UserFilter != ToBound && UserFilter != NewestFirstLimit
    ensures FromBound != ToBound && FromBound != NewestFirstLimit && ToBound != NewestFirstLimit
  {
    assert |UserFilter| == 20 && |FromBound| == 22 && |ToBound| == 22 && |NewestFirstLimit| == 35;
    assert FromBound[19] != ToBound[19];
  }

  /** `limit = 100` in the destructuring: the default applies only when the query string
      has no `limit`. */
  function TrailLimit(limit: Option<string>): Scalar {
    if limit.Some? then Str(limit.value) else Num(DefaultTrailLimit)
  }

  /** `GET /admin/audit-trail/:userId`: the query and its parameters. */
  method AuditTrailQuery(userId: string, startDate: Option<string>, endDate: Option<string>, limit: Option<string>)
    returns (query: seq<Part>, params: seq<Scalar>)
    ensures NumberedUpTo(query, |params|)
    ensures |params| == 2 + (if Given(startDate) then 1 else 0) + (if Given(endDate) then 1 else 0)
    ensures params[0] == Str(userId) && params[|params| - 1] == TrailLimit(limit)
    ensures Binding(query, params, UserFilter) == Some(Str(userId))
    ensures Binding(query, params, FromBound) == if Given(startDate) then Some(Str(startDate.value)) else None
    ensures Binding(query, params, ToBound) == if Given(endDate) then Some(Str(endDate.value)) else None
    ensures Binding(query, params, NewestFirstLimit) == Some(TrailLimit(limit))
  {
    TrailClausesDistinct();
    var b := new QueryBuilder(AuditTrailSelect, UserFilter, Str(userId));
    if Given(startDate) {
      b.Bind(FromBound, Str(startDate.value));
    }
    if Given(endDate) {
      b.Bind(ToBound, Str(endDate.value));
    }
    b.Bind(NewestFirstLimit, TrailLimit(limit));
    query, params := b.query, b.params;
  }
}
