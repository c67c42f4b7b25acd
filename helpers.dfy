/** The About-Me completeness score: 40 points for a non-empty list of best-life
    elements, 40 for a non-empty list of concerns and 20 for a truthy confidence level. */
module Completeness {
  import opened Js

  const ListWeight := 40
  const ConfidenceWeight := 20

  function Points(earned: bool, weight: nat): nat {
    if earned then weight else 0
  }

  /** `calculateCompleteness(bestLifeElements, concerns, confidenceLevel)`. */
  function CalculateCompleteness(bestLifeElements: Value, concerns: Value, confidenceLevel: Value): (c: nat)
    ensures c in {0, 20, 40, 60, 80, 100}
    ensures c == 100 <==> HasItems(bestLifeElements) && HasItems(concerns) && IsTruthy(confidenceLevel)
    ensures c == 0 <==> !HasItems(bestLifeElements) && !HasItems(concerns) && !IsTruthy(confidenceLevel)
    ensures c % 40 == 20 <==> IsTruthy(confidenceLevel)
    ensures c >= 80 <==> HasItems(bestLifeElements) && HasItems(concerns)
    ensures c >= 40 <==> HasItems(bestLifeElements) || HasItems(concerns)
  {
    Points(HasItems(bestLifeElements), ListWeight) + Points(HasItems(concerns), ListWeight)
      + Points(IsTruthy(confidenceLevel), ConfidenceWeight)
  }

  /** Absent or empty answers score nothing. */
  lemma AbsentAnswersScoreZero()
    ensures CalculateCompleteness(Undefined, Undefined, Undefined) == 0
    ensures CalculateCompleteness(Null, List([]), Atom(Num(0))) == 0
    ensures CalculateCompleteness(List([]), Atom(Str("")), Atom(Str(""))) == 0
  {
  }

  /** `a` is at most as filled in as `b` on each of the three answers. */
  predicate NoMoreFilled(a1: Value, a2: Value, a3: Value, b1: Value, b2: Value, b3: Value) {
    && (HasItems(a1) ==> HasItems(b1))
    && (HasItems(a2) ==> HasItems(b2))
    && (IsTruthy(a3) ==> IsTruthy(b3))
  }

  /** Filling in an answer never lowers the score. */
  lemma {:induction false} CompletenessMonotone(a1: Value, a2: Value, a3: Value, b1: Value, b2: Value, b3: Value)
    requires NoMoreFilled(a1, a2, a3, b1, b2, b3)
    ensures CalculateCompleteness(a1, a2, a3) <= CalculateCompleteness(b1, b2, b3)
  {
  }
}
