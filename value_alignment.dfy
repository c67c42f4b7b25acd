/** The client-side value-alignment scorer: scores a generated response against the
    user's best-life elements, concerns and active goals by case-insensitive substring
    containment, proposes recommendations when the score is low, keeps a bounded log of
    checks, and appends a follow-up sentence to weakly aligned responses. */
module ValueAlignment {
  import opened Wrappers
  import opened Strings
  import opened Js

  /** The log keeps only this many of the most recent checks. */
  const MaxLogEntries: nat := 100
  /** A response scoring below this is considered weakly aligned. */
  const AlignedScore: nat := 3
  const BestLifeWeight: nat := 2
  const ConcernWeight: nat := 2
  const GoalWeight: nat := 1
  const ActiveStatus := "active"

  datatype BestLifeElement = BestLifeElement(element: string, description: Option<string>)
  datatype Concern = Concern(concern: string, description: Option<string>)
  datatype Goal = Goal(goal: string, description: Option<string>, status: string)
  datatype ValueEntry = ValueEntry(value: string)

  /** The `aboutMe` part of the client's user history; every part may be missing. */
  datatype AboutMe = AboutMe(
    bestLifeElements: Option<seq<BestLifeElement>>,
    concerns: Option<seq<Concern>>,
    confidenceLevel: Option<Scalar>)

  datatype UserHistory = UserHistory(
    aboutMe: Option<AboutMe>,
    goals: Option<seq<Goal>>,
    values: Option<seq<ValueEntry>>)

  datatype UserProfile = UserProfile(
    bestLifeElements: seq<BestLifeElement>,
    concerns: seq<Concern>,
    confidenceLevel: Scalar,
    goals: seq<Goal>,
    values: seq<ValueEntry>)

  datatype Match =
    | BestLifeMatch(element: string, description: Option<string>)
    | ConcernMatch(concern: string, description: Option<string>)
    | GoalMatch(goal: string, description: Option<string>)

  /** The only misalignment the scorer records: "Response does not reference user values,
      concerns, or goals". */
  datatype Misalignment = NoValueAlignment

  datatype Recommendation =
    | ReferenceBestLife(element: BestLifeElement)
    | AddressConcern(concern: Concern)
    | AlignWithGoal(goal: Goal)

  datatype Alignment = Alignment(
    timestamp: string,
    userInput: string,
    aiResponse: string,
    conversationPhase: string,
    alignmentScore: nat,
    valueMatches: seq<Match>,
    concernMatches: seq<Match>,
    misalignments: seq<Misalignment>,
    recommendations: seq<Recommendation>)

  /** The indices the source draws with `Math.floor(Math.random() * length)`, one per
      recommendation category. */
  datatype Picks = Picks(bestLife: nat, concern: nat, goal: nat)

  // ---------------------------------------------------------------- initialize

  /** `aboutMe?.x || default`: an absent part becomes the empty list, a falsy confidence
      becomes 0. */
  function ProfileFrom(h: UserHistory): (p: UserProfile)
    ensures h.aboutMe.None? ==> p.bestLifeElements == [] && p.concerns == [] && p.confidenceLevel == Num(0)
    ensures h.aboutMe.Some? ==> p.bestLifeElements == h.aboutMe.value.bestLifeElements.GetOr([])
    ensures h.aboutMe.Some? ==> p.concerns == h.aboutMe.value.concerns.GetOr([])
    ensures h.aboutMe.Some? && Truthy(h.aboutMe.value.confidenceLevel) ==> p.confidenceLevel == h.aboutMe.value.confidenceLevel.value
    ensures h.aboutMe.Some? && !Truthy(h.aboutMe.value.confidenceLevel) ==> p.confidenceLevel == Num(0)
    ensures p.goals == h.goals.GetOr([]) && p.values == h.values.GetOr([])
  {
    var about := h.aboutMe;
    UserProfile(
      if about.Some? then about.value.bestLifeElements.GetOr([]) else [],
      if about.Some? then about.value.concerns.GetOr([]) else [],
      if about.Some? && Truthy(about.value.confidenceLevel) then about.value.confidenceLevel.value else Num(0),
      h.goals.GetOr([]),
      h.values.GetOr([]))
  }

  // ---------------------------------------------------------------- matching

  /** What `includes(description?.toLowerCase())` searches for: a missing description
      becomes `undefined`, which `includes` converts to the text "undefined". */
  function DescriptionNeedle(d: Option<string>): string {
    match d
    case None => "undefined"
    case Some(t) => Lower(t)
  }

  predicate ElementMatches(lowerResponse: string, e: BestLifeElement) {
    Contains(lowerResponse, Lower(e.element)) || Contains(lowerResponse, DescriptionNeedle(e.description))
  }

  predicate ConcernMatches(lowerResponse: string, c: Concern) {
    Contains(lowerResponse, Lower(c.concern)) || Contains(lowerResponse, DescriptionNeedle(c.description))
  }

  predicate GoalMatches(lowerResponse: string, g: Goal) {
    Contains(lowerResponse, Lower(g.goal))
  }

  /** `goals.filter(g => g.status === 'active')`. */
  function ActiveGoals(gs: seq<Goal>): (r: seq<Goal>)
    ensures |r| <= |gs|
    ensures forall g :: g in r <==> g in gs && g.status == ActiveStatus
  {
    if gs == [] then []
    else ActiveGoals(gs[..|gs| - 1]) + (if gs[|gs| - 1].status == ActiveStatus then [gs[|gs| - 1]] else [])
  }

  /** The filter keeps profile order: filtering two lists one after the other is
      filtering the first, then the second. */
  lemma {:induction false} ActiveGoalsConcat(a: seq<Goal>, b: seq<Goal>)
    ensures ActiveGoals(a + b) == ActiveGoals(a) + ActiveGoals(b)
    decreases |b|
  {
    if b == [] {
      assert a + b == a;
    } else {
      var init := b[..|b| - 1];
      var last := b[|b| - 1];
      assert a + b == (a + init) + [last];
      assert (a + b)[..|a + b| - 1] == a + init;
      ActiveGoalsConcat(a, init);
    }
  }

  /** The matches the best-life loop pushes, in profile order. */
  function ElementMatchesIn(lr: string, es: seq<BestLifeElement>): seq<Match> {
    if es == [] then []
    else
      var e := es[|es| - 1];
      ElementMatchesIn(lr, es[..|es| - 1]) + (if ElementMatches(lr, e) then [BestLifeMatch(e.element, e.description)] else [])
  }

  function ConcernMatchesIn(lr: string, cs: seq<Concern>): seq<Match> {
    if cs == [] then []
    else
      var c := cs[|cs| - 1];
      ConcernMatchesIn(lr, cs[..|cs| - 1]) + (if ConcernMatches(lr, c) then [ConcernMatch(c.concern, c.description)] else [])
  }

  function GoalMatchesIn(lr: string, gs: seq<Goal>): seq<Match> {
    if gs == [] then []
    else
      var g := gs[|gs| - 1];
      GoalMatchesIn(lr, gs[..|gs| - 1]) + (if GoalMatches(lr, g) then [GoalMatch(g.goal, g.description)] else [])
  }

  /** The alignment score: 2 per matching best-life element, 2 per matching concern,
      1 per matching active goal. */
  function Score(p: UserProfile, aiResponse: string): nat {
    var lr := Lower(aiResponse);
    BestLifeWeight * |ElementMatchesIn(lr, p.bestLifeElements)|
      + ConcernWeight * |ConcernMatchesIn(lr, p.concerns)|
      + GoalWeight * |GoalMatchesIn(lr, ActiveGoals(p.goals))|
  }

  /** The alignment record before recommendations are attached. */
  function ScoredAlignment(p: UserProfile, userInput: string, aiResponse: string, phase: string, timestamp: string): Alignment {
    var lr := Lower(aiResponse);
    var score := Score(p, aiResponse);
    Alignment(timestamp, userInput, aiResponse, phase, score,
      ElementMatchesIn(lr, p.bestLifeElements) + GoalMatchesIn(lr, ActiveGoals(p.goals)),
      ConcernMatchesIn(lr, p.concerns),
      if score == 0 then [NoValueAlignment] else [],
      [])
  }

  /** What `checkValueAlignment` returns. */
  function ExpectedAlignment(p: UserProfile, userInput: string, aiResponse: string, phase: string, timestamp: string, k: Picks): Alignment
    requires PicksFit(p, k)
  {
    var a := ScoredAlignment(p, userInput, aiResponse, phase, timestamp);
    a.(recommendations := if a.alignmentScore < AlignedScore then AlignmentRecommendations(p, k) else [])
  }

  /** The best-life loop of `checkValueAlignment`: every element whose text or
      description the lowered response contains, in profile order. */
  method MatchElements(lr: string, es: seq<BestLifeElement>) returns (matches: seq<Match>)
    ensures matches == ElementMatchesIn(lr, es)
  {
    matches := [];
    var i := 0;
    while i < |es|
      invariant 0 <= i <= |es|
      invariant matches == ElementMatchesIn(lr, es[..i])
    {
      assert es[..i + 1][..i] == es[..i];
      var e := es[i];
      if Contains(lr, Lower(e.element)) || Contains(lr, DescriptionNeedle(e.description)) {
        matches := matches + [BestLifeMatch(e.element, e.description)];
      }
      i := i + 1;
    }
    assert es[..i] == es;
  }

  /** The concern loop of `checkValueAlignment`. */
  method MatchConcerns(lr: string, cs: seq<Concern>) returns (matches: seq<Match>)
    ensures matches == ConcernMatchesIn(lr, cs)
  {
    matches := [];
    var i := 0;
    while i < |cs|
      invariant 0 <= i <= |cs|
      invariant matches == ConcernMatchesIn(lr, cs[..i])
    {
      assert cs[..i + 1][..i] == cs[..i];
      var c := cs[i];
      if Contains(lr, Lower(c.concern)) || Contains(lr, DescriptionNeedle(c.description)) {
        matches := matches + [ConcernMatch(c.concern, c.description)];
      }
      i := i + 1;
    }
    assert cs[..i] == cs;
  }

  /** The goal loop of `checkValueAlignment`, over the active goals. */
  method MatchGoals(lr: string, gs: seq<Goal>) returns (matches: seq<Match>)
    ensures matches == GoalMatchesIn(lr, gs)
  {
    matches := [];
    var i := 0;
    while i < |gs|
      invariant 0 <= i <= |gs|
      invariant matches == GoalMatchesIn(lr, gs[..i])
    {
      assert gs[..i + 1][..i] == gs[..i];
      var g := gs[i];
      if Contains(lr, Lower(g.goal)) {
        matches := matches + [GoalMatch(g.goal, g.description)];
      }
      i := i + 1;
    }
    assert gs[..i] == gs;
  }

  /** The scoring part of `checkValueAlignment`: 2 points per element match, 2 per
      concern match, 1 per active-goal match, and a misalignment when nothing matched. */
  method EvaluateAlignment(p: UserProfile, userInput: string, aiResponse: string, phase: string, timestamp: string)
    returns (a: Alignment)
    ensures a == ScoredAlignment(p, userInput, aiResponse, phase, timestamp)
  {
    var lr := Lower(aiResponse);
    var elementMatches := MatchElements(lr, p.bestLifeElements);
    var concernMatches := MatchConcerns(lr, p.concerns);
    var goalMatches := MatchGoals(lr, ActiveGoals(p.goals));
    var score: nat := BestLifeWeight * |elementMatches| + ConcernWeight * |concernMatches| + GoalWeight * |goalMatches|;
    var misalignments: seq<Misalignment> := [];
    if score == 0 {
      misalignments := misalignments + [NoValueAlignment];
    }
    a := Alignment(timestamp, userInput, aiResponse, phase, score, elementMatches + goalMatches, concernMatches, misalignments, []);
  }

  // ---------------------------------------------------------------- recommendations

  /** The random picks land inside every non-empty category. */
  predicate PicksFit(p: UserProfile, k: Picks) {
    && (|p.bestLifeElements| > 0 ==> k.bestLife < |p.bestLifeElements|)
    && (|p.concerns| > 0 ==> k.concern < |p.concerns|)
    && (|ActiveGoals(p.goals)| > 0 ==> k.goal < |ActiveGoals(p.goals)|)
  }

  /** Fixed category order of the recommendations: best life, concern, goal. */
  function Rank(r: Recommendation): nat {
    match r
    case ReferenceBestLife(_) => 0
    case AddressConcern(_) => 1
    case AlignWithGoal(_) => 2
  }

  function Suggestion(r: Recommendation): string {
    match r
    case ReferenceBestLife(e) => "Reference the user's value: \"" + e.element + "\""
    case AddressConcern(c) => "Address the user's concern: \"" + c.concern + "\""
    case AlignWithGoal(g) => "Connect to the user's goal: \"" + g.goal + "\""
  }

  /** The best-life part of `generateAlignmentRecommendations`: one recommendation,
      naming the picked element, iff there is an element. */
  function BestLifePart(p: UserProfile, k: Picks): (r: seq<Recommendation>)
    requires PicksFit(p, k)
    ensures |r| <= 1 && (|r| == 1 <==> |p.bestLifeElements| > 0)
    ensures forall x :: x in r ==> x.ReferenceBestLife? && x.element in p.bestLifeElements
  {
    if |p.bestLifeElements| > 0 then [ReferenceBestLife(p.bestLifeElements[k.bestLife])] else []
  }

  /** The concern part: one recommendation, naming the picked concern, iff there is one. */
  function ConcernPart(p: UserProfile, k: Picks): (r: seq<Recommendation>)
    requires PicksFit(p, k)
    ensures |r| <= 1 && (|r| == 1 <==> |p.concerns| > 0)
    ensures forall x :: x in r ==> x.AddressConcern? && x.concern in p.concerns
  {
    if |p.concerns| > 0 then [AddressConcern(p.concerns[k.concern])] else []
  }

  /** The goal part: one recommendation, naming the picked active goal, iff there is an
      active goal. */
  function GoalPart(p: UserProfile, k: Picks): (r: seq<Recommendation>)
    requires PicksFit(p, k)
    ensures |r| <= 1 && (|r| == 1 <==> |ActiveGoals(p.goals)| > 0)
    ensures forall x :: x in r ==> x.AlignWithGoal? && x.goal in p.goals && x.goal.status == ActiveStatus
  {
    var active := ActiveGoals(p.goals);
    if |active| > 0 then
      assert active[k.goal] in active;
      [AlignWithGoal(active[k.goal])]
    else []
  }

  /** `generateAlignmentRecommendations`: at most one recommendation per category, in
      category order; a category contributes iff it is non-empty (for goals: has an
      active goal), and each recommendation names an item of its category. */
  function AlignmentRecommendations(p: UserProfile, k: Picks): (r: seq<Recommendation>)
    requires PicksFit(p, k)
    ensures |r| <= 3
    ensures forall i, j :: 0 <= i < j < |r| ==> Rank(r[i]) < Rank(r[j])
    ensures |p.bestLifeElements| > 0 <==> exists x :: x in r && x.ReferenceBestLife?
    ensures |p.concerns| > 0 <==> exists x :: x in r && x.AddressConcern?
    ensures |ActiveGoals(p.goals)| > 0 <==> exists x :: x in r && x.AlignWithGoal?
    ensures forall x :: x in r && x.ReferenceBestLife? ==> x.element in p.bestLifeElements
    ensures forall x :: x in r && x.AddressConcern? ==> x.concern in p.concerns
    ensures forall x :: x in r && x.AlignWithGoal? ==> x.goal in p.goals && x.goal.status == ActiveStatus
  {
    var best := BestLifePart(p, k);
    var concern := ConcernPart(p, k);
    var goal := GoalPart(p, k);
    CategoriesInOrder(best, concern, goal);
    best + concern + goal
  }

  /** Three category parts of at most one recommendation each, joined in category order:
      the ranks increase, a category is present iff its part is non-empty, and every
      member comes from one of the parts. */
  lemma CategoriesInOrder(best: seq<Recommendation>, concern: seq<Recommendation>, goal: seq<Recommendation>)
    requires |best| <= 1 && |concern| <= 1 && |goal| <= 1
    requires forall x :: x in best ==> x.ReferenceBestLife?
    requires forall x :: x in concern ==> x.AddressConcern?
    requires forall x :: x in goal ==> x.AlignWithGoal?
    ensures var r := best + concern + goal;
      && |r| <= 3
      && (forall i, j :: 0 <= i < j < |r| ==> Rank(r[i]) < Rank(r[j]))
      && (|best| > 0 <==> exists x :: x in r && x.ReferenceBestLife?)
      && (|concern| > 0 <==> exists x :: x in r && x.AddressConcern?)
      && (|goal| > 0 <==> exists x :: x in r && x.AlignWithGoal?)
      && (forall x :: x in r ==> x in best || x in concern || x in goal)
  {
    var r := best + concern + goal;
    assert |best| > 0 ==> best[0] in best;
    assert |concern| > 0 ==> concern[0] in concern;
    assert |goal| > 0 ==> goal[0] in goal;
    forall i | 0 <= i < |r|
      ensures r[i] in best ==> Rank(r[i]) == 0
      ensures r[i] in concern ==> Rank(r[i]) == 1
      ensures r[i] in goal ==> Rank(r[i]) == 2
      ensures i < |best| ==> r[i] in best
      ensures |best| <= i < |best| + |concern| ==> r[i] in concern
      ensures |best| + |concern| <= i ==> r[i] in goal
    {
      if i < |best| {
        assert r[i] == best[i];
      } else if i < |best| + |concern| {
        assert r[i] == concern[i - |best|];
      } else {
        assert r[i] == goal[i - |best| - |concern|];
      }
    }
  }

  // ---------------------------------------------------------------- the log

  /** `adherenceLog.slice(-100)` once the log grows past 100 entries. */
  function BoundedLog(log: seq<Alignment>): (r: seq<Alignment>)
    ensures |r| <= MaxLogEntries
    ensures |r| <= |log| && r == log[|log| - |r|..]
    ensures |log| <= MaxLogEntries ==> r == log
    ensures |log| > MaxLogEntries ==> |r| == MaxLogEntries
  {
    if |log| > MaxLogEntries then log[|log| - MaxLogEntries..] else log
  }

  /** Each check adds exactly one entry, the newest, and the log stays bounded. */
  lemma LogKeepsNewestLast(log: seq<Alignment>, a: Alignment)
    requires |log| <= MaxLogEntries
    ensures var r := BoundedLog(log + [a]);
      && 1 <= |r| <= MaxLogEntries
      && r[|r| - 1] == a
      && (|log| < MaxLogEntries ==> r == log + [a])
      && (|log| == MaxLogEntries ==> r == log[1..] + [a])
  {
    var r := BoundedLog(log + [a]);
    if |log| == MaxLogEntries {
      assert r == (log + [a])[1..];
      assert (log + [a])[1..] == log[1..] + [a];
    }
  }

  // ---------------------------------------------------------------- enhancement

  function FollowUp(r: Recommendation): string {
    match r
    case ReferenceBestLife(e) =>
      "\n\nI want to make sure this aligns with what matters most to you. I know that "
        + Lower(e.element) + " is important in your life. How does this relate to that?"
    case AddressConcern(c) =>
      "\n\nI also want to address your concern about " + Lower(c.concern) + ". How does this information help with that?"
    case AlignWithGoal(g) =>
      "\n\nThis connects to your goal of " + Lower(g.goal) + ". How does this help you move toward that?"
  }

  /** The text `enhanceResponseWithValues` returns for a given alignment. */
  function EnhancedResponse(aiResponse: string, a: Alignment): string {
    if a.alignmentScore < AlignedScore && |a.recommendations| > 0
    then aiResponse + FollowUp(a.recommendations[0])
    else aiResponse
  }

  /** The recommendation taken from the first non-empty category, in the order best
      life, concern, active goal. */
  function FirstPick(p: UserProfile, k: Picks): Option<Recommendation>
    requires PicksFit(p, k)
  {
    if |p.bestLifeElements| > 0 then Some(ReferenceBestLife(p.bestLifeElements[k.bestLife]))
    else if |p.concerns| > 0 then Some(AddressConcern(p.concerns[k.concern]))
    else if |ActiveGoals(p.goals)| > 0 then Some(AlignWithGoal(ActiveGoals(p.goals)[k.goal]))
    else None
  }

  /** The enhanced response is the original, unchanged when the response is well aligned
      or the profile has nothing to recommend, and otherwise extended by exactly one
      sentence taken from the first non-empty category in the order best life, concern,
      goal. */
  lemma EnhancementFollowsCategoryOrder(p: UserProfile, userInput: string, aiResponse: string, timestamp: string, k: Picks)
    requires PicksFit(p, k)
    ensures EnhancedResponse(aiResponse, ExpectedAlignment(p, userInput, aiResponse, "response_generation", timestamp, k))
      == if Score(p, aiResponse) < AlignedScore && FirstPick(p, k).Some? then aiResponse + FollowUp(FirstPick(p, k).value)
         else aiResponse
  {
    var a := ExpectedAlignment(p, userInput, aiResponse, "response_generation", timestamp, k);
    ExpectedAlignmentFields(p, userInput, aiResponse, "response_generation", timestamp, k);
    FirstRecommendation(p, k);
    EnhancedByFirstPick(p, k, aiResponse, a);
  }

  /** The score and the recommendations of a check. */
  lemma ExpectedAlignmentFields(p: UserProfile, userInput: string, aiResponse: string, phase: string, timestamp: string, k: Picks)
    requires PicksFit(p, k)
    ensures var a := ExpectedAlignment(p, userInput, aiResponse, phase, timestamp, k);
      && a.alignmentScore == Score(p, aiResponse)
      && a.recommendations == if Score(p, aiResponse) < AlignedScore then AlignmentRecommendations(p, k) else []
  {
  }

  lemma EnhancedByFirstPick(p: UserProfile, k: Picks, aiResponse: string, a: Alignment)
    requires PicksFit(p, k)
    requires a.recommendations == if a.alignmentScore < AlignedScore then AlignmentRecommendations(p, k) else []
    requires var recs := AlignmentRecommendations(p, k);
      && (recs == [] <==> FirstPick(p, k).None?)
      && (recs != [] ==> recs[0] == FirstPick(p, k).value)
    ensures EnhancedResponse(aiResponse, a)
      == if a.alignmentScore < AlignedScore && FirstPick(p, k).Some? then aiResponse + FollowUp(FirstPick(p, k).value)
         else aiResponse
  {
  }

  /** The first recommendation is the first pick, and there is none exactly when there
      is nothing to pick. */
  lemma FirstRecommendation(p: UserProfile, k: Picks)
    requires PicksFit(p, k)
    ensures var recs := AlignmentRecommendations(p, k);
      && (recs == [] <==> FirstPick(p, k).None?)
      && (recs != [] ==> recs[0] == FirstPick(p, k).value)
  {
    var best := BestLifePart(p, k);
    var concern := ConcernPart(p, k);
    var goal := GoalPart(p, k);
    assert AlignmentRecommendations(p, k) == best + concern + goal;
    if |p.bestLifeElements| == 0 {
      assert best == [];
      if |p.concerns| == 0 {
        assert concern == [];
      }
    }
  }

  // ---------------------------------------------------------------- properties of the score

  lemma ElementMatchesCount(lr: string, es: seq<BestLifeElement>)
    ensures |ElementMatchesIn(lr, es)| <= |es|
    ensures |ElementMatchesIn(lr, es)| == 0 <==> forall e :: e in es ==> !ElementMatches(lr, e)
  {
    if es != [] {
      ElementMatchesCount(lr, es[..|es| - 1]);
      assert es == es[..|es| - 1] + [es[|es| - 1]];
    }
  }

  lemma ConcernMatchesCount(lr: string, cs: seq<Concern>)
    ensures |ConcernMatchesIn(lr, cs)| <= |cs|
    ensures |ConcernMatchesIn(lr, cs)| == 0 <==> forall c :: c in cs ==> !ConcernMatches(lr, c)
  {
    if cs != [] {
      ConcernMatchesCount(lr, cs[..|cs| - 1]);
      assert cs == cs[..|cs| - 1] + [cs[|cs| - 1]];
    }
  }

  lemma GoalMatchesCount(lr: string, gs: seq<Goal>)
    ensures |GoalMatchesIn(lr, gs)| <= |gs|
    ensures |GoalMatchesIn(lr, gs)| == 0 <==> forall g :: g in gs ==> !GoalMatches(lr, g)
  {
    if gs != [] {
      GoalMatchesCount(lr, gs[..|gs| - 1]);
      assert gs == gs[..|gs| - 1] + [gs[|gs| - 1]];
    }
  }

  /** Exactly one "no alignment" finding is recorded iff nothing in the profile matches the
      response; otherwise no misalignment is recorded. */
  lemma {:induction false} NoAlignmentIffNothingMatches(p: UserProfile, userInput: string, aiResponse: string, phase: string, timestamp: string)
    ensures var a := ScoredAlignment(p, userInput, aiResponse, phase, timestamp);
      var lr := Lower(aiResponse);
      && (a.misalignments == [NoValueAlignment] <==>
            && (forall e :: e in p.bestLifeElements ==> !ElementMatches(lr, e))
            && (forall c :: c in p.concerns ==> !ConcernMatches(lr, c))
            && (forall g :: g in p.goals && g.status == ActiveStatus ==> !GoalMatches(lr, g)))
      && (a.misalignments == [] <==> a.alignmentScore > 0)
  {
    var lr := Lower(aiResponse);
    ElementMatchesCount(lr, p.bestLifeElements);
    ConcernMatchesCount(lr, p.concerns);
    GoalMatchesCount(lr, ActiveGoals(p.goals));
  }

  /** The score never exceeds 2 per element, 2 per concern and 1 per active goal. */
  lemma {:induction false} ScoreBounded(p: UserProfile, aiResponse: string)
    ensures Score(p, aiResponse) <= 2 * |p.bestLifeElements| + 2 * |p.concerns| + |ActiveGoals(p.goals)|
  {
    var lr := Lower(aiResponse);
    ElementMatchesCount(lr, p.bestLifeElements);
    ConcernMatchesCount(lr, p.concerns);
    GoalMatchesCount(lr, ActiveGoals(p.goals));
  }

  /** A response that contains a best-life element's text, in any letter case, scores
      at least 2. */
  lemma {:induction false} ElementMentionScoresTwo(p: UserProfile, aiResponse: string, e: BestLifeElement)
    requires e in p.bestLifeElements
    requires Contains(Lower(aiResponse), Lower(e.element))
    ensures Score(p, aiResponse) >= 2
  {
    ElementMatchesCount(Lower(aiResponse), p.bestLifeElements);
  }

  /** `includes("")` is true: an element whose text is empty matches every response. */
  lemma {:induction false} EmptyElementMatchesEverything(p: UserProfile, aiResponse: string)
    requires exists e :: e in p.bestLifeElements && e.element == ""
    ensures Score(p, aiResponse) >= 2
  {
    var e :| e in p.bestLifeElements && e.element == "";
    ContainsEmpty(Lower(aiResponse));
    ElementMentionScoresTwo(p, aiResponse, e);
  }

  /** `includes(undefined)` searches for the text "undefined": an element without a
      description matches a response that contains that word. */
  lemma {:induction false} MissingDescriptionMatchesUndefined(p: UserProfile, e: BestLifeElement)
    requires e in p.bestLifeElements && e.description.None?
    ensures Score(p, "undefined") >= 2
  {
    var lr := Lower("undefined");
    assert lr == "undefined";
    ContainsSelf("undefined");
    assert ElementMatches(lr, e);
    ElementMatchesCount(lr, p.bestLifeElements);
  }

  /** A weakly aligned response gets at least one recommendation whenever the profile has a
      best-life element, a concern or an active goal. */
  lemma {:induction false} LowScoreRecommends(p: UserProfile, userInput: string, aiResponse: string, phase: string, timestamp: string, k: Picks)
    requires PicksFit(p, k)
    ensures var a := ExpectedAlignment(p, userInput, aiResponse, phase, timestamp, k);
      && (a.alignmentScore >= AlignedScore ==> a.recommendations == [])
      && ((a.alignmentScore < AlignedScore && (|p.bestLifeElements| > 0 || |p.concerns| > 0 || |ActiveGoals(p.goals)| > 0))
            ==> |a.recommendations| >= 1)
  {
  }

  // ---------------------------------------------------------------- context and topics

  datatype ConversationContext = ConversationContext(
    userValues: seq<string>,
    userConcerns: seq<string>,
    activeGoals: seq<string>,
    confidenceLevel: Scalar)

  function ElementTexts(es: seq<BestLifeElement>): (r: seq<string>)
    ensures |r| == |es| && forall i :: 0 <= i < |es| ==> r[i] == es[i].element
  {
    if es == [] then [] else [es[0].element] + ElementTexts(es[1..])
  }

  function ConcernTexts(cs: seq<Concern>): (r: seq<string>)
    ensures |r| == |cs| && forall i :: 0 <= i < |cs| ==> r[i] == cs[i].concern
  {
    if cs == [] then [] else [cs[0].concern] + ConcernTexts(cs[1..])
  }

  function GoalTexts(gs: seq<Goal>): (r: seq<string>)
    ensures |r| == |gs| && forall i :: 0 <= i < |gs| ==> r[i] == gs[i].goal
  {
    if gs == [] then [] else [gs[0].goal] + GoalTexts(gs[1..])
  }

  /** `getConversationContext`: the element texts, concern texts and active goal texts of
      the profile, in profile order, with its confidence level. */
  function ConversationContextOf(p: UserProfile): (c: ConversationContext)
    ensures |c.userValues| == |p.bestLifeElements| && |c.userConcerns| == |p.concerns|
    ensures forall i :: 0 <= i < |p.bestLifeElements| ==> c.userValues[i] == p.bestLifeElements[i].element
    ensures forall i :: 0 <= i < |p.concerns| ==> c.userConcerns[i] == p.concerns[i].concern
    ensures |c.activeGoals| <= |p.goals|
    ensures c.activeGoals == GoalTexts(ActiveGoals(p.goals))
    ensures forall i :: 0 <= i < |c.activeGoals| ==> exists g :: g in p.goals && g.status == ActiveStatus && g.goal == c.activeGoals[i]
    ensures c.confidenceLevel == p.confidenceLevel
  {
    var active := ActiveGoals(p.goals);
    var c := ConversationContext(ElementTexts(p.bestLifeElements), ConcernTexts(p.concerns), GoalTexts(active), p.confidenceLevel);
    assert forall i :: 0 <= i < |c.activeGoals| ==> active[i] in active;
    c
  }

  datatype TopicAlignment = TopicAlignment(topic: string, isValueAligned: bool, reasoning: string, suggestedApproach: string)

  const ValueReason := "Topic aligns with your value: "
  const ConcernReason := "Topic addresses your concern: "

  /** The topic and the text contain one another, ignoring letter case. */
  predicate Related(topicLower: string, text: string) {
    Contains(topicLower, Lower(text)) || Contains(Lower(text), topicLower)
  }

  /** `bestLifeElements.find(...)`, as the index of the first related element. */
  function FirstRelatedElement(es: seq<BestLifeElement>, topicLower: string): (r: Option<nat>)
    ensures r.Some? ==> r.value < |es| && Related(topicLower, es[r.value].element)
    ensures r.Some? ==> forall j :: 0 <= j < r.value ==> !Related(topicLower, es[j].element)
    ensures r.None? ==> forall j :: 0 <= j < |es| ==> !Related(topicLower, es[j].element)
  {
    if es == [] then None
    else if Related(topicLower, es[0].element) then Some(0)
    else
      match FirstRelatedElement(es[1..], topicLower)
      case None => None
      case Some(i) => Some(i + 1)
  }

  /** `concerns.find(...)`, as the index of the first related concern. */
  function FirstRelatedConcern(cs: seq<Concern>, topicLower: string): (r: Option<nat>)
    ensures r.Some? ==> r.value < |cs| && Related(topicLower, cs[r.value].concern)
    ensures r.Some? ==> forall j :: 0 <= j < r.value ==> !Related(topicLower, cs[j].concern)
    ensures r.None? ==> forall j :: 0 <= j < |cs| ==> !Related(topicLower, cs[j].concern)
  {
    if cs == [] then None
    else if Related(topicLower, cs[0].concern) then Some(0)
    else
      match FirstRelatedConcern(cs[1..], topicLower)
      case None => None
      case Some(i) => Some(i + 1)
  }

  /** `validateTopicChange`: the topic is value-aligned iff it and some best-life element or
      concern contain one another; a best-life match is reported before a concern match,
      naming the first related element (or concern). */
  function ValidateTopicChange(p: UserProfile, newTopic: string): (t: TopicAlignment)
    ensures t.topic == newTopic
    ensures t.isValueAligned <==>
      (exists i :: 0 <= i < |p.bestLifeElements| && Related(Lower(newTopic), p.bestLifeElements[i].element))
      || (exists i :: 0 <= i < |p.concerns| && Related(Lower(newTopic), p.concerns[i].concern))
    ensures (exists i :: 0 <= i < |p.bestLifeElements| && Related(Lower(newTopic), p.bestLifeElements[i].element)) ==>
      exists i :: 0 <= i < |p.bestLifeElements| && Related(Lower(newTopic), p.bestLifeElements[i].element)
        && (forall j :: 0 <= j < i ==> !Related(Lower(newTopic), p.bestLifeElements[j].element))
        && t.reasoning == ValueReason + p.bestLifeElements[i].element
        && t.suggestedApproach == "Proceed with topic exploration"
    ensures (forall i :: 0 <= i < |p.bestLifeElements| ==> !Related(Lower(newTopic), p.bestLifeElements[i].element)) && t.isValueAligned ==>
      exists i :: 0 <= i < |p.concerns| && Related(Lower(newTopic), p.concerns[i].concern)
        && (forall j :: 0 <= j < i ==> !Related(Lower(newTopic), p.concerns[j].concern))
        && t.reasoning == ConcernReason + p.concerns[i].concern
        && t.suggestedApproach == "Address concern while maintaining value focus"
    ensures !t.isValueAligned ==>
      && t.reasoning == "Topic may not directly align with current values/concerns"
      && t.suggestedApproach == "Consider if this serves the user's stated priorities"
  {
    var topicLower := Lower(newTopic);
    match FirstRelatedElement(p.bestLifeElements, topicLower)
    case Some(i) =>
      TopicAlignment(newTopic, true, ValueReason + p.bestLifeElements[i].element, "Proceed with topic exploration")
    case None =>
      match FirstRelatedConcern(p.concerns, topicLower)
      case Some(i) =>
        TopicAlignment(newTopic, true, ConcernReason + p.concerns[i].concern, "Address concern while maintaining value focus")
      case None =>
        TopicAlignment(newTopic, false, "Topic may not directly align with current values/concerns",
          "Consider if this serves the user's stated priorities")
  }

  // ---------------------------------------------------------------- statistics

  /** The counting part of `getAlignmentStats`: number of checks, sum of their scores and
      number of checks scoring at least 3. */
  datatype AlignmentStats = AlignmentStats(totalChecks: nat, scoreSum: nat, alignedChecks: nat)

  /** The positions of the checks that scored at least 3: what `filter(...)` keeps. */
  function AlignedIndices(log: seq<Alignment>): set<nat> {
    set i: nat | i < |log| && log[i].alignmentScore >= AlignedScore
  }

  /** Appending a check adds its position exactly when it is aligned. */
  lemma AlignedIndicesAppend(init: seq<Alignment>, last: Alignment)
    ensures |AlignedIndices(init + [last])| == |AlignedIndices(init)| + (if last.alignmentScore >= AlignedScore then 1 else 0)
  {
    var log := init + [last];
    var extra: set<nat> := if last.alignmentScore >= AlignedScore then {|init|} else {};
    assert AlignedIndices(log) == AlignedIndices(init) + extra by {
      forall i: nat | i < |init|
        ensures log[i] == init[i]
      {
      }
    }
    assert |init| !in AlignedIndices(init);
  }

  function Stats(log: seq<Alignment>): (s: AlignmentStats)
    ensures s.totalChecks == |log|
    ensures s.alignedChecks <= s.totalChecks
    ensures AlignedScore * s.alignedChecks <= s.scoreSum
    ensures s.alignedChecks == 0 <==> forall a :: a in log ==> a.alignmentScore < AlignedScore
    ensures s.alignedChecks == |AlignedIndices(log)|
  {
    if log == [] then
      assert AlignedIndices(log) == {};
      AlignmentStats(0, 0, 0)
    else
      var init := log[..|log| - 1];
      var last := log[|log| - 1];
      var s := Stats(init);
      assert log == init + [last];
      AlignedIndicesAppend(init, last);
      AlignmentStats(s.totalChecks + 1, s.scoreSum + last.alignmentScore,
        s.alignedChecks + (if last.alignmentScore >= AlignedScore then 1 else 0))
  }

  /** The statistics of one check: it counts once, adds its score, and is aligned when it
      scored at least 3. */
  lemma StatsOfOne(a: Alignment)
    ensures Stats([a]) == AlignmentStats(1, a.alignmentScore, if a.alignmentScore >= AlignedScore then 1 else 0)
  {
    assert [a][..0] == [];
  }

  /** The statistics of two logs one after the other are the field-by-field sums, so with
      `StatsOfOne` they fix the score sum and the aligned count of every log. */
  lemma {:induction false} StatsConcat(a: seq<Alignment>, b: seq<Alignment>)
    ensures Stats(a + b) == AlignmentStats(Stats(a).totalChecks + Stats(b).totalChecks,
      Stats(a).scoreSum + Stats(b).scoreSum, Stats(a).alignedChecks + Stats(b).alignedChecks)
    decreases |b|
  {
    if b == [] {
      assert a + b == a;
    } else {
      var init := b[..|b| - 1];
      assert a + b == (a + init) + [b[|b| - 1]];
      assert (a + b)[..|a + b| - 1] == a + init;
      StatsConcat(a, init);
    }
  }

  // ---------------------------------------------------------------- the manager

  class Manager {
    var userProfile: Option<UserProfile>
    var adherenceLog: seq<Alignment>

    constructor ()
      ensures userProfile == None && adherenceLog == []
    {
      userProfile := None;
      adherenceLog := [];
    }

    method Initialize(h: UserHistory)
      modifies this
      ensures userProfile == Some(ProfileFrom(h))
      ensures adherenceLog == old(adherenceLog)
    {
      userProfile := Some(ProfileFrom(h));
    }

    /** Appends one entry and trims the log to its 100 most recent entries. */
    method LogAlignmentCheck(a: Alignment)
      modifies this
      ensures adherenceLog == BoundedLog(old(adherenceLog) + [a])
      ensures userProfile == old(userProfile)
    {
      adherenceLog := adherenceLog + [a];
      if |adherenceLog| > MaxLogEntries {
        adherenceLog := adherenceLog[|adherenceLog| - MaxLogEntries..];
      }
    }

    method CheckValueAlignment(userInput: string, aiResponse: string, phase: string, timestamp: string, k: Picks)
      returns (a: Alignment)
      requires userProfile.Some? && PicksFit(userProfile.value, k)
      modifies this
      ensures a == ExpectedAlignment(old(userProfile).value, userInput, aiResponse, phase, timestamp, k)
      ensures adherenceLog == BoundedLog(old(adherenceLog) + [a])
      ensures userProfile == old(userProfile)
    {
      var p := userProfile.value;
      a := EvaluateAlignment(p, userInput, aiResponse, phase, timestamp);
      if a.alignmentScore < AlignedScore {
        a := a.(recommendations := AlignmentRecommendations(p, k));
      }
      LogAlignmentCheck(a);
    }

    method EnhanceResponseWithValues(aiResponse: string, userInput: string, timestamp: string, k: Picks)
      returns (r: string)
      requires userProfile.Some? && PicksFit(userProfile.value, k)
      modifies this
      ensures var a := ExpectedAlignment(old(userProfile).value, userInput, aiResponse, "response_generation", timestamp, k);
        && r == EnhancedResponse(aiResponse, a)
        && adherenceLog == BoundedLog(old(adherenceLog) + [a])
      ensures userProfile == old(userProfile)
    {
      r := aiResponse;
      var a := CheckValueAlignment(userInput, aiResponse, "response_generation", timestamp, k);
      if a.alignmentScore < AlignedScore && |a.recommendations| > 0 {
        var top := a.recommendations[0];
        r := r + FollowUp(top);
      }
    }
  }
}
