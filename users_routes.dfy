/** The user routes: the profile read, which audits the view, and the About-Me update,
    which records one history row per changed answer, rewrites the caller's profile with
    its completeness score and audits the update. */
module UsersRoute {
  import opened Wrappers
  import opened Js
  import opened Http
  import opened Tables
  import opened Audit
  import opened Completeness

  const ProfileFetchFailed := HttpError(500, "Failed to fetch profile")
  const AboutMeUpdateFailed := HttpError(500, "Failed to update About Me profile")

  const BestLifeVariable := "bestLifeElements"
  const ConcernsVariable := "concerns"
  const ConfidenceVariable := "confidenceLevel"
  const ManualSource := Atom(Str("manual"))

  /** The fields of the About-Me request body. */
  datatype AboutMeInput = AboutMeInput(bestLifeElements: Value, concerns: Value, confidenceLevel: Value, nextSteps: Value)

  /** The `source_details` JSON of a history row written by the update. */
  function UpdateDetails(now: string): Value {
    Atom(Str("{\"action\":\"about_me_update\",\"timestamp\":\"" + now + "\"}"))
  }

  /** The first profile row of `userId`, as `rows[0]` of the lookup. */
  function FindProfile(profiles: seq<AboutMe>, userId: Id): (r: Option<nat>)
    ensures r.None? <==> forall j :: 0 <= j < |profiles| ==> profiles[j].userId != userId
    ensures r.Some? ==> (r.value < |profiles| && profiles[r.value].userId == userId
      && forall j :: 0 <= j < r.value ==> profiles[j].userId != userId)
  {
    if profiles == [] then None
    else if profiles[0].userId == userId then Some(0)
    else match FindProfile(profiles[1..], userId)
      case None => None
      case Some(k) => Some(k + 1)
  }

  /** The first user row with id `userId`. */
  function FindUser(users: seq<User>, userId: Id): (r: Option<nat>)
    ensures r.None? <==> forall j :: 0 <= j < |users| ==> users[j].id != userId
    ensures r.Some? ==> (r.value < |users| && users[r.value].id == userId
      && forall j :: 0 <= j < r.value ==> users[j].id != userId)
  {
    if users == [] then None
    else if users[0].id == userId then Some(0)
    else match FindUser(users[1..], userId)
      case None => None
      case Some(k) => Some(k + 1)
  }

  /** The three answers whose changes are tracked, in the order the update checks them. */
  datatype Tracked = BestLife | Concerns | Confidence

  function Rank(t: Tracked): nat {
    match t
    case BestLife => 0
    case Concerns => 1
    case Confidence => 2
  }

  function VariableName(t: Tracked): string {
    match t
    case BestLife => BestLifeVariable
    case Concerns => ConcernsVariable
    case Confidence => ConfidenceVariable
  }

  function Sent(t: Tracked, input: AboutMeInput): Value {
    match t
    case BestLife => input.bestLifeElements
    case Concerns => input.concerns
    case Confidence => input.confidenceLevel
  }

  function Kept(t: Tracked, current: AboutMe): Value {
    match t
    case BestLife => current.bestLifeElements
    case Concerns => current.concerns
    case Confidence => current.confidenceLevel
  }

  /** Whether an answer differs from the stored one, by the comparison the source uses:
      the JSON texts of the two lists, and `!==` for the confidence level. */
  predicate Changed(t: Tracked, current: AboutMe, input: AboutMeInput) {
    if t == Confidence then StrictlyDiffers(Kept(t, current), Sent(t, input))
    else Kept(t, current) != Sent(t, input)
  }

  function Mark(t: Tracked, current: AboutMe, input: AboutMeInput): seq<Tracked> {
    if Changed(t, current, input) then [t] else []
  }

  /** The answers the update records, each once and in the checking order. */
  function ChangedVariables(current: AboutMe, input: AboutMeInput): (vs: seq<Tracked>)
    ensures forall t :: t in vs <==> Changed(t, current, input)
    ensures forall i, j :: 0 <= i < j < |vs| ==> Rank(vs[i]) < Rank(vs[j])
  {
    Mark(BestLife, current, input) + Mark(Concerns, current, input) + Mark(Confidence, current, input)
  }

  /** The history row for answer `t`: the new answer as stored, the previous one as it
      was read, source `manual`. */
  function TrackedRow(id: Id, userId: Id, t: Tracked, current: AboutMe, input: AboutMeInput, now: string): (r: HistoryRow)
    ensures r.id == id && r.userId == userId && r.variableName == Atom(Str(VariableName(t)))
    ensures r.variableValue == Stored(Sent(t, input)) && r.previousValue == Kept(t, current)
    ensures r.source == ManualSource
  {
    HistoryRow(id, userId, Atom(Str(VariableName(t))), Stored(Sent(t, input)), Kept(t, current), ManualSource, UpdateDetails(now))
  }

  function RowsFor(vs: seq<Tracked>, userId: Id, current: AboutMe, input: AboutMeInput, firstId: Id, now: string): (rows: seq<HistoryRow>)
    ensures |rows| == |vs|
    ensures forall i :: 0 <= i < |vs| ==> rows[i] == TrackedRow(firstId + i, userId, vs[i], current, input, now)
  {
    seq(|vs|, i requires 0 <= i < |vs| => TrackedRow(firstId + i, userId, vs[i], current, input, now))
  }

  /** Distinct answers are recorded under distinct variable names. */
  lemma VariableNamesDistinct(a: Tracked, b: Tracked)
    ensures VariableName(a) == VariableName(b) ==> a == b
  {
    assert |VariableName(BestLife)| == 16 && |VariableName(Concerns)| == 8 && |VariableName(Confidence)| == 15;
  }

  /** A variable name appears among the rows exactly when its answer is in `vs`. */
  lemma {:induction false} RowsNamedIff(vs: seq<Tracked>, t: Tracked, userId: Id, current: AboutMe, input: AboutMeInput, firstId: Id, now: string)
    ensures var rows := RowsFor(vs, userId, current, input, firstId, now);
      (exists r :: r in rows && r.variableName == Atom(Str(VariableName(t)))) <==> t in vs
  {
    var rows := RowsFor(vs, userId, current, input, firstId, now);
    if t in vs {
      var i :| 0 <= i < |vs| && vs[i] == t;
      assert rows[i] in rows;
    }
    if r :| r in rows && r.variableName == Atom(Str(VariableName(t))) {
      var i :| 0 <= i < |rows| && rows[i] == r;
      VariableNamesDistinct(vs[i], t);
      assert vs[i] in vs;
    }
  }

  /** The history rows the update writes for the stored profile `current`, numbered from
      `firstId`: one per changed answer. */
  function ChangeRows(userId: Id, current: AboutMe, input: AboutMeInput, firstId: Id, now: string): (rows: seq<HistoryRow>)
    ensures |rows| <= 3
    ensures forall t :: (exists r :: r in rows && r.variableName == Atom(Str(VariableName(t)))) <==> Changed(t, current, input)
  {
    var vs := ChangedVariables(current, input);
    assert forall t :: (exists r :: r in RowsFor(vs, userId, current, input, firstId, now) && r.variableName == Atom(Str(VariableName(t)))) <==> t in vs
    by {
      forall t ensures (exists r :: r in RowsFor(vs, userId, current, input, firstId, now) && r.variableName == Atom(Str(VariableName(t)))) <==> t in vs {
        RowsNamedIff(vs, t, userId, current, input, firstId, now);
      }
    }
    RowsFor(vs, userId, current, input, firstId, now)
  }

  /** A profile row after the update: the answers as stored and the completeness of the
      answers as sent. */
  function Updated(p: AboutMe, input: AboutMeInput): (q: AboutMe)
    ensures q.id == p.id && q.userId == p.userId
    ensures q.completeness == CalculateCompleteness(input.bestLifeElements, input.concerns, input.confidenceLevel)
  {
    p.(bestLifeElements := Stored(input.bestLifeElements), concerns := Stored(input.concerns),
       confidenceLevel := Stored(input.confidenceLevel), nextSteps := Stored(input.nextSteps),
       completeness := CalculateCompleteness(input.bestLifeElements, input.concerns, input.confidenceLevel))
  }

  /** The profile table after `UPDATE ... WHERE user_id = userId`. */
  function UpdateProfiles(profiles: seq<AboutMe>, userId: Id, input: AboutMeInput): (r: seq<AboutMe>)
    ensures |r| == |profiles|
    ensures forall i :: 0 <= i < |profiles| && profiles[i].userId != userId ==> r[i] == profiles[i]
    ensures forall i :: 0 <= i < |profiles| && profiles[i].userId == userId ==> r[i] == Updated(profiles[i], input)
  {
    seq(|profiles|, i requires 0 <= i < |profiles| =>
      if profiles[i].userId == userId then Updated(profiles[i], input) else profiles[i])
  }

  /** One history insert: the row for answer `t`, numbered after the rows already
      written for the answers in `recorded`; no other table changes. */
  method Record(db: Database, t: Tracked, current: AboutMe, input: AboutMeInput, userId: Id, firstId: Id, now: string,
                ghost base: seq<HistoryRow>, ghost recorded: seq<Tracked>)
    requires db.tables.history == base + RowsFor(recorded, userId, current, input, firstId, now)
    requires firstId == |base| + 1
    modifies db
    ensures db.tables == old(db.tables).(history := base + RowsFor(recorded + [t], userId, current, input, firstId, now))
  {
    var h := TrackedRow(|db.tables.history| + 1, userId, t, current, input, now);
    db.tables := db.tables.(history := db.tables.history + [h]);
    assert RowsFor(recorded + [t], userId, current, input, firstId, now)
      == RowsFor(recorded, userId, current, input, firstId, now) + [h];
  }

  /** The three history inserts of `PUT /about-me`, each made only when its answer
      changed, in the order best life, concerns, confidence. */
  method RecordChanges(db: Database, userId: Id, current: AboutMe, input: AboutMeInput, now: string)
    modifies db
    ensures db.tables == old(db.tables).(history := old(db.tables.history)
      + ChangeRows(userId, current, input, |old(db.tables.history)| + 1, now))
  {
    var firstId := |db.tables.history| + 1;
    ghost var recorded: seq<Tracked> := [];
    assert db.tables.history == old(db.tables.history) + RowsFor(recorded, userId, current, input, firstId, now);
    if Changed(BestLife, current, input) {
      Record(db, BestLife, current, input, userId, firstId, now, old(db.tables.history), recorded);
      recorded := recorded + [BestLife];
    }
    if Changed(Concerns, current, input) {
      Record(db, Concerns, current, input, userId, firstId, now, old(db.tables.history), recorded);
      recorded := recorded + [Concerns];
    }
    if Changed(Confidence, current, input) {
      Record(db, Confidence, current, input, userId, firstId, now, old(db.tables.history), recorded);
      recorded := recorded + [Confidence];
    }
    assert recorded == ChangedVariables(current, input);
  }

  /** `PUT /about-me`. With no stored profile the update matches no row and the handler
      fails on the missing result row; nothing is written. */
  method UpdateAboutMe(db: Database, userId: Id, input: AboutMeInput, client: Client, now: string)
    returns (res: Result<AboutMe, HttpError>)
    modifies db
    ensures !db.reachable ==> res == Err(AboutMeUpdateFailed) && db.tables == old(db.tables)
    ensures db.reachable && FindProfile(old(db.tables.profiles), userId).None? ==>
      res == Err(AboutMeUpdateFailed) && db.tables == old(db.tables)
    ensures db.reachable && FindProfile(old(db.tables.profiles), userId).Some? ==>
      var i := FindProfile(old(db.tables.profiles), userId).value;
      var current := old(db.tables.profiles)[i];
      var row := Updated(current, input);
      && res == Ok(row)
      && db.tables == old(db.tables).(
           history := old(db.tables.history) + ChangeRows(userId, current, input, |old(db.tables.history)| + 1, now),
           profiles := UpdateProfiles(old(db.tables.profiles), userId, input),
           audit := Audited(old(db.tables.audit),
             LogRow(Atom(Num(userId)), "ABOUT_ME_UPDATED", "about_me_profiles", Atom(Num(row.id)), client, now),
             db.auditAccepts))
  {
    if !db.reachable {
      return Err(AboutMeUpdateFailed);
    }
    var found := FindProfile(db.tables.profiles, userId);
    if found.None? {
      return Err(AboutMeUpdateFailed);
    }
    var current := db.tables.profiles[found.value];
    RecordChanges(db, userId, current, input, now);
    db.tables := db.tables.(profiles := UpdateProfiles(db.tables.profiles, userId, input));
    var row := db.tables.profiles[found.value];
    AuditLog(db, Atom(Num(userId)), "ABOUT_ME_UPDATED", "about_me_profiles", Atom(Num(row.id)), client, now);
    res := Ok(row);
  }

  /** The caller's user row and About-Me profile, as the profile read returns them. */
  datatype ProfileView = ProfileView(user: Option<User>, aboutMe: Option<AboutMe>)

  /** `GET /profile`: the caller's rows, and one `PROFILE_VIEWED` audit of the caller. */
  method ViewProfile(db: Database, userId: Id, client: Client, now: string) returns (res: Result<ProfileView, HttpError>)
    modifies db
    ensures !db.reachable ==> res == Err(ProfileFetchFailed) && db.tables == old(db.tables)
    ensures db.reachable ==>
      var users := old(db.tables.users);
      var profiles := old(db.tables.profiles);
      && res.Ok?
      && (res.value.user.Some? <==> exists j :: 0 <= j < |users| && users[j].id == userId)
      && (res.value.user.Some? ==> res.value.user.value.id == userId && res.value.user.value in users)
      && (res.value.aboutMe.Some? <==> exists j :: 0 <= j < |profiles| && profiles[j].userId == userId)
      && (res.value.aboutMe.Some? ==> res.value.aboutMe.value.userId == userId && res.value.aboutMe.value in profiles)
      && db.tables == old(db.tables).(audit := Audited(old(db.tables.audit),
           LogRow(Atom(Num(userId)), "PROFILE_VIEWED", "users", Atom(Num(userId)), client, now), db.auditAccepts))
  {
    if !db.reachable {
      return Err(ProfileFetchFailed);
    }
    var u := FindUser(db.tables.users, userId);
    var p := FindProfile(db.tables.profiles, userId);
    var view := ProfileView(
      if u.Some? then Some(db.tables.users[u.value]) else None,
      if p.Some? then Some(db.tables.profiles[p.value]) else None);
    AuditLog(db, Atom(Num(userId)), "PROFILE_VIEWED", "users", Atom(Num(userId)), client, now);
    res := Ok(view);
  }

  /** Sending back the stored answers unchanged writes no history row, except for an
      array-valued confidence level, which `!==` never finds equal. */
  lemma UnchangedAnswersWriteNoHistory(current: AboutMe, userId: Id, firstId: Id, now: string)
    requires !current.confidenceLevel.List?
    ensures ChangeRows(userId, current,
      AboutMeInput(current.bestLifeElements, current.concerns, current.confidenceLevel, current.nextSteps), firstId, now) == []
  {
  }

  /** An answer left out of the body is compared as `undefined` against the stored value,
      which is never `undefined`, so it is always recorded as a change. */
  lemma {:induction false} OmittedAnswerIsRecorded(t: Tracked, current: AboutMe, input: AboutMeInput, userId: Id, firstId: Id, now: string)
    requires Kept(t, current) == Stored(Kept(t, current))
    requires Sent(t, input) == Undefined
    ensures exists r :: r in ChangeRows(userId, current, input, firstId, now) && r.variableName == Atom(Str(VariableName(t)))
  {
    assert Changed(t, current, input);
    var rows := ChangeRows(userId, current, input, firstId, now);
    assert exists r :: r in rows && r.variableName == Atom(Str(VariableName(t)));
  }
}
