/** The heuristic recommender: an additive match score per scheme, the top ten
    positive scores stored as the user's recommendation rows, and the read side
    that re-attaches schemes to stored rows. */
module Recommendations {
  import opened Wrappers
  import opened Text
  import opened Seqs
  import opened Sorting
  import opened Domain
  import opened Store

  const ReasonText: string := "This scheme is a good match for your profile based on our analysis."
  const PendingStatus: string := "pending"
  const GenerateError: string := "Failed to generate recommendations"

  /** How many of the best-scored schemes are considered for storage. */
  const TopCount: nat := 10

  /* ------------------------------------------------------ the score */

  /** JavaScript truthiness (`!!x`) of an optional number: present and not 0;
      the same notion as `Text.Truthy` on optional strings. */
  predicate TruthyNumber(n: Option<int>) {
    n.Some? && n.value != 0
  }

  /** The age used by the heuristic: the plain difference of calendar years. */
  function YearDifference(dob: Date, today: Date): int {
    today.year - dob.year
  }

  function CategoryBonus(p: CitizenProfile, s: Scheme): nat {
    if s.targetCategories.Some? && p.category.Some? && p.category.value in s.targetCategories.value then 20 else 0
  }

  function OccupationBonus(p: CitizenProfile, s: Scheme): nat {
    if s.targetOccupations.Some? && p.occupation.Some? && p.occupation.value in s.targetOccupations.value then 20 else 0
  }

  function IncomeBonus(p: CitizenProfile, s: Scheme): nat {
    if TruthyNumber(s.maxIncome) && TruthyNumber(p.annualIncome) && p.annualIncome.value <= s.maxIncome.value
    then 15 else 0
  }

  function MinAgeBonus(p: CitizenProfile, s: Scheme, today: Date): nat {
    if TruthyNumber(s.minAge) && p.dateOfBirth.Some?
       && YearDifference(p.dateOfBirth.value, today) >= s.minAge.value
    then 10 else 0
  }

  function MaxAgeBonus(p: CitizenProfile, s: Scheme, today: Date): nat {
    if TruthyNumber(s.maxAge) && p.dateOfBirth.Some?
       && YearDifference(p.dateOfBirth.value, today) <= s.maxAge.value
    then 10 else 0
  }

  function DisabilityBonus(p: CitizenProfile, s: Scheme): nat {
    if p.hasDisability && Contains(ToLower(s.description), "disability") then 25 else 0
  }

  /** The match score: the sum of the bonuses that fire, at most 100. */
  function HeuristicScore(p: CitizenProfile, s: Scheme, today: Date): (r: nat)
    ensures r <= 100
  {
    CategoryBonus(p, s) + OccupationBonus(p, s) + IncomeBonus(p, s)
    + MinAgeBonus(p, s, today) + MaxAgeBonus(p, s, today) + DisabilityBonus(p, s)
  }

  /** A zero limit, income or age bound is falsy and gates its bonus off. */
  lemma ZeroGatesBonus(p: CitizenProfile, s: Scheme, today: Date)
    ensures p.annualIncome == Some(0) || s.maxIncome == Some(0) ==> IncomeBonus(p, s) == 0
    ensures s.minAge == Some(0) ==> MinAgeBonus(p, s, today) == 0
    ensures s.maxAge == Some(0) ==> MaxAgeBonus(p, s, today) == 0
    ensures p.dateOfBirth.None? ==> MinAgeBonus(p, s, today) + MaxAgeBonus(p, s, today) == 0
  {
  }

  /** `calculateSchemeScore`: bonuses accumulated one condition at a time. */
  method CalculateSchemeScore(p: CitizenProfile, s: Scheme, today: Date) returns (score: int)
    ensures score == HeuristicScore(p, s, today)
    ensures 0 <= score <= 100
  {
    score := 0;
    if s.targetCategories.Some? && p.category.Some? && p.category.value in s.targetCategories.value {
      score := score + 20;
    }
    if s.targetOccupations.Some? && p.occupation.Some? && p.occupation.value in s.targetOccupations.value {
      score := score + 20;
    }
    if TruthyNumber(s.maxIncome) && TruthyNumber(p.annualIncome) && p.annualIncome.value <= s.maxIncome.value {
      score := score + 15;
    }
    if TruthyNumber(s.minAge) && p.dateOfBirth.Some? {
      var age := today.year - p.dateOfBirth.value.year;
      if age >= s.minAge.value {
        score := score + 10;
      }
    }
    if TruthyNumber(s.maxAge) && p.dateOfBirth.Some? {
      var age := today.year - p.dateOfBirth.value.year;
      if age <= s.maxAge.value {
        score := score + 10;
      }
    }
    if p.hasDisability && Contains(ToLower(s.description), "disability") {
      score := score + 25;
    }
  }

  /* ------------------------------------------------------ the batch */

  /** A scheme with its match score (`{ scheme, score }`). */
  datatype Candidate = Candidate(scheme: Scheme, score: int)

  function CandidateKey(c: Candidate): real {
    c.score as real
  }

  predicate Positive(c: Candidate) {
    c.score > 0
  }

  function Scored(p: CitizenProfile, catalogue: seq<Scheme>, today: Date): seq<Candidate> {
    seq(|catalogue|, i requires 0 <= i < |catalogue| => Candidate(catalogue[i], HeuristicScore(p, catalogue[i], today)))
  }

  /** All candidates, best first, equal scores in catalogue order. */
  function Ranking(p: CitizenProfile, catalogue: seq<Scheme>, today: Date): seq<Candidate> {
    SortDesc(Scored(p, catalogue, today), CandidateKey)
  }

  function Min(a: int, b: int): int {
    if a <= b then a else b
  }

  /** `slice(0, 10)` of the ranking. */
  function Top(p: CitizenProfile, catalogue: seq<Scheme>, today: Date): seq<Candidate> {
    var ranking := Ranking(p, catalogue, today);
    ranking[..Min(TopCount, |ranking|)]
  }

  /** The candidates that are stored: the positive ones among the top ten. */
  function Batch(p: CitizenProfile, catalogue: seq<Scheme>, today: Date): seq<Candidate> {
    Filter(Top(p, catalogue, today), Positive)
  }

  /** The top ten are the best: the ranking is a permutation of the scored
      catalogue, and nothing left out of the top scores above anything in it. */
  lemma TopIsBest(p: CitizenProfile, catalogue: seq<Scheme>, today: Date)
    ensures var top, ranking := Top(p, catalogue, today), Ranking(p, catalogue, today);
      var rest := ranking[|top|..];
      && |top| == Min(TopCount, |catalogue|)
      && multiset(top) + multiset(rest) == multiset(Scored(p, catalogue, today))
      && forall i, j :: 0 <= i < |top| && 0 <= j < |rest| ==> rest[j].score <= top[i].score
  {
    var ranking := Ranking(p, catalogue, today);
    var n := Min(TopCount, |ranking|);
    MultisetSplit(ranking, n);
    assert |multiset(ranking)| == |multiset(Scored(p, catalogue, today))|;
    forall i, j | 0 <= i < n && 0 <= j < |ranking| - n ensures ranking[n..][j].score <= ranking[..n][i].score {
      assert CandidateKey(ranking[i]) >= CandidateKey(ranking[n + j]);
    }
  }

  /** Each stored candidate is a catalogue scheme with its own positive score, at
      most ten are stored, best first, and no positive top-ten candidate is dropped. */
  lemma BatchFacts(p: CitizenProfile, catalogue: seq<Scheme>, today: Date)
    ensures var batch := Batch(p, catalogue, today);
      && |batch| <= TopCount
      && SortedDesc(batch, CandidateKey)
      && (forall i :: 0 <= i < |batch| ==>
            && batch[i].score > 0 && batch[i].scheme in catalogue
            && batch[i].score == HeuristicScore(p, batch[i].scheme, today))
      && forall x :: x in Top(p, catalogue, today) && x.score > 0 ==> x in batch
  {
    var scored := Scored(p, catalogue, today);
    var ranking := Ranking(p, catalogue, today);
    var top := Top(p, catalogue, today);
    var batch := Batch(p, catalogue, today);
    assert SortedDesc(top, CandidateKey);
    FilterSortedDesc(top, Positive, CandidateKey);
    forall i | 0 <= i < |batch|
      ensures batch[i].scheme in catalogue && batch[i].score == HeuristicScore(p, batch[i].scheme, today)
    {
      assert batch[i] in top;
      assert batch[i] in multiset(ranking);
      assert batch[i] in scored;
    }
    forall x | x in top && x.score > 0 ensures x in batch {
      FilterKeeps(top, Positive, x);
    }
  }

  /* ------------------------------------------------- generation */

  /** A recommendation as returned to callers: the stored row with its scheme
      re-attached; generation also sets `reasoning` and `eligibilityStatus`. */
  datatype Recommendation = Recommendation(
    row: Row, scheme: Scheme, reasoning: Option<string>, eligibilityStatus: Option<string>)

  function RecommendationKey(x: Recommendation): real {
    x.row.score as real
  }

  /** The rows one generation stores, with ids from `firstId` on. */
  function Rows(userId: string, batch: seq<Candidate>, firstId: nat): seq<Row> {
    seq(|batch|, i requires 0 <= i < |batch| =>
      Row(firstId + i, userId, batch[i].scheme.id, batch[i].score, ReasonText))
  }

  /** What one generation returns, one entry per stored row. */
  function Delivered(userId: string, batch: seq<Candidate>, firstId: nat): seq<Recommendation> {
    seq(|batch|, i requires 0 <= i < |batch| =>
      Recommendation(Row(firstId + i, userId, batch[i].scheme.id, batch[i].score, ReasonText),
        batch[i].scheme, Some(ReasonText), Some(PendingStatus)))
  }

  /** The returned list is the stored rows in order, each with its scheme, the
      fixed reason and status "pending", best score first. */
  lemma DeliveredFacts(p: CitizenProfile, catalogue: seq<Scheme>, today: Date, userId: string, firstId: nat)
    ensures var batch := Batch(p, catalogue, today);
      var out, rows := Delivered(userId, batch, firstId), Rows(userId, batch, firstId);
      && |out| == |rows| <= TopCount
      && SortedDesc(out, RecommendationKey)
      && forall i :: 0 <= i < |out| ==>
           && out[i].row == rows[i] && rows[i].score > 0 && rows[i].userId == userId
           && out[i].scheme in catalogue && out[i].scheme.id == rows[i].schemeId
           && out[i].reasoning == Some(ReasonText) && out[i].eligibilityStatus == Some(PendingStatus)
  {
    BatchFacts(p, catalogue, today);
    var batch := Batch(p, catalogue, today);
    var out := Delivered(userId, batch, firstId);
    forall i, j | 0 <= i < j < |out| ensures RecommendationKey(out[i]) >= RecommendationKey(out[j]) {
      assert CandidateKey(batch[i]) >= CandidateKey(batch[j]);
    }
  }

  lemma RowsSnoc(userId: string, batch: seq<Candidate>, x: Candidate, firstId: nat)
    ensures Rows(userId, batch + [x], firstId)
         == Rows(userId, batch, firstId) + [Row(firstId + |batch|, userId, x.scheme.id, x.score, ReasonText)]
    ensures Delivered(userId, batch + [x], firstId)
         == Delivered(userId, batch, firstId)
            + [Recommendation(Row(firstId + |batch|, userId, x.scheme.id, x.score, ReasonText),
                 x.scheme, Some(ReasonText), Some(PendingStatus))]
  {
  }

  /** Scores every catalogue scheme in order (`allSchemes.map`). */
  method ScoreAll(p: CitizenProfile, allSchemes: seq<Scheme>, today: Date) returns (recommendations: seq<Candidate>)
    ensures recommendations == Scored(p, allSchemes, today)
  {
    recommendations := [];
    for i := 0 to |allSchemes|
      invariant |recommendations| == i
      invariant forall j :: 0 <= j < i ==>
        recommendations[j] == Candidate(allSchemes[j], HeuristicScore(p, allSchemes[j], today))
    {
      var score := CalculateSchemeScore(p, allSchemes[i], today);
      recommendations := recommendations + [Candidate(allSchemes[i], score)];
    }
  }

  /** `generateRecommendations`: without a profile, fail and touch nothing;
      otherwise replace the user's rows by the new batch and return it. */
  method GenerateRecommendations(store: Storage, userId: string, today: Date)
    returns (r: Result<seq<Recommendation>, string>)
    modifies store
    ensures store.profiles == old(store.profiles) && store.schemes == old(store.schemes)
    ensures userId !in old(store.profiles) ==>
      && r == Failure(GenerateError)
      && store.recommendations == old(store.recommendations)
      && store.nextId == old(store.nextId)
    ensures userId in old(store.profiles) ==>
      var batch := Batch(old(store.profiles)[userId], old(store.schemes), today);
      && r == Success(Delivered(userId, batch, old(store.nextId)))
      && store.recommendations == old(store.recommendations)[userId := Rows(userId, batch, old(store.nextId))]
      && store.nextId == old(store.nextId) + |batch|
  {
    var citizenProfile := store.GetCitizenProfile(userId);
    if citizenProfile.None? {
      return Failure(GenerateError);
    }
    var allSchemes := store.schemes;
    store.DeleteRecommendationsByUserId(userId);

    var recommendations := ScoreAll(citizenProfile.value, allSchemes, today);
    var sortedRecommendations := SortDesc(recommendations, CandidateKey);
    var topRecommendations := sortedRecommendations[..Min(TopCount, |sortedRecommendations|)];
    assert topRecommendations == Top(citizenProfile.value, allSchemes, today);
    var storedRecommendations := StoreBatch(store, userId, topRecommendations);
    return Success(storedRecommendations);
  }

  /** The storing loop of `generateRecommendations`: one new row per positive
      candidate, in order, appended to the user's (already emptied) rows. */
  method StoreBatch(store: Storage, userId: string, topRecommendations: seq<Candidate>)
    returns (storedRecommendations: seq<Recommendation>)
    modifies store
    requires userId in store.recommendations && store.recommendations[userId] == []
    ensures store.profiles == old(store.profiles) && store.schemes == old(store.schemes)
    ensures var batch := Filter(topRecommendations, Positive);
      && storedRecommendations == Delivered(userId, batch, old(store.nextId))
      && store.recommendations == old(store.recommendations)[userId := Rows(userId, batch, old(store.nextId))]
      && store.nextId == old(store.nextId) + |batch|
  {
    ghost var firstId := store.nextId;
    ghost var before := store.recommendations;
    assert Filter(topRecommendations[..0], Positive) == [];
    assert Rows(userId, [], firstId) == [];
    assert before == before[userId := Rows(userId, [], firstId)];
    storedRecommendations := [];
    for i := 0 to |topRecommendations|
      invariant store.profiles == old(store.profiles) && store.schemes == old(store.schemes)
      invariant store.nextId == firstId + |Filter(topRecommendations[..i], Positive)|
      invariant store.recommendations
             == before[userId := Rows(userId, Filter(topRecommendations[..i], Positive), firstId)]
      invariant storedRecommendations == Delivered(userId, Filter(topRecommendations[..i], Positive), firstId)
    {
      var rec := topRecommendations[i];
      ghost var kept := Filter(topRecommendations[..i], Positive);
      assert topRecommendations[..i + 1] == topRecommendations[..i] + [rec];
      FilterAppend(topRecommendations[..i], [rec], Positive);
      assert Filter([rec], Positive) == if rec.score > 0 then [rec] else [];
      if rec.score > 0 {
        RowsSnoc(userId, kept, rec, firstId);
        var storedRec := store.CreateRecommendation(userId, rec.scheme.id, rec.score, ReasonText);
        storedRecommendations := storedRecommendations
          + [Recommendation(storedRec, rec.scheme, Some(storedRec.reason), Some(PendingStatus))];
      } else {
        assert kept + [] == kept;
      }
    }
    assert topRecommendations[..|topRecommendations|] == topRecommendations;
  }

  /** `refreshRecommendations`: delete, then generate. On success the store ends as
      after a plain generation; without a profile the user's rows are gone. */
  method RefreshRecommendations(store: Storage, userId: string, today: Date)
    returns (r: Result<seq<Recommendation>, string>)
    modifies store
    ensures store.profiles == old(store.profiles) && store.schemes == old(store.schemes)
    ensures userId !in old(store.profiles) ==>
      && r == Failure(GenerateError)
      && store.recommendations == old(store.recommendations)[userId := []]
      && store.nextId == old(store.nextId)
    ensures userId in old(store.profiles) ==>
      var batch := Batch(old(store.profiles)[userId], old(store.schemes), today);
      && r == Success(Delivered(userId, batch, old(store.nextId)))
      && store.recommendations == old(store.recommendations)[userId := Rows(userId, batch, old(store.nextId))]
      && store.nextId == old(store.nextId) + |batch|
  {
    store.DeleteRecommendationsByUserId(userId);
    r := GenerateRecommendations(store, userId, today);
  }

  /* ------------------------------------------------------ read side */

  /** The user's rows whose scheme still exists, each with its scheme, in row order. */
  function Enrich(rows: seq<Row>, catalogue: seq<Scheme>): seq<Recommendation> {
    if rows == [] then []
    else
      var init := Enrich(rows[..|rows| - 1], catalogue);
      var last := rows[|rows| - 1];
      match FindScheme(catalogue, last.schemeId)
      case None => init
      case Some(s) => init + [Recommendation(last, s, None, None)]
  }

  /** Exactly the rows whose scheme is found survive, paired with that scheme. */
  lemma {:induction false} EnrichMembers(rows: seq<Row>, catalogue: seq<Scheme>, x: Recommendation)
    ensures x in Enrich(rows, catalogue)
      <==> x.row in rows && FindScheme(catalogue, x.row.schemeId) == Some(x.scheme)
           && x.reasoning.None? && x.eligibilityStatus.None?
  {
    if rows != [] {
      var init := rows[..|rows| - 1];
      EnrichMembers(init, catalogue, x);
      assert rows == init + [rows[|rows| - 1]];
    }
  }

  /** What `getUserRecommendations` returns for a user's rows and a catalogue. */
  function UserView(rows: seq<Row>, catalogue: seq<Scheme>): seq<Recommendation> {
    SortDesc(Enrich(rows, catalogue), RecommendationKey)
  }

  /** The view holds the rows with a known scheme, best score first, equal scores
      in row order. */
  lemma UserViewFacts(rows: seq<Row>, catalogue: seq<Scheme>)
    ensures var view := UserView(rows, catalogue);
      && SortedDesc(view, RecommendationKey)
      && multiset(view) == multiset(Enrich(rows, catalogue))
      && (forall x :: x in view <==> x.row in rows && FindScheme(catalogue, x.row.schemeId) == Some(x.scheme)
                                      && x.reasoning.None? && x.eligibilityStatus.None?)
      && forall k :: WithKey(view, RecommendationKey, k) == WithKey(Enrich(rows, catalogue), RecommendationKey, k)
  {
    var view := UserView(rows, catalogue);
    forall x ensures x in view <==> x in Enrich(rows, catalogue) {
      assert x in view <==> x in multiset(view);
    }
    forall x {
      EnrichMembers(rows, catalogue, x);
    }
    forall k {
      SortDescStable(Enrich(rows, catalogue), RecommendationKey, k);
    }
  }

  /** `getUserRecommendations`: re-attach schemes, drop rows without one, sort. */
  method GetUserRecommendations(store: Storage, userId: string) returns (r: seq<Recommendation>)
    ensures r == UserView(store.GetRecommendationsByUserId(userId), store.schemes)
  {
    var recommendations := store.GetRecommendationsByUserId(userId);
    var enrichedRecommendations: seq<Recommendation> := [];
    for i := 0 to |recommendations|
      invariant enrichedRecommendations == Enrich(recommendations[..i], store.schemes)
    {
      var rec := recommendations[i];
      var scheme := store.GetSchemeById(rec.schemeId);
      assert recommendations[..i + 1][..i] == recommendations[..i];
      if scheme.Some? {
        enrichedRecommendations := enrichedRecommendations + [Recommendation(rec, scheme.value, None, None)];
      }
    }
    assert recommendations[..|recommendations|] == recommendations;
    r := SortDesc(enrichedRecommendations, RecommendationKey);
  }

  predicate InCategory(category: string, x: Recommendation) {
    EqualsIgnoreCase(x.scheme.category, category)
  }

  /** The entries of a view whose scheme category matches, ignoring case. */
  function ByCategory(view: seq<Recommendation>, category: string): seq<Recommendation> {
    Filter(view, x => InCategory(category, x))
  }

  /** The category view is the order-preserving sub-list of the user view whose
      category matches, and stays sorted. */
  lemma ByCategoryFacts(view: seq<Recommendation>, category: string)
    requires SortedDesc(view, RecommendationKey)
    ensures SortedDesc(ByCategory(view, category), RecommendationKey)
    ensures forall x :: x in ByCategory(view, category) <==> x in view && InCategory(category, x)
  {
    FilterSortedDesc(view, x => InCategory(category, x), RecommendationKey);
    forall x | x in view && InCategory(category, x) ensures x in ByCategory(view, category) {
      FilterKeeps(view, x => InCategory(category, x), x);
    }
  }

  /** `getRecommendationsByCategory`. */
  method GetRecommendationsByCategory(store: Storage, userId: string, category: string)
    returns (r: seq<Recommendation>)
    ensures r == ByCategory(UserView(store.GetRecommendationsByUserId(userId), store.schemes), category)
  {
    var allRecommendations := GetUserRecommendations(store, userId);
    r := ByCategory(allRecommendations, category);
  }

  /** Rows whose schemes are all found all survive enrichment. */
  lemma {:induction false} EnrichAllFound(rows: seq<Row>, catalogue: seq<Scheme>)
    requires forall i :: 0 <= i < |rows| ==> FindScheme(catalogue, rows[i].schemeId).Some?
    ensures |Enrich(rows, catalogue)| == |rows|
  {
    if rows != [] {
      EnrichAllFound(rows[..|rows| - 1], catalogue);
    }
  }

  /** Reading back right after a generation (or a refresh) yields exactly the new
      batch: one entry per stored row, and nothing from earlier generations. */
  lemma ViewAfterGenerate(p: CitizenProfile, catalogue: seq<Scheme>, today: Date, userId: string, firstId: nat)
    ensures var rows := Rows(userId, Batch(p, catalogue, today), firstId);
      && |UserView(rows, catalogue)| == |rows|
      && (forall x :: x in UserView(rows, catalogue) ==> x.row in rows)
      && forall i :: 0 <= i < |rows| ==> exists x :: x in UserView(rows, catalogue) && x.row == rows[i]
  {
    var batch := Batch(p, catalogue, today);
    var rows := Rows(userId, batch, firstId);
    BatchFacts(p, catalogue, today);
    forall i | 0 <= i < |rows| ensures FindScheme(catalogue, rows[i].schemeId).Some? {
      var k :| 0 <= k < |catalogue| && catalogue[k] == batch[i].scheme;
      assert catalogue[k].id == rows[i].schemeId;
    }
    EnrichAllFound(rows, catalogue);
    UserViewFacts(rows, catalogue);
    assert |multiset(UserView(rows, catalogue))| == |multiset(Enrich(rows, catalogue))|;
    ViewShowsEveryRow(rows, catalogue);
  }

  /** When every row's scheme is in the catalogue, every row is shown. */
  lemma ViewShowsEveryRow(rows: seq<Row>, catalogue: seq<Scheme>)
    requires forall i :: 0 <= i < |rows| ==> FindScheme(catalogue, rows[i].schemeId).Some?
    ensures forall i :: 0 <= i < |rows| ==> exists x :: x in UserView(rows, catalogue) && x.row == rows[i]
  {
    UserViewFacts(rows, catalogue);
    forall i | 0 <= i < |rows| ensures exists x :: x in UserView(rows, catalogue) && x.row == rows[i] {
      var x := Recommendation(rows[i], FindScheme(catalogue, rows[i].schemeId).value, None, None);
      assert rows[i] in rows;
      assert x in UserView(rows, catalogue);
    }
  }
}
