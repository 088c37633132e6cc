/** The rule-based scheme matcher of `server/services/schemes.ts`: the
    eligibility evaluator, the shortlist of eligible or partially eligible
    schemes, catalogue filtering, the category list and the "popular" prefix.
    The catalogue (`storage.getAllSchemes()`) and today's date are parameters. */
module Schemes {
  import opened Wrappers
  import opened Text
  import opened Seqs
  import opened Sorting
  import opened Domain

  /** The criteria the evaluator can check. Each entry of `reasons` names the
      criterion that was met. */
  datatype Criterion =
    | IncomeLimit
    | AgeBand
    | TargetCategory
    | TargetOccupation
    | ResidentState
    | FarmerOccupation
    | HousingNotOwned

  /** An entry of `missingCriteria`: a criterion that was not met, or the age
      check that could not be made for want of a date of birth. */
  datatype Shortfall = Unmet(criterion: Criterion) | DateOfBirthRequired

  datatype EligibilityResult = EligibilityResult(
    eligible: bool,
    satisfied: nat,
    total: nat,
    reasons: seq<Criterion>,
    missingCriteria: seq<Shortfall>)
  {
    /** `score / totalChecks`, or 0 when no check applied. */
    function Score(): real {
      if total > 0 then satisfied as real / total as real else 0.0
    }
  }

  /** For t > 0: s/t >= n/d exactly when d*s >= n*t. */
  /** The 70% eligibility threshold on a ratio, without reals. */
  lemma AtLeastSeventyPercent(s: int, t: int)
    requires t > 0
    ensures (s as real / t as real >= 0.7) <==> 10 * s >= 7 * t
  {
    RatioAtLeast(s, t, 7, 10);
    assert 7 as real / 10 as real == 0.7;
  }

  lemma RatioAtLeast(s: int, t: int, n: int, d: int)
    requires t > 0 && d > 0
    ensures (s as real / t as real >= n as real / d as real) <==> d * s >= n * t
  {
    var q := s as real / t as real;
    var m := n as real / d as real;
    assert q * t as real == s as real;
    assert m * d as real == n as real;
    assert (d * s) as real == q * (t as real * d as real);
    assert (n * t) as real == m * (t as real * d as real);
    assert t as real * d as real > 0.0;
  }

  /* ---------------------------------------------------------------- age */

  /** Completed years of life on `today`: the birthday anniversary of that year
      has been reached and the next one has not. */
  function CompletedYears(dob: Date, today: Date): (age: int)
    ensures DateLe(Date(dob.year + age, dob.month, dob.day), today)
    ensures !DateLe(Date(dob.year + age + 1, dob.month, dob.day), today)
  {
    var years := today.year - dob.year;
    if today.month < dob.month || (today.month == dob.month && today.day < dob.day) then years - 1
    else years
  }

  /** `calculateAge`: null without a date of birth, else the year difference,
      less one when this year's birthday is still ahead. */
  method CalculateAge(dateOfBirth: Option<Date>, today: Date) returns (age: Option<int>)
    ensures age.None? <==> dateOfBirth.None?
    ensures dateOfBirth.Some? ==> age == Some(CompletedYears(dateOfBirth.value, today))
  {
    if dateOfBirth.None? {
      return None;
    }
    var dob := dateOfBirth.value;
    var a := today.year - dob.year;
    var monthDiff := today.month - dob.month;
    if monthDiff < 0 || (monthDiff == 0 && today.day < dob.day) {
      a := a - 1;
    }
    return Some(a);
  }

  /** On the N-th anniversary of birth the age is N. */
  lemma AgeOnAnniversary(dob: Date, n: int)
    ensures CompletedYears(dob, Date(dob.year + n, dob.month, dob.day)) == n
  {
  }

  /** One day earlier in the same month as the N-th anniversary the age is N - 1
      (for a birthday after the 1st, this is the day before it). */
  lemma AgeOnDayBeforeAnniversary(dob: Date, n: int)
    ensures CompletedYears(dob, Date(dob.year + n, dob.month, dob.day - 1)) == n - 1
  {
  }

  /** Completed years are determined by the anniversary condition alone. */
  lemma {:induction false} CompletedYearsUnique(dob: Date, today: Date, a: int)
    requires DateLe(Date(dob.year + a, dob.month, dob.day), today)
    requires !DateLe(Date(dob.year + a + 1, dob.month, dob.day), today)
    ensures a == CompletedYears(dob, today)
  {
  }

  /* ------------------------------------------------------- the checks */

  datatype Outcome = Met | NotMet | Unverifiable

  /** One applicable check and how it came out. */
  datatype Check = Check(criterion: Criterion, outcome: Outcome)

  predicate InAgeBand(age: int, s: Scheme) {
    (s.minAge.None? || age >= s.minAge.value) && (s.maxAge.None? || age <= s.maxAge.value)
  }

  function IncomeChecks(p: CitizenProfile, s: Scheme): seq<Check> {
    if s.maxIncome.None? then []
    else if p.annualIncome.Some? && p.annualIncome.value <= s.maxIncome.value then [Check(IncomeLimit, Met)]
    else [Check(IncomeLimit, NotMet)]
  }

  function AgeChecks(p: CitizenProfile, s: Scheme, today: Date): seq<Check> {
    if s.minAge.None? && s.maxAge.None? then []
    else if p.dateOfBirth.None? then [Check(AgeBand, Unverifiable)]
    else if InAgeBand(CompletedYears(p.dateOfBirth.value, today), s) then [Check(AgeBand, Met)]
    else [Check(AgeBand, NotMet)]
  }

  /** The category and occupation checks: applicable when the target list is
      present and non-empty, met when the profile's value is truthy and listed. */
  function MembershipChecks(c: Criterion, targets: Option<seq<string>>, value: Option<string>): seq<Check> {
    if targets.None? || |targets.value| == 0 then []
    else if Truthy(value) && value.value in targets.value then [Check(c, Met)]
    else [Check(c, NotMet)]
  }

  function StateChecks(p: CitizenProfile, s: Scheme): seq<Check> {
    if s.state.None? then []
    else if p.state == s.state.value then [Check(ResidentState, Met)]
    else [Check(ResidentState, NotMet)]
  }

  function FarmerChecks(p: CitizenProfile, c: Criteria): seq<Check> {
    if !c.farmerType then []
    else if p.occupation == Some("Farmer") then [Check(FarmerOccupation, Met)]
    else [Check(FarmerOccupation, NotMet)]
  }

  /** The housing placeholder: credited whenever it applies. */
  function HousingChecks(c: Criteria): seq<Check> {
    if c.housing.Some? && Contains(c.housing.value, "not own") then [Check(HousingNotOwned, Met)] else []
  }

  function CriteriaFarmerChecks(p: CitizenProfile, s: Scheme): seq<Check> {
    if s.eligibilityCriteria.None? then [] else FarmerChecks(p, s.eligibilityCriteria.value)
  }

  function CriteriaHousingChecks(s: Scheme): seq<Check> {
    if s.eligibilityCriteria.None? then [] else HousingChecks(s.eligibilityCriteria.value)
  }

  /** Every applicable check, in the order the evaluator makes them. */
  function Checks(p: CitizenProfile, s: Scheme, today: Date): seq<Check> {
    IncomeChecks(p, s)
    + AgeChecks(p, s, today)
    + MembershipChecks(TargetCategory, s.targetCategories, p.category)
    + MembershipChecks(TargetOccupation, s.targetOccupations, p.occupation)
    + StateChecks(p, s)
    + CriteriaFarmerChecks(p, s)
    + CriteriaHousingChecks(s)
  }

  function Passed(cs: seq<Check>): seq<Criterion> {
    if cs == [] then []
    else (if cs[0].outcome == Met then [cs[0].criterion] else []) + Passed(cs[1..])
  }

  function ShortfallOf(c: Check): Shortfall {
    if c.outcome == Unverifiable then DateOfBirthRequired else Unmet(c.criterion)
  }

  function Failed(cs: seq<Check>): seq<Shortfall> {
    if cs == [] then []
    else (if cs[0].outcome != Met then [ShortfallOf(cs[0])] else []) + Failed(cs[1..])
  }

  /** One step of `Passed` over a concatenation with a non-empty left part. */
  lemma PassedStep(a: seq<Check>, b: seq<Check>)
    requires a != []
    ensures Passed(a + b) == (if a[0].outcome == Met then [a[0].criterion] else []) + Passed(a[1..] + b)
  {
    assert (a + b)[0] == a[0];
    assert (a + b)[1..] == a[1..] + b;
  }

  lemma {:induction false} PassedAppend(a: seq<Check>, b: seq<Check>)
    ensures Passed(a + b) == Passed(a) + Passed(b)
  {
    if a == [] {
      assert a + b == b;
    } else {
      PassedAppend(a[1..], b);
      PassedStep(a, b);
    }
  }

  /** One step of `Failed` over a concatenation with a non-empty left part. */
  lemma FailedStep(a: seq<Check>, b: seq<Check>)
    requires a != []
    ensures Failed(a + b) == (if a[0].outcome != Met then [ShortfallOf(a[0])] else []) + Failed(a[1..] + b)
  {
    assert (a + b)[0] == a[0];
    assert (a + b)[1..] == a[1..] + b;
  }

  lemma {:induction false} FailedAppend(a: seq<Check>, b: seq<Check>)
    ensures Failed(a + b) == Failed(a) + Failed(b)
  {
    if a == [] {
      assert a + b == b;
    } else {
      FailedAppend(a[1..], b);
      FailedStep(a, b);
    }
  }

  lemma PassedFailedAppend(a: seq<Check>, b: seq<Check>)
    ensures Passed(a + b) == Passed(a) + Passed(b)
    ensures Failed(a + b) == Failed(a) + Failed(b)
  {
    PassedAppend(a, b);
    FailedAppend(a, b);
  }

  /** Each check lands in exactly one of the two lists. */
  lemma {:induction false} PassedFailedPartition(cs: seq<Check>)
    ensures |Passed(cs)| + |Failed(cs)| == |cs|
  {
    if cs != [] {
      PassedFailedPartition(cs[1..]);
    }
  }

  lemma {:induction false} PassedMember(cs: seq<Check>, c: Criterion)
    ensures c in Passed(cs) <==> Check(c, Met) in cs
  {
    if cs != [] {
      PassedMember(cs[1..], c);
      assert cs == [cs[0]] + cs[1..];
    }
  }

  lemma {:induction false} FailedMember(cs: seq<Check>, c: Criterion)
    ensures Unmet(c) in Failed(cs) <==> Check(c, NotMet) in cs
    ensures DateOfBirthRequired in Failed(cs) <==> exists o :: Check(o, Unverifiable) in cs
  {
    if cs != [] {
      FailedMember(cs[1..], c);
      assert cs == [cs[0]] + cs[1..];
      if cs[0].outcome == Unverifiable {
        assert Check(cs[0].criterion, Unverifiable) in cs;
      }
      if exists o :: Check(o, Unverifiable) in cs[1..] {
        var o :| Check(o, Unverifiable) in cs[1..];
        assert Check(o, Unverifiable) in cs;
      }
    }
  }

  /** The evaluator's verdict: the met checks are the reasons, the others the
      missing criteria, and the scheme is eligible when at least 70% of the
      applicable checks are met. */
  function Evaluate(p: CitizenProfile, s: Scheme, today: Date): (r: EligibilityResult)
    ensures r.satisfied == |r.reasons| <= r.total
    ensures |r.reasons| + |r.missingCriteria| == r.total
    ensures r.total == 0 ==> r.Score() == 0.0 && !r.eligible
    ensures r.eligible <==> r.Score() >= 0.7
    ensures 0.0 <= r.Score() <= 1.0
  {
    var cs := Checks(p, s, today);
    PassedFailedPartition(cs);
    var passed := Passed(cs);
    var res := EligibilityResult(|cs| > 0 && 10 * |passed| >= 7 * |cs|, |passed|, |cs|, passed, Failed(cs));
    ScoreFacts(res);
    res
  }

  lemma ScoreFacts(e: EligibilityResult)
    requires e.satisfied <= e.total
    requires e.eligible == (e.total > 0 && 10 * e.satisfied >= 7 * e.total)
    ensures e.eligible <==> e.Score() >= 0.7
    ensures 0.0 <= e.Score() <= 1.0
  {
    if e.total > 0 {
      RatioAtLeast(e.satisfied, e.total, 7, 10);
      RatioAtLeast(e.satisfied, e.total, 1, 1);
      RatioAtLeast(e.satisfied, e.total, 0, 1);
    }
  }

  /** What a block of at most one check adds to `reasons`. */
  function Credit(block: seq<Check>): seq<Criterion> {
    if |block| == 1 && block[0].outcome == Met then [block[0].criterion] else []
  }

  /** What a block of at most one check adds to `missingCriteria`. */
  function Debit(block: seq<Check>): seq<Shortfall> {
    if |block| == 1 && block[0].outcome != Met then [ShortfallOf(block[0])] else []
  }

  lemma Single(block: seq<Check>)
    requires |block| <= 1
    ensures Passed(block) == Credit(block) && Failed(block) == Debit(block)
  {
    if block != [] {
      assert block[1..] == [];
    }
  }

  lemma Step(done: seq<Check>, block: seq<Check>)
    requires |block| <= 1
    ensures Passed(done + block) == Passed(done) + Credit(block)
    ensures Failed(done + block) == Failed(done) + Debit(block)
  {
    PassedFailedAppend(done, block);
    Single(block);
  }

  /** The evaluator's running counters and lists. */
  datatype Tally = Tally(score: nat, totalChecks: nat, reasons: seq<Criterion>, missingCriteria: seq<Shortfall>)

  /** The counters and lists after recording a block of at most one check. */
  function Record(t: Tally, block: seq<Check>): Tally {
    Tally(t.score + |Credit(block)|, t.totalChecks + |block|, t.reasons + Credit(block), t.missingCriteria + Debit(block))
  }

  /** The result built from the final counters. */
  function Finish(t: Tally): EligibilityResult {
    EligibilityResult(t.totalChecks > 0 && 10 * t.score >= 7 * t.totalChecks,
      t.score, t.totalChecks, t.reasons, t.missingCriteria)
  }

  /** The evaluator's result, recorded block by block. */
  lemma EvaluateByBlocks(p: CitizenProfile, s: Scheme, today: Date)
    ensures Evaluate(p, s, today)
         == Finish(Record(Record(Record(Record(Record(Record(Record(Tally(0, 0, [], []),
              IncomeChecks(p, s)), AgeChecks(p, s, today)),
              MembershipChecks(TargetCategory, s.targetCategories, p.category)),
              MembershipChecks(TargetOccupation, s.targetOccupations, p.occupation)),
              StateChecks(p, s)), CriteriaFarmerChecks(p, s)), CriteriaHousingChecks(s)))
  {
    var a, b, c, d, e, f, h := IncomeChecks(p, s), AgeChecks(p, s, today),
      MembershipChecks(TargetCategory, s.targetCategories, p.category),
      MembershipChecks(TargetOccupation, s.targetOccupations, p.occupation),
      StateChecks(p, s), CriteriaFarmerChecks(p, s), CriteriaHousingChecks(s);
    SummaryFirst(a);
    SummaryStep(a, b);
    SummaryStep(a + b, c);
    SummaryStep(a + b + c, d);
    SummaryStep(a + b + c + d, e);
    SummaryStep(a + b + c + d + e, f);
    SummaryStep(a + b + c + d + e + f, h);
    assert a + b + c + d + e + f + h == Checks(p, s, today);
  }

  /** The counters and lists the evaluator derives from its checks. */
  function Summary(cs: seq<Check>): Tally {
    Tally(|Passed(cs)|, |cs|, Passed(cs), Failed(cs))
  }

  lemma SummaryFirst(block: seq<Check>)
    requires |block| <= 1
    ensures Record(Tally(0, 0, [], []), block) == Summary(block)
  {
    Single(block);
    assert [] + Credit(block) == Credit(block);
    assert [] + Debit(block) == Debit(block);
  }

  lemma SummaryStep(done: seq<Check>, block: seq<Check>)
    requires |block| <= 1
    ensures Record(Summary(done), block) == Summary(done + block)
  {
    Step(done, block);
  }

  method CheckIncome(p: CitizenProfile, s: Scheme, t: Tally) returns (t': Tally)
    ensures t' == Record(t, IncomeChecks(p, s))
  {
    t' := t;
    if s.maxIncome.Some? {
      t' := t'.(totalChecks := t'.totalChecks + 1);
      if p.annualIncome.Some? && p.annualIncome.value <= s.maxIncome.value {
        t' := t'.(score := t'.score + 1, reasons := t'.reasons + [IncomeLimit]);
      } else {
        t' := t'.(missingCriteria := t'.missingCriteria + [Unmet(IncomeLimit)]);
      }
    }
  }

  method CheckAge(p: CitizenProfile, s: Scheme, today: Date, t: Tally) returns (t': Tally)
    ensures t' == Record(t, AgeChecks(p, s, today))
  {
    t' := t;
    if s.minAge.Some? || s.maxAge.Some? {
      t' := t'.(totalChecks := t'.totalChecks + 1);
      var age := CalculateAge(p.dateOfBirth, today);
      if age.Some? {
        var ageEligible := (s.minAge.None? || age.value >= s.minAge.value)
          && (s.maxAge.None? || age.value <= s.maxAge.value);
        if ageEligible {
          t' := t'.(score := t'.score + 1, reasons := t'.reasons + [AgeBand]);
        } else {
          t' := t'.(missingCriteria := t'.missingCriteria + [Unmet(AgeBand)]);
        }
      } else {
        t' := t'.(missingCriteria := t'.missingCriteria + [DateOfBirthRequired]);
      }
    }
  }

  /** The category and the occupation checks share one shape. */
  method CheckMembership(c: Criterion, targets: Option<seq<string>>, value: Option<string>, t: Tally)
    returns (t': Tally)
    ensures t' == Record(t, MembershipChecks(c, targets, value))
  {
    t' := t;
    if targets.Some? && |targets.value| > 0 {
      t' := t'.(totalChecks := t'.totalChecks + 1);
      if Truthy(value) && value.value in targets.value {
        t' := t'.(score := t'.score + 1, reasons := t'.reasons + [c]);
      } else {
        t' := t'.(missingCriteria := t'.missingCriteria + [Unmet(c)]);
      }
    }
  }

  method CheckState(p: CitizenProfile, s: Scheme, t: Tally) returns (t': Tally)
    ensures t' == Record(t, StateChecks(p, s))
  {
    t' := t;
    if s.state.Some? {
      t' := t'.(totalChecks := t'.totalChecks + 1);
      if p.state == s.state.value {
        t' := t'.(score := t'.score + 1, reasons := t'.reasons + [ResidentState]);
      } else {
        t' := t'.(missingCriteria := t'.missingCriteria + [Unmet(ResidentState)]);
      }
    }
  }

  method CheckFarmer(p: CitizenProfile, criteria: Criteria, t: Tally) returns (t': Tally)
    ensures t' == Record(t, FarmerChecks(p, criteria))
  {
    t' := t;
    if criteria.farmerType && p.occupation != Some("Farmer") {
      t' := t'.(totalChecks := t'.totalChecks + 1,
                missingCriteria := t'.missingCriteria + [Unmet(FarmerOccupation)]);
    } else if criteria.farmerType && p.occupation == Some("Farmer") {
      t' := t'.(totalChecks := t'.totalChecks + 1, score := t'.score + 1,
                reasons := t'.reasons + [FarmerOccupation]);
    }
  }

  method CheckHousing(criteria: Criteria, t: Tally) returns (t': Tally)
    ensures t' == Record(t, HousingChecks(criteria))
  {
    t' := t;
    if criteria.housing.Some? && Contains(criteria.housing.value, "not own") {
      t' := t'.(totalChecks := t'.totalChecks + 1, reasons := t'.reasons + [HousingNotOwned],
                score := t'.score + 1);
    }
  }

  /** `checkEligibility`: counters and lists updated check by check. */
  method CheckEligibility(p: CitizenProfile, s: Scheme, today: Date) returns (r: EligibilityResult)
    ensures r == Evaluate(p, s, today)
  {
    var t := Tally(0, 0, [], []);
    t := CheckIncome(p, s, t);
    t := CheckAge(p, s, today, t);
    t := CheckMembership(TargetCategory, s.targetCategories, p.category, t);
    t := CheckMembership(TargetOccupation, s.targetOccupations, p.occupation, t);
    t := CheckState(p, s, t);
    ghost var before := t;
    if s.eligibilityCriteria.Some? {
      var criteria := s.eligibilityCriteria.value;
      t := CheckFarmer(p, criteria, t);
      t := CheckHousing(criteria, t);
    } else {
      assert t.reasons + [] == t.reasons && t.missingCriteria + [] == t.missingCriteria;
    }
    assert t == Record(Record(before, CriteriaFarmerChecks(p, s)), CriteriaHousingChecks(s));
    EvaluateByBlocks(p, s, today);

    var finalScore: real := if t.totalChecks > 0 then t.score as real / t.totalChecks as real else 0.0;
    var eligible := finalScore >= 0.7;
    if t.totalChecks > 0 {
      AtLeastSeventyPercent(t.score, t.totalChecks);
    }
    r := EligibilityResult(eligible, t.score, t.totalChecks, t.reasons, t.missingCriteria);
  }

  /* ------------------------------------------- per-criterion rules */

  /** The checks of a sequence all concern criterion `c`. */
  predicate About(cs: seq<Check>, c: Criterion) {
    forall i :: 0 <= i < |cs| ==> cs[i].criterion == c
  }

  /** Where in `Checks` each criterion's check comes from. */
  lemma {:induction false} ChecksOf(p: CitizenProfile, s: Scheme, today: Date, c: Criterion, o: Outcome)
    ensures Check(c, o) in Checks(p, s, today) <==>
      match c
      case IncomeLimit => Check(c, o) in IncomeChecks(p, s)
      case AgeBand => Check(c, o) in AgeChecks(p, s, today)
      case TargetCategory => Check(c, o) in MembershipChecks(TargetCategory, s.targetCategories, p.category)
      case TargetOccupation => Check(c, o) in MembershipChecks(TargetOccupation, s.targetOccupations, p.occupation)
      case ResidentState => Check(c, o) in StateChecks(p, s)
      case FarmerOccupation => Check(c, o) in CriteriaFarmerChecks(p, s)
      case HousingNotOwned => Check(c, o) in CriteriaHousingChecks(s)
  {
    var income := IncomeChecks(p, s);
    var age := AgeChecks(p, s, today);
    var cat := MembershipChecks(TargetCategory, s.targetCategories, p.category);
    var occ := MembershipChecks(TargetOccupation, s.targetOccupations, p.occupation);
    var st := StateChecks(p, s);
    var farmer := CriteriaFarmerChecks(p, s);
    var housing := CriteriaHousingChecks(s);
    assert About(income, IncomeLimit) && About(age, AgeBand) && About(cat, TargetCategory);
    assert About(occ, TargetOccupation) && About(st, ResidentState);
    assert About(farmer, FarmerOccupation) && About(housing, HousingNotOwned);
    var x := Check(c, o);
    assert x in Checks(p, s, today)
      <==> x in income || x in age || x in cat || x in occ || x in st || x in farmer || x in housing;
  }

  /** Reasons and missing criteria are read off the applicable checks. */
  lemma EvaluateLists(p: CitizenProfile, s: Scheme, today: Date, c: Criterion)
    ensures c in Evaluate(p, s, today).reasons <==> Check(c, Met) in Checks(p, s, today)
    ensures Unmet(c) in Evaluate(p, s, today).missingCriteria <==> Check(c, NotMet) in Checks(p, s, today)
    ensures DateOfBirthRequired in Evaluate(p, s, today).missingCriteria
      <==> exists o :: Check(o, Unverifiable) in Checks(p, s, today)
  {
    PassedMember(Checks(p, s, today), c);
    FailedMember(Checks(p, s, today), c);
  }

  /** Income: applicable iff the scheme has a limit; met iff the income is known
      and within it. */
  lemma IncomeRule(p: CitizenProfile, s: Scheme, today: Date)
    ensures IncomeLimit in Evaluate(p, s, today).reasons
      <==> s.maxIncome.Some? && p.annualIncome.Some? && p.annualIncome.value <= s.maxIncome.value
    ensures Unmet(IncomeLimit) in Evaluate(p, s, today).missingCriteria
      <==> s.maxIncome.Some? && !(p.annualIncome.Some? && p.annualIncome.value <= s.maxIncome.value)
  {
    EvaluateLists(p, s, today, IncomeLimit);
    ChecksOf(p, s, today, IncomeLimit, Met);
    ChecksOf(p, s, today, IncomeLimit, NotMet);
  }

  /** Age: applicable iff the scheme has a lower or an upper age bound; without
      a date of birth it is missing as "date of birth required". */
  lemma AgeRule(p: CitizenProfile, s: Scheme, today: Date)
    ensures AgeBand in Evaluate(p, s, today).reasons
      <==> (s.minAge.Some? || s.maxAge.Some?) && p.dateOfBirth.Some?
           && InAgeBand(CompletedYears(p.dateOfBirth.value, today), s)
    ensures Unmet(AgeBand) in Evaluate(p, s, today).missingCriteria
      <==> (s.minAge.Some? || s.maxAge.Some?) && p.dateOfBirth.Some?
           && !InAgeBand(CompletedYears(p.dateOfBirth.value, today), s)
    ensures DateOfBirthRequired in Evaluate(p, s, today).missingCriteria
      <==> (s.minAge.Some? || s.maxAge.Some?) && p.dateOfBirth.None?
  {
    EvaluateLists(p, s, today, AgeBand);
    ChecksOf(p, s, today, AgeBand, Met);
    ChecksOf(p, s, today, AgeBand, NotMet);
    UnverifiableIsAge(p, s, today);
  }

  /** Only the age check can be unverifiable, and it is exactly when a bound
      exists and the date of birth is missing. */
  lemma UnverifiableIsAge(p: CitizenProfile, s: Scheme, today: Date)
    ensures (exists o :: Check(o, Unverifiable) in Checks(p, s, today))
      <==> (s.minAge.Some? || s.maxAge.Some?) && p.dateOfBirth.None?
  {
    ChecksOf(p, s, today, AgeBand, Unverifiable);
    if exists o :: Check(o, Unverifiable) in Checks(p, s, today) {
      var o :| Check(o, Unverifiable) in Checks(p, s, today);
      ChecksOf(p, s, today, o, Unverifiable);
    }
  }

  /** Category: applicable iff the target list is present and non-empty; met iff
      the profile's category is non-empty and listed. */
  lemma CategoryRule(p: CitizenProfile, s: Scheme, today: Date)
    ensures TargetCategory in Evaluate(p, s, today).reasons
      <==> s.targetCategories.Some? && |s.targetCategories.value| > 0
           && Truthy(p.category) && p.category.value in s.targetCategories.value
    ensures Unmet(TargetCategory) in Evaluate(p, s, today).missingCriteria
      <==> s.targetCategories.Some? && |s.targetCategories.value| > 0
           && !(Truthy(p.category) && p.category.value in s.targetCategories.value)
  {
    EvaluateLists(p, s, today, TargetCategory);
    ChecksOf(p, s, today, TargetCategory, Met);
    ChecksOf(p, s, today, TargetCategory, NotMet);
  }

  /** Occupation: the same rule over the target occupations. */
  lemma OccupationRule(p: CitizenProfile, s: Scheme, today: Date)
    ensures TargetOccupation in Evaluate(p, s, today).reasons
      <==> s.targetOccupations.Some? && |s.targetOccupations.value| > 0
           && Truthy(p.occupation) && p.occupation.value in s.targetOccupations.value
    ensures Unmet(TargetOccupation) in Evaluate(p, s, today).missingCriteria
      <==> s.targetOccupations.Some? && |s.targetOccupations.value| > 0
           && !(Truthy(p.occupation) && p.occupation.value in s.targetOccupations.value)
  {
    EvaluateLists(p, s, today, TargetOccupation);
    ChecksOf(p, s, today, TargetOccupation, Met);
    ChecksOf(p, s, today, TargetOccupation, NotMet);
  }

  /** State: applicable iff the scheme names a state; met iff it is the profile's
      state, compared exactly. */
  lemma StateRule(p: CitizenProfile, s: Scheme, today: Date)
    ensures ResidentState in Evaluate(p, s, today).reasons <==> s.state == Some(p.state)
    ensures Unmet(ResidentState) in Evaluate(p, s, today).missingCriteria
      <==> s.state.Some? && s.state.value != p.state
  {
    EvaluateLists(p, s, today, ResidentState);
    ChecksOf(p, s, today, ResidentState, Met);
    ChecksOf(p, s, today, ResidentState, NotMet);
  }

  /** Farmer: applicable iff the criteria ask for a farmer; met iff the occupation
      is exactly "Farmer". */
  lemma FarmerRule(p: CitizenProfile, s: Scheme, today: Date)
    ensures FarmerOccupation in Evaluate(p, s, today).reasons
      <==> s.eligibilityCriteria.Some? && s.eligibilityCriteria.value.farmerType
           && p.occupation == Some("Farmer")
    ensures Unmet(FarmerOccupation) in Evaluate(p, s, today).missingCriteria
      <==> s.eligibilityCriteria.Some? && s.eligibilityCriteria.value.farmerType
           && p.occupation != Some("Farmer")
  {
    EvaluateLists(p, s, today, FarmerOccupation);
    ChecksOf(p, s, today, FarmerOccupation, Met);
    ChecksOf(p, s, today, FarmerOccupation, NotMet);
  }

  /** Housing: credited whenever the criteria mention "not own", and never
      reported missing. */
  lemma HousingRule(p: CitizenProfile, s: Scheme, today: Date)
    ensures HousingNotOwned in Evaluate(p, s, today).reasons
      <==> s.eligibilityCriteria.Some? && s.eligibilityCriteria.value.housing.Some?
           && Contains(s.eligibilityCriteria.value.housing.value, "not own")
    ensures Unmet(HousingNotOwned) !in Evaluate(p, s, today).missingCriteria
  {
    EvaluateLists(p, s, today, HousingNotOwned);
    ChecksOf(p, s, today, HousingNotOwned, Met);
    ChecksOf(p, s, today, HousingNotOwned, NotMet);
  }

  /** A scheme that declares no constraint scores 0 and is never eligible. */
  predicate Unconstrained(s: Scheme) {
    && s.maxIncome.None? && s.minAge.None? && s.maxAge.None?
    && (s.targetCategories.None? || s.targetCategories.value == [])
    && (s.targetOccupations.None? || s.targetOccupations.value == [])
    && s.state.None?
    && (s.eligibilityCriteria.None?
        || (!s.eligibilityCriteria.value.farmerType
            && !(s.eligibilityCriteria.value.housing.Some?
                 && Contains(s.eligibilityCriteria.value.housing.value, "not own"))))
  }

  lemma UnconstrainedNeverEligible(p: CitizenProfile, s: Scheme, today: Date)
    requires Unconstrained(s)
    ensures Evaluate(p, s, today).total == 0
    ensures Evaluate(p, s, today).Score() == 0.0 && !Evaluate(p, s, today).eligible
  {
  }

  /* ------------------------------------------------ the shortlist */

  /** `eligible || score >= 0.5`. */
  predicate Retained(e: EligibilityResult) {
    e.eligible || e.Score() >= 0.5
  }

  /** On evaluator results the shortlist test is exact integer arithmetic:
      at least half of at least one applicable check. */
  lemma RetainedExact(p: CitizenProfile, s: Scheme, today: Date)
    ensures Retained(Evaluate(p, s, today))
      <==> Evaluate(p, s, today).total > 0 && 2 * Evaluate(p, s, today).satisfied >= Evaluate(p, s, today).total
  {
    RetainedIff(Evaluate(p, s, today));
  }

  lemma RetainedIff(e: EligibilityResult)
    requires e.eligible <==> e.Score() >= 0.7
    ensures Retained(e) <==> e.total > 0 && 2 * e.satisfied >= e.total
  {
    if e.total > 0 {
      RatioAtLeast(e.satisfied, e.total, 1, 2);
    }
  }

  /** A scheme paired with its eligibility result (`{...scheme, eligibility}`). */
  datatype RankedScheme = RankedScheme(scheme: Scheme, eligibility: EligibilityResult)

  function RankKey(x: RankedScheme): real {
    x.eligibility.Score()
  }

  /** The retained schemes of a catalogue, each with its result, in catalogue order. */
  function Shortlist(p: CitizenProfile, catalogue: seq<Scheme>, today: Date): seq<RankedScheme> {
    if catalogue == [] then []
    else
      var init := Shortlist(p, catalogue[..|catalogue| - 1], today);
      var last := catalogue[|catalogue| - 1];
      var e := Evaluate(p, last, today);
      if Retained(e) then init + [RankedScheme(last, e)] else init
  }

  /** The shortlist holds exactly the retained catalogue schemes, with their results. */
  lemma {:induction false} ShortlistMembers(p: CitizenProfile, catalogue: seq<Scheme>, today: Date, x: RankedScheme)
    ensures x in Shortlist(p, catalogue, today)
      <==> x.scheme in catalogue && x.eligibility == Evaluate(p, x.scheme, today) && Retained(x.eligibility)
  {
    if catalogue != [] {
      var init := catalogue[..|catalogue| - 1];
      var last := catalogue[|catalogue| - 1];
      var e := Evaluate(p, last, today);
      ShortlistMembers(p, init, today, x);
      InInitOrLast(catalogue, x.scheme);
      if Retained(e) {
        assert Shortlist(p, catalogue, today) == Shortlist(p, init, today) + [RankedScheme(last, e)];
      } else {
        assert Shortlist(p, catalogue, today) == Shortlist(p, init, today);
      }
    }
  }

  /** `getEligibleSchemes`: evaluate every scheme, keep the retained ones, sort
      by score, highest first, equal scores in catalogue order. */
  method GetEligibleSchemes(p: CitizenProfile, catalogue: seq<Scheme>, today: Date) returns (r: seq<RankedScheme>)
    ensures multiset(r) == multiset(Shortlist(p, catalogue, today))
    ensures SortedDesc(r, RankKey)
    ensures forall k :: WithKey(r, RankKey, k) == WithKey(Shortlist(p, catalogue, today), RankKey, k)
  {
    var eligibleSchemes: seq<RankedScheme> := [];
    for i := 0 to |catalogue|
      invariant eligibleSchemes == Shortlist(p, catalogue[..i], today)
    {
      var eligibility := CheckEligibility(p, catalogue[i], today);
      assert catalogue[..i + 1][..i] == catalogue[..i];
      if eligibility.eligible || eligibility.Score() >= 0.5 {
        eligibleSchemes := eligibleSchemes + [RankedScheme(catalogue[i], eligibility)];
      }
    }
    assert catalogue[..|catalogue|] == catalogue;
    r := SortDesc(eligibleSchemes, RankKey);
    forall k {
      SortDescStable(eligibleSchemes, RankKey, k);
    }
  }

  /* ---------------------------------------------- catalogue filters */

  datatype SchemeFilters = SchemeFilters(
    category: Option<string>,
    state: Option<string>,
    maxIncome: Option<int>,
    search: Option<string>)

  /** An income filter applies only when its value is truthy (present, non-zero). */
  predicate IncomeFilterSet(f: SchemeFilters) {
    f.maxIncome.Some? && f.maxIncome.value != 0
  }

  predicate CategoryOk(f: SchemeFilters, s: Scheme) {
    Truthy(f.category) ==> EqualsIgnoreCase(s.category, f.category.value)
  }

  /** Nationwide (null-state) schemes pass every state filter. */
  predicate StateOk(f: SchemeFilters, s: Scheme) {
    Truthy(f.state) ==> s.state.None? || s.state.value == f.state.value
  }

  predicate IncomeOk(f: SchemeFilters, s: Scheme) {
    IncomeFilterSet(f) ==> s.maxIncome.None? || s.maxIncome.value >= f.maxIncome.value
  }

  predicate MatchesFilters(f: SchemeFilters, s: Scheme) {
    CategoryOk(f, s) && StateOk(f, s) && IncomeOk(f, s)
  }

  /** The catalogue schemes passing every set filter, in catalogue order. */
  function Matching(catalogue: seq<Scheme>, f: SchemeFilters): seq<Scheme> {
    Filter(catalogue, s => MatchesFilters(f, s))
  }

  lemma {:induction false} MatchingByPredicate(catalogue: seq<Scheme>, f: SchemeFilters, kept: Scheme -> bool)
    requires forall s :: kept(s) == MatchesFilters(f, s)
    ensures Filter(catalogue, kept) == Matching(catalogue, f)
  {
    if catalogue != [] {
      MatchingByPredicate(catalogue[1..], f, kept);
    }
  }

  /** `getSchemesByFilters`: each set filter narrows the list in turn; a search
      term replaces the list by the catalogue's search result. */
  method GetSchemesByFilters(catalogue: seq<Scheme>, f: SchemeFilters, searchSchemes: string -> seq<Scheme>)
    returns (r: seq<Scheme>)
    ensures Truthy(f.search) ==> r == searchSchemes(f.search.value)
    ensures !Truthy(f.search) ==> r == Matching(catalogue, f)
    ensures !Truthy(f.search) ==> forall s :: s in r <==> s in catalogue && MatchesFilters(f, s)
  {
    var schemes := catalogue;
    ghost var kept: Scheme -> bool := s => true;
    FilterAll(catalogue, kept);

    if Truthy(f.category) {
      var wanted := f.category.value;
      var byCategory := (s: Scheme) => EqualsIgnoreCase(s.category, wanted);
      ghost var next := (s: Scheme) => kept(s) && byCategory(s);
      FilterFilter(catalogue, kept, byCategory, next);
      schemes := Filter(schemes, byCategory);
      kept := next;
    }
    assert forall s :: kept(s) == CategoryOk(f, s);

    if Truthy(f.state) {
      var wanted := f.state.value;
      var byState := (s: Scheme) => s.state.None? || s.state.value == wanted;
      ghost var next := (s: Scheme) => kept(s) && byState(s);
      FilterFilter(catalogue, kept, byState, next);
      schemes := Filter(schemes, byState);
      kept := next;
    }
    assert forall s :: kept(s) == (CategoryOk(f, s) && StateOk(f, s));

    if IncomeFilterSet(f) {
      var limit := f.maxIncome.value;
      var byIncome := (s: Scheme) => s.maxIncome.None? || s.maxIncome.value >= limit;
      ghost var next := (s: Scheme) => kept(s) && byIncome(s);
      FilterFilter(catalogue, kept, byIncome, next);
      schemes := Filter(schemes, byIncome);
      kept := next;
    }
    assert forall s :: kept(s) == MatchesFilters(f, s);
    MatchingByPredicate(catalogue, f, kept);

    if Truthy(f.search) {
      schemes := searchSchemes(f.search.value);
    } else {
      forall s | s in catalogue && MatchesFilters(f, s) ensures s in schemes {
        FilterKeeps(catalogue, kept, s);
      }
    }
    r := schemes;
  }

  /* ------------------------------------------- categories, popular */

  function CategoriesOf(catalogue: seq<Scheme>): (r: seq<string>)
    ensures |r| == |catalogue|
    ensures forall i :: 0 <= i < |r| ==> r[i] == catalogue[i].category
  {
    seq(|catalogue|, i requires 0 <= i < |catalogue| => catalogue[i].category)
  }

  lemma CategoryPresent(catalogue: seq<Scheme>, c: string)
    ensures c in CategoriesOf(catalogue) <==> exists s :: s in catalogue && s.category == c
  {
    var all := CategoriesOf(catalogue);
    if c in all {
      var i :| 0 <= i < |all| && all[i] == c;
      assert catalogue[i] in catalogue;
    }
    if exists s :: s in catalogue && s.category == c {
      var s :| s in catalogue && s.category == c;
      var i :| 0 <= i < |catalogue| && catalogue[i] == s;
      assert all[i] == c;
    }
  }

  /** `getSchemeCategories`: the distinct scheme categories, sorted. */
  function GetSchemeCategories(catalogue: seq<Scheme>): (r: seq<string>)
    ensures forall i, j :: 0 <= i < j < |r| ==> StrLe(r[i], r[j]) && r[i] != r[j]
    ensures forall c :: c in r <==> exists s :: s in catalogue && s.category == c
  {
    var all := CategoriesOf(catalogue);
    var distinct := Dedupe(all);
    var r := SortStrings(distinct);
    PermutationNoDup(distinct, r);
    forall i, j | 0 <= i < j < |r| ensures r[i] != r[j] {
      NoDupDistinct(r, i, j);
    }
    forall c ensures c in r <==> c in distinct {
      assert c in r <==> c in multiset(r);
      assert c in distinct <==> c in multiset(distinct);
    }
    forall c ensures c in distinct <==> exists s :: s in catalogue && s.category == c {
      CategoryPresent(catalogue, c);
      if c in distinct {
        var k :| 0 <= k < |distinct| && distinct[k] == c;
      }
      if c in all {
        var i :| 0 <= i < |all| && all[i] == c;
      }
    }
    r
  }

  /** The page size `getPopularSchemes` uses when called without a limit. */
  const DefaultPopularLimit: int := 10

  /** `getPopularSchemes`: `schemes.slice(0, limit)`, so the first `limit`
      schemes (all of them when fewer), and for a negative limit all but the
      last `-limit`. */
  function GetPopularSchemes(catalogue: seq<Scheme>, limit: int := DefaultPopularLimit): (r: seq<Scheme>)
    ensures |r| <= |catalogue| && r == catalogue[..|r|]
    ensures 0 <= limit ==> |r| == limit || r == catalogue
    ensures 0 <= limit ==> |r| <= limit
    ensures limit < 0 ==> |r| == |catalogue| + limit || (r == [] && |catalogue| < -limit)
  {
    if limit >= 0 then
      (if limit < |catalogue| then catalogue[..limit] else catalogue)
    else if |catalogue| + limit > 0 then catalogue[..|catalogue| + limit]
    else []
  }
}
