/** The records the core reads: citizen profiles and schemes as the storage layer
    returns them, with `eligibilityCriteria`, `targetCategories` and
    `targetOccupations` already decoded from JSON. */
module Domain {
  import opened Wrappers

  /** A calendar date; `month` and `day` are compared as numbers only. */
  datatype Date = Date(year: int, month: int, day: int)

  /** Lexicographic order on (year, month, day). */
  predicate DateLe(a: Date, b: Date) {
    a.year < b.year
    || (a.year == b.year && (a.month < b.month || (a.month == b.month && a.day <= b.day)))
  }

  datatype CitizenProfile = CitizenProfile(
    userId: string,
    dateOfBirth: Option<Date>,
    category: Option<string>,
    occupation: Option<string>,
    state: string,
    annualIncome: Option<int>,
    hasDisability: bool,
    familySize: Option<int>)

  /** The extension keys of `eligibilityCriteria` the evaluator looks at:
      `farmerType` (only its truthiness matters) and `housing`. */
  datatype Criteria = Criteria(farmerType: bool, housing: Option<string>)

  datatype Scheme = Scheme(
    id: string,
    category: string,
    description: string,
    maxIncome: Option<int>,
    minAge: Option<int>,
    maxAge: Option<int>,
    targetCategories: Option<seq<string>>,
    targetOccupations: Option<seq<string>>,
    state: Option<string>,
    eligibilityCriteria: Option<Criteria>)
}
