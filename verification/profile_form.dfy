/** The citizen profile form: the field rules it validates against, the
    payload it submits and the request it chooses, and the mapping that
    loads a stored profile back into the form. */
module ProfileForm {
  import opened Wrappers

  /** The form's fields, in the order the validation schema declares them. */
  datatype Key =
    | FullName | AadhaarNumber | DateOfBirth | Gender | State | District | Pincode
    | AnnualIncome | Category | Occupation | Education | FamilySize | HasDisability
    | DisabilityType | BankAccount | AdditionalDetails

  const AllKeys: seq<Key> :=
    [FullName, AadhaarNumber, DateOfBirth, Gender, State, District, Pincode,
     AnnualIncome, Category, Occupation, Education, FamilySize, HasDisability,
     DisabilityType, BankAccount, AdditionalDetails]

  lemma AllKeysComplete(k: Key)
    ensures k in AllKeys
  {
    match k
    case FullName => assert AllKeys[0] == k;
    case AadhaarNumber => assert AllKeys[1] == k;
    case DateOfBirth => assert AllKeys[2] == k;
    case Gender => assert AllKeys[3] == k;
    case State => assert AllKeys[4] == k;
    case District => assert AllKeys[5] == k;
    case Pincode => assert AllKeys[6] == k;
    case AnnualIncome => assert AllKeys[7] == k;
    case Category => assert AllKeys[8] == k;
    case Occupation => assert AllKeys[9] == k;
    case Education => assert AllKeys[10] == k;
    case FamilySize => assert AllKeys[11] == k;
    case HasDisability => assert AllKeys[12] == k;
    case DisabilityType => assert AllKeys[13] == k;
    case BankAccount => assert AllKeys[14] == k;
    case AdditionalDetails => assert AllKeys[15] == k;
  }

  /** A JavaScript value as it can sit in a form field or a profile record;
      `Notes` is the object `{ notes: … }`. */
  datatype Value = Undefined | Null | Str(s: string) | Num(n: int) | Bool(b: bool) | Notes(notes: Value)

  /** JavaScript truthiness (`!!x`) of a form value; the same notion as
      `Text.Truthy` on optional strings and `Recommendations.TruthyNumber`. */
  predicate Truthy(v: Value) {
    match v
    case Undefined => false
    case Null => false
    case Str(s) => s != ""
    case Num(n) => n != 0
    case Bool(b) => b
    case Notes(_) => true
  }

  /** The form state and a stored profile alike: a field missing from the map is `undefined`. */
  type Form = map<Key, Value>

  function Get(f: Form, k: Key): Value {
    if k in f then f[k] else Undefined
  }

  /** The schema rule of one field: `fullName` a string of at least 2
      characters, `state` a string of at least 1, `annualIncome` a number
      at least 0 and `familySize` at least 1 when present, `hasDisability`
      a boolean when present, and every other field a string when present. */
  predicate Rule(k: Key, v: Value) {
    if k == FullName then v.Str? && |v.s| >= 2
    else if k == State then v.Str? && |v.s| >= 1
    else if k == AnnualIncome then v.Undefined? || (v.Num? && v.n >= 0)
    else if k == FamilySize then v.Undefined? || (v.Num? && v.n >= 1)
    else if k == HasDisability then v.Undefined? || v.Bool?
    else v.Undefined? || v.Str?
  }

  predicate Broken(f: Form, k: Key) {
    !Rule(k, Get(f, k))
  }

  /** The keys among `keys` whose field fails its rule, in the order given. */
  function Errors(f: Form, keys: seq<Key>): (r: seq<Key>)
    ensures forall k :: k in r <==> k in keys && Broken(f, k)
    ensures r == [] <==> forall k :: k in keys ==> !Broken(f, k)
  {
    if keys == [] then []
    else (if Broken(f, keys[0]) then [keys[0]] else []) + Errors(f, keys[1..])
  }

  /** The fields that fail their rule, in schema order. */
  function Validate(f: Form): (errors: seq<Key>)
    ensures forall k :: k in errors <==> Broken(f, k)
    ensures errors == [] <==> forall k :: !Broken(f, k)
  {
    forall k ensures k in AllKeys { AllKeysComplete(k); }
    Errors(f, AllKeys)
  }

  predicate Valid(f: Form) {
    Validate(f) == []
  }

  /** The schema spelled out field by field: the two required fields are
      long enough strings, the two numbers are numbers in range when present,
      the flag is a boolean when present, and every other field is a string
      when present. */
  predicate Acceptable(f: Form) {
    && Get(f, FullName).Str? && |Get(f, FullName).s| >= 2
    && Get(f, State).Str? && |Get(f, State).s| >= 1
    && (Get(f, AnnualIncome).Undefined? || (Get(f, AnnualIncome).Num? && Get(f, AnnualIncome).n >= 0))
    && (Get(f, FamilySize).Undefined? || (Get(f, FamilySize).Num? && Get(f, FamilySize).n >= 1))
    && (Get(f, HasDisability).Undefined? || Get(f, HasDisability).Bool?)
    && forall k :: TextField(k) ==> Get(f, k).Undefined? || Get(f, k).Str?
  }

  predicate TextField(k: Key) {
    k != FullName && k != State && k != AnnualIncome && k != FamilySize && k != HasDisability
  }

  lemma ValidIff(f: Form)
    ensures Valid(f) <==> Acceptable(f)
  {
    if Valid(f) {
      assert !Broken(f, FullName) && !Broken(f, State) && !Broken(f, HasDisability);
      assert !Broken(f, AnnualIncome) && !Broken(f, FamilySize);
      forall k | TextField(k) ensures Get(f, k).Undefined? || Get(f, k).Str? {
        assert !Broken(f, k);
      }
    }
    if Acceptable(f) {
      forall k ensures !Broken(f, k) {
        if TextField(k) {
          assert Get(f, k).Undefined? || Get(f, k).Str?;
        }
      }
    }
  }

  /** The value a field starts with and falls back to: `undefined` for the
      two numbers, `false` for the disability flag, `""` for the text fields. */
  function EmptyValue(k: Key): Value {
    if k == AnnualIncome || k == FamilySize then Undefined
    else if k == HasDisability then Bool(false)
    else Str("")
  }

  /** The values the form starts with. */
  const Defaults: Form := map k: Key :: EmptyValue(k)

  /** An untouched form fails on exactly its two required fields. */
  lemma DefaultsInvalid()
    ensures forall k :: Broken(Defaults, k) <==> k == FullName || k == State
  {
    forall k ensures Broken(Defaults, k) <==> k == FullName || k == State {
      AllKeysComplete(k);
    }
  }

  /** Clearing any field other than `fullName` and `state` keeps a valid form
      valid; clearing either of those makes it invalid. */
  lemma OptionalFields(f: Form, k: Key)
    requires Valid(f)
    ensures Valid(f - {k}) <==> k != FullName && k != State
  {
    var g := f - {k};
    if k != FullName && k != State {
      forall j ensures !Broken(g, j) {
        assert j !in Validate(f);
      }
    } else {
      assert Broken(g, k);
      assert k in Validate(g);
    }
  }

  /** The body of the save request. */
  datatype Payload = Payload(userId: string, fields: Form)

  /** The submitted form data spread into the payload after the user id,
      with `additionalDetails` wrapped as `{ notes: text }` when it is
      non-empty and `null` otherwise. */
  function MakePayload(userId: string, data: Form): (p: Payload)
    ensures p.userId == userId
    ensures forall k :: k != AdditionalDetails ==> Get(p.fields, k) == Get(data, k)
    ensures Truthy(Get(data, AdditionalDetails)) ==> Get(p.fields, AdditionalDetails) == Notes(Get(data, AdditionalDetails))
    ensures !Truthy(Get(data, AdditionalDetails)) ==> Get(p.fields, AdditionalDetails) == Null
  {
    var details := Get(data, AdditionalDetails);
    Payload(userId, data[AdditionalDetails := if Truthy(details) then Notes(details) else Null])
  }

  datatype Verb = Post | Put

  datatype Request = Request(verb: Verb, url: string, body: Payload)

  const ProfilePath: string := "/api/profile"

  /** Saving updates the loaded profile with PUT on its own path, and creates
      one with POST on the collection path when none was loaded. */
  function RequestFor(userId: string, existing: Option<Form>, payload: Payload): (r: Request)
    ensures r.body == payload
    ensures r.verb == Put <==> existing.Some?
    ensures r.verb == Post ==> r.url == ProfilePath
  {
    if existing.Some? then Request(Put, ProfilePath + "/" + userId, payload)
    else Request(Post, ProfilePath, payload)
  }

  /** The PUT path names the profile's user: the user id is what follows the
      collection path and a slash. */
  lemma RequestNamesUser(userId: string, existing: Option<Form>, payload: Payload)
    ensures var r := RequestFor(userId, existing, payload);
      r.verb == Put ==>
        |r.url| == |ProfilePath| + 1 + |userId|
        && r.url[..|ProfilePath|] == ProfilePath
        && r.url[|ProfilePath|] == '/'
        && r.url[|ProfilePath| + 1..] == userId
  {
  }

  /** Submitting runs the schema first: an invalid form sends nothing and
      reports its broken fields; a valid one sends its payload. */
  function Submit(userId: string, existing: Option<Form>, data: Form): (r: Result<Request, seq<Key>>)
    ensures r.Failure? <==> !Valid(data)
    ensures r.Failure? ==> forall k :: k in r.error <==> Broken(data, k)
    ensures r.Success? ==>
      r.value.body == MakePayload(userId, data) && (r.value.verb == Put <==> existing.Some?)
  {
    var errors := Validate(data);
    if errors != [] then Failure(errors)
    else Success(RequestFor(userId, existing, MakePayload(userId, data)))
  }

  // Loading a stored profile into the form

  /** One field of `form.reset` as written: a falsy value becomes `""`,
      `undefined` for the two numbers and `false` for the disability flag;
      a truthy value is copied unchanged. */
  function ResetFieldAsWritten(k: Key, v: Value): (r: Value)
    ensures Truthy(v) ==> r == v
    ensures !Truthy(v) ==> r == Get(Defaults, k)
  {
    if Truthy(v) then v else EmptyValue(k)
  }

  function ResetAsWritten(profile: Form): (f: Form)
    ensures forall k :: k in f
    ensures forall k :: Get(f, k) == ResetFieldAsWritten(k, Get(profile, k))
  {
    map k: Key :: ResetFieldAsWritten(k, Get(profile, k))
  }

  /** Any valid form saved with non-empty notes and loaded back with the
      mapping as written fails the schema: the `{ notes: … }` object is
      copied into the text field that must hold a string. */
  lemma ResetAsWrittenRejectsSavedNotes(userId: string, data: Form)
    requires Valid(data) && Truthy(Get(data, AdditionalDetails))
    ensures var loaded := ResetAsWritten(MakePayload(userId, data).fields);
      Get(loaded, AdditionalDetails) == Notes(Get(data, AdditionalDetails))
      && AdditionalDetails in Validate(loaded)
      && !Valid(loaded)
  {
    var loaded := ResetAsWritten(MakePayload(userId, data).fields);
    assert Broken(loaded, AdditionalDetails);
  }

  /** One field of `form.reset` with `additionalDetails` read back from its
      `notes`: the text the user saved, or `""`. */
  function ResetField(k: Key, v: Value): (r: Value)
    ensures k != AdditionalDetails ==> r == ResetFieldAsWritten(k, v)
    ensures k == AdditionalDetails ==> r.Str?
    ensures k == AdditionalDetails && v.Notes? && v.notes.Str? && Truthy(v.notes) ==> r == v.notes
  {
    if k != AdditionalDetails then ResetFieldAsWritten(k, v)
    else if v.Notes? && v.notes.Str? && v.notes.s != "" then v.notes
    else Str("")
  }

  function Reset(profile: Form): (f: Form)
    ensures forall k :: k in f
    ensures forall k :: Get(f, k) == ResetField(k, Get(profile, k))
  {
    map k: Key :: ResetField(k, Get(profile, k))
  }

  /** Every loaded field is either its empty default (`""`, `undefined` for
      the two numbers, `false` for the flag) or a non-empty value; a stored
      income of 0 comes back `undefined`. */
  lemma ResetShapes(profile: Form, k: Key)
    ensures var v := Get(Reset(profile), k);
      if k == AnnualIncome || k == FamilySize then v.Undefined? || Truthy(v)
      else if k == HasDisability then v == Bool(false) || Truthy(v)
      else v == Str("") || Truthy(v)
    ensures Get(profile, AnnualIncome) == Num(0) ==> Get(Reset(profile), AnnualIncome) == Undefined
    ensures !Truthy(Get(profile, k)) ==> Get(Reset(profile), k) == Get(Defaults, k)
  {
  }

  /** One field through save and load: a value its rule accepts comes back
      accepted, and unchanged when it is non-empty. */
  lemma SaveThenLoadField(k: Key, v: Value)
    requires Rule(k, v)
    ensures var stored := if k == AdditionalDetails then (if Truthy(v) then Notes(v) else Null) else v;
      Rule(k, ResetField(k, stored)) && (Truthy(v) ==> ResetField(k, stored) == v)
  {
  }

  /** Saving a valid form and loading the saved profile back gives a valid
      form that keeps every non-empty value the user entered. The stored
      profile is taken to hold the payload's fields as sent. */
  lemma {:induction false} SaveThenLoad(userId: string, data: Form)
    requires Valid(data)
    ensures Valid(Reset(MakePayload(userId, data).fields))
    ensures forall k :: Truthy(Get(data, k)) ==> Get(Reset(MakePayload(userId, data).fields), k) == Get(data, k)
  {
    var loaded := Reset(MakePayload(userId, data).fields);
    forall k ensures !Broken(loaded, k) && (Truthy(Get(data, k)) ==> Get(loaded, k) == Get(data, k)) {
      assert k !in Validate(data);
      SaveThenLoadField(k, Get(data, k));
    }
  }
}
