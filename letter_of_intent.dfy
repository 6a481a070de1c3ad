/** The letter-of-intent page: required-field validation, the submission
    date, allocation of a unique 8-character code by at most ten lookups
    against the store, construction of the inserted row, and the page state
    that a submission updates. */
module LetterOfIntent {
  import opened Common
  import opened Text
  import opened Codes
  import opened CodeAllocation

  /** The fields of the form, as the page holds them. */
  datatype LetterForm = LetterForm(
    firstName: string,
    middleName: string,
    lastName: string,
    citizenship: string,
    office: string,
    district: string,
    county: string,
    partyType: string,
    partyName: string,
    homeAddress: string,
    telephoneNumbers: string,
    voterRegistrationNumber: string,
    dateOfBirth: string,
    gender: string,
    occupation: string,
    aspirantName: string,
    aspirantSignature: string)

  /** The form as the page starts, and as a successful submission leaves it. */
  const InitialForm: LetterForm := LetterForm(
    "", "", "", "Liberia", "", "", "", "Independent", "",
    "", "", "", "", "", "", "", "")

  const PoliticalParty: string := "Political Party"

  const FillRequired: string := "Please fill in all required fields."
  const NotAuthenticated: string := "User not authenticated"
  const DefaultError: string := "An error occurred. Please try again."

  /** The fields of the form, by name. */
  datatype Field =
    | FirstName | MiddleName | LastName | Citizenship | Office | District
    | County | PartyType | PartyName | HomeAddress | TelephoneNumbers
    | VoterRegistrationNumber | DateOfBirth | Gender | Occupation
    | AspirantName | AspirantSignature

  function Get(f: LetterForm, fld: Field): string {
    match fld
    case FirstName => f.firstName
    case MiddleName => f.middleName
    case LastName => f.lastName
    case Citizenship => f.citizenship
    case Office => f.office
    case District => f.district
    case County => f.county
    case PartyType => f.partyType
    case PartyName => f.partyName
    case HomeAddress => f.homeAddress
    case TelephoneNumbers => f.telephoneNumbers
    case VoterRegistrationNumber => f.voterRegistrationNumber
    case DateOfBirth => f.dateOfBirth
    case Gender => f.gender
    case Occupation => f.occupation
    case AspirantName => f.aspirantName
    case AspirantSignature => f.aspirantSignature
  }

  /** Which fields the form marks as required, given the chosen party type. */
  predicate Required(fld: Field, partyType: string) {
    match fld
    case MiddleName => false
    case Citizenship => false
    case PartyName => partyType == PoliticalParty
    case _ => true
  }

  /** What "filled in" means for a field: a choice must be non-empty, a
      typed field must be non-blank after trimming. */
  predicate Filled(fld: Field, v: string) {
    if fld == PartyType || fld == Gender then v != "" else !Blank(v)
  }

  /** The fields `validate()` tests, in the order of its `||` chain. */
  const Checked: seq<Field> := [
    FirstName, LastName, Office, District, County, PartyType, PartyName,
    HomeAddress, TelephoneNumbers, VoterRegistrationNumber, DateOfBirth,
    Gender, Occupation, AspirantName, AspirantSignature]

  /** One test of the chain: the field is required and not filled in. */
  predicate Missing(f: LetterForm, fld: Field) {
    Required(fld, f.partyType) && !Filled(fld, Get(f, fld))
  }

  /** The condition under which `validate()` rejects the form: the `||` chain
      over the checked fields, scanned from the first. Text fields are
      trimmed first; the two radio choices (party type, gender) are only
      checked for being non-empty; the party name counts only for a political
      party; middle name and citizenship are never checked. */
  predicate MissingRequired(f: LetterForm) {
    AnyOf(Checked, fld => Missing(f, fld))
  }

  /** A form is complete when every required field is filled in. */
  predicate Complete(f: LetterForm) {
    forall fld :: Required(fld, f.partyType) ==> Filled(fld, Get(f, fld))
  }

  /** Every field that can be required is one the chain tests. */
  lemma RequiredIsChecked(fld: Field, partyType: string)
    requires Required(fld, partyType)
    ensures exists i :: 0 <= i < |Checked| && Checked[i] == fld
  {
    var i := match fld
      case FirstName => 0 case LastName => 1 case Office => 2 case District => 3
      case County => 4 case PartyType => 5 case PartyName => 6 case HomeAddress => 7
      case TelephoneNumbers => 8 case VoterRegistrationNumber => 9 case DateOfBirth => 10
      case Gender => 11 case Occupation => 12 case AspirantName => 13
      case AspirantSignature => 14 case MiddleName => 0 case Citizenship => 0;
    assert Checked[i] == fld;
  }

  /** Validation rejects a form exactly when a required field is not filled. */
  lemma MissingIffIncomplete(f: LetterForm)
    ensures MissingRequired(f) <==> !Complete(f)
  {
    AnyOfIffExists(Checked, fld => Missing(f, fld));
    if !Complete(f) {
      var fld :| Required(fld, f.partyType) && !Filled(fld, Get(f, fld));
      RequiredIsChecked(fld, f.partyType);
      var i :| 0 <= i < |Checked| && Checked[i] == fld;
      assert Missing(f, Checked[i]);
    }
  }

  /** The middle name never affects validation, and the party name affects
      it only when the party type is "Political Party". */
  lemma OptionalFields(f: LetterForm, m: string, p: string)
    ensures Complete(f.(middleName := m)) == Complete(f)
    ensures f.partyType != PoliticalParty ==> Complete(f.(partyName := p)) == Complete(f)
  {
    forall fld | fld != MiddleName ensures Get(f.(middleName := m), fld) == Get(f, fld) {
    }
    forall fld | fld != PartyName ensures Get(f.(partyName := p), fld) == Get(f, fld) {
    }
  }

  /** The freshly opened form does not validate. */
  lemma InitialFormInvalid()
    ensures !Complete(InitialForm)
  {
    assert !Filled(FirstName, Get(InitialForm, FirstName));
  }

  /** `getTodayDate()` for a clock reading: the year as `String` prints it,
      then the 1-based month and the day, each left-padded with "0" to two
      characters, joined by "-". */
  function TodayDate(year: int, monthIndex: nat, day: nat): string {
    IntToString(year) + "-" + PadStart(NatToString(monthIndex + 1), 2, '0')
      + "-" + PadStart(NatToString(day), 2, '0')
  }

  lemma SmallDecimal(n: nat)
    requires n < 100
    ensures |NatToString(n)| <= 2
  {
  }

  /** A two-digit field reads back as the number it was printed from. */
  lemma TwoDigits(n: nat)
    requires n < 100
    ensures |PadStart(NatToString(n), 2, '0')| == 2
    ensures AllDigits(PadStart(NatToString(n), 2, '0'))
    ensures ParseDigits(PadStart(NatToString(n), 2, '0')) == n
  {
    var s := NatToString(n);
    SmallDecimal(n);
    DecimalRoundTrip(n);
    if |s| < 2 {
      ParseZeroPadded(2 - |s|, s);
    }
  }

  /** The date has the form YYYY-MM-DD: the year's text (which reads back as
      the year), a dash, two digits that read back as the 1-based month, a
      dash, two digits that read back as the day. */
  lemma TodayDateFormat(year: int, monthIndex: nat, day: nat)
    requires monthIndex < 12 && 1 <= day <= 31
    ensures var r := TodayDate(year, monthIndex, day); var n := |r|;
      && n == |IntToString(year)| + 6
      && r[..n - 6] == IntToString(year)
      && (year >= 0 ==> AllDigits(r[..n - 6]) && ParseDigits(r[..n - 6]) == year)
      && r[n - 6] == '-' && r[n - 3] == '-'
      && AllDigits(r[n - 5..n - 3]) && ParseDigits(r[n - 5..n - 3]) == monthIndex + 1
      && AllDigits(r[n - 2..]) && ParseDigits(r[n - 2..]) == day
  {
    var y, mm, dd := IntToString(year), PadStart(NatToString(monthIndex + 1), 2, '0'),
                     PadStart(NatToString(day), 2, '0');
    TwoDigits(monthIndex + 1);
    TwoDigits(day);
    IntToStringReadsBack(year);
    assert TodayDate(year, monthIndex, day) == y + "-" + mm + "-" + dd;
    DashJoin(y, mm, dd);
  }

  /** The parts of `y-mm-dd` for two-character `mm` and `dd`. */
  lemma DashJoin(y: string, mm: string, dd: string)
    requires |mm| == 2 && |dd| == 2
    ensures var r := y + "-" + mm + "-" + dd; var n := |r|;
      && n == |y| + 6 && r[..n - 6] == y && r[n - 6] == '-' && r[n - 3] == '-'
      && r[n - 5..n - 3] == mm && r[n - 2..] == dd
  {
    var r := y + "-" + mm + "-" + dd;
    var n := |r|;
    assert r[..n - 6] == y;
    assert r[n - 5..n - 3] == mm;
    assert r[n - 2..] == dd;
  }

  /** At most this many lookups are made for one submission. */
  const MaxTries: nat := 10

  /** The code that attempt `t` (counting from 0) generates and looks up: the
      one the draws `8 * t` to `8 * t + 7` after `pos` spell. */
  function Candidate(rng: RandomSource, pos: nat, t: nat): string {
    CodeFrom(rng, pos + DefaultLength * t, DefaultLength)
  }

  /** The candidates of the first `n` attempts. */
  function Candidates(rng: RandomSource, pos: nat, n: nat): (r: seq<string>)
    ensures |r| == n
  {
    if n == 0 then [] else Candidates(rng, pos, n - 1) + [Candidate(rng, pos, n - 1)]
  }

  lemma {:induction false} CandidatesAt(rng: RandomSource, pos: nat, n: nat, t: nat)
    requires t < n
    ensures Candidates(rng, pos, n)[t] == Candidate(rng, pos, t)
  {
    if t < n - 1 {
      CandidatesAt(rng, pos, n - 1, t);
    }
  }

  /** The allocation of one submission: the candidates of the ten attempts,
      looked up in turn. */
  function Allocate(rng: RandomSource, pos: nat, lookup: Lookups): Allocation {
    AllocateFrom(Candidates(rng, pos, MaxTries), lookup, 0)
  }

  /** The allocation loop of `handleSubmit`: a code is generated before the
      loop and after each taken one; each attempt makes one lookup. */
  method AllocateCode(rng: RandomSource, pos: nat, lookup: Lookups) returns (a: Allocation)
    ensures a == Allocate(rng, pos, lookup)
  {
    ghost var codes := Candidates(rng, pos, MaxTries);
    var uniqueCode := GenerateCandidate(rng, pos, 0);
    var tries: nat := 0;
    while tries < MaxTries
      invariant tries <= MaxTries
      invariant uniqueCode == Candidate(rng, pos, tries)
      invariant Allocate(rng, pos, lookup) == Shifted(AllocateFrom(codes, lookup, tries), tries)
    {
      CandidatesAt(rng, pos, MaxTries, tries);
      var reply := Reply(lookup, uniqueCode);
      if reply.QueryError? {
        StepQueryError(codes, lookup, tries);
        return AllocationFailed(NullDataLength, tries + 1);
      }
      if reply.count == 0 {
        StepFree(codes, lookup, tries);
        return Allocated(uniqueCode, tries + 1);
      }
      StepTaken(codes, lookup, tries, tries);
      uniqueCode := GenerateCandidate(rng, pos, tries + 1);
      tries := tries + 1;
    }
    a := AllocationFailed(CodeNotUnique, tries);
  }

  /** `generateUniqueCode(8)` for attempt `t`. */
  method GenerateCandidate(rng: RandomSource, pos: nat, t: nat) returns (code: string)
    ensures code == Candidate(rng, pos, t)
  {
    code := GenerateCode(rng, pos + DefaultLength * t, DefaultLength);
  }

  /** The page's candidates are those of the ten attempts, in order. */
  lemma PageCandidates(rng: RandomSource, pos: nat)
    ensures forall k :: 0 <= k < MaxTries ==> Candidates(rng, pos, MaxTries)[k] == Candidate(rng, pos, k)
  {
    forall k | 0 <= k < MaxTries ensures Candidates(rng, pos, MaxTries)[k] == Candidate(rng, pos, k) {
      CandidatesAt(rng, pos, MaxTries, k);
    }
  }

  /** One allocation of the page makes at most ten lookups, and every
      candidate before the last one looked up was taken. */
  lemma PageAttempts(rng: RandomSource, pos: nat, lookup: Lookups)
    ensures var a := Allocate(rng, pos, lookup);
      && 1 <= a.attempts <= MaxTries
      && forall k :: 0 <= k < a.attempts - 1 ==> Taken(lookup, Candidate(rng, pos, k))
  {
    var codes := Candidates(rng, pos, MaxTries);
    AttemptsBound(codes, lookup, 0);
    EarlierTaken(codes, lookup, 0);
    PageCandidates(rng, pos);
  }

  /** An accepted code is the candidate of the last attempt, and was free. */
  lemma PageAccepted(rng: RandomSource, pos: nat, lookup: Lookups)
    ensures var a := Allocate(rng, pos, lookup);
      a.Allocated? ==>
        && 1 <= a.attempts <= MaxTries
        && a.code == Candidate(rng, pos, a.attempts - 1) && Reply(lookup, a.code) == Rows(0)
  {
    var codes := Candidates(rng, pos, MaxTries);
    var a := AllocateFrom(codes, lookup, 0);
    AttemptsBound(codes, lookup, 0);
    AcceptedIsFree(codes, lookup, 0);
    if a.Allocated? {
      CandidatesAt(rng, pos, MaxTries, a.attempts - 1);
    }
  }

  /** An accepted code is eight symbols of the alphabet. */
  lemma PageCodeWellFormed(rng: RandomSource, pos: nat, lookup: Lookups)
    ensures var a := Allocate(rng, pos, lookup);
      a.Allocated? ==> |a.code| == DefaultLength && Spelled(a.code)
  {
    var a := Allocate(rng, pos, lookup);
    PageAccepted(rng, pos, lookup);
    if a.Allocated? {
      CandidateWellFormed(rng, pos, a.attempts - 1);
    }
  }

  /** "Could not generate unique code" means all ten candidates were taken. */
  lemma PageExhausted(rng: RandomSource, pos: nat, lookup: Lookups)
    ensures var a := Allocate(rng, pos, lookup);
      a.AllocationFailed? && a.message == CodeNotUnique ==>
        a.attempts == MaxTries && forall k :: 0 <= k < MaxTries ==> Taken(lookup, Candidate(rng, pos, k))
  {
    var codes := Candidates(rng, pos, MaxTries);
    AllocationFacts(codes, lookup);
    PageCandidates(rng, pos);
  }

  /** When all ten candidates are taken, the allocation fails with "Could
      not generate unique code" after ten lookups; `Submitted` then inserts
      nothing and shows that message. */
  lemma PageAllTaken(rng: RandomSource, pos: nat, lookup: Lookups)
    requires forall k :: 0 <= k < MaxTries ==> Taken(lookup, Candidate(rng, pos, k))
    ensures Allocate(rng, pos, lookup) == AllocationFailed(CodeNotUnique, MaxTries)
  {
    var codes := Candidates(rng, pos, MaxTries);
    PageCandidates(rng, pos);
    AllTakenFails(codes, lookup, 0);
  }

  /** Every candidate is eight symbols of the alphabet. */
  lemma CandidateWellFormed(rng: RandomSource, pos: nat, t: nat)
    ensures |Candidate(rng, pos, t)| == DefaultLength && Spelled(Candidate(rng, pos, t))
  {
    CodeFromWellFormed(rng, pos + DefaultLength * t, DefaultLength);
  }

  /** The row `handleSubmit` inserts: text fields trimmed, middle name null
      when blank, party name only for a political party, the code that was
      allocated, and `approved = false`. */
  datatype LetterRecord = LetterRecord(
    userId: string,
    firstName: string,
    middleName: Option<string>,
    lastName: string,
    citizenship: string,
    office: string,
    district: string,
    county: string,
    partyType: string,
    partyName: Option<string>,
    homeAddress: string,
    telephoneNumbers: string,
    voterRegistrationNumber: string,
    dateOfBirth: string,
    gender: string,
    occupation: string,
    aspirantName: string,
    aspirantSignature: string,
    applicationReceivedDate: string,
    uniqueCode: string,
    approved: bool,
    submittedAt: int)

  function BuildRecord(f: LetterForm, userId: string, code: string, receivedDate: string, submittedAt: int): LetterRecord {
    LetterRecord(
      userId,
      Trim(f.firstName),
      OrNull(Trim(f.middleName)),
      Trim(f.lastName),
      f.citizenship,
      Trim(f.office),
      Trim(f.district),
      Trim(f.county),
      f.partyType,
      if f.partyType == PoliticalParty then Some(Trim(f.partyName)) else None,
      Trim(f.homeAddress),
      Trim(f.telephoneNumbers),
      Trim(f.voterRegistrationNumber),
      f.dateOfBirth,
      f.gender,
      Trim(f.occupation),
      Trim(f.aspirantName),
      Trim(f.aspirantSignature),
      receivedDate,
      code,
      false,
      submittedAt)
  }

  /** The row built from a form that validated: every required text column is
      non-empty and trimmed, the middle name is null exactly when it was
      blank, the party name is present exactly for a political party (and is
      then filled), the code is the allocated one and the row is not
      approved. */
  lemma RecordOfValidForm(f: LetterForm, userId: string, code: string, receivedDate: string, submittedAt: int)
    requires Complete(f)
    ensures var r := BuildRecord(f, userId, code, receivedDate, submittedAt);
      && r.userId == userId && r.uniqueCode == code && !r.approved
      && Trimmed(r.firstName) && Trimmed(r.lastName) && Trimmed(r.office)
      && Trimmed(r.district) && Trimmed(r.county) && Trimmed(r.homeAddress)
      && Trimmed(r.telephoneNumbers) && Trimmed(r.voterRegistrationNumber)
      && Trimmed(r.occupation) && Trimmed(r.aspirantName) && Trimmed(r.aspirantSignature)
      && r.partyType != "" && r.gender != ""
      && (r.middleName.None? <==> Blank(f.middleName))
      && (r.middleName.Some? ==> Trimmed(r.middleName.value))
      && (r.partyName.Some? <==> f.partyType == PoliticalParty)
      && (r.partyName.Some? ==> Trimmed(r.partyName.value))
  {
    CompleteFields(f);
  }

  /** What completeness says field by field. */
  lemma CompleteFields(f: LetterForm)
    requires Complete(f)
    ensures !Blank(f.firstName) && !Blank(f.lastName) && !Blank(f.office)
    ensures !Blank(f.district) && !Blank(f.county) && !Blank(f.homeAddress)
    ensures !Blank(f.telephoneNumbers) && !Blank(f.voterRegistrationNumber)
    ensures !Blank(f.dateOfBirth) && !Blank(f.occupation)
    ensures !Blank(f.aspirantName) && !Blank(f.aspirantSignature)
    ensures f.partyType != "" && f.gender != ""
    ensures f.partyType == PoliticalParty ==> !Blank(f.partyName)
  {
    assert Filled(FirstName, Get(f, FirstName)) && Filled(LastName, Get(f, LastName));
    assert Filled(Office, Get(f, Office)) && Filled(District, Get(f, District));
    assert Filled(County, Get(f, County)) && Filled(HomeAddress, Get(f, HomeAddress));
    assert Filled(TelephoneNumbers, Get(f, TelephoneNumbers));
    assert Filled(VoterRegistrationNumber, Get(f, VoterRegistrationNumber));
    assert Filled(DateOfBirth, Get(f, DateOfBirth)) && Filled(Occupation, Get(f, Occupation));
    assert Filled(AspirantName, Get(f, AspirantName));
    assert Filled(AspirantSignature, Get(f, AspirantSignature));
    assert Filled(PartyType, Get(f, PartyType)) && Filled(Gender, Get(f, Gender));
    assert f.partyType == PoliticalParty ==> Filled(PartyName, Get(f, PartyName));
  }

  /** `err.message || "An error occurred. Please try again."` */
  function ErrorText(m: string): (r: string)
    ensures r != ""
    ensures m != "" ==> r == m
  {
    OrDefault(m, DefaultError)
  }

  const SubmittedPrefix: string := "Letter of Intent submitted successfully! Your unique code: "
  const SubmittedSuffix: string := ". Wait for admin approval to proceed."
  function SubmittedMessage(code: string): string {
    SubmittedPrefix + code + SubmittedSuffix
  }

  /** A reading of `new Date()`: calendar fields and the instant. */
  datatype Clock = Clock(year: int, monthIndex: nat, day: nat, instant: int)

  /** The page's state: the form, the loading flag, the success message and
      the error message. */
  class LetterOfIntentPage {
    var form: LetterForm
    var loading: bool
    var message: Option<string>
    var error: Option<string>

    constructor ()
      ensures form == InitialForm && !loading && message == None && error == None
    {
      form := InitialForm;
      loading := false;
      message := None;
      error := None;
    }

    /** `validate()`: sets the error to "Please fill in all required fields."
        and answers false when a required field is missing, clears the error
        and answers true otherwise. */
    method Validate() returns (ok: bool)
      modifies this
      ensures ok == Complete(form)
      ensures error == if ok then None else Some(FillRequired)
      ensures form == old(form) && loading == old(loading) && message == old(message)
    {
      MissingIffIncomplete(form);
      if MissingRequired(form) {
        error := Some(FillRequired);
        return false;
      }
      error := None;
      return true;
    }

    /** `handleSubmit`. `user` is what `auth.getUser()` returns, `lookup` and
        `insertError` are the store's replies (to the lookups of codes, and
        the insert's error, if any), `rng` and `pos` are the random draws, `clock` the time.
        `attempts` is the number of lookups made, `inserted` the row handed
        to the store, if one was. */
    method HandleSubmit(user: Option<User>, rng: RandomSource, pos: nat,
                        lookup: Lookups, insertError: Option<string>,
                        clock: Clock)
      returns (attempts: nat, inserted: Option<LetterRecord>)
      modifies this
      // validation fails: only the error changes, nothing is looked up or inserted
      ensures !Complete(old(form)) ==>
        && error == Some(FillRequired) && attempts == 0 && inserted == None
        && form == old(form) && message == old(message) && loading == old(loading)
      ensures Complete(old(form)) ==> !loading
      // no signed-in user: fails before any lookup
      ensures Complete(old(form)) && user.None? ==>
        && error == Some(NotAuthenticated) && attempts == 0 && inserted == None
        && message == None && form == old(form)
      ensures Complete(old(form)) && user.Some? ==>
        Submitted(old(form), user.value, Allocate(rng, pos, lookup), insertError, clock,
                  attempts, inserted, form, message, error)
    {
      attempts, inserted := 0, None;
      var ok := Validate();
      if !ok {
        return;
      }
      loading := true;
      message := None;
      error := None;
      if user.None? {
        error := Some(ErrorText(NotAuthenticated));
        loading := false;
        return;
      }
      attempts, inserted := SubmitAs(user.value, rng, pos, lookup, insertError, clock);
      loading := false;
    }

    /** The rest of `handleSubmit` once a user is signed in: allocate a code,
        insert the row, and report. */
    method SubmitAs(user: User, rng: RandomSource, pos: nat,
                    lookup: Lookups, insertError: Option<string>,
                    clock: Clock)
      returns (attempts: nat, inserted: Option<LetterRecord>)
      modifies this
      ensures loading == old(loading)
      ensures Submitted(old(form), user, Allocate(rng, pos, lookup), insertError, clock,
                        attempts, inserted, form, message, error)
    {
      var f := form;
      var a := AllocateCode(rng, pos, lookup);
      attempts := a.attempts;
      if a.AllocationFailed? {
        inserted := None;
        error := Some(ErrorText(a.message));
        message := None;
        return;
      }
      var r := BuildRecord(f, user.id, a.code,
                           TodayDate(clock.year, clock.monthIndex, clock.day), clock.instant);
      inserted := Some(r);
      if insertError.Some? {
        error := Some(ErrorText(insertError.value));
        message := None;
      } else {
        message := Some(SubmittedMessage(a.code));
        error := None;
        form := InitialForm;
      }
    }
  }

  /** How a submission by a signed-in user ends, given the allocation: a
      failed allocation is reported and nothing is inserted; otherwise the
      row for the allocated code is inserted, and the form is reset with the
      success message, or kept with the store's error. */
  predicate Submitted(f: LetterForm, user: User, a: Allocation, insertError: Option<string>,
                      clock: Clock, attempts: nat, inserted: Option<LetterRecord>,
                      form: LetterForm, message: Option<string>, error: Option<string>)
  {
    && attempts == a.attempts
    && (a.AllocationFailed? ==>
          inserted == None && error == Some(ErrorText(a.message)) && message == None && form == f)
    && (a.Allocated? ==>
          var r := BuildRecord(f, user.id, a.code,
                               TodayDate(clock.year, clock.monthIndex, clock.day), clock.instant);
          && inserted == Some(r)
          && (insertError.None? ==>
                form == InitialForm && error == None && message == Some(SubmittedMessage(a.code)))
          && (insertError.Some? ==>
                form == f && message == None && error == Some(ErrorText(insertError.value))))
  }
}
