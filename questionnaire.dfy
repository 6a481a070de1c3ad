/** The aspirant questionnaire: its ordered validation, the editors of the
    previous-address and government-position lists, the row it inserts, and
    the page state a submission updates. */
module Questionnaire {
  import opened Common
  import opened Text

  /** `currentAddressDuration`. */
  datatype Duration = Duration(years: string, months: string, days: string, startDate: string, endDate: string)

  /** `lastTravel`. */
  datatype Travel = Travel(
    monthYear: string, countriesVisited: string,
    durationWeeks: string, durationMonths: string, durationYears: string)

  /** One entry of `previousAddresses`. */
  datatype AddressEntry = AddressEntry(address: string, startDate: string, endDate: string)

  /** One entry of `govtPositions`. */
  datatype PositionEntry = PositionEntry(position: string, startDate: string, endDate: string)

  datatype QuestionnaireForm = QuestionnaireForm(
    currentAddress: string,
    currentAddressDuration: Duration,
    previousAddresses: seq<AddressEntry>,
    lastTravel: Travel,
    govtPositions: seq<PositionEntry>,
    resignedPositions: bool,
    resignationDetails: string,
    solemnOathName: string,
    solemnOathSignature: string,
    solemnOathDate: string,
    solemnOathPlace: string)

  const BlankAddress: AddressEntry := AddressEntry("", "", "")
  const BlankPosition: PositionEntry := PositionEntry("", "", "")

  /** The form as the page opens: one blank address and one blank position. */
  const InitialForm: QuestionnaireForm := QuestionnaireForm(
    "", Duration("", "", "", "", ""), [BlankAddress], Travel("", "", "", "", ""),
    [BlankPosition], false, "", "", "", "", "")

  const LoginRequired: string := "You must be logged in to submit this form."
  const FillRequiredDates: string := "Please fill all required fields and dates."
  const FillPreviousAddresses: string := "Please fill all previous addresses."
  const ResignationRequired: string := "Provide resignation details."
  const OathRequired: string := "Please complete the solemn oath section."
  const SubmittedText: string := "\U{2705} Questionnaire submitted successfully."
  const SubmissionFailed: string := "Submission failed."

  /** The current address is filled in, with both of its dates. */
  predicate CurrentAddressOk(f: QuestionnaireForm) {
    !Blank(f.currentAddress) && f.currentAddressDuration.startDate != ""
      && f.currentAddressDuration.endDate != ""
  }

  /** A previous address lacks its text or one of its dates. */
  predicate IncompleteAddress(a: AddressEntry) {
    Blank(a.address) || a.startDate == "" || a.endDate == ""
  }

  /** Resignation details are needed only when positions were resigned. */
  predicate ResignationOk(f: QuestionnaireForm) {
    !f.resignedPositions || !Blank(f.resignationDetails)
  }

  /** The four fields of the solemn oath: name, signature and place are
      trimmed, the date is only checked for being set. */
  predicate OathOk(f: QuestionnaireForm) {
    !Blank(f.solemnOathName) && !Blank(f.solemnOathSignature)
      && f.solemnOathDate != "" && !Blank(f.solemnOathPlace)
  }

  /** The error `validate()` sets, or `None` when it accepts: the checks run
      in order and the first one that fails decides the message. */
  function Rejection(user: Option<User>, f: QuestionnaireForm): Option<string> {
    if user.None? then Some(LoginRequired)
    else if !CurrentAddressOk(f) then Some(FillRequiredDates)
    else if AnyOf(f.previousAddresses, IncompleteAddress) then Some(FillPreviousAddresses)
    else if !ResignationOk(f) then Some(ResignationRequired)
    else if !OathOk(f) then Some(OathRequired)
    else None
  }

  /** Every previous address is complete. */
  predicate AddressesComplete(xs: seq<AddressEntry>) {
    forall i :: 0 <= i < |xs| ==> !IncompleteAddress(xs[i])
  }

  /** Validation accepts exactly the forms of a signed-in user whose every
      section is complete. */
  lemma AcceptedIffComplete(user: Option<User>, f: QuestionnaireForm)
    ensures Rejection(user, f).None? <==>
      user.Some? && CurrentAddressOk(f) && AddressesComplete(f.previousAddresses)
      && ResignationOk(f) && OathOk(f)
  {
    AnyOfIffExists(f.previousAddresses, IncompleteAddress);
  }

  /** Which message a rejection carries: the first failing check, every
      earlier one having passed. Without a user no field is looked at. */
  lemma RejectionCause(user: Option<User>, f: QuestionnaireForm)
    ensures Rejection(user, f) == Some(LoginRequired) <==> user.None?
    ensures Rejection(user, f) == Some(FillRequiredDates) <==> user.Some? && !CurrentAddressOk(f)
    ensures Rejection(user, f) == Some(FillPreviousAddresses) <==>
      user.Some? && CurrentAddressOk(f) && !AddressesComplete(f.previousAddresses)
    ensures Rejection(user, f) == Some(ResignationRequired) <==>
      user.Some? && CurrentAddressOk(f) && AddressesComplete(f.previousAddresses) && !ResignationOk(f)
    ensures Rejection(user, f) == Some(OathRequired) <==>
      user.Some? && CurrentAddressOk(f) && AddressesComplete(f.previousAddresses)
      && ResignationOk(f) && !OathOk(f)
  {
    AnyOfIffExists(f.previousAddresses, IncompleteAddress);
  }

  /** Resignation details are irrelevant unless positions were resigned, and
      the government positions are never validated. */
  lemma IgnoredFields(user: Option<User>, f: QuestionnaireForm, d: string, ps: seq<PositionEntry>)
    ensures !f.resignedPositions ==> Rejection(user, f.(resignationDetails := d)) == Rejection(user, f)
    ensures Rejection(user, f.(govtPositions := ps)) == Rejection(user, f)
  {
  }

  /** The freshly opened form does not validate. */
  lemma InitialFormRejected(u: User)
    ensures Rejection(Some(u), InitialForm) == Some(FillRequiredDates)
  {
  }

  /** `addPreviousAddress`: one blank entry at the end. */
  function AddPreviousAddress(f: QuestionnaireForm): (r: QuestionnaireForm)
    ensures |r.previousAddresses| == |f.previousAddresses| + 1
    ensures r.previousAddresses[..|f.previousAddresses|] == f.previousAddresses
    ensures r.previousAddresses[|f.previousAddresses|] == BlankAddress
    ensures r.(previousAddresses := f.previousAddresses) == f
  {
    f.(previousAddresses := f.previousAddresses + [BlankAddress])
  }

  /** `removePreviousAddress(i)`: exactly entry `i` goes, the others keep
      their order; an index outside the list changes nothing. */
  function RemovePreviousAddress(f: QuestionnaireForm, i: int): (r: QuestionnaireForm)
    ensures !(0 <= i < |f.previousAddresses|) ==> r == f
    ensures 0 <= i < |f.previousAddresses| ==>
      && |r.previousAddresses| == |f.previousAddresses| - 1
      && (forall j :: 0 <= j < i ==> r.previousAddresses[j] == f.previousAddresses[j])
      && (forall j :: i <= j < |r.previousAddresses| ==> r.previousAddresses[j] == f.previousAddresses[j + 1])
    ensures r.(previousAddresses := f.previousAddresses) == f
  {
    f.(previousAddresses := RemoveAt(f.previousAddresses, i))
  }

  /** `addGovtPosition`: one blank entry at the end. */
  function AddGovtPosition(f: QuestionnaireForm): (r: QuestionnaireForm)
    ensures |r.govtPositions| == |f.govtPositions| + 1
    ensures r.govtPositions[..|f.govtPositions|] == f.govtPositions
    ensures r.govtPositions[|f.govtPositions|] == BlankPosition
    ensures r.(govtPositions := f.govtPositions) == f
  {
    f.(govtPositions := f.govtPositions + [BlankPosition])
  }

  /** `removeGovtPosition(i)`: exactly entry `i` goes, the others keep their
      order; an index outside the list changes nothing. */
  function RemoveGovtPosition(f: QuestionnaireForm, i: int): (r: QuestionnaireForm)
    ensures !(0 <= i < |f.govtPositions|) ==> r == f
    ensures 0 <= i < |f.govtPositions| ==>
      && |r.govtPositions| == |f.govtPositions| - 1
      && (forall j :: 0 <= j < i ==> r.govtPositions[j] == f.govtPositions[j])
      && (forall j :: i <= j < |r.govtPositions| ==> r.govtPositions[j] == f.govtPositions[j + 1])
    ensures r.(govtPositions := f.govtPositions) == f
  {
    f.(govtPositions := RemoveAt(f.govtPositions, i))
  }

  /** Removing the entry just added gives the form back. */
  lemma AddThenRemove(f: QuestionnaireForm)
    ensures RemovePreviousAddress(AddPreviousAddress(f), |f.previousAddresses|) == f
    ensures RemoveGovtPosition(AddGovtPosition(f), |f.govtPositions|) == f
  {
    RemoveAppended(f.previousAddresses, BlankAddress);
    RemoveAppended(f.govtPositions, BlankPosition);
  }

  /** A freshly added address is blank, so a signed-in user whose current
      address is complete is then asked to fill the previous addresses. */
  lemma AddedAddressRejected(u: User, f: QuestionnaireForm)
    requires CurrentAddressOk(f)
    ensures Rejection(Some(u), AddPreviousAddress(f)) == Some(FillPreviousAddresses)
  {
    var g := AddPreviousAddress(f);
    assert IncompleteAddress(g.previousAddresses[|f.previousAddresses|]);
    RejectionCause(Some(u), g);
  }

  /** Removing a previous address never turns an accepted form into a
      rejected one. */
  lemma RemoveKeepsAccepted(user: Option<User>, f: QuestionnaireForm, i: int)
    requires Rejection(user, f).None?
    ensures Rejection(user, RemovePreviousAddress(f, i)).None?
  {
    var g := RemovePreviousAddress(f, i);
    AcceptedIffComplete(user, f);
    AcceptedIffComplete(user, g);
    if 0 <= i < |f.previousAddresses| {
      forall j | 0 <= j < |g.previousAddresses| ensures !IncompleteAddress(g.previousAddresses[j]) {
        if j < i {
          assert g.previousAddresses[j] == f.previousAddresses[j];
        } else {
          assert g.previousAddresses[j] == f.previousAddresses[j + 1];
        }
      }
    }
  }

  /** The property of an entry that `handleArrayChange` sets: `address` (for
      an address) or `position` (for a position), `startDate`, `endDate`. */
  datatype EntryField = Label | StartDate | EndDate

  function GetAddress(e: AddressEntry, fld: EntryField): string {
    match fld
    case Label => e.address
    case StartDate => e.startDate
    case EndDate => e.endDate
  }

  function SetAddress(e: AddressEntry, fld: EntryField, v: string): (r: AddressEntry)
    ensures forall g :: GetAddress(r, g) == if g == fld then v else GetAddress(e, g)
  {
    match fld
    case Label => e.(address := v)
    case StartDate => e.(startDate := v)
    case EndDate => e.(endDate := v)
  }

  function GetPosition(e: PositionEntry, fld: EntryField): string {
    match fld
    case Label => e.position
    case StartDate => e.startDate
    case EndDate => e.endDate
  }

  function SetPosition(e: PositionEntry, fld: EntryField, v: string): (r: PositionEntry)
    ensures forall g :: GetPosition(r, g) == if g == fld then v else GetPosition(e, g)
  {
    match fld
    case Label => e.(position := v)
    case StartDate => e.(startDate := v)
    case EndDate => e.(endDate := v)
  }

  /** The row the page inserts: the current address, the travel countries
      and the oath texts trimmed; empty duration fields and blank
      resignation details null; both lists stored as they are. */
  datatype QuestionnaireRecord = QuestionnaireRecord(
    userId: string,
    currentAddress: string,
    durationYears: Option<string>,
    durationMonths: Option<string>,
    durationDays: Option<string>,
    startDate: string,
    endDate: string,
    previousAddresses: seq<AddressEntry>,
    lastTravelMonthYear: string,
    lastTravelCountriesVisited: string,
    lastTravelWeeks: Option<string>,
    lastTravelMonths: Option<string>,
    lastTravelYears: Option<string>,
    govtPositions: seq<PositionEntry>,
    resignedPositions: bool,
    resignationDetails: Option<string>,
    solemnOathName: string,
    solemnOathSignature: string,
    solemnOathDate: string,
    solemnOathPlace: string)

  function BuildRecord(userId: string, f: QuestionnaireForm): QuestionnaireRecord {
    var d := f.currentAddressDuration;
    var t := f.lastTravel;
    QuestionnaireRecord(
      userId, Trim(f.currentAddress),
      OrNull(d.years), OrNull(d.months), OrNull(d.days), d.startDate, d.endDate,
      f.previousAddresses,
      t.monthYear, Trim(t.countriesVisited),
      OrNull(t.durationWeeks), OrNull(t.durationMonths), OrNull(t.durationYears),
      f.govtPositions, f.resignedPositions, OrNull(Trim(f.resignationDetails)),
      Trim(f.solemnOathName), Trim(f.solemnOathSignature), f.solemnOathDate,
      Trim(f.solemnOathPlace))
  }

  /** The row built from an accepted form: the trimmed texts are non-empty
      and trimmed, the dates are set, every stored previous address is
      complete, the resignation details are present exactly when given, and
      each optional duration is null exactly when it was empty. */
  lemma RecordOfAcceptedForm(u: User, f: QuestionnaireForm)
    requires Rejection(Some(u), f).None?
    ensures var r := BuildRecord(u.id, f);
      && r.userId == u.id
      && Trimmed(r.currentAddress) && r.startDate != "" && r.endDate != ""
      && AddressesComplete(r.previousAddresses)
      && Trimmed(r.solemnOathName) && Trimmed(r.solemnOathSignature)
      && Trimmed(r.solemnOathPlace) && r.solemnOathDate != ""
      && (r.resignedPositions ==> r.resignationDetails.Some? && Trimmed(r.resignationDetails.value))
      && (r.resignationDetails.None? <==> Blank(f.resignationDetails))
      && (r.durationYears.None? <==> f.currentAddressDuration.years == "")
      && (r.durationMonths.None? <==> f.currentAddressDuration.months == "")
      && (r.durationDays.None? <==> f.currentAddressDuration.days == "")
      && (r.lastTravelWeeks.None? <==> f.lastTravel.durationWeeks == "")
      && (r.lastTravelMonths.None? <==> f.lastTravel.durationMonths == "")
      && (r.lastTravelYears.None? <==> f.lastTravel.durationYears == "")
  {
    AcceptedIffComplete(Some(u), f);
    TrimNonBlank(f.currentAddress);
    TrimNonBlank(f.solemnOathName);
    TrimNonBlank(f.solemnOathSignature);
    TrimNonBlank(f.solemnOathPlace);
    if f.resignedPositions {
      TrimNonBlank(f.resignationDetails);
    }
  }

  /** The page's state. */
  class QuestionnairePage {
    var user: Option<User>
    var form: QuestionnaireForm
    var loading: bool
    var error: Option<string>
    var message: Option<string>
    var showNextForm: bool

    /** The page as it opens, once `auth.getUser()` answered `u`: without a
        user the login message is shown. */
    constructor (u: Option<User>)
      ensures user == u && form == InitialForm && !loading && message == None && !showNextForm
      ensures error == if u.None? then Some(LoginRequired) else None
    {
      user := u;
      form := InitialForm;
      loading := false;
      message := None;
      showNextForm := false;
      error := if u.None? then Some(LoginRequired) else None;
    }

    /** `validate()`: the checks in order, each failure setting its message. */
    method Validate() returns (ok: bool)
      modifies this
      ensures error == Rejection(user, form) && ok == error.None?
      ensures user == old(user) && form == old(form) && loading == old(loading)
      ensures message == old(message) && showNextForm == old(showNextForm)
    {
      if user.None? {
        error := Some(LoginRequired);
        return false;
      }
      if !CurrentAddressOk(form) {
        error := Some(FillRequiredDates);
        return false;
      }
      if AnyOf(form.previousAddresses, IncompleteAddress) {
        error := Some(FillPreviousAddresses);
        return false;
      }
      if form.resignedPositions && Blank(form.resignationDetails) {
        error := Some(ResignationRequired);
        return false;
      }
      if !OathOk(form) {
        error := Some(OathRequired);
        return false;
      }
      error := None;
      return true;
    }

    /** `handleArrayChange("previousAddresses", index, field, value)`: a copy
        of the list with one property of entry `index` set. */
    method HandleAddressChange(index: nat, field: EntryField, value: string)
      requires index < |form.previousAddresses|
      modifies this
      ensures form == old(form).(previousAddresses := old(form.previousAddresses)[index :=
                SetAddress(old(form.previousAddresses[index]), field, value)])
      ensures user == old(user) && loading == old(loading) && error == old(error)
      ensures message == old(message) && showNextForm == old(showNextForm)
    {
      var updated := CopyAndSet(form.previousAddresses, index,
                                SetAddress(form.previousAddresses[index], field, value));
      form := form.(previousAddresses := updated);
    }

    /** `handleArrayChange("govtPositions", index, field, value)`. */
    method HandlePositionChange(index: nat, field: EntryField, value: string)
      requires index < |form.govtPositions|
      modifies this
      ensures form == old(form).(govtPositions := old(form.govtPositions)[index :=
                SetPosition(old(form.govtPositions[index]), field, value)])
      ensures user == old(user) && loading == old(loading) && error == old(error)
      ensures message == old(message) && showNextForm == old(showNextForm)
    {
      var updated := CopyAndSet(form.govtPositions, index,
                                SetPosition(form.govtPositions[index], field, value));
      form := form.(govtPositions := updated);
    }

    /** `handleSubmit`. `insertError` is the store's reply to the insert;
        `hasCallback` says whether `onSubmitSuccess` was passed, `notified`
        whether it was called. */
    method HandleSubmit(insertError: Option<string>, hasCallback: bool)
      returns (inserted: Option<QuestionnaireRecord>, notified: bool)
      modifies this
      ensures user == old(user) && form == old(form)
      ensures Rejection(old(user), old(form)).Some? ==>
        && inserted == None && !notified && error == Rejection(old(user), old(form))
        && loading == old(loading) && message == old(message) && showNextForm == old(showNextForm)
      ensures Rejection(old(user), old(form)).None? ==>
        && !loading
        && inserted == Some(BuildRecord(old(user).value.id, old(form)))
        && (insertError.None? ==>
              message == Some(SubmittedText) && error == None && showNextForm && notified == hasCallback)
        && (insertError.Some? ==>
              && message == None && error == Some(OrDefault(insertError.value, SubmissionFailed))
              && showNextForm == old(showNextForm) && !notified)
    {
      inserted, notified := None, false;
      var ok := Validate();
      if !ok {
        return;
      }
      loading := true;
      message := None;
      error := None;
      var r := BuildRecord(user.value.id, form);
      inserted := Some(r);
      if insertError.Some? {
        error := Some(OrDefault(insertError.value, SubmissionFailed));
      } else {
        message := Some(SubmittedText);
        showNextForm := true;
        notified := hasCallback;
      }
      loading := false;
    }
  }

  /** An address edit sets one property of one entry; every other entry,
      every other property and every other field of the form is unchanged. */
  lemma AddressChangeOnly(f: QuestionnaireForm, index: nat, field: EntryField, value: string)
    requires index < |f.previousAddresses|
    ensures var xs := f.previousAddresses[index := SetAddress(f.previousAddresses[index], field, value)];
      && |xs| == |f.previousAddresses|
      && GetAddress(xs[index], field) == value
      && (forall g :: g != field ==> GetAddress(xs[index], g) == GetAddress(f.previousAddresses[index], g))
      && (forall j :: 0 <= j < |xs| && j != index ==> xs[j] == f.previousAddresses[j])
  {
  }
}
