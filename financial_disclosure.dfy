/** The candidate's financial disclosure: its validation, the asset and
    liability list editors, the row it inserts, and the page state a
    submission updates. */
module FinancialDisclosure {
  import opened Common
  import opened Text

  datatype Asset = Asset(description: string, location: string, marketValue: string)

  datatype Liability = Liability(description: string, amount: string)

  datatype DisclosureForm = DisclosureForm(
    candidateName: string,
    independentParty: string,
    politicalParty: string,
    electionPosition: string,
    assessmentDate: string,
    assets: seq<Asset>,
    liabilities: seq<Liability>,
    otherIncome: string)

  const BlankAsset: Asset := Asset("", "", "")
  const BlankLiability: Liability := Liability("", "")

  /** The form as the page opens: one blank asset and one blank liability. */
  const InitialForm: DisclosureForm :=
    DisclosureForm("", "", "", "", "", [BlankAsset], [BlankLiability], "")

  const FillNameAndPosition: string := "Please fill candidate name and election position."
  const FillAssets: string := "Please complete all asset fields."
  const FillLiabilities: string := "Please complete all liability fields."
  const SubmittedText: string := "\U{2705} Financial disclosure submitted successfully."
  const SubmissionFailed: string := "Submission failed."

  /** An asset with an empty field. The asset fields are not trimmed: a
      field of spaces counts as filled. */
  predicate IncompleteAsset(a: Asset) {
    a.description == "" || a.location == "" || a.marketValue == ""
  }

  /** A liability with an empty field (not trimmed either). */
  predicate IncompleteLiability(l: Liability) {
    l.description == "" || l.amount == ""
  }

  /** The candidate's name and the election position, both trimmed. */
  predicate HeaderOk(f: DisclosureForm) {
    !Blank(f.candidateName) && !Blank(f.electionPosition)
  }

  /** The error `validate()` sets, or `None` when it accepts; the first
      failing check decides the message. */
  function Rejection(f: DisclosureForm): Option<string> {
    if !HeaderOk(f) then Some(FillNameAndPosition)
    else if AnyOf(f.assets, IncompleteAsset) then Some(FillAssets)
    else if AnyOf(f.liabilities, IncompleteLiability) then Some(FillLiabilities)
    else None
  }

  predicate AssetsComplete(xs: seq<Asset>) {
    forall i :: 0 <= i < |xs| ==> !IncompleteAsset(xs[i])
  }

  predicate LiabilitiesComplete(xs: seq<Liability>) {
    forall i :: 0 <= i < |xs| ==> !IncompleteLiability(xs[i])
  }

  /** Which message a rejection carries: the first failing check, every
      earlier one having passed; and validation accepts exactly the forms
      whose every check passes. */
  lemma RejectionCause(f: DisclosureForm)
    ensures Rejection(f) == Some(FillNameAndPosition) <==> !HeaderOk(f)
    ensures Rejection(f) == Some(FillAssets) <==> HeaderOk(f) && !AssetsComplete(f.assets)
    ensures Rejection(f) == Some(FillLiabilities) <==>
      HeaderOk(f) && AssetsComplete(f.assets) && !LiabilitiesComplete(f.liabilities)
    ensures Rejection(f).None? <==>
      HeaderOk(f) && AssetsComplete(f.assets) && LiabilitiesComplete(f.liabilities)
  {
    AnyOfIffExists(f.assets, IncompleteAsset);
    AnyOfIffExists(f.liabilities, IncompleteLiability);
  }

  /** The party fields, the assessment date and the other income are never
      checked; empty asset and liability lists pass. */
  lemma OptionalFields(f: DisclosureForm, ip: string, pp: string, ad: string, oi: string)
    ensures Rejection(f.(independentParty := ip, politicalParty := pp, assessmentDate := ad,
                          otherIncome := oi)) == Rejection(f)
    ensures HeaderOk(f) ==> Rejection(f.(assets := [], liabilities := [])).None?
  {
  }

  /** An asset whose fields are only spaces passes validation, since the
      asset fields are not trimmed. */
  lemma SpacesCountAsFilled(f: DisclosureForm)
    requires HeaderOk(f)
    ensures Rejection(f.(assets := [Asset(" ", " ", " ")], liabilities := [])).None?
  {
    RejectionCause(f.(assets := [Asset(" ", " ", " ")], liabilities := []));
  }

  /** The freshly opened form does not validate. */
  lemma InitialFormRejected()
    ensures Rejection(InitialForm) == Some(FillNameAndPosition)
  {
  }

  /** `addAsset`: one blank asset at the end. */
  function AddAsset(f: DisclosureForm): (r: DisclosureForm)
    ensures |r.assets| == |f.assets| + 1
    ensures r.assets[..|f.assets|] == f.assets && r.assets[|f.assets|] == BlankAsset
    ensures r.(assets := f.assets) == f
  {
    f.(assets := f.assets + [BlankAsset])
  }

  /** `removeAsset(i)`: exactly asset `i` goes, the others keep their order;
      an index outside the list changes nothing. */
  function RemoveAsset(f: DisclosureForm, i: int): (r: DisclosureForm)
    ensures !(0 <= i < |f.assets|) ==> r == f
    ensures 0 <= i < |f.assets| ==>
      && |r.assets| == |f.assets| - 1
      && (forall j :: 0 <= j < i ==> r.assets[j] == f.assets[j])
      && (forall j :: i <= j < |r.assets| ==> r.assets[j] == f.assets[j + 1])
    ensures r.(assets := f.assets) == f
  {
    f.(assets := RemoveAt(f.assets, i))
  }

  /** `addLiability`: one blank liability at the end. */
  function AddLiability(f: DisclosureForm): (r: DisclosureForm)
    ensures |r.liabilities| == |f.liabilities| + 1
    ensures r.liabilities[..|f.liabilities|] == f.liabilities
    ensures r.liabilities[|f.liabilities|] == BlankLiability
    ensures r.(liabilities := f.liabilities) == f
  {
    f.(liabilities := f.liabilities + [BlankLiability])
  }

  /** `removeLiability(i)`: exactly liability `i` goes, the others keep their
      order; an index outside the list changes nothing. */
  function RemoveLiability(f: DisclosureForm, i: int): (r: DisclosureForm)
    ensures !(0 <= i < |f.liabilities|) ==> r == f
    ensures 0 <= i < |f.liabilities| ==>
      && |r.liabilities| == |f.liabilities| - 1
      && (forall j :: 0 <= j < i ==> r.liabilities[j] == f.liabilities[j])
      && (forall j :: i <= j < |r.liabilities| ==> r.liabilities[j] == f.liabilities[j + 1])
    ensures r.(liabilities := f.liabilities) == f
  {
    f.(liabilities := RemoveAt(f.liabilities, i))
  }

  /** Removing the entry just added gives the form back. */
  lemma AddThenRemove(f: DisclosureForm)
    ensures RemoveAsset(AddAsset(f), |f.assets|) == f
    ensures RemoveLiability(AddLiability(f), |f.liabilities|) == f
  {
    RemoveAppended(f.assets, BlankAsset);
    RemoveAppended(f.liabilities, BlankLiability);
  }

  /** A freshly added asset is blank, so a form with a complete header is
      then asked to complete the asset fields. */
  lemma AddedAssetRejected(f: DisclosureForm)
    requires HeaderOk(f)
    ensures Rejection(AddAsset(f)) == Some(FillAssets)
  {
    var g := AddAsset(f);
    assert IncompleteAsset(g.assets[|f.assets|]);
    RejectionCause(g);
  }

  /** Removing an entry never turns an accepted form into a rejected one. */
  lemma RemoveKeepsAccepted(f: DisclosureForm, i: int)
    requires Rejection(f).None?
    ensures Rejection(RemoveAsset(f, i)).None?
    ensures Rejection(RemoveLiability(f, i)).None?
  {
    var g := RemoveAsset(f, i);
    var h := RemoveLiability(f, i);
    RejectionCause(f);
    RejectionCause(g);
    RejectionCause(h);
    if 0 <= i < |f.assets| {
      forall j | 0 <= j < |g.assets| ensures !IncompleteAsset(g.assets[j]) {
        if j < i { assert g.assets[j] == f.assets[j]; } else { assert g.assets[j] == f.assets[j + 1]; }
      }
    }
    if 0 <= i < |f.liabilities| {
      forall j | 0 <= j < |h.liabilities| ensures !IncompleteLiability(h.liabilities[j]) {
        if j < i {
          assert h.liabilities[j] == f.liabilities[j];
        } else {
          assert h.liabilities[j] == f.liabilities[j + 1];
        }
      }
    }
  }

  /** The property of an asset that `handleArrayChange("assets", ...)` sets. */
  datatype AssetField = AssetDescription | Location | MarketValue

  function GetAsset(a: Asset, fld: AssetField): string {
    match fld
    case AssetDescription => a.description
    case Location => a.location
    case MarketValue => a.marketValue
  }

  function SetAsset(a: Asset, fld: AssetField, v: string): (r: Asset)
    ensures forall g :: GetAsset(r, g) == if g == fld then v else GetAsset(a, g)
  {
    match fld
    case AssetDescription => a.(description := v)
    case Location => a.(location := v)
    case MarketValue => a.(marketValue := v)
  }

  /** The property of a liability that `handleArrayChange("liabilities", ...)`
      sets. */
  datatype LiabilityField = LiabilityDescription | Amount

  function GetLiability(l: Liability, fld: LiabilityField): string {
    match fld
    case LiabilityDescription => l.description
    case Amount => l.amount
  }

  function SetLiability(l: Liability, fld: LiabilityField, v: string): (r: Liability)
    ensures forall g :: GetLiability(r, g) == if g == fld then v else GetLiability(l, g)
  {
    match fld
    case LiabilityDescription => l.(description := v)
    case Amount => l.(amount := v)
  }

  /** The row the page inserts. Unlike the questionnaire's, no field is
      trimmed (the name is stored as typed); the parties, the assessment
      date and the other income are null when empty. */
  datatype DisclosureRecord = DisclosureRecord(
    userId: string,
    candidateName: string,
    independentParty: Option<string>,
    politicalParty: Option<string>,
    electionPosition: string,
    assessmentDate: Option<string>,
    assets: seq<Asset>,
    liabilities: seq<Liability>,
    otherIncome: Option<string>)

  function BuildRecord(userId: string, f: DisclosureForm): DisclosureRecord {
    DisclosureRecord(
      userId, f.candidateName, OrNull(f.independentParty), OrNull(f.politicalParty),
      f.electionPosition, OrNull(f.assessmentDate), f.assets, f.liabilities,
      OrNull(f.otherIncome))
  }

  /** The row of an accepted form: name and position are stored as typed and
      are not blank, every stored asset and liability is complete, and each
      optional field is null exactly when it was left empty and otherwise
      holds what was typed. */
  lemma RecordOfAcceptedForm(userId: string, f: DisclosureForm)
    requires Rejection(f).None?
    ensures var r := BuildRecord(userId, f);
      && r.userId == userId
      && r.candidateName == f.candidateName && !Blank(r.candidateName)
      && r.electionPosition == f.electionPosition && !Blank(r.electionPosition)
      && AssetsComplete(r.assets) && LiabilitiesComplete(r.liabilities)
      && (r.independentParty.None? <==> f.independentParty == "")
      && (r.independentParty.Some? ==> r.independentParty.value == f.independentParty)
      && (r.politicalParty.None? <==> f.politicalParty == "")
      && (r.politicalParty.Some? ==> r.politicalParty.value == f.politicalParty)
      && (r.assessmentDate.None? <==> f.assessmentDate == "")
      && (r.otherIncome.None? <==> f.otherIncome == "")
  {
    RejectionCause(f);
  }

  /** The page's state; `userId` is the id its parent passes in. */
  class DisclosurePage {
    const userId: string
    var form: DisclosureForm
    var loading: bool
    var error: Option<string>
    var message: Option<string>
    var showDeclarationForm: bool

    constructor (id: string)
      ensures userId == id && form == InitialForm && !loading
      ensures error == None && message == None && !showDeclarationForm
    {
      userId := id;
      form := InitialForm;
      loading := false;
      error := None;
      message := None;
      showDeclarationForm := false;
    }

    /** `validate()`. */
    method Validate() returns (ok: bool)
      modifies this
      ensures error == Rejection(form) && ok == error.None?
      ensures form == old(form) && loading == old(loading) && message == old(message)
      ensures showDeclarationForm == old(showDeclarationForm)
    {
      if Blank(form.candidateName) || Blank(form.electionPosition) {
        error := Some(FillNameAndPosition);
        return false;
      }
      if AnyOf(form.assets, IncompleteAsset) {
        error := Some(FillAssets);
        return false;
      }
      if AnyOf(form.liabilities, IncompleteLiability) {
        error := Some(FillLiabilities);
        return false;
      }
      error := None;
      return true;
    }

    /** `handleArrayChange("assets", index, field, value)`. */
    method HandleAssetChange(index: nat, field: AssetField, value: string)
      requires index < |form.assets|
      modifies this
      ensures form == old(form).(assets := old(form.assets)[index := SetAsset(old(form.assets[index]), field, value)])
      ensures loading == old(loading) && error == old(error) && message == old(message)
      ensures showDeclarationForm == old(showDeclarationForm)
    {
      var updated := CopyAndSet(form.assets, index, SetAsset(form.assets[index], field, value));
      form := form.(assets := updated);
    }

    /** `handleArrayChange("liabilities", index, field, value)`. */
    method HandleLiabilityChange(index: nat, field: LiabilityField, value: string)
      requires index < |form.liabilities|
      modifies this
      ensures form == old(form).(liabilities := old(form.liabilities)[index :=
                SetLiability(old(form.liabilities[index]), field, value)])
      ensures loading == old(loading) && error == old(error) && message == old(message)
      ensures showDeclarationForm == old(showDeclarationForm)
    {
      var updated := CopyAndSet(form.liabilities, index, SetLiability(form.liabilities[index], field, value));
      form := form.(liabilities := updated);
    }

    /** `handleSubmit`. `insertError` is the store's reply to the insert;
        `notified` says whether `onSubmitSuccess` was called. */
    method HandleSubmit(insertError: Option<string>, hasCallback: bool)
      returns (inserted: Option<DisclosureRecord>, notified: bool)
      modifies this
      ensures form == old(form)
      ensures Rejection(old(form)).Some? ==>
        && inserted == None && !notified && error == Rejection(old(form))
        && loading == old(loading) && message == old(message)
        && showDeclarationForm == old(showDeclarationForm)
      ensures Rejection(old(form)).None? ==>
        && !loading && inserted == Some(BuildRecord(userId, old(form)))
        && (insertError.None? ==>
              && message == Some(SubmittedText) && error == None && showDeclarationForm
              && notified == hasCallback)
        && (insertError.Some? ==>
              && message == None && error == Some(OrDefault(insertError.value, SubmissionFailed))
              && showDeclarationForm == old(showDeclarationForm) && !notified)
    {
      inserted, notified := None, false;
      var ok := Validate();
      if !ok {
        return;
      }
      loading := true;
      error := None;
      message := None;
      inserted := Some(BuildRecord(userId, form));
      if insertError.Some? {
        error := Some(OrDefault(insertError.value, SubmissionFailed));
      } else {
        message := Some(SubmittedText);
        showDeclarationForm := true;
        notified := hasCallback;
      }
      loading := false;
    }
  }

  /** An asset edit sets one property of one asset; every other asset and
      property is unchanged. */
  lemma AssetChangeOnly(xs: seq<Asset>, index: nat, field: AssetField, value: string)
    requires index < |xs|
    ensures var ys := xs[index := SetAsset(xs[index], field, value)];
      && |ys| == |xs| && GetAsset(ys[index], field) == value
      && (forall g :: g != field ==> GetAsset(ys[index], g) == GetAsset(xs[index], g))
      && (forall j :: 0 <= j < |ys| && j != index ==> ys[j] == xs[j])
  {
  }

  /** A liability edit sets one property of one liability; every other
      liability and property is unchanged. */
  lemma LiabilityChangeOnly(xs: seq<Liability>, index: nat, field: LiabilityField, value: string)
    requires index < |xs|
    ensures var ys := xs[index := SetLiability(xs[index], field, value)];
      && |ys| == |xs| && GetLiability(ys[index], field) == value
      && (forall g :: g != field ==> GetLiability(ys[index], g) == GetLiability(xs[index], g))
      && (forall j :: 0 <= j < |ys| && j != index ==> ys[j] == xs[j])
  {
  }
}
