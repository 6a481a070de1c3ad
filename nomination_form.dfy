/** The three-step nomination wizard: the step counter, the data the steps
    hand on, and which step each counter value shows. */
module NominationForm {
  import opened Common

  /** What `renderStep` shows. */
  datatype StepView = Checklist | LetterOfIntentStep | PartyDocuments

  /** `renderStep()`: steps 1 to 3 have a view, any other counter none. */
  function StepFor(step: int): (v: Option<StepView>)
    ensures v.Some? <==> 1 <= step <= 3
    ensures v == Some(Checklist) <==> step == 1
    ensures v == Some(LetterOfIntentStep) <==> step == 2
    ensures v == Some(PartyDocuments) <==> step == 3
  {
    if step == 1 then Some(Checklist)
    else if step == 2 then Some(LetterOfIntentStep)
    else if step == 3 then Some(PartyDocuments)
    else None
  }

  /** The callbacks a step's view is given. */
  datatype Action = Next(newData: map<string, string>) | Back | Finish

  /** The checklist gets `onNext`; the letter of intent `onNext` and
      `onBack`; the party documents `onBack` and `onSubmit`. */
  predicate Offers(v: StepView, a: Action) {
    match v
    case Checklist => a.Next?
    case LetterOfIntentStep => a.Next? || a.Back?
    case PartyDocuments => a.Back? || a.Finish?
  }

  /** `{ ...prev, ...newData }`: the new data's keys win, the other keys keep
      their values. */
  function Merge(prev: map<string, string>, newData: map<string, string>): (r: map<string, string>)
    ensures r.Keys == prev.Keys + newData.Keys
    ensures forall k :: k in newData ==> r[k] == newData[k]
    ensures forall k :: k in prev && k !in newData ==> r[k] == prev[k]
  {
    prev + newData
  }

  /** Merging the same data twice is merging it once; merging nothing
      changes nothing. */
  lemma MergeIdempotent(prev: map<string, string>, newData: map<string, string>)
    ensures Merge(Merge(prev, newData), newData) == Merge(prev, newData)
    ensures Merge(prev, map[]) == prev
  {
  }

  /** The step and data after one callback; `Finish` only navigates. */
  function Apply(step: int, data: map<string, string>, a: Action): (int, map<string, string>) {
    match a
    case Next(d) => (step + 1, Merge(data, d))
    case Back => (step - 1, data)
    case Finish => (step, data)
  }

  /** Using only the callbacks the shown view offers, the wizard never
      leaves steps 1 to 3, so it always shows a view. */
  lemma OfferedStaysInRange(step: int, data: map<string, string>, a: Action)
    requires StepFor(step).Some? && Offers(StepFor(step).value, a)
    ensures StepFor(Apply(step, data, a).0).Some?
  {
  }

  /** Going back after going forward returns to the same step, with the
      merged data kept. */
  lemma NextThenBack(step: int, data: map<string, string>, d: map<string, string>)
    ensures var s := Apply(step, data, Next(d));
      Apply(s.0, s.1, Back) == (step, Merge(data, d))
  {
  }

  /** The wizard's state; `route` is where `handleSubmit` navigated. */
  class Wizard {
    var currentStep: int
    var formData: map<string, string>
    var route: Option<string>

    constructor ()
      ensures currentStep == 1 && formData == map[] && route == None
    {
      currentStep := 1;
      formData := map[];
      route := None;
    }

    /** `handleNextStep(newData)`. */
    method HandleNextStep(newData: map<string, string>)
      modifies this
      ensures (currentStep, formData) == Apply(old(currentStep), old(formData), Next(newData))
      ensures route == old(route)
    {
      formData := Merge(formData, newData);
      currentStep := currentStep + 1;
    }

    /** `handlePrevStep()`. */
    method HandlePrevStep()
      modifies this
      ensures (currentStep, formData) == Apply(old(currentStep), old(formData), Back)
      ensures route == old(route)
    {
      currentStep := currentStep - 1;
    }

    /** `handleSubmit(finalData)`: the data is only logged. */
    method HandleSubmit()
      modifies this
      ensures route == Some("/nomination-dashboard")
      ensures currentStep == old(currentStep) && formData == old(formData)
    {
      route := Some("/nomination-dashboard");
    }
  }
}
