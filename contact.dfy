/**
 * The contact page form (src/pages/Contact.tsx:23-53, 147): four text fields
 * and a simulated submission that goes idle -> submitting -> submitted -> idle.
 * The two `setTimeout` callbacks are the steps `FinishSubmission` (1500 ms)
 * and `ClearSuccess` (3000 ms).
 */
module Contact {

  /** The `name` attributes of the four inputs (src/pages/Contact.tsx:82, 97, 113, 135). */
  datatype Field = Name | Email | Subject | Message

  /** The `formData` record (src/pages/Contact.tsx:24-29). */
  datatype FormData = FormData(name: string, email: string, subject: string, message: string)

  const EmptyForm: FormData := FormData("", "", "", "")

  function Get(d: FormData, f: Field): string
  {
    match f
    case Name => d.name
    case Email => d.email
    case Subject => d.subject
    case Message => d.message
  }

  /** `{ ...prev, [name]: value }`: one field replaced, the other three kept. */
  function WithField(d: FormData, f: Field, v: string): (r: FormData)
    ensures Get(r, f) == v
    ensures forall g :: g != f ==> Get(r, g) == Get(d, g)
  {
    match f
    case Name => d.(name := v)
    case Email => d.(email := v)
    case Subject => d.(subject := v)
    case Message => d.(message := v)
  }

  /** Writing a field twice keeps only the second value; writing two different fields commutes. */
  lemma WithFieldLaws(d: FormData, f: Field, g: Field, v: string, w: string)
    ensures WithField(WithField(d, f, v), f, w) == WithField(d, f, w)
    ensures f != g ==> WithField(WithField(d, f, v), g, w) == WithField(WithField(d, g, w), f, v)
    ensures WithField(d, f, Get(d, f)) == d
  {
  }

  /** Every input carries `required`, so the browser submits only when all four are filled. */
  predicate RequiredFilled(d: FormData)
  {
    forall f :: Get(d, f) != ""
  }

  datatype Phase = Idle | Submitting | Submitted

  /** The submit button's `disabled={isSubmitting || isSubmitted}` (src/pages/Contact.tsx:147). */
  predicate SubmitDisabled(isSubmitting: bool, isSubmitted: bool)
  {
    isSubmitting || isSubmitted
  }

  function PhaseOf(isSubmitting: bool, isSubmitted: bool): (p: Phase)
    requires !(isSubmitting && isSubmitted)
    ensures p == Idle <==> !SubmitDisabled(isSubmitting, isSubmitted)
    ensures p == Submitting <==> isSubmitting
    ensures p == Submitted <==> isSubmitted
  {
    if isSubmitting then Submitting else if isSubmitted then Submitted else Idle
  }

  class ContactForm {
    var formData: FormData
    var isSubmitting: bool
    var isSubmitted: bool

    /**
     * The two flags are never both set. The 1500 ms completion timer is
     * pending exactly while `isSubmitting` holds, the 3000 ms reset timer
     * exactly while `isSubmitted` holds.
     */
    ghost predicate Valid()
      reads this
    {
      !(isSubmitting && isSubmitted)
    }

    function Phase(): (p: Phase)
      reads this
      requires Valid()
      ensures p == Idle <==> !ButtonDisabled()
    {
      PhaseOf(isSubmitting, isSubmitted)
    }

    predicate ButtonDisabled()
      reads this
    {
      SubmitDisabled(isSubmitting, isSubmitted)
    }

    constructor ()
      ensures Valid() && Phase() == Idle
      ensures formData == EmptyForm
    {
      formData := EmptyForm;
      isSubmitting := false;
      isSubmitted := false;
    }

    /** `handleChange` (src/pages/Contact.tsx:48-53). Inputs stay editable in every phase. */
    method HandleChange(f: Field, v: string)
      requires Valid()
      modifies this`formData
      ensures Valid()
      ensures Get(formData, f) == v
      ensures forall g :: g != f ==> Get(formData, g) == Get(old(formData), g)
    {
      formData := WithField(formData, f, v);
    }

    /**
     * `handleSubmit` (src/pages/Contact.tsx:33-36). The form only fires it when
     * its submit button is enabled and every required field is filled.
     */
    method HandleSubmit()
      requires Valid() && !ButtonDisabled() && RequiredFilled(formData)
      modifies this`isSubmitting
      ensures Valid()
      ensures isSubmitting && Phase() == Submitting
    {
      isSubmitting := true;
    }

    /** A press of the submit button: `HandleSubmit` when the form lets it through, otherwise nothing. */
    method PressSubmit() returns (fired: bool)
      requires Valid()
      modifies this`isSubmitting
      ensures Valid()
      ensures fired <==> old(!ButtonDisabled() && RequiredFilled(formData))
      ensures fired ==> Phase() == Submitting
      ensures !fired ==> unchanged(this)
    {
      fired := !ButtonDisabled() && RequiredFilled(formData);
      if fired {
        HandleSubmit();
      }
    }

    /** The 1500 ms completion timer (src/pages/Contact.tsx:38-41); nothing is pending outside `Submitting`. */
    method FinishSubmission()
      requires Valid()
      modifies this
      ensures Valid()
      ensures old(Phase()) != Submitting ==> unchanged(this)
      ensures old(Phase()) == Submitting ==> Phase() == Submitted && formData == EmptyForm
    {
      if isSubmitting {
        isSubmitting := false;
        isSubmitted := true;
        formData := EmptyForm;
      }
    }

    /** The 3000 ms success-message timer (src/pages/Contact.tsx:44): clears `isSubmitted` only. */
    method ClearSuccess()
      requires Valid()
      modifies this`isSubmitted
      ensures Valid()
      ensures old(Phase()) != Submitted ==> unchanged(this)
      ensures old(Phase()) == Submitted ==> Phase() == Idle
    {
      if isSubmitted {
        isSubmitted := false;
      }
    }
  }

  /** A whole submission: fill the form, press, wait twice; the form is empty and idle again. */
  method SubmissionRoundTrip(d: FormData)
    requires RequiredFilled(d)
  {
    var form := new ContactForm();
    form.HandleChange(Name, d.name);
    form.HandleChange(Email, d.email);
    form.HandleChange(Subject, d.subject);
    form.HandleChange(Message, d.message);
    assert form.formData == d;
    var fired := form.PressSubmit();
    assert fired && form.Phase() == Submitting;
    var again := form.PressSubmit();
    assert !again;
    form.FinishSubmission();
    assert form.Phase() == Submitted && form.formData == EmptyForm;
    form.ClearSuccess();
    assert form.Phase() == Idle && form.formData == EmptyForm;
  }
}
