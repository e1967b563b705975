/**
 * The business signup form (src/components/landing/BusinessSignupForm.tsx):
 * schema with minimum lengths, all-empty default values, a simulated
 * submission (a 1500 ms pause, no request) and "Add another business".
 *
 * `onSubmit` is split at its `await`: `Submit` runs when the form is
 * submitted, `DelayElapsed` when the 1500 ms pause is over. The email check
 * of the schema is a predicate given to the form.
 */
module BusinessSignup {

  datatype BusinessData = BusinessData(
    businessName: string,
    email: string,
    phone: string,
    category: string,
    source: string)

  const DefaultValues := BusinessData("", "", "", "", "")

  /** The categories offered by the select control. */
  const Categories: seq<string> := [
    "Home Services", "Beauty & Wellness", "Professional Services",
    "Events & Entertainment", "Auto Services", "Pet Care",
    "Health & Medical", "Education", "Fitness", "Other"]

  /** `formSchema`: name of at least 2 characters, an email, a category of at least 1; phone and source optional. */
  function SchemaAccepts(data: BusinessData, isEmail: string -> bool): (ok: bool)
    ensures ok ==> data.businessName != "" && data.category != ""
    ensures !isEmail(data.email) ==> !ok
    ensures |data.businessName| < 2 ==> !ok
    ensures data.category == "" ==> !ok
  {
    |data.businessName| >= 2 && isEmail(data.email) && |data.category| >= 1
  }

  /** The all-empty defaults never pass, whatever the email check says. */
  lemma DefaultsRejected(isEmail: string -> bool)
    ensures !SchemaAccepts(DefaultValues, isEmail)
  {
  }

  /** Phone and source play no part in validation. */
  lemma PhoneAndSourceOptional(data: BusinessData, phone: string, source: string, isEmail: string -> bool)
    ensures SchemaAccepts(data, isEmail) == SchemaAccepts(data.(phone := phone, source := source), isEmail)
  {
  }

  /** The schema does not tie the category to the listed ones: any non-empty string is accepted. */
  lemma AnyCategoryAccepted(data: BusinessData, isEmail: string -> bool)
    requires |data.businessName| >= 2 && isEmail(data.email)
    ensures forall c :: c != "" ==> SchemaAccepts(data.(category := c), isEmail)
    ensures SchemaAccepts(data.(category := "Plumbing"), isEmail)
    ensures "Plumbing" !in Categories
  {
  }

  /** What the submit button shows. */
  datatype SubmitButton = Spinner | JoinWaitlist

  class BusinessSignupForm {
    const isEmail: string -> bool
    var isSubmitting: bool
    var isSubmitted: bool
    var values: BusinessData
    /** What `console.log` received: the only place the submitted data goes. */
    var logged: seq<BusinessData>

    ghost predicate Valid()
      reads this
    {
      !(isSubmitting && isSubmitted)
    }

    constructor (isEmail: string -> bool)
      ensures Valid()
      ensures this.isEmail == isEmail
      ensures !isSubmitting && !isSubmitted
      ensures values == DefaultValues && logged == []
    {
      this.isEmail := isEmail;
      isSubmitting, isSubmitted := false, false;
      values := DefaultValues;
      logged := [];
    }

    predicate SubmitDisabled()
      reads this
    {
      isSubmitting
    }

    function Button(): (b: SubmitButton)
      reads this
      ensures b == Spinner <==> SubmitDisabled()
    {
      if isSubmitting then Spinner else JoinWaitlist
    }

    predicate CanSubmit()
      reads this
    {
      !isSubmitted && !SubmitDisabled()
    }

    /** Editing the fields while the form is shown. */
    method Edit(v: BusinessData)
      requires Valid()
      modifies this
      ensures Valid()
      ensures values == (if old(isSubmitted) then old(values) else v)
      ensures isSubmitting == old(isSubmitting) && isSubmitted == old(isSubmitted) && logged == old(logged)
    {
      if !isSubmitted {
        values := v;
      }
    }

    /** Submitting: valid data sets `isSubmitting` and is logged; nothing is sent anywhere. */
    method Submit()
      requires Valid()
      modifies this
      ensures Valid()
      ensures values == old(values) && isSubmitted == old(isSubmitted)
      ensures old(CanSubmit()) && SchemaAccepts(values, isEmail) ==>
                isSubmitting && logged == old(logged) + [values]
      ensures !(old(CanSubmit()) && SchemaAccepts(values, isEmail)) ==>
                isSubmitting == old(isSubmitting) && logged == old(logged)
    {
      if CanSubmit() && SchemaAccepts(values, isEmail) {
        isSubmitting := true;
        logged := logged + [values];
      }
    }

    /** The simulated 1500 ms pause ends: always a success, and the fields are kept. */
    method DelayElapsed()
      requires Valid() && isSubmitting
      modifies this
      ensures Valid()
      ensures !isSubmitting && isSubmitted
      ensures values == old(values) && logged == old(logged)
    {
      isSubmitting := false;
      isSubmitted := true;
    }

    /** "Add another business": only `isSubmitted` changes. */
    method AddAnother()
      requires Valid()
      modifies this
      ensures Valid()
      ensures !isSubmitted
      ensures isSubmitting == old(isSubmitting) && values == old(values) && logged == old(logged)
    {
      isSubmitted := false;
    }
  }

  /** Unlike the early-access form, after a successful submit the fields still hold what was typed. */
  method SubmitKeepsFields(isEmail: string -> bool, typed: BusinessData) returns (submitted: bool, kept: bool)
    requires SchemaAccepts(typed, isEmail)
    ensures submitted && kept
  {
    var form := new BusinessSignupForm(isEmail);
    form.Edit(typed);
    form.Submit();
    form.DelayElapsed();
    submitted := form.isSubmitted;
    kept := form.values == typed;
  }
}
