/**
 * The early-access form (src/components/landing/EarlyAccessForm.tsx): schema
 * validation, the `isSubmitting` / `isSubmitted` flags around one POST to
 * `/api/submit-early-user`, the reset after success and "Add another user".
 *
 * `onSubmit` is asynchronous; the model splits it at its `await`s: `Submit`
 * is the part that runs when the form is submitted (up to the request being
 * issued), `Complete` the part that runs once the request has settled and,
 * for an ok response, the following 1000 ms pause has elapsed. The outcome
 * of the request is an input. The email check of the schema is a
 * predicate given to the form.
 */
module EarlyAccess {

  datatype EarlyUserData = EarlyUserData(first_name: string, last_name: string, email: string)

  /** `defaultValues`, also what `form.reset()` restores. */
  const DefaultValues := EarlyUserData("", "", "")

  const Endpoint := "/api/submit-early-user"
  const FailureAlert := "Something went wrong. Try again."

  /** A request issued by `fetch`: method, URL, content type and the JSON-encoded form data. */
  datatype FetchRequest = FetchRequest(verb: string, url: string, contentType: string, body: EarlyUserData)

  /** How an awaited `fetch` settles: a response with its `ok` flag, or a rejection. */
  datatype FetchResult = Response(ok: bool) | NetworkError

  /** What the submit button shows. */
  datatype SubmitButton = Spinner | JoinWaitlist

  /** `formSchema`: the names are optional strings, the email must pass the email check. */
  function SchemaAccepts(data: EarlyUserData, isEmail: string -> bool): (ok: bool)
    ensures ok <==> isEmail(data.email)
  {
    isEmail(data.email)
  }

  /** Only the email decides validation: the names may be anything, including empty. */
  lemma OnlyEmailIsChecked(data: EarlyUserData, first: string, last: string, isEmail: string -> bool)
    ensures SchemaAccepts(data, isEmail) == SchemaAccepts(data.(first_name := first, last_name := last), isEmail)
    ensures SchemaAccepts(data, isEmail) <==> isEmail(data.email)
  {
  }

  class EarlyAccessForm {
    const isEmail: string -> bool
    var isSubmitting: bool
    var isSubmitted: bool
    var values: EarlyUserData
    /** Every request `fetch` has issued, in order. */
    var requests: seq<FetchRequest>
    /** Every `alert` shown, in order. */
    var alerts: seq<string>

    /** The flags never both hold, and a submission in progress has issued its request. */
    ghost predicate Valid()
      reads this
    {
      !(isSubmitting && isSubmitted) && (isSubmitting ==> requests != [])
    }

    constructor (isEmail: string -> bool)
      ensures Valid()
      ensures this.isEmail == isEmail
      ensures !isSubmitting && !isSubmitted
      ensures values == DefaultValues && requests == [] && alerts == []
    {
      this.isEmail := isEmail;
      isSubmitting, isSubmitted := false, false;
      values := DefaultValues;
      requests, alerts := [], [];
    }

    /** The button is disabled exactly while a submission is in progress. */
    predicate SubmitDisabled()
      reads this
    {
      isSubmitting
    }

    function Button(): (b: SubmitButton)
      reads this
      ensures b == Spinner <==> SubmitDisabled()
    {
      if isSubmitting then Spinner else JoinWaitlist
    }

    /** The form is shown (not the confirmation) and its button is enabled. */
    predicate CanSubmit()
      reads this
    {
      !isSubmitted && !SubmitDisabled()
    }

    /** Typing into the fields; only possible while the form, not the confirmation, is shown. */
    method Edit(v: EarlyUserData)
      requires Valid()
      modifies this
      ensures Valid()
      ensures values == (if old(isSubmitted) then old(values) else v)
      ensures isSubmitting == old(isSubmitting) && isSubmitted == old(isSubmitted)
      ensures requests == old(requests) && alerts == old(alerts)
    {
      if !isSubmitted {
        values := v;
      }
    }

    /**
     * Submitting the form: `handleSubmit` validates, and only valid data reaches
     * `onSubmit`, which sets `isSubmitting` and then issues exactly one POST
     * carrying the form data.
     */
    method Submit()
      requires Valid()
      modifies this
      ensures Valid()
      ensures values == old(values) && isSubmitted == old(isSubmitted) && alerts == old(alerts)
      ensures old(CanSubmit()) && SchemaAccepts(values, isEmail) ==>
                isSubmitting
                && requests == old(requests) + [FetchRequest("POST", Endpoint, "application/json", values)]
      ensures !(old(CanSubmit()) && SchemaAccepts(values, isEmail)) ==>
                isSubmitting == old(isSubmitting) && requests == old(requests)
    {
      if CanSubmit() && SchemaAccepts(values, isEmail) {
        isSubmitting := true;
        requests := requests + [FetchRequest("POST", Endpoint, "application/json", values)];
      }
    }

    /**
     * The in-flight request settles. An ok response ends submitted, with the
     * fields reset; a non-ok response or a rejection alerts and ends idle with
     * the fields kept.
     */
    method Complete(result: FetchResult)
      requires Valid() && isSubmitting
      modifies this
      ensures Valid()
      ensures !isSubmitting
      ensures requests == old(requests)
      ensures result == Response(true) ==>
                isSubmitted && values == DefaultValues && alerts == old(alerts)
      ensures result != Response(true) ==>
                !isSubmitted && values == old(values) && alerts == old(alerts) + [FailureAlert]
    {
      if result == Response(true) {
        isSubmitting := false;
        isSubmitted := true;
        values := DefaultValues;
      } else {
        alerts := alerts + [FailureAlert];
        isSubmitting := false;
      }
    }

    /** "Add another user": back to the form. */
    method AddAnother()
      requires Valid()
      modifies this
      ensures Valid()
      ensures !isSubmitted
      ensures isSubmitting == old(isSubmitting) && values == old(values)
      ensures requests == old(requests) && alerts == old(alerts)
    {
      isSubmitted := false;
    }
  }

  /**
   * An address the email check rejects never leaves the browser: a submit
   * issues no request and leaves the form idle.
   */
  method InvalidEmailSendsNothing(isEmail: string -> bool, typed: EarlyUserData) returns (sent: nat)
    requires !isEmail(typed.email)
    ensures sent == 0
  {
    var form := new EarlyAccessForm(isEmail);
    form.Edit(typed);
    form.Submit();
    sent := |form.requests|;
  }

  /** A valid address goes out in exactly one POST, and a successful reply leaves the form reset and submitted. */
  method ValidEmailSendsOnce(isEmail: string -> bool, typed: EarlyUserData) returns (sent: nat, submitted: bool, reset: bool)
    requires isEmail(typed.email)
    ensures sent == 1 && submitted && reset
  {
    var form := new EarlyAccessForm(isEmail);
    form.Edit(typed);
    form.Submit();
    form.Submit();
    sent := |form.requests|;
    form.Complete(Response(true));
    submitted := form.isSubmitted && !form.isSubmitting;
    reset := form.values == DefaultValues;
  }
}
