/** The registration modal: the form's four fields and the submission
    flags, the effect that runs when the modal opens, the submit handler
    (split at its `await` into a start and a finish step), and what the
    modal renders. */
module Registration {
  import opened Wrappers
  import Text
  import Supabase

  /** Shown when a failed response carries no message. */
  const FallbackError := "Registration failed. Please try again."

  /** The values of the referral select's real options; its placeholder
      option has the value "". */
  const ReferralOptions: set<string> := {"social", "search", "friend", "blog", "other"}

  datatype Field = Name | Email | DateOfBirth | ReferralSource

  /** What the modal renders: nothing, the success panel, or the form with
      its error banner, the email input's read-only flag and the submit
      button's disabled flag. */
  datatype View =
    | Hidden
    | SuccessPanel
    | Form(errorBanner: Option<string>, emailReadOnly: bool, submitDisabled: bool)

  /** The message the modal shows for a failed response. */
  function ErrorMessage(result: Supabase.RegistrationResponse): (message: string)
    ensures message != ""
    ensures result.error.Some? && result.error.value != "" ==> message == result.error.value
    ensures result.error.None? || result.error.value == "" ==> message == FallbackError
  {
    Text.OrElse(result.error, FallbackError)
  }

  class RegistrationModal {
    var name: string
    var email: string
    var dateOfBirth: string
    var referralSource: string
    var isSubmitting: bool
    var isSuccess: bool
    var error: Option<string>

    /** The select only ever holds one of its option values; a shown error
        is never empty; a submission in flight has cleared the error and is
        not in the success view; the success view shows no error. */
    ghost predicate Valid()
      reads this
    {
      && (referralSource == "" || referralSource in ReferralOptions)
      && (error.Some? ==> error.value != "")
      && (isSubmitting ==> !isSuccess && error.None?)
      && (isSuccess ==> error.None?)
    }

    /** The state hooks' initial values. */
    constructor (prefilledEmail: string)
      ensures Valid()
      ensures name == "" && email == prefilledEmail && dateOfBirth == "" && referralSource == ""
      ensures !isSubmitting && !isSuccess && error.None?
    {
      name, email, dateOfBirth, referralSource := "", prefilledEmail, "", "";
      isSubmitting, isSuccess, error := false, false, None;
    }

    /** The effect that runs while the modal is open, when it opens or when
        the prefilled email changes: the email is reseeded and every flag is
        reset; the other fields keep what they held. */
    method Open(prefilledEmail: string)
      requires Valid()
      modifies this
      ensures Valid()
      ensures email == prefilledEmail
      ensures name == old(name) && dateOfBirth == old(dateOfBirth)
      ensures referralSource == old(referralSource)
      ensures !isSubmitting && !isSuccess && error.None?
    {
      email := prefilledEmail;
      isSuccess := false;
      isSubmitting := false;
      error := None;
    }

    /** An input's `onChange`. The email input is read-only while a
        prefilled email is given, so typing there changes nothing; the
        select only offers its option values. */
    method Edit(field: Field, value: string, prefilledEmail: string)
      requires Valid()
      requires field == ReferralSource ==> value == "" || value in ReferralOptions
      modifies this
      ensures Valid()
      ensures isSubmitting == old(isSubmitting) && isSuccess == old(isSuccess) && error == old(error)
      ensures name == (if field == Name then value else old(name))
      ensures email == (if field == Email && prefilledEmail == "" then value else old(email))
      ensures dateOfBirth == (if field == DateOfBirth then value else old(dateOfBirth))
      ensures referralSource == (if field == ReferralSource then value else old(referralSource))
    {
      match field
      case Name => name := value;
      case Email => if prefilledEmail == "" { email := value; }
      case DateOfBirth => dateOfBirth := value;
      case ReferralSource => referralSource := value;
    }

    /** Whether the browser lets the form submit: the form is shown (not the
        success panel), its submit button is enabled, and every `required`
        control is non-empty. */
    predicate CanSubmit(): (ok: bool)
      reads this
      ensures ok <==>
                && Render(true, "").Form? && !Render(true, "").submitDisabled
                && Request().name != "" && Request().email != ""
                && Request().dateOfBirth != "" && Request().referralSource != ""
    {
      && !isSuccess
      && !isSubmitting
      && name != "" && email != "" && dateOfBirth != "" && referralSource != ""
    }

    /** The request the form builds from its fields. */
    function Request(): (data: Supabase.RegistrationData)
      reads this
      ensures data.name == name && data.email == email
      ensures data.dateOfBirth == dateOfBirth && data.referralSource == referralSource
    {
      Supabase.RegistrationData(name, email, dateOfBirth, referralSource)
    }

    /** `handleFormSubmit` up to its `await`: marks the submission in
        flight, clears the error and builds the request from the fields.
        Only the form's submit event reaches it, and the form is not shown
        in the success view. */
    method BeginSubmit() returns (data: Supabase.RegistrationData)
      requires Valid() && !isSuccess
      modifies this
      ensures Valid()
      ensures isSubmitting && error.None? && !isSuccess
      ensures name == old(name) && email == old(email)
      ensures dateOfBirth == old(dateOfBirth) && referralSource == old(referralSource)
      ensures data == Request()
    {
      isSubmitting := true;
      error := None;
      data := Supabase.RegistrationData(name, email, dateOfBirth, referralSource);
    }

    /** `handleFormSubmit` after its `await`: the submission is over; a
        success shows the success panel and empties the form, a failure
        shows the response's message (or the fallback) and keeps the form. */
    method FinishSubmit(result: Supabase.RegistrationResponse)
      requires Valid() && isSubmitting
      modifies this
      ensures Valid()
      ensures !isSubmitting
      ensures result.success ==>
                && isSuccess && error.None?
                && name == "" && email == "" && dateOfBirth == "" && referralSource == ""
      ensures !result.success ==>
                && !isSuccess && error == Some(ErrorMessage(result))
                && name == old(name) && email == old(email)
                && dateOfBirth == old(dateOfBirth) && referralSource == old(referralSource)
    {
      isSubmitting := false;
      if result.success {
        isSuccess := true;
        name, email, dateOfBirth, referralSource := "", "", "", "";
      } else {
        error := Some(ErrorMessage(result));
      }
    }

    /** The whole submit handler against the store: the request goes out
        once, and the modal ends in the success view exactly when the insert
        succeeded, or else shows the gateway's own message. */
    method HandleFormSubmit(client: Supabase.Client?)
      requires Valid() && !isSuccess
      modifies this, client
      ensures Valid() && !isSubmitting
      ensures isSuccess <==> old(Supabase.SaveResponse(client)).success
      ensures isSuccess ==> name == "" && email == "" && dateOfBirth == "" && referralSource == ""
      ensures !isSuccess ==>
                && error == old(Supabase.SaveResponse(client)).error
                && name == old(name) && email == old(email)
                && dateOfBirth == old(dateOfBirth) && referralSource == old(referralSource)
      ensures client != null ==>
                && client.inserts == old(client.inserts) + [Supabase.InsertCall(Supabase.Table, [Supabase.RowFor(old(Request()))])]
                && client.invocations == old(client.invocations) +
                     (if old(client.insertReply).Inserted?
                      then [Supabase.InvokeCall(Supabase.WelcomeFunction, old(Request()).name, old(Request()).email)] else [])
                && client.insertReply == old(client.insertReply)
                && client.invokeReply == old(client.invokeReply)
    {
      var data := BeginSubmit();
      var result := Supabase.SaveRegistration(client, data);
      FinishSubmit(result);
    }

    /** The form's submit event as the browser delivers it: nothing happens
        (no request, no state change) unless the form may submit. */
    method SubmitForm(client: Supabase.Client?) returns (submitted: bool)
      requires Valid()
      modifies this, client
      ensures Valid()
      ensures submitted == old(CanSubmit())
      ensures submitted ==> old(Request()).referralSource in ReferralOptions
      ensures !submitted ==> unchanged(this) && (client != null ==> unchanged(client))
      ensures submitted ==> !isSubmitting && (isSuccess <==> old(Supabase.SaveResponse(client)).success)
      ensures submitted && isSuccess ==> name == "" && email == "" && dateOfBirth == "" && referralSource == ""
      ensures submitted && !isSuccess ==>
                && error == old(Supabase.SaveResponse(client)).error
                && name == old(name) && email == old(email)
                && dateOfBirth == old(dateOfBirth) && referralSource == old(referralSource)
      ensures submitted && client != null ==>
                && client.inserts == old(client.inserts) + [Supabase.InsertCall(Supabase.Table, [Supabase.RowFor(old(Request()))])]
                && client.invocations == old(client.invocations) +
                     (if old(client.insertReply).Inserted?
                      then [Supabase.InvokeCall(Supabase.WelcomeFunction, old(Request()).name, old(Request()).email)] else [])
                && client.insertReply == old(client.insertReply)
                && client.invokeReply == old(client.invokeReply)
    {
      submitted := CanSubmit();
      if submitted {
        HandleFormSubmit(client);
      }
    }

    /** What the modal renders for the given props. */
    function Render(isOpen: bool, prefilledEmail: string): (v: View)
      reads this
      ensures v == Hidden <==> !isOpen
      ensures v == SuccessPanel <==> isOpen && isSuccess
      ensures v.Form? ==> (v.submitDisabled <==> isSubmitting)
      ensures v.Form? ==> (v.emailReadOnly <==> prefilledEmail != "")
      ensures v.Form? ==> (v.errorBanner.Some? <==> error.Some? && error.value != "")
      ensures v.Form? && v.errorBanner.Some? ==> v.errorBanner == error
    {
      if !isOpen then Hidden
      else if isSuccess then SuccessPanel
      else Form(if error.Some? && error.value != "" then error else None, prefilledEmail != "", isSubmitting)
    }
  }

  /** The fallback message is never what a failed `saveRegistration` gets:
      every failure the gateway reports carries its own non-empty message,
      and the modal shows exactly that message (the duplicate message for a
      unique-violation, never a generic one). */
  lemma GatewayMessageShown(reply: Supabase.InsertReply)
    ensures var result := Supabase.InsertResponse(reply);
            !result.success ==> Some(ErrorMessage(result)) == result.error
    ensures var result := Supabase.InsertResponse(reply);
            reply.Rejected? && reply.err.code == Supabase.UniqueViolation ==>
              ErrorMessage(result) == Supabase.DuplicateMessage
  {
  }
}
