/**
 * The sign-up form (`SmartSignUp`): four fields, a client-side password
 * check, then the external registration call. The awaited registration result
 * and the social sign-in call are parameters of the handlers.
 */
module SignUp {
  import opened Wrappers
  import opened AuthShared

  datatype Field = Name | Email | Password | ConfirmPassword

  datatype SignUpData = SignUpData(name: string, email: string, password: string, confirmPassword: string)

  function Get(d: SignUpData, f: Field): string {
    match f
    case Name => d.name
    case Email => d.email
    case Password => d.password
    case ConfirmPassword => d.confirmPassword
  }

  /** `setFormData(prev => ({ ...prev, [name]: value }))`. */
  function WithField(d: SignUpData, f: Field, value: string): (r: SignUpData)
    ensures Get(r, f) == value
    ensures forall g :: g != f ==> Get(r, g) == Get(d, g)
  {
    match f
    case Name => d.(name := value)
    case Email => d.(email := value)
    case Password => d.(password := value)
    case ConfirmPassword => d.(confirmPassword := value)
  }

  /** The `FormData` sent to registration: there is no place for the confirmation. */
  datatype Registration = Registration(name: string, email: string, password: string)

  /** How `await registerUser(data)` ends. */
  datatype RegisterOutcome =
    | RegisterFailed(error: string)          // a result with an `error` key
    | Registered(redirectUrl: Option<string>)
    | RegisterThrew

  const PasswordMismatchError := "Passwords do not match"

  /** What one submission does: the registration sent (if any), the error state set, the navigation. */
  datatype SubmitEffect = SubmitEffect(sent: Option<Registration>, error: Option<string>, navigateTo: Option<string>)

  /**
   * The decisions of `handleSubmit`, given the form, the callback and the registration's outcome:
   * registration is called exactly when the passwords match, with name, e-mail and password,
   * and a submission either sets an error or navigates, never both.
   */
  function SubmitDecision(d: SignUpData, callbackUrl: string, outcome: RegisterOutcome): (r: SubmitEffect)
    ensures r.sent.Some? <==> d.password == d.confirmPassword
    ensures r.sent.Some? ==> r.sent.value == Registration(d.name, d.email, d.password)
    ensures r.error.Some? <==> r.navigateTo.None?
    ensures r.navigateTo.Some? <==> r.sent.Some? && outcome.Registered?
  {
    if d.password != d.confirmPassword then SubmitEffect(None, Some(PasswordMismatchError), None)
    else
      var sent := Some(Registration(d.name, d.email, d.password));
      match outcome
      case RegisterFailed(e) => SubmitEffect(sent, Some(e), None)
      case Registered(url) => SubmitEffect(sent, None, Some(OrElse(url, callbackUrl)))
      case RegisterThrew => SubmitEffect(sent, Some(UnexpectedError), None)
  }

  /**
   * The browser's constraint validation, which runs before the `submit` event:
   * every input is `required` (non-empty), and the `type="email"` input must
   * hold an address the browser accepts, whose verdict is `emailAccepted`.
   * No form sets `noValidate`, so `handleSubmit` runs only on such a form.
   */
  predicate Submittable(d: SignUpData, emailAccepted: bool) {
    d.name != "" && d.email != "" && d.password != "" && d.confirmPassword != "" && emailAccepted
  }

  /** Mismatched passwords: the mismatch error, no registration call, no navigation. */
  lemma MismatchNeverRegisters(d: SignUpData, callbackUrl: string, outcome: RegisterOutcome)
    requires d.password != d.confirmPassword
    ensures SubmitDecision(d, callbackUrl, outcome) == SubmitEffect(None, Some("Passwords do not match"), None)
  {
  }

  /** With matching passwords, the reply decides: the error state is its error verbatim, or the generic
   * error; or the page navigates to its redirect. */
  lemma OutcomeDecides(d: SignUpData, callbackUrl: string, outcome: RegisterOutcome)
    requires d.password == d.confirmPassword
    ensures var r := SubmitDecision(d, callbackUrl, outcome);
      match outcome
      case RegisterFailed(e) => r.error == Some(e) && r.navigateTo == None
      case Registered(url) =>
        && r.error == None
        && r.navigateTo == Some(if url.Some? && url.value != "" then url.value else callbackUrl)
      case RegisterThrew =>
        r.error == Some("An unexpected error occurred. Please try again.") && r.navigateTo == None
  {
  }

  class SmartSignUp {
    const callbackUrl: string
    var isLoading: bool
    var error: Option<string>
    var formData: SignUpData
    /** The last path given to `router.push`, if any. */
    var location: Option<string>

    /** `callbackUrl = '/dashboard'` applies when the prop is absent. */
    constructor (callbackUrl: Option<string>)
      ensures this.callbackUrl == callbackUrl.GetOr("/dashboard")
      ensures !isLoading && error == None && location == None
      ensures formData == SignUpData("", "", "", "")
    {
      this.callbackUrl := callbackUrl.GetOr(DefaultCallbackUrl);
      isLoading := false;
      error := None;
      formData := SignUpData("", "", "", "");
      location := None;
    }

    /**
     * `handleChange` for the input named `field`. Every input is `disabled={isLoading}`,
     * so while loading nothing changes.
     */
    method HandleChange(field: Field, value: string)
      modifies this`formData
      ensures old(isLoading) ==> formData == old(formData)
      ensures !old(isLoading) ==> formData == WithField(old(formData), field, value)
    {
      if isLoading {
        return;
      }
      formData := WithField(formData, field, value);
    }

    /**
     * A submit attempt, with `outcome` standing for the awaited `registerUser` result.
     * The submit button and the inputs are `disabled={isLoading}`, and the browser
     * blocks a form that is not `Submittable`: in both cases nothing is sent and
     * nothing changes. Otherwise `handleSubmit` runs.
     */
    method HandleSubmit(outcome: RegisterOutcome, emailAccepted: bool) returns (sent: Option<Registration>)
      modifies this`isLoading, this`error, this`location
      ensures old(isLoading) || !Submittable(formData, emailAccepted) ==>
        sent == None && isLoading == old(isLoading) && error == old(error) && location == old(location)
      ensures !old(isLoading) && Submittable(formData, emailAccepted) ==>
        var r := SubmitDecision(formData, callbackUrl, outcome);
        && sent == r.sent && error == r.error
        && location == (if r.navigateTo.Some? then r.navigateTo else old(location))
        && !isLoading
      ensures sent.Some? ==> sent.value.name != "" && sent.value.email != "" && sent.value.password != ""
    {
      if isLoading || !Submittable(formData, emailAccepted) {
        return None;
      }
      isLoading := true;
      error := None;

      if formData.password != formData.confirmPassword {
        error := Some(PasswordMismatchError);
        isLoading := false;
        return None;
      }

      var data := Registration(formData.name, formData.email, formData.password);
      sent := Some(data);
      match outcome {
        case RegisterThrew =>
          error := Some(UnexpectedError);
        case RegisterFailed(e) =>
          error := Some(e);
        case Registered(redirectUrl) =>
          location := Some(OrElse(redirectUrl, callbackUrl));
      }
      isLoading := false;
    }

    /**
     * `handleSocialSignIn`: the error is cleared first; loading ends however the call ends.
     * Both provider buttons are `disabled={isLoading}`: while loading no request is made.
     */
    method HandleSocialSignIn(provider: string, dispatch: Dispatch) returns (request: Option<SocialRequest>)
      modifies this`isLoading, this`error
      ensures old(isLoading) ==> request == None && isLoading && error == old(error)
      ensures !old(isLoading) ==>
        && request == Some(SocialRequest(provider, callbackUrl))
        && error == (if dispatch == DispatchThrew then Some(SocialSignInError) else None)
        && !isLoading
    {
      if isLoading {
        return None;
      }
      isLoading := true;
      error := None;
      request := Some(SocialRequest(provider, callbackUrl));
      if dispatch == DispatchThrew {
        error := Some(SocialSignInError);
      }
      isLoading := false;
    }
  }
}
