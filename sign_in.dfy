/**
 * The sign-in form (`SmartSignIn`): a server-side credential check, then the
 * client-side sign-in that creates the session. Both awaited results, and the
 * social sign-in call, are parameters of the handlers.
 */
module SignIn {
  import opened Wrappers
  import opened AuthShared

  datatype Credentials = Credentials(email: string, password: string)

  /** How `await authenticateWithCredentials(formData)` ends. */
  datatype ValidationOutcome =
    | ValidationFailed(error: string)        // a result with an `error` key
    | ValidationPassed
    | ValidationThrew

  /** How `await signInWithCredentials(email, password)` ends. */
  datatype SignInOutcome =
    | SignInSucceeded
    | SignInFailed(error: Option<string>)
    | SignInThrew

  const AuthenticationFailed := "Authentication failed"

  /** What one submission does: the sign-in call made (if any), the error state set, the navigation. */
  datatype SubmitEffect = SubmitEffect(signedIn: Option<Credentials>, error: Option<string>, navigateTo: Option<string>)

  /**
   * The decisions of `handleSubmit`, given the two awaited results: the session is requested
   * exactly when validation passed, with the same e-mail and password; the page navigates to
   * the callback exactly when both calls succeed, and otherwise sets an error.
   */
  function SubmitDecision(c: Credentials, callbackUrl: string, validation: ValidationOutcome, signIn: SignInOutcome)
    : (r: SubmitEffect)
    ensures r.signedIn.Some? <==> validation == ValidationPassed
    ensures r.signedIn.Some? ==> r.signedIn == Some(c)
    ensures r.navigateTo.Some? <==> validation == ValidationPassed && signIn == SignInSucceeded
    ensures r.navigateTo.Some? ==> r.navigateTo == Some(callbackUrl)
    ensures r.error.Some? <==> r.navigateTo.None?
  {
    match validation
    case ValidationThrew => SubmitEffect(None, Some(UnexpectedError), None)
    case ValidationFailed(e) => SubmitEffect(None, Some(e), None)
    case ValidationPassed =>
      match signIn
      case SignInSucceeded => SubmitEffect(Some(c), None, Some(callbackUrl))
      case SignInFailed(e) => SubmitEffect(Some(c), Some(OrElse(e, AuthenticationFailed)), None)
      case SignInThrew => SubmitEffect(Some(c), Some(UnexpectedError), None)
  }

  /** A validation error becomes the error state verbatim and nothing else happens. */
  lemma ValidationErrorVerbatim(c: Credentials, callbackUrl: string, e: string, s: SignInOutcome)
    ensures SubmitDecision(c, callbackUrl, ValidationFailed(e), s) == SubmitEffect(None, Some(e), None)
  {
  }

  /** After validation passes, the sign-in result decides. */
  lemma SignInResultDecides(c: Credentials, callbackUrl: string, s: SignInOutcome)
    ensures var r := SubmitDecision(c, callbackUrl, ValidationPassed, s);
      match s
      case SignInSucceeded => r.error == None && r.navigateTo == Some(callbackUrl)
      case SignInFailed(e) =>
        && r.navigateTo == None
        && r.error == Some(if e.Some? && e.value != "" then e.value else "Authentication failed")
      case SignInThrew =>
        r.navigateTo == None && r.error == Some("An unexpected error occurred. Please try again.")
  {
  }

  /**
   * The browser's constraint validation, which runs before the `submit` event:
   * both inputs are `required` (non-empty), and the `type="email"` input must
   * hold an address the browser accepts, whose verdict is `emailAccepted`.
   * The form does not set `noValidate`, so `handleSubmit` runs only on such a form.
   */
  predicate Submittable(email: string, password: string, emailAccepted: bool) {
    email != "" && password != "" && emailAccepted
  }

  class SmartSignIn {
    const callbackUrl: string
    var isLoading: bool
    var error: Option<string>
    var email: string
    var password: string
    /** The last path given to `router.push`, if any. */
    var location: Option<string>

    /** `callbackUrl = '/dashboard'` applies when the prop is absent. */
    constructor (callbackUrl: Option<string>)
      ensures this.callbackUrl == callbackUrl.GetOr("/dashboard")
      ensures !isLoading && error == None && location == None
      ensures email == "" && password == ""
    {
      this.callbackUrl := callbackUrl.GetOr(DefaultCallbackUrl);
      isLoading := false;
      error := None;
      email := "";
      password := "";
      location := None;
    }

    /** The e-mail input's `onChange`; the input is `disabled={isLoading}`. */
    method SetEmail(value: string)
      modifies this`email
      ensures email == if old(isLoading) then old(email) else value
    {
      if !isLoading {
        email := value;
      }
    }

    /** The password input's `onChange`; the input is `disabled={isLoading}`. */
    method SetPassword(value: string)
      modifies this`password
      ensures password == if old(isLoading) then old(password) else value
    {
      if !isLoading {
        password := value;
      }
    }

    /**
     * A submit attempt: the credentials always go to validation, which is
     * returned as `validated`; `validation` and `signIn` stand for the two
     * awaited results. The submit button and the inputs are
     * `disabled={isLoading}`, and the browser blocks a form that is not
     * `Submittable`: in both cases nothing is sent and nothing changes.
     */
    method HandleSubmit(validation: ValidationOutcome, signIn: SignInOutcome, emailAccepted: bool)
      returns (validated: Option<Credentials>, signedIn: Option<Credentials>)
      modifies this`isLoading, this`error, this`location
      ensures old(isLoading) || !Submittable(email, password, emailAccepted) ==>
        && validated == None && signedIn == None
        && isLoading == old(isLoading) && error == old(error) && location == old(location)
      ensures !old(isLoading) && Submittable(email, password, emailAccepted) ==>
        validated == Some(Credentials(email, password))
      ensures !old(isLoading) && Submittable(email, password, emailAccepted) ==>
        var r := SubmitDecision(Credentials(email, password), callbackUrl, validation, signIn);
        && signedIn == r.signedIn && error == r.error
        && location == (if r.navigateTo.Some? then r.navigateTo else old(location))
        && !isLoading
      ensures validated.Some? ==> validated.value.email != "" && validated.value.password != ""
    {
      if isLoading || !Submittable(email, password, emailAccepted) {
        return None, None;
      }
      isLoading := true;
      error := None;
      validated := Some(Credentials(email, password));
      signedIn := None;

      match validation {
        case ValidationThrew =>
          error := Some(UnexpectedError);
        case ValidationFailed(e) =>
          error := Some(e);
        case ValidationPassed =>
          signedIn := Some(Credentials(email, password));
          match signIn {
            case SignInSucceeded =>
              location := Some(callbackUrl);
            case SignInFailed(e) =>
              error := Some(OrElse(e, AuthenticationFailed));
            case SignInThrew =>
              error := Some(UnexpectedError);
          }
      }
      isLoading := false;
    }

    /**
     * `handleSocialSignIn`: the provider call is not awaited, so loading stays
     * on unless the call throws at once. Both provider buttons are
     * `disabled={isLoading}`: while loading no provider is requested.
     */
    method HandleSocialSignIn(provider: string, dispatch: Dispatch) returns (requested: Option<string>)
      modifies this`isLoading, this`error
      ensures old(isLoading) ==> requested == None && isLoading && error == old(error)
      ensures !old(isLoading) ==> requested == Some(provider)
      ensures !old(isLoading) && dispatch == Dispatched ==> isLoading && error == None
      ensures !old(isLoading) && dispatch == DispatchThrew ==> !isLoading && error == Some(SocialSignInError)
    {
      if isLoading {
        return None;
      }
      isLoading := true;
      error := None;
      requested := Some(provider);
      if dispatch == DispatchThrew {
        error := Some(SocialSignInError);
        isLoading := false;
      }
    }
  }
}
