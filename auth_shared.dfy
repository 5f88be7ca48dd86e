/** What the sign-up and sign-in forms have in common. */
module AuthShared {
  import opened Wrappers

  /** Where a form goes after success when its `callbackUrl` prop is not given. */
  const DefaultCallbackUrl := "/dashboard"

  const UnexpectedError := "An unexpected error occurred. Please try again."
  const SocialSignInError := "An error occurred during social sign-in. Please try again."

  /** How the external social sign-in call ends, as far as the form can see it. */
  datatype Dispatch = Dispatched | DispatchThrew

  /** The request handed to the social sign-in helper: provider and, for sign-up, the callback. */
  datatype SocialRequest = SocialRequest(provider: string, callbackUrl: string)

  /** JavaScript's `a || b` on an optional string: `a` when present and non-empty. */
  function OrElse(a: Option<string>, b: string): (r: string)
    ensures a.Some? && a.value != "" ==> r == a.value
    ensures a.None? || a.value == "" ==> r == b
  {
    if a.Some? && a.value != "" then a.value else b
  }
}
