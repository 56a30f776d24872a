/** The login/register page: form validation, the mode toggle, and what a
    submission does with the outcome of the authentication call. */
module LoginPage {
  import opened Types
  import opened ErrorHandler
  import opened BrowserStorage
  import Auth
  import Onboarding

  const REQUIRED_FIELDS_MESSAGE := "Please fill in all required fields."
  const AUTH_FAILED_MESSAGE := "Authentication failed. Please try again."
  const ONBOARDING_ROUTE := "/onboarding/step1"
  const DASHBOARD_ROUTE := "/dashboard"

  /** The register or login call's result: the token and user id of the
      response, or the value it threw. */
  datatype AuthOutcome = Authenticated(accessToken: string, userId: string) | Failed(error: CaughtValue)

  /** The call a submission makes. */
  datatype AuthRequest =
    | NoRequest
    | RegisterRequest(email: string, password: string, fullName: string)
    | LoginRequest(email: string, password: string)

  class LoginForm {
    var isRegistering: bool
    var email: string
    var password: string
    var fullName: string
    var isSubmitting: bool
    var apiError: Option<string>

    /** Login mode, an empty form, nothing submitting, no error. */
    constructor ()
      ensures !isRegistering && email == "" && password == "" && fullName == ""
      ensures !isSubmitting && apiError == None
    {
      isRegistering := false;
      email, password, fullName := "", "", "";
      isSubmitting, apiError := false, None;
    }

    /** `validate`: email and password are required; the full name only when registering. */
    predicate Validate()
      reads this
      ensures Validate() ==> email != "" && password != ""
      ensures !isRegistering ==> (Validate() <==> email != "" && password != "")
      ensures isRegistering && fullName == "" ==> !Validate()
    {
      email != "" && password != "" && (!isRegistering || fullName != "")
    }

    /** Switches between login and register and clears the error. */
    method ToggleMode()
      modifies this
      ensures isRegistering == !old(isRegistering) && apiError == None
      ensures email == old(email) && password == old(password) && fullName == old(fullName)
      ensures isSubmitting == old(isSubmitting)
    {
      isRegistering := !isRegistering;
      apiError := None;
    }

    /** `handleSubmit`. The authentication call is not made here: `outcome` is
        what it returns or throws, and `request` says which call was made. */
    method HandleSubmit(outcome: AuthOutcome, storage: LocalStorage, onboarding: Onboarding.OnboardingStore)
      returns (request: AuthRequest, route: Option<string>)
      modifies this, storage, onboarding
      ensures isRegistering == old(isRegistering)
      ensures email == old(email) && password == old(password) && fullName == old(fullName)
      // Missing fields: an error message, no call, nothing else happens.
      ensures (old(email) == "" || old(password) == "" || (old(isRegistering) && old(fullName) == "")) ==>
        && apiError == Some(REQUIRED_FIELDS_MESSAGE)
        && request == NoRequest && route == None
        && isSubmitting == old(isSubmitting)
        && storage.items == old(storage.items)
        && onboarding.Fields() == old(onboarding.Fields())
      // A complete form: the call that fits the mode, and never left submitting.
      ensures old(Validate()) ==>
        && request == (if isRegistering then RegisterRequest(email, password, fullName)
                       else LoginRequest(email, password))
        && !isSubmitting
      // Success: the session is saved, onboarding is reset, and the route depends on the mode.
      ensures old(Validate()) && outcome.Authenticated? ==>
        && storage.items == Auth.SavedSession(old(storage.items), outcome.accessToken, outcome.userId)
        && onboarding.Fields() == Onboarding.Initial
        && apiError == None
        && route == Some(if isRegistering then ONBOARDING_ROUTE else DASHBOARD_ROUTE)
      // Failure: the extracted message, with the page's own default, and no navigation.
      ensures old(Validate()) && outcome.Failed? ==>
        && apiError == Some(GetApiErrorMessage(outcome.error, Some(AUTH_FAILED_MESSAGE)))
        && route == None
        && storage.items == old(storage.items)
        && onboarding.Fields() == old(onboarding.Fields())
    {
      apiError := None;
      route := None;
      if !Validate() {
        apiError := Some(REQUIRED_FIELDS_MESSAGE);
        request := NoRequest;
        return;
      }
      isSubmitting := true;
      if isRegistering {
        request := RegisterRequest(email, password, fullName);
      } else {
        request := LoginRequest(email, password);
      }
      match outcome {
        case Authenticated(token, userId) =>
          Auth.SaveSession(storage, true, token, userId);
          onboarding.Reset();
          route := Some(if isRegistering then ONBOARDING_ROUTE else DASHBOARD_ROUTE);
        case Failed(error) =>
          apiError := Some(GetApiErrorMessage(error, Some(AUTH_FAILED_MESSAGE)));
      }
      isSubmitting := false;
    }
  }

  /** Toggling the mode twice restores it. */
  method ToggleTwice(form: LoginForm)
    modifies form
    ensures form.isRegistering == old(form.isRegistering) && form.apiError == None
  {
    form.ToggleMode();
    form.ToggleMode();
  }
}
