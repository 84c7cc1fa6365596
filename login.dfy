/**
 * The sign-in form of pages/Login.tsx: one submit handler that calls the
 * sign-in service and either shows its error or moves on, to the assessment
 * when an unsaved assessment is waiting in local storage and to the
 * dashboard otherwise.
 */
module LoginPage {
  import opened Outcomes

  const AssessmentRoute := "/ai-assessment"
  const DashboardRoute := "/dashboard"

  /** The route after a successful sign-in, given the `pendingAudit` entry of
      local storage (None when absent). `if (pendingAudit)` is a truthiness
      test, so an empty entry counts as none. */
  function LoginRedirect(pendingAudit: Option<string>): (route: string)
    ensures route == AssessmentRoute <==> pendingAudit.Some? && pendingAudit.value != ""
    ensures route == DashboardRoute <==> !(pendingAudit.Some? && pendingAudit.value != "")
  {
    if pendingAudit.Some? && pendingAudit.value != "" then AssessmentRoute else DashboardRoute
  }

  /** The sign-in page. `signInRequests` records every call the page makes
      to the sign-in service, also one that throws, `navigations` every route change. */
  class Login {
    var email: string
    var password: string
    var loading: bool
    var error: Option<string>
    var signInRequests: seq<Credentials>
    var navigations: seq<string>

    constructor ()
      ensures email == "" && password == "" && !loading && error.None?
      ensures signInRequests == [] && navigations == []
    {
      email, password := "", "";
      loading := false;
      error := None;
      signInRequests, navigations := [], [];
    }

    method EditEmail(v: string)
      modifies this`email
      ensures email == v
    {
      email := v;
    }

    method EditPassword(v: string)
      modifies this`password
      ensures password == v
    {
      password := v;
    }

    /** What a submit does apart from `loading`: one request is sent; an
        error shows the provider's message and stays; a thrown call leaves
        the error cleared and stays; a success clears the error and moves on. */
    twostate predicate Handled(outcome: AuthOutcome, pendingAudit: Option<string>)
      reads this
    {
      && signInRequests == old(signInRequests) + [Credentials(email, password)]
      && (outcome.AuthError? ==> error == Some(outcome.message) && navigations == old(navigations))
      && (outcome.AuthThrew? ==> error.None? && navigations == old(navigations))
      && (outcome.AuthOk? ==> error.None? && navigations == old(navigations) + [LoginRedirect(pendingAudit)])
    }

    /** `handleLogin`; `outcome` is what the sign-in call gives and
        `pendingAudit` what local storage holds. The call is awaited outside
        any `try`, so when it throws the handler stops there and `loading`
        stays on; on every other path it is turned off. */
    method HandleLogin(outcome: AuthOutcome, pendingAudit: Option<string>)
      modifies this`loading, this`error, this`signInRequests, this`navigations
      ensures Handled(outcome, pendingAudit)
      ensures loading <==> outcome.AuthThrew?
    {
      loading := true;
      error := None;
      signInRequests := signInRequests + [Credentials(email, password)];
      match outcome {
        case AuthThrew(_) =>
          return;
        case AuthError(message) =>
          error := Some(message);
        case AuthOk(_) =>
          if pendingAudit.Some? && pendingAudit.value != "" {
            navigations := navigations + [AssessmentRoute];
          } else {
            navigations := navigations + [DashboardRoute];
          }
      }
      loading := false;
    }

    /** The form's submit, whose button is disabled while `loading`. */
    method PressSignIn(outcome: AuthOutcome, pendingAudit: Option<string>)
      modifies this`loading, this`error, this`signInRequests, this`navigations
      ensures old(loading) ==> unchanged(this)
      ensures !old(loading) ==> Handled(outcome, pendingAudit) && (loading <==> outcome.AuthThrew?)
    {
      if !loading {
        HandleLogin(outcome, pendingAudit);
      }
    }

    /** `handleLogin` with its body inside `try { ... } finally {
        setLoading(false); }`: the same effects, and `loading` off on every
        path, also when the call throws. */
    method HandleLoginWithFinally(outcome: AuthOutcome, pendingAudit: Option<string>)
      modifies this`loading, this`error, this`signInRequests, this`navigations
      ensures Handled(outcome, pendingAudit)
      ensures !loading
    {
      HandleLogin(outcome, pendingAudit);
      loading := false;
    }
  }

  /** When the sign-in call throws, the form locks up: `loading` stays on, so
      the submit button stays disabled and a second submit, whatever it
      would get, sends nothing and navigates nowhere. */
  method LockedAfterThrow(second: AuthOutcome, pendingAudit: Option<string>)
    returns (stillLoading: bool, calls: nat, shown: Option<string>, moved: seq<string>)
    ensures stillLoading && calls == 1 && shown.None? && moved == []
  {
    var page := new Login();
    page.EditEmail("ada@example.com");
    page.EditPassword("secret1");
    page.PressSignIn(AuthThrew("Cannot read properties of null"), pendingAudit);
    page.PressSignIn(second, pendingAudit);
    stillLoading, calls, shown, moved := page.loading, |page.signInRequests|, page.error, page.navigations;
  }

  /** With the `finally`, a thrown call leaves the form usable: the next
      submit reaches the service and, on success, the chosen route. */
  method UsableAfterThrowWithFinally(pendingAudit: Option<string>) returns (stillLoading: bool, calls: nat, moved: seq<string>)
    ensures !stillLoading && calls == 2 && moved == [LoginRedirect(pendingAudit)]
  {
    var page := new Login();
    page.EditEmail("ada@example.com");
    page.EditPassword("secret1");
    page.HandleLoginWithFinally(AuthThrew("Failed to fetch"), pendingAudit);
    page.PressSignIn(AuthOk(None), pendingAudit);
    stillLoading, calls, moved := page.loading, |page.signInRequests|, page.navigations;
  }
}
