/**
 * The account creation form of pages/Signup.tsx: e-mail, password and its
 * confirmation, one submit handler that checks the confirmation, calls the
 * sign-up service and either shows an error or confirms and moves to the
 * login page.
 */
module SignupPage {
  import opened Outcomes
  import opened Strings

  const PasswordMismatch := "Passwords do not match."
  const RegisteredMarker := "already registered"
  /** "This email is already registered. Please log in." */
  const AlreadyRegistered := "This email is " + RegisteredMarker + ". Please log in."
  const AccountCreated := "Account created! Please check your email to verify your account before logging in."

  /** The text shown for a sign-up error: a message mentioning an existing
      registration becomes the page's own advice, any other is shown as is. */
  function DisplayedError(message: string): (shown: string)
    ensures Contains(message, RegisteredMarker) ==> shown == AlreadyRegistered
    ensures !Contains(message, RegisteredMarker) ==> shown == message
  {
    if Contains(message, RegisteredMarker) then AlreadyRegistered else message
  }

  /** The advice itself mentions an existing registration. */
  lemma AdviceMentionsRegistration()
    ensures Contains(AlreadyRegistered, RegisteredMarker)
  {
    ContainsMiddle("This email is ", RegisteredMarker, ". Please log in.");
  }

  /** Mapping a message that is already displayed changes nothing, and the
      mapping keeps whether the message mentions an existing registration. */
  lemma DisplayedErrorIdempotent(message: string)
    ensures DisplayedError(DisplayedError(message)) == DisplayedError(message)
    ensures Contains(DisplayedError(message), RegisteredMarker) <==> Contains(message, RegisteredMarker)
  {
    AdviceMentionsRegistration();
  }

  /** The sign-up page. `signUpRequests` records every call the page makes
      to the sign-up service, also one that throws, `navigations` every route change, `alerts` every alert box. */
  class Signup {
    var email: string
    var password: string
    var confirmPassword: string
    var loading: bool
    var error: Option<string>
    var signUpRequests: seq<Credentials>
    var navigations: seq<string>
    var alerts: seq<string>

    constructor ()
      ensures email == "" && password == "" && confirmPassword == ""
      ensures !loading && error.None?
      ensures signUpRequests == [] && navigations == [] && alerts == []
    {
      email, password, confirmPassword := "", "", "";
      loading := false;
      error := None;
      signUpRequests, navigations, alerts := [], [], [];
    }

    method EditEmail(v: string)
      modifies this`email
      ensures email == v
    {
      email := v;
    }

    method EditPassword(v: string)
      modifies this`password
      ensures password == v
    {
      password := v;
    }

    method EditConfirmPassword(v: string)
      modifies this`confirmPassword
      ensures confirmPassword == v
    {
      confirmPassword := v;
    }

    /** Whether a submit leaves `handleSignup` early through an exception:
        the confirmation matched, so the sign-up call was made, and it threw. */
    predicate Aborts(outcome: AuthOutcome)
      reads this
    {
      password == confirmPassword && outcome.AuthThrew?
    }

    /** What a submit does apart from `loading`: a mismatch shows its error
        and never reaches the service; otherwise one request is sent, an
        error is shown reworded, a thrown call leaves the error cleared, and
        a success clears the error, raises the confirmation and goes to the
        login page. */
    twostate predicate Handled(outcome: AuthOutcome)
      reads this
    {
      && (password != confirmPassword ==>
            && error == Some(PasswordMismatch)
            && signUpRequests == old(signUpRequests) && navigations == old(navigations) && alerts == old(alerts))
      && (password == confirmPassword ==>
            && signUpRequests == old(signUpRequests) + [Credentials(email, password)]
            && (outcome.AuthError? ==>
                  error == Some(DisplayedError(outcome.message))
                  && navigations == old(navigations) && alerts == old(alerts))
            && (outcome.AuthThrew? ==>
                  error.None? && navigations == old(navigations) && alerts == old(alerts))
            && (outcome.AuthOk? ==>
                  error.None? && navigations == old(navigations) + ["/login"]
                  && alerts == old(alerts) + [AccountCreated]))
    }

    /** `handleSignup`; `outcome` is what the sign-up call gives. The call is
        awaited outside any `try`, so when it throws the handler stops there
        and `loading` stays on; on every other path it is turned off. */
    method HandleSignup(outcome: AuthOutcome)
      modifies this`loading, this`error, this`signUpRequests, this`navigations, this`alerts
      ensures Handled(outcome)
      ensures loading <==> Aborts(outcome)
    {
      loading := true;
      error := None;
      if password != confirmPassword {
        error := Some(PasswordMismatch);
        loading := false;
        return;
      }
      signUpRequests := signUpRequests + [Credentials(email, password)];
      match outcome {
        case AuthThrew(_) =>
          return;
        case AuthError(message) =>
          if Contains(message, RegisteredMarker) {
            error := Some(AlreadyRegistered);
          } else {
            error := Some(message);
          }
        case AuthOk(_) =>
          alerts := alerts + [AccountCreated];
          navigations := navigations + ["/login"];
      }
      loading := false;
    }

    /** The form's submit, whose button is disabled while `loading`. */
    method PressSignUp(outcome: AuthOutcome)
      modifies this`loading, this`error, this`signUpRequests, this`navigations, this`alerts
      ensures old(loading) ==> unchanged(this)
      ensures !old(loading) ==> Handled(outcome) && (loading <==> Aborts(outcome))
    {
      if !loading {
        HandleSignup(outcome);
      }
    }

    /** `handleSignup` with its body inside `try { ... } finally {
        setLoading(false); }`: the same effects, and `loading` off on every
        path, also when the call throws. */
    method HandleSignupWithFinally(outcome: AuthOutcome)
      modifies this`loading, this`error, this`signUpRequests, this`navigations, this`alerts
      ensures Handled(outcome)
      ensures !loading
    {
      HandleSignup(outcome);
      loading := false;
    }
  }

  /** A mistyped confirmation is caught before the service is called; once
      corrected, a "User already registered" answer shows the advice. */
  method Retyped() returns (firstError: Option<string>, calls: nat, secondError: Option<string>)
    ensures firstError == Some(PasswordMismatch) && calls == 1 && secondError == Some(AlreadyRegistered)
  {
    var page := new Signup();
    page.EditEmail("ada@example.com");
    page.EditPassword("secret1");
    page.EditConfirmPassword("secret2");
    page.HandleSignup(AuthOk(None));
    firstError := page.error;
    page.EditConfirmPassword("secret1");
    var message := "User " + RegisteredMarker;
    assert Contains(message, RegisteredMarker) by {
      assert message == "User " + RegisteredMarker + "";
      ContainsMiddle("User ", RegisteredMarker, "");
    }
    page.HandleSignup(AuthError(message));
    calls, secondError := |page.signUpRequests|, page.error;
  }

  /** When the sign-up call throws, the form locks up: `loading` stays on, so
      the submit button stays disabled and a second submit, whatever it
      would get, sends nothing and shows nothing. */
  method LockedAfterThrow(second: AuthOutcome) returns (stillLoading: bool, calls: nat, shown: Option<string>, moved: seq<string>)
    ensures stillLoading && calls == 1 && shown.None? && moved == []
  {
    var page := new Signup();
    page.EditEmail("ada@example.com");
    page.EditPassword("secret1");
    page.EditConfirmPassword("secret1");
    page.PressSignUp(AuthThrew("Cannot read properties of null"));
    page.PressSignUp(second);
    stillLoading, calls, shown, moved := page.loading, |page.signUpRequests|, page.error, page.navigations;
  }

  /** With the `finally`, a thrown call leaves the form usable: the next
      submit reaches the service and, on success, the login page. */
  method UsableAfterThrowWithFinally() returns (stillLoading: bool, calls: nat, moved: seq<string>)
    ensures !stillLoading && calls == 2 && moved == ["/login"]
  {
    var page := new Signup();
    page.EditEmail("ada@example.com");
    page.EditPassword("secret1");
    page.EditConfirmPassword("secret1");
    page.HandleSignupWithFinally(AuthThrew("Failed to fetch"));
    page.PressSignUp(AuthOk(None));
    stillLoading, calls, moved := page.loading, |page.signUpRequests|, page.navigations;
  }
}
