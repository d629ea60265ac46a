/**
 * The staff sign-in page.  A sign-in reads the account's document in
 * `users`, stores the session, and routes by the account's type; a
 * second view sends a password-reset email.  The authentication service's
 * answers are parameters: `signIn` is the account's uid or None when the
 * sign-in throws, and `lookup` is what reading the document gives.
 */
module AdminLogin {
  import opened Js
  import opened Session

  datatype Lookup = ReadFails | NoDocument | Document(kind: string)

  const LoginFailed := "Login failed. Please check your credentials."
  const NoUser := "User does not exist"
  const Unauthorized := "Unauthorized user type"
  const EnterEmail := "Please enter your email to reset your password."
  const ResetSent := "Password reset email sent. Please check your inbox."
  const ResetFailed := "Failed to send password reset email. Please check the email address."

  /** Where each account type lands; None for any other type. */
  function RouteFor(kind: string): (r: Option<string>)
    ensures kind == "admin" <==> r == Some("/adminmodule/admin/")
    ensures kind == "superadmin" <==> r == Some("/adminmodule/superadmin/")
    ensures kind == "barangay" <==> r == Some("/adminmodule/barangay/")
    ensures r.None? <==> kind !in {"admin", "superadmin", "barangay"}
  {
    if kind == "admin" then Some("/adminmodule/admin/")
    else if kind == "superadmin" then Some("/adminmodule/superadmin/")
    else if kind == "barangay" then Some("/adminmodule/barangay/")
    else None
  }

  /** Distinct types land on distinct pages. */
  lemma RoutesDistinct(k1: string, k2: string)
    requires RouteFor(k1).Some? && RouteFor(k1) == RouteFor(k2)
    ensures k1 == k2
  {
  }

  class LoginPage {
    var email: string
    var password: string
    var error: string
    var loading: bool
    var resetPasswordMessage: string
    var isForgotPassword: bool
    /** The user type published to the rest of the application. */
    var userType: Option<string>
    /** The `userSession` entry of session storage. */
    var session: Option<StaffSession>
    /** The page the router was sent to, if any. */
    var route: Option<string>

    constructor ()
      ensures email == "" && password == "" && error == "" && !loading
      ensures resetPasswordMessage == "" && !isForgotPassword
      ensures userType.None? && session.None? && route.None?
    {
      email, password, error, loading := "", "", "", false;
      resetPasswordMessage, isForgotPassword := "", false;
      userType, session, route := None, None, None;
    }

    /** handleChange: the input named `name` takes the value. */
    method HandleChange(name: string, value: string)
      modifies this`email, this`password
      ensures email == if name == "email" then value else old(email)
      ensures password == if name == "password" then value else old(password)
    {
      if name == "email" {
        email := value;
      } else if name == "password" {
        password := value;
      }
    }

    /**
     * handleLogin.  A failed sign-in or read reports the credentials, a
     * missing document reports that the user does not exist; otherwise
     * the session is stored before the type is checked, so even an
     * unauthorized type leaves a stored session, and only the three staff
     * types are routed.
     */
    method Login(signIn: Option<string>, lookup: Lookup)
      modifies this`loading, this`error, this`userType, this`session, this`route
      ensures !loading
      ensures signIn.None? || lookup.ReadFails? ==>
        error == LoginFailed && userType == old(userType) && session == old(session) && route == old(route)
      ensures signIn.Some? && lookup.NoDocument? ==>
        error == NoUser && userType == old(userType) && session == old(session) && route == old(route)
      ensures signIn.Some? && lookup.Document? ==>
        userType == Some(lookup.kind) && session == Some(StaffSession(signIn.value, email, lookup.kind))
      ensures signIn.Some? && lookup.Document? && RouteFor(lookup.kind).Some? ==>
        route == RouteFor(lookup.kind) && error == old(error)
      ensures signIn.Some? && lookup.Document? && RouteFor(lookup.kind).None? ==>
        route == old(route) && error == Unauthorized
    {
      loading := true;
      if signIn.None? || lookup.ReadFails? {
        error := LoginFailed;
      } else if lookup.NoDocument? {
        error := NoUser;
      } else {
        var kind := lookup.kind;
        userType := Some(kind);
        session := Some(StaffSession(signIn.value, email, kind));
        var target := RouteFor(kind);
        if target.Some? {
          route := target;
        } else {
          error := Unauthorized;
        }
      }
      loading := false;
    }

    method ShowForgotPassword()
      modifies this`isForgotPassword
      ensures isForgotPassword
    {
      isForgotPassword := true;
    }

    /**
     * handleForgotPassword.  Without an email only the error is set and
     * nothing is requested; a sent email clears the error, a failure
     * clears the success message.
     */
    method ForgotPassword(fails: bool) returns (requested: bool)
      modifies this`error, this`resetPasswordMessage, this`loading
      ensures requested <==> email != ""
      ensures email == "" ==>
        error == EnterEmail && resetPasswordMessage == old(resetPasswordMessage) && loading == old(loading)
      ensures email != "" && !fails ==> resetPasswordMessage == ResetSent && error == "" && !loading
      ensures email != "" && fails ==> error == ResetFailed && resetPasswordMessage == "" && !loading
    {
      if email == "" {
        error := EnterEmail;
        return false;
      }
      requested := true;
      loading := true;
      if !fails {
        resetPasswordMessage := ResetSent;
        error := "";
      } else {
        error := ResetFailed;
        resetPasswordMessage := "";
      }
      loading := false;
    }

    /** handleBackToLogin: the login view with no messages and an empty form. */
    method BackToLogin()
      modifies this`isForgotPassword, this`error, this`resetPasswordMessage, this`email, this`password
      ensures !isForgotPassword && error == "" && resetPasswordMessage == "" && email == "" && password == ""
    {
      isForgotPassword := false;
      error := "";
      resetPasswordMessage := "";
      email := "";
      password := "";
    }
  }
}
