/**
 * The sign-up form of frontend/src/pages/Register.js: two checks before
 * any request, then POST /auth/register; success goes to /login without
 * storing a session.
 */
module RegisterPage {
  import opened Wrappers
  import opened Text
  import opened PageKit

  const MinPasswordLength: nat := 6

  /** The body of POST /auth/register: the typed email and password. */
  datatype RegisterRequest = RegisterRequest(email: string, password: string)

  /** The guard sequence of `handleRegister`: the first failed check's message, or none. */
  function RegisterError(password: string, confirmPassword: string): (r: Option<string>)
    ensures r.None? <==> password == confirmPassword && Utf16Length(password) >= MinPasswordLength
    ensures password != confirmPassword ==> r == Some("Passwords do not match")
  {
    if password != confirmPassword then Some("Passwords do not match")
    else if Utf16Length(password) < MinPasswordLength then Some("Password must be at least 6 characters")
    else None
  }

  class RegisterForm {
    var email: string
    var password: string
    var confirmPassword: string
    var loading: bool

    constructor ()
      ensures email == "" && password == "" && confirmPassword == "" && !loading
    {
      email := "";
      password := "";
      confirmPassword := "";
      loading := false;
    }

    /**
     * `handleRegister`: a failed check shows its message and sends
     * nothing; otherwise the request is sent and its outcome decides
     * between going to /login and an error message.
     */
    method HandleRegister(reply: Reply<()>) returns (requests: seq<RegisterRequest>, toast: Toast, navigateTo: Option<string>)
      modifies this
      ensures email == old(email) && password == old(password) && confirmPassword == old(confirmPassword)
      ensures requests == if RegisterError(password, confirmPassword).None? then [RegisterRequest(email, password)] else []
      ensures loading == if requests != [] then false else old(loading)
      ensures requests == [] ==> toast == ToastError(RegisterError(password, confirmPassword).value) && navigateTo == None
      ensures requests != [] && reply.Ok? ==> toast == ToastSuccess("Account created! Please login.") && navigateTo == Some("/login")
      ensures requests != [] && reply.Failed? ==> toast == ToastError(ErrorMessage(reply.detail, "Registration failed")) && navigateTo == None
    {
      var error := RegisterError(password, confirmPassword);
      if error.Some? {
        return [], ToastError(error.value), None;
      }
      loading := true;
      requests := [RegisterRequest(email, password)];
      if reply.Ok? {
        toast := ToastSuccess("Account created! Please login.");
        navigateTo := Some("/login");
      } else {
        toast := ToastError(ErrorMessage(reply.detail, "Registration failed"));
        navigateTo := None;
      }
      loading := false;
    }
  }

  /**
   * The request goes out exactly when the two entries match and the
   * password is at least six characters; the mismatch is checked first, so
   * a short mismatching pair reports the mismatch.
   */
  lemma RegisterChecks(password: string, confirmPassword: string)
    ensures RegisterError(password, confirmPassword).None?
            <==> password == confirmPassword && Utf16Length(password) >= MinPasswordLength
    ensures password != confirmPassword ==> RegisterError(password, confirmPassword) == Some("Passwords do not match")
    ensures password == confirmPassword && Utf16Length(password) < MinPasswordLength
            ==> RegisterError(password, confirmPassword) == Some("Password must be at least 6 characters")
  {
  }

  /**
   * Six characters always pass the length check and two or fewer never do;
   * in between, a character outside the Basic Multilingual Plane counts twice.
   */
  lemma LengthBounds(password: string)
    ensures |password| >= 6 ==> RegisterError(password, password).None?
    ensures |password| <= 2 ==> RegisterError(password, password).Some?
  {
  }
}
