/** The sign-up form: an ordered validation chain reporting the first failed check, then
    one sign-up call. */
module SignUpForm {
  import opened Common
  import Auth
  import EmailPattern

  datatype Problem = ShortUserId | ShortPassword | PasswordMismatch | InvalidEmail

  const MinUserIdLength := 3
  const MinPasswordLength := 8

  /** The error text of each failed check; none of them is the sign-up failure text. */
  function Message(p: Problem): (m: string)
    ensures m != "" && m != SignUpFailedMessage
  {
    match p
    case ShortUserId => "User ID harus memiliki minimal 3 karakter."
    case ShortPassword => "Password harus memiliki minimal 8 karakter."
    case PasswordMismatch => "Password dan konfirmasi password tidak cocok."
    case InvalidEmail => "Silakan masukkan alamat email yang valid."
  }

  const SignUpFailedMessage := "Gagal membuat akun. Silakan coba lagi."

  /** `validateForm`: the first failing check, in the order user ID length, password
      length, confirmation, e-mail pattern; `None` when every check passes. */
  function Validate(userId: string, password: string, confirm: string, email: string): (r: Option<Problem>)
    ensures r == Some(ShortUserId) <==> |userId| < MinUserIdLength
    ensures r == Some(ShortPassword) <==> |userId| >= MinUserIdLength && |password| < MinPasswordLength
    ensures r == Some(PasswordMismatch) <==>
              |userId| >= MinUserIdLength && |password| >= MinPasswordLength && password != confirm
    ensures r == Some(InvalidEmail) <==>
              |userId| >= MinUserIdLength && |password| >= MinPasswordLength && password == confirm
              && !EmailPattern.Accepts(email)
    ensures r.None? <==>
              |userId| >= MinUserIdLength && |password| >= MinPasswordLength && password == confirm
              && EmailPattern.Accepts(email)
  {
    if |userId| < MinUserIdLength then Some(ShortUserId)
    else if |password| < MinPasswordLength then Some(ShortPassword)
    else if password != confirm then Some(PasswordMismatch)
    else if !EmailPattern.Accepts(email) then Some(InvalidEmail)
    else None
  }

  /** The user ID is checked for its length only: its characters, and any length from
      three up, never change the verdict. */
  lemma UserIdOnlyLengthChecked(u1: string, u2: string, password: string, confirm: string, email: string)
    requires |u1| >= MinUserIdLength && |u2| >= MinUserIdLength
    ensures Validate(u1, password, confirm, email) == Validate(u2, password, confirm, email)
  {
  }

  /** The four messages are distinct, so the message names the failed check. */
  lemma MessagesDistinct(p: Problem, q: Problem)
    requires p != q
    ensures Message(p) != Message(q) && Message(p) != SignUpFailedMessage
  {
  }

  class Form {
    var email: string
    var userId: string
    var password: string
    var confirmPassword: string
    var fullName: string
    var error: string
    var isLoading: bool

    constructor ()
      ensures email == "" && userId == "" && password == "" && confirmPassword == "" && fullName == ""
      ensures error == "" && !isLoading
    {
      email, userId, password, confirmPassword, fullName := "", "", "", "", "";
      error, isLoading := "", false;
    }

    /** `handleSubmit`: clears the error, stops at the first failed check, otherwise
        signs up with the e-mail, password and full name (never the user ID); success
        navigates to the login page and any failure sets one generic message. */
    method HandleSubmit(auth: Auth.AuthResult) returns (request: Option<Auth.SignUpRequest>, navigateTo: Option<string>)
      modifies this
      ensures var v := Validate(old(userId), old(password), old(confirmPassword), old(email));
              && (v.Some? ==> request.None? && navigateTo.None? && error == Message(v.value) && isLoading == old(isLoading))
              && (v.None? ==> request == Some(Auth.SignUpRequest(old(email), old(password), old(fullName))) && !isLoading)
      ensures navigateTo.Some? <==> request.Some? && auth.AuthOk?
      ensures navigateTo.Some? ==> navigateTo.value == "/login" && error == ""
      ensures request.Some? && auth.AuthError? ==> error == SignUpFailedMessage
      ensures email == old(email) && userId == old(userId) && password == old(password)
      ensures confirmPassword == old(confirmPassword) && fullName == old(fullName)
    {
      error := "";
      var problem := Validate(userId, password, confirmPassword, email);
      if problem.Some? {
        error := Message(problem.value);
        return None, None;
      }
      isLoading := true;
      var result := Auth.SignUp(email, password, fullName, auth);
      request := Some(result.0);
      if result.1.SignedIn? {
        navigateTo := Some("/login");
      } else {
        error := SignUpFailedMessage;
        navigateTo := None;
      }
      isLoading := false;
    }
  }
}
