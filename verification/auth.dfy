/** The authentication context: sign-in by e-mail, handle or NIK, sign-up, and the
    provider's `user`/`loading` state. Every call into the authentication service or
    the users table is an input: the outcome it returned. */
module Auth {
  import opened Common
  import EmailPattern

  /** Session user metadata: `full_name` and `language_preference`. */
  datatype Metadata = Metadata(fullName: Option<string>, languagePreference: Option<string>)

  /** The signed-in user the authentication service reports. */
  datatype User = User(id: string, email: Option<string>, metadata: Metadata)

  datatype Session = Session(user: User)

  /** What the authentication service answered: `{ error }` empty, or an error. */
  datatype AuthResult = AuthOk | AuthError(message: string)

  /** What `from("users").select("email").or(...).single()` returned: an error, or the
      e-mails of the rows the filter selected (`single` insists on exactly one). */
  datatype LookupResult = LookupFailed | LookupRows(emails: seq<string>)

  /** The backend calls sign-in makes, in order. */
  datatype Call =
    | FindUserByHandleOrNik(token: string)        // users where custom_user_id = token or nik = token
    | PasswordSignIn(email: string, password: string)

  datatype Outcome = SignedIn | Failed(message: string)

  datatype SignInRun = SignInRun(calls: seq<Call>, outcome: Outcome)

  const UserNotFound := "User not found with provided credentials"

  /** A login token is taken for an e-mail address when it contains '@'. */
  predicate IsEmailToken(token: string)
    ensures EmailPattern.Accepts(token) ==> IsEmailToken(token)
  {
    '@' in token
  }

  /** The 16-digit test `/^\d{16}$/` that sign-in computes and never consults. */
  predicate IsNik(token: string)
    ensures IsNik(token) ==> !IsEmailToken(token)
  {
    |token| == 16 && forall i :: 0 <= i < 16 ==> IsDigit(token[i])
  }

  /** `.single()` succeeds only when exactly one row matched. */
  predicate SingleRow(lookup: LookupResult) {
    lookup.LookupRows? && |lookup.emails| == 1
  }

  /** `signIn(loginField, password)`: an e-mail token goes straight to password sign-in;
      any other token is first resolved to the one matching user's e-mail. */
  function SignIn(token: string, password: string, lookup: LookupResult, auth: AuthResult): (r: SignInRun)
    // an e-mail token is used verbatim and nothing is looked up
    ensures IsEmailToken(token) ==> r.calls == [PasswordSignIn(token, password)]
    // any other token is only ever looked up, never used as an e-mail
    ensures !IsEmailToken(token) ==> |r.calls| >= 1 && r.calls[0] == FindUserByHandleOrNik(token)
    ensures !IsEmailToken(token) && SingleRow(lookup) ==>
              r.calls[1..] == [PasswordSignIn(lookup.emails[0], password)]
    // no row, several rows or a failed query: fail before any password check
    ensures !IsEmailToken(token) && !SingleRow(lookup) ==>
              r.calls == [FindUserByHandleOrNik(token)] && r.outcome == Failed(UserNotFound)
    // the password is checked exactly once when a check happens, and its error is rethrown
    ensures (IsEmailToken(token) || SingleRow(lookup)) ==>
              r.calls[|r.calls| - 1].PasswordSignIn? && r.calls[|r.calls| - 1].password == password
              && (r.outcome == if auth.AuthOk? then SignedIn else Failed(auth.message))
  {
    if IsEmailToken(token) then
      SignInRun([PasswordSignIn(token, password)], if auth.AuthOk? then SignedIn else Failed(auth.message))
    else
      var _ := IsNik(token);  // computed by the source, never used
      if !SingleRow(lookup) then
        SignInRun([FindUserByHandleOrNik(token)], Failed(UserNotFound))
      else
        SignInRun([FindUserByHandleOrNik(token), PasswordSignIn(lookup.emails[0], password)],
                  if auth.AuthOk? then SignedIn else Failed(auth.message))
  }

  /** A 16-digit NIK and a short handle take the same path: with the same lookup and
      sign-in answers they make the same calls, up to the token, and end the same way. */
  lemma NikAndHandleTakeSamePath(nik: string, handle: string, password: string,
                                 lookup: LookupResult, auth: AuthResult)
    requires IsNik(nik) && !IsNik(handle) && !IsEmailToken(handle)
    ensures !IsEmailToken(nik)
    ensures SignIn(nik, password, lookup, auth).outcome == SignIn(handle, password, lookup, auth).outcome
    ensures SignIn(nik, password, lookup, auth).calls[1..] == SignIn(handle, password, lookup, auth).calls[1..]
  {
    assert forall i :: 0 <= i < |nik| ==> nik[i] != '@';
  }

  /** A handle that matches exactly one user signs in with that user's e-mail. */
  lemma HandleResolvesToItsEmail(handle: string, email: string, password: string)
    requires !IsEmailToken(handle)
    ensures SignIn(handle, password, LookupRows([email]), AuthOk)
            == SignInRun([FindUserByHandleOrNik(handle), PasswordSignIn(email, password)], SignedIn)
  {
  }

  /** The sign-up request: e-mail and password as given, the name as `full_name`. */
  datatype SignUpRequest = SignUpRequest(email: string, password: string, fullName: string)

  /** `signUp(email, password, fullName)`: one sign-up call; its error is rethrown. */
  function SignUp(email: string, password: string, fullName: string, auth: AuthResult): (r: (SignUpRequest, Outcome))
    ensures r.0.email == email && r.0.password == password && r.0.fullName == fullName
    ensures r.1.SignedIn? <==> auth.AuthOk?
    ensures auth.AuthError? ==> r.1 == Failed(auth.message)
  {
    (SignUpRequest(email, password, fullName), if auth.AuthOk? then SignedIn else Failed(auth.message))
  }

  /** `AuthProvider`: the current user and whether the first session check is pending. */
  class AuthProvider {
    var user: Option<User>
    var loading: bool

    constructor ()
      ensures user == None && loading
    {
      user := None;
      loading := true;
    }

    /** Both the initial `getSession` answer and every `onAuthStateChange` event land
        here: the user becomes the session's user (or none) and loading ends. */
    method OnSession(session: Option<Session>)
      modifies this
      ensures user == (if session.Some? then Some(session.value.user) else None)
      ensures !loading
    {
      user := if session.Some? then Some(session.value.user) else None;
      loading := false;
    }
  }
}
