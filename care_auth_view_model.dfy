/** The sign-in screen's view model of CampusCare (viewmodel/AuthViewModel.kt):
    it collects the repository's flows and turns every emission into a
    screen state, so the state after an operation is the image of the
    flow's last emission. */
module CareAuth {
  import opened Wrappers
  import opened Text
  import opened Seqs
  import opened Model
  import Results
  import AuthRepo
  import Prefs

  datatype AuthState =
    | Idle
    | Loading
    | Authenticated(user: User)
    | Error(message: string)
    | PasswordResetSent(message: string)

  const ResetSentMessage: string := "Password reset email sent. Please check your inbox."

  /** The `when` over one emission of `login` or `register`; `fallback` is
      shown for an error whose message has already been consumed. */
  function UserState(r: Results.DataResult<User>, fallback: string): (s: AuthState)
    ensures s.Loading? <==> r.Loading?
    ensures s.Idle? <==> r.Idle?
    ensures s.Authenticated? <==> r.Success?
    ensures s.Authenticated? ==> s.user == r.data
    ensures s.Error? <==> r.Error?
    ensures r.Error? && !r.error.handled ==> s.message == r.error.content
    ensures r.Error? && r.error.handled ==> s.message == fallback
  {
    match r
    case Loading => Loading
    case Success(u) => Authenticated(u)
    case Error(e) => Error(e.GetContentIfNotHandled().GetOr(fallback))
    case Idle => Idle
  }

  /** The `when` over one emission of `resetPassword`. */
  function ResetState(r: Results.DataResult<()>): (s: AuthState)
    ensures s.PasswordResetSent? <==> r.Success?
    ensures s.PasswordResetSent? ==> s.message == ResetSentMessage
    ensures s.Error? <==> r.Error?
    ensures r.Error? && !r.error.handled ==> s.message == r.error.content
    ensures r.Error? && r.error.handled ==> s.message == "Failed to send reset email"
    ensures s.Loading? <==> r.Loading?
  {
    match r
    case Loading => Loading
    case Success(_) => PasswordResetSent(ResetSentMessage)
    case Error(e) => Error(e.GetContentIfNotHandled().GetOr("Failed to send reset email"))
    case Idle => Idle
  }

  /** The `when` over the emission of `getCurrentUser`. */
  function StatusState(r: Results.DataResult<User>): (s: AuthState)
    ensures s.Authenticated? <==> r.Success?
    ensures s.Authenticated? ==> s.user == r.data
    ensures !s.Authenticated? ==> s == Idle
  {
    if r.Success? then Authenticated(r.data) else Idle
  }

  /** The screen state a login ends in. The repository's errors are fresh,
      so the "Login failed" fallback is never what the screen shows. */
  function LoginOutcome(isDemoMode: bool, email: string, password: string,
                        backend: Results.Backend<AuthRepo.SignIn>): (s: AuthState)
    ensures var last := Last(AuthRepo.LoginFlow(isDemoMode, email, password, backend));
      && (s.Authenticated? <==> last.Success?)
      && (s.Authenticated? ==> s.user == last.data)
      && (s.Error? <==> last.Error?)
      && (s.Error? ==> s.message == last.error.content)
    ensures AuthRepo.LoginGuard(email, password).Some? ==> s == Error("Email and password cannot be empty")
    ensures !s.Loading? && !s.Idle? && !s.PasswordResetSent?
  {
    var emitted := AuthRepo.LoginFlow(isDemoMode, email, password, backend);
    assert emitted[|emitted| - 1].Error? ==> !emitted[|emitted| - 1].error.handled;
    UserState(Last(emitted), "Login failed")
  }

  /** The screen state a registration ends in: a password mismatch is
      reported before the repository is asked, and the repository's errors
      are shown as it words them. */
  function RegisterOutcome(name: string, email: string, password: string, confirmPassword: string,
                           department: string, backend: Results.Backend<Option<string>>): (s: AuthState)
    ensures password != confirmPassword ==> s == Error("Passwords do not match")
    ensures s.Authenticated? <==>
      password == confirmPassword && AuthRepo.RegisterGuard(name, email, password).None?
      && backend.Done? && backend.value.Some?
    ensures s.Authenticated? ==> s.user == AuthRepo.RegisteredUser(backend.value.value, name, email, department)
    ensures password == confirmPassword && AuthRepo.RegisterGuard(name, email, password).Some? ==>
      s == Error(AuthRepo.RegisterGuard(name, email, password).value)
    ensures password == confirmPassword && AuthRepo.RegisterGuard(name, email, password).None?
            && backend.Threw? ==>
      s == Error(AuthRepo.RegisterFailureMessage(backend.message))
    ensures password == confirmPassword && AuthRepo.RegisterGuard(name, email, password).None?
            && backend == Results.Done(None) ==>
      s == Error(AuthRepo.RegisterFailureMessage(Some("Failed to create user account")))
    ensures !s.Loading? && !s.Idle? && !s.PasswordResetSent?
  {
    if password != confirmPassword then Error("Passwords do not match")
    else
      var emitted := AuthRepo.RegisterFlow(name, email, password, department, backend);
      assert emitted[|emitted| - 1].Error? ==> !emitted[|emitted| - 1].error.handled;
      UserState(Last(emitted), "Registration failed")
  }

  /** The screen state a password reset ends in. */
  function ResetOutcome(email: string, backend: Results.Backend<()>): (s: AuthState)
    ensures s.PasswordResetSent? <==> !EmailRejected(email) && backend.Done?
    ensures EmailRejected(email) ==> s == Error("Invalid email address")
    ensures !EmailRejected(email) && backend.Threw? ==>
      s == Error(AuthRepo.ResetFailureMessage(backend.message))
  {
    var emitted := AuthRepo.ResetPasswordFlow(email, backend);
    ResetState(Last(emitted))
  }

  class AuthViewModel {
    var authState: AuthState
    const authRepository: AuthRepo.AuthRepositoryImpl

    ghost predicate Valid()
      reads authRepository.userPreference
    {
      authRepository.userPreference.Valid()
    }

    constructor (authRepository: AuthRepo.AuthRepositoryImpl)
      ensures authState == Idle && this.authRepository == authRepository
    {
      authState := Idle;
      this.authRepository := authRepository;
    }

    /** `collect`: every emission replaces the state, in order. */
    method Collect<T>(emitted: seq<Results.DataResult<T>>, f: Results.DataResult<T> -> AuthState)
      requires |emitted| > 0
      modifies this`authState
      ensures authState == f(Last(emitted))
    {
      for i := 0 to |emitted|
        invariant i > 0 ==> authState == f(emitted[i - 1])
      {
        authState := f(emitted[i]);
      }
    }

    /** `login`: the state ends as `LoginOutcome`; exactly when it ends
        authenticated the user's session has been saved. */
    method Login(email: string, password: string, backend: Results.Backend<AuthRepo.SignIn>)
      requires Valid()
      modifies this`authState, authRepository.userPreference
      ensures Valid()
      ensures authState == LoginOutcome(authRepository.isDemoMode, email, password, backend)
      ensures authState.Authenticated? ==>
        var u := authState.user;
        authRepository.userPreference.preferences == Prefs.SessionEdit(
          old(authRepository.userPreference.preferences),
          u.userId, u.name, u.email, u.role, u.department, u.profilePhotoUrl, true)
      ensures !authState.Authenticated? ==>
        authRepository.userPreference.preferences == old(authRepository.userPreference.preferences)
    {
      var emitted := authRepository.Login(email, password, backend);
      Collect(emitted, (r: Results.DataResult<User>) => UserState(r, "Login failed"));
    }

    /** `register`: a mismatch is reported without asking the repository;
        otherwise the state ends as the repository's last emission says, and
        a registered user's session has been saved. */
    method Register(name: string, email: string, password: string, confirmPassword: string,
                    department: string, backend: Results.Backend<Option<string>>)
      requires Valid()
      modifies this`authState, authRepository.userPreference
      ensures Valid()
      ensures authState == RegisterOutcome(name, email, password, confirmPassword, department, backend)
      ensures authState.Authenticated? ==>
        var u := authState.user;
        authRepository.userPreference.preferences == Prefs.SessionEdit(
          old(authRepository.userPreference.preferences),
          u.userId, u.name, u.email, u.role, u.department, u.profilePhotoUrl, true)
      ensures !authState.Authenticated? ==>
        authRepository.userPreference.preferences == old(authRepository.userPreference.preferences)
    {
      if password != confirmPassword {
        authState := Error("Passwords do not match");
        return;
      }
      var emitted := authRepository.Register(name, email, password, department, backend);
      Collect(emitted, (r: Results.DataResult<User>) => UserState(r, "Registration failed"));
    }

    /** `resetPassword` */
    method ResetPassword(email: string, backend: Results.Backend<()>)
      modifies this`authState
      ensures authState == ResetOutcome(email, backend)
    {
      Collect(AuthRepo.ResetPasswordFlow(email, backend), ResetState);
    }

    /** `logout`: whatever the repository emits, the screen returns to
        `Idle`; the session is blanked when signing out succeeds. */
    method Logout(backend: Results.Backend<()>)
      requires Valid()
      modifies this`authState, authRepository.userPreference
      ensures Valid()
      ensures authState == Idle
      ensures backend.Done? ==>
        authRepository.userPreference.preferences == Prefs.SessionEdit(
          old(authRepository.userPreference.preferences), "", "", "", "", "", "", false)
      ensures backend.Threw? ==>
        authRepository.userPreference.preferences == old(authRepository.userPreference.preferences)
    {
      var emitted := authRepository.Logout(backend);
      Collect(emitted, (r: Results.DataResult<()>) => Idle);
    }

    /** `clearError`: an error or a reset confirmation is dismissed. */
    method ClearError()
      modifies this`authState
      ensures old(authState).Error? || old(authState).PasswordResetSent? ==> authState == Idle
      ensures !(old(authState).Error? || old(authState).PasswordResetSent?) ==> authState == old(authState)
    {
      if authState.Error? || authState.PasswordResetSent? {
        authState := Idle;
      }
    }

    /** `checkLoginStatus`: authenticated exactly when a signed-in user's
        profile exists, and as that profile describes. */
    method CheckLoginStatus(fetch: AuthRepo.ProfileFetch)
      modifies this`authState
      ensures authState.Authenticated? <==> fetch.Fetched? && fetch.profile.Some?
      ensures authState.Authenticated? ==> authState.user == AuthRepo.UserFromDoc(fetch.profile.value)
      ensures !authState.Authenticated? ==> authState == Idle
    {
      Collect(AuthRepo.GetCurrentUserFlow(fetch), StatusState);
    }
  }
}
