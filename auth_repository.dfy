/** The authentication repository (AuthRepository.kt). Each operation is a
    flow of results: input guards that answer with a single error before any
    backend call, then `Loading`, then the outcome of the backend call mapped
    to a user or to a user-facing message. The backend calls are inputs
    (`Backend` values); a successful register or login also saves the
    session in the local store. */
module AuthRepo {
  import opened Wrappers
  import opened Text
  import opened Seqs
  import opened Model
  import opened Results
  import Prefs

  const FirebaseNotConfigured: string :=
    "Firebase not configured. Please add valid google-services.json file. See FIREBASE_SETUP.md"
  const NetworkError: string := "Network error. Please check your connection"
  const InvalidCredentials: string := "Invalid email or password"

  // ---------------------------------------------------------------- guards

  /** The e-mail guard of `register` and `resetPassword`. */
  function EmailGuard(email: string): (err: Option<string>)
    ensures err.Some? <==> EmailRejected(email)
    ensures err.Some? ==> err.value == "Invalid email address"
  {
    if EmailRejected(email) then Some("Invalid email address") else None
  }

  /** The guards of `register`, in order: name, e-mail, password length. */
  function RegisterGuard(name: string, email: string, password: string): (err: Option<string>)
    ensures IsBlank(name) ==> err == Some("Name cannot be empty")
    ensures !IsBlank(name) && EmailRejected(email) ==> err == Some("Invalid email address")
    ensures !IsBlank(name) && !EmailRejected(email) && Utf16Length(password) < 6 ==>
      err == Some("Password must be at least 6 characters")
    ensures err.None? <==> !IsBlank(name) && !EmailRejected(email) && Utf16Length(password) >= 6
  {
    if IsBlank(name) then Some("Name cannot be empty")
    else if EmailGuard(email).Some? then EmailGuard(email)
    else if Utf16Length(password) < 6 then Some("Password must be at least 6 characters")
    else None
  }

  /** The guard of `login`: both fields must be non-blank. */
  function LoginGuard(email: string, password: string): (err: Option<string>)
    ensures err.Some? <==> IsBlank(email) || IsBlank(password)
    ensures err.Some? ==> err.value == "Email and password cannot be empty"
  {
    if IsBlank(email) || IsBlank(password) then Some("Email and password cannot be empty") else None
  }

  /** Once the name and the password pass, registration rejects exactly the
      e-mail addresses that password reset rejects, with the same message. */
  lemma RegisterAndResetShareEmailGuard(name: string, email: string, password: string)
    requires !IsBlank(name) && Utf16Length(password) >= 6
    ensures RegisterGuard(name, email, password) == EmailGuard(email)
  {
  }

  /** The length rule counts UTF-16 units: three emoji make a password of
      six. */
  lemma SupplementaryCharactersCountTwice()
    ensures Utf16Length("\U{1F600}\U{1F600}\U{1F600}") == 6
    ensures RegisterGuard("Ann", "ann@campus.edu", "\U{1F600}\U{1F600}\U{1F600}") == None
  {
    var p := "\U{1F600}\U{1F600}\U{1F600}";
    assert p[1..][1..][1..] == [];
    assert !IsBlank("Ann") by { assert !IsWhitespace("Ann"[0]); }
    var e := "ann@campus.edu";
    assert OccursAt(e, "@", 3) by { assert e[3..4] == "@"; }
    assert !IsBlank(e) by { assert !IsWhitespace(e[0]); }
    assert !EmailRejected(e);
  }

  // --------------------------------------------------------- error mapping

  predicate MessageHas(m: Option<string>, fragment: string) {
    m.Some? && Contains(m.value, fragment)
  }

  predicate ApiKeyRejected(m: Option<string>) {
    MessageHas(m, "API key not valid") || MessageHas(m, "INVALID_API_KEY")
  }

  /** The message shown for an exception during registration. */
  function RegisterFailureMessage(m: Option<string>): (r: string)
    ensures ApiKeyRejected(m) ==> r == FirebaseNotConfigured
    ensures !ApiKeyRejected(m) && MessageHas(m, "email address is already in use") ==>
      r == "This email is already registered"
    ensures (!ApiKeyRejected(m) && !MessageHas(m, "email address is already in use")
             && MessageHas(m, "network")) ==> r == NetworkError
    ensures (!ApiKeyRejected(m) && !MessageHas(m, "email address is already in use")
             && !MessageHas(m, "network")) ==> r == "Registration failed: " + MessageText(m)
  {
    if ApiKeyRejected(m) then FirebaseNotConfigured
    else if MessageHas(m, "email address is already in use") then "This email is already registered"
    else if MessageHas(m, "network") then NetworkError
    else "Registration failed: " + MessageText(m)
  }

  /** The message shown for an exception during login. */
  function LoginFailureMessage(m: Option<string>): (r: string)
    ensures ApiKeyRejected(m) ==> r == FirebaseNotConfigured
    ensures !ApiKeyRejected(m) && (MessageHas(m, "no user record") || MessageHas(m, "password is invalid")) ==>
      r == InvalidCredentials
    ensures (!ApiKeyRejected(m) && !MessageHas(m, "no user record") && !MessageHas(m, "password is invalid")
             && MessageHas(m, "network")) ==> r == NetworkError
    ensures (!ApiKeyRejected(m) && !MessageHas(m, "no user record") && !MessageHas(m, "password is invalid")
             && !MessageHas(m, "network")) ==> r == "Login failed: " + MessageText(m)
  {
    if ApiKeyRejected(m) then FirebaseNotConfigured
    else if MessageHas(m, "no user record") || MessageHas(m, "password is invalid") then InvalidCredentials
    else if MessageHas(m, "network") then NetworkError
    else "Login failed: " + MessageText(m)
  }

  /** The message shown for an exception while sending a reset e-mail; this
      mapping has no API-key case. */
  function ResetFailureMessage(m: Option<string>): (r: string)
    ensures MessageHas(m, "no user record") ==> r == "No account found with this email"
    ensures !MessageHas(m, "no user record") && MessageHas(m, "network") ==> r == NetworkError
    ensures !MessageHas(m, "no user record") && !MessageHas(m, "network") ==>
      r == "Failed to send reset email: " + MessageText(m)
  {
    if MessageHas(m, "no user record") then "No account found with this email"
    else if MessageHas(m, "network") then NetworkError
    else "Failed to send reset email: " + MessageText(m)
  }

  // ----------------------------------------------------------------- users

  /** A Firestore user document's string fields. */
  type Doc = map<string, string>

  /** `getString(field) ?: default` */
  function Field(doc: Doc, field: string, default: string): string {
    if field in doc then doc[field] else default
  }

  /** The user a profile document describes: a missing field reads as "",
      except a missing role, which reads as "STUDENT". */
  function UserFromDoc(doc: Doc): (u: User)
    ensures "role" !in doc ==> u.role == "STUDENT"
    ensures "role" in doc ==> u.role == doc["role"]
    ensures u.userId == Field(doc, "userId", "") && u.name == Field(doc, "name", "")
    ensures u.email == Field(doc, "email", "") && u.department == Field(doc, "department", "")
    ensures u.profilePhotoUrl == Field(doc, "profilePhotoUrl", "")
  {
    User(Field(doc, "userId", ""), Field(doc, "name", ""), Field(doc, "email", ""),
         Field(doc, "role", "STUDENT"), Field(doc, "department", ""), Field(doc, "profilePhotoUrl", ""))
  }

  /** A newly registered account is always a student's, without a photo. */
  function RegisteredUser(uid: string, name: string, email: string, department: string): (u: User)
    ensures u.role == "STUDENT" && u.profilePhotoUrl == ""
    ensures u.userId == uid && u.name == name && u.email == email && u.department == department
  {
    User(uid, name, email, "STUDENT", department, "")
  }

  // ------------------------------------------------------------ demo login

  datatype DemoUser = DemoUser(password: string, name: string, role: string, department: string)

  const DemoAccounts: map<string, DemoUser> := map[
    "student@campus.edu" := DemoUser("student123", "Student User", "STUDENT", "Computer Science"),
    "admin@campus.edu" := DemoUser("admin123", "Admin User", "ADMIN", "Administration"),
    "cc_admin@gmail.com" := DemoUser("admin123", "Admin User", "ADMIN", "Administration"),
    "staff@campus.edu" := DemoUser("staff123", "Staff Member", "STAFF", "Facilities")]

  /** The demo-mode credential check: the account is looked up by the
      lower-cased e-mail, the user keeps the e-mail as typed, and its id is
      derived from the role. */
  function DemoLogin(accounts: map<string, DemoUser>, email: string, password: string): (r: Result<User, string>)
    ensures r.Ok? <==> Lower(email) in accounts && accounts[Lower(email)].password == password
    ensures r.Err? ==> r.error == InvalidCredentials
    ensures r.Ok? ==>
      var d := accounts[Lower(email)];
      && r.value.userId == "demo_" + Lower(d.role) + "_001"
      && r.value.name == d.name && r.value.email == email && r.value.role == d.role
      && r.value.department == d.department && r.value.profilePhotoUrl == ""
  {
    var key := Lower(email);
    if key !in accounts || accounts[key].password != password then Err(InvalidCredentials)
    else
      var d := accounts[key];
      Ok(User("demo_" + Lower(d.role) + "_001", d.name, email, d.role, d.department, ""))
  }

  /** The demo lookup ignores the case of the e-mail. */
  lemma DemoLoginIgnoresEmailCase(accounts: map<string, DemoUser>, e1: string, e2: string, password: string)
    requires Lower(e1) == Lower(e2)
    ensures DemoLogin(accounts, e1, password).Ok? == DemoLogin(accounts, e2, password).Ok?
    ensures DemoLogin(accounts, e1, password).Ok? ==>
      DemoLogin(accounts, e1, password).value.userId == DemoLogin(accounts, e2, password).value.userId
  {
  }

  // ----------------------------------------------------------------- flows

  /** What `signInWithEmailAndPassword` and the profile read return: the
      signed-in uid (`None` when the SDK returns no user) and the profile
      document (`None` when it does not exist). */
  datatype SignIn = SignIn(uid: Option<string>, profile: Option<Doc>)

  /** What `getCurrentUser` finds: nobody signed in, a failed read, or the
      profile document (`None` when it does not exist). */
  datatype ProfileFetch = NoUser | FetchThrew(message: Option<string>) | Fetched(profile: Option<Doc>)

  function Fail<T>(message: string): DataResult<T> {
    DataResult.Error(NewEvent(message))
  }

  /** The results `register` emits. `backend` is account creation plus the
      profile write: the new uid (`None` when the SDK returns no user), or
      the exception. */
  function RegisterFlow(name: string, email: string, password: string, department: string,
                        backend: Backend<Option<string>>): (emitted: seq<DataResult<User>>)
    ensures |emitted| >= 1
    ensures RegisterGuard(name, email, password).Some? ==>
      emitted == [Fail(RegisterGuard(name, email, password).value)]
    ensures RegisterGuard(name, email, password).None? ==> |emitted| == 2 && emitted[0] == Loading
    ensures Last(emitted).Success? <==>
      RegisterGuard(name, email, password).None? && backend.Done? && backend.value.Some?
    ensures Last(emitted).Success? ==>
      Last(emitted).data == RegisteredUser(backend.value.value, name, email, department)
    ensures RegisterGuard(name, email, password).None? && backend.Threw? ==>
      Last(emitted) == Fail(RegisterFailureMessage(backend.message))
    ensures RegisterGuard(name, email, password).None? && backend == Done(None) ==>
      Last(emitted) == Fail(RegisterFailureMessage(Some("Failed to create user account")))
    ensures forall k :: 0 <= k < |emitted| && emitted[k].Error? ==> !emitted[k].error.handled
  {
    var guard := RegisterGuard(name, email, password);
    if guard.Some? then [Fail(guard.value)]
    else
      [Loading] +
      match backend
      case Done(Some(uid)) => [Success(RegisteredUser(uid, name, email, department))]
      case Done(None) => [Fail(RegisterFailureMessage(Some("Failed to create user account")))]
      case Threw(m) => [Fail(RegisterFailureMessage(m))]
  }

  /** The results `login` emits. In demo mode the account table decides and
      the backend is not consulted. */
  function LoginFlow(isDemoMode: bool, email: string, password: string,
                     backend: Backend<SignIn>): (emitted: seq<DataResult<User>>)
    ensures |emitted| >= 1
    ensures LoginGuard(email, password).Some? ==>
      emitted == [Fail("Email and password cannot be empty")]
    ensures LoginGuard(email, password).None? ==> |emitted| == 2 && emitted[0] == Loading
    ensures LoginGuard(email, password).None? && isDemoMode ==>
      match DemoLogin(DemoAccounts, email, password)
      case Ok(u) => Last(emitted) == Success(u)
      case Err(m) => Last(emitted) == Fail(m)
    ensures LoginGuard(email, password).None? && !isDemoMode ==>
      (Last(emitted).Success? <==> backend.Done? && backend.value.uid.Some? && backend.value.profile.Some?)
    ensures Last(emitted).Success? && !isDemoMode ==>
      Last(emitted).data == UserFromDoc(backend.value.profile.value)
    ensures LoginGuard(email, password).None? && !isDemoMode && backend.Threw? ==>
      Last(emitted) == Fail(LoginFailureMessage(backend.message))
    ensures LoginGuard(email, password).None? && !isDemoMode && backend.Done? && backend.value.uid.None? ==>
      Last(emitted) == Fail(LoginFailureMessage(Some("Login failed")))
    ensures LoginGuard(email, password).None? && !isDemoMode && backend.Done? && backend.value.uid.Some?
            && backend.value.profile.None? ==>
      Last(emitted) == Fail(LoginFailureMessage(Some("User profile not found")))
    ensures forall k :: 0 <= k < |emitted| && emitted[k].Error? ==> !emitted[k].error.handled
  {
    if LoginGuard(email, password).Some? then [Fail("Email and password cannot be empty")]
    else if isDemoMode then
      [Loading] +
      match DemoLogin(DemoAccounts, email, password)
      case Ok(u) => [Success(u)]
      case Err(m) => [Fail(m)]
    else
      [Loading] +
      match backend
      case Done(SignIn(None, _)) => [Fail(LoginFailureMessage(Some("Login failed")))]
      case Done(SignIn(Some(_), None)) => [Fail(LoginFailureMessage(Some("User profile not found")))]
      case Done(SignIn(Some(_), Some(doc))) => [Success(UserFromDoc(doc))]
      case Threw(m) => [Fail(LoginFailureMessage(m))]
  }

  /** The results `logout` emits; `backend` is signing out of the SDK and
      clearing the session. */
  function LogoutFlow(backend: Backend<()>): (emitted: seq<DataResult<()>>)
    ensures |emitted| == 1
    ensures emitted[0].Success? <==> backend.Done?
    ensures backend.Threw? ==> emitted[0] == Fail("Logout failed: " + MessageText(backend.message))
  {
    match backend
    case Done(_) => [Success(())]
    case Threw(m) => [Fail("Logout failed: " + MessageText(m))]
  }

  /** The results `resetPassword` emits; `backend` is sending the e-mail. */
  function ResetPasswordFlow(email: string, backend: Backend<()>): (emitted: seq<DataResult<()>>)
    ensures |emitted| >= 1
    ensures EmailRejected(email) ==> emitted == [Fail("Invalid email address")]
    ensures !EmailRejected(email) ==> |emitted| == 2 && emitted[0] == Loading
    ensures Last(emitted).Success? <==> !EmailRejected(email) && backend.Done?
    ensures !EmailRejected(email) && backend.Threw? ==> Last(emitted) == Fail(ResetFailureMessage(backend.message))
  {
    match EmailGuard(email)
    case Some(err) => [Fail(err)]
    case None =>
      [Loading] +
      match backend
      case Done(_) => [Success(())]
      case Threw(m) => [Fail(ResetFailureMessage(m))]
  }

  /** The results `getCurrentUser` emits: never `Loading`, one result. */
  function GetCurrentUserFlow(fetch: ProfileFetch): (emitted: seq<DataResult<User>>)
    ensures |emitted| == 1
    ensures fetch.NoUser? ==> emitted == [Fail("No user logged in")]
    ensures emitted[0].Success? <==> fetch.Fetched? && fetch.profile.Some?
    ensures emitted[0].Success? ==> emitted[0].data == UserFromDoc(fetch.profile.value)
    ensures fetch == Fetched(None) ==> emitted == [Fail("User profile not found")]
    ensures fetch.FetchThrew? ==> emitted == [Fail("Failed to get user: " + MessageText(fetch.message))]
    ensures !emitted[0].Loading? && !emitted[0].Idle?
  {
    match fetch
    case NoUser => [Fail("No user logged in")]
    case FetchThrew(m) => [Fail("Failed to get user: " + MessageText(m))]
    case Fetched(None) => [Fail("User profile not found")]
    case Fetched(Some(doc)) => [Success(UserFromDoc(doc))]
  }

  /** The repository with its session store. `isDemoMode` is a fixed
      configuration of the repository. */
  class AuthRepositoryImpl {
    const userPreference: Prefs.UserPreference
    const isDemoMode: bool

    constructor (userPreference: Prefs.UserPreference, isDemoMode: bool)
      ensures this.userPreference == userPreference && this.isDemoMode == isDemoMode
    {
      this.userPreference := userPreference;
      this.isDemoMode := isDemoMode;
    }

    method SaveSession(u: User)
      requires userPreference.Valid()
      modifies userPreference
      ensures userPreference.Valid()
      ensures userPreference.preferences == Prefs.SessionEdit(old(userPreference.preferences),
        u.userId, u.name, u.email, u.role, u.department, u.profilePhotoUrl, true)
    {
      userPreference.SaveUserSession(u.userId, u.name, u.email, u.role, u.department, u.profilePhotoUrl);
    }

    /** `register`: emits `RegisterFlow`; a registered user's session is
        saved, and nothing is saved otherwise. */
    method Register(name: string, email: string, password: string, department: string,
                    backend: Backend<Option<string>>) returns (emitted: seq<DataResult<User>>)
      requires userPreference.Valid()
      modifies userPreference
      ensures userPreference.Valid()
      ensures emitted == RegisterFlow(name, email, password, department, backend)
      ensures Last(emitted).Success? ==>
        var u := Last(emitted).data;
        userPreference.preferences == Prefs.SessionEdit(old(userPreference.preferences),
          u.userId, u.name, u.email, u.role, u.department, u.profilePhotoUrl, true)
      ensures !Last(emitted).Success? ==> userPreference.preferences == old(userPreference.preferences)
    {
      emitted := RegisterFlow(name, email, password, department, backend);
      if Last(emitted).Success? {
        SaveSession(Last(emitted).data);
      }
    }

    /** `login`: emits `LoginFlow`; a signed-in user's session is saved,
        and nothing is saved otherwise. */
    method Login(email: string, password: string, backend: Backend<SignIn>)
      returns (emitted: seq<DataResult<User>>)
      requires userPreference.Valid()
      modifies userPreference
      ensures userPreference.Valid()
      ensures emitted == LoginFlow(isDemoMode, email, password, backend)
      ensures Last(emitted).Success? ==>
        var u := Last(emitted).data;
        userPreference.preferences == Prefs.SessionEdit(old(userPreference.preferences),
          u.userId, u.name, u.email, u.role, u.department, u.profilePhotoUrl, true)
      ensures !Last(emitted).Success? ==> userPreference.preferences == old(userPreference.preferences)
    {
      emitted := LoginFlow(isDemoMode, email, password, backend);
      if Last(emitted).Success? {
        SaveSession(Last(emitted).data);
      }
    }

    /** `logout`: when signing out succeeds the session is blanked. */
    method Logout(backend: Backend<()>) returns (emitted: seq<DataResult<()>>)
      requires userPreference.Valid()
      modifies userPreference
      ensures userPreference.Valid()
      ensures emitted == LogoutFlow(backend)
      ensures backend.Done? ==>
        userPreference.preferences == Prefs.SessionEdit(old(userPreference.preferences), "", "", "", "", "", "", false)
      ensures backend.Threw? ==> userPreference.preferences == old(userPreference.preferences)
    {
      emitted := LogoutFlow(backend);
      if backend.Done? {
        userPreference.Logout();
      }
    }
  }
}
