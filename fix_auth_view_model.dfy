/** The sign-in view model of the CampusFix copy of the app
    (campusfix/viewmodel/AuthViewModel.kt): no backend, a fixed table of
    accounts, and every operation that takes time shows `Loading` first and
    then its outcome. */
module FixAuth {
  import opened Wrappers
  import opened Text
  import AuthRepo
  import CareAuth
  import Results

  datatype UserRole = STUDENT | ADMIN

  datatype AuthState =
    | Idle
    | Loading
    | Authenticated(userRole: UserRole, userName: string)
    | Error(message: string)

  const HardcodedStudents: map<string, string> :=
    map["student@campus.edu" := "student123", "john@campus.edu" := "password"]
  const HardcodedAdmins: map<string, string> := map["admin@campus.edu" := "admin123"]

  /** `accounts[email] == password`: an unknown e-mail reads as null, which
      equals no password. The e-mail is compared exactly as typed. */
  predicate Matches(accounts: map<string, string>, email: string, password: string) {
    email in accounts && accounts[email] == password
  }

  /** The display name of a student: the part of the e-mail before `@`,
      first letter upper-cased. */
  function StudentName(email: string): (name: string)
    ensures '@' !in name
    ensures |name| <= |email|
    ensures name != [] ==> name[0] == UpperChar(email[0])
  {
    Capitalize(SubstringBeforeAt(email))
  }

  /** Where `login` ends. */
  function LoginDecision(email: string, password: string, isAdminLogin: bool): (s: AuthState)
    ensures s.Authenticated? <==>
      Matches(if isAdminLogin then HardcodedAdmins else HardcodedStudents, email, password)
    ensures s.Authenticated? && isAdminLogin ==> s == Authenticated(ADMIN, "Administrator")
    ensures s.Authenticated? && !isAdminLogin ==> s == Authenticated(STUDENT, StudentName(email))
    ensures !s.Authenticated? ==>
      s == Error(if isAdminLogin then "Invalid admin credentials" else "Invalid email or password")
  {
    if isAdminLogin then
      if Matches(HardcodedAdmins, email, password) then Authenticated(ADMIN, "Administrator")
      else Error("Invalid admin credentials")
    else if Matches(HardcodedStudents, email, password) then Authenticated(STUDENT, StudentName(email))
    else Error("Invalid email or password")
  }

  /** Where `register` ends: the checks run in the order name, e-mail,
      password length, confirmation. The first three are exactly the
      CampusCare repository's guards. */
  function RegisterDecision(name: string, email: string, password: string, confirmPassword: string): (s: AuthState)
    ensures AuthRepo.RegisterGuard(name, email, password).Some? ==>
      s == Error(AuthRepo.RegisterGuard(name, email, password).value)
    ensures AuthRepo.RegisterGuard(name, email, password).None? && password != confirmPassword ==>
      s == Error("Passwords do not match")
    ensures s.Authenticated? <==> AuthRepo.RegisterGuard(name, email, password).None? && password == confirmPassword
    ensures s.Authenticated? ==> s == Authenticated(STUDENT, name)
  {
    if IsBlank(name) then Error("Name cannot be empty")
    else if IsBlank(email) || !Contains(email, "@") then Error("Invalid email address")
    else if Utf16Length(password) < 6 then Error("Password must be at least 6 characters")
    else if password != confirmPassword then Error("Passwords do not match")
    else Authenticated(STUDENT, name)
  }

  /** Where `resetPassword` ends: nothing is sent; a rejected address is an
      error and any other returns to `Idle`, exactly as the CampusCare
      repository's e-mail guard decides. */
  function ResetDecision(email: string): (s: AuthState)
    ensures s.Error? <==> AuthRepo.EmailGuard(email).Some?
    ensures s.Error? ==> s.message == AuthRepo.EmailGuard(email).value
    ensures !s.Error? ==> s == Idle
  {
    if IsBlank(email) || !Contains(email, "@") then Error("Invalid email address") else Idle
  }

  /** The second demo student signs in under the capitalised local part of
      the address. */
  lemma JohnSignsInAsJohn()
    ensures LoginDecision("john@campus.edu", "password", false) == Authenticated(STUDENT, "John")
  {
    var e := "john@campus.edu";
    assert e[4] == '@';
    assert SubstringBeforeAt(e) == "john" by {
      assert e[1..][1..][1..][1..] == "@campus.edu";
      assert SubstringBeforeAt(e[1..][1..][1..][1..]) == [];
    }
    assert UpperChar('j') == 'J';
  }

  /** Unlike the CampusCare demo table, the lookup does not fold case: the
      same account typed with a capital letter is refused. */
  lemma StudentLookupIsCaseSensitive()
    ensures LoginDecision("John@campus.edu", "password", false) == Error("Invalid email or password")
    ensures LoginDecision("admin@campus.edu", "admin123", false).Error?
  {
    assert "John@campus.edu" != "john@campus.edu";
    assert "John@campus.edu" != "student@campus.edu";
    assert "admin@campus.edu" != "john@campus.edu";
    assert "admin@campus.edu" != "student@campus.edu";
  }

  /** The two copies order the confirmation check differently: with a blank
      name and differing passwords, CampusFix reports the name and CampusCare
      reports the mismatch. */
  lemma ConfirmationCheckedInDifferentOrder(email: string, department: string,
                                            backend: Results.Backend<Option<string>>)
    ensures RegisterDecision("", email, "secret1", "secret2") == Error("Name cannot be empty")
    ensures CareAuth.RegisterOutcome("", email, "secret1", "secret2", department, backend)
            == CareAuth.Error("Passwords do not match")
  {
    assert IsBlank("");
  }

  class AuthViewModel {
    var authState: AuthState

    constructor ()
      ensures authState == Idle
    {
      authState := Idle;
    }

    /** `login`: the observed states are `Loading`, then the decision. */
    method Login(email: string, password: string, isAdminLogin: bool) returns (observed: seq<AuthState>)
      modifies this
      ensures authState == LoginDecision(email, password, isAdminLogin)
      ensures observed == [Loading, authState]
    {
      authState := Loading;
      observed := [authState];
      if isAdminLogin {
        if email in HardcodedAdmins && HardcodedAdmins[email] == password {
          authState := Authenticated(ADMIN, "Administrator");
        } else {
          authState := Error("Invalid admin credentials");
        }
      } else {
        if email in HardcodedStudents && HardcodedStudents[email] == password {
          var userName := Capitalize(SubstringBeforeAt(email));
          authState := Authenticated(STUDENT, userName);
        } else {
          authState := Error("Invalid email or password");
        }
      }
      observed := observed + [authState];
    }

    /** `register`: the observed states are `Loading`, then the decision. */
    method Register(name: string, email: string, password: string, confirmPassword: string)
      returns (observed: seq<AuthState>)
      modifies this
      ensures authState == RegisterDecision(name, email, password, confirmPassword)
      ensures observed == [Loading, authState]
    {
      authState := Loading;
      observed := [authState];
      if IsBlank(name) {
        authState := Error("Name cannot be empty");
      } else if IsBlank(email) || !Contains(email, "@") {
        authState := Error("Invalid email address");
      } else if Utf16Length(password) < 6 {
        authState := Error("Password must be at least 6 characters");
      } else if password != confirmPassword {
        authState := Error("Passwords do not match");
      } else {
        authState := Authenticated(STUDENT, name);
      }
      observed := observed + [authState];
    }

    /** `resetPassword`: the observed states are `Loading`, then the decision. */
    method ResetPassword(email: string) returns (observed: seq<AuthState>)
      modifies this
      ensures authState == ResetDecision(email)
      ensures observed == [Loading, authState]
    {
      authState := Loading;
      observed := [authState];
      if IsBlank(email) || !Contains(email, "@") {
        authState := Error("Invalid email address");
      } else {
        authState := Idle;
      }
      observed := observed + [authState];
    }

    /** `logout` */
    method Logout()
      modifies this
      ensures authState == Idle
    {
      authState := Idle;
    }

    /** `clearError`: only an error is dismissed. */
    method ClearError()
      modifies this
      ensures old(authState).Error? ==> authState == Idle
      ensures !old(authState).Error? ==> authState == old(authState)
    {
      if authState.Error? {
        authState := Idle;
      }
    }
  }
}
