/** The local session store (UserPreference.kt): a preferences map that
    `SaveUserSession`, the individual setters and `Logout` edit in place, and
    that the readers consult with defaults. */
module Prefs {
  import opened Wrappers

  /** A stored preference: a string or a boolean. */
  datatype PrefValue = StringValue(s: string) | BooleanValue(b: bool)

  /** The store's keys; `Name` is the key's name on disk. */
  datatype PrefKey =
    | UserIdKey | UserNameKey | UserEmailKey | UserRoleKey | UserDepartmentKey | ProfilePhotoUrlKey
    | IsLoggedInKey | FirstLaunchKey
  {
    function Name(): string {
      match this
      case UserIdKey => "user_id"
      case UserNameKey => "user_name"
      case UserEmailKey => "user_email"
      case UserRoleKey => "user_role"
      case UserDepartmentKey => "user_department"
      case ProfilePhotoUrlKey => "profile_photo_url"
      case IsLoggedInKey => "is_logged_in"
      case FirstLaunchKey => "first_launch"
    }

    predicate IsStringKey() {
      !IsLoggedInKey? && !FirstLaunchKey?
    }
  }

  const StringKeys: set<PrefKey> :=
    {UserIdKey, UserNameKey, UserEmailKey, UserRoleKey, UserDepartmentKey, ProfilePhotoUrlKey}

  /** Every key holds a value of its declared type. */
  ghost predicate WellTyped(m: map<PrefKey, PrefValue>) {
    forall k :: k in m ==> (k.IsStringKey() <==> m[k].StringValue?)
  }

  /** The edit that both `saveUserSession` and `logout` make: write the six
      session strings and the logged-in flag. */
  function SessionEdit(m: map<PrefKey, PrefValue>, userId: string, userName: string,
                       userEmail: string, userRole: string, department: string,
                       profilePhotoUrl: string, loggedIn: bool): map<PrefKey, PrefValue>
  {
    m[UserIdKey := StringValue(userId)]
     [UserNameKey := StringValue(userName)]
     [UserEmailKey := StringValue(userEmail)]
     [UserRoleKey := StringValue(userRole)]
     [UserDepartmentKey := StringValue(department)]
     [ProfilePhotoUrlKey := StringValue(profilePhotoUrl)]
     [IsLoggedInKey := BooleanValue(loggedIn)]
  }

  /** The session edit writes exactly its seven keys, keeps the store
      well typed, and leaves `first_launch` as it was. */
  lemma SessionEditFacts(m: map<PrefKey, PrefValue>, userId: string, userName: string,
                         userEmail: string, userRole: string, department: string,
                         profilePhotoUrl: string, loggedIn: bool)
    ensures var r := SessionEdit(m, userId, userName, userEmail, userRole, department,
                                 profilePhotoUrl, loggedIn);
      && r.Keys == m.Keys + StringKeys + {IsLoggedInKey}
      && r[UserIdKey] == StringValue(userId) && r[UserNameKey] == StringValue(userName)
      && r[UserEmailKey] == StringValue(userEmail) && r[UserRoleKey] == StringValue(userRole)
      && r[UserDepartmentKey] == StringValue(department)
      && r[ProfilePhotoUrlKey] == StringValue(profilePhotoUrl)
      && r[IsLoggedInKey] == BooleanValue(loggedIn)
      && (FirstLaunchKey in r <==> FirstLaunchKey in m)
      && (FirstLaunchKey in m ==> r[FirstLaunchKey] == m[FirstLaunchKey])
      && (WellTyped(m) ==> WellTyped(r))
  {
  }

  class UserPreference {
    var preferences: map<PrefKey, PrefValue>

    /** Every key holds a value of its declared type. */
    ghost predicate Valid()
      reads this
    {
      WellTyped(preferences)
    }

    constructor ()
      ensures Valid() && preferences == map[]
    {
      preferences := map[];
    }

    /** A string preference: `None` until it has been written. */
    function ReadString(key: PrefKey): (r: Option<string>)
      reads this
      requires Valid() && key.IsStringKey()
      ensures r.Some? <==> key in preferences
      ensures r.Some? ==> preferences[key] == StringValue(r.value)
    {
      if key in preferences then Some(preferences[key].s) else None
    }

    function UserIdPreference(): Option<string> reads this requires Valid() { ReadString(UserIdKey) }
    function UserNamePreference(): Option<string> reads this requires Valid() { ReadString(UserNameKey) }
    function UserEmailPreference(): Option<string> reads this requires Valid() { ReadString(UserEmailKey) }
    function UserRolePreference(): Option<string> reads this requires Valid() { ReadString(UserRoleKey) }
    function UserDepartmentPreference(): Option<string> reads this requires Valid() { ReadString(UserDepartmentKey) }
    function ProfilePhotoUrlPreference(): Option<string> reads this requires Valid() { ReadString(ProfilePhotoUrlKey) }

    /** Logged in only once the flag has been written as true. */
    function IsLoggedInPreference(): (b: bool)
      reads this
      requires Valid()
      ensures b <==> IsLoggedInKey in preferences && preferences[IsLoggedInKey] == BooleanValue(true)
    {
      if IsLoggedInKey in preferences then preferences[IsLoggedInKey].b else false
    }

    /** A first launch until the flag has been written as false. */
    function IsFirstLaunchPreference(): (b: bool)
      reads this
      requires Valid()
      ensures !b <==> FirstLaunchKey in preferences && preferences[FirstLaunchKey] == BooleanValue(false)
    {
      if FirstLaunchKey in preferences then preferences[FirstLaunchKey].b else true
    }

    method SaveUserSession(userId: string, userName: string, userEmail: string, userRole: string,
                           department: string, profilePhotoUrl: string)
      requires Valid()
      modifies this
      ensures Valid()
      ensures preferences == SessionEdit(old(preferences), userId, userName, userEmail, userRole,
                                         department, profilePhotoUrl, true)
      ensures UserIdPreference() == Some(userId) && UserNamePreference() == Some(userName)
      ensures UserEmailPreference() == Some(userEmail) && UserRolePreference() == Some(userRole)
      ensures UserDepartmentPreference() == Some(department)
      ensures ProfilePhotoUrlPreference() == Some(profilePhotoUrl)
      ensures IsLoggedInPreference()
      ensures IsFirstLaunchPreference() == old(IsFirstLaunchPreference())
    {
      SessionEditFacts(preferences, userId, userName, userEmail, userRole, department, profilePhotoUrl, true);
      preferences := SessionEdit(preferences, userId, userName, userEmail, userRole, department,
                                 profilePhotoUrl, true);
    }

    method SetUserId(userId: string)
      requires Valid()
      modifies this
      ensures Valid() && preferences == old(preferences)[UserIdKey := StringValue(userId)]
    {
      preferences := preferences[UserIdKey := StringValue(userId)];
    }

    method SetUserName(userName: string)
      requires Valid()
      modifies this
      ensures Valid() && preferences == old(preferences)[UserNameKey := StringValue(userName)]
    {
      preferences := preferences[UserNameKey := StringValue(userName)];
    }

    method SetUserEmail(userEmail: string)
      requires Valid()
      modifies this
      ensures Valid() && preferences == old(preferences)[UserEmailKey := StringValue(userEmail)]
    {
      preferences := preferences[UserEmailKey := StringValue(userEmail)];
    }

    method SetUserRole(userRole: string)
      requires Valid()
      modifies this
      ensures Valid() && preferences == old(preferences)[UserRoleKey := StringValue(userRole)]
    {
      preferences := preferences[UserRoleKey := StringValue(userRole)];
    }

    method SetUserDepartment(department: string)
      requires Valid()
      modifies this
      ensures Valid() && preferences == old(preferences)[UserDepartmentKey := StringValue(department)]
    {
      preferences := preferences[UserDepartmentKey := StringValue(department)];
    }

    method SetProfilePhotoUrl(url: string)
      requires Valid()
      modifies this
      ensures Valid() && preferences == old(preferences)[ProfilePhotoUrlKey := StringValue(url)]
    {
      preferences := preferences[ProfilePhotoUrlKey := StringValue(url)];
    }

    method SetFirstLaunch(isFirstLaunch: bool)
      requires Valid()
      modifies this
      ensures Valid() && preferences == old(preferences)[FirstLaunchKey := BooleanValue(isFirstLaunch)]
      ensures IsFirstLaunchPreference() == isFirstLaunch
    {
      preferences := preferences[FirstLaunchKey := BooleanValue(isFirstLaunch)];
    }

    /** Blanks the session: the six strings are overwritten with "" (the keys
        stay present) and the logged-in flag becomes false. */
    method Logout()
      requires Valid()
      modifies this
      ensures Valid()
      ensures preferences == SessionEdit(old(preferences), "", "", "", "", "", "", false)
      ensures forall k: PrefKey :: k.IsStringKey() ==> ReadString(k) == Some("")
      ensures !IsLoggedInPreference()
      ensures IsFirstLaunchPreference() == old(IsFirstLaunchPreference())
    {
      SessionEditFacts(preferences, "", "", "", "", "", "", false);
      preferences := SessionEdit(preferences, "", "", "", "", "", "", false);
    }
  }
}
