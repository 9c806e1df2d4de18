# CampusCare / CampusFix client logic in Dafny

CampusCare is an Android app in which students report campus faults (lifts,
toilets, Wi-Fi, classrooms), follow them through PENDING, IN_PROGRESS and
RESOLVED, and receive notifications, while administrators triage the reports
on a dashboard. The app is a thin client over Firebase. This project models
the client-side state and decision code between the screens and the backend:

- the issue and staff list filters and the dashboard statistics
  (`Admin`, `Issues`, `Staff`);
- the view-model state machines driven by `DataResult` emissions
  (`Notifications`, `Report`, `CareAuth`);
- the authentication repository's guards, demo-account lookup, error
  wording and emitted flows (`AuthRepo`);
- the local session store (`Prefs`);
- the relative-time formatter of the notifications screen (`TimeAgo`);
- the older CampusFix copy of the sign-in view model, with its hard-coded
  accounts (`FixAuth`).

Every backend call is an input. A Firestore listener's emission is a
`DataResult` argument. A call that may throw is a `Backend` value: `Done`
with the value, or `Threw` with the nullable exception message. The
repository's flows are functions that return the sequence of emitted
results, and the view models collect those sequences.

Shared modules:

- `Text`: the JVM's `isBlank` whitespace set, ASCII case folding, substring
  search, and the e-mail check.
- `Seqs`: `filter`, `count`, the order-preserving subsequence relation and
  the lemmas about them.
- `Model`: the records and enums.
- `Results`: `DataResult`, `Event` and `Backend`.

Kotlin classes whose fields change become Dafny classes with `modifies`
frames. The pure decisions become functions, and each method is proved
against them.

## Model

| member | source | states |
|---|---|---|
| Text.SubstringBeforeAt | app/src/main/java/com/university/campusfix/viewmodel/AuthViewModel.kt:52 | the result is a prefix of the input holding no `@`, and is the whole input or stops just before its first `@` |
| Text.Capitalize | app/src/main/java/com/university/campusfix/viewmodel/AuthViewModel.kt:52 | keeps the length, upper-cases the first character and leaves the rest unchanged |
| Text.Utf16Length | app/src/main/java/com/university/campuscare/data/repository/AuthRepository.kt:71 | Kotlin `length` counts UTF-16 units: between the number of characters and twice it, and equal to it when every character is in the Basic Multilingual Plane |
| Seqs.Filter | app/src/main/java/com/university/campuscare/viewmodel/AdminViewModel.kt:179-199 | Kotlin `filter`: never longer than the input; keeps exactly the elements that satisfy the predicate |
| Seqs.FilterIsSubsequence | app/src/main/java/com/university/campuscare/viewmodel/AdminViewModel.kt:179-199 | a filtered list is an order-preserving subsequence of the original |
| Seqs.FilterKeepsAll | app/src/main/java/com/university/campuscare/viewmodel/AdminViewModel.kt:180-198 | a filter every element passes returns the list unchanged |
| Seqs.FilterFilter | app/src/main/java/com/university/campuscare/viewmodel/AdminViewModel.kt:182-196 | filtering by p and then by q equals filtering once by "p and q" (the step-by-step narrowing) |
| Seqs.FilterAgrees | app/src/main/java/com/university/campuscare/viewmodel/AdminViewModel.kt:182-196 | filters by predicates that agree on every element give the same list |
| Seqs.FilterMonotone | app/src/main/java/com/university/campuscare/viewmodel/AdminViewModel.kt:179-199 | filtering by a stronger predicate keeps an order-preserving subsequence of what the weaker one keeps |
| Seqs.CountIsFilterLength | app/src/main/java/com/university/campuscare/viewmodel/AdminViewModel.kt:101-109 | `count { p }` is the length of `filter { p }` |
| Results.NewEvent | app/src/main/java/com/university/campuscare/utils/DataResult.kt:3-7 | a newly created event is unconsumed: `getContentIfNotHandled` and `peekContent` both give its message |
| Admin.StatusCountsPartition | app/src/main/java/com/university/campuscare/data/model/Issue.kt:26-30 | because there are exactly three statuses, the pending, in-progress and resolved counts add up to the list length |
| Admin.StatsOf | app/src/main/java/com/university/campuscare/viewmodel/AdminViewModel.kt:101-109 | `total` is the list size; pending, active and resolved are the counts of PENDING, IN_PROGRESS and RESOLVED issues; and pending + active + resolved == total |
| Admin.Template.Format | app/src/main/java/com/university/campuscare/viewmodel/AdminViewModel.kt:166-177 | the formatted message contains the issue title and has the template's length plus the title's |
| Admin.AcceptIssue | app/src/main/java/com/university/campuscare/viewmodel/AdminViewModel.kt:166-170 | accepting targets IN_PROGRESS with a STATUS_UPDATE notification titled "Issue accepted for review", whose message for a title t is `Your issue "t" has been reviewed and is now in progress.` |
| Admin.ResolveIssue | app/src/main/java/com/university/campuscare/viewmodel/AdminViewModel.kt:173-177 | resolving targets RESOLVED with an ISSUE_RESOLVED notification titled "Issue resolved", whose message for a title t is `Your issue "t" has been resolved.` |
| Admin.AdminViewModel.constructor | app/src/main/java/com/university/campuscare/viewmodel/AdminViewModel.kt:32-63 | empty lists, zero statistics, no filters, not loading |
| Admin.AdminViewModel.LoadAllIssues | app/src/main/java/com/university/campuscare/viewmodel/AdminViewModel.kt:65-85 | Success replaces the list, recomputes the statistics from it and clears loading; Error clears loading and keeps the list; Loading sets loading; the statistics always match the list |
| Admin.AdminViewModel.LoadAllUsers | app/src/main/java/com/university/campuscare/viewmodel/AdminViewModel.kt:88-98 | a successful fetch replaces the user list; a failed one leaves it |
| Admin.AdminViewModel.UpdateStats | app/src/main/java/com/university/campuscare/viewmodel/AdminViewModel.kt:101-109 | the statistics become those of the current list |
| Admin.AdminViewModel.SetFilter | app/src/main/java/com/university/campuscare/viewmodel/AdminViewModel.kt:111-113 | sets the status filter and no other field |
| Admin.AdminViewModel.SetCategoryFilter | app/src/main/java/com/university/campuscare/viewmodel/AdminViewModel.kt:115-117 | sets the category filter and no other field |
| Admin.AdminViewModel.SetSearchQuery | app/src/main/java/com/university/campuscare/viewmodel/AdminViewModel.kt:119-121 | sets the query and no other field |
| Admin.AdminViewModel.UpdateIssueStatus | app/src/main/java/com/university/campuscare/viewmodel/AdminViewModel.kt:124-163 | writes the new status name and the time `now` to the issue document; loading ends cleared; a notification is requested exactly when the issue was read back, for its reporter, with the change's type and title, the message formatted with the issue title, the issue id, the time given and unread |
| Admin.AdminViewModel.GetFilteredIssues | app/src/main/java/com/university/campuscare/viewmodel/AdminViewModel.kt:179-199 | the result is an order-preserving subsequence; with no filter, no category and a blank query it is the whole list; every kept issue has the selected status, the selected category ignoring case, and the query in its title, description or reporter name; every issue passing all three is kept |
| Issues.IssuesViewModel.constructor | app/src/main/java/com/university/campuscare/viewmodel/IssuesViewModel.kt:12-28 | empty list, no filter, empty query, not loading |
| Issues.IssuesViewModel.LoadIssues | app/src/main/java/com/university/campuscare/viewmodel/IssuesViewModel.kt:30-40 | always ends with an empty list and not loading |
| Issues.IssuesViewModel.SetFilter | app/src/main/java/com/university/campuscare/viewmodel/IssuesViewModel.kt:42-44 | sets the filter and no other field |
| Issues.IssuesViewModel.SetSearchQuery | app/src/main/java/com/university/campuscare/viewmodel/IssuesViewModel.kt:46-48 | sets the query and no other field |
| Issues.IssuesViewModel.GetFilteredIssues | app/src/main/java/com/university/campuscare/viewmodel/IssuesViewModel.kt:50-67 | the result is an order-preserving subsequence; with no filter and a blank query it is the whole list; every kept issue has the selected status and the query in its title or description; every issue passing both is kept |
| Issues.SearchWithinAdminSearch | app/src/main/java/com/university/campuscare/viewmodel/IssuesViewModel.kt:59-64 | the dashboard search matches exactly when this search does or the reporter name contains the query, so whatever this search finds the dashboard finds |
| Issues.ListWithinAdminList | app/src/main/java/com/university/campuscare/viewmodel/IssuesViewModel.kt:50-67 | with the same status filter and query and no category, the student list is an order-preserving subsequence of the dashboard list |
| Issues.ReporterNameSearchedOnlyByAdmin | app/src/main/java/com/university/campuscare/viewmodel/IssuesViewModel.kt:59-64 | some issue is found by the dashboard search through its reporter name but not by this screen's search |
| Staff.StaffViewModel.constructor | app/src/main/java/com/university/campuscare/viewmodel/StaffViewModel.kt:16-34 | empty list, not loading, no error, empty query |
| Staff.StaffViewModel.LoadStaff | app/src/main/java/com/university/campuscare/viewmodel/StaffViewModel.kt:36-53 | Success replaces the list and clears loading; Error records the message and clears loading, keeping the list; Loading sets loading; Idle changes nothing |
| Staff.StaffViewModel.SetSearchQuery | app/src/main/java/com/university/campuscare/viewmodel/StaffViewModel.kt:55-57 | sets the query and no other field |
| Staff.StaffViewModel.GetFilteredStaff | app/src/main/java/com/university/campuscare/viewmodel/StaffViewModel.kt:59-69 | a blank query returns the whole list; otherwise the result is Kotlin's `filter` of the list by the name-or-department search; the result is an order-preserving subsequence; otherwise a user is kept exactly when its name or department contains the query ignoring case |
| Notifications.MarkRead | app/src/main/java/com/university/campuscare/viewmodel/NotificationsViewModel.kt:68-71 | keeps the length; an entry ends read exactly when it was read or has the id; nothing else in any entry changes |
| Notifications.MarkReadIdempotent | app/src/main/java/com/university/campuscare/viewmodel/NotificationsViewModel.kt:69-71 | marking the same id twice gives the list marking it once gives |
| Notifications.ApplyMarksAt | app/src/main/java/com/university/campuscare/viewmodel/NotificationsViewModel.kt:89-91 | applying marks for a set of ids reads each entry as read exactly when it was read or its id is in the set |
| Notifications.MarkAllReadMarksAll | app/src/main/java/com/university/campuscare/viewmodel/NotificationsViewModel.kt:83-95 | once every unread id has been marked, every entry is read and otherwise unchanged |
| Notifications.NotificationsViewModel.constructor | app/src/main/java/com/university/campuscare/viewmodel/NotificationsViewModel.kt:21-32 | empty list, not loading, no error |
| Notifications.NotificationsViewModel.LoadNotifications | app/src/main/java/com/university/campuscare/viewmodel/NotificationsViewModel.kt:35-54 | a null user changes nothing; otherwise loading is set exactly for Loading, Success replaces the list, Error records the message |
| Notifications.NotificationsViewModel.LoadNotificationsFailed | app/src/main/java/com/university/campuscare/viewmodel/NotificationsViewModel.kt:55-58 | an exception records its message and clears loading |
| Notifications.NotificationsViewModel.MarkAsRead | app/src/main/java/com/university/campuscare/viewmodel/NotificationsViewModel.kt:64-80 | Success marks the matching entries read and changes nothing else; any other result leaves the list |
| Notifications.NotificationsViewModel.MarkAllAsRead | app/src/main/java/com/university/campuscare/viewmodel/NotificationsViewModel.kt:83-96 | requests a mark for exactly the unread notifications, in list order |
| Notifications.NotificationsViewModel.ClearError | app/src/main/java/com/university/campuscare/viewmodel/NotificationsViewModel.kt:98-100 | the error becomes null |
| TimeAgo.LongSub | app/src/main/java/com/university/campuscare/ui/screens/NotificationsScreen.kt:192 | 64-bit `now - timestamp`: a Long, congruent to the true difference, and equal to it when that fits |
| TimeAgo.Classify | app/src/main/java/com/university/campuscare/ui/screens/NotificationsScreen.kt:194-199 | the four buckets are disjoint and cover every difference: under 60 000 ms is "just now", then minutes 1..59, hours 1..23, days >= 1, each the quotient of the difference by its unit |
| TimeAgo.DecimalRoundTrip | app/src/main/java/com/university/campuscare/ui/screens/NotificationsScreen.kt:196-198 | the decimal rendering of a count reads back as that count |
| TimeAgo.Render | app/src/main/java/com/university/campuscare/ui/screens/NotificationsScreen.kt:195-198 | "Just now" exactly for that bucket; otherwise the text starts with the count, names the unit, and ends in "s ago" exactly when the count is not 1 |
| TimeAgo.PhraseReadsBack | app/src/main/java/com/university/campuscare/ui/screens/NotificationsScreen.kt:196-198 | the number at the head of a phrase is its count |
| TimeAgo.PhrasePlural | app/src/main/java/com/university/campuscare/ui/screens/NotificationsScreen.kt:196-198 | a phrase is plural exactly when its count is not 1 |
| TimeAgo.PhraseNamesUnit | app/src/main/java/com/university/campuscare/ui/screens/NotificationsScreen.kt:196-198 | a phrase names its unit after a space |
| TimeAgo.GetTimeAgo | app/src/main/java/com/university/campuscare/ui/screens/NotificationsScreen.kt:190-200 | "Just now" exactly when the wrapped difference is under a minute; otherwise the rendering of its bucket |
| Report.ValidateReport | app/src/main/java/com/university/campuscare/viewmodel/ReportViewModel.kt:68-76 | no category gives "Please select an issue category" before the title is looked at; a blank title gives "Please provide a brief description"; no error exactly when both are present |
| Report.StateAfter | app/src/main/java/com/university/campuscare/viewmodel/ReportViewModel.kt:94-110 | Loading, Success and Idle give the state of the same name; Error gives an error state carrying the event's message, whether or not it was already consumed |
| Report.ReportViewModel.constructor | app/src/main/java/com/university/campuscare/viewmodel/ReportViewModel.kt:32-44 | Idle, no category, no photo |
| Report.ReportViewModel.SelectCategory | app/src/main/java/com/university/campuscare/viewmodel/ReportViewModel.kt:46-48 | sets the category and no other field |
| Report.ReportViewModel.SetPhotoUri | app/src/main/java/com/university/campuscare/viewmodel/ReportViewModel.kt:51-53 | sets the photo and no other field |
| Report.ReportViewModel.SubmitReport | app/src/main/java/com/university/campuscare/viewmodel/ReportViewModel.kt:57-117 | a failed guard sets its error and submits nothing; otherwise the issue is PENDING with the selected category's name, the reporter's id and name and the photo; the state follows the last result; a Success resets category and photo; an exception gives its message or "An unexpected error occurred" |
| Report.ReportViewModel.ResetState | app/src/main/java/com/university/campuscare/viewmodel/ReportViewModel.kt:119-121 | the state becomes Idle and nothing else changes |
| Prefs.SessionEditFacts | app/src/main/java/com/university/campuscare/data/local/UserPreference.kt:27-44 | the session edit writes the six strings and the logged-in flag, keeps every other key, keeps `first_launch` and keeps the store well typed |
| Prefs.UserPreference.ReadString | app/src/main/java/com/university/campuscare/data/local/UserPreference.kt:53-111 | a string preference is null until written and otherwise the stored string |
| Prefs.UserPreference.IsLoggedInPreference | app/src/main/java/com/university/campuscare/data/local/UserPreference.kt:113-116 | false when the key is absent, the stored flag otherwise |
| Prefs.UserPreference.IsFirstLaunchPreference | app/src/main/java/com/university/campuscare/data/local/UserPreference.kt:124-127 | true when the key is absent, the stored flag otherwise |
| Prefs.UserPreference.SaveUserSession | app/src/main/java/com/university/campuscare/data/local/UserPreference.kt:27-44 | writes the six strings and sets logged in; each reader then returns the saved value; `first_launch` is untouched |
| Prefs.UserPreference.SetUserId | app/src/main/java/com/university/campuscare/data/local/UserPreference.kt:47-51 | changes exactly the user-id key |
| Prefs.UserPreference.SetUserName | app/src/main/java/com/university/campuscare/data/local/UserPreference.kt:58-62 | changes exactly the user-name key |
| Prefs.UserPreference.SetUserEmail | app/src/main/java/com/university/campuscare/data/local/UserPreference.kt:69-73 | changes exactly the e-mail key |
| Prefs.UserPreference.SetUserRole | app/src/main/java/com/university/campuscare/data/local/UserPreference.kt:80-84 | changes exactly the role key |
| Prefs.UserPreference.SetUserDepartment | app/src/main/java/com/university/campuscare/data/local/UserPreference.kt:91-95 | changes exactly the department key |
| Prefs.UserPreference.SetProfilePhotoUrl | app/src/main/java/com/university/campuscare/data/local/UserPreference.kt:102-106 | changes exactly the photo key |
| Prefs.UserPreference.SetFirstLaunch | app/src/main/java/com/university/campuscare/data/local/UserPreference.kt:118-122 | changes exactly `first_launch`, which then reads as set |
| Prefs.UserPreference.Logout | app/src/main/java/com/university/campuscare/data/local/UserPreference.kt:130-140 | blanks the six strings without removing them, clears logged in, leaves `first_launch` |
| AuthRepo.EmailGuard | app/src/main/java/com/university/campuscare/data/repository/AuthRepository.kt:236-239 | an address is refused, with "Invalid email address", exactly when it is blank or has no `@` |
| AuthRepo.RegisterGuard | app/src/main/java/com/university/campuscare/data/repository/AuthRepository.kt:63-74 | blank name first, then the e-mail, then a password shorter than 6 UTF-16 units, each with its message; no error exactly when all three pass |
| AuthRepo.SupplementaryCharactersCountTwice | app/src/main/java/com/university/campuscare/data/repository/AuthRepository.kt:71-74 | a password of three emoji has length 6 and passes the length check |
| AuthRepo.LoginGuard | app/src/main/java/com/university/campuscare/data/repository/AuthRepository.kt:137-140 | an error exactly when the e-mail or the password is blank |
| AuthRepo.RegisterAndResetShareEmailGuard | app/src/main/java/com/university/campuscare/data/repository/AuthRepository.kt:67-70 | past the name and password checks, registration refuses exactly the addresses password reset refuses |
| AuthRepo.RegisterFailureMessage | app/src/main/java/com/university/campuscare/data/repository/AuthRepository.kt:119-128 | API-key messages first, then "already in use", then "network", else "Registration failed: " and the message |
| AuthRepo.LoginFailureMessage | app/src/main/java/com/university/campuscare/data/repository/AuthRepository.kt:210-220 | API-key messages first, then unknown user or wrong password, then "network", else "Login failed: " and the message |
| AuthRepo.ResetFailureMessage | app/src/main/java/com/university/campuscare/data/repository/AuthRepository.kt:246-253 | unknown user, then "network", else "Failed to send reset email: " and the message |
| AuthRepo.UserFromDoc | app/src/main/java/com/university/campuscare/data/repository/AuthRepository.kt:187-194 | each field is the document's or "", except a missing role, which is "STUDENT" |
| AuthRepo.RegisteredUser | app/src/main/java/com/university/campuscare/data/repository/AuthRepository.kt:83-90 | a registered account is a STUDENT with no photo, carrying the uid, name, e-mail and department |
| AuthRepo.DemoLogin | app/src/main/java/com/university/campuscare/data/repository/AuthRepository.kt:145-160 | succeeds exactly when the lower-cased e-mail is an account with that password; the user keeps the typed e-mail and gets id "demo_" + lower-cased role + "_001"; otherwise "Invalid email or password" |
| AuthRepo.DemoLoginIgnoresEmailCase | app/src/main/java/com/university/campuscare/data/repository/AuthRepository.kt:148 | e-mails that differ only in case get the same demo answer |
| AuthRepo.RegisterFlow | app/src/main/java/com/university/campuscare/data/repository/AuthRepository.kt:57-131 | a failed guard is the only emission; otherwise Loading then one result; it ends in Success exactly when the account was created, with the registered user; an exception gives its mapped message, and a missing user the mapped "Failed to create user account"; every error is unconsumed |
| AuthRepo.LoginFlow | app/src/main/java/com/university/campuscare/data/repository/AuthRepository.kt:133-223 | a blank field is the only emission; otherwise Loading then one result; in demo mode the table decides; otherwise Success exactly when a user signed in and its profile exists, built from the profile; an exception, a missing user ("Login failed") and a missing profile ("User profile not found") each give their mapped message |
| AuthRepo.LogoutFlow | app/src/main/java/com/university/campuscare/data/repository/AuthRepository.kt:225-233 | one emission: Success when signing out succeeds, else "Logout failed: " and the message |
| AuthRepo.ResetPasswordFlow | app/src/main/java/com/university/campuscare/data/repository/AuthRepository.kt:235-256 | a refused address is the only emission; otherwise Loading then Success exactly when the e-mail was sent, or the mapped failure |
| AuthRepo.GetCurrentUserFlow | app/src/main/java/com/university/campuscare/data/repository/AuthRepository.kt:258-290 | one emission, never Loading or Idle: "No user logged in", "User profile not found", "Failed to get user: " and the message for a failed read, or Success with the profile's user |
| AuthRepo.AuthRepositoryImpl.SaveSession | app/src/main/java/com/university/campuscare/data/repository/AuthRepository.kt:107-114 | the `saveUserSession` call with a user's six fields: the store becomes the session edit of the old store with those fields and logged in |
| AuthRepo.AuthRepositoryImpl.Register | app/src/main/java/com/university/campuscare/data/repository/AuthRepository.kt:57-131 | emits the register flow; the session is saved exactly when it ends in Success |
| AuthRepo.AuthRepositoryImpl.Login | app/src/main/java/com/university/campuscare/data/repository/AuthRepository.kt:133-223 | emits the login flow; the session is saved exactly when it ends in Success |
| AuthRepo.AuthRepositoryImpl.Logout | app/src/main/java/com/university/campuscare/data/repository/AuthRepository.kt:225-233 | emits the logout flow; the session is blanked exactly when signing out succeeds |
| CareAuth.UserState | app/src/main/java/com/university/campuscare/viewmodel/AuthViewModel.kt:45-61 | Loading, Success and Idle map to Loading, Authenticated and Idle; Error shows an unconsumed message, or the fallback |
| CareAuth.ResetState | app/src/main/java/com/university/campuscare/viewmodel/AuthViewModel.kt:94-113 | Success becomes PasswordResetSent with the inbox message; Error shows its message or "Failed to send reset email" |
| CareAuth.StatusState | app/src/main/java/com/university/campuscare/viewmodel/AuthViewModel.kt:143-152 | Success(u) becomes Authenticated(u); anything else Idle |
| CareAuth.LoginOutcome | app/src/main/java/com/university/campuscare/viewmodel/AuthViewModel.kt:43-63 | authenticated exactly when the repository's last emission is Success; an error shows the repository's message, never the fallback |
| CareAuth.RegisterOutcome | app/src/main/java/com/university/campuscare/viewmodel/AuthViewModel.kt:65-90 | a mismatch gives "Passwords do not match"; otherwise the repository guards decide, it ends authenticated exactly when the account was created, and a backend failure shows the repository's mapped message |
| CareAuth.ResetOutcome | app/src/main/java/com/university/campuscare/viewmodel/AuthViewModel.kt:92-114 | PasswordResetSent exactly when the address is accepted and the e-mail sent; a refused address gives "Invalid email address" |
| CareAuth.AuthViewModel.constructor | app/src/main/java/com/university/campuscare/viewmodel/AuthViewModel.kt:30-41 | Idle, with the repository given |
| CareAuth.AuthViewModel.Collect | app/src/main/java/com/university/campuscare/viewmodel/AuthViewModel.kt:45-60 | after collecting a flow the state is the image of its last emission |
| CareAuth.AuthViewModel.Login | app/src/main/java/com/university/campuscare/viewmodel/AuthViewModel.kt:43-63 | ends in LoginOutcome; the session was saved exactly when authenticated |
| CareAuth.AuthViewModel.Register | app/src/main/java/com/university/campuscare/viewmodel/AuthViewModel.kt:65-90 | a mismatch is reported without asking the repository; otherwise ends in RegisterOutcome, saving the session exactly when authenticated |
| CareAuth.AuthViewModel.ResetPassword | app/src/main/java/com/university/campuscare/viewmodel/AuthViewModel.kt:92-114 | ends in ResetOutcome |
| CareAuth.AuthViewModel.Logout | app/src/main/java/com/university/campuscare/viewmodel/AuthViewModel.kt:116-133 | ends Idle whatever the result; the session is blanked when signing out succeeds |
| CareAuth.AuthViewModel.ClearError | app/src/main/java/com/university/campuscare/viewmodel/AuthViewModel.kt:135-139 | Error and PasswordResetSent become Idle; any other state stays |
| CareAuth.AuthViewModel.CheckLoginStatus | app/src/main/java/com/university/campuscare/viewmodel/AuthViewModel.kt:141-154 | authenticated exactly when a signed-in user's profile exists, as that profile describes; Idle otherwise |
| FixAuth.StudentName | app/src/main/java/com/university/campusfix/viewmodel/AuthViewModel.kt:52 | the display name has no `@`, is no longer than the e-mail, and starts with its first letter upper-cased |
| FixAuth.LoginDecision | app/src/main/java/com/university/campusfix/viewmodel/AuthViewModel.kt:41-60 | authenticated exactly when the table (admins or students) maps the e-mail as typed to the password; admins as "Administrator", students under their capitalised local part; otherwise the matching error |
| FixAuth.RegisterDecision | app/src/main/java/com/university/campusfix/viewmodel/AuthViewModel.kt:70-88 | its first three checks are exactly the CampusCare repository guards; then the confirmation; the password length counts UTF-16 units; authenticated as a STUDENT with the name exactly when all pass |
| FixAuth.ResetDecision | app/src/main/java/com/university/campusfix/viewmodel/AuthViewModel.kt:99-103 | an error exactly when the CampusCare e-mail guard refuses the address; Idle otherwise |
| FixAuth.JohnSignsInAsJohn | app/src/main/java/com/university/campusfix/viewmodel/AuthViewModel.kt:26-29 | john@campus.edu with "password" signs in as the student "John" |
| FixAuth.StudentLookupIsCaseSensitive | app/src/main/java/com/university/campusfix/viewmodel/AuthViewModel.kt:50-58 | a capitalised e-mail is refused, and an admin account is no student account |
| FixAuth.ConfirmationCheckedInDifferentOrder | app/src/main/java/com/university/campusfix/viewmodel/AuthViewModel.kt:70-82 | with a blank name and differing passwords CampusFix reports the name while CampusCare reports the mismatch |
| FixAuth.AuthViewModel.constructor | app/src/main/java/com/university/campusfix/viewmodel/AuthViewModel.kt:22-24 | starts Idle |
| FixAuth.AuthViewModel.Login | app/src/main/java/com/university/campusfix/viewmodel/AuthViewModel.kt:35-62 | shows Loading, then ends in LoginDecision |
| FixAuth.AuthViewModel.Register | app/src/main/java/com/university/campusfix/viewmodel/AuthViewModel.kt:64-91 | shows Loading, then ends in RegisterDecision |
| FixAuth.AuthViewModel.ResetPassword | app/src/main/java/com/university/campusfix/viewmodel/AuthViewModel.kt:93-105 | shows Loading, then ends in ResetDecision |
| FixAuth.AuthViewModel.Logout | app/src/main/java/com/university/campusfix/viewmodel/AuthViewModel.kt:107-109 | Idle unconditionally |
| FixAuth.AuthViewModel.ClearError | app/src/main/java/com/university/campusfix/viewmodel/AuthViewModel.kt:111-115 | only an Error becomes Idle |

The six readers `UserPreference.UserIdPreference` … `ProfilePhotoUrlPreference` (UserPreference.kt:53-111) are each `ReadString` of their key. The `Prefs.UserPreference.ReadString` row states what they return.

## Left out

- Compose screens, navigation and theming are UI and are not part of this model.
- Firestore, Firebase Auth and Storage are not modelled. Their results enter as `DataResult` or `Backend` arguments. The bodies of the Issues, Report, Notification, Chat and Staff repositories are not part of this model, nor is ChatViewModel.
- Coroutines are not modelled. Each launched body is one sequential step, and `delay` is dropped. Interleaving is not modelled, for example between the `markAsRead` calls that `markAllAsRead` launches: `MarkAllAsRead` returns the ids it requests, and `MarkAllReadMarksAll` states the list once all of them have succeeded.
- Each listener callback handles one emission. A flow's sequence of emissions is modelled only where a view model collects a submission or sign-in flow to its end: `Report.ReportViewModel.SubmitReport` and the CampusCare sign-in (`CareAuth`).
- Logging (`Log.e`) is left out: it is output only.
- `System.currentTimeMillis` is the `now` parameter of `TimeAgo.GetTimeAgo`, `Admin.AdminViewModel.UpdateIssueStatus` and `Report.ReportViewModel.SubmitReport`.
- Case folding is ASCII only. `contains(ignoreCase = true)` and `lowercase()` agree with the model on ASCII text, but not on other Unicode letters. `capitalize()` also follows the default locale, so under a Turkic locale a leading `i` becomes `İ` where `Text.Capitalize` gives `I`. The only names it capitalises here are the local parts of the two hard-coded student e-mails, "student" and "john", and neither starts with `i`.
- `Event` is modelled as a message plus a consumed flag; the class itself is not part of this model. Each emission's event is read once by its handler, so consuming it is not modelled as a state change.
- Latitude and longitude (Doubles), `LocationHelper` and `PhotoUploadHelper` are left out. They are platform location, bitmap and file I/O, and floating-point arithmetic.
- The CampusFix `ImageHandler` and `ReportViewModel` are empty stubs, and the unused `Report` data classes of both copies have no behaviour; none of them is modelled.
- `isDemoMode` is a private constant `false` in the repository. It is modelled as the repository's configuration field, so that both login paths are modelled.
- An exception thrown by the preferences store inside `register`/`login` is not modelled: saving the session is taken to succeed.
- `Admin.Template.Format` models `String.format` with one `%s` as the text before it, the argument and the text after it.
- `Report.StateAfter`: an error's `peekContent()` is never null, so the `?: "Failed to submit report"` fallback is dead code and is not modelled.
- Notification ids, document ids and the Firestore write of a notification are backend-assigned and not modelled; `Admin.AdminViewModel.UpdateIssueStatus` returns the request instead.
