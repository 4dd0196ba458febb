# Attendance and leave app — a Dafny model of its decision logic

The application is a React front end on Supabase. Employees sign in with an e-mail
address, an employee ID or a NIK (national identity number). They check in and out from
the attendance dashboard and file leave requests. A Supabase edge function e-mails each
new leave request to the configured recipients. Employees edit their profile, and an
administrator edits the shared settings.

This project models the logic that decides what those screens and the edge function do.
It covers:

- sign-in token classification and the lookup it depends on;
- the ordered check chains of the four authentication forms, including the e-mail
  regular expression, which is anchored at the end only;
- the leave-request form: its three submit checks, the stored row, the best-effort
  notification and the reset afterwards;
- the notification function: recipient normalisation, its guard pipeline, transport
  choice and mail body;
- the check-in/check-out toggle;
- the profile page: title-casing, the input cleaners, the ordered save checks and the
  loading fallbacks;
- the settings page: list editors, loading defaults and the ordered save;
- the route table, the sign-in gate and the sidebar's item/path mapping.

Every backend, browser or SMTP call is an input: the result it returned.

## Layout

Each source file is one module. Where the source keeps state that its handlers update
step by step, the module has a class with those fields. Its methods say what they compute
and what the new state is, field by field. Pure logic is written as functions, and lemmas
state the properties.

| file | models |
|---|---|
| `common.dfy` | JavaScript runtime behaviour the components rely on: `trim`, `\s`, truthiness, `||`, ASCII case mapping, `slice`, `parseInt` |
| `email_pattern.dfy` | the regular expression `/[^\s@]+@[^\s@]+\.[^\s@]+$/` |
| `auth.dfy` | `supabase/auth.tsx` |
| `leave_request_form.dfy` | `src/components/attendance/LeaveRequestForm.tsx` |
| `leave_notification.dfy` | `supabase/functions/send-leave-notification/index.ts` |
| `attendance_dashboard.dfy` | `src/components/attendance/AttendanceDashboard.tsx` |
| `profile.dfy` | `src/components/pages/profile.tsx` |
| `settings.dfy` | `src/components/pages/settings.tsx` |
| `app.dfy` | `src/App.tsx` |
| `sign_up_form.dfy`, `change_password_form.dfy`, `login_form.dfy`, `forgot_password_form.dfy` | the four forms under `src/components/auth/` |

## Model

| member | source | states |
|---|---|---|
| Common.OrElse | supabase/functions/send-leave-notification/index.ts:192-194 | `o || fallback` gives the value when it is present and non-empty, and the fallback otherwise |
| Common.Truthy | supabase/functions/send-leave-notification/index.ts:140 | a value is truthy only when it is present and not empty |
| Common.SpaceClass | src/components/auth/SignUpForm.tsx:59-60 | space, tab, line feed and carriage return are whitespace; no whitespace character is a word character, '@' or '.' |
| Common.Blank | src/components/auth/LoginForm.tsx:56 | blank text is whitespace throughout |
| Common.TrimStart | src/components/pages/settings.tsx:255 | the result is a suffix of the input; everything dropped is whitespace; the result does not start with whitespace |
| Common.TrimEnd | src/components/pages/settings.tsx:255 | the result is a prefix of the input; everything dropped is whitespace; the result does not end with whitespace |
| Common.Trim | src/components/pages/settings.tsx:255-260 | a non-empty trimmed string neither starts nor ends with whitespace |
| Common.LeadingSpaces | src/components/pages/settings.tsx:255 | the count of leading whitespace: everything before it is whitespace and the next character is not |
| Common.TrimEmptyIffAllSpace | src/components/auth/ChangePasswordForm.tsx:37 | `s.trim()` is empty exactly when every character of `s` is whitespace |
| Common.BlankIffTrimEmpty | src/components/auth/LoginForm.tsx:56 | the blank test used by the forms agrees with "trim is empty" |
| Common.Lower | src/App.tsx:112 | `toLowerCase` keeps the length and maps each character on its own |
| Common.Take | src/components/attendance/AttendanceDashboard.tsx:80-100 | the first `n` elements: a prefix of exactly `n` elements, or the whole list when it is short enough |
| Common.ParseInt | src/components/pages/settings.tsx:747 | `parseInt` is NaN exactly when no digit follows the leading whitespace and sign |
| Common.DigitRun | src/components/pages/settings.tsx:747 | the longest prefix of decimal digits: all before it are digits and the next character is not |
| Common.ParseIntOfDecimalText | src/components/pages/settings.tsx:747 | `parseInt` reads back the decimal text of every natural number |
| EmailPattern.LastIndexOf | src/components/auth/SignUpForm.tsx:59-60 | the index of the last occurrence, or none when the character does not occur |
| EmailPattern.Accepts | src/components/auth/SignUpForm.tsx:59-60 | an accepted address contains '@' and has at least five characters |
| EmailPattern.AcceptsMatches | src/components/auth/SignUpForm.tsx:59-60 | every accepted address matches the regex, with the match ending at the last '@' |
| EmailPattern.MatchedAtIsLast | src/components/auth/SignUpForm.tsx:59-60 | in any regex match the '@' is the last one and the rest of the domain is plain apart from its '.' |
| EmailPattern.MatchesAccepted | src/components/auth/SignUpForm.tsx:59-60 | every address the regex matches is accepted |
| EmailPattern.AcceptsIffMatches | src/components/auth/SignUpForm.tsx:59-60 | the decision read off the last '@' is exactly the regex's answer, in both directions |
| EmailPattern.AcceptsPlainAddress | src/components/auth/SignUpForm.tsx:59-60 | an ordinary address is accepted |
| EmailPattern.AcceptsUnanchoredStart | src/components/auth/ForgotPasswordForm.tsx:40 | without a start anchor, a leading space and a second '@' still pass |
| EmailPattern.RefusesDotlessDomain | src/components/auth/ForgotPasswordForm.tsx:40 | a domain with no inner '.' is refused |
| Auth.SignIn | supabase/auth.tsx:50-81 | see the rows below |
| Auth.IsEmailToken | supabase/auth.tsx:52 | every address the forms' e-mail pattern accepts is taken for an e-mail |
| Auth.IsNik | supabase/auth.tsx:53 | a 16-digit token is never taken for an e-mail |
| Auth.NikAndHandleTakeSamePath | supabase/auth.tsx:52-68 | the unused 16-digit test changes nothing: a NIK and a short handle make the same calls and end the same way |
| Auth.HandleResolvesToItsEmail | supabase/auth.tsx:63-79 | a handle matching exactly one user signs in with that user's e-mail and the given password |
| Auth.SignUp | supabase/auth.tsx:37-48 | e-mail and password are passed as given and the name as `full_name`; the call succeeds exactly when the service does, and its error is rethrown |
| Auth.AuthProvider.constructor | supabase/auth.tsx:16-17 | no user, and loading |
| Auth.AuthProvider.OnSession | supabase/auth.tsx:19-33 | after the first session answer or any auth event, the user is the session's user (or none) and loading is over |
| LeaveRequestForm.BeforeFirstT | src/components/attendance/LeaveRequestForm.tsx:148-149 | `split("T")[0]` is a prefix without 'T' that stops at the first 'T' |
| LeaveRequestForm.DatePartOfIso | src/components/attendance/LeaveRequestForm.tsx:148-149 | cutting an ISO time stamp at its 'T' leaves exactly the calendar date |
| LeaveRequestForm.Validate | src/components/attendance/LeaveRequestForm.tsx:113-138 | the three checks in order, as if-and-only-if statements: missing field, then no user, then end before start |
| LeaveRequestForm.SameDayAccepted | src/components/attendance/LeaveRequestForm.tsx:131 | a request that ends on its start date passes, because only a strict "end < start" is refused |
| LeaveRequestForm.RowFor | src/components/attendance/LeaveRequestForm.tsx:143-152 | status "pending", the user's id, the raw type and reason keys, date-only dates, and the typed details stored as typed, or as null when empty |
| LeaveRequestForm.RowHoldsCalendarDates | src/components/attendance/LeaveRequestForm.tsx:148-149 | the stored dates are the calendar dates of the picked days |
| LeaveRequestForm.ApplicantName | src/components/attendance/LeaveRequestForm.tsx:158 | metadata full name, else e-mail, else "N/A"; never empty |
| LeaveRequestForm.PayloadFor | src/components/attendance/LeaveRequestForm.tsx:158-173 | translated type and reason labels, full ISO time stamps, the applicant's name and e-mail, and the department and details as typed |
| LeaveRequestForm.NotificationShowsLabels | src/components/attendance/LeaveRequestForm.tsx:164-173 | the mail shows the applicant's name, the department and the translated label, and the details block exactly when details were typed |
| LeaveRequestForm.Form.constructor | src/components/attendance/LeaveRequestForm.tsx:63-76 | empty fields, not submitting, no profile |
| LeaveRequestForm.Form.FetchUserProfile | src/components/attendance/LeaveRequestForm.tsx:85-108 | the department is filled in only from a row with a non-empty department; an error (PGRST116 included) or a throw changes nothing |
| LeaveRequestForm.Form.HandleSubmit | src/components/attendance/LeaveRequestForm.tsx:110-219 | a failed check writes and sends nothing and changes nothing; otherwise exactly `RowFor` is inserted; an insert error keeps the fields and sends nothing; a stored row is sent to the notification, and the form is cleared whatever the notification did |
| LeaveRequestForm.Form.Store | src/components/attendance/LeaveRequestForm.tsx:140-218 | the insert, notify and reset steps once the checks passed |
| LeaveRequestForm.Form.Reset | src/components/attendance/LeaveRequestForm.tsx:193-199 | all six fields are empty afterwards, including the auto-filled department |
| LeaveRequestForm.ResubmitAfterSuccessIsIncomplete | src/components/attendance/LeaveRequestForm.tsx:193-199 | submitting again straight after a success is refused as incomplete |
| LeaveNotification.ValidateSingleEmail | supabase/functions/send-leave-notification/index.ts:64-77 | a candidate yields a value exactly when it is a string that is not blank, and the value is its trimmed, non-empty form |
| LeaveNotification.ValidEmails | supabase/functions/send-leave-notification/index.ts:84-86 | never more survivors than entries |
| LeaveNotification.ValidEmailsDeliverable | supabase/functions/send-leave-notification/index.ts:84-86 | every survivor is non-empty and trimmed |
| LeaveNotification.ValidEmailsAppend | supabase/functions/send-leave-notification/index.ts:84-86 | map-and-filter works piecewise: order is kept and nothing is merged |
| LeaveNotification.ValidEmailsEmpty | supabase/functions/send-leave-notification/index.ts:84-92 | nothing survives exactly when no entry is a non-blank string |
| LeaveNotification.RepeatsAreKept | supabase/functions/send-leave-notification/index.ts:84-90 | repeated addresses are all kept: there is no de-duplication and no cap |
| LeaveNotification.ProcessRecipientData | supabase/functions/send-leave-notification/index.ts:79-108 | a result is non-empty and every entry is trimmed text; a bare string gives a one-element list or none; an object whose `leave_request` is missing or not an array gives none; any other value gives none |
| LeaveNotification.RecipientsOfObject | supabase/functions/send-leave-notification/index.ts:80-98 | for a settings object, the survivors of `leave_request`, or none when no entry survives |
| LeaveNotification.BlankEntriesDropped | supabase/functions/send-leave-notification/index.ts:84-90 | an empty entry and a whitespace entry are dropped and the one address beside them is kept |
| LeaveNotification.RecipientEmails | supabase/functions/send-leave-notification/index.ts:23-130 | none when an env variable is missing, the fetch throws, the response is not OK or the body is unreadable; a readable body gives `ProcessRecipientData` of the single object's `setting_value`, else of the first array row's `setting_value`, and none when neither form holds the column; any list is non-empty |
| LeaveNotification.RenderBody | supabase/functions/send-leave-notification/index.ts:190-203 | name, e-mail and department fall back to "N/A" and the reason to a fixed sentence; the details block is present exactly when the details are truthy |
| LeaveNotification.SmtpHost | supabase/functions/send-leave-notification/index.ts:12 | the host is never empty, and a set host variable is used as it is |
| LeaveNotification.SmtpPort | supabase/functions/send-leave-notification/index.ts:13 | a set port variable is read with `parseInt` |
| LeaveNotification.DefaultPort | supabase/functions/send-leave-notification/index.ts:13 | with no port variable the port is 587 |
| LeaveNotification.TransportFor | supabase/functions/send-leave-notification/index.ts:175-183 | implicit TLS exactly on port 465, with the configured host and port |
| LeaveNotification.MailFor | supabase/functions/send-leave-notification/index.ts:186-204 | the mail goes to the whole recipient list, with the rendered body |
| LeaveNotification.Serve | supabase/functions/send-leave-notification/index.ts:132-223 | OPTIONS gives 200 "ok"; a missing SMTP account gives 500; missing recipients give 500; with both present and a readable body, exactly one mail goes out, with `TransportFor` and `MailFor` to the whole list; an unreadable body gives 500 with its message and sends nothing; the answer is 200 exactly when the send delivered, with its message id; a failed send gives 500 with its message |
| LeaveNotification.SmtpCheckedBeforeRecipients | supabase/functions/send-leave-notification/index.ts:140-150 | a missing SMTP account is reported before recipients are fetched: the fetch cannot change the answer |
| LeaveNotification.RecipientsCheckedBeforeBody | supabase/functions/send-leave-notification/index.ts:150-170 | missing recipients are reported before the body is read, and nothing is sent |
| AttendanceDashboard.NewRecord | src/components/attendance/AttendanceDashboard.tsx:155-162 | the type is fixed by the action, the coordinates come from the position, the location is "Current Location" and the status is "verified" |
| AttendanceDashboard.Offered | src/components/attendance/AttendanceDashboard.tsx:287-313 | the card offers check-in exactly when not checked in |
| AttendanceDashboard.Step | src/components/attendance/AttendanceDashboard.tsx:149-225 | a press flips the flag exactly when it got a position and an error-free insert |
| AttendanceDashboard.Stored | src/components/attendance/AttendanceDashboard.tsx:149-225 | a series of presses stores at most one record per press |
| AttendanceDashboard.StoredAlternate | src/components/attendance/AttendanceDashboard.tsx:149-225 | stored records alternate between check-in and check-out, starting with the action first offered; the final flag says whether the last one was a check-in |
| AttendanceDashboard.StatusColor | src/components/attendance/AttendanceDashboard.tsx:240-251 | exactly the three known statuses get a badge other than gray |
| AttendanceDashboard.StatusIcon | src/components/attendance/AttendanceDashboard.tsx:227-238 | the check icon exactly for approved, the cross exactly for rejected, and a colour other than gray exactly for the known statuses |
| AttendanceDashboard.StoredStartsWithOffered | src/components/attendance/AttendanceDashboard.tsx:287-313 | the first stored record is the action the card offered at the start |
| AttendanceDashboard.FinalIsLastStored | src/components/attendance/AttendanceDashboard.tsx:164-166 | the final flag says whether the last stored record was a check-in, and is the starting flag when nothing was stored |
| AttendanceDashboard.StatusStyles | src/components/attendance/AttendanceDashboard.tsx:227-251 | approved, rejected and pending get three different badges and icons; every other status gets the gray default |
| AttendanceDashboard.Dashboard.constructor | src/components/attendance/AttendanceDashboard.tsx:53-59 | not checked in, empty lists, loading data |
| AttendanceDashboard.Dashboard.FetchData | src/components/attendance/AttendanceDashboard.tsx:75-111 | at most the ten newest rows of each list; the leave query runs only after the attendance query succeeded; a failure of either keeps both lists |
| AttendanceDashboard.Dashboard.CheckCurrentStatus | src/components/attendance/AttendanceDashboard.tsx:113-132 | the flag becomes "the newest record of today is a check-in"; with no such row, or on an error, it is kept |
| AttendanceDashboard.Dashboard.Record | src/components/attendance/AttendanceDashboard.tsx:149-225 | a record is written exactly when a position was obtained; the flag changes only after an error-free insert; loading always ends |
| AttendanceDashboard.Dashboard.HandleCheckIn | src/components/attendance/AttendanceDashboard.tsx:149-186 | a successful check-in sets the flag; any failure keeps it |
| AttendanceDashboard.Dashboard.HandleCheckOut | src/components/attendance/AttendanceDashboard.tsx:188-225 | a successful check-out clears the flag; any failure keeps it |
| AttendanceDashboard.Dashboard.Press | src/components/attendance/AttendanceDashboard.tsx:287-313 | the one offered button writes a record exactly when a position was obtained, moves the flag as `Step` says, asks for a refresh exactly on success, and keeps the lists and `loadingData` |
| Profile.TitleCaseFrom | src/components/pages/profile.tsx:60-66 | title-casing keeps the length |
| Profile.TitleCase | src/components/pages/profile.tsx:60-66 | title-casing keeps the length |
| Profile.ToTitleCase | src/components/pages/profile.tsx:60-66 | an absent or empty name gives ""; otherwise the length is kept |
| Profile.TitleCaseToken | src/components/pages/profile.tsx:60-66 | a word token becomes its first character upper-cased, followed by the rest lower-cased |
| Profile.TitleCaseAcrossSpace | src/components/pages/profile.tsx:60-66 | runs never cross whitespace, so the name is title-cased token by token |
| Profile.TitleCaseIdempotent | src/components/pages/profile.tsx:60-66 | title-casing twice is title-casing once |
| Profile.KeepLowerAlnum | src/components/pages/profile.tsx:324-331 | only `[a-z0-9]` is kept, and clean text is unchanged |
| Profile.KeepLowerAlnumOne | src/components/pages/profile.tsx:324-331 | one character is kept exactly when it is in `[a-z0-9]` |
| Profile.KeepLowerAlnumAppend | src/components/pages/profile.tsx:324-331 | the filter works piece by piece, so every kept character stays, in order |
| Profile.KeepDigits | src/components/pages/profile.tsx:530-535 | only digits are kept, and digit text is unchanged |
| Profile.KeepDigitsOne | src/components/pages/profile.tsx:530-535 | one character is kept exactly when it is a digit |
| Profile.KeepDigitsAppend | src/components/pages/profile.tsx:530-535 | the filter works piece by piece, so every digit stays, in order |
| Profile.CleanUserId | src/components/pages/profile.tsx:324-331 | the employee-ID box holds the first 8 (or all, when fewer) `[a-z0-9]` characters of the lower-cased input |
| Profile.CleanNik | src/components/pages/profile.tsx:530-535 | the NIK box holds the first 16 (or all, when fewer) digits of the input |
| Profile.CleanNikIgnoresSeparator | src/components/pages/profile.tsx:530-535 | a non-digit typed anywhere in the NIK leaves the stored digits unchanged |
| Profile.DigitAppended | src/components/pages/profile.tsx:530-535 | a digit typed at the end is kept at the end |
| Profile.CleanNikTypedDigit | src/components/pages/profile.tsx:530-535 | a typed digit is appended while fewer than 16 are held, and ignored once the box is full |
| Profile.CleanUserIdIdempotent | src/components/pages/profile.tsx:324-331 | cleaning a cleaned ID changes nothing |
| Profile.CleanNikIdempotent | src/components/pages/profile.tsx:530-535 | cleaning a cleaned NIK changes nothing |
| Profile.With | src/components/pages/profile.tsx:321-336 | an edit replaces one field and keeps every other |
| Profile.InitialProfile | src/components/pages/profile.tsx:76-88 | the name and e-mail pre-filled from the session (or empty without one), the other text fields empty, language "en", no avatar |
| Profile.Loaded | src/components/pages/profile.tsx:166-181 | a filled name and e-mail are kept, otherwise they fall back to the session's name and e-mail (or "" without a session); phone, department, position, location, gender, birth date, ID and NIK fall back to ""; the language falls back to "en"; the avatar to "" |
| Profile.FirstMissing | src/components/pages/profile.tsx:196-219 | the first required field, in source order, that is empty or whitespace only; none when all are filled |
| Profile.FindMissing | src/components/pages/profile.tsx:209-219 | the loop finds exactly `FirstMissing` |
| Profile.UserIdCheck | src/components/pages/profile.tsx:228-252 | an empty ID is skipped; otherwise it is accepted exactly when its lower-case form has 3 to 8 characters, all in `[a-z0-9]` |
| Profile.NikCheck | src/components/pages/profile.tsx:255-265 | an empty NIK is skipped; otherwise it is accepted exactly when it is 16 digits |
| Profile.CleanedUserIdAccepted | src/components/pages/profile.tsx:228-252 | a cleaned ID passes the save check exactly when it is empty or has at least 3 characters |
| Profile.CleanedNikAccepted | src/components/pages/profile.tsx:255-265 | a cleaned NIK passes exactly when it is empty or complete |
| Profile.StoredUserIdIsClean | src/components/pages/profile.tsx:230-251 | the stored lower-case ID is its own cleaned form |
| Profile.RowFor | src/components/pages/profile.tsx:268-291 | the name is title-cased, the ID lower-cased, the e-mail is the profile's or else the session's; NIK, phone, department, position, location, gender, birth date, language and avatar are stored as edited; the time stamp is `now` |
| Profile.SavedNameIsStable | src/components/pages/profile.tsx:268-291 | saving the saved name again stores the same name |
| Profile.ProfilePage.constructor | src/components/pages/profile.tsx:76-96 | the initial profile, no departments |
| Profile.ProfilePage.LoadDepartments | src/components/pages/profile.tsx:110-150 | a query error gives the eight defaults; a present list is taken and cached; a throw gives the cached list if there is one |
| Profile.ProfilePage.FetchProfile | src/components/pages/profile.tsx:153-188 | a stored row replaces the profile with the defaults filled in; an error, no row or a throw keeps it; loading ends |
| Profile.ProfilePage.HandleInputChange | src/components/pages/profile.tsx:321-336 | the ID goes through its cleaner; every other field takes the typed value |
| Profile.ProfilePage.NikChanged | src/components/pages/profile.tsx:530-535 | the NIK box stores the cleaned digits |
| Profile.ProfilePage.HandleSave | src/components/pages/profile.tsx:191-317 | no user, then the first missing field, then the ID check, then the NIK check; each failure saves nothing; otherwise `RowFor` is upserted and a successful save switches the interface language; the lower-cased ID is written back before the NIK check |
| Settings.Coalesce | src/components/pages/settings.tsx:126-134 | `??` falls back only on null, so a stored `false` or an empty string is kept |
| Settings.UserSettingsFrom | src/components/pages/settings.tsx:126-134 | each of the seven preferences is the stored value when it is not null, and its default (on, on, on, off, "en", "UTC", off) when it is null |
| Settings.StoredSettingsRoundTrip | src/components/pages/settings.tsx:126-134 | preferences written with no null column read back unchanged |
| Settings.Collect | src/components/pages/settings.tsx:160-166 | the accumulator loop builds exactly the map `Collected` describes |
| Settings.CollectedLastWins | src/components/pages/settings.tsx:160-166 | a key maps to the value of its last row |
| Settings.CollectedKeys | src/components/pages/settings.tsx:160-166 | the map's keys are exactly the rows' keys |
| Settings.AppSettingsFrom | src/components/pages/settings.tsx:168-181 | each of the three stored values is used as it is; a missing or null setting takes its default |
| Settings.AfterAdd | src/components/pages/settings.tsx:253-264 | an accepted entry is appended in trimmed form; otherwise the list is unchanged |
| Settings.AddKeepsListClean | src/components/pages/settings.tsx:253-325 | adding keeps a list duplicate-free, with no empty or untrimmed entry |
| Settings.AddRespectsCap | src/components/pages/settings.tsx:273-293 | a capped list never grows past five |
| Settings.WithoutIndex | src/components/pages/settings.tsx:266-271 | removing never lengthens the list |
| Settings.WithoutIndexSplices | src/components/pages/settings.tsx:266-271 | removal deletes exactly that position and keeps the rest in order; an index outside the list removes nothing |
| Settings.RemoveKeepsListClean | src/components/pages/settings.tsx:266-271 | removing keeps a list duplicate-free, clean and within its cap |
| Settings.SpliceKeepsListClean | src/components/pages/settings.tsx:266-271 | deleting one position from a clean, duplicate-free list leaves it clean and duplicate-free |
| Settings.ApplySmtpEdit | src/components/pages/settings.tsx:339-350 | one SMTP field changes, the others are kept |
| Settings.PortFromInput | src/components/pages/settings.tsx:747 | unreadable text or 0 gives 587; any other number is taken |
| Settings.PortInputReadsNumber | src/components/pages/settings.tsx:747 | a typed positive number is the port |
| Settings.ApplySettingEdit | src/components/pages/settings.tsx:246-251 | the edited preference takes the new value and the other six are kept, for each of the seven keys |
| Settings.AppWrites | src/components/pages/settings.tsx:204-220 | departments, then recipients, then SMTP |
| Settings.Attempted | src/components/pages/settings.tsx:204-228 | no more writes than planned |
| Settings.AttemptedAfterSuccesses | src/components/pages/settings.tsx:204-228 | while every write succeeds, all of them are made and the save carries on with the rest |
| Settings.RunWrites | src/components/pages/settings.tsx:204-228 | the loop makes exactly the `Attempted` writes, reports success exactly when all of them succeeded, and a success made them all |
| Settings.AttemptedStopsAtFirstFailure | src/components/pages/settings.tsx:204-228 | the writes made are a prefix of the plan; all but the last succeeded; the save stopped early only on a failure |
| Settings.SettingsPage.constructor | src/components/pages/settings.tsx:75-102 | the default preferences and initial application settings |
| Settings.SettingsPage.FetchSettings | src/components/pages/settings.tsx:111-141 | a stored row replaces the preferences; no row, an error or a throw keeps them |
| Settings.SettingsPage.FetchAppSettings | src/components/pages/settings.tsx:143-186 | rows are folded into a map and defaults fill the gaps; an error keeps the settings |
| Settings.SettingsPage.HandleSettingChange | src/components/pages/settings.tsx:246-251 | one preference changes and nothing else |
| Settings.SettingsPage.AddDepartment | src/components/pages/settings.tsx:253-264 | the list becomes `AfterAdd`, and the box is cleared exactly when the name was accepted |
| Settings.SettingsPage.RemoveDepartment | src/components/pages/settings.tsx:266-271 | the department list loses exactly that position |
| Settings.SettingsPage.AddAttendanceEmail | src/components/pages/settings.tsx:273-293 | the same rule with a cap of five; nothing else changes |
| Settings.SettingsPage.RemoveAttendanceEmail | src/components/pages/settings.tsx:295-305 | the attendance list loses exactly that position |
| Settings.SettingsPage.AddLeaveEmail | src/components/pages/settings.tsx:307-325 | the same rule for the leave-request list |
| Settings.SettingsPage.RemoveLeaveEmail | src/components/pages/settings.tsx:327-337 | the leave-request list loses exactly that position |
| Settings.SettingsPage.HandleSmtpChange | src/components/pages/settings.tsx:339-350 | one SMTP field changes and every other setting is kept |
| Settings.SettingsPage.PortTyped | src/components/pages/settings.tsx:745-748 | the port box stores `PortFromInput` of the text |
| Settings.SettingsPage.HandleSave | src/components/pages/settings.tsx:188-244 | no user, no writes; otherwise preferences then the three settings, stopping at the first failure; saved exactly when every write made succeeded, and then all four were made |
| App.DropTrailingSlashes | src/App.tsx:148-162 | removes exactly a run of trailing '/' and keeps the first character, so the result ends in '/' only when it is "/" |
| App.RouteKey | src/App.tsx:148-162 | the path is matched lower-cased, with its trailing '/' dropped (a non-empty path keeps its first character) |
| App.RouteOfKey | src/App.tsx:148-162 | a route in the table is gated exactly when its page is private |
| App.RouteFor | src/App.tsx:148-162 | a route is gated exactly when its page is private |
| App.RouteIgnoresCase | src/App.tsx:148-162 | a path and its lower-cased form match the same route |
| App.RouteIgnoresTrailingSlash | src/App.tsx:148-162 | a non-empty path with one more trailing '/' matches the same route |
| App.RouteTable | src/App.tsx:148-162 | the five public paths and the five gated paths, up to case and trailing '/', both as if-and-only-if statements |
| App.Gate | src/App.tsx:86-137 | the loading screen while loading; then a redirect to "/" without a user; then the page in the layout |
| App.ScreenFor | src/App.tsx:148-162 | a path whose matched form is in no route shows nothing; the loading screen and the redirect to "/" only on gated routes, while loading and without a user respectively; a shown page is the route's page |
| App.PrivatePagesNeedUser | src/App.tsx:86-93 | a private page is shown exactly to a signed-in user after loading; a public page always |
| App.ActiveItem | src/App.tsx:96-104 | the highlighted item is a sidebar item, and "Dashboard" for every other path |
| App.HighlightIsExact | src/App.tsx:96-104 | "/Settings" shows the gated settings page, while the sidebar highlights "Dashboard" |
| App.PathIsOwnRouteKey | src/App.tsx:111-115 | the path of an item that does not end in '/' is already in matched form |
| App.ReplaceFirstSpace | src/App.tsx:112 | `replace(' ', '-')` keeps the length and leaves a space-free string alone |
| App.ReplaceFirstSpaceChars | src/App.tsx:112 | each character is kept, or is a space turned into a dash |
| App.ReplaceFirstSpaceSplits | src/App.tsx:112 | only the first space becomes a dash |
| App.PathOf | src/App.tsx:112 | "/" followed by the item's text |
| App.PathOfTwoWords | src/App.tsx:112 | a two-word item gives both words lower-cased and joined by a dash |
| App.SidebarRoundTrip | src/App.tsx:96-131 | every sidebar item leads to a path that highlights that same item, and the path is a gated route |
| App.PreferredLanguage | src/App.tsx:75-83 | a switch exactly when the preference is set and differs from the current language |
| App.Shell.constructor | src/App.tsx:73 | the sidebar starts closed |
| App.Shell.ToggleSidebar | src/App.tsx:120-124 | the toggles flip the sidebar |
| App.Shell.HandleItemClick | src/App.tsx:111-115 | navigate to `PathOf(item)` and close the sidebar |
| App.Shell.ApplyLanguagePreference | src/App.tsx:75-83 | the language changes exactly when `PreferredLanguage` says so |
| SignUpForm.Validate | src/components/auth/SignUpForm.tsx:46-65 | user ID length, then password length, then confirmation, then the e-mail pattern: each failure holds exactly when the earlier checks passed and its own fails |
| SignUpForm.Message | src/components/auth/SignUpForm.tsx:46-65 | every check has a non-empty message, different from the sign-up failure message |
| SignUpForm.UserIdOnlyLengthChecked | src/components/auth/SignUpForm.tsx:47 | only the user ID's length is checked, not its characters |
| SignUpForm.MessagesDistinct | src/components/auth/SignUpForm.tsx:46-65 | the messages tell the checks apart and differ from the sign-up failure message |
| SignUpForm.Form.constructor | src/components/auth/SignUpForm.tsx:25-35 | empty fields, no error |
| SignUpForm.Form.HandleSubmit | src/components/auth/SignUpForm.tsx:71-108 | the error is cleared; a failed check shows its message and calls nothing; otherwise sign-up gets e-mail, password and name but never the user ID; navigation to /login exactly on success; one generic message on failure |
| ChangePasswordForm.ValidationOrder | src/components/auth/ChangePasswordForm.tsx:36-74 | current password present, new length, confirmation, new differs from current: each failure holds exactly when the earlier checks passed and its own fails |
| ChangePasswordForm.Validate | src/components/auth/ChangePasswordForm.tsx:36-74 | a form that passes has a current password that is not blank, and a new password of at least eight characters that is confirmed and differs from the current one |
| ChangePasswordForm.FailureText | src/components/auth/ChangePasswordForm.tsx:108-112 | the error's message when present, else a fixed text |
| ChangePasswordForm.WhitespaceCurrentRefused | src/components/auth/ChangePasswordForm.tsx:37 | a whitespace-only current password is refused |
| ChangePasswordForm.Form.constructor | src/components/auth/ChangePasswordForm.tsx:23-29 | empty fields |
| ChangePasswordForm.Form.HandleSubmit | src/components/auth/ChangePasswordForm.tsx:80-116 | a failed check sends nothing and changes nothing; otherwise only the new password is sent; success clears all three fields and failure keeps them |
| ChangePasswordForm.Form.Update | src/components/auth/ChangePasswordForm.tsx:85-115 | once the checks passed, only the new password is sent; success clears the three fields, failure keeps them and shows `FailureText`; loading ends |
| LoginForm.ErrorAfter | src/components/auth/LoginForm.tsx:62-82 | no error exactly when sign-in succeeded |
| LoginForm.UnknownUserLooksLikeWrongPassword | src/components/auth/LoginForm.tsx:72-82 | an unknown identifier and a wrong password end with the same message |
| LoginForm.Form.constructor | src/components/auth/LoginForm.tsx:27-35 | empty fields |
| LoginForm.Form.HandleSubmit | src/components/auth/LoginForm.tsx:49-87 | a blank field stops with an error and no sign-in; otherwise sign-in gets the untrimmed fields; navigation to /dashboard exactly on success; loading always ends |
| ForgotPasswordForm.RedirectFor | src/components/auth/ForgotPasswordForm.tsx:51-54 | the origin followed by "/change-password" |
| ForgotPasswordForm.Form.constructor | src/components/auth/ForgotPasswordForm.tsx:25-27 | empty, not submitted |
| ForgotPasswordForm.Form.HandleSubmit | src/components/auth/ForgotPasswordForm.tsx:34-75 | a refused address sends nothing and keeps `isSubmitted`; an accepted one sends exactly one reset request; `isSubmitted` is set only after an error-free reset; loading always ends |
| ForgotPasswordForm.Form.TryAgain | src/components/auth/ForgotPasswordForm.tsx:101-104 | back to the empty, unsubmitted form |

The `Auth.SignIn` contract states these properties of `signIn` one by one:

- an e-mail token goes verbatim to password sign-in, with no lookup;
- any other token is only looked up, never used as an e-mail;
- no row, several rows or a failed query stop with "User not found with provided
  credentials", before any password check;
- one row signs in with that row's e-mail and the caller's password, unchanged;
- the service's error is rethrown.

## Left out

- Backend calls: Supabase queries, REST fetches, the edge-function runtime and Nodemailer are not modelled. Each is the result it returned, passed in as a value, and what the code sends is returned as a value (calls, rows, writes, mails).
- Auth.SignIn: the users lookup is abstract: "the rows whose `custom_user_id` or `nik` equals the token". The filter string is built by interpolation, and what the server makes of a token containing `,` or `)` is not modelled.
- Browser facilities are parameters or fields. This covers geolocation, the one-second clock, the 1.5-second delayed navigation after a leave request, `localStorage` and `JSON.parse` of the cached department list.
- Dates: an `Instant` carries its time-line position and the two halves of its ISO text. Time zones, `toLocaleDateString` in the mail body and the `updated_at` clock value (a parameter `now`) are not modelled.
- AttendanceDashboard.Dashboard.CheckCurrentStatus: the query does the "today" filter and the newest-first order, so the model takes the rows it returned.
- Coordinates are opaque reals. Their display with `toFixed` and the map link are left out.
- Translation is an opaque `string -> string` parameter. Toast titles and texts, and JSX markup and styling, are left out; the mail body is its field values plus whether the details block is present.
- The leave-type and reason option lists (src/components/attendance/LeaveRequestForm.tsx:42-61) only feed the select boxes. Submitting accepts any non-empty key.
- Concurrency is left out: overlapping submits, several tabs, and effects racing each other.
- Characters are Unicode scalar values. JavaScript's `length` counts UTF-16 code units, so the length checks differ on text outside the Basic Multilingual Plane.
- Common.Lower: `toLowerCase`/`toUpperCase` map only the ASCII letters. Other scripts are left unchanged, which JavaScript does not do.
- Settings.PortFromInput: `parseInt` without a radix reads a `0x` prefix as hexadecimal, but the model reads decimal digits only.
- App.RouteFor: React Router also percent-decodes the path before matching. The model matches the path as given.
- Settings.AppSettingsFrom: a stored value under a key, in another key's shape, falls back to the default. The source would use it as it is.
- Auth.LookupResult: a matching row's e-mail is a string. The schema lets it be null.
- Some handlers hold only UI or a single unchecked backend call and are left out: `signOut` and `useAuth` (supabase/auth.tsx:83-102), account deletion (src/components/pages/settings.tsx:352 onwards) and the password-visibility toggles of the forms.
