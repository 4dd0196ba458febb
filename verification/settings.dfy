/** The settings page: user preferences and the shared application settings (department
    list, the two recipient lists, SMTP configuration), their loading defaults, the list
    editors and the ordered save. */
module Settings {
  import opened Common

  // ---------------------------------------------------------------- data

  datatype UserSettings = UserSettings(
    notificationsEnabled: bool, emailNotifications: bool, locationTracking: bool,
    darkMode: bool, language: string, timezone: string, autoCheckout: bool)

  const DefaultUserSettings := UserSettings(true, true, true, false, "en", "UTC", false)

  datatype Smtp = Smtp(host: string, port: int, secure: bool, username: string, password: string)

  const DefaultSmtp := Smtp("smtp.gmail.com", 587, false, "", "")

  /** `email_recipients`: who is told about attendance and about leave requests. */
  datatype Recipients = Recipients(attendance: seq<string>, leaveRequest: seq<string>)

  datatype AppSettings = AppSettings(departments: seq<string>, recipients: Recipients, smtp: Smtp)

  const InitialAppSettings := AppSettings([], Recipients([], []), DefaultSmtp)

  /** The largest number of addresses a recipient list accepts from the page. */
  const MaxRecipients := 5

  // ---------------------------------------------------------------- loading

  /** A `user_settings` row; any column may be null. */
  datatype StoredUserSettings = StoredUserSettings(
    notificationsEnabled: Option<bool>, emailNotifications: Option<bool>,
    locationTracking: Option<bool>, darkMode: Option<bool>, language: Option<string>,
    timezone: Option<string>, autoCheckout: Option<bool>)

  /** `x ?? d` on a column: only null falls back, so a stored `false` or an empty string is kept. */
  function Coalesce<T>(o: Option<T>, d: T): (r: T)
    ensures o.Some? ==> r == o.value
    ensures o.None? ==> r == d
  {
    if o.Some? then o.value else d
  }

  /** `fetchSettings`: each null column takes its default. */
  function UserSettingsFrom(row: StoredUserSettings): (s: UserSettings)
    ensures row.notificationsEnabled.None? ==> s.notificationsEnabled == DefaultUserSettings.notificationsEnabled
    ensures row.notificationsEnabled.Some? ==> s.notificationsEnabled == row.notificationsEnabled.value
    ensures row.emailNotifications.None? ==> s.emailNotifications == DefaultUserSettings.emailNotifications
    ensures row.emailNotifications.Some? ==> s.emailNotifications == row.emailNotifications.value
    ensures row.locationTracking.None? ==> s.locationTracking == DefaultUserSettings.locationTracking
    ensures row.locationTracking.Some? ==> s.locationTracking == row.locationTracking.value
    ensures row.darkMode.None? ==> s.darkMode == DefaultUserSettings.darkMode
    ensures row.darkMode.Some? ==> s.darkMode == row.darkMode.value
    ensures row.language.None? ==> s.language == DefaultUserSettings.language
    ensures row.language.Some? ==> s.language == row.language.value
    ensures row.timezone.None? ==> s.timezone == DefaultUserSettings.timezone
    ensures row.timezone.Some? ==> s.timezone == row.timezone.value
    ensures row.autoCheckout.None? ==> s.autoCheckout == DefaultUserSettings.autoCheckout
    ensures row.autoCheckout.Some? ==> s.autoCheckout == row.autoCheckout.value
  {
    UserSettings(
      Coalesce(row.notificationsEnabled, true), Coalesce(row.emailNotifications, true),
      Coalesce(row.locationTracking, true), Coalesce(row.darkMode, false),
      Coalesce(row.language, "en"), Coalesce(row.timezone, "UTC"), Coalesce(row.autoCheckout, false))
  }

  /** A row stored with no null column is read back unchanged. */
  lemma StoredSettingsRoundTrip(s: UserSettings)
    ensures UserSettingsFrom(StoredUserSettings(
              Some(s.notificationsEnabled), Some(s.emailNotifications), Some(s.locationTracking),
              Some(s.darkMode), Some(s.language), Some(s.timezone), Some(s.autoCheckout))) == s
  {
  }

  /** The stored `setting_value` of an `app_settings` row. */
  datatype SettingValue =
    | DepartmentList(names: seq<string>)
    | RecipientLists(lists: Recipients)
    | SmtpConfig(config: Smtp)
    | NullValue

  datatype SettingRow = SettingRow(key: string, value: SettingValue)

  /** The `reduce` of `fetchAppSettings`: a key-to-value map where a later row for the same
      key overwrites an earlier one. */
  function Collected(rows: seq<SettingRow>): (m: map<string, SettingValue>)
  {
    if rows == [] then map[]
    else Collected(rows[..|rows| - 1])[rows[|rows| - 1].key := rows[|rows| - 1].value]
  }

  /** The accumulator loop of the `reduce`, mutating one map in place. */
  method Collect(rows: seq<SettingRow>) returns (acc: map<string, SettingValue>)
    ensures acc == Collected(rows)
  {
    acc := map[];
    var i := 0;
    while i < |rows|
      invariant 0 <= i <= |rows|
      invariant acc == Collected(rows[..i])
    {
      assert rows[..i + 1][..i] == rows[..i];
      acc := acc[rows[i].key := rows[i].value];
      i := i + 1;
    }
    assert rows[..i] == rows;
  }

  /** Exactly the keys of the rows are in the map, and each maps to the value of the
      last row with that key. */
  lemma {:induction false} CollectedLastWins(rows: seq<SettingRow>, i: nat)
    requires i < |rows|
    requires forall j :: i < j < |rows| ==> rows[j].key != rows[i].key
    ensures rows[i].key in Collected(rows) && Collected(rows)[rows[i].key] == rows[i].value
  {
    if i < |rows| - 1 {
      var init := rows[..|rows| - 1];
      CollectedLastWins(init, i);
      assert init[i] == rows[i];
    }
  }

  lemma {:induction false} CollectedKeys(rows: seq<SettingRow>, k: string)
    ensures k in Collected(rows) <==> exists j :: 0 <= j < |rows| && rows[j].key == k
  {
    if rows != [] {
      var init := rows[..|rows| - 1];
      CollectedKeys(init, k);
      if k in Collected(rows) && k != rows[|rows| - 1].key {
        var j :| 0 <= j < |init| && init[j].key == k;
        assert rows[j] == init[j];
      }
      if exists j :: 0 <= j < |rows| && rows[j].key == k {
        var j :| 0 <= j < |rows| && rows[j].key == k;
        if j < |init| {
          assert init[j] == rows[j];
        }
      }
    }
  }

  /** `settingsMap.x || default`: a stored value is used, and a missing or null value
      falls back (an array or object is truthy even when empty). A value stored under a
      key in another key's shape is not modelled and also falls back. */
  function AppSettingsFrom(m: map<string, SettingValue>): (a: AppSettings)
    ensures "departments" in m && m["departments"].DepartmentList? ==> a.departments == m["departments"].names
    ensures "departments" !in m || m["departments"] == NullValue ==> a.departments == []
    ensures "email_recipients" in m && m["email_recipients"].RecipientLists? ==> a.recipients == m["email_recipients"].lists
    ensures "email_recipients" !in m || m["email_recipients"] == NullValue ==> a.recipients == Recipients([], [])
    ensures "smtp_settings" in m && m["smtp_settings"].SmtpConfig? ==> a.smtp == m["smtp_settings"].config
    ensures "smtp_settings" !in m || m["smtp_settings"] == NullValue ==> a.smtp == DefaultSmtp
  {
    AppSettings(
      if "departments" in m && m["departments"].DepartmentList? then m["departments"].names else [],
      if "email_recipients" in m && m["email_recipients"].RecipientLists? then m["email_recipients"].lists
      else Recipients([], []),
      if "smtp_settings" in m && m["smtp_settings"].SmtpConfig? then m["smtp_settings"].config
      else DefaultSmtp)
  }

  // ---------------------------------------------------------------- list editors

  predicate Distinct(list: seq<string>) {
    forall i, j :: 0 <= i < j < |list| ==> list[i] != list[j]
  }

  predicate CleanEntries(list: seq<string>) {
    forall i :: 0 <= i < |list| ==> TrimmedText(list[i])
  }

  /** Whether the add button takes the typed text: its trimmed form is non-empty, absent
      from the list, and (for a capped list) the list is not full. */
  predicate AddAccepted(list: seq<string>, input: string, cap: Option<nat>) {
    Trim(input) != [] && (cap.None? || |list| < cap.value) && Trim(input) !in list
  }

  /** The list after pressing add. */
  function AfterAdd(list: seq<string>, input: string, cap: Option<nat>): (r: seq<string>)
    ensures AddAccepted(list, input, cap) ==> r == list + [Trim(input)]
    ensures !AddAccepted(list, input, cap) ==> r == list
  {
    if AddAccepted(list, input, cap) then list + [Trim(input)] else list
  }

  lemma AppendKeepsListClean(list: seq<string>, t: string)
    requires Distinct(list) && CleanEntries(list) && TrimmedText(t) && t !in list
    ensures Distinct(list + [t]) && CleanEntries(list + [t])
  {
    var r := list + [t];
    forall i | 0 <= i < |r| ensures TrimmedText(r[i]) {
      if i < |list| {
        assert r[i] == list[i];
      }
    }
    forall i, j | 0 <= i < j < |r| ensures r[i] != r[j] {
      if j == |list| {
        assert r[i] == list[i] && list[i] in list;
      }
    }
  }

  /** Adding keeps a list free of duplicates and of untrimmed or empty entries. */
  lemma AddKeepsListClean(list: seq<string>, input: string, cap: Option<nat>)
    requires Distinct(list) && CleanEntries(list)
    ensures Distinct(AfterAdd(list, input, cap)) && CleanEntries(AfterAdd(list, input, cap))
  {
    if AddAccepted(list, input, cap) {
      AppendKeepsListClean(list, Trim(input));
    }
  }

  /** A capped list never grows past its cap. */
  lemma AddRespectsCap(list: seq<string>, input: string, cap: nat)
    requires |list| <= cap
    ensures |AfterAdd(list, input, Some(cap))| <= cap
  {
  }

  /** `list.filter((_, i) => i !== index)`. */
  function WithoutIndex(list: seq<string>, index: int): (r: seq<string>)
    ensures |r| <= |list|
  {
    if list == [] then []
    else (if index == 0 then [] else [list[0]]) + WithoutIndex(list[1..], index - 1)
  }

  /** Removing deletes exactly the entry at `index` and keeps the others in order; an
      index outside the list removes nothing. */
  lemma {:induction false} WithoutIndexSplices(list: seq<string>, index: int)
    ensures WithoutIndex(list, index) == if 0 <= index < |list| then list[..index] + list[index + 1..] else list
  {
    if list != [] {
      WithoutIndexSplices(list[1..], index - 1);
      if 0 < index < |list| {
        assert list[1..][..index - 1] == list[1..index];
        assert [list[0]] + list[1..index] == list[..index];
        assert list[1..][index..] == list[index + 1..];
      } else if index != 0 {
        assert [list[0]] + list[1..] == list;
      }
    }
  }

  /** Removing keeps a list free of duplicates, of unclean entries and within its cap. */
  lemma RemoveKeepsListClean(list: seq<string>, index: int)
    requires Distinct(list) && CleanEntries(list)
    ensures Distinct(WithoutIndex(list, index)) && CleanEntries(WithoutIndex(list, index))
    ensures |WithoutIndex(list, index)| <= |list|
  {
    WithoutIndexSplices(list, index);
    if 0 <= index < |list| {
      SpliceKeepsListClean(list, index);
    }
  }

  lemma SpliceKeepsListClean(list: seq<string>, index: nat)
    requires Distinct(list) && CleanEntries(list) && index < |list|
    ensures Distinct(list[..index] + list[index + 1..]) && CleanEntries(list[..index] + list[index + 1..])
  {
    var r := list[..index] + list[index + 1..];
    forall i | 0 <= i < |r| ensures TrimmedText(r[i]) {
      assert r[i] == list[if i < index then i else i + 1];
    }
    forall i, j | 0 <= i < j < |r| ensures r[i] != r[j] {
      assert r[i] == list[if i < index then i else i + 1];
      assert r[j] == list[if j < index then j else j + 1];
    }
  }

  // ---------------------------------------------------------------- single edits

  /** One SMTP field, as `handleSmtpChange(key, value)` receives it. */
  datatype SmtpEdit = Host(host: string) | Port(port: int) | Secure(secure: bool)
                    | Username(username: string) | Password(password: string)

  function ApplySmtpEdit(s: Smtp, e: SmtpEdit): (r: Smtp)
    ensures e.Host? ==> r == s.(host := e.host)
    ensures e.Port? ==> r == s.(port := e.port)
    ensures e.Secure? ==> r == s.(secure := e.secure)
    ensures e.Username? ==> r == s.(username := e.username)
    ensures e.Password? ==> r == s.(password := e.password)
  {
    match e
    case Host(h) => s.(host := h)
    case Port(p) => s.(port := p)
    case Secure(b) => s.(secure := b)
    case Username(u) => s.(username := u)
    case Password(p) => s.(password := p)
  }

  /** The port box: `parseInt(text) || 587`, so unreadable text and 0 give 587. */
  function PortFromInput(text: string): (port: int)
    ensures port != 0
    ensures ParseInt(text).None? ==> port == 587
    ensures ParseInt(text).Some? && ParseInt(text).value != 0 ==> port == ParseInt(text).value
  {
    match ParseInt(text)
    case None => 587
    case Some(n) => if n == 0 then 587 else n
  }

  /** A typed positive port number is taken as it is. */
  lemma PortInputReadsNumber(n: nat)
    requires n > 0
    ensures PortFromInput(DecimalText(n)) == n
  {
    ParseIntOfDecimalText(n);
  }

  /** One preference, as `handleSettingChange(key, value)` receives it. */
  datatype SettingEdit =
    | NotificationsEnabled(on: bool) | EmailNotifications(on: bool) | LocationTracking(on: bool)
    | DarkMode(on: bool) | Language(text: string) | Timezone(text: string) | AutoCheckout(on: bool)

  /** `handleSettingChange`: the edited preference takes the new value and the other six
      are kept. */
  function ApplySettingEdit(s: UserSettings, e: SettingEdit): (r: UserSettings)
    ensures e.NotificationsEnabled? ==> r == s.(notificationsEnabled := e.on)
    ensures e.EmailNotifications? ==> r == s.(emailNotifications := e.on)
    ensures e.LocationTracking? ==> r == s.(locationTracking := e.on)
    ensures e.AutoCheckout? ==> r == s.(autoCheckout := e.on)
    ensures e.DarkMode? ==> r == s.(darkMode := e.on)
    ensures e.Language? ==> r == s.(language := e.text)
    ensures e.Timezone? ==> r == s.(timezone := e.text)
  {
    match e
    case NotificationsEnabled(b) => s.(notificationsEnabled := b)
    case EmailNotifications(b) => s.(emailNotifications := b)
    case LocationTracking(b) => s.(locationTracking := b)
    case DarkMode(b) => s.(darkMode := b)
    case Language(t) => s.(language := t)
    case Timezone(t) => s.(timezone := t)
    case AutoCheckout(b) => s.(autoCheckout := b)
  }

  // ---------------------------------------------------------------- saving

  /** One write of `handleSave`: the user's preferences, or one application setting
      upserted on its key. */
  datatype Write =
    | UserSettingsWrite(userId: string, settings: UserSettings)
    | AppSettingWrite(key: string, value: SettingValue)

  /** The three application-setting writes, in the order they are made. */
  function AppWrites(a: AppSettings): (ws: seq<Write>)
    ensures |ws| == 3
    ensures ws[0] == AppSettingWrite("departments", DepartmentList(a.departments))
    ensures ws[1] == AppSettingWrite("email_recipients", RecipientLists(a.recipients))
    ensures ws[2] == AppSettingWrite("smtp_settings", SmtpConfig(a.smtp))
  {
    [AppSettingWrite("departments", DepartmentList(a.departments)),
     AppSettingWrite("email_recipients", RecipientLists(a.recipients)),
     AppSettingWrite("smtp_settings", SmtpConfig(a.smtp))]
  }

  /** The writes made in order until (and including) the first that fails. */
  function Attempted(ws: seq<Write>, ok: Write -> bool): (r: seq<Write>)
    ensures |r| <= |ws|
  {
    if ws == [] then []
    else if !ok(ws[0]) then [ws[0]]
    else [ws[0]] + Attempted(ws[1..], ok)
  }

  /** One step of `Attempted` from position `i` of the plan. */
  lemma AttemptedFrom(ws: seq<Write>, i: nat, ok: Write -> bool)
    requires i < |ws|
    ensures Attempted(ws[i..], ok) == if ok(ws[i]) then [ws[i]] + Attempted(ws[i + 1..], ok) else [ws[i]]
  {
    assert ws[i..][0] == ws[i] && ws[i..][1..] == ws[i + 1..];
  }

  /** While every write succeeds, `Attempted` makes them all and carries on with the rest. */
  lemma {:induction false} AttemptedAfterSuccesses(ws: seq<Write>, i: nat, ok: Write -> bool)
    requires i <= |ws| && forall j :: 0 <= j < i ==> ok(ws[j])
    ensures Attempted(ws, ok) == ws[..i] + Attempted(ws[i..], ok)
  {
    if i == 0 {
      assert ws[i..] == ws;
    } else {
      AttemptedAfterSuccesses(ws, i - 1, ok);
      AttemptedFrom(ws, i - 1, ok);
      assert ws[..i] == ws[..i - 1] + [ws[i - 1]];
    }
  }

  /** Makes the writes in order and stops after the first that fails (the `throw` out of
      the save); `allOk` says whether every write made succeeded. */
  method RunWrites(ws: seq<Write>, ok: Write -> bool) returns (done: seq<Write>, allOk: bool)
    ensures done == Attempted(ws, ok)
    ensures allOk <==> forall i :: 0 <= i < |done| ==> ok(done[i])
    ensures allOk ==> done == ws
  {
    done, allOk := [], true;
    var i := 0;
    while i < |ws|
      invariant 0 <= i <= |ws|
      invariant done == ws[..i]
      invariant forall j :: 0 <= j < i ==> ok(ws[j])
    {
      if !ok(ws[i]) {
        AttemptedAfterSuccesses(ws, i, ok);
        AttemptedFrom(ws, i, ok);
        done := done + [ws[i]];
        assert done[i] == ws[i];
        allOk := false;
        return;
      }
      assert ws[..i + 1] == ws[..i] + [ws[i]];
      done := done + [ws[i]];
      i := i + 1;
    }
    AttemptedAfterSuccesses(ws, i, ok);
    assert ws[..i] == ws;
  }

  /** The writes made are a prefix of the planned ones; all but the last succeeded, and
      the save stopped early only because the last one failed. */
  lemma {:induction false} AttemptedStopsAtFirstFailure(ws: seq<Write>, ok: Write -> bool)
    ensures Attempted(ws, ok) <= ws
    ensures forall i :: 0 <= i < |Attempted(ws, ok)| - 1 ==> ok(Attempted(ws, ok)[i])
    ensures Attempted(ws, ok) == ws || !ok(Attempted(ws, ok)[|Attempted(ws, ok)| - 1])
  {
    if ws != [] && ok(ws[0]) {
      var rest := Attempted(ws[1..], ok);
      AttemptedStopsAtFirstFailure(ws[1..], ok);
      var r := [ws[0]] + rest;
      assert Attempted(ws, ok) == r;
      forall i | 0 <= i < |r| - 1 ensures ok(r[i]) {
        if i > 0 {
          assert r[i] == rest[i - 1];
        }
      }
      if rest == ws[1..] {
        assert r == ws;
      } else {
        assert r[|r| - 1] == rest[|rest| - 1];
      }
    }
  }

  datatype SaveOutcome = NotSignedIn | SaveFailed | Saved

  datatype LoadResult<T> = LoadError | LoadThrew | Loaded(data: Option<T>)

  class SettingsPage {
    var settings: UserSettings
    var appSettings: AppSettings
    var isLoading: bool
    var isSaving: bool
    var newDepartment: string
    var newAttendanceEmail: string
    var newLeaveEmail: string

    constructor ()
      ensures settings == DefaultUserSettings && appSettings == InitialAppSettings
      ensures !isLoading && !isSaving
      ensures newDepartment == "" && newAttendanceEmail == "" && newLeaveEmail == ""
    {
      settings, appSettings := DefaultUserSettings, InitialAppSettings;
      isLoading, isSaving := false, false;
      newDepartment, newAttendanceEmail, newLeaveEmail := "", "", "";
    }

    /** `fetchSettings`: a stored row replaces the preferences; no row, an error or a
        throw keeps them. */
    method FetchSettings(result: LoadResult<StoredUserSettings>)
      modifies this
      ensures settings == if result.Loaded? && result.data.Some? then UserSettingsFrom(result.data.value) else old(settings)
      ensures appSettings == old(appSettings) && !isLoading && isSaving == old(isSaving)
      ensures newDepartment == old(newDepartment) && newAttendanceEmail == old(newAttendanceEmail)
      ensures newLeaveEmail == old(newLeaveEmail)
    {
      isLoading := true;
      if result.Loaded? && result.data.Some? {
        settings := UserSettingsFrom(result.data.value);
      }
      isLoading := false;
    }

    /** `fetchAppSettings`: the rows are folded into a map and each missing setting takes
        its default; an error or a throw keeps the current settings. */
    method FetchAppSettings(result: LoadResult<seq<SettingRow>>)
      modifies this
      ensures appSettings == if result.Loaded? && result.data.Some? then AppSettingsFrom(Collected(result.data.value)) else old(appSettings)
      ensures settings == old(settings) && isLoading == old(isLoading) && isSaving == old(isSaving)
      ensures newDepartment == old(newDepartment) && newAttendanceEmail == old(newAttendanceEmail)
      ensures newLeaveEmail == old(newLeaveEmail)
    {
      if result.Loaded? && result.data.Some? {
        var m := Collect(result.data.value);
        appSettings := AppSettingsFrom(m);
      }
    }

    method HandleSettingChange(e: SettingEdit)
      modifies this
      ensures settings == ApplySettingEdit(old(settings), e)
      ensures appSettings == old(appSettings) && isLoading == old(isLoading) && isSaving == old(isSaving)
      ensures newDepartment == old(newDepartment) && newAttendanceEmail == old(newAttendanceEmail)
      ensures newLeaveEmail == old(newLeaveEmail)
    {
      settings := ApplySettingEdit(settings, e);
    }

    /** `addDepartment`: appends the trimmed name and clears the box when accepted;
        otherwise nothing changes. */
    method AddDepartment()
      modifies this
      ensures appSettings == old(appSettings).(departments := AfterAdd(old(appSettings).departments, old(newDepartment), None))
      ensures newDepartment == if AddAccepted(old(appSettings).departments, old(newDepartment), None) then "" else old(newDepartment)
      ensures settings == old(settings) && isLoading == old(isLoading) && isSaving == old(isSaving)
      ensures newAttendanceEmail == old(newAttendanceEmail) && newLeaveEmail == old(newLeaveEmail)
    {
      var name := Trim(newDepartment);
      if name != [] && name !in appSettings.departments {
        appSettings := appSettings.(departments := appSettings.departments + [name]);
        newDepartment := "";
      }
    }

    method RemoveDepartment(index: int)
      modifies this
      ensures appSettings == old(appSettings).(departments := WithoutIndex(old(appSettings).departments, index))
      ensures settings == old(settings) && isLoading == old(isLoading) && isSaving == old(isSaving)
      ensures newDepartment == old(newDepartment) && newAttendanceEmail == old(newAttendanceEmail)
      ensures newLeaveEmail == old(newLeaveEmail)
    {
      appSettings := appSettings.(departments := WithoutIndex(appSettings.departments, index));
    }

    /** `addAttendanceEmail`: as for departments, and only while the list has fewer than
        five addresses. */
    method AddAttendanceEmail()
      modifies this
      ensures appSettings == old(appSettings).(recipients := old(appSettings).recipients.(
                attendance := AfterAdd(old(appSettings).recipients.attendance, old(newAttendanceEmail), Some(MaxRecipients))))
      ensures newAttendanceEmail ==
                if AddAccepted(old(appSettings).recipients.attendance, old(newAttendanceEmail), Some(MaxRecipients))
                then "" else old(newAttendanceEmail)
      ensures settings == old(settings) && isLoading == old(isLoading) && isSaving == old(isSaving)
      ensures newDepartment == old(newDepartment) && newLeaveEmail == old(newLeaveEmail)
    {
      var address := Trim(newAttendanceEmail);
      var list := appSettings.recipients.attendance;
      if address != [] && |list| < MaxRecipients && address !in list {
        appSettings := appSettings.(recipients := appSettings.recipients.(attendance := list + [address]));
        newAttendanceEmail := "";
      }
    }

    method RemoveAttendanceEmail(index: int)
      modifies this
      ensures appSettings == old(appSettings).(recipients := old(appSettings).recipients.(
                attendance := WithoutIndex(old(appSettings).recipients.attendance, index)))
      ensures settings == old(settings) && isLoading == old(isLoading) && isSaving == old(isSaving)
      ensures newDepartment == old(newDepartment) && newAttendanceEmail == old(newAttendanceEmail)
      ensures newLeaveEmail == old(newLeaveEmail)
    {
      appSettings := appSettings.(recipients := appSettings.recipients.(
        attendance := WithoutIndex(appSettings.recipients.attendance, index)));
    }

    /** `addLeaveEmail`: the same rule for the leave-request list. */
    method AddLeaveEmail()
      modifies this
      ensures appSettings == old(appSettings).(recipients := old(appSettings).recipients.(
                leaveRequest := AfterAdd(old(appSettings).recipients.leaveRequest, old(newLeaveEmail), Some(MaxRecipients))))
      ensures newLeaveEmail ==
                if AddAccepted(old(appSettings).recipients.leaveRequest, old(newLeaveEmail), Some(MaxRecipients))
                then "" else old(newLeaveEmail)
      ensures settings == old(settings) && isLoading == old(isLoading) && isSaving == old(isSaving)
      ensures newDepartment == old(newDepartment) && newAttendanceEmail == old(newAttendanceEmail)
    {
      var address := Trim(newLeaveEmail);
      var list := appSettings.recipients.leaveRequest;
      if address != [] && |list| < MaxRecipients && address !in list {
        appSettings := appSettings.(recipients := appSettings.recipients.(leaveRequest := list + [address]));
        newLeaveEmail := "";
      }
    }

    method RemoveLeaveEmail(index: int)
      modifies this
      ensures appSettings == old(appSettings).(recipients := old(appSettings).recipients.(
                leaveRequest := WithoutIndex(old(appSettings).recipients.leaveRequest, index)))
      ensures settings == old(settings) && isLoading == old(isLoading) && isSaving == old(isSaving)
      ensures newDepartment == old(newDepartment) && newAttendanceEmail == old(newAttendanceEmail)
      ensures newLeaveEmail == old(newLeaveEmail)
    {
      appSettings := appSettings.(recipients := appSettings.recipients.(
        leaveRequest := WithoutIndex(appSettings.recipients.leaveRequest, index)));
    }

    /** `handleSmtpChange`: one SMTP field changes, nothing else. */
    method HandleSmtpChange(e: SmtpEdit)
      modifies this
      ensures appSettings == old(appSettings).(smtp := ApplySmtpEdit(old(appSettings).smtp, e))
      ensures settings == old(settings) && isLoading == old(isLoading) && isSaving == old(isSaving)
      ensures newDepartment == old(newDepartment) && newAttendanceEmail == old(newAttendanceEmail)
      ensures newLeaveEmail == old(newLeaveEmail)
    {
      appSettings := appSettings.(smtp := ApplySmtpEdit(appSettings.smtp, e));
    }

    /** Typing in the port box. */
    method PortTyped(text: string)
      modifies this
      ensures appSettings == old(appSettings).(smtp := old(appSettings).smtp.(port := PortFromInput(text)))
      ensures settings == old(settings) && isLoading == old(isLoading) && isSaving == old(isSaving)
      ensures newDepartment == old(newDepartment) && newAttendanceEmail == old(newAttendanceEmail)
      ensures newLeaveEmail == old(newLeaveEmail)
    {
      HandleSmtpChange(Port(PortFromInput(text)));
    }

    /** `handleSave`: the preferences first, then departments, recipients and SMTP, in
        that order; the first failing write ends the save. */
    method HandleSave(userId: Option<string>, ok: Write -> bool) returns (outcome: SaveOutcome, writes: seq<Write>)
      modifies this
      ensures userId.None? ==> outcome == NotSignedIn && writes == [] && isSaving == old(isSaving)
      ensures userId.Some? ==>
                writes == Attempted([UserSettingsWrite(userId.value, old(settings))] + AppWrites(old(appSettings)), ok)
                && !isSaving
      ensures outcome == Saved <==> userId.Some? && forall i :: 0 <= i < |writes| ==> ok(writes[i])
      ensures outcome == Saved ==> |writes| == 4
      ensures settings == old(settings) && appSettings == old(appSettings) && isLoading == old(isLoading)
      ensures newDepartment == old(newDepartment) && newAttendanceEmail == old(newAttendanceEmail)
      ensures newLeaveEmail == old(newLeaveEmail)
    {
      if userId.None? {
        return NotSignedIn, [];
      }
      isSaving := true;
      var ran;
      writes, ran := RunWrites([UserSettingsWrite(userId.value, settings)] + AppWrites(appSettings), ok);
      outcome := if ran then Saved else SaveFailed;
      isSaving := false;
    }
  }
}
