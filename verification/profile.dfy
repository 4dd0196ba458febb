/** The profile page: title-casing of names, the employee-ID and NIK input cleaners, the
    ordered save checks, the upserted row, the loaded defaults and the department list. */
module Profile {
  import opened Common
  import Auth

  // ---------------------------------------------------------------- title case

  /** `s.replace(/\w\S*\/g, t => t.charAt(0).toUpperCase() + t.substr(1).toLowerCase())`,
      read as one left-to-right scan: outside a run, a word character starts a run and is
      upper-cased; inside a run every non-whitespace character is lower-cased; whitespace
      ends the run and is kept, as is any other character outside a run. */
  function TitleCaseFrom(s: string, inRun: bool): (r: string)
    ensures |r| == |s|
  {
    if s == [] then []
    else if IsSpace(s[0]) then [s[0]] + TitleCaseFrom(s[1..], false)
    else if inRun then [LowerChar(s[0])] + TitleCaseFrom(s[1..], true)
    else if IsWordChar(s[0]) then [UpperChar(s[0])] + TitleCaseFrom(s[1..], true)
    else [s[0]] + TitleCaseFrom(s[1..], false)
  }

  function TitleCase(s: string): (r: string)
    ensures |r| == |s|
  {
    TitleCaseFrom(s, false)
  }

  /** `toTitleCase(str)`: an absent or empty name gives the empty string. */
  function ToTitleCase(str: Option<string>): (r: string)
    ensures !Truthy(str) ==> r == ""
    ensures Truthy(str) ==> |r| == |str.value|
  {
    if !Truthy(str) then "" else TitleCase(str.value)
  }

  /** Inside a run, whitespace-free text is lower-cased. */
  lemma {:induction false} RunIsLowered(x: string)
    requires forall i :: 0 <= i < |x| ==> !IsSpace(x[i])
    ensures TitleCaseFrom(x, true) == Lower(x)
  {
    if x != [] {
      RunIsLowered(x[1..]);
    }
  }

  /** A whitespace-free token that starts with a word character becomes its first
      character upper-cased followed by the rest lower-cased. */
  lemma TitleCaseToken(w: string)
    requires w != [] && IsWordChar(w[0])
    requires forall i :: 0 <= i < |w| ==> !IsSpace(w[i])
    ensures TitleCase(w) == [UpperChar(w[0])] + Lower(w[1..])
  {
    RunIsLowered(w[1..]);
  }

  /** A run never crosses whitespace, so title-casing works token by token. */
  lemma {:induction false} TitleCaseAcrossSpace(a: string, c: char, b: string, inRun: bool)
    requires IsSpace(c)
    ensures TitleCaseFrom(a + [c] + b, inRun) == TitleCaseFrom(a, inRun) + [c] + TitleCase(b)
  {
    var s := a + [c] + b;
    if a == [] {
      assert s[1..] == b;
    } else {
      assert s[1..] == a[1..] + [c] + b;
      var next := if IsSpace(a[0]) then false else inRun || IsWordChar(a[0]);
      TitleCaseAcrossSpace(a[1..], c, b, next);
    }
  }

  /** Upper- and lower-casing never turn a character into whitespace or out of it, and
      never change whether it is a word character. */
  lemma CaseMappingKeepsClass(c: char)
    ensures IsSpace(UpperChar(c)) == IsSpace(c) && IsSpace(LowerChar(c)) == IsSpace(c)
    ensures IsWordChar(UpperChar(c)) == IsWordChar(c) && IsWordChar(LowerChar(c)) == IsWordChar(c)
    ensures UpperChar(UpperChar(c)) == UpperChar(c) && LowerChar(LowerChar(c)) == LowerChar(c)
  {
  }

  /** Title-casing is idempotent. */
  lemma {:induction false} TitleCaseIdempotent(s: string, inRun: bool)
    ensures TitleCaseFrom(TitleCaseFrom(s, inRun), inRun) == TitleCaseFrom(s, inRun)
  {
    if s != [] {
      var r := TitleCaseFrom(s, inRun);
      CaseMappingKeepsClass(s[0]);
      var next := if IsSpace(s[0]) then false else inRun || IsWordChar(s[0]);
      assert r[1..] == TitleCaseFrom(s[1..], next);
      TitleCaseIdempotent(s[1..], next);
    }
  }

  // ---------------------------------------------------------------- input cleaners

  predicate IsLowerAlnum(c: char) {
    IsLower(c) || IsDigit(c)
  }

  /** `.replace(/[^a-z0-9]/g, "")`: keeps the lower-case letters and digits, in order. */
  function KeepLowerAlnum(s: string): (r: string)
    ensures |r| <= |s|
    ensures forall i :: 0 <= i < |r| ==> IsLowerAlnum(r[i])
    ensures (forall i :: 0 <= i < |s| ==> IsLowerAlnum(s[i])) ==> r == s
  {
    if s == [] then []
    else (if IsLowerAlnum(s[0]) then [s[0]] else []) + KeepLowerAlnum(s[1..])
  }

  /** `.replace(/\D/g, "")`: keeps the decimal digits, in order. */
  function KeepDigits(s: string): (r: string)
    ensures |r| <= |s|
    ensures forall i :: 0 <= i < |r| ==> IsDigit(r[i])
    ensures (forall i :: 0 <= i < |s| ==> IsDigit(s[i])) ==> r == s
  {
    if s == [] then []
    else (if IsDigit(s[0]) then [s[0]] else []) + KeepDigits(s[1..])
  }

  /** The filter keeps exactly the lower-case letters and digits: one character on its
      own, and a text piece by piece, so every kept character stays in order. */
  lemma KeepLowerAlnumOne(c: char)
    ensures KeepLowerAlnum([c]) == if IsLowerAlnum(c) then [c] else []
  {
    assert [c][1..] == [];
  }

  lemma {:induction false} KeepLowerAlnumAppend(a: string, b: string)
    ensures KeepLowerAlnum(a + b) == KeepLowerAlnum(a) + KeepLowerAlnum(b)
  {
    if a != [] {
      assert (a + b)[0] == a[0] && (a + b)[1..] == a[1..] + b;
      KeepLowerAlnumAppend(a[1..], b);
    } else {
      assert a + b == b;
    }
  }

  /** The filter keeps exactly the digits: one character on its own, and a text piece by
      piece, so every digit stays in order. */
  lemma KeepDigitsOne(c: char)
    ensures KeepDigits([c]) == if IsDigit(c) then [c] else []
  {
    assert [c][1..] == [];
  }

  lemma {:induction false} KeepDigitsAppend(a: string, b: string)
    ensures KeepDigits(a + b) == KeepDigits(a) + KeepDigits(b)
  {
    if a != [] {
      assert (a + b)[0] == a[0] && (a + b)[1..] == a[1..] + b;
      KeepDigitsAppend(a[1..], b);
    } else {
      assert a + b == b;
    }
  }

  /** A NIK typed with a separator (a space, a dot, a dash) stores the same digits as
      one typed without it. */
  lemma CleanNikIgnoresSeparator(a: string, c: char, b: string)
    requires !IsDigit(c)
    ensures CleanNik(a + [c] + b) == CleanNik(a + b)
  {
    KeepDigitsAppend(a + [c], b);
    KeepDigitsAppend(a, [c]);
    KeepDigitsOne(c);
    KeepDigitsAppend(a, b);
  }

  /** A NIK typed digit by digit keeps the first 16 of them: one more digit is appended
      while there is room and ignored once the box is full. */
  lemma CleanNikTypedDigit(value: string, d: char)
    requires IsDigit(d)
    ensures CleanNik(value + [d]) ==
              if |KeepDigits(value)| < 16 then KeepDigits(value) + [d] else CleanNik(value)
  {
    var k := KeepDigits(value);
    DigitAppended(value, d);
    if |k| >= 16 {
      assert (k + [d])[..16] == k[..16];
      assert CleanNik(value + [d]) == k[..16];
    } else {
      assert CleanNik(value + [d]) == k + [d];
    }
  }

  lemma DigitAppended(value: string, d: char)
    requires IsDigit(d)
    ensures KeepDigits(value + [d]) == KeepDigits(value) + [d]
  {
    KeepDigitsAppend(value, [d]);
    KeepDigitsOne(d);
  }

  /** What typing into the employee-ID box stores: lower-cased, only `[a-z0-9]`, at most 8. */
  function CleanUserId(value: string): (r: string)
    ensures |r| <= 8
    ensures forall i :: 0 <= i < |r| ==> IsLowerAlnum(r[i])
    ensures r <= KeepLowerAlnum(Lower(value))
    ensures |r| == if |KeepLowerAlnum(Lower(value))| <= 8 then |KeepLowerAlnum(Lower(value))| else 8
  {
    Take(KeepLowerAlnum(Lower(value)), 8)
  }

  /** What typing into the NIK box stores: only digits, at most 16. */
  function CleanNik(value: string): (r: string)
    ensures |r| <= 16
    ensures forall i :: 0 <= i < |r| ==> IsDigit(r[i])
    ensures r <= KeepDigits(value)
    ensures |r| == if |KeepDigits(value)| <= 16 then |KeepDigits(value)| else 16
  {
    Take(KeepDigits(value), 16)
  }

  /** Lower-casing leaves text of lower-case letters and digits alone. */
  lemma LowerOfLowerAlnum(s: string)
    requires forall i :: 0 <= i < |s| ==> IsLowerAlnum(s[i])
    ensures Lower(s) == s
  {
    assert forall i :: 0 <= i < |s| ==> Lower(s)[i] == s[i];
  }

  /** Cleaning an already cleaned employee ID changes nothing. */
  lemma CleanUserIdIdempotent(value: string)
    ensures CleanUserId(CleanUserId(value)) == CleanUserId(value)
  {
    var c := CleanUserId(value);
    LowerOfLowerAlnum(c);
  }

  /** Cleaning an already cleaned NIK changes nothing. */
  lemma CleanNikIdempotent(value: string)
    ensures CleanNik(CleanNik(value)) == CleanNik(value)
  {
  }

  // ---------------------------------------------------------------- the profile

  /** The page's editable profile (every field is a string once loaded or edited);
      `avatarUrl` is absent until a stored profile was loaded. */
  datatype ProfileState = ProfileState(
    fullName: string, email: string, customUserId: string, nik: string, phone: string,
    department: string, position: string, location: string, gender: string,
    birthDate: string, language: string, avatarUrl: Option<string>)

  /** The keys `handleInputChange` accepts. */
  datatype Key =
    | FullName | Email | CustomUserId | Nik | Phone | Department | Position | Location
    | Gender | BirthDate | Language

  function ValueOf(p: ProfileState, k: Key): string {
    match k
    case FullName => p.fullName
    case Email => p.email
    case CustomUserId => p.customUserId
    case Nik => p.nik
    case Phone => p.phone
    case Department => p.department
    case Position => p.position
    case Location => p.location
    case Gender => p.gender
    case BirthDate => p.birthDate
    case Language => p.language
  }

  /** `{ ...prev, [field]: value }`: one key replaced, every other kept. */
  function With(p: ProfileState, k: Key, v: string): (q: ProfileState)
    ensures forall k' :: ValueOf(q, k') == if k' == k then v else ValueOf(p, k')
    ensures q.avatarUrl == p.avatarUrl
  {
    match k
    case FullName => p.(fullName := v)
    case Email => p.(email := v)
    case CustomUserId => p.(customUserId := v)
    case Nik => p.(nik := v)
    case Phone => p.(phone := v)
    case Department => p.(department := v)
    case Position => p.(position := v)
    case Location => p.(location := v)
    case Gender => p.(gender := v)
    case BirthDate => p.(birthDate := v)
    case Language => p.(language := v)
  }

  /** The profile shown before anything is loaded. */
  function InitialProfile(user: Option<Auth.User>): (p: ProfileState)
    ensures p.fullName == if user.Some? then OrElse(user.value.metadata.fullName, "") else ""
    ensures p.email == if user.Some? then OrElse(user.value.email, "") else ""
    ensures p.phone == "" && p.department == "" && p.position == ""
    ensures p.location == "" && p.gender == "" && p.birthDate == ""
    ensures p.language == "en" && p.customUserId == "" && p.nik == "" && p.avatarUrl.None?
  {
    ProfileState(
      if user.Some? then OrElse(user.value.metadata.fullName, "") else "",
      if user.Some? then OrElse(user.value.email, "") else "",
      "", "", "", "", "", "", "", "", "en", None)
  }

  /** A stored `users` row as `select("*")` returns it; any column may be null. */
  datatype StoredProfile = StoredProfile(
    fullName: Option<string>, email: Option<string>, customUserId: Option<string>,
    nik: Option<string>, phone: Option<string>, department: Option<string>,
    position: Option<string>, location: Option<string>, gender: Option<string>,
    birthDate: Option<string>, language: Option<string>, avatarUrl: Option<string>)

  /** The profile built from a stored row: empty columns fall back to the session's name
      and e-mail, to "en" for the language and to "" otherwise. */
  function Loaded(row: StoredProfile, user: Option<Auth.User>): (p: ProfileState)
    ensures Truthy(row.fullName) ==> p.fullName == row.fullName.value
    ensures !Truthy(row.fullName) && user.Some? ==> p.fullName == OrElse(user.value.metadata.fullName, "")
    ensures !Truthy(row.fullName) && user.None? ==> p.fullName == ""
    ensures Truthy(row.email) ==> p.email == row.email.value
    ensures !Truthy(row.email) ==> p.email == if user.Some? then OrElse(user.value.email, "") else ""
    ensures p.phone == OrElse(row.phone, "") && p.department == OrElse(row.department, "")
    ensures p.position == OrElse(row.position, "") && p.location == OrElse(row.location, "")
    ensures p.gender == OrElse(row.gender, "") && p.birthDate == OrElse(row.birthDate, "")
    ensures p.language == OrElse(row.language, "en") && p.language != ""
    ensures p.customUserId == OrElse(row.customUserId, "") && p.nik == OrElse(row.nik, "")
    ensures p.avatarUrl == Some(OrElse(row.avatarUrl, ""))
  {
    ProfileState(
      OrElse(row.fullName, if user.Some? then OrElse(user.value.metadata.fullName, "") else ""),
      OrElse(row.email, if user.Some? then OrElse(user.value.email, "") else ""),
      OrElse(row.customUserId, ""), OrElse(row.nik, ""), OrElse(row.phone, ""),
      OrElse(row.department, ""), OrElse(row.position, ""), OrElse(row.location, ""),
      OrElse(row.gender, ""), OrElse(row.birthDate, ""), OrElse(row.language, "en"),
      Some(OrElse(row.avatarUrl, "")))
  }

  /** The required fields, in the order they are checked. */
  const RequiredFields: seq<Key> := [FullName, Gender, BirthDate, Department, Language, Position, Location]

  /** Index in `RequiredFields` of the first empty or whitespace-only field. */
  function FirstMissing(p: ProfileState): (r: Option<nat>)
    ensures r.Some? ==> r.value < |RequiredFields| && Blank(ValueOf(p, RequiredFields[r.value]))
                        && forall j :: 0 <= j < r.value ==> !Blank(ValueOf(p, RequiredFields[j]))
    ensures r.None? ==> forall j :: 0 <= j < |RequiredFields| ==> !Blank(ValueOf(p, RequiredFields[j]))
  {
    FirstMissingFrom(p, 0)
  }

  function FirstMissingFrom(p: ProfileState, i: nat): (r: Option<nat>)
    requires i <= |RequiredFields|
    ensures r.Some? ==> i <= r.value < |RequiredFields| && Blank(ValueOf(p, RequiredFields[r.value]))
                        && forall j :: i <= j < r.value ==> !Blank(ValueOf(p, RequiredFields[j]))
    ensures r.None? ==> forall j :: i <= j < |RequiredFields| ==> !Blank(ValueOf(p, RequiredFields[j]))
    decreases |RequiredFields| - i
  {
    if i == |RequiredFields| then None
    else if Blank(ValueOf(p, RequiredFields[i])) then Some(i)
    else FirstMissingFrom(p, i + 1)
  }

  /** The loop of `handleSave` over the required fields: the index of the first empty or
      whitespace-only one. */
  method FindMissing(p: ProfileState) returns (missing: Option<nat>)
    ensures missing == FirstMissing(p)
  {
    var i := 0;
    while i < |RequiredFields|
      invariant 0 <= i <= |RequiredFields|
      invariant FirstMissing(p) == FirstMissingFrom(p, i)
    {
      if Blank(ValueOf(p, RequiredFields[i])) {
        return Some(i);
      }
      i := i + 1;
    }
    return None;
  }

  datatype SaveOutcome =
    | NotSignedIn
    | MissingField(field: Key)
    | InvalidUserIdLength
    | InvalidUserIdCharset
    | InvalidNik
    | SaveFailed
    | Saved

  /** The employee-ID check on save: an empty ID is skipped; otherwise its lower-case form
      must have 3 to 8 characters, all lower-case letters or digits. */
  function UserIdCheck(id: string): (r: Option<SaveOutcome>)
    ensures r.None? <==> id == [] || (3 <= |id| <= 8 && forall i :: 0 <= i < |id| ==> IsLowerAlnum(LowerChar(id[i])))
    ensures r == Some(InvalidUserIdLength) <==> id != [] && (|id| < 3 || |id| > 8)
    ensures r.Some? ==> r.value == InvalidUserIdLength || r.value == InvalidUserIdCharset
  {
    if id == [] then None
    else
      var lower := Lower(id);
      if |lower| < 3 || |lower| > 8 then Some(InvalidUserIdLength)
      else if !(forall i :: 0 <= i < |lower| ==> IsLowerAlnum(lower[i])) then Some(InvalidUserIdCharset)
      else None
  }

  /** The NIK check on save: an empty NIK is skipped; otherwise exactly 16 digits. */
  function NikCheck(nik: string): (r: Option<SaveOutcome>)
    ensures r.None? <==> nik == [] || (|nik| == 16 && forall i :: 0 <= i < 16 ==> IsDigit(nik[i]))
    ensures r.Some? ==> r.value == InvalidNik
  {
    if nik != [] && (|nik| != 16 || !(forall i :: 0 <= i < |nik| ==> IsDigit(nik[i]))) then Some(InvalidNik)
    else None
  }

  /** An ID that came through the input cleaner passes the save check exactly when it is
      empty or has at least 3 characters. */
  lemma CleanedUserIdAccepted(value: string)
    ensures UserIdCheck(CleanUserId(value)).None? <==> (CleanUserId(value) == [] || |CleanUserId(value)| >= 3)
  {
    var c := CleanUserId(value);
    assert forall i :: 0 <= i < |c| ==> LowerChar(c[i]) == c[i];
  }

  /** A NIK that came through the input cleaner passes the save check exactly when it is
      empty or complete (16 digits). */
  lemma CleanedNikAccepted(value: string)
    ensures NikCheck(CleanNik(value)).None? <==> (CleanNik(value) == [] || |CleanNik(value)| == 16)
  {
  }

  /** The ID that is stored after a passing check is its own cleaned form. */
  lemma StoredUserIdIsClean(id: string)
    requires id != [] && UserIdCheck(id).None?
    ensures CleanUserId(Lower(id)) == Lower(id)
  {
    LowerOfLowerAlnum(Lower(id));
  }

  /** The row written by the upsert. */
  datatype UpsertRow = UpsertRow(
    id: string, userId: string, customUserId: string, nik: string, fullName: string,
    email: Option<string>, phone: string, department: string, position: string,
    location: string, gender: string, birthDate: string, language: string,
    avatarUrl: Option<string>, tokenIdentifier: string, updatedAt: string)

  /** The stored row: the name title-cased, the ID lower-cased, the e-mail falling back to
      the session's, everything else as edited. `now` is the clock's ISO time. */
  function RowFor(p: ProfileState, user: Auth.User, now: string): (row: UpsertRow)
    ensures row.id == user.id && row.userId == user.id
    ensures row.fullName == TitleCase(p.fullName)
    ensures row.customUserId == if p.customUserId == [] then [] else Lower(p.customUserId)
    ensures row.email == if p.email != [] then Some(p.email) else user.email
    ensures row.tokenIdentifier == OrElse(user.email, user.id)
    ensures row.nik == p.nik && row.department == p.department && row.language == p.language
    ensures row.phone == p.phone && row.position == p.position && row.location == p.location
    ensures row.gender == p.gender && row.birthDate == p.birthDate && row.avatarUrl == p.avatarUrl
    ensures row.updatedAt == now
  {
    UpsertRow(
      user.id, user.id, if p.customUserId == [] then [] else Lower(p.customUserId), p.nik,
      TitleCase(p.fullName), if p.email != [] then Some(p.email) else user.email,
      p.phone, p.department, p.position, p.location, p.gender, p.birthDate, p.language,
      p.avatarUrl, OrElse(user.email, user.id), now)
  }

  /** Saving a row and saving the row built from it again store the same name. */
  lemma SavedNameIsStable(p: ProfileState, user: Auth.User, now: string)
    ensures RowFor(p.(fullName := RowFor(p, user, now).fullName), user, now).fullName
            == RowFor(p, user, now).fullName
  {
    TitleCaseIdempotent(p.fullName, false);
  }

  /** The eight departments used when the list cannot be read. */
  const DefaultDepartments: seq<string> := [
    "Human Resources", "Information Technology", "Finance", "Marketing",
    "Operations", "Sales", "Customer Service", "Administration"]

  /** The `departments` setting query: an error (including no row), a row whose value
      may be null, or a throw. */
  datatype DepartmentsQuery = DeptError | DeptRow(value: Option<seq<string>>) | DeptThrew

  /** The profile read by `maybeSingle()`: an error, no row, a row, or a throw. */
  datatype ProfileFetch = FetchError | FetchNothing | FetchRow(row: StoredProfile) | FetchThrew

  datatype UpsertResult = UpsertOk | UpsertError(message: string)

  class ProfilePage {
    var profile: ProfileState
    var departments: seq<string>
    /** The browser's cached `departments` entry. */
    var cachedDepartments: Option<seq<string>>
    var isLoading: bool
    var isSaving: bool
    /** The interface language of the translation instance. */
    var language: string

    constructor (user: Option<Auth.User>, uiLanguage: string, cache: Option<seq<string>>)
      ensures profile == InitialProfile(user) && departments == []
      ensures cachedDepartments == cache && !isLoading && !isSaving && language == uiLanguage
    {
      profile := InitialProfile(user);
      departments := [];
      cachedDepartments := cache;
      isLoading, isSaving := false, false;
      language := uiLanguage;
    }

    /** `loadDepartments`: the defaults on a query error; a present list is taken and
        cached; on a throw the cached list if there is one. */
    method LoadDepartments(query: DepartmentsQuery)
      modifies this
      ensures query == DeptError ==> departments == DefaultDepartments && cachedDepartments == old(cachedDepartments)
      ensures query.DeptRow? && query.value.Some? ==>
                departments == query.value.value && cachedDepartments == query.value
      ensures query.DeptRow? && query.value.None? ==>
                departments == old(departments) && cachedDepartments == old(cachedDepartments)
      ensures query == DeptThrew ==>
                departments == (if old(cachedDepartments).Some? then old(cachedDepartments).value else old(departments))
                && cachedDepartments == old(cachedDepartments)
      ensures profile == old(profile) && isLoading == old(isLoading) && isSaving == old(isSaving)
      ensures language == old(language)
    {
      match query {
        case DeptError =>
          departments := DefaultDepartments;
        case DeptRow(value) =>
          if value.Some? {
            departments := value.value;
            cachedDepartments := value;
          }
        case DeptThrew =>
          if cachedDepartments.Some? {
            departments := cachedDepartments.value;
          }
      }
    }

    /** `fetchProfile`: a stored row replaces the profile with its defaults filled in;
        an error, no row or a throw keeps it. */
    method FetchProfile(fetch: ProfileFetch, user: Option<Auth.User>)
      modifies this
      ensures profile == if fetch.FetchRow? then Loaded(fetch.row, user) else old(profile)
      ensures !isLoading
      ensures departments == old(departments) && cachedDepartments == old(cachedDepartments)
      ensures isSaving == old(isSaving) && language == old(language)
    {
      isLoading := true;
      if fetch.FetchRow? {
        profile := Loaded(fetch.row, user);
      }
      isLoading := false;
    }

    /** `handleInputChange`: the employee ID goes through its cleaner, every other field
        takes the value as typed. */
    method HandleInputChange(k: Key, value: string)
      modifies this
      ensures profile == With(old(profile), k, if k == CustomUserId then CleanUserId(value) else value)
      ensures departments == old(departments) && cachedDepartments == old(cachedDepartments)
      ensures isLoading == old(isLoading) && isSaving == old(isSaving) && language == old(language)
    {
      profile := With(profile, k, if k == CustomUserId then CleanUserId(value) else value);
    }

    /** The NIK box: its own digits-only cleaner runs before the change handler. */
    method NikChanged(value: string)
      modifies this
      ensures profile == old(profile).(nik := CleanNik(value))
      ensures departments == old(departments) && cachedDepartments == old(cachedDepartments)
      ensures isLoading == old(isLoading) && isSaving == old(isSaving) && language == old(language)
    {
      HandleInputChange(Nik, CleanNik(value));
    }

    /** `handleSave`: the required fields in order, then the ID and NIK checks, then the
        upsert; a save switches the interface language to the profile's. The lower-cased
        ID is written back into the profile as soon as the ID check passes, even when the
        NIK check then fails. */
    method HandleSave(user: Option<Auth.User>, upsert: UpsertResult, now: string)
      returns (outcome: SaveOutcome, row: Option<UpsertRow>)
      modifies this
      ensures user.None? ==> outcome == NotSignedIn && row.None? && profile == old(profile)
                              && isSaving == old(isSaving) && language == old(language)
      ensures user.Some? && FirstMissing(old(profile)).Some? ==>
                outcome == MissingField(RequiredFields[FirstMissing(old(profile)).value]) && row.None?
                && profile == old(profile) && isSaving == old(isSaving) && language == old(language)
      ensures user.Some? && FirstMissing(old(profile)).None? ==> !isSaving
      ensures user.Some? && FirstMissing(old(profile)).None? && UserIdCheck(old(profile).customUserId).Some? ==>
                outcome == UserIdCheck(old(profile).customUserId).value && row.None?
                && profile == old(profile) && language == old(language)
      ensures user.Some? && FirstMissing(old(profile)).None? && UserIdCheck(old(profile).customUserId).None? ==>
                profile == old(profile).(customUserId := RowFor(old(profile), user.value, now).customUserId)
      ensures user.Some? && FirstMissing(old(profile)).None? && UserIdCheck(old(profile).customUserId).None?
              && NikCheck(old(profile).nik).Some? ==>
                outcome == InvalidNik && row.None? && language == old(language)
      ensures user.Some? && FirstMissing(old(profile)).None? && UserIdCheck(old(profile).customUserId).None?
              && NikCheck(old(profile).nik).None? ==>
                row == Some(RowFor(old(profile), user.value, now))
                && outcome == (if upsert.UpsertOk? then Saved else SaveFailed)
                && language == (if upsert.UpsertOk? then old(profile).language else old(language))
      ensures departments == old(departments) && cachedDepartments == old(cachedDepartments)
      ensures isLoading == old(isLoading)
    {
      var edited := profile;
      row := None;
      if user.None? {
        return NotSignedIn, row;
      }
      var missing := FindMissing(profile);
      if missing.Some? {
        return MissingField(RequiredFields[missing.value]), row;
      }
      isSaving := true;
      var idProblem := UserIdCheck(profile.customUserId);
      if idProblem.Some? {
        isSaving := false;
        return idProblem.value, row;
      }
      if profile.customUserId != [] {
        profile := profile.(customUserId := Lower(profile.customUserId));
      }
      var nikProblem := NikCheck(profile.nik);
      if nikProblem.Some? {
        isSaving := false;
        return nikProblem.value, row;
      }
      row := Some(RowFor(edited, user.value, now));
      if upsert.UpsertOk? {
        outcome := Saved;
        if language != profile.language {
          language := profile.language;
        }
      } else {
        outcome := SaveFailed;
      }
      isSaving := false;
    }
  }
}
