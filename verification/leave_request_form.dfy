/** The leave-request form: profile auto-fill of the department, the three submit
    checks, the persisted row, the best-effort notification and the reset. */
module LeaveRequestForm {
  import opened Common
  import Auth
  import LeaveNotification

  /** A date picked in the calendar: its place on the time line, and the two halves of
      its `toISOString()` text around the 'T' (`date` is "YYYY-MM-DD" in UTC). */
  datatype Instant = Instant(epochMs: int, date: string, time: string)

  function IsoString(i: Instant): string {
    i.date + "T" + i.time
  }

  /** `s.split("T")[0]`: everything before the first 'T'. */
  function BeforeFirstT(s: string): (r: string)
    ensures r <= s && 'T' !in r
    ensures |r| < |s| ==> s[|r|] == 'T'
  {
    if s == [] || s[0] == 'T' then [] else [s[0]] + BeforeFirstT(s[1..])
  }

  /** Cutting the ISO text at its first 'T' leaves exactly the calendar date. */
  lemma DatePartOfIso(i: Instant)
    requires 'T' !in i.date
    ensures BeforeFirstT(IsoString(i)) == i.date
  {
    var s := IsoString(i);
    var r := BeforeFirstT(s);
    var n := |i.date|;
    assert s[..n] == i.date && s[n] == 'T';
    // r is a prefix of s without 'T' that ends before a 'T' of s: it ends at index n
    assert |r| == n;
    assert r == s[..n];
  }

  /** The six form fields. */
  datatype Fields = Fields(
    department: string, leaveType: string, reason: string,
    startDate: Option<Instant>, endDate: Option<Instant>, additionalDetails: string)

  const Cleared := Fields("", "", "", None, None, "")

  /** The first check: every required field is filled in. */
  predicate Complete(f: Fields) {
    f.department != "" && f.leaveType != "" && f.reason != "" && f.startDate.Some? && f.endDate.Some?
  }

  datatype Rejection = MissingInfo | NotSignedIn | InvalidDateRange

  /** The submit checks in their order; the first failure is the answer. */
  function Validate(f: Fields, user: Option<Auth.User>): (r: Option<Rejection>)
    ensures r == Some(MissingInfo) <==> !Complete(f)
    ensures r == Some(NotSignedIn) <==> Complete(f) && user.None?
    ensures r == Some(InvalidDateRange) <==>
              Complete(f) && user.Some? && f.endDate.value.epochMs < f.startDate.value.epochMs
    ensures r.None? ==> Complete(f) && user.Some? && f.startDate.value.epochMs <= f.endDate.value.epochMs
  {
    if !Complete(f) then Some(MissingInfo)
    else if user.None? then Some(NotSignedIn)
    else if f.endDate.value.epochMs < f.startDate.value.epochMs then Some(InvalidDateRange)
    else None
  }

  /** A one-day request (end equal to start) passes the date check. */
  lemma SameDayAccepted(f: Fields, user: Auth.User)
    requires Complete(f) && f.endDate.value.epochMs == f.startDate.value.epochMs
    ensures Validate(f, Some(user)).None?
  {
  }

  /** The row written to `leave_requests`. */
  datatype LeaveRow = LeaveRow(
    userId: string, department: string, leaveType: string, reason: string,
    startDate: string, endDate: string, additionalDetails: Option<string>, status: string)

  /** The inserted row: the raw keys, the dates cut to the date part, empty details as
      null, and status forced to "pending". */
  function RowFor(f: Fields, user: Auth.User): (row: LeaveRow)
    requires Complete(f)
    ensures row.status == "pending" && row.userId == user.id
    ensures row.leaveType == f.leaveType && row.reason == f.reason && row.department == f.department
    ensures row.startDate <= IsoString(f.startDate.value) && 'T' !in row.startDate
    ensures row.endDate <= IsoString(f.endDate.value) && 'T' !in row.endDate
    ensures row.additionalDetails.None? <==> f.additionalDetails == ""
    ensures row.additionalDetails.Some? ==> row.additionalDetails.value == f.additionalDetails
  {
    LeaveRow(user.id, f.department, f.leaveType, f.reason,
             BeforeFirstT(IsoString(f.startDate.value)), BeforeFirstT(IsoString(f.endDate.value)),
             if f.additionalDetails == "" then None else Some(f.additionalDetails),
             "pending")
  }

  /** The stored dates are the calendar dates of the picked instants. */
  lemma RowHoldsCalendarDates(f: Fields, user: Auth.User)
    requires Complete(f) && 'T' !in f.startDate.value.date && 'T' !in f.endDate.value.date
    ensures RowFor(f, user).startDate == f.startDate.value.date
    ensures RowFor(f, user).endDate == f.endDate.value.date
  {
    DatePartOfIso(f.startDate.value);
    DatePartOfIso(f.endDate.value);
  }

  /** `userProfile?.full_name || user?.user_metadata?.full_name || user?.email || 'N/A'`.
      The profile query selects only `department`, so its `full_name` is never there and
      the chain starts at the session metadata. */
  function ApplicantName(user: Auth.User): (name: string)
    ensures Truthy(user.metadata.fullName) ==> name == user.metadata.fullName.value
    ensures !Truthy(user.metadata.fullName) && Truthy(user.email) ==> name == user.email.value
    ensures name != ""
  {
    OrElse(user.metadata.fullName, OrElse(user.email, "N/A"))
  }

  /** The body sent to `send-leave-notification`: translated labels, full ISO dates. */
  function PayloadFor(f: Fields, user: Auth.User, translate: string -> string): (p: LeaveNotification.Payload)
    requires Complete(f)
    ensures p.leaveType == Some(translate("leaveRequest.leaveTypes." + f.leaveType))
    ensures p.reason == Some(translate("leaveRequest.leaveReasons." + f.reason))
    ensures p.startDate == Some(IsoString(f.startDate.value)) && p.endDate == Some(IsoString(f.endDate.value))
    ensures p.applicantName == Some(ApplicantName(user)) && p.applicantEmail == user.email
    ensures p.department == Some(f.department) && p.additionalDetails == Some(f.additionalDetails)
  {
    LeaveNotification.Payload(
      Some(ApplicantName(user)), user.email, Some(f.department),
      Some(translate("leaveRequest.leaveTypes." + f.leaveType)),
      Some(IsoString(f.startDate.value)), Some(IsoString(f.endDate.value)),
      Some(translate("leaveRequest.leaveReasons." + f.reason)),
      Some(f.additionalDetails))
  }

  /** What the dispatcher renders from this form's payload: the applicant's name (never
      the placeholder of the dispatcher), the department, the label and not the key, and
      the details block exactly when details were typed. */
  lemma NotificationShowsLabels(f: Fields, user: Auth.User, translate: string -> string)
    requires Complete(f)
    ensures var b := LeaveNotification.RenderBody(PayloadFor(f, user, translate));
            && b.name == ApplicantName(user)
            && b.department == f.department
            && b.leaveType == translate("leaveRequest.leaveTypes." + f.leaveType)
            && (b.details.Some? <==> f.additionalDetails != "")
  {
  }

  /** The outcome of one profile query `select("department").eq("id", ...).single()`. */
  datatype ProfileQuery = ProfileError(code: string) | ProfileData(department: Option<string>) | ProfileThrew

  /** The stored profile row; it has only the selected column. */
  datatype ProfileRow = ProfileRow(department: string)

  datatype InsertResult = InsertOk | InsertError(message: string)

  /** What invoking the notification function gave; it is only logged. */
  datatype NotifyResult = NotifyOk | NotifyError(message: string) | NotifyThrew(message: string)

  /** `Submitted`: success toast, fields reset, navigation back after the delay. */
  datatype SubmitOutcome = Rejected(why: Rejection) | Submitted | SubmitFailed

  class Form {
    var department: string
    var leaveType: string
    var reason: string
    var startDate: Option<Instant>
    var endDate: Option<Instant>
    var additionalDetails: string
    var isSubmitting: bool
    var userProfile: Option<ProfileRow>

    function Snapshot(): Fields
      reads this
    {
      Fields(department, leaveType, reason, startDate, endDate, additionalDetails)
    }

    constructor ()
      ensures Snapshot() == Cleared && !isSubmitting && userProfile.None?
    {
      department, leaveType, reason := "", "", "";
      startDate, endDate := None, None;
      additionalDetails := "";
      isSubmitting := false;
      userProfile := None;
    }

    /** `fetchUserProfile`: the department is filled in only from a row with a
        non-empty department; an error (including "no rows", PGRST116) changes nothing. */
    method FetchUserProfile(query: ProfileQuery)
      modifies this
      ensures query.ProfileData? && Truthy(query.department) ==>
                department == query.department.value && userProfile == Some(ProfileRow(query.department.value))
      ensures !(query.ProfileData? && Truthy(query.department)) ==>
                department == old(department) && userProfile == old(userProfile)
      ensures leaveType == old(leaveType) && reason == old(reason) && startDate == old(startDate)
      ensures endDate == old(endDate) && additionalDetails == old(additionalDetails)
      ensures isSubmitting == old(isSubmitting)
    {
      match query {
        case ProfileError(code) =>
          // code "PGRST116" (no row) is not reported as a failure, but there is no data either
          return;
        case ProfileThrew =>
          return;
        case ProfileData(d) =>
          if Truthy(d) {
            department := d.value;
            userProfile := Some(ProfileRow(d.value));
          }
      }
    }

    /** `handleSubmit`: the checks, then the insert, then the notification whose outcome
        is only logged, then the reset. */
    method HandleSubmit(user: Option<Auth.User>, insert: InsertResult, notify: NotifyResult,
                        translate: string -> string)
      returns (outcome: SubmitOutcome, row: Option<LeaveRow>, notification: Option<LeaveNotification.Payload>)
      modifies this
      // a failed check: nothing is written, nothing is sent, nothing changes
      ensures Validate(old(Snapshot()), user).Some? ==>
                outcome == Rejected(Validate(old(Snapshot()), user).value)
                && row.None? && notification.None?
                && Snapshot() == old(Snapshot()) && isSubmitting == old(isSubmitting)
      // the checks passed: exactly this row is inserted
      ensures Validate(old(Snapshot()), user).None? ==>
                row == Some(RowFor(old(Snapshot()), user.value)) && !isSubmitting
      // an insert failure keeps the fields and sends nothing
      ensures Validate(old(Snapshot()), user).None? && insert.InsertError? ==>
                outcome == SubmitFailed && notification.None? && Snapshot() == old(Snapshot())
      // a stored request succeeds whatever the notification did, and the form is cleared
      ensures Validate(old(Snapshot()), user).None? && insert.InsertOk? ==>
                outcome == Submitted && Snapshot() == Cleared
                && notification == Some(PayloadFor(old(Snapshot()), user.value, translate))
      ensures userProfile == old(userProfile)
    {
      var f := Snapshot();
      var problem := Validate(f, user);
      if problem.Some? {
        return Rejected(problem.value), None, None;
      }
      outcome, row, notification := Store(f, user.value, insert, notify, translate);
    }

    /** The `try` block of `handleSubmit` once the checks passed: insert the row, then
        (only after a stored row) invoke the notification and reset the fields. */
    method Store(f: Fields, user: Auth.User, insert: InsertResult, notify: NotifyResult,
                 translate: string -> string)
      returns (outcome: SubmitOutcome, row: Option<LeaveRow>, notification: Option<LeaveNotification.Payload>)
      requires Complete(f) && f == Snapshot()
      modifies this
      ensures row == Some(RowFor(f, user)) && !isSubmitting
      ensures insert.InsertError? ==> outcome == SubmitFailed && notification.None? && Snapshot() == f
      ensures insert.InsertOk? ==>
                outcome == Submitted && Snapshot() == Cleared && notification == Some(PayloadFor(f, user, translate))
      ensures userProfile == old(userProfile)
    {
      isSubmitting := true;
      row := Some(RowFor(f, user));
      if insert.InsertError? {
        outcome, notification := SubmitFailed, None;
      } else {
        notification := Some(PayloadFor(f, user, translate));
        match notify {
          case NotifyOk =>
          case NotifyError(_) =>   // logged only
          case NotifyThrew(_) =>   // caught and logged only
        }
        outcome := Submitted;
        Reset();
      }
      isSubmitting := false;
    }

    /** The six setters called after a stored request. */
    method Reset()
      modifies this
      ensures Snapshot() == Cleared
      ensures isSubmitting == old(isSubmitting) && userProfile == old(userProfile)
    {
      department, leaveType, reason := "", "", "";
      startDate, endDate := None, None;
      additionalDetails := "";
    }
  }

  /** After a successful submit every field is empty, including the auto-filled
      department (auto-fill runs again only when the user changes), so submitting again
      straight away is refused as incomplete. */
  lemma ResubmitAfterSuccessIsIncomplete(user: Option<Auth.User>)
    ensures Validate(Cleared, user) == Some(MissingInfo)
  {
  }
}
