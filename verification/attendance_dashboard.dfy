/** The attendance dashboard: the check-in/check-out toggle derived from today's newest
    record, the two location-gated actions, the history lists and the status styles. */
module AttendanceDashboard {
  import opened Common

  datatype Kind = CheckIn | CheckOut

  /** A position's coordinates, kept as opaque numbers. */
  datatype Coords = Coords(latitude: real, longitude: real)

  /** A row of `attendance_records` as the dashboard reads it. */
  datatype AttendanceRecord = AttendanceRecord(
    id: string, kind: Kind, timestamp: string, location: Option<string>, status: string,
    coords: Option<Coords>)

  /** A row of `leave_requests` as the dashboard reads it. */
  datatype LeaveRequest = LeaveRequest(
    id: string, leaveType: string, startDate: string, endDate: string, reason: string,
    status: string, department: string, additionalDetails: Option<string>)

  /** The row an action inserts. */
  datatype NewAttendance = NewAttendance(
    userId: Option<string>, kind: Kind, coords: Coords, location: string, status: string)

  /** What asking the browser for the position gave: no geolocation support, a refusal
      or timeout, or a position. */
  datatype PositionOutcome = Unsupported | PositionFailed(message: string) | Position(coords: Coords)

  datatype InsertResult = InsertOk | InsertError(message: string)

  /** A select: an error, or the rows (a null `data` is read as no rows). */
  datatype Query<T> = QueryError(message: string) | QueryRows(rows: seq<T>)

  const HistoryLimit := 10

  /** The record an action writes once it has a position. */
  function NewRecord(userId: Option<string>, kind: Kind, c: Coords): (r: NewAttendance)
    ensures r.kind == kind && r.coords == c && r.userId == userId
    ensures r.location == "Current Location" && r.status == "verified"
  {
    NewAttendance(userId, kind, c, "Current Location", "verified")
  }

  /** The action the card offers: check-in exactly when not checked in. */
  function Offered(checkedIn: bool): (k: Kind)
    ensures k == CheckIn <==> !checkedIn
  {
    if checkedIn then CheckOut else CheckIn
  }

  /** One press of the offered button, with what the browser and the insert answered. */
  datatype Attempt = Attempt(position: PositionOutcome, insert: InsertResult)

  /** An action writes and succeeds only with a position and an error-free insert. */
  predicate Succeeds(a: Attempt) {
    a.position.Position? && a.insert.InsertOk?
  }

  /** The flag after one press of the offered button. */
  function Step(checkedIn: bool, a: Attempt): (r: bool)
    ensures Succeeds(a) ==> r == (Offered(checkedIn) == CheckIn)
    ensures !Succeeds(a) ==> r == checkedIn
  {
    if Succeeds(a) then !checkedIn else checkedIn
  }

  /** The flag after a series of presses. */
  function Final(checkedIn: bool, attempts: seq<Attempt>): bool
    decreases attempts
  {
    if attempts == [] then checkedIn else Final(Step(checkedIn, attempts[0]), attempts[1..])
  }

  /** The kinds of the records stored by a series of presses (failed ones store nothing). */
  function Stored(checkedIn: bool, attempts: seq<Attempt>): (ks: seq<Kind>)
    ensures |ks| <= |attempts|
    decreases attempts
  {
    if attempts == [] then []
    else (if Succeeds(attempts[0]) then [Offered(checkedIn)] else [])
         + Stored(Step(checkedIn, attempts[0]), attempts[1..])
  }

  /** Neighbouring records are of different kinds. */
  predicate Alternating(ks: seq<Kind>) {
    forall i :: 0 <= i < |ks| - 1 ==> ks[i] != ks[i + 1]
  }

  lemma PrependAlternating(k: Kind, rest: seq<Kind>)
    requires Alternating(rest) && (rest != [] ==> rest[0] != k)
    ensures Alternating([k] + rest)
  {
    var ks := [k] + rest;
    forall i | 1 <= i < |ks| - 1 ensures ks[i] != ks[i + 1] {
      assert ks[i] == rest[i - 1] && ks[i + 1] == rest[i];
    }
  }

  /** Storing after a successful press puts the offered kind in front of what the later
      presses store; a failed press stores nothing. */
  lemma StoredFirst(checkedIn: bool, attempts: seq<Attempt>)
    requires attempts != []
    ensures var rest := Stored(Step(checkedIn, attempts[0]), attempts[1..]);
            Stored(checkedIn, attempts) == if Succeeds(attempts[0]) then [Offered(checkedIn)] + rest else rest
  {
  }

  /** The first stored record is the action offered at the start. */
  lemma {:induction false} StoredStartsWithOffered(checkedIn: bool, attempts: seq<Attempt>)
    ensures var ks := Stored(checkedIn, attempts); |ks| > 0 ==> ks[0] == Offered(checkedIn)
    decreases attempts
  {
    if attempts != [] {
      StoredFirst(checkedIn, attempts);
      if !Succeeds(attempts[0]) {
        StoredStartsWithOffered(checkedIn, attempts[1..]);
      }
    }
  }

  /** The final flag says whether the last stored record was a check-in; with nothing
      stored it is the starting flag. */
  lemma {:induction false} FinalIsLastStored(checkedIn: bool, attempts: seq<Attempt>)
    ensures var ks := Stored(checkedIn, attempts);
            Final(checkedIn, attempts) <==> if ks == [] then checkedIn else ks[|ks| - 1] == CheckIn
    decreases attempts
  {
    if attempts != [] {
      var next := Step(checkedIn, attempts[0]);
      var rest := Stored(next, attempts[1..]);
      var ks := Stored(checkedIn, attempts);
      FinalIsLastStored(next, attempts[1..]);
      StoredFirst(checkedIn, attempts);
      assert Final(checkedIn, attempts) == Final(next, attempts[1..]);
      if !Succeeds(attempts[0]) {
        assert ks == rest && next == checkedIn;
      } else if rest == [] {
        assert ks == [Offered(checkedIn)] && next == !checkedIn;
      } else {
        assert ks == [Offered(checkedIn)] + rest;
        assert ks[|ks| - 1] == rest[|rest| - 1];
      }
    }
  }

  /** Stored records alternate between check-in and check-out, the first one is the action
      offered at the start, and the final flag says whether the last one was a check-in. */
  lemma {:induction false} StoredAlternate(checkedIn: bool, attempts: seq<Attempt>)
    ensures var ks := Stored(checkedIn, attempts);
            && Alternating(ks)
            && (|ks| > 0 ==> ks[0] == Offered(checkedIn))
            && (Final(checkedIn, attempts) <==> if ks == [] then checkedIn else ks[|ks| - 1] == CheckIn)
    decreases attempts
  {
    StoredStartsWithOffered(checkedIn, attempts);
    FinalIsLastStored(checkedIn, attempts);
    if attempts != [] {
      var next := Step(checkedIn, attempts[0]);
      StoredAlternate(next, attempts[1..]);
      StoredFirst(checkedIn, attempts);
      if Succeeds(attempts[0]) {
        PrependAlternating(Offered(checkedIn), Stored(next, attempts[1..]));
      }
    }
  }

  /** `getStatusColor`: the badge classes of a leave request's status. */
  function StatusColor(status: string): (c: string)
    ensures KnownStatus(status) <==> c != "bg-gray-100 text-gray-800"
  {
    match status
    case "approved" => "bg-green-100 text-green-800"
    case "rejected" => "bg-red-100 text-red-800"
    case "pending" => "bg-yellow-100 text-yellow-800"
    case _ => "bg-gray-100 text-gray-800"
  }

  datatype Glyph = CheckCircle | XCircle | AlertCircle

  /** `getStatusIcon`: the icon and its colour class. */
  function StatusIcon(status: string): (i: (Glyph, string))
    ensures KnownStatus(status) <==> i.1 != "text-gray-600"
    ensures i.0 == CheckCircle <==> status == "approved"
    ensures i.0 == XCircle <==> status == "rejected"
  {
    match status
    case "approved" => (CheckCircle, "text-green-600")
    case "rejected" => (XCircle, "text-red-600")
    case "pending" => (AlertCircle, "text-yellow-600")
    case _ => (AlertCircle, "text-gray-600")
  }

  predicate KnownStatus(status: string) {
    status == "approved" || status == "rejected" || status == "pending"
  }

  /** The three known statuses get three different badges and icons; every other status
      gets the gray default. */
  lemma StatusStyles(s: string, u: string)
    ensures KnownStatus(s) && KnownStatus(u) && s != u ==> StatusColor(s) != StatusColor(u) && StatusIcon(s) != StatusIcon(u)
    ensures !KnownStatus(s) ==> StatusColor(s) == "bg-gray-100 text-gray-800" && StatusIcon(s) == (AlertCircle, "text-gray-600")
    ensures KnownStatus(s) ==> StatusColor(s) != "bg-gray-100 text-gray-800" && StatusIcon(s).1 != "text-gray-600"
  {
  }

  class Dashboard {
    var isCheckedIn: bool
    var isLoading: bool
    var attendanceRecords: seq<AttendanceRecord>
    var leaveRequests: seq<LeaveRequest>
    var loadingData: bool

    constructor ()
      ensures !isCheckedIn && !isLoading && loadingData
      ensures attendanceRecords == [] && leaveRequests == []
    {
      isCheckedIn, isLoading, loadingData := false, false, true;
      attendanceRecords, leaveRequests := [], [];
    }

    /** `fetchData`: the ten newest attendance rows, then the ten newest leave requests;
        the second query is made only if the first succeeded, and a failure of either
        keeps both lists. */
    method FetchData(attendance: Query<AttendanceRecord>, leave: Query<LeaveRequest>)
      returns (leaveQueried: bool)
      modifies this
      ensures leaveQueried <==> attendance.QueryRows?
      ensures attendance.QueryRows? && leave.QueryRows? ==>
                attendanceRecords == Take(attendance.rows, HistoryLimit)
                && leaveRequests == Take(leave.rows, HistoryLimit)
      ensures !(attendance.QueryRows? && leave.QueryRows?) ==>
                attendanceRecords == old(attendanceRecords) && leaveRequests == old(leaveRequests)
      ensures |attendanceRecords| <= HistoryLimit || attendanceRecords == old(attendanceRecords)
      ensures !loadingData && isCheckedIn == old(isCheckedIn) && isLoading == old(isLoading)
    {
      loadingData := true;
      leaveQueried := false;
      if attendance.QueryRows? {
        leaveQueried := true;
        if leave.QueryRows? {
          attendanceRecords := Take(attendance.rows, HistoryLimit);
          leaveRequests := Take(leave.rows, HistoryLimit);
        }
      }
      loadingData := false;
    }

    /** `checkCurrentStatus`: `today` records newest first, at most one; with a row the flag
        says whether it is a check-in, otherwise (no row, error) the flag is kept. */
    method CheckCurrentStatus(today: Query<AttendanceRecord>)
      modifies this
      ensures today.QueryRows? && today.rows != [] ==> (isCheckedIn <==> today.rows[0].kind == CheckIn)
      ensures !(today.QueryRows? && today.rows != []) ==> isCheckedIn == old(isCheckedIn)
      ensures isLoading == old(isLoading) && loadingData == old(loadingData)
      ensures attendanceRecords == old(attendanceRecords) && leaveRequests == old(leaveRequests)
    {
      match today {
        case QueryError(_) =>
        case QueryRows(rows) =>
          if |rows| > 0 {
            isCheckedIn := rows[0].kind == CheckIn;
          }
      }
    }

    /** The shared body of both handlers: position first, then the insert; the flag is set
        only after an error-free insert, and a success asks for a history refresh. */
    method Record(kind: Kind, userId: Option<string>, position: PositionOutcome, insert: InsertResult)
      returns (written: Option<NewAttendance>, refresh: bool)
      modifies this
      ensures position.Position? <==> written.Some?
      ensures position.Position? ==> written == Some(NewRecord(userId, kind, position.coords))
      ensures refresh <==> Succeeds(Attempt(position, insert))
      ensures isCheckedIn == if refresh then kind == CheckIn else old(isCheckedIn)
      ensures !isLoading
      ensures loadingData == old(loadingData)
      ensures attendanceRecords == old(attendanceRecords) && leaveRequests == old(leaveRequests)
    {
      isLoading := true;
      written, refresh := None, false;
      match position {
        case Unsupported =>
        case PositionFailed(_) =>
        case Position(c) =>
          written := Some(NewRecord(userId, kind, c));
          if insert.InsertOk? {
            isCheckedIn := kind == CheckIn;
            refresh := true;
          }
      }
      isLoading := false;
    }

    /** `handleCheckIn`. */
    method HandleCheckIn(userId: Option<string>, position: PositionOutcome, insert: InsertResult)
      returns (written: Option<NewAttendance>, refresh: bool)
      modifies this
      ensures written.Some? <==> position.Position?
      ensures written.Some? ==> written.value.kind == CheckIn
      ensures isCheckedIn == if Succeeds(Attempt(position, insert)) then true else old(isCheckedIn)
      ensures refresh <==> Succeeds(Attempt(position, insert))
      ensures !isLoading
      ensures loadingData == old(loadingData)
      ensures attendanceRecords == old(attendanceRecords) && leaveRequests == old(leaveRequests)
    {
      written, refresh := Record(CheckIn, userId, position, insert);
    }

    /** `handleCheckOut`. */
    method HandleCheckOut(userId: Option<string>, position: PositionOutcome, insert: InsertResult)
      returns (written: Option<NewAttendance>, refresh: bool)
      modifies this
      ensures written.Some? <==> position.Position?
      ensures written.Some? ==> written.value.kind == CheckOut
      ensures isCheckedIn == if Succeeds(Attempt(position, insert)) then false else old(isCheckedIn)
      ensures refresh <==> Succeeds(Attempt(position, insert))
      ensures !isLoading
      ensures loadingData == old(loadingData)
      ensures attendanceRecords == old(attendanceRecords) && leaveRequests == old(leaveRequests)
    {
      written, refresh := Record(CheckOut, userId, position, insert);
    }

    /** A press of the one button the card shows: the check-in button when not checked in,
        the check-out button otherwise. */
    method Press(userId: Option<string>, position: PositionOutcome, insert: InsertResult)
      returns (written: Option<NewAttendance>, refresh: bool)
      modifies this
      ensures written.Some? <==> position.Position?
      ensures written.Some? ==> written.value.kind == Offered(old(isCheckedIn))
      ensures isCheckedIn == Step(old(isCheckedIn), Attempt(position, insert))
      ensures refresh <==> Succeeds(Attempt(position, insert))
      ensures !isLoading
      ensures loadingData == old(loadingData)
      ensures attendanceRecords == old(attendanceRecords) && leaveRequests == old(leaveRequests)
    {
      if !isCheckedIn {
        written, refresh := HandleCheckIn(userId, position, insert);
      } else {
        written, refresh := HandleCheckOut(userId, position, insert);
      }
    }
  }
}
