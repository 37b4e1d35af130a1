/**
 * The document shapes of the hostel store (schemas.py): the closed
 * enumerations, their string spellings, the defaults the request models fill
 * in, and the one numeric bound (a room holds at least one bed).
 */
module Schemas {
  import opened Options

  /** Seconds on an abstract clock (a `datetime`). */
  type Time = nat
  /** Days on an abstract calendar (a `date`). */
  type Date = nat

  /** A floating-point amount or cost; the core never computes with one. */
  datatype Float = Float(bits: int)

  // ---------------------------------------------------------------------------
  // Enumerations (the `Literal[...]` field types)
  // ---------------------------------------------------------------------------

  datatype Role = Admin | Warden | Staff | Student

  function RoleName(r: Role): string {
    match r
    case Admin => "admin"
    case Warden => "warden"
    case Staff => "staff"
    case Student => "student"
  }

  /** Accepts exactly the four spellings of `User.role` (schemas.py:23); case matters. */
  function ParseRole(s: string): (r: Option<Role>)
    ensures forall x :: r == Some(x) <==> RoleName(x) == s
  {
    if s == "admin" then Some(Admin)
    else if s == "warden" then Some(Warden)
    else if s == "staff" then Some(Staff)
    else if s == "student" then Some(Student)
    else None
  }

  /** `User.role`: a given value must be one of the four roles; an omitted one is "student". */
  function ValidateRole(given: Option<string>): (r: Option<Role>)
    ensures given.None? ==> r == Some(Student)
    ensures forall s :: given == Some(s) ==> (r.Some? <==> s in {"admin", "warden", "staff", "student"})
    ensures forall s, x :: given == Some(s) ==> (r == Some(x) <==> RoleName(x) == s)
  {
    match given
    case None => Some(Student)
    case Some(s) => ParseRole(s)
  }

  datatype FeeStatus = Paid | Unpaid

  function FeeStatusName(f: FeeStatus): string {
    match f
    case Paid => "paid"
    case Unpaid => "unpaid"
  }

  /** `Fee.status` (schemas.py:84): "paid" or "unpaid", "unpaid" when omitted. */
  function ValidateFeeStatus(given: Option<string>): (r: Option<FeeStatus>)
    ensures given.None? ==> r == Some(Unpaid)
    ensures forall s, x :: given == Some(s) ==> (r == Some(x) <==> FeeStatusName(x) == s)
  {
    match given
    case None => Some(Unpaid)
    case Some(s) => if s == "paid" then Some(Paid) else if s == "unpaid" then Some(Unpaid) else None
  }

  datatype AttendanceStatus = Present | Absent | OnLeave

  function AttendanceStatusName(a: AttendanceStatus): string {
    match a
    case Present => "present"
    case Absent => "absent"
    case OnLeave => "leave"
  }

  /** `Attendance.status` (schemas.py:97): one of three spellings and required — there is no default. */
  function ValidateAttendanceStatus(given: Option<string>): (r: Option<AttendanceStatus>)
    ensures given.None? ==> r.None?
    ensures forall s, x :: given == Some(s) ==> (r == Some(x) <==> AttendanceStatusName(x) == s)
  {
    match given
    case None => None
    case Some(s) =>
      if s == "present" then Some(Present)
      else if s == "absent" then Some(Absent)
      else if s == "leave" then Some(OnLeave)
      else None
  }

  datatype LeaveStatus = Pending | Approved | Rejected

  function LeaveStatusName(l: LeaveStatus): string {
    match l
    case Pending => "pending"
    case Approved => "approved"
    case Rejected => "rejected"
  }

  function ParseLeaveStatus(s: string): (r: Option<LeaveStatus>)
    ensures forall x :: r == Some(x) <==> LeaveStatusName(x) == s
  {
    if s == "pending" then Some(Pending)
    else if s == "approved" then Some(Approved)
    else if s == "rejected" then Some(Rejected)
    else None
  }

  /** `LeaveRequest.status` (schemas.py:113): one of three spellings, "pending" when omitted. */
  function ValidateLeaveStatus(given: Option<string>): (r: Option<LeaveStatus>)
    ensures given.None? ==> r == Some(Pending)
    ensures forall s :: given == Some(s) ==> (r.Some? <==> s in {"pending", "approved", "rejected"})
    ensures forall s, x :: given == Some(s) ==> (r == Some(x) <==> LeaveStatusName(x) == s)
  {
    match given
    case None => Some(Pending)
    case Some(s) => ParseLeaveStatus(s)
  }

  datatype ComplaintStatus = Open | InProgress | Resolved | Closed

  function ComplaintStatusName(c: ComplaintStatus): string {
    match c
    case Open => "open"
    case InProgress => "in_progress"
    case Resolved => "resolved"
    case Closed => "closed"
  }

  /** `Complaint.status` (schemas.py:125): one of four spellings, "open" when omitted. */
  function ValidateComplaintStatus(given: Option<string>): (r: Option<ComplaintStatus>)
    ensures given.None? ==> r == Some(Open)
    ensures forall s, x :: given == Some(s) ==> (r == Some(x) <==> ComplaintStatusName(x) == s)
  {
    match given
    case None => Some(Open)
    case Some(s) =>
      if s == "open" then Some(Open)
      else if s == "in_progress" then Some(InProgress)
      else if s == "resolved" then Some(Resolved)
      else if s == "closed" then Some(Closed)
      else None
  }

  datatype NotificationStatus = Unread | Read

  function NotificationStatusName(n: NotificationStatus): string {
    match n
    case Unread => "unread"
    case Read => "read"
  }

  /** `Notification.status` (schemas.py:163): "unread" or "read", "unread" when omitted. */
  function ValidateNotificationStatus(given: Option<string>): (r: Option<NotificationStatus>)
    ensures given.None? ==> r == Some(Unread)
    ensures forall s, x :: given == Some(s) ==> (r == Some(x) <==> NotificationStatusName(x) == s)
  {
    match given
    case None => Some(Unread)
    case Some(s) => if s == "unread" then Some(Unread) else if s == "read" then Some(Read) else None
  }


  // ---------------------------------------------------------------------------
  // Stored documents, one datatype per collection
  // ---------------------------------------------------------------------------

  /** `User` as stored; the role is a plain string in the store and may be absent. */
  datatype User = User(name: string, email: string, password: string, role: Option<string>)

  /** A field value of a free-form document (a student profile). */
  datatype Value = Text(s: string) | Stamp(t: Time) | Other(tag: int)

  /** A student document: its fields by name (the `_id` is the key it is stored under). */
  type StudentDoc = map<string, Value>

  /** The `Student` request body: `user_id` and the optional profile fields. */
  datatype StudentBody = StudentBody(userId: string, profile: map<string, Value>)

  /** The document a `Student` body is stored as: its profile fields plus `user_id`. */
  function StudentDocument(s: StudentBody): (d: StudentDoc)
    ensures "user_id" in d && d["user_id"] == Text(s.userId)
    ensures forall k :: k in s.profile && k != "user_id" ==> k in d && d[k] == s.profile[k]
    ensures d.Keys == s.profile.Keys + {"user_id"}
  {
    s.profile["user_id" := Text(s.userId)]
  }

  datatype Hostel = Hostel(name: string, location: Option<string>, wardenId: Option<string>)

  datatype Room = Room(
    hostelId: string,
    roomNo: string,
    capacity: int,
    occupancy: int,
    kind: Option<string>,
    floor: Option<int>,
    updatedAt: Option<Time>)

  /** The `Room` request body as submitted: capacity and occupancy are unchecked integers. */
  datatype RoomBody = RoomBody(
    hostelId: string,
    roomNo: string,
    capacity: int,
    occupancy: Option<int>,
    kind: Option<string>,
    floor: Option<int>)

  /**
   * `Room` validation (schemas.py:61-62): capacity must be at least 1;
   * occupancy defaults to 0 and may be any integer, unrelated to capacity.
   */
  function ValidateRoom(b: RoomBody): (r: Option<Room>)
    ensures r.Some? <==> b.capacity >= 1
    ensures r.Some? ==> r.value.capacity == b.capacity && r.value.occupancy == b.occupancy.GetOr(0)
    ensures r.Some? ==> r.value.hostelId == b.hostelId && r.value.roomNo == b.roomNo
    ensures r.Some? ==> r.value.kind == b.kind && r.value.floor == b.floor && r.value.updatedAt.None?
  {
    if b.capacity >= 1 then
      Some(Room(b.hostelId, b.roomNo, b.capacity, b.occupancy.GetOr(0), b.kind, b.floor, None))
    else
      None
  }

  /** A room is listed as available while it has fewer occupants than beds. */
  predicate IsAvailable(r: Room) {
    r.occupancy < r.capacity
  }

  datatype RoomAllocation = RoomAllocation(studentId: string, roomId: string, allocationDate: Date, exitDate: Option<Date>)

  datatype Fee = Fee(
    studentId: string,
    amount: Float,
    dueDate: Date,
    status: FeeStatus,
    transactionId: Option<string>,
    paymentDate: Option<Time>,
    updatedAt: Option<Time>)

  datatype Attendance = Attendance(studentId: string, date: Date, status: AttendanceStatus)

  datatype LateEntry = LateEntry(studentId: string, dateTime: Time, reason: Option<string>)

  /** The `LeaveRequest` request body; its status has passed the `Literal` check. */
  datatype LeaveRequest = LeaveRequest(
    studentId: string,
    fromDate: Date,
    toDate: Date,
    reason: Option<string>,
    status: LeaveStatus)

  /**
   * A stored leave request. Its status is a plain string: the status-update
   * action writes whatever string it was given.
   */
  datatype LeaveRecord = LeaveRecord(
    studentId: string,
    fromDate: Date,
    toDate: Date,
    reason: Option<string>,
    status: string,
    updatedAt: Option<Time>)

  /** The document a `LeaveRequest` body is stored as. */
  function LeaveDocument(q: LeaveRequest): (d: LeaveRecord)
    ensures ParseLeaveStatus(d.status) == Some(q.status)
    ensures d.studentId == q.studentId && d.fromDate == q.fromDate && d.toDate == q.toDate
    ensures d.reason == q.reason && d.updatedAt.None?
  {
    LeaveRecord(q.studentId, q.fromDate, q.toDate, q.reason, LeaveStatusName(q.status), None)
  }

  datatype Complaint = Complaint(
    studentId: string,
    category: string,
    description: string,
    status: ComplaintStatus,
    updatedAt: Option<Time>)

  datatype ComplaintUpdate = ComplaintUpdate(complaintId: string, message: string, updatedBy: string)

  datatype Notification = Notification(userId: string, kind: Option<string>, message: string, status: NotificationStatus)

  /**
   * The `Notification` request body as submitted: `type` may be omitted
   * (None) or sent as an explicit null (Some(None)); `status` is whatever
   * string was sent, if any.
   */
  datatype NotificationBody = NotificationBody(userId: string, kind: Option<Option<string>>, message: string, status: Option<string>)

  /**
   * The `Notification` model (schemas.py:159-166) applied to a body: it is
   * rejected exactly when the status is not one of its two spellings; an
   * omitted `type` becomes "info", a given one (null included) is kept, and
   * an omitted status becomes unread.
   */
  function ValidateNotification(b: NotificationBody): (r: Option<Notification>)
    ensures r.Some? <==> b.status == None || b.status == Some("unread") || b.status == Some("read")
    ensures r.Some? ==> r.value.userId == b.userId && r.value.message == b.message
    ensures r.Some? && b.kind.None? ==> r.value.kind == Some("info")
    ensures r.Some? ==> forall v :: b.kind == Some(v) ==> r.value.kind == v
    ensures r.Some? && b.status.None? ==> r.value.status == Unread
    ensures r.Some? ==> forall s :: b.status == Some(s) ==> NotificationStatusName(r.value.status) == s
  {
    match ValidateNotificationStatus(b.status)
    case None => None
    case Some(st) => Some(Notification(b.userId, b.kind.GetOr(Some("info")), b.message, st))
  }
}
