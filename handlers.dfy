/**
 * The request handlers of main.py over the store. Each protected handler
 * first validates the bearer token and applies its role gate; a refused
 * request changes nothing. The role-gated updates and deletes then check the
 * ids they were given (400), look the record up (404), and only then write.
 * Two handlers keep another order: `GetStudent` checks the id (400) and the
 * record (404) before its self-only rule (403) and writes nothing, and
 * `AllocateRoom` stores the allocation before its 400 for a malformed room
 * id. The frame of each method names the only collections it may change.
 */
module Handlers {
  import opened Options
  import opened Ids
  import opened Schemas
  import opened Tokens
  import opened Auth
  import opened Store

  /** `TokenResponse`: the token, its type and its lifetime in seconds. */
  datatype TokenResponse = TokenResponse(accessToken: Token, tokenType: string, expiresIn: int)

  /** The bodies of the update actions: `{"updated": true}`, `{"deleted": true}`, `{"paid": true}`. */
  datatype Ack = Updated | Deleted | FeePaid

  /** A room as listed: its `_id` is given back under the key `id`. */
  datatype RoomOut = RoomOut(id: ObjectId, room: Room)

  // ---------------------------------------------------------------------------
  // Login (main.py:134-140)
  // ---------------------------------------------------------------------------

  /** No two users share an email address (the store does not enforce this). */
  predicate EmailsUnique(users: map<ObjectId, User>) {
    forall i, j :: i in users && j in users && users[i].email == users[j].email ==> i == j
  }

  /**
   * Looks up a user by email (the store returns one of the matching users)
   * and compares the password as plain text. Issues a token only on a match;
   * otherwise 401, whether the email is unknown or the password differs.
   */
  method Login(db: Database, cfg: Config, email: string, password: string, now: Time)
    returns (r: Result<TokenResponse, HttpError>)
    ensures r.Err? ==> r.error == Unauthorized("Invalid email or password")
    ensures r.Ok? ==> exists id ::
      && id in db.users && db.users[id].email == email && db.users[id].password == password
      && r.value == TokenResponse(EncodeToken(id, db.users[id], cfg, now), "bearer", cfg.expiresMin * 60)
    ensures (forall id :: id in db.users && db.users[id].email == email ==> db.users[id].password != password) ==> r.Err?
    ensures EmailsUnique(db.users) ==>
      (r.Ok? <==> exists id :: id in db.users && db.users[id].email == email && db.users[id].password == password)
  {
    var matching := set id | id in db.users && db.users[id].email == email;
    if matching == {} {
      assert forall id :: id in db.users && db.users[id].email == email ==> id in matching;
      return Err(Unauthorized("Invalid email or password"));
    }
    var id :| id in matching;
    if db.users[id].password != password {
      return Err(Unauthorized("Invalid email or password"));
    }
    r := Ok(TokenResponse(EncodeToken(id, db.users[id], cfg, now), "bearer", Lifetime(cfg)));
  }

  // ---------------------------------------------------------------------------
  // Students (main.py:149-177)
  // ---------------------------------------------------------------------------

  method CreateStudent(db: Database, cfg: Config, token: Token, now: Time, body: StudentBody, newId: ObjectId)
    returns (r: Result<ObjectId, HttpError>)
    requires newId !in db.students
    modifies db`students
    ensures var g := Authorize(db.users, cfg, token, now, Managers);
      && (g.Err? ==> r == Err(g.error) && db.students == old(db.students))
      && (g.Ok? ==> r == Ok(newId) && db.students == old(db.students)[newId := StudentDocument(body)])
  {
    var g := Authorize(db.users, cfg, token, now, Managers);
    if g.Err? {
      return Err(g.error);
    }
    db.students := db.students[newId := StudentDocument(body)];
    r := Ok(newId);
  }

  /**
   * Any authenticated user may ask; the id is checked (400), then looked up
   * (404), and only then is a student refused (403) a record whose `user_id`
   * is not theirs. The record comes back with its id under `id`.
   */
  method GetStudent(db: Database, cfg: Config, token: Token, now: Time, studentId: string)
    returns (r: Result<StudentDoc, HttpError>)
    ensures var a := Authenticate(db.users, cfg, token, now);
      var k := ToObjectId(studentId);
      && (a.Err? ==> r == Err(a.error))
      && (a.Ok? && k.None? ==> r == Err(BadRequest("Invalid id")))
      && (a.Ok? && k.Some? && k.value !in db.students ==> r == Err(NotFound("Student not found")))
      && (a.Ok? && k.Some? && k.value in db.students && !MayReadStudent(a.value, db.students[k.value])
          ==> r == Err(Forbidden("Forbidden")))
      && (a.Ok? && k.Some? && k.value in db.students && MayReadStudent(a.value, db.students[k.value])
          ==> r == Ok(db.students[k.value]["id" := Text(k.value)]))
  {
    var a := Authenticate(db.users, cfg, token, now);
    if a.Err? {
      return Err(a.error);
    }
    var k := ToObjectId(studentId);
    if k.None? {
      return Err(BadRequest("Invalid id"));
    }
    if k.value !in db.students {
      return Err(NotFound("Student not found"));
    }
    var doc := db.students[k.value];
    if !MayReadStudent(a.value, doc) {
      return Err(Forbidden("Forbidden"));
    }
    r := Ok(doc["id" := Text(k.value)]);
  }

  /** `$set` of the payload's fields and `updated_at` on the one student; 404 when there is none. */
  method UpdateStudent(db: Database, cfg: Config, token: Token, now: Time, studentId: string, payload: map<string, Value>)
    returns (r: Result<Ack, HttpError>)
    modifies db`students
    ensures var g := Authorize(db.users, cfg, token, now, Managers);
      var k := ToObjectId(studentId);
      && (g.Err? ==> r == Err(g.error))
      && (g.Ok? && k.None? ==> r == Err(BadRequest("Invalid id")))
      && (g.Ok? && k.Some? && k.value !in old(db.students) ==> r == Err(NotFound("Student not found")))
      && (r.Err? ==> db.students == old(db.students))
      && (g.Ok? && k.Some? && k.value in old(db.students) ==>
            r == Ok(Updated) &&
            db.students == old(db.students)[k.value := old(db.students)[k.value] + payload + map["updated_at" := Stamp(now)]])
  {
    var g := Authorize(db.users, cfg, token, now, Managers);
    if g.Err? {
      return Err(g.error);
    }
    var k := ToObjectId(studentId);
    if k.None? {
      return Err(BadRequest("Invalid id"));
    }
    if k.value !in db.students {
      return Err(NotFound("Student not found"));
    }
    db.students := db.students[k.value := db.students[k.value] + payload + map["updated_at" := Stamp(now)]];
    r := Ok(Updated);
  }

  /** Only admin and warden may delete; the one student is removed, 404 when there is none. */
  method DeleteStudent(db: Database, cfg: Config, token: Token, now: Time, studentId: string)
    returns (r: Result<Ack, HttpError>)
    modifies db`students
    ensures var g := Authorize(db.users, cfg, token, now, Wardens);
      var k := ToObjectId(studentId);
      && (g.Err? ==> r == Err(g.error))
      && (g.Ok? && k.None? ==> r == Err(BadRequest("Invalid id")))
      && (g.Ok? && k.Some? && k.value !in old(db.students) ==> r == Err(NotFound("Student not found")))
      && (r.Err? ==> db.students == old(db.students))
      && (g.Ok? && k.Some? && k.value in old(db.students) ==>
            r == Ok(Deleted) && db.students == old(db.students) - {k.value})
  {
    var g := Authorize(db.users, cfg, token, now, Wardens);
    if g.Err? {
      return Err(g.error);
    }
    var k := ToObjectId(studentId);
    if k.None? {
      return Err(BadRequest("Invalid id"));
    }
    if k.value !in db.students {
      return Err(NotFound("Student not found"));
    }
    db.students := db.students - {k.value};
    r := Ok(Deleted);
  }

  // ---------------------------------------------------------------------------
  // Hostels and rooms (main.py:182-205)
  // ---------------------------------------------------------------------------

  method CreateHostel(db: Database, cfg: Config, token: Token, now: Time, hostel: Hostel, newId: ObjectId)
    returns (r: Result<ObjectId, HttpError>)
    requires newId !in db.hostels
    modifies db`hostels
    ensures var g := Authorize(db.users, cfg, token, now, Wardens);
      && (g.Err? ==> r == Err(g.error) && db.hostels == old(db.hostels))
      && (g.Ok? ==> r == Ok(newId) && db.hostels == old(db.hostels)[newId := hostel])
  {
    var g := Authorize(db.users, cfg, token, now, Wardens);
    if g.Err? {
      return Err(g.error);
    }
    db.hostels := db.hostels[newId := hostel];
    r := Ok(newId);
  }

  /** Only admin and warden; a body with capacity below 1 is rejected (422) once the caller has passed the gate. */
  method CreateRoom(db: Database, cfg: Config, token: Token, now: Time, body: RoomBody, newId: ObjectId)
    returns (r: Result<ObjectId, HttpError>)
    requires newId !in db.rooms
    modifies db`rooms
    ensures var g := Authorize(db.users, cfg, token, now, Wardens);
      && (g.Err? ==> r == Err(g.error))
      && (g.Ok? && body.capacity < 1 ==> r == Err(Unprocessable))
      && (r.Err? ==> db.rooms == old(db.rooms))
      && (g.Ok? && body.capacity >= 1 ==> r == Ok(newId) && db.rooms == old(db.rooms)[newId := ValidateRoom(body).value])
  {
    var g := Authorize(db.users, cfg, token, now, Wardens);
    if g.Err? {
      return Err(g.error);
    }
    var room := ValidateRoom(body);
    if room.None? {
      return Err(Unprocessable);
    }
    db.rooms := db.rooms[newId := room.value];
    r := Ok(newId);
  }

  /**
   * Lists, with no authentication, exactly the rooms with fewer occupants
   * than beds, each once, in no particular order.
   */
  method GetAvailableRooms(db: Database) returns (out: seq<RoomOut>)
    ensures forall i :: 0 <= i < |out| ==> out[i].id in db.rooms && out[i].room == db.rooms[out[i].id]
    ensures forall i :: 0 <= i < |out| ==> IsAvailable(out[i].room)
    ensures forall k :: k in db.rooms && IsAvailable(db.rooms[k]) ==> exists i :: 0 <= i < |out| && out[i].id == k
    ensures forall i, j :: 0 <= i < j < |out| ==> out[i].id != out[j].id
  {
    var rooms := db.rooms;
    var pending := rooms.Keys;
    out := [];
    while pending != {}
      invariant pending <= rooms.Keys
      invariant forall i :: 0 <= i < |out| ==> out[i].id in rooms && out[i].id !in pending && out[i].room == rooms[out[i].id]
      invariant forall i :: 0 <= i < |out| ==> IsAvailable(out[i].room)
      invariant forall k :: k in rooms && k !in pending && IsAvailable(rooms[k]) ==> exists i :: 0 <= i < |out| && out[i].id == k
      invariant forall i, j :: 0 <= i < j < |out| ==> out[i].id != out[j].id
      decreases pending
    {
      var k :| k in pending;
      ghost var before := out;
      if IsAvailable(rooms[k]) {
        out := out + [RoomOut(k, rooms[k])];
        assert out[|out| - 1].id == k;
      }
      assert forall i :: 0 <= i < |before| ==> out[i] == before[i];
      pending := pending - {k};
    }
  }

  /** The `$inc` of `current_occupancy` and `$set` of `updated_at` on the room stored under `k`, if any. */
  function IncrementOccupancy(rooms: map<ObjectId, Room>, k: ObjectId, now: Time): (r: map<ObjectId, Room>)
    ensures r.Keys == rooms.Keys
    ensures k in rooms ==> r[k] == rooms[k].(occupancy := rooms[k].occupancy + 1, updatedAt := Some(now))
    ensures forall j :: j in rooms && j != k ==> r[j] == rooms[j]
  {
    if k in rooms then rooms[k := rooms[k].(occupancy := rooms[k].occupancy + 1, updatedAt := Some(now))] else rooms
  }

  /** The rooms after an allocation naming `roomId`: a malformed id changes no room. */
  function RoomsAfterAllocation(rooms: map<ObjectId, Room>, roomId: string, now: Time): (r: map<ObjectId, Room>)
    ensures r.Keys == rooms.Keys
    ensures forall j :: j in rooms ==>
      r[j] == if ToObjectId(roomId) == Some(j) then rooms[j].(occupancy := rooms[j].occupancy + 1, updatedAt := Some(now))
              else rooms[j]
  {
    match ToObjectId(roomId)
    case None => rooms
    case Some(k) => IncrementOccupancy(rooms, k, now)
  }

  /**
   * Stores the allocation first and then bumps the named room's occupancy by
   * one, with no capacity check. A room id that names no room changes no
   * room and still answers with the allocation's id; a malformed one answers
   * 400, but only after the allocation has been stored.
   */
  method AllocateRoom(db: Database, cfg: Config, token: Token, now: Time, alloc: RoomAllocation, newId: ObjectId)
    returns (r: Result<ObjectId, HttpError>)
    requires newId !in db.allocations
    modifies db`allocations, db`rooms
    ensures var g := Authorize(db.users, cfg, token, now, Managers);
      && (g.Err? ==> r == Err(g.error) && db.allocations == old(db.allocations) && db.rooms == old(db.rooms))
      && (g.Ok? ==> db.allocations == old(db.allocations)[newId := alloc])
      && (g.Ok? ==> db.rooms == RoomsAfterAllocation(old(db.rooms), alloc.roomId, now))
      && (g.Ok? && ToObjectId(alloc.roomId).None? ==> r == Err(BadRequest("Invalid id")))
      && (g.Ok? && ToObjectId(alloc.roomId).Some? ==> r == Ok(newId))
  {
    var g := Authorize(db.users, cfg, token, now, Managers);
    if g.Err? {
      return Err(g.error);
    }
    db.allocations := db.allocations[newId := alloc];
    var k := ToObjectId(alloc.roomId);
    if k.None? {
      return Err(BadRequest("Invalid id"));
    }
    db.rooms := IncrementOccupancy(db.rooms, k.value, now);
    r := Ok(newId);
  }

  // ---------------------------------------------------------------------------
  // Fees (main.py:210-223)
  // ---------------------------------------------------------------------------

  method CreateFee(db: Database, cfg: Config, token: Token, now: Time, fee: Fee, newId: ObjectId)
    returns (r: Result<ObjectId, HttpError>)
    requires newId !in db.fees
    modifies db`fees
    ensures var g := Authorize(db.users, cfg, token, now, Managers);
      && (g.Err? ==> r == Err(g.error) && db.fees == old(db.fees))
      && (g.Ok? ==> r == Ok(newId) && db.fees == old(db.fees)[newId := fee])
  {
    var g := Authorize(db.users, cfg, token, now, Managers);
    if g.Err? {
      return Err(g.error);
    }
    db.fees := db.fees[newId := fee];
    r := Ok(newId);
  }

  /**
   * Marks the one fee paid: status, transaction id (null when none was
   * given), payment date and `updated_at` are overwritten, whatever the
   * fee's state was; every other field stays. 404 when there is no such fee.
   */
  method PayFee(db: Database, cfg: Config, token: Token, now: Time, feeId: string, transactionId: Option<string>)
    returns (r: Result<Ack, HttpError>)
    modifies db`fees
    ensures var g := Authorize(db.users, cfg, token, now, Managers);
      var k := ToObjectId(feeId);
      && (g.Err? ==> r == Err(g.error))
      && (g.Ok? && k.None? ==> r == Err(BadRequest("Invalid id")))
      && (g.Ok? && k.Some? && k.value !in old(db.fees) ==> r == Err(NotFound("Fee not found")))
      && (r.Err? ==> db.fees == old(db.fees))
      && (g.Ok? && k.Some? && k.value in old(db.fees) ==>
            r == Ok(FeePaid) &&
            db.fees == old(db.fees)[k.value := old(db.fees)[k.value].(
              status := Paid, transactionId := transactionId, paymentDate := Some(now), updatedAt := Some(now))])
  {
    var g := Authorize(db.users, cfg, token, now, Managers);
    if g.Err? {
      return Err(g.error);
    }
    var k := ToObjectId(feeId);
    if k.None? {
      return Err(BadRequest("Invalid id"));
    }
    if k.value !in db.fees {
      return Err(NotFound("Fee not found"));
    }
    var f := db.fees[k.value];
    db.fees := db.fees[k.value := f.(status := Paid, transactionId := transactionId, paymentDate := Some(now), updatedAt := Some(now))];
    r := Ok(FeePaid);
  }

  // ---------------------------------------------------------------------------
  // Attendance and leave (main.py:228-254)
  // ---------------------------------------------------------------------------

  method MarkAttendance(db: Database, cfg: Config, token: Token, now: Time, a: Attendance, newId: ObjectId)
    returns (r: Result<ObjectId, HttpError>)
    requires newId !in db.attendance
    modifies db`attendance
    ensures var g := Authorize(db.users, cfg, token, now, Managers);
      && (g.Err? ==> r == Err(g.error) && db.attendance == old(db.attendance))
      && (g.Ok? ==> r == Ok(newId) && db.attendance == old(db.attendance)[newId := a])
  {
    var g := Authorize(db.users, cfg, token, now, Managers);
    if g.Err? {
      return Err(g.error);
    }
    db.attendance := db.attendance[newId := a];
    r := Ok(newId);
  }

  method RecordLateEntry(db: Database, cfg: Config, token: Token, now: Time, entry: LateEntry, newId: ObjectId)
    returns (r: Result<ObjectId, HttpError>)
    requires newId !in db.lateEntries
    modifies db`lateEntries
    ensures var g := Authorize(db.users, cfg, token, now, Managers);
      && (g.Err? ==> r == Err(g.error) && db.lateEntries == old(db.lateEntries))
      && (g.Ok? ==> r == Ok(newId) && db.lateEntries == old(db.lateEntries)[newId := entry])
  {
    var g := Authorize(db.users, cfg, token, now, Managers);
    if g.Err? {
      return Err(g.error);
    }
    db.lateEntries := db.lateEntries[newId := entry];
    r := Ok(newId);
  }

  /** Any authenticated user; a student only for their own id (403 otherwise, and nothing is stored). */
  method CreateLeaveRequest(db: Database, cfg: Config, token: Token, now: Time, req: LeaveRequest, newId: ObjectId)
    returns (r: Result<ObjectId, HttpError>)
    requires newId !in db.leaves
    modifies db`leaves
    ensures var a := Authenticate(db.users, cfg, token, now);
      && (a.Err? ==> r == Err(a.error))
      && (a.Ok? && !MayFileFor(a.value, req.studentId) ==> r == Err(Forbidden("Forbidden")))
      && (r.Err? ==> db.leaves == old(db.leaves))
      && (a.Ok? && MayFileFor(a.value, req.studentId) ==>
            r == Ok(newId) && db.leaves == old(db.leaves)[newId := LeaveDocument(req)])
  {
    var a := Authenticate(db.users, cfg, token, now);
    if a.Err? {
      return Err(a.error);
    }
    if !MayFileFor(a.value, req.studentId) {
      return Err(Forbidden("Forbidden"));
    }
    db.leaves := db.leaves[newId := LeaveDocument(req)];
    r := Ok(newId);
  }

  /**
   * Overwrites the one leave request's status with the given string, which
   * is not checked against the three statuses (any transition, and any
   * spelling, is accepted), and stamps `updated_at`. 404 when there is none.
   */
  method UpdateLeaveStatus(db: Database, cfg: Config, token: Token, now: Time, leaveId: string, status: string)
    returns (r: Result<Ack, HttpError>)
    modifies db`leaves
    ensures var g := Authorize(db.users, cfg, token, now, Managers);
      var k := ToObjectId(leaveId);
      && (g.Err? ==> r == Err(g.error))
      && (g.Ok? && k.None? ==> r == Err(BadRequest("Invalid id")))
      && (g.Ok? && k.Some? && k.value !in old(db.leaves) ==> r == Err(NotFound("Leave request not found")))
      && (r.Err? ==> db.leaves == old(db.leaves))
      && (g.Ok? && k.Some? && k.value in old(db.leaves) ==>
            r == Ok(Updated) &&
            db.leaves == old(db.leaves)[k.value := old(db.leaves)[k.value].(status := status, updatedAt := Some(now))])
  {
    var g := Authorize(db.users, cfg, token, now, Managers);
    if g.Err? {
      return Err(g.error);
    }
    var k := ToObjectId(leaveId);
    if k.None? {
      return Err(BadRequest("Invalid id"));
    }
    if k.value !in db.leaves {
      return Err(NotFound("Leave request not found"));
    }
    db.leaves := db.leaves[k.value := db.leaves[k.value].(status := status, updatedAt := Some(now))];
    r := Ok(Updated);
  }

  // ---------------------------------------------------------------------------
  // Complaints (main.py:259-276)
  // ---------------------------------------------------------------------------

  /** Any authenticated user; a student only for their own id (403 otherwise, and nothing is stored). */
  method CreateComplaint(db: Database, cfg: Config, token: Token, now: Time, c: Complaint, newId: ObjectId)
    returns (r: Result<ObjectId, HttpError>)
    requires newId !in db.complaints
    modifies db`complaints
    ensures var a := Authenticate(db.users, cfg, token, now);
      && (a.Err? ==> r == Err(a.error))
      && (a.Ok? && !MayFileFor(a.value, c.studentId) ==> r == Err(Forbidden("Forbidden")))
      && (r.Err? ==> db.complaints == old(db.complaints))
      && (a.Ok? && MayFileFor(a.value, c.studentId) ==>
            r == Ok(newId) && db.complaints == old(db.complaints)[newId := c])
  {
    var a := Authenticate(db.users, cfg, token, now);
    if a.Err? {
      return Err(a.error);
    }
    if !MayFileFor(a.value, c.studentId) {
      return Err(Forbidden("Forbidden"));
    }
    db.complaints := db.complaints[newId := c];
    r := Ok(newId);
  }

  /**
   * 404, storing nothing, when the complaint is absent. Otherwise stores the
   * update as given (its own `complaint_id` is not compared with the path's)
   * and sets the complaint's status to in_progress from whatever it was,
   * resolved and closed included.
   */
  method AddComplaintUpdate(db: Database, cfg: Config, token: Token, now: Time, complaintId: string, upd: ComplaintUpdate, newId: ObjectId)
    returns (r: Result<ObjectId, HttpError>)
    requires newId !in db.complaintUpdates
    modifies db`complaints, db`complaintUpdates
    ensures var g := Authorize(db.users, cfg, token, now, Managers);
      var k := ToObjectId(complaintId);
      && (g.Err? ==> r == Err(g.error))
      && (g.Ok? && k.None? ==> r == Err(BadRequest("Invalid id")))
      && (g.Ok? && k.Some? && k.value !in old(db.complaints) ==> r == Err(NotFound("Complaint not found")))
      && (r.Err? ==> db.complaints == old(db.complaints) && db.complaintUpdates == old(db.complaintUpdates))
      && (g.Ok? && k.Some? && k.value in old(db.complaints) ==>
            && r == Ok(newId)
            && db.complaintUpdates == old(db.complaintUpdates)[newId := upd]
            && db.complaints == old(db.complaints)[k.value := old(db.complaints)[k.value].(status := InProgress, updatedAt := Some(now))])
  {
    var g := Authorize(db.users, cfg, token, now, Managers);
    if g.Err? {
      return Err(g.error);
    }
    var k := ToObjectId(complaintId);
    if k.None? {
      return Err(BadRequest("Invalid id"));
    }
    if k.value !in db.complaints {
      return Err(NotFound("Complaint not found"));
    }
    db.complaintUpdates := db.complaintUpdates[newId := upd];
    db.complaints := db.complaints[k.value := db.complaints[k.value].(status := InProgress, updatedAt := Some(now))];
    r := Ok(newId);
  }

  // ---------------------------------------------------------------------------
  // Notifications (main.py:281-284)
  // ---------------------------------------------------------------------------

  /**
   * The gate runs first; then a body whose status is not a notification
   * status is 422; otherwise the validated notification is stored, with
   * "info" as its type when the body left it out.
   */
  method CreateNotification(db: Database, cfg: Config, token: Token, now: Time, body: NotificationBody, newId: ObjectId)
    returns (r: Result<ObjectId, HttpError>)
    requires newId !in db.notifications
    modifies db`notifications
    ensures var g := Authorize(db.users, cfg, token, now, Managers);
      && (g.Err? ==> r == Err(g.error))
      && (g.Ok? && ValidateNotification(body).None? ==> r == Err(Unprocessable))
      && (r.Err? ==> db.notifications == old(db.notifications))
      && (g.Ok? && ValidateNotification(body).Some? ==>
            r == Ok(newId) && db.notifications == old(db.notifications)[newId := ValidateNotification(body).value])
    ensures r.Ok? && body.kind.None? ==> db.notifications[newId].kind == Some("info")
    ensures r.Ok? && body.status.None? ==> db.notifications[newId].status == Unread
  {
    var g := Authorize(db.users, cfg, token, now, Managers);
    if g.Err? {
      return Err(g.error);
    }
    var n := ValidateNotification(body);
    if n.None? {
      return Err(Unprocessable);
    }
    db.notifications := db.notifications[newId := n.value];
    r := Ok(newId);
  }
}
