/**
 * Properties that span several requests: what a run of room allocations does
 * to the occupancy counters, and what the refusal paths and overwrite-only
 * updates leave behind.
 */
module Properties {
  import opened Options
  import opened Ids
  import opened Schemas
  import opened Auth
  import opened Handlers

  /** The rooms after one allocation per entry of `roomIds`, in order, each naming its room id. */
  function RoomsAfterAllocations(rooms: map<ObjectId, Room>, roomIds: seq<string>, now: Time): map<ObjectId, Room>
    decreases |roomIds|
  {
    if roomIds == [] then rooms
    else RoomsAfterAllocation(RoomsAfterAllocations(rooms, roomIds[..|roomIds| - 1], now), roomIds[|roomIds| - 1], now)
  }

  /** How many of the room ids denote the room stored under `k` (in either case of their digits). */
  function AllocationsNaming(roomIds: seq<string>, k: ObjectId): nat
    decreases |roomIds|
  {
    if roomIds == [] then 0
    else AllocationsNaming(roomIds[..|roomIds| - 1], k) + (if ToObjectId(roomIds[|roomIds| - 1]) == Some(k) then 1 else 0)
  }

  /** Allocations never add or remove a room. */
  lemma {:induction false} AllocationsKeepRooms(rooms: map<ObjectId, Room>, roomIds: seq<string>, now: Time)
    ensures RoomsAfterAllocations(rooms, roomIds, now).Keys == rooms.Keys
    decreases |roomIds|
  {
    if roomIds != [] {
      AllocationsKeepRooms(rooms, roomIds[..|roomIds| - 1], now);
    }
  }

  /**
   * After any run of allocations, each room's occupancy has grown by exactly
   * the number of allocations that named it, whatever its capacity; nothing
   * else about the room has changed except `updated_at`.
   */
  lemma {:induction false} AllocationsRaiseOccupancy(rooms: map<ObjectId, Room>, roomIds: seq<string>, now: Time, k: ObjectId)
    requires k in rooms
    ensures var after := RoomsAfterAllocations(rooms, roomIds, now);
      var n := AllocationsNaming(roomIds, k);
      k in after &&
      after[k] == rooms[k].(occupancy := rooms[k].occupancy + n, updatedAt := if n == 0 then rooms[k].updatedAt else Some(now))
    decreases |roomIds|
  {
    if roomIds != [] {
      var init := roomIds[..|roomIds| - 1];
      AllocationsRaiseOccupancy(rooms, init, now, k);
      AllocationsKeepRooms(rooms, init, now);
    }
  }

  /** `n` allocations naming a room by its id string. */
  lemma {:induction false} RepeatedIdNamesRoom(k: ObjectId, n: nat)
    ensures AllocationsNaming(seq(n, _ => k), k) == n
  {
    ToObjectIdOfCanonical(k);
    if n > 0 {
      RepeatedIdNamesRoom(k, n - 1);
      assert seq(n, _ => k)[..n - 1] == seq(n - 1, _ => k);
    }
  }

  /**
   * N allocations against one room raise its occupancy by N even when that
   * takes it past its capacity, after which the room is no longer listed.
   */
  lemma AllocationsOvershootCapacity(rooms: map<ObjectId, Room>, k: ObjectId, n: nat, now: Time)
    requires k in rooms
    ensures var after := RoomsAfterAllocations(rooms, seq(n, _ => k), now);
      k in after && after[k].occupancy == rooms[k].occupancy + n && after[k].capacity == rooms[k].capacity
      && (rooms[k].occupancy + n >= rooms[k].capacity ==> !IsAvailable(after[k]))
  {
    RepeatedIdNamesRoom(k, n);
    AllocationsRaiseOccupancy(rooms, seq(n, _ => k), now, k);
  }

  /** An allocation never makes a full room available again; a room stays listed only while a bed is left. */
  lemma AllocationNeverFreesARoom(rooms: map<ObjectId, Room>, roomId: string, now: Time, k: ObjectId)
    requires k in rooms
    ensures var after := RoomsAfterAllocation(rooms, roomId, now);
      k in after && (IsAvailable(after[k]) ==> IsAvailable(rooms[k]))
  {
  }

  /** An allocation with a malformed room id leaves every room as it was. */
  lemma MalformedRoomIdChangesNoRoom(rooms: map<ObjectId, Room>, roomId: string, now: Time)
    requires !IsValidId(roomId)
    ensures RoomsAfterAllocation(rooms, roomId, now) == rooms
  {
  }

  /**
   * The ownership checks compare the role with the exact spelling "student":
   * an identity whose stored role is "Student" passes no allow-list, yet may
   * read every student record and file leave requests and complaints for
   * anyone.
   */
  lemma MisspelledStudentSkipsOwnership(u: AuthUser, doc: StudentDoc, studentId: string, roles: set<Role>)
    requires u.role == "Student"
    ensures MayReadStudent(u, doc) && MayFileFor(u, studentId)
    ensures RequireRoles(u, roles) == Err(Forbidden("Forbidden: insufficient role"))
  {
  }

  // ---------------------------------------------------------------------------
  // Two request sequences, verified against the handler contracts
  // ---------------------------------------------------------------------------

  /**
   * A staff member holding a token from login creates a fee and pays it; the
   * stored fee is then paid with the given transaction id and payment date.
   */
  method FeePaymentScenario(staff: ObjectId, feeId: ObjectId, fee: Fee, issued: Time, now: Time)
    requires issued <= now < issued + DefaultConfig.expiresMin * 60
  {
    var db := new Store.Database(map[staff := User("Sam", "sam@example.org", "pw", Some("staff"))]);
    var token := EncodeToken(staff, db.users[staff], DefaultConfig, issued);
    IssuedTokenPassesGate(db.users, DefaultConfig, staff, Staff, Managers, issued, now);
    var created := CreateFee(db, DefaultConfig, token, now, fee, feeId);
    assert created == Ok(feeId);
    ToObjectIdOfCanonical(feeId);
    var paid := PayFee(db, DefaultConfig, token, now, feeId, Some("tx1"));
    assert paid == Ok(FeePaid);
    assert db.fees[feeId].status == Paid && db.fees[feeId].transactionId == Some("tx1");
    assert db.fees[feeId].paymentDate == Some(now) && db.fees[feeId].amount == fee.amount;
  }

  /**
   * A warden creates a one-bed room and allocates it twice, by any spelling
   * of its id: both allocations are stored and the room ends with two
   * occupants and is no longer available.
   */
  method OverbookingScenario(warden: ObjectId, roomId: ObjectId, id1: ObjectId, id2: ObjectId,
                              a1: RoomAllocation, a2: RoomAllocation, issued: Time, now: Time)
    requires issued <= now < issued + DefaultConfig.expiresMin * 60
    requires id1 != id2
    requires ToObjectId(a1.roomId) == ToObjectId(a2.roomId) == Some(roomId)
  {
    var db := new Store.Database(map[warden := User("Wen", "wen@example.org", "pw", Some("warden"))]);
    var token := EncodeToken(warden, db.users[warden], DefaultConfig, issued);
    IssuedTokenPassesGate(db.users, DefaultConfig, warden, Warden, Wardens, issued, now);
    IssuedTokenPassesGate(db.users, DefaultConfig, warden, Warden, Managers, issued, now);
    var room := CreateRoom(db, DefaultConfig, token, now, RoomBody("h1", "A101", 1, None, None, None), roomId);
    assert db.rooms[roomId].occupancy == 0 && db.rooms[roomId].capacity == 1;
    var r1 := AllocateRoom(db, DefaultConfig, token, now, a1, id1);
    assert db.rooms[roomId].occupancy == 1;
    var r2 := AllocateRoom(db, DefaultConfig, token, now, a2, id2);
    assert r1 == Ok(id1) && r2 == Ok(id2);
    assert db.rooms[roomId].occupancy == 2 > db.rooms[roomId].capacity;
    assert !IsAvailable(db.rooms[roomId]) && db.allocations == map[id1 := a1, id2 := a2];
  }
}
