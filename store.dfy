/**
 * The document store: one collection per entity, each a map from the id a
 * record was stored under to the record. Handlers change the collections in
 * place (insert, `$set` on one record, `$inc` on a counter, delete).
 */
module Store {
  import opened Ids
  import opened Schemas

  class Database {
    var users: map<ObjectId, User>
    var students: map<ObjectId, StudentDoc>
    var hostels: map<ObjectId, Hostel>
    var rooms: map<ObjectId, Room>
    var allocations: map<ObjectId, RoomAllocation>
    var fees: map<ObjectId, Fee>
    var attendance: map<ObjectId, Attendance>
    var lateEntries: map<ObjectId, LateEntry>
    var leaves: map<ObjectId, LeaveRecord>
    var complaints: map<ObjectId, Complaint>
    var complaintUpdates: map<ObjectId, ComplaintUpdate>
    var notifications: map<ObjectId, Notification>

    /** A store holding the given users (who are created outside this API) and nothing else. */
    constructor (users: map<ObjectId, User>)
      ensures this.users == users
      ensures students == map[] && hostels == map[] && rooms == map[] && allocations == map[]
      ensures fees == map[] && attendance == map[] && lateEntries == map[] && leaves == map[]
      ensures complaints == map[] && complaintUpdates == map[] && notifications == map[]
    {
      this.users := users;
      students, hostels, rooms, allocations := map[], map[], map[], map[];
      fees, attendance, lateEntries, leaves := map[], map[], map[], map[];
      complaints, complaintUpdates, notifications := map[], map[], map[];
    }
  }
}
