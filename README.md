# Hostel management API — authorization and handler model

A Dafny model of the request-authorization layer and the handler state
transitions of a hostel administration API (a FastAPI service over a MongoDB
document store). The store is a `Database` object holding one map per
collection (user, student, hostel, room, roomallocation, fee, attendance,
lateentry, leaverequest, complaint, complaintupdate, notification), from the
ObjectId a record is stored under to the record. Every protected endpoint is
a method that validates the bearer token and applies its role gate or
self-only rule. The role-gated updates and deletes then check the ids they
were given (400), look the record up (404), and only then write. Two
handlers keep another order: `GetStudent` answers 400 and 404 before its
self-only 403 and writes nothing, and `AllocateRoom` stores the allocation
before its 400 for a malformed room id. `Login` and `GetAvailableRooms` take
no token. Each method's frame (`modifies db`fees`, …) names the only
collections it may change, and its postcondition gives the response and the new contents of
those collections on every path.

Modules, leaf first:

- `Options` — `Option` and `Result`.
- `Ids` — ObjectIds as 24 lower-case hexadecimal digits; `ToObjectId` is
  `to_object_id`, which accepts either case.
- `Schemas` — the closed enumerations of the request models, their
  spellings and defaults, the stored record shapes, the `capacity >= 1` bound.
- `Tokens` — a symbolic HS256 token: the signature is an unforgeable tag over
  (claims, key); decoding checks the signature, then `exp`.
- `Auth` — `encode_token`, `get_current_user`, `require_roles`, the
  allow-lists and the self-only predicates.
- `Store` — the `Database` class.
- `Handlers` — one method per endpoint, except `GET /api/auth/me`, whose
  answer is `Auth.Authenticate` itself.
- `Properties` — effects of several requests in a row, including two request
  sequences against the handler methods themselves: a fee created and paid
  by staff, and a one-bed room allocated twice.

Time is an abstract clock of whole seconds (`Time = nat`); a token issued at
`now` carries `exp = now + expiresMin * 60`, and is live while the clock is
before that instant. The secret and lifetime are a `Config` (default
`"dev-secret"`, 60 minutes). The id a new record is stored under is a
parameter of each create handler, required to be fresh in its collection,
which is what the store guarantees.

Where the code does something other than what its endpoints are documented
to do, the model follows the code:

- The ownership checks compare the role with the exact string `"student"`. A
  stored user whose role is spelled otherwise (`"Student"`) passes no role
  gate but also skips every ownership check, so it may read any student
  record and file for anyone (`Properties.MisspelledStudentSkipsOwnership`).
  The documented intent is that a student is refused whatever the spelling
  of their role.
- `allocate_room` answers 400 for a malformed room id only after the
  allocation has been stored, and silently changes no room for a well-formed
  id that names none.
- `add_complaint_update` sets the status to `in_progress` from any status,
  although its comment says "if currently open".
- `update_leave_status` stores any string as the status.
- Expiry: a token is refused from its `exp` instant on (section 4.1.4 of
  RFC 7519), so at `now == exp` it is already expired; the documented rule is
  "current time > expiry".
- `get_available_rooms` asks for no token at all, although the endpoint is
  documented as open to any authenticated user.

## Model

| member | source | states |
|---|---|---|
| `Ids.ToObjectId` | main.py:94-98 | Some exactly for 24 hexadecimal digits (the 400 "Invalid id" case otherwise); the id denotes the same digits up to case |
| `Ids.ToObjectIdOfCanonical` | main.py:75-80 | parsing the string form of an id (`str(_id)`, the token's `sub`) gives the same id back |
| `Ids.ToObjectIdIgnoresCase` | main.py:94-98 | two valid id strings find the same record iff they agree up to the case of their digits |
| `Schemas.ParseRole` | schemas.py:23 | a string is a role iff it is one of the four exact spellings, and which one |
| `Schemas.ValidateRole` | schemas.py:23 | a given string is accepted iff it is one of admin, warden, staff, student, and yields exactly the role it spells; an omitted one is student |
| `Schemas.ValidateFeeStatus` | schemas.py:84 | fee status is paid or unpaid, unpaid when omitted |
| `Schemas.ValidateAttendanceStatus` | schemas.py:97 | attendance status is present, absent or leave, and is required |
| `Schemas.ParseLeaveStatus` | schemas.py:113 | a string is a leave status iff it is pending, approved or rejected |
| `Schemas.ValidateLeaveStatus` | schemas.py:113 | a given string is accepted iff it is pending, approved or rejected, and yields exactly the status it spells; pending when omitted |
| `Schemas.ValidateComplaintStatus` | schemas.py:125 | complaint status is open, in_progress, resolved or closed, open when omitted |
| `Schemas.ValidateNotificationStatus` | schemas.py:163 | notification status is unread or read, unread when omitted |
| `Schemas.ValidateNotification` | schemas.py:159-166 | a notification body is accepted iff its status is unread, read or omitted; an omitted type becomes "info", a given one (null included) is kept, an omitted status becomes unread |
| `Schemas.ValidateRoom` | schemas.py:58-66 | a room body is accepted iff capacity >= 1; occupancy defaults to 0 and is otherwise unconstrained |
| `Schemas.StudentDocument` | schemas.py:36-45 | a stored student holds its profile fields and `user_id` |
| `Schemas.LeaveDocument` | schemas.py:108-115 | a stored leave request keeps the submitted fields and a status that parses back to the submitted one |
| `Tokens.Decode` | main.py:68-73 | Payload iff the signature verifies and the token is live; Expired iff it verifies but is past `exp`; Invalid iff the signature fails |
| `Tokens.DecodeSigned` | main.py:69-71 | a token signed with the key decodes to its claims before `exp` and is Expired from then on |
| `Tokens.DecodeForged` | main.py:72-73 | a token whose claims were replaced, or checked under another key, is Invalid, even when expired |
| `Auth.EncodeToken` | main.py:55-63 | the token verifies under the secret and under no other key; its claims are the user's id as `sub`, their name, email and stored role (student when absent), and `exp` `expiresMin` minutes after issue |
| `Auth.EncodeTokenDecodes` | main.py:55-63 | before its `exp` an issued token decodes to exactly the five claims `sub`, name, email, role, `exp` it was issued with; from then on it is Expired |
| `Auth.Authenticate` | main.py:66-80 | 401 "Token expired" / "Invalid token" by decode outcome; 500 for a `sub` that is not an id; 401 "User not found" for no such user; otherwise the identity built from the stored record |
| `Auth.IssuedTokenAuthenticates` | main.py:55-80 | a token login issued authenticates, until it expires, as the stored user with their stored role |
| `Auth.DeletedUserIsRejected` | main.py:75-78 | a live token for a user no longer stored is refused with 401 "User not found" |
| `Auth.RequireRoles` | main.py:83-88 | passes exactly when the role string spells a role on the allow-list, returning the same identity; 403 otherwise |
| `Auth.Authorize` | main.py:84-88 | passes iff the token validates and the validated role spells a listed role, yielding the validated identity; a 403 only ever follows a successful validation; every other error is the validation error |
| `Auth.IssuedTokenPassesGate` | main.py:55-88 | a live token issued to a user whose stored role is on the allow-list passes the gate, as that user |
| `Auth.StaffMayCreateButNotDeleteStudents` | main.py:150-173 | staff passes the manager list used to create students and gets 403 from delete-student's admin/warden list |
| `Auth.StudentsFailEveryManagerGate` | main.py:85-86 | a student is refused by every allow-list that does not name student |
| `Auth.MayFileFor` | main.py:240-242 | an identity whose role is exactly "student" may file leave requests and complaints only under its own id; any other role string may file for anyone |
| `Auth.MayReadStudent` | main.py:159-161 | an identity whose role is exactly "student" may read a student document only when its `user_id` is that identity's id; any other role string may read every one |
| `Handlers.Login` | main.py:134-140 | 401 "Invalid email or password" and no token unless a user with that email has exactly that password; on success the token of that user, type bearer, `expires_in = expiresMin * 60`; with unique emails, success iff such a user exists |
| `Handlers.CreateStudent` | main.py:149-152 | admin/warden/staff only; the student document is stored under the fresh id; refusal stores nothing |
| `Handlers.GetStudent` | main.py:154-163 | any identity; order 400, 404, then 403 for a student whose `user_id` differs; the document is returned with its id as `id` |
| `Handlers.UpdateStudent` | main.py:165-170 | admin/warden/staff; 400, then 404 with nothing changed; the payload's fields and `updated_at` overwrite that one document |
| `Handlers.DeleteStudent` | main.py:172-177 | admin/warden only (staff 403); 400, then 404 with nothing changed; else exactly that document is removed |
| `Handlers.CreateHostel` | main.py:182-185 | admin/warden only; the hostel is stored under the fresh id |
| `Handlers.CreateRoom` | main.py:187-190 | admin/warden only; then 422 for capacity below 1; else the validated room is stored |
| `Handlers.GetAvailableRooms` | main.py:192-197 | no authentication; exactly the rooms with occupancy below capacity, each once, each with its id |
| `Handlers.IncrementOccupancy` | main.py:204 | the named room's occupancy goes up by 1 and `updated_at` is stamped; every other room is unchanged; an absent room changes nothing |
| `Handlers.RoomsAfterAllocation` | main.py:203-204 | the same rooms; the one whose id the string denotes (either case) gains one occupant and `updated_at`, every other room, and every room for a malformed id, is unchanged |
| `Handlers.AllocateRoom` | main.py:199-205 | admin/warden/staff; the allocation is always stored first; a malformed room id then gives 400 with no room changed; otherwise the named room is bumped, no capacity check |
| `Handlers.CreateFee` | main.py:210-213 | admin/warden/staff; the fee is stored under the fresh id |
| `Handlers.PayFee` | main.py:218-223 | 400, then 404 with nothing changed; otherwise only status (paid), transaction id (possibly null), payment date and `updated_at` of that fee change |
| `Handlers.MarkAttendance` | main.py:228-231 | admin/warden/staff; the attendance record is stored |
| `Handlers.RecordLateEntry` | main.py:233-236 | admin/warden/staff; the late entry is stored |
| `Handlers.CreateLeaveRequest` | main.py:238-244 | any identity; a student filing for another id gets 403 and nothing is stored; otherwise the request is stored |
| `Handlers.UpdateLeaveStatus` | main.py:246-254 | 400, then 404 with nothing changed; otherwise that request's status becomes the given string, unvalidated, and `updated_at` is stamped |
| `Handlers.CreateComplaint` | main.py:259-265 | any identity; a student filing for another id gets 403 and nothing is stored |
| `Handlers.AddComplaintUpdate` | main.py:267-276 | 400, then 404 with nothing inserted; otherwise the update is stored and the complaint's status becomes in_progress from any status |
| `Handlers.CreateNotification` | main.py:281-284 | admin/warden/staff; then 422 for a status that is not unread or read; else the validated notification is stored, typed "info" and unread when those were omitted; refusal stores nothing |
| `Properties.AllocationsKeepRooms` | main.py:204 | allocations never add or remove rooms |
| `Properties.AllocationsRaiseOccupancy` | main.py:199-205 | after any run of allocations each room's occupancy has grown by the number that named it, nothing else but `updated_at` changed |
| `Properties.AllocationsOvershootCapacity` | main.py:199-205 | N allocations against one room raise occupancy by N even past capacity, after which it is not available |
| `Properties.AllocationNeverFreesARoom` | main.py:192-205 | an allocation never makes an unavailable room available |
| `Properties.MalformedRoomIdChangesNoRoom` | main.py:204 | an allocation with a malformed room id leaves all rooms unchanged |
| `Properties.MisspelledStudentSkipsOwnership` | main.py:159-161 | an identity with role "Student" is refused by every allow-list (main.py:85-86) but passes the ownership checks of get_student, leave_request and create_complaint (main.py:159-161, 240-242, 261-263) for any record or id |

## Left out

- HS256 signing and verification (PyJWT, HMAC-SHA256) are a foreign library: the signature is a symbolic tag over (claims, key), the JOSE header and the `alg` check are not modelled, and a malformed token is one opaque case.
- The HTTP bearer-header extraction (a missing or non-Bearer `Authorization` header) is framework plumbing and is not modelled; handlers receive the token.
- `database.py` is not part of this model: `create_document`'s `created_at`/`updated_at` stamping is not modelled (an insert stores the record as given under a fresh id), and nothing is said about the order in which the store returns documents.
- Request-body validation (422) is modelled only for `Room.capacity` and the notification `status`; the other request bodies are taken as already validated, with the enumeration fields typed by their enumerations. `EmailStr` normalization is not modelled. A stored user's `role` is either a string or absent (`RoleOf` then gives "student"); a `role` key present with a null value is not represented, so the token it would issue with `role: null` and the 500 raised when `AuthUser` is built from it are not modelled, and neither is the 500 for a missing or malformed name or email.
- Real `datetime` and time zones: the clock is whole seconds, so the truncation of `exp` to a second does not arise.
- `Fee.amount` and `Maintenance.cost` are floats and are kept opaque.
- CORS, routing, `Depends` wiring, uvicorn start-up, the `/` and `/test` health endpoints and the `/api/rooms/seed` demo endpoint are I/O plumbing or demo code.
- `Inventory` and `Maintenance` are declared but used by no handler.
- `UpdateStudent`: a payload key `_id`, or keys with `$` or `.`, which MongoDB rejects or treats as paths, are treated as plain top-level fields.
- `Ids.ToObjectId`: whitespace between digit pairs, which Python's `bytes.fromhex` skips, is treated as a malformed id.
- Concurrency and a failure between the two writes of an allocation: requests are sequential and every store write succeeds.
