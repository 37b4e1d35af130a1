/**
 * Session tokens and access control (main.py:35-88): the claim set a login
 * issues, the validation every protected request runs first, the role
 * allow-list gate, and the self-only rule that restricts a student to their
 * own records.
 */
module Auth {
  import opened Options
  import opened Ids
  import opened Schemas
  import opened Tokens

  /** An HTTP error response: the status code follows from the constructor, `detail` is the message. */
  datatype HttpError =
    | Unauthorized(detail: string)   // 401
    | Forbidden(detail: string)      // 403
    | NotFound(detail: string)       // 404
    | BadRequest(detail: string)     // 400
    | Unprocessable                  // 422, a request body its schema rejects
    | ServerError                    // 500, an exception nothing catches

  function StatusCode(e: HttpError): int {
    match e
    case Unauthorized(_) => 401
    case Forbidden(_) => 403
    case NotFound(_) => 404
    case BadRequest(_) => 400
    case Unprocessable => 422
    case ServerError => 500
  }

  /** `JWT_SECRET` and `JWT_EXPIRES_MIN`, read from the environment once at start-up. */
  datatype Config = Config(secret: string, expiresMin: int)

  /** The values used when the environment sets neither (main.py:35-36). */
  const DefaultConfig := Config("dev-secret", 60)

  /** `AuthUser`: the identity a validated request runs as. */
  datatype AuthUser = AuthUser(id: ObjectId, name: string, email: string, role: string)

  /** The role of a stored user; a document without one counts as a student. */
  function RoleOf(u: User): string {
    u.role.GetOr(RoleName(Student))
  }

  /** The identity built from a stored user record. */
  function Identity(id: ObjectId, u: User): AuthUser {
    AuthUser(id, u.name, u.email, RoleOf(u))
  }

  // ---------------------------------------------------------------------------
  // Tokens (encode_token, main.py:55-63)
  // ---------------------------------------------------------------------------

  /** Seconds from issue to expiry. */
  function Lifetime(cfg: Config): int {
    cfg.expiresMin * 60
  }

  /** The claims of a token issued at `now` for the user stored under `id`. */
  function TokenClaims(id: ObjectId, u: User, cfg: Config, now: Time): Claims {
    Claims(Some(id), u.name, u.email, RoleOf(u), Some(now + Lifetime(cfg)))
  }

  /** `encode_token`: the claims signed with the configured secret. */
  function EncodeToken(id: ObjectId, u: User, cfg: Config, now: Time): (t: Token)
    ensures Authentic(t, cfg.secret)
    ensures forall key :: key != cfg.secret ==> !Authentic(t, key)
    ensures t.claims.sub == Some(id) && t.claims.name == u.name && t.claims.email == u.email
    ensures t.claims.role == RoleOf(u) && t.claims.exp == Some(now + cfg.expiresMin * 60)
  {
    Sign(TokenClaims(id, u, cfg, now), cfg.secret)
  }

  /**
   * A token issued at `issued` decodes, until `expiresMin` minutes later, to a
   * claim set naming the user and carrying the stored role ("student" when
   * the record has none); from that instant on it is Expired.
   */
  lemma EncodeTokenDecodes(id: ObjectId, u: User, cfg: Config, issued: Time, now: Time)
    ensures var d := Decode(EncodeToken(id, u, cfg, issued), cfg.secret, now);
      if now < issued + cfg.expiresMin * 60
      then d == Payload(Claims(Some(id), u.name, u.email, RoleOf(u), Some(issued + cfg.expiresMin * 60)))
      else d == Expired
  {
    DecodeSigned(TokenClaims(id, u, cfg, issued), cfg.secret, now);
  }

  // ---------------------------------------------------------------------------
  // Validation (get_current_user, main.py:66-80)
  // ---------------------------------------------------------------------------

  /**
   * Validates a bearer token at instant `now` against the user collection.
   * Failure to decode is 401 "Token expired" or 401 "Invalid token"; a claim
   * set without `sub` names a freshly generated id, so no user; a `sub` that
   * is not an id string raises outside the try block, so 500; an id that
   * names no user is 401 "User not found". The identity is built from the
   * stored record, not from the claims.
   */
  function Authenticate(users: map<ObjectId, User>, cfg: Config, t: Token, now: Time): (r: Result<AuthUser, HttpError>)
    ensures Decode(t, cfg.secret, now) == Expired ==> r == Err(Unauthorized("Token expired"))
    ensures Decode(t, cfg.secret, now) == Invalid ==> r == Err(Unauthorized("Invalid token"))
    ensures r.Ok? <==>
      Decode(t, cfg.secret, now).Payload? && t.claims.sub.Some? &&
      ToObjectId(t.claims.sub.value).Some? && ToObjectId(t.claims.sub.value).value in users
    ensures r.Ok? ==> r.value.id in users && r.value == Identity(r.value.id, users[r.value.id])
    ensures r.Ok? ==> ToObjectId(t.claims.sub.value) == Some(r.value.id)
    ensures Decode(t, cfg.secret, now).Payload? && t.claims.sub.None? ==> r == Err(Unauthorized("User not found"))
    ensures (Decode(t, cfg.secret, now).Payload? && t.claims.sub.Some? && ToObjectId(t.claims.sub.value).Some?
             && ToObjectId(t.claims.sub.value).value !in users) ==> r == Err(Unauthorized("User not found"))
    ensures r.Err? ==> r.error.Unauthorized? || r.error == ServerError
    ensures r == Err(ServerError) <==>
      Decode(t, cfg.secret, now).Payload? && t.claims.sub.Some? && !IsValidId(t.claims.sub.value)
  {
    match Decode(t, cfg.secret, now)
    case Expired => Err(Unauthorized("Token expired"))
    case Invalid => Err(Unauthorized("Invalid token"))
    case Payload(c) =>
      match c.sub
      case None => Err(Unauthorized("User not found"))
      case Some(s) =>
        match ToObjectId(s)
        case None => Err(ServerError)
        case Some(id) =>
          if id in users then Ok(Identity(id, users[id])) else Err(Unauthorized("User not found"))
  }

  /**
   * A token that `login` issued authenticates, until it expires, as the
   * stored user, with the role now stored for them.
   */
  lemma IssuedTokenAuthenticates(users: map<ObjectId, User>, cfg: Config, id: ObjectId, issued: Time, now: Time)
    requires id in users
    requires now < issued + cfg.expiresMin * 60
    ensures Authenticate(users, cfg, EncodeToken(id, users[id], cfg, issued), now) == Ok(Identity(id, users[id]))
  {
    EncodeTokenDecodes(id, users[id], cfg, issued, now);
    ToObjectIdOfCanonical(id);
  }

  /** Once its user is deleted, a token no longer authenticates, however fresh it is. */
  lemma DeletedUserIsRejected(users: map<ObjectId, User>, cfg: Config, id: ObjectId, u: User, issued: Time, now: Time)
    requires id !in users
    requires now < issued + cfg.expiresMin * 60
    ensures Authenticate(users, cfg, EncodeToken(id, u, cfg, issued), now) == Err(Unauthorized("User not found"))
  {
    EncodeTokenDecodes(id, u, cfg, issued, now);
    ToObjectIdOfCanonical(id);
  }

  // ---------------------------------------------------------------------------
  // The role gate (require_roles, main.py:83-88)
  // ---------------------------------------------------------------------------

  /** Roles that manage records: create students, fees, attendance, notifications, allocations. */
  const Managers: set<Role> := {Admin, Warden, Staff}
  /** Roles that may create hostels and rooms and delete students. */
  const Wardens: set<Role> := {Admin, Warden}

  /** Passes the identity on exactly when its role string spells one of the allowed roles. */
  function RequireRoles(u: AuthUser, roles: set<Role>): (r: Result<AuthUser, HttpError>)
    ensures r.Ok? <==> exists x :: x in roles && RoleName(x) == u.role
    ensures r.Ok? ==> r.value == u
    ensures r.Err? ==> r.error == Forbidden("Forbidden: insufficient role")
  {
    match ParseRole(u.role)
    case Some(x) => if x in roles then Ok(u) else Err(Forbidden("Forbidden: insufficient role"))
    case None => Err(Forbidden("Forbidden: insufficient role"))
  }

  /**
   * Validation followed by the gate, as a dependency `require_roles(roles)`
   * runs them: a request that fails validation is refused with that 401 (or
   * 500) before its role is looked at.
   */
  function Authorize(users: map<ObjectId, User>, cfg: Config, t: Token, now: Time, roles: set<Role>): (r: Result<AuthUser, HttpError>)
    ensures r.Ok? <==> (Authenticate(users, cfg, t, now).Ok? &&
                        exists x :: x in roles && RoleName(x) == Authenticate(users, cfg, t, now).value.role)
    ensures r.Ok? ==> r == Authenticate(users, cfg, t, now)
    ensures r.Err? && r.error.Forbidden? ==> Authenticate(users, cfg, t, now).Ok?
    ensures r.Err? && !r.error.Forbidden? ==> r == Authenticate(users, cfg, t, now)
  {
    match Authenticate(users, cfg, t, now)
    case Err(e) => Err(e)
    case Ok(u) => RequireRoles(u, roles)
  }

  /** A live token issued to a user whose stored role is on the allow-list passes the gate as that user. */
  lemma IssuedTokenPassesGate(users: map<ObjectId, User>, cfg: Config, id: ObjectId, x: Role, roles: set<Role>, issued: Time, now: Time)
    requires id in users && users[id].role == Some(RoleName(x)) && x in roles
    requires now < issued + cfg.expiresMin * 60
    ensures Authorize(users, cfg, EncodeToken(id, users[id], cfg, issued), now, roles) == Ok(Identity(id, users[id]))
  {
    IssuedTokenAuthenticates(users, cfg, id, issued, now);
  }

  /** Deleting a student is refused to staff, while creating one is allowed to them. */
  lemma StaffMayCreateButNotDeleteStudents(u: AuthUser)
    requires u.role == "staff"
    ensures RequireRoles(u, Managers).Ok?
    ensures RequireRoles(u, Wardens) == Err(Forbidden("Forbidden: insufficient role"))
  {
    assert RoleName(Staff) == u.role;
  }

  /** No role stands for another: a student is refused by every manager allow-list. */
  lemma StudentsFailEveryManagerGate(u: AuthUser, roles: set<Role>)
    requires u.role == "student"
    requires Student !in roles
    ensures RequireRoles(u, roles).Err?
  {
  }

  // ---------------------------------------------------------------------------
  // Self-only rules (main.py:159-161, 240-242, 261-263)
  // ---------------------------------------------------------------------------

  /** Ownership rules apply to the exact role string "student" and to no other. */
  predicate IsStudent(u: AuthUser) {
    u.role == RoleName(Student)
  }

  /** A leave request or complaint for `studentId` may be filed by this identity. */
  predicate MayFileFor(u: AuthUser, studentId: string): (b: bool)
    ensures u.role == "student" ==> (b <==> studentId == u.id)
    ensures u.role != "student" ==> b
  {
    !IsStudent(u) || studentId == u.id
  }

  /** The student document may be read by this identity: students see only the one whose `user_id` is theirs. */
  predicate MayReadStudent(u: AuthUser, doc: StudentDoc): (b: bool)
    ensures u.role == "student" ==> (b <==> "user_id" in doc && doc["user_id"] == Text(u.id))
    ensures u.role != "student" ==> b
  {
    !IsStudent(u) || ("user_id" in doc && doc["user_id"] == Text(u.id))
  }
}
