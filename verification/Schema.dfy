/** Tables, configuration and SQL statements of the authentication service.

    Every write statement of the service is a value of type `Stmt`, and `Apply` is what the
    database does with it: the new tables, or None when a constraint refuses it. */
module Schema {
  import opened Wrappers

  /** Microseconds, the resolution of TIMESTAMPTZ. */
  type Time = int
  type Uuid = nat

  const SECOND := 1_000_000
  const INTEGER_MAX := 0x7FFF_FFFF
  const EMAIL_MAX := 255

  /** Whole seconds of a point in time, as JWT claims store them. */
  function Seconds(t: Time): (s: int)
    ensures s * SECOND <= t < (s + 1) * SECOND
  {
    t / SECOND
  }

  datatype Claims = Claims(sub: Uuid, tid: Uuid, iat: int, exp: int)

  datatype AccessClaims = AccessClaims(sub: Uuid, iat: int, exp: int)

  /** Library code the service calls: the token hash under the configured secret, the JWT
      encoder and payload decoder, and Unicode letter case. */
  datatype Library = Library(
    hash: string -> string,
    encode: Claims -> string,
    decode: string -> Option<Claims>,
    isUpper: char -> bool,
    isLower: char -> bool)
  {
    /** Decoding an encoded JWT gives its claims back. Nothing is assumed of the hash. */
    ghost predicate Faithful() {
      forall c: Claims :: decode(encode(c)) == Some(c)
    }
  }

  datatype Config = Config(
    jwtSecret: string,
    accessTokenExpiration: int,
    refreshTokenExpiration: int,
    maxLoginAttempts: int,
    lockoutDuration: int,
    passwordResetExpiration: int,
    emailVerificationExpiration: int,
    minPasswordLength: nat,
    requireEmailVerification: bool,
    lib: Library)

  datatype Status = Pending | Active | Suspended | Deleted

  /** An Argon2 hash, idealised: it verifies exactly the password it was made from. */
  datatype StoredHash = StoredHash(password: string, salt: nat)

  datatype User = User(
    email: string,
    password: StoredHash,
    status: Status,
    emailVerifiedAt: Option<Time>,
    failedLoginAttempts: int,
    lockedUntil: Option<Time>)
  {
    predicate IsLocked(now: Time) {
      lockedUntil.Some? && lockedUntil.value > now
    }

    predicate CanLogin(now: Time) {
      status == Active && !IsLocked(now)
    }
  }

  datatype RefreshToken = RefreshToken(user: Uuid, hash: string, expiresAt: Time, revokedAt: Option<Time>)
  {
    predicate IsExpired(now: Time) {
      expiresAt < now
    }

    predicate IsRevoked() {
      revokedAt.Some?
    }

    predicate IsValid(now: Time) {
      !IsExpired(now) && !IsRevoked()
    }
  }

  /** A row of password_reset_tokens or of email_verification_tokens. */
  datatype OneTimeToken = OneTimeToken(user: Uuid, hash: string, expiresAt: Time, usedAt: Option<Time>)

  datatype Purpose = PasswordReset | EmailVerification

  type Users = map<Uuid, User>
  type RefreshTokens = map<Uuid, RefreshToken>
  type OneTimeTokens = map<Uuid, OneTimeToken>

  datatype Db = Db(users: Users, refresh: RefreshTokens, resets: OneTimeTokens, verifications: OneTimeTokens)
  {
    function OneTime(purpose: Purpose): OneTimeTokens {
      if purpose.PasswordReset? then resets else verifications
    }
  }

  const EMPTY := Db(map[], map[], map[], map[])

  // ---- Statements ----

  datatype Stmt =
    | InsertUser(id: Uuid, email: string, password: StoredHash)
    | IncrementFailedAttempts(user: Uuid, max: int, lockout: int)
    | RecordSuccessfulLogin(user: Uuid)
    | SetPassword(user: Uuid, password: StoredHash)
    | SetVerified(user: Uuid)
    | SetStatus(user: Uuid, status: Status)
    | InsertRefresh(id: Uuid, user: Uuid, hash: string, expiresAt: Time)
    | RevokeRefresh(id: Uuid)
    | RevokeAll(user: Uuid)
    | Invalidate(purpose: Purpose, user: Uuid)
    | InsertOneTime(purpose: Purpose, id: Uuid, user: Uuid, hash: string, expiresAt: Time)
    | MarkUsed(purpose: Purpose, id: Uuid)

  /** The counter update; both assignments read the old counter. */
  function Incremented(u: User, max: int, lockout: int, now: Time): User {
    u.(failedLoginAttempts := u.failedLoginAttempts + 1,
       lockedUntil := if u.failedLoginAttempts + 1 >= max then Some(now + lockout * SECOND) else u.lockedUntil)
  }

  function RevokedFor(rows: RefreshTokens, user: Uuid, now: Time): RefreshTokens {
    map id | id in rows ::
      if rows[id].user == user && rows[id].revokedAt.None? then rows[id].(revokedAt := Some(now)) else rows[id]
  }

  function InvalidatedFor(rows: OneTimeTokens, user: Uuid, now: Time): OneTimeTokens {
    map id | id in rows ::
      if rows[id].user == user && rows[id].usedAt.None? then rows[id].(usedAt := Some(now)) else rows[id]
  }

  predicate EmailTaken(users: Users, email: string) {
    exists u :: u in users && users[u].email == email
  }

  predicate RefreshHashTaken(rows: RefreshTokens, hash: string) {
    exists id :: id in rows && rows[id].hash == hash
  }

  predicate OneTimeHashTaken(rows: OneTimeTokens, hash: string) {
    exists id :: id in rows && rows[id].hash == hash
  }

  /** PRIMARY KEY, UNIQUE, REFERENCES, VARCHAR(255), INTEGER range, and the RETURNING of
      SetVerified, which fails when no row matches. */
  predicate Accepted(db: Db, s: Stmt) {
    match s
    case InsertUser(id, email, _) => id !in db.users && !EmailTaken(db.users, email) && |email| <= EMAIL_MAX
    case IncrementFailedAttempts(u, _, _) => u in db.users ==> db.users[u].failedLoginAttempts < INTEGER_MAX
    case SetVerified(u) => u in db.users
    case InsertRefresh(id, u, hash, _) =>
      id !in db.refresh && u in db.users && !RefreshHashTaken(db.refresh, hash)
    case InsertOneTime(purpose, id, u, hash, _) =>
      id !in db.OneTime(purpose) && u in db.users && !OneTimeHashTaken(db.OneTime(purpose), hash)
    case _ => true
  }

  function ApplyToUsers(users: Users, now: Time, s: Stmt): Users {
    match s
    case InsertUser(id, email, password) => users[id := User(email, password, Active, None, 0, None)]
    case IncrementFailedAttempts(u, max, lockout) =>
      if u in users then users[u := Incremented(users[u], max, lockout, now)] else users
    case RecordSuccessfulLogin(u) =>
      if u in users then users[u := users[u].(failedLoginAttempts := 0, lockedUntil := None)] else users
    case SetPassword(u, password) => if u in users then users[u := users[u].(password := password)] else users
    case SetVerified(u) =>
      if u in users then users[u := users[u].(emailVerifiedAt := Some(now), status := Active)] else users
    case SetStatus(u, status) => if u in users then users[u := users[u].(status := status)] else users
    case _ => users
  }

  function ApplyToRefresh(rows: RefreshTokens, now: Time, s: Stmt): RefreshTokens {
    match s
    case InsertRefresh(id, u, hash, exp) => rows[id := RefreshToken(u, hash, exp, None)]
    case RevokeRefresh(id) => if id in rows then rows[id := rows[id].(revokedAt := Some(now))] else rows
    case RevokeAll(u) => RevokedFor(rows, u, now)
    case _ => rows
  }

  function ApplyToOneTime(purpose: Purpose, rows: OneTimeTokens, now: Time, s: Stmt): OneTimeTokens {
    match s
    case Invalidate(p, u) => if p == purpose then InvalidatedFor(rows, u, now) else rows
    case InsertOneTime(p, id, u, hash, exp) =>
      if p == purpose then rows[id := OneTimeToken(u, hash, exp, None)] else rows
    case MarkUsed(p, id) => if p == purpose && id in rows then rows[id := rows[id].(usedAt := Some(now))] else rows
    case _ => rows
  }

  function Apply(db: Db, now: Time, s: Stmt): (r: Option<Db>)
  {
    if Accepted(db, s) then
      Some(Db(ApplyToUsers(db.users, now, s), ApplyToRefresh(db.refresh, now, s),
              ApplyToOneTime(PasswordReset, db.resets, now, s),
              ApplyToOneTime(EmailVerification, db.verifications, now, s)))
    else None
  }

  // ---- What every statement keeps ----

  ghost predicate UniqueRefreshHashes(rows: RefreshTokens) {
    forall a, b :: a in rows && b in rows && rows[a].hash == rows[b].hash ==> a == b
  }

  ghost predicate UniqueOneTimeHashes(rows: OneTimeTokens) {
    forall a, b :: a in rows && b in rows && rows[a].hash == rows[b].hash ==> a == b
  }

  ghost predicate UniqueEmails(users: Users) {
    forall a, b :: a in users && b in users && users[a].email == users[b].email ==> a == b
  }

  ghost predicate RefreshOwned(rows: RefreshTokens, users: Users) {
    forall id :: id in rows ==> rows[id].user in users
  }

  ghost predicate OneTimeOwned(rows: OneTimeTokens, users: Users) {
    forall id :: id in rows ==> rows[id].user in users
  }

  /** The UNIQUE and REFERENCES clauses of the schema, as facts about the tables. */
  ghost predicate Constraints(db: Db) {
    && UniqueEmails(db.users)
    && UniqueRefreshHashes(db.refresh)
    && UniqueOneTimeHashes(db.resets)
    && UniqueOneTimeHashes(db.verifications)
    && RefreshOwned(db.refresh, db.users)
    && OneTimeOwned(db.resets, db.users)
    && OneTimeOwned(db.verifications, db.users)
  }

  ghost predicate RefreshGrows(a: RefreshTokens, b: RefreshTokens) {
    forall id :: id in a ==>
      && id in b && b[id].user == a[id].user && b[id].hash == a[id].hash && b[id].expiresAt == a[id].expiresAt
      && (a[id].IsRevoked() ==> b[id].IsRevoked())
  }

  ghost predicate OneTimeGrows(a: OneTimeTokens, b: OneTimeTokens) {
    forall id :: id in a ==>
      && id in b && b[id].user == a[id].user && b[id].hash == a[id].hash && b[id].expiresAt == a[id].expiresAt
      && (a[id].usedAt.Some? ==> b[id].usedAt.Some?)
  }

  /** The tables only grow: no row disappears, no identity column changes, and a row once
      revoked or used stays so. */
  ghost predicate Grows(a: Db, b: Db) {
    && (forall u :: u in a.users ==> u in b.users && b.users[u].email == a.users[u].email)
    && RefreshGrows(a.refresh, b.refresh)
    && OneTimeGrows(a.resets, b.resets)
    && OneTimeGrows(a.verifications, b.verifications)
  }

  lemma GrowsFromItself(db: Db)
    ensures Grows(db, db)
  {
  }

  lemma GrowsTransitively(a: Db, b: Db, c: Db)
    requires Grows(a, b) && Grows(b, c)
    ensures Grows(a, c)
  {
  }

  lemma StatementGrows(db: Db, now: Time, s: Stmt)
    requires Apply(db, now, s).Some?
    ensures Grows(db, Apply(db, now, s).value)
  {
  }

  lemma UsersStayUnique(users: Users, now: Time, s: Stmt)
    requires UniqueEmails(users)
    requires s.InsertUser? ==> s.id !in users && !EmailTaken(users, s.email)
    ensures UniqueEmails(ApplyToUsers(users, now, s))
    ensures users.Keys <= ApplyToUsers(users, now, s).Keys
  {
  }

  lemma RefreshStaysSound(rows: RefreshTokens, users: Users, more: Users, now: Time, s: Stmt)
    requires UniqueRefreshHashes(rows) && RefreshOwned(rows, users) && users.Keys <= more.Keys
    requires s.InsertRefresh? ==> s.id !in rows && !RefreshHashTaken(rows, s.hash) && s.user in users
    ensures UniqueRefreshHashes(ApplyToRefresh(rows, now, s))
    ensures RefreshOwned(ApplyToRefresh(rows, now, s), more)
  {
  }

  lemma OneTimeStaysSound(purpose: Purpose, rows: OneTimeTokens, users: Users, more: Users, now: Time, s: Stmt)
    requires UniqueOneTimeHashes(rows) && OneTimeOwned(rows, users) && users.Keys <= more.Keys
    requires s.InsertOneTime? && s.purpose == purpose ==>
      s.id !in rows && !OneTimeHashTaken(rows, s.hash) && s.user in users
    ensures UniqueOneTimeHashes(ApplyToOneTime(purpose, rows, now, s))
    ensures OneTimeOwned(ApplyToOneTime(purpose, rows, now, s), more)
  {
  }

  lemma StatementKeepsConstraints(db: Db, now: Time, s: Stmt)
    requires Constraints(db)
    requires Apply(db, now, s).Some?
    ensures Constraints(Apply(db, now, s).value)
  {
    var more := ApplyToUsers(db.users, now, s);
    UsersStayUnique(db.users, now, s);
    RefreshStaysSound(db.refresh, db.users, more, now, s);
    OneTimeStaysSound(PasswordReset, db.resets, db.users, more, now, s);
    OneTimeStaysSound(EmailVerification, db.verifications, db.users, more, now, s);
  }

  // ---- Look-ups ----

  /** The user row with this email; by UNIQUE there is at most one. */
  ghost function FindUser(users: Users, email: string): (r: Option<Uuid>)
    ensures r.Some? ==> r.value in users && users[r.value].email == email
    ensures r.None? ==> !EmailTaken(users, email)
  {
    if EmailTaken(users, email) then
      var u :| u in users && users[u].email == email;
      Some(u)
    else None
  }

  predicate Usable(row: OneTimeToken, hash: string, now: Time) {
    row.hash == hash && row.expiresAt > now && row.usedAt.None?
  }

  /** A row that holds this hash, is not used and has not expired. */
  ghost function FindUsable(rows: OneTimeTokens, hash: string, now: Time): (r: Option<Uuid>)
    ensures r.Some? ==> r.value in rows && Usable(rows[r.value], hash, now)
    ensures r.None? ==> forall id :: id in rows ==> !Usable(rows[id], hash, now)
  {
    if exists id :: id in rows && Usable(rows[id], hash, now) then
      var id :| id in rows && Usable(rows[id], hash, now);
      Some(id)
    else None
  }
}
