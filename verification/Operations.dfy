/** What each operation does to the rows and what it answers, case by case.

    Each lemma tells one operation completely, for a call whose statements do not fail, in terms
    of columns, the clock and the configuration. None of them mentions a plan or a statement. */
module Operations {
  import opened Wrappers
  import opened TokenText
  import opened Schema
  import opened Calls
  import opened Policy

  // ---- What happens to many rows at once ----

  /** Every unrevoked row of the user is revoked now; no other row changes. */
  ghost predicate SessionsEnded(before: RefreshTokens, after: RefreshTokens, u: Uuid, now: Time) {
    && after.Keys == before.Keys
    && forall id :: id in before ==>
         after[id] == if before[id].user == u && before[id].revokedAt == None then
             RefreshToken(u, before[id].hash, before[id].expiresAt, Some(now))
           else before[id]
  }

  /** Every unused row of the user is used now; no other row changes. */
  ghost predicate TokensClosed(before: OneTimeTokens, after: OneTimeTokens, u: Uuid, now: Time) {
    && after.Keys == before.Keys
    && forall id :: id in before ==>
         after[id] == if before[id].user == u && before[id].usedAt == None then
             OneTimeToken(u, before[id].hash, before[id].expiresAt, Some(now))
           else before[id]
  }

  /** One unused row is used now. */
  ghost predicate TokenUsed(before: OneTimeTokens, after: OneTimeTokens, id: Uuid, now: Time) {
    && id in before
    && after == before[id := OneTimeToken(before[id].user, before[id].hash, before[id].expiresAt, Some(now))]
  }

  ghost predicate FreshSession(cfg: Config, rows: RefreshTokens, draw: Draw) {
    draw.id !in rows && forall id :: id in rows ==> rows[id].hash != cfg.lib.hash(HexEncode(draw.bytes))
  }

  ghost predicate FreshToken(cfg: Config, rows: OneTimeTokens, draw: Draw) {
    draw.id !in rows && forall id :: id in rows ==> rows[id].hash != cfg.lib.hash(HexEncode(draw.bytes))
  }

  ghost predicate Unknown(users: Users, email: string) {
    forall u :: u in users ==> users[u].email != email
  }

  predicate Locked(row: User, now: Time) {
    row.lockedUntil.Some? && row.lockedUntil.value > now
  }

  // ---- Accounts ----

  lemma Registering(cfg: Config, db: Db, signed: set<string>, req: Request)
    requires req.call.Register? && req.fault == NoFault
    ensures
      var Register(email, password) := req.call;
      var id := req.draw.id;
      var (after, reply) := Outcome(cfg, db, signed, req);
      if !Strong(cfg, password) then after == db && reply == Err(WeakPassword)
      else if !Unknown(db.users, email) then after == db && reply == Err(EmailExists)
      else if id in db.users || |email| > 255 then after == db && reply == Err(Database)
      else
        && reply == Registered(id)
        && after == db.(
             users := db.users[id := User(email, StoredHash(password, req.draw.salt), Active, None, 0, None)])
  {
    CheckIsPolicy(cfg, req.call.password);
    var s := Stmt.InsertUser(req.draw.id, req.call.email, StoredHash(req.call.password, req.draw.salt));
    LoneWrite(db, req.now, s, 1);
  }

  lemma LoginOfNobody(cfg: Config, db: Db, signed: set<string>, req: Request)
    requires req.call.Login? && req.fault == NoFault && Unknown(db.users, req.call.email)
    ensures Outcome(cfg, db, signed, req) == (db, Err(InvalidCredentials))
  {
  }

  /** The checks come in this order: lock, status, password, verification. */
  lemma LoginRefused(cfg: Config, db: Db, signed: set<string>, req: Request, u: Uuid)
    requires UniqueEmails(db.users) && req.call.Login? && req.fault == NoFault
    requires u in db.users && db.users[u].email == req.call.email
    ensures
      var row := db.users[u];
      var (after, reply) := Outcome(cfg, db, signed, req);
      && (Locked(row, req.now) ==> after == db && reply == Err(AccountLocked))
      && (!Locked(row, req.now) && row.status != Active ==> after == db && reply == Err(AccountNotActive))
      && ((!Locked(row, req.now) && row.status == Active && row.password.password == req.call.password
           && cfg.requireEmailVerification && row.emailVerifiedAt == None) ==>
            after == db && reply == Err(EmailNotVerified))
  {
  }

  /** A wrong password is counted, and the count that reaches the limit locks the account. */
  lemma WrongPassword(cfg: Config, db: Db, signed: set<string>, req: Request, u: Uuid)
    requires UniqueEmails(db.users) && req.call.Login? && req.fault == NoFault
    requires u in db.users && db.users[u].email == req.call.email
    requires !Locked(db.users[u], req.now) && db.users[u].status == Active
    requires db.users[u].password.password != req.call.password
    ensures
      var row := db.users[u];
      var count := row.failedLoginAttempts + 1;
      var until :=
        if count >= cfg.maxLoginAttempts then Some(req.now + cfg.lockoutDuration * SECOND) else row.lockedUntil;
      var counted := row.(failedLoginAttempts := count, lockedUntil := until);
      Outcome(cfg, db, signed, req) ==
        if count > 0x7FFF_FFFF then (db, Err(Database))
        else (db.(users := db.users[u := counted]), Err(InvalidCredentials))
  {
    LoneWrite(db, req.now, Stmt.IncrementFailedAttempts(u, cfg.maxLoginAttempts, cfg.lockoutDuration), 1);
  }

  /** What is handed out for a user now, as text and as claims. */
  ghost predicate TokensFor(cfg: Config, reply: Reply, u: Uuid, now: Time, draw: Draw) {
    && reply.Tokens?
    && reply.access == AccessClaims(u, Seconds(now), Seconds(now + cfg.accessTokenExpiration * SECOND))
    && var claims := Claims(u, draw.id, Seconds(now), Seconds(now + cfg.refreshTokenExpiration * SECOND));
       reply.refresh == cfg.lib.encode(claims) + "." + HexEncode(draw.bytes)
  }

  /** The row of a refresh token issued now. */
  function NewSession(cfg: Config, u: Uuid, now: Time, draw: Draw): RefreshToken {
    RefreshToken(u, cfg.lib.hash(HexEncode(draw.bytes)), now + cfg.refreshTokenExpiration * SECOND, None)
  }

  lemma LoginAccepted(cfg: Config, db: Db, signed: set<string>, req: Request, u: Uuid)
    requires UniqueEmails(db.users) && req.call.Login? && req.fault == NoFault
    requires u in db.users && db.users[u].email == req.call.email
    requires !Locked(db.users[u], req.now) && db.users[u].status == Active
    requires db.users[u].password.password == req.call.password
    requires cfg.requireEmailVerification ==> db.users[u].emailVerifiedAt != None
    ensures
      var (after, reply) := Outcome(cfg, db, signed, req);
      var users := db.users[u := db.users[u].(failedLoginAttempts := 0, lockedUntil := None)];
      if FreshSession(cfg, db.refresh, req.draw) then
        && TokensFor(cfg, reply, u, req.now, req.draw)
        && after == db.(users := users, refresh := db.refresh[req.draw.id := NewSession(cfg, u, req.now, req.draw)])
      else after == db.(users := users) && reply == Err(Database)
  {
    var writes := PlanOf(cfg, db, signed, req).writes;
    assert writes == [Stmt.RecordSuccessfulLogin(u), StoreRefresh(cfg, u, req.now, req.draw)];
    FirstWrite(db, req.now, writes, 1);
    assert writes[1..] == [writes[1]];
    LoneWrite(Apply(db, req.now, writes[0]).value, req.now, writes[1], 2);
  }

  // ---- Sessions ----

  lemma LogoutWithoutDot(cfg: Config, db: Db, signed: set<string>, req: Request)
    requires req.call.Logout? && '.' !in req.call.token
    ensures Outcome(cfg, db, signed, req) == (db, Err(InvalidToken))
  {
    JoinSplit(req.call.token);
  }

  /** A logout succeeds exactly when the JWT decodes to claims that have not run out, whoever
      signed it and whatever its random part; then the row it names is revoked now. */
  lemma LoggingOut(cfg: Config, db: Db, signed: set<string>, req: Request, jwt: string, rest: string)
    requires req.call.Logout? && req.call.token == jwt + "." + rest && '.' !in rest && req.fault == NoFault
    ensures
      var claims := cfg.lib.decode(jwt);
      var (after, reply) := Outcome(cfg, db, signed, req);
      if claims.None? || claims.value.exp + 60 < Seconds(req.now) then after == db && reply == Err(InvalidToken)
      else
        var id := claims.value.tid;
        && reply == Done
        && after == if id in db.refresh then
               db.(refresh := db.refresh[id := db.refresh[id].(revokedAt := Some(req.now))])
             else db
  {
    SplitJoin(jwt, rest);
    var claims := cfg.lib.decode(jwt);
    if claims.Some? {
      LoneWrite(db, req.now, Stmt.RevokeRefresh(claims.value.tid), 0);
    }
  }

  lemma RefreshWithoutDot(cfg: Config, db: Db, signed: set<string>, req: Request)
    requires req.call.RefreshTokens? && '.' !in req.call.token
    ensures Outcome(cfg, db, signed, req) == (db, Err(InvalidToken))
  {
    JoinSplit(req.call.token);
  }

  /** The JWT is one the service handed out and has not run out. */
  predicate Vouched(cfg: Config, signed: set<string>, jwt: string, now: Time) {
    cfg.lib.decode(jwt).Some? && jwt in signed && cfg.lib.decode(jwt).value.exp + 60 >= Seconds(now)
  }

  /** A refresh that does not reach the user: the token is not genuine, was used, or ran out. */
  lemma RefreshRefused(cfg: Config, db: Db, signed: set<string>, req: Request, jwt: string, secret: string)
    requires req.call.RefreshTokens? && req.call.token == jwt + "." + secret && '.' !in secret && req.fault == NoFault
    ensures
      var (after, reply) := Outcome(cfg, db, signed, req);
      if !Vouched(cfg, signed, jwt, req.now) then after == db && reply == Err(InvalidToken)
      else
        var claims := cfg.lib.decode(jwt).value;
        if claims.tid !in db.refresh || db.refresh[claims.tid].hash != cfg.lib.hash(secret) then
          after == db && reply == Err(InvalidToken)
        else if db.refresh[claims.tid].revokedAt.Some? then
          && reply == Err(TokenRevoked)
          && after == db.(refresh := after.refresh)
          && SessionsEnded(db.refresh, after.refresh, claims.sub, req.now)
        else db.refresh[claims.tid].expiresAt < req.now ==> after == db && reply == Err(TokenRevoked)
  {
    SplitJoin(jwt, secret);
    if Vouched(cfg, signed, jwt, req.now) {
      LoneWrite(db, req.now, Stmt.RevokeAll(cfg.lib.decode(jwt).value.sub), 1);
    }
  }

  /** A refresh with a genuine, live token: the user is checked, then the token is rotated. */
  lemma RefreshAccepted(cfg: Config, db: Db, signed: set<string>, req: Request, jwt: string, secret: string)
    requires req.call.RefreshTokens? && req.call.token == jwt + "." + secret && '.' !in secret && req.fault == NoFault
    requires Vouched(cfg, signed, jwt, req.now)
    requires
      var id := cfg.lib.decode(jwt).value.tid;
      && id in db.refresh && db.refresh[id].hash == cfg.lib.hash(secret)
      && db.refresh[id].revokedAt == None && db.refresh[id].expiresAt >= req.now
    ensures
      var (u, id) := (cfg.lib.decode(jwt).value.sub, cfg.lib.decode(jwt).value.tid);
      var (after, reply) := Outcome(cfg, db, signed, req);
      if u !in db.users then after == db && reply == Err(UserNotFound)
      else if db.users[u].status != Active || Locked(db.users[u], req.now) then
        after == db && reply == Err(AccountNotActive)
      else if FreshSession(cfg, db.refresh, req.draw) then
        && TokensFor(cfg, reply, u, req.now, req.draw)
        && after == db.(refresh := db.refresh[id := db.refresh[id].(revokedAt := Some(req.now))]
                                             [req.draw.id := NewSession(cfg, u, req.now, req.draw)])
      else after == db && reply == Err(Database)
  {
    SplitJoin(jwt, secret);
    var claims := cfg.lib.decode(jwt).value;
    var plan := RotationPlan(cfg, db, claims, req.now, req.draw);
    assert PlanOf(cfg, db, signed, req) == plan;
    if plan.writes != [] {
      FirstWrite(db, req.now, plan.writes, 2);
      if Accepted(db, plan.writes[0]) {
        TwoWrites(db, req.now, plan.writes, 2);
      }
    }
  }

  // ---- Passwords ----

  /** A token is issued: the user's unused ones are closed, and the answer is the text whose hash
      is stored, with the given lifetime. A draw that collides is refused after the closing. */
  ghost predicate TokenIssued(
    cfg: Config, before: OneTimeTokens, after: OneTimeTokens, reply: Reply,
    known: bool, u: Uuid, lifetime: int, req: Request)
  {
    var id := req.draw.id;
    if known && FreshToken(cfg, before, req.draw) then
      && id in after && TokensClosed(before, after - {id}, u, req.now)
      && reply.Secret? && reply.token == HexEncode(req.draw.bytes)
      && after[id] == OneTimeToken(u, cfg.lib.hash(reply.token), req.now + lifetime * SECOND, None)
    else TokensClosed(before, after, u, req.now) && reply == Err(Database)
  }

  lemma IssuingToken(cfg: Config, purpose: Purpose, db: Db, req: Request, u: Uuid, lifetime: int, index: nat)
    ensures
      var writes := StoreOneTime(cfg, purpose, u, lifetime, req.now, req.draw);
      var (after, ok) := RunWrites(db, req.now, writes, NoFault, index);
      var reply := if ok then Secret(HexEncode(req.draw.bytes)) else Err(Database);
      && TokenIssued(cfg, db.OneTime(purpose), after.OneTime(purpose), reply, u in db.users, u, lifetime, req)
      && after ==
           if purpose == PasswordReset then db.(resets := after.resets) else db.(verifications := after.verifications)
  {
    var writes := StoreOneTime(cfg, purpose, u, lifetime, req.now, req.draw);
    var one := InvalidatedThenStored(db, req.now, writes, index);
    var closed := one.OneTime(purpose);
    assert TokensClosed(db.OneTime(purpose), closed, u, req.now);
    assert FreshToken(cfg, db.OneTime(purpose), req.draw) <==> FreshToken(cfg, closed, req.draw);
    if Accepted(one, writes[1]) {
      var after := Apply(one, req.now, writes[1]).value;
      assert after.OneTime(purpose) - {req.draw.id} == closed;
    }
  }

  lemma ForgettingNobody(cfg: Config, db: Db, signed: set<string>, req: Request)
    requires req.call.ForgotPassword? && req.fault == NoFault && Unknown(db.users, req.call.email)
    ensures Outcome(cfg, db, signed, req) == (db, Secret(""))
  {
  }

  lemma Forgetting(cfg: Config, db: Db, signed: set<string>, req: Request, u: Uuid)
    requires UniqueEmails(db.users) && req.call.ForgotPassword? && req.fault == NoFault
    requires u in db.users && db.users[u].email == req.call.email
    ensures
      var (after, reply) := Outcome(cfg, db, signed, req);
      && TokenIssued(cfg, db.resets, after.resets, reply, true, u, cfg.passwordResetExpiration, req)
      && after == db.(resets := after.resets)
  {
    IssuingToken(cfg, PasswordReset, db, req, u, cfg.passwordResetExpiration, 1);
  }

  /** The row is unused, unexpired, and holds the hash of the presented text. */
  predicate Redeems(cfg: Config, rows: OneTimeTokens, id: Uuid, token: string, now: Time) {
    id in rows && rows[id].hash == cfg.lib.hash(token) && rows[id].usedAt == None && rows[id].expiresAt > now
  }

  lemma ResetRefused(cfg: Config, db: Db, signed: set<string>, req: Request)
    requires req.call.ResetPassword? && req.fault == NoFault
    requires !Strong(cfg, req.call.password) || forall id :: !Redeems(cfg, db.resets, id, req.call.token, req.now)
    ensures Outcome(cfg, db, signed, req) ==
      (db, if Strong(cfg, req.call.password) then Err(InvalidToken) else Err(WeakPassword))
  {
    CheckIsPolicy(cfg, req.call.password);
    var found := FindUsable(db.resets, cfg.lib.hash(req.call.token), req.now);
    assert found.Some? ==> Redeems(cfg, db.resets, found.value, req.call.token, req.now);
  }

  /** The owner of the token gets the new password and loses every session; the token is used. */
  lemma Resetting(cfg: Config, db: Db, signed: set<string>, req: Request, id: Uuid)
    requires Constraints(db) && req.call.ResetPassword? && req.fault == NoFault && Strong(cfg, req.call.password)
    requires Redeems(cfg, db.resets, id, req.call.token, req.now)
    ensures
      var (after, reply) := Outcome(cfg, db, signed, req);
      var u := db.resets[id].user;
      && reply == Done
      && after.users == db.users[u := db.users[u].(password := StoredHash(req.call.password, req.draw.salt))]
      && TokenUsed(db.resets, after.resets, id, req.now)
      && SessionsEnded(db.refresh, after.refresh, u, req.now)
      && after.verifications == db.verifications
  {
    CheckIsPolicy(cfg, req.call.password);
    assert Usable(db.resets[id], cfg.lib.hash(req.call.token), req.now);
    assert FindUsable(db.resets, cfg.lib.hash(req.call.token), req.now) == Some(id);
    ThreeWrites(db, req.now, RedemptionPlan(db, id, StoredHash(req.call.password, req.draw.salt)).writes, 1);
  }

  /** Changing a password: the user must exist, the current password must be given, and the new
      one must meet the policy, in this order; then every session of the user ends. */
  lemma Changing(cfg: Config, db: Db, signed: set<string>, req: Request)
    requires req.call.ChangePassword? && req.fault == NoFault
    ensures
      var ChangePassword(u, current, password) := req.call;
      var (after, reply) := Outcome(cfg, db, signed, req);
      if u !in db.users then after == db && reply == Err(UserNotFound)
      else if db.users[u].password.password != current then after == db && reply == Err(InvalidCredentials)
      else if !Strong(cfg, password) then after == db && reply == Err(WeakPassword)
      else
        && reply == Done
        && after == db.(users := db.users[u := db.users[u].(password := StoredHash(password, req.draw.salt))],
                        refresh := after.refresh)
        && SessionsEnded(db.refresh, after.refresh, u, req.now)
  {
    CheckIsPolicy(cfg, req.call.password);
    var plan := PlanOf(cfg, db, signed, req);
    if plan.writes != [] {
      TwoWrites(db, req.now, plan.writes, 1);
    }
  }

  // ---- Email verification ----

  lemma CreatingVerification(cfg: Config, db: Db, signed: set<string>, req: Request)
    requires req.call.CreateEmailVerification? && req.fault == NoFault
    ensures
      var u := req.call.user;
      var (after, reply) := Outcome(cfg, db, signed, req);
      && TokenIssued(cfg, db.verifications, after.verifications, reply, u in db.users, u,
                     cfg.emailVerificationExpiration, req)
      && after == db.(verifications := after.verifications)
  {
    IssuingToken(cfg, EmailVerification, db, req, req.call.user, cfg.emailVerificationExpiration, 0);
  }

  lemma VerificationRefused(cfg: Config, db: Db, signed: set<string>, req: Request)
    requires req.call.VerifyEmail? && req.fault == NoFault
    requires forall id :: !Redeems(cfg, db.verifications, id, req.call.token, req.now)
    ensures Outcome(cfg, db, signed, req) == (db, Err(InvalidToken))
  {
    var found := FindUsable(db.verifications, cfg.lib.hash(req.call.token), req.now);
    assert found.Some? ==> Redeems(cfg, db.verifications, found.value, req.call.token, req.now);
  }

  /** The owner of the token, and nobody else, is verified now and active; the token is used. */
  lemma Verifying(cfg: Config, db: Db, signed: set<string>, req: Request, id: Uuid)
    requires Constraints(db) && req.call.VerifyEmail? && req.fault == NoFault
    requires Redeems(cfg, db.verifications, id, req.call.token, req.now)
    ensures
      var (after, reply) := Outcome(cfg, db, signed, req);
      var u := db.verifications[id].user;
      && reply == Verified(u)
      && after.users == db.users[u := db.users[u].(emailVerifiedAt := Some(req.now), status := Active)]
      && TokenUsed(db.verifications, after.verifications, id, req.now)
      && after.refresh == db.refresh && after.resets == db.resets
  {
    assert Usable(db.verifications[id], cfg.lib.hash(req.call.token), req.now);
    assert FindUsable(db.verifications, cfg.lib.hash(req.call.token), req.now) == Some(id);
    TwoWrites(db, req.now, ConfirmationPlan(db, id).writes, 1);
  }

  lemma AssigningStatus(cfg: Config, db: Db, signed: set<string>, req: Request)
    requires req.call.AssignStatus? && req.fault == NoFault
    ensures
      var AssignStatus(u, status) := req.call;
      Outcome(cfg, db, signed, req) ==
        (if u in db.users then db.(users := db.users[u := db.users[u].(status := status)]) else db, Done)
  {
    LoneWrite(db, req.now, Stmt.SetStatus(req.call.user, req.call.status), 0);
  }
}
