/** The service object: four tables, updated one statement at a time.

    Each operation follows src/service.rs statement by statement and is proved to leave the
    tables, and to return the reply, that `Calls.Outcome` gives. The clock, the random draw
    and the fault are parameters; a fault makes one statement fail. */
module Service {
  import opened Wrappers
  import opened TokenText
  import opened Schema
  import opened Calls

  lemma OneWrite(db: Db, now: Time, writes: seq<Stmt>, fault: Fault, index: nat)
    requires writes != []
    ensures
      var first := RunWrites(db, now, writes[..1], fault, index);
      RunWrites(db, now, writes, fault, index) ==
        if first.1 then RunWrites(first.0, now, writes[1..], fault, index + 1) else first
  {
    assert writes[..1] == [writes[0]];
    assert writes[..1][1..] == [];
  }

  lemma TwoInTurn(db: Db, now: Time, a: Stmt, b: Stmt, fault: Fault, index: nat)
    ensures
      var first := RunWrites(db, now, [a], fault, index);
      RunWrites(db, now, [a, b], fault, index) ==
        if first.1 then RunWrites(first.0, now, [b], fault, index + 1) else first
  {
    OneWrite(db, now, [a, b], fault, index);
    assert [a, b][..1] == [a] && [a, b][1..] == [b];
  }

  /** The claims that a refresh acts on: those of a JWT that is accepted. */
  function AcceptedClaims(cfg: Config, signed: set<string>, token: string, now: Time): (p: Option<(Claims, string)>) {
    match SplitAtLastDot(token)
    case None => None
    case Some((jwt, secret)) =>
      match VerifiedClaims(cfg, signed, jwt, now)
      case None => None
      case Some(claims) => Some((claims, secret))
  }

  lemma RefreshOutcome(cfg: Config, db: Db, signed: set<string>, req: Request)
    requires req.call.RefreshTokens?
    ensures Outcome(cfg, db, signed, req) ==
      match AcceptedClaims(cfg, signed, req.call.token, req.now)
      case None => (db, Err(InvalidToken))
      case Some((claims, secret)) =>
        var plan := Resume(cfg, db, AfterTokenRow(cfg, db, claims, secret, req.now), req.now, req.draw);
        Complete(db, req.now, req.fault, plan)
    ensures AcceptedClaims(cfg, signed, req.call.token, req.now).Some? && req.fault.FaultAt? && req.fault.index < 1 ==>
      Outcome(cfg, db, signed, req) == (db, Err(Database))
  {
  }

  class AuthService {
    const config: Config
    var users: Users
    var refreshTokens: RefreshTokens
    var passwordResetTokens: OneTimeTokens
    var emailVerificationTokens: OneTimeTokens
    /** The JWTs handed out so far: those, and only those, pass signature checking. */
    var signed: set<string>

    function Tables(): Db
      reads this
    {
      Db(users, refreshTokens, passwordResetTokens, emailVerificationTokens)
    }

    ghost predicate Valid()
      reads this
    {
      Constraints(Tables())
    }

    /** The effect and the reply are those of the specification, and the object stays valid. */
    twostate predicate Performs(req: Request, reply: Reply)
      reads this
    {
      && Valid()
      && (Tables(), reply) == Outcome(config, old(Tables()), old(signed), req)
      && signed == old(signed) + HandedOut(reply)
    }

    constructor (config: Config)
      ensures Valid() && Tables() == EMPTY && signed == {} && this.config == config
    {
      this.config := config;
      users, refreshTokens, passwordResetTokens, emailVerificationTokens := map[], map[], map[], map[];
      signed := {};
    }

    // ---- Statements ----

    method UpdateUsers(s: Stmt, now: Time)
      requires Accepted(Tables(), s)
      modifies this`users
      ensures users == ApplyToUsers(old(users), now, s)
    {
      match s {
        case InsertUser(id, email, password) =>
          users := users[id := User(email, password, Active, None, 0, None)];
        case IncrementFailedAttempts(u, max, lockout) =>
          if u in users {
            var attempts := users[u].failedLoginAttempts + 1;
            var until := if attempts >= max then Some(now + lockout * SECOND) else users[u].lockedUntil;
            users := users[u := users[u].(failedLoginAttempts := attempts, lockedUntil := until)];
          }
        case RecordSuccessfulLogin(u) =>
          if u in users {
            users := users[u := users[u].(failedLoginAttempts := 0, lockedUntil := None)];
          }
        case SetPassword(u, password) =>
          if u in users {
            users := users[u := users[u].(password := password)];
          }
        case SetVerified(u) =>
          users := users[u := users[u].(emailVerifiedAt := Some(now), status := Active)];
        case SetStatus(u, status) =>
          if u in users {
            users := users[u := users[u].(status := status)];
          }
        case _ =>
      }
    }

    method UpdateRefreshTokens(s: Stmt, now: Time)
      modifies this`refreshTokens
      ensures refreshTokens == ApplyToRefresh(old(refreshTokens), now, s)
    {
      match s {
        case InsertRefresh(id, u, hash, expiresAt) =>
          refreshTokens := refreshTokens[id := RefreshToken(u, hash, expiresAt, None)];
        case RevokeRefresh(id) =>
          if id in refreshTokens {
            refreshTokens := refreshTokens[id := refreshTokens[id].(revokedAt := Some(now))];
          }
        case RevokeAll(u) =>
          refreshTokens := RevokedFor(refreshTokens, u, now);
        case _ =>
      }
    }

    method UpdateOneTimeTokens(s: Stmt, now: Time)
      modifies this`passwordResetTokens, this`emailVerificationTokens
      ensures passwordResetTokens == ApplyToOneTime(PasswordReset, old(passwordResetTokens), now, s)
      ensures emailVerificationTokens == ApplyToOneTime(EmailVerification, old(emailVerificationTokens), now, s)
    {
      if !(s.Invalidate? || s.InsertOneTime? || s.MarkUsed?) {
        return;
      }
      var rows := if s.purpose == PasswordReset then passwordResetTokens else emailVerificationTokens;
      match s {
        case Invalidate(_, u) =>
          rows := InvalidatedFor(rows, u, now);
        case InsertOneTime(_, id, u, hash, expiresAt) =>
          rows := rows[id := OneTimeToken(u, hash, expiresAt, None)];
        case MarkUsed(_, id) =>
          if id in rows {
            rows := rows[id := rows[id].(usedAt := Some(now))];
          }
      }
      if s.purpose == PasswordReset {
        passwordResetTokens := rows;
      } else {
        emailVerificationTokens := rows;
      }
    }

    /** Runs one write statement, which a constraint or the fault may stop. */
    method Execute(s: Stmt, now: Time, fault: Fault, index: nat) returns (ok: bool)
      modifies this
      ensures (Tables(), ok) == RunWrites(old(Tables()), now, [s], fault, index)
      ensures signed == old(signed)
    {
      if !Accepted(Tables(), s) || fault == FaultAt(index, false) {
        return false;
      }
      UpdateUsers(s, now);
      UpdateRefreshTokens(s, now);
      UpdateOneTimeTokens(s, now);
      ok := fault != FaultAt(index, true);
    }

    method SelectUserByEmail(email: string) returns (u: Option<Uuid>)
      requires Valid()
      ensures u == FindUser(users, email)
    {
      u := None;
      if EmailTaken(users, email) {
        var id :| id in users && users[id].email == email;
        u := Some(id);
      }
    }

    method SelectUsable(purpose: Purpose, hash: string, now: Time) returns (r: Option<Uuid>)
      requires Valid()
      ensures r == FindUsable(Tables().OneTime(purpose), hash, now)
    {
      var rows := Tables().OneTime(purpose);
      r := None;
      if exists id :: id in rows && Usable(rows[id], hash, now) {
        var id :| id in rows && Usable(rows[id], hash, now);
        r := Some(id);
      }
    }

    // ---- Operations ----

    method Register(email: string, password: string, now: Time, draw: Draw, fault: Fault) returns (reply: Reply)
      requires Valid()
      modifies this
      ensures Performs(Request(Call.Register(email, password), now, draw, fault), reply)
    {
      CallKeeps(config, Tables(), signed, Request(Call.Register(email, password), now, draw, fault));
      if !Acceptable(config, password) {
        return Err(WeakPassword);
      }
      if fault.FaultAt? && fault.index < 1 {
        return Err(Database);
      }
      if EmailTaken(users, email) {
        return Err(EmailExists);
      }
      var ok := Execute(Stmt.InsertUser(draw.id, email, StoredHash(password, draw.salt)), now, fault, 1);
      reply := if ok then Registered(draw.id) else Err(Database);
    }

    /** Stores a refresh token row; on success the token string may be handed out. */
    method GenerateRefreshToken(user: Uuid, now: Time, draw: Draw, fault: Fault, index: nat) returns (r: Option<string>)
      modifies this
      ensures (Tables(), r.Some?) ==
        RunWrites(old(Tables()), now, [StoreRefresh(config, user, now, draw)], fault, index)
      ensures r.Some? ==> Tokens(AccessFor(config, user, now), r.value) == Issued(config, user, now, draw)
      ensures signed == old(signed)
    {
      var tokenString := Base64UrlEncode(draw.bytes);
      var expiresAt := now + config.refreshTokenExpiration * SECOND;
      var ok := Execute(Stmt.InsertRefresh(draw.id, user, config.lib.hash(tokenString), expiresAt), now, fault, index);
      if !ok {
        return None;
      }
      var claims := Claims(user, draw.id, Seconds(now), Seconds(expiresAt));
      r := Some(Join(config.lib.encode(claims), tokenString));
    }

    /** login, once the user's row is read. */
    method LoginAs(u: Uuid, password: string, now: Time, draw: Draw, fault: Fault) returns (reply: Reply)
      requires u in users
      requires !(fault.FaultAt? && fault.index < 1)
      modifies this
      ensures (Tables(), reply) ==
        Complete(old(Tables()), now, fault, LoginPlan(config, u, old(users[u]), password, now, draw))
      ensures signed == old(signed)
    {
      var user := users[u];
      if user.IsLocked(now) {
        return Err(AccountLocked);
      }
      if user.status != Active {
        return Err(AccountNotActive);
      }
      if user.password.password != password {
        var s := Stmt.IncrementFailedAttempts(u, config.maxLoginAttempts, config.lockoutDuration);
        var ok := Execute(s, now, fault, 1);
        return if ok then Err(InvalidCredentials) else Err(Database);
      }
      if config.requireEmailVerification && user.emailVerifiedAt.None? {
        return Err(EmailNotVerified);
      }
      TwoInTurn(Tables(), now, Stmt.RecordSuccessfulLogin(u), StoreRefresh(config, u, now, draw), fault, 1);
      var ok := Execute(Stmt.RecordSuccessfulLogin(u), now, fault, 1);
      if !ok {
        return Err(Database);
      }
      var token := GenerateRefreshToken(u, now, draw, fault, 2);
      reply := if token.Some? then Tokens(AccessFor(config, u, now), token.value) else Err(Database);
    }

    method Login(email: string, password: string, now: Time, draw: Draw, fault: Fault) returns (reply: Reply)
      requires Valid()
      modifies this
      ensures Performs(Request(Call.Login(email, password), now, draw, fault), reply)
    {
      CallKeeps(config, Tables(), signed, Request(Call.Login(email, password), now, draw, fault));
      if fault.FaultAt? && fault.index < 1 {
        return Err(Database);
      }
      var found := SelectUserByEmail(email);
      if found.None? {
        return Err(InvalidCredentials);
      }
      reply := LoginAs(found.value, password, now, draw, fault);
      signed := signed + HandedOut(reply);
    }

    method Logout(token: string, now: Time, draw: Draw, fault: Fault) returns (reply: Reply)
      requires Valid()
      modifies this
      ensures Performs(Request(Call.Logout(token), now, draw, fault), reply)
    {
      CallKeeps(config, Tables(), signed, Request(Call.Logout(token), now, draw, fault));
      var parts := SplitAtLastDot(token);
      if parts.None? {
        return Err(InvalidToken);
      }
      var claims := UnverifiedClaims(config, parts.value.0, now);
      if claims.None? {
        return Err(InvalidToken);
      }
      var ok := Execute(Stmt.RevokeRefresh(claims.value.tid), now, fault, 0);
      reply := if ok then Done else Err(Database);
    }

    /** The second half of a refresh: read the user, issue the new token, revoke the old one. */
    method Rotate(claims: Claims, now: Time, draw: Draw, fault: Fault) returns (reply: Reply)
      requires !(fault.FaultAt? && fault.index < 1)
      modifies this
      ensures (Tables(), reply) ==
        Complete(old(Tables()), now, fault, RotationPlan(config, old(Tables()), claims, now, draw))
      ensures signed == old(signed)
    {
      if fault.FaultAt? && fault.index < 2 {
        return Err(Database);
      }
      if claims.sub !in users {
        return Err(UserNotFound);
      }
      if !users[claims.sub].CanLogin(now) {
        return Err(AccountNotActive);
      }
      TwoInTurn(Tables(), now, StoreRefresh(config, claims.sub, now, draw), Stmt.RevokeRefresh(claims.tid), fault, 2);
      var rotated := GenerateRefreshToken(claims.sub, now, draw, fault, 2);
      if rotated.None? {
        return Err(Database);
      }
      var ok := Execute(Stmt.RevokeRefresh(claims.tid), now, fault, 3);
      reply := if ok then Tokens(AccessFor(config, claims.sub, now), rotated.value) else Err(Database);
    }

    /** refresh_tokens, once the JWT is accepted: reuse detection, then rotation. */
    method CheckAndRotate(claims: Claims, secret: string, now: Time, draw: Draw, fault: Fault) returns (reply: Reply)
      requires !(fault.FaultAt? && fault.index < 1)
      modifies this
      ensures (Tables(), reply) ==
        Complete(old(Tables()), now, fault,
                 Resume(config, old(Tables()), AfterTokenRow(config, old(Tables()), claims, secret, now), now, draw))
      ensures signed == old(signed)
    {
      if claims.tid !in refreshTokens || refreshTokens[claims.tid].hash != config.lib.hash(secret) {
        return Err(InvalidToken);
      }
      var stored := refreshTokens[claims.tid];
      if !stored.IsValid(now) {
        if stored.IsRevoked() {
          var ok := Execute(Stmt.RevokeAll(claims.sub), now, fault, 1);
          if !ok {
            return Err(Database);
          }
        }
        return Err(TokenRevoked);
      }
      reply := Rotate(claims, now, draw, fault);
    }

    method RefreshTokens(token: string, now: Time, draw: Draw, fault: Fault) returns (reply: Reply)
      requires Valid()
      modifies this
      ensures Performs(Request(Call.RefreshTokens(token), now, draw, fault), reply)
    {
      ghost var req := Request(Call.RefreshTokens(token), now, draw, fault);
      CallKeeps(config, Tables(), signed, req);
      RefreshOutcome(config, Tables(), signed, req);
      var parts := SplitAtLastDot(token);
      if parts.None? {
        return Err(InvalidToken);
      }
      var verified := VerifiedClaims(config, signed, parts.value.0, now);
      if verified.None? {
        return Err(InvalidToken);
      }
      if fault.FaultAt? && fault.index < 1 {
        return Err(Database);
      }
      reply := CheckAndRotate(verified.value, parts.value.1, now, draw, fault);
      signed := signed + HandedOut(reply);
    }

    /** Invalidates the user's unused tokens and stores a new one, for either purpose. */
    method ReplaceOneTime(purpose: Purpose, user: Uuid, lifetime: int, now: Time, draw: Draw, fault: Fault, index: nat)
      returns (reply: Reply)
      modifies this
      ensures
        var writes := StoreOneTime(config, purpose, user, lifetime, now, draw);
        var run := RunWrites(old(Tables()), now, writes, fault, index);
        Tables() == run.0 && reply == if run.1 then Secret(HexEncode(draw.bytes)) else Err(Database)
      ensures signed == old(signed)
    {
      ghost var writes := StoreOneTime(config, purpose, user, lifetime, now, draw);
      TwoInTurn(Tables(), now, writes[0], writes[1], fault, index);
      var token := Base64UrlEncode(draw.bytes);
      var expiresAt := now + lifetime * SECOND;
      var ok := Execute(Stmt.Invalidate(purpose, user), now, fault, index);
      if !ok {
        return Err(Database);
      }
      var s := Stmt.InsertOneTime(purpose, draw.id, user, config.lib.hash(token), expiresAt);
      ok := Execute(s, now, fault, index + 1);
      reply := if ok then Secret(token) else Err(Database);
    }

    method ForgotPassword(email: string, now: Time, draw: Draw, fault: Fault) returns (reply: Reply)
      requires Valid()
      modifies this
      ensures Performs(Request(Call.ForgotPassword(email), now, draw, fault), reply)
    {
      CallKeeps(config, Tables(), signed, Request(Call.ForgotPassword(email), now, draw, fault));
      if fault.FaultAt? && fault.index < 1 {
        return Err(Database);
      }
      var found := SelectUserByEmail(email);
      if found.None? {
        return Secret("");
      }
      reply := ReplaceOneTime(PasswordReset, found.value, config.passwordResetExpiration, now, draw, fault, 1);
    }

    /** The writes of a password reset. */
    method Redeem(tokenId: Uuid, password: StoredHash, now: Time, fault: Fault) returns (reply: Reply)
      requires tokenId in passwordResetTokens
      requires !(fault.FaultAt? && fault.index < 1)
      modifies this
      ensures (Tables(), reply) == Complete(old(Tables()), now, fault, RedemptionPlan(old(Tables()), tokenId, password))
      ensures signed == old(signed)
    {
      ghost var plan := RedemptionPlan(Tables(), tokenId, password);
      var user := passwordResetTokens[tokenId].user;
      OneWrite(Tables(), now, plan.writes, fault, 1);
      var ok := Execute(Stmt.SetPassword(user, password), now, fault, 1);
      if !ok {
        return Err(Database);
      }
      OneWrite(Tables(), now, plan.writes[1..], fault, 2);
      ok := Execute(Stmt.MarkUsed(PasswordReset, tokenId), now, fault, 2);
      if !ok {
        return Err(Database);
      }
      ok := Execute(Stmt.RevokeAll(user), now, fault, 3);
      reply := if ok then Done else Err(Database);
    }

    method ResetPassword(token: string, password: string, now: Time, draw: Draw, fault: Fault) returns (reply: Reply)
      requires Valid()
      modifies this
      ensures Performs(Request(Call.ResetPassword(token, password), now, draw, fault), reply)
    {
      CallKeeps(config, Tables(), signed, Request(Call.ResetPassword(token, password), now, draw, fault));
      if !Acceptable(config, password) {
        return Err(WeakPassword);
      }
      if fault.FaultAt? && fault.index < 1 {
        return Err(Database);
      }
      var found := SelectUsable(PasswordReset, config.lib.hash(token), now);
      if found.None? {
        return Err(InvalidToken);
      }
      reply := Redeem(found.value, StoredHash(password, draw.salt), now, fault);
    }

    method ChangePassword(user: Uuid, current: string, password: string, now: Time, draw: Draw, fault: Fault)
      returns (reply: Reply)
      requires Valid()
      modifies this
      ensures Performs(Request(Call.ChangePassword(user, current, password), now, draw, fault), reply)
    {
      CallKeeps(config, Tables(), signed, Request(Call.ChangePassword(user, current, password), now, draw, fault));
      if fault.FaultAt? && fault.index < 1 {
        return Err(Database);
      }
      if user !in users {
        return Err(UserNotFound);
      }
      if users[user].password.password != current {
        return Err(InvalidCredentials);
      }
      if !Acceptable(config, password) {
        return Err(WeakPassword);
      }
      var s := Stmt.SetPassword(user, StoredHash(password, draw.salt));
      TwoInTurn(Tables(), now, s, Stmt.RevokeAll(user), fault, 1);
      var ok := Execute(s, now, fault, 1);
      if !ok {
        return Err(Database);
      }
      ok := Execute(Stmt.RevokeAll(user), now, fault, 2);
      reply := if ok then Done else Err(Database);
    }

    method CreateEmailVerification(user: Uuid, now: Time, draw: Draw, fault: Fault) returns (reply: Reply)
      requires Valid()
      modifies this
      ensures Performs(Request(Call.CreateEmailVerification(user), now, draw, fault), reply)
    {
      CallKeeps(config, Tables(), signed, Request(Call.CreateEmailVerification(user), now, draw, fault));
      reply := ReplaceOneTime(EmailVerification, user, config.emailVerificationExpiration, now, draw, fault, 0);
    }

    /** The writes of an email verification. */
    method Confirm(tokenId: Uuid, now: Time, fault: Fault) returns (reply: Reply)
      requires tokenId in emailVerificationTokens
      requires !(fault.FaultAt? && fault.index < 1)
      modifies this
      ensures (Tables(), reply) == Complete(old(Tables()), now, fault, ConfirmationPlan(old(Tables()), tokenId))
      ensures signed == old(signed)
    {
      var user := emailVerificationTokens[tokenId].user;
      TwoInTurn(Tables(), now, Stmt.SetVerified(user), Stmt.MarkUsed(EmailVerification, tokenId), fault, 1);
      var ok := Execute(Stmt.SetVerified(user), now, fault, 1);
      if !ok {
        return Err(Database);
      }
      ok := Execute(Stmt.MarkUsed(EmailVerification, tokenId), now, fault, 2);
      reply := if ok then Verified(user) else Err(Database);
    }

    method VerifyEmail(token: string, now: Time, draw: Draw, fault: Fault) returns (reply: Reply)
      requires Valid()
      modifies this
      ensures Performs(Request(Call.VerifyEmail(token), now, draw, fault), reply)
    {
      CallKeeps(config, Tables(), signed, Request(Call.VerifyEmail(token), now, draw, fault));
      if fault.FaultAt? && fault.index < 1 {
        return Err(Database);
      }
      var found := SelectUsable(EmailVerification, config.lib.hash(token), now);
      if found.None? {
        return Err(InvalidToken);
      }
      reply := Confirm(found.value, now, fault);
    }
  }
}
