/** What each service operation decides, and what it therefore does to the tables.

    After its SELECTs, every operation is a straight line of write statements with a fixed
    reply. A `Plan` is that line. The same plans drive calls that run alone (`Outcome`) and
    calls that interleave with others (module Interleaving). */
module Calls {
  import opened Wrappers
  import opened TokenText
  import opened Schema

  datatype AuthError =
    | InvalidCredentials | AccountLocked | AccountNotActive | EmailNotVerified | InvalidToken
    | TokenRevoked | UserNotFound | EmailExists | WeakPassword | Database | BadConfig

  datatype Reply =
    | Registered(user: Uuid)
    | Tokens(access: AccessClaims, refresh: string)
    | Secret(token: string)
    | Verified(user: Uuid)
    | Done
    | Err(error: AuthError)

  /** The service operations. AssignStatus is not one of them: it stands for whoever else edits
      the status column, which no operation ever takes away from 'active'. */
  datatype Call =
    | Register(email: string, password: string)
    | Login(email: string, password: string)
    | RefreshTokens(token: string)
    | Logout(token: string)
    | ForgotPassword(email: string)
    | ResetPassword(token: string, password: string)
    | ChangePassword(user: Uuid, current: string, password: string)
    | CreateEmailVerification(user: Uuid)
    | VerifyEmail(token: string)
    | AssignStatus(user: Uuid, status: Status)

  /** The randomness of one call: the id of the row it inserts, 32 random bytes, a salt. */
  datatype Draw = Draw(id: Uuid, bytes: seq<byte>, salt: nat)

  /** `selects` SELECTs come first, then the writes in order; `reply` is sent if none fails. */
  datatype Plan = Plan(selects: nat, writes: seq<Stmt>, reply: Reply)

  // ---- Password policy and configuration ----

  /** The bytes of one character: one up to U+007F, two up to U+07FF, three up to U+FFFF, else four. */
  function Utf8Width(c: char): (w: nat)
    ensures w <= 1 <==> c as int <= 0x7F
    ensures w <= 2 <==> c as int <= 0x7FF
    ensures w <= 3 <==> c as int <= 0xFFFF
    ensures 1 <= w <= 4
  {
    if c as int < 0x80 then 1 else if c as int < 0x800 then 2 else if c as int < 0x1_0000 then 3 else 4
  }

  /** The length of a string in bytes, which is what len() measures. */
  function ByteLength(s: string): (n: nat)
    ensures |s| <= n <= 4 * |s|
  {
    if s == "" then 0 else ByteLength(s[..|s| - 1]) + Utf8Width(s[|s| - 1])
  }

  predicate Acceptable(cfg: Config, password: string) {
    && ByteLength(password) >= cfg.minPasswordLength
    && (exists i :: 0 <= i < |password| && cfg.lib.isUpper(password[i]))
    && (exists i :: 0 <= i < |password| && cfg.lib.isLower(password[i]))
    && (exists i :: 0 <= i < |password| && '0' <= password[i] <= '9')
  }

  /** AuthConfig::validate: a chain of comparisons with early returns. */
  function Validate(cfg: Config): (r: Option<AuthError>)
    ensures r.None? <==>
      && ByteLength(cfg.jwtSecret) >= 32
      && 0 < cfg.accessTokenExpiration < cfg.refreshTokenExpiration
      && cfg.minPasswordLength >= 8
  {
    if ByteLength(cfg.jwtSecret) < 32 then Some(BadConfig)
    else if cfg.accessTokenExpiration <= 0 then Some(BadConfig)
    else if cfg.refreshTokenExpiration <= cfg.accessTokenExpiration then Some(BadConfig)
    else if cfg.minPasswordLength < 8 then Some(BadConfig)
    else None
  }

  // ---- Tokens ----

  /** The leeway, in seconds, that the JWT library grants on expiry by default. */
  const JWT_LEEWAY := 60

  predicate InTime(claims: Claims, now: Time) {
    claims.exp >= Seconds(now) - JWT_LEEWAY
  }

  /** The claims of a JWT whose signature is checked. Signing is idealised: a JWT verifies
      only if it is one of those the service has handed out. */
  function VerifiedClaims(cfg: Config, signed: set<string>, jwt: string, now: Time): (c: Option<Claims>) {
    match cfg.lib.decode(jwt)
    case Some(claims) => if jwt in signed && InTime(claims, now) then Some(claims) else None
    case None => None
  }

  /** The claims and the random part of a token string, signature aside. */
  function Presented(cfg: Config, token: string): (p: Option<(Claims, string)>) {
    match SplitAtLastDot(token)
    case None => None
    case Some((jwt, secret)) =>
      match cfg.lib.decode(jwt)
      case None => None
      case Some(claims) => Some((claims, secret))
  }

  /** The claims of a JWT whose signature is not checked: whatever its payload says. */
  function UnverifiedClaims(cfg: Config, jwt: string, now: Time): (c: Option<Claims>) {
    match cfg.lib.decode(jwt)
    case Some(claims) => if InTime(claims, now) then Some(claims) else None
    case None => None
  }

  function AccessFor(cfg: Config, user: Uuid, now: Time): AccessClaims {
    AccessClaims(user, Seconds(now), Seconds(now + cfg.accessTokenExpiration * SECOND))
  }

  function RefreshExpiry(cfg: Config, now: Time): Time {
    now + cfg.refreshTokenExpiration * SECOND
  }

  function RefreshClaims(cfg: Config, user: Uuid, now: Time, draw: Draw): Claims {
    Claims(user, draw.id, Seconds(now), Seconds(RefreshExpiry(cfg, now)))
  }

  /** generate_refresh_token: the row it stores and the string it returns. */
  function StoreRefresh(cfg: Config, user: Uuid, now: Time, draw: Draw): Stmt {
    InsertRefresh(draw.id, user, cfg.lib.hash(HexEncode(draw.bytes)), RefreshExpiry(cfg, now))
  }

  function Issued(cfg: Config, user: Uuid, now: Time, draw: Draw): Reply {
    Tokens(AccessFor(cfg, user, now), Join(cfg.lib.encode(RefreshClaims(cfg, user, now, draw)), HexEncode(draw.bytes)))
  }

  function StoreOneTime(cfg: Config, purpose: Purpose, user: Uuid, lifetime: int, now: Time, draw: Draw): seq<Stmt> {
    [Invalidate(purpose, user),
     InsertOneTime(purpose, draw.id, user, cfg.lib.hash(HexEncode(draw.bytes)), now + lifetime * SECOND)]
  }

  /** The JWT that a reply hands out, if any. */
  function HandedOut(reply: Reply): (s: set<string>) {
    if reply.Tokens? && SplitAtLastDot(reply.refresh).Some? then {SplitAtLastDot(reply.refresh).value.0} else {}
  }

  // ---- Decisions ----

  /** Where a call stands after its first SELECT. */
  datatype Progress =
    | Decided(plan: Plan)
    | LoginRow(user: Uuid, row: User, password: string)
    | RefreshRow(claims: Claims)

  /** What a call decides before touching the database, if that already settles its plan. */
  function BeforeReading(cfg: Config, signed: set<string>, call: Call, now: Time, draw: Draw): (p: Option<Plan>)
  {
    match call
    case Register(_, password) => if Acceptable(cfg, password) then None else Some(Plan(0, [], Err(WeakPassword)))
    case ResetPassword(_, password) => if Acceptable(cfg, password) then None else Some(Plan(0, [], Err(WeakPassword)))
    case RefreshTokens(token) =>
      (match SplitAtLastDot(token)
       case None => Some(Plan(0, [], Err(InvalidToken)))
       case Some((jwt, _)) =>
         if VerifiedClaims(cfg, signed, jwt, now).None? then Some(Plan(0, [], Err(InvalidToken))) else None)
    case Logout(token) =>
      (match SplitAtLastDot(token)
       case None => Some(Plan(0, [], Err(InvalidToken)))
       case Some((jwt, _)) =>
         match UnverifiedClaims(cfg, jwt, now)
         case None => Some(Plan(0, [], Err(InvalidToken)))
         case Some(claims) => Some(Plan(0, [Stmt.RevokeRefresh(claims.tid)], Done)))
    case CreateEmailVerification(user) =>
      Some(Plan(0, StoreOneTime(cfg, EmailVerification, user, cfg.emailVerificationExpiration, now, draw),
                Secret(HexEncode(draw.bytes))))
    case AssignStatus(user, status) => Some(Plan(0, [Stmt.SetStatus(user, status)], Done))
    case _ => None
  }

  /** refresh_tokens, once the JWT is accepted: look the row up by id and hash together. */
  function AfterTokenRow(cfg: Config, db: Db, claims: Claims, secret: string, now: Time): (p: Progress)
  {
    if claims.tid !in db.refresh || db.refresh[claims.tid].hash != cfg.lib.hash(secret) then
      Decided(Plan(1, [], Err(InvalidToken)))
    else if db.refresh[claims.tid].IsValid(now) then RefreshRow(claims)
    else if db.refresh[claims.tid].IsRevoked() then
      Decided(Plan(1, [Stmt.RevokeAll(claims.sub)], Err(TokenRevoked)))
    else Decided(Plan(1, [], Err(TokenRevoked)))
  }

  /** reset_password, once its token is found: new password, token used, sessions ended. */
  function RedemptionPlan(db: Db, tokenId: Uuid, password: StoredHash): (p: Plan)
    requires tokenId in db.resets
  {
    var u := db.resets[tokenId].user;
    Plan(1, [Stmt.SetPassword(u, password), Stmt.MarkUsed(PasswordReset, tokenId), Stmt.RevokeAll(u)], Done)
  }

  /** verify_email, once its token is found: user verified and active, then token used. */
  function ConfirmationPlan(db: Db, tokenId: Uuid): (p: Plan)
    requires tokenId in db.verifications
  {
    var u := db.verifications[tokenId].user;
    Plan(1, [Stmt.SetVerified(u), Stmt.MarkUsed(EmailVerification, tokenId)], Verified(u))
  }

  /** The first SELECT, and what follows from it without reading again. */
  ghost function AfterReading(cfg: Config, db: Db, call: Call, now: Time, draw: Draw): (p: Progress)
  {
    match call
    case Register(email, password) =>
      if EmailTaken(db.users, email) then Decided(Plan(1, [], Err(EmailExists)))
      else Decided(Plan(1, [Stmt.InsertUser(draw.id, email, StoredHash(password, draw.salt))], Registered(draw.id)))
    case Login(email, password) =>
      (match FindUser(db.users, email)
       case None => Decided(Plan(1, [], Err(InvalidCredentials)))
       case Some(u) => LoginRow(u, db.users[u], password))
    case RefreshTokens(token) =>
      (match Presented(cfg, token)
       case None => Decided(Plan(1, [], Err(InvalidToken)))
       case Some((claims, secret)) => AfterTokenRow(cfg, db, claims, secret, now))
    case ForgotPassword(email) =>
      (match FindUser(db.users, email)
       case None => Decided(Plan(1, [], Secret("")))
       case Some(u) =>
         Decided(Plan(1, StoreOneTime(cfg, PasswordReset, u, cfg.passwordResetExpiration, now, draw),
                      Secret(HexEncode(draw.bytes)))))
    case ResetPassword(token, password) =>
      (match FindUsable(db.resets, cfg.lib.hash(token), now)
       case None => Decided(Plan(1, [], Err(InvalidToken)))
       case Some(id) => Decided(RedemptionPlan(db, id, StoredHash(password, draw.salt))))
    case ChangePassword(u, current, password) =>
      if u !in db.users then Decided(Plan(1, [], Err(UserNotFound)))
      else if db.users[u].password.password != current then Decided(Plan(1, [], Err(InvalidCredentials)))
      else if !Acceptable(cfg, password) then Decided(Plan(1, [], Err(WeakPassword)))
      else Decided(Plan(1, [Stmt.SetPassword(u, StoredHash(password, draw.salt)), Stmt.RevokeAll(u)], Done))
    case VerifyEmail(token) =>
      (match FindUsable(db.verifications, cfg.lib.hash(token), now)
       case None => Decided(Plan(1, [], Err(InvalidToken)))
       case Some(id) => Decided(ConfirmationPlan(db, id)))
    case _ => Decided(Plan(0, [], Done))
  }

  /** The checks of login, in order, on the row it read. */
  function LoginPlan(cfg: Config, u: Uuid, row: User, password: string, now: Time, draw: Draw): (p: Plan)
  {
    if row.IsLocked(now) then Plan(1, [], Err(AccountLocked))
    else if row.status != Active then Plan(1, [], Err(AccountNotActive))
    else if row.password.password != password then
      Plan(1, [Stmt.IncrementFailedAttempts(u, cfg.maxLoginAttempts, cfg.lockoutDuration)], Err(InvalidCredentials))
    else if cfg.requireEmailVerification && row.emailVerifiedAt.None? then Plan(1, [], Err(EmailNotVerified))
    else Plan(1, [Stmt.RecordSuccessfulLogin(u), StoreRefresh(cfg, u, now, draw)], Issued(cfg, u, now, draw))
  }

  /** The second half of refresh_tokens: read the user, then rotate. */
  function RotationPlan(cfg: Config, db: Db, claims: Claims, now: Time, draw: Draw): (p: Plan)
  {
    if claims.sub !in db.users then Plan(2, [], Err(UserNotFound))
    else if !db.users[claims.sub].CanLogin(now) then Plan(2, [], Err(AccountNotActive))
    else Plan(2, [StoreRefresh(cfg, claims.sub, now, draw), Stmt.RevokeRefresh(claims.tid)],
              Issued(cfg, claims.sub, now, draw))
  }

  function Resume(cfg: Config, db: Db, progress: Progress, now: Time, draw: Draw): (p: Plan)
  {
    match progress
    case Decided(plan) => plan
    case LoginRow(u, row, password) => LoginPlan(cfg, u, row, password, now, draw)
    case RefreshRow(claims) => RotationPlan(cfg, db, claims, now, draw)
  }

  // ---- A call that runs alone ----

  /** At most one statement of a call fails, since the call then returns. A failed write may
      still have been applied: the connection can be lost after the commit. */
  datatype Fault = NoFault | FaultAt(index: nat, applied: bool)

  datatype Request = Request(call: Call, now: Time, draw: Draw, fault: Fault)

  ghost function PlanOf(cfg: Config, db: Db, signed: set<string>, req: Request): (p: Plan)
  {
    match BeforeReading(cfg, signed, req.call, req.now, req.draw)
    case Some(plan) => plan
    case None => Resume(cfg, db, AfterReading(cfg, db, req.call, req.now, req.draw), req.now, req.draw)
  }

  /** Runs write statements in order until one fails; the flag says that none did. */
  function RunWrites(db: Db, now: Time, writes: seq<Stmt>, fault: Fault, index: nat): (r: (Db, bool))
    decreases |writes|
  {
    if writes == [] then (db, true)
    else
      match Apply(db, now, writes[0])
      case None => (db, false)
      case Some(next) =>
        if fault.FaultAt? && fault.index == index then (if fault.applied then next else db, false)
        else RunWrites(next, now, writes[1..], fault, index + 1)
  }

  /** Carries a plan out; a fault in one of its SELECTs ends the call before any write. */
  function Complete(db: Db, now: Time, fault: Fault, plan: Plan): (r: (Db, Reply))
  {
    if fault.FaultAt? && fault.index < plan.selects then (db, Err(Database))
    else
      var run := RunWrites(db, now, plan.writes, fault, plan.selects);
      (run.0, if run.1 then plan.reply else Err(Database))
  }

  /** The tables and the reply after a call that no other call overlaps. */
  ghost function Outcome(cfg: Config, db: Db, signed: set<string>, req: Request): (r: (Db, Reply))
  {
    Complete(db, req.now, req.fault, PlanOf(cfg, db, signed, req))
  }

  lemma {:induction false} WritesKeep(db: Db, now: Time, writes: seq<Stmt>, fault: Fault, index: nat)
    requires Constraints(db)
    ensures Constraints(RunWrites(db, now, writes, fault, index).0)
    ensures Grows(db, RunWrites(db, now, writes, fault, index).0)
    decreases |writes|
  {
    if writes == [] {
      GrowsFromItself(db);
    } else {
      GrowsFromItself(db);
      var step := Apply(db, now, writes[0]);
      if step.Some? {
        StatementKeepsConstraints(db, now, writes[0]);
        StatementGrows(db, now, writes[0]);
        WritesKeep(step.value, now, writes[1..], fault, index + 1);
        GrowsTransitively(db, step.value, RunWrites(step.value, now, writes[1..], fault, index + 1).0);
      }
    }
  }

  /** One step of a fault-free line of writes. */
  lemma FirstWrite(db: Db, now: Time, writes: seq<Stmt>, index: nat)
    requires writes != []
    ensures RunWrites(db, now, writes, NoFault, index) ==
      match Apply(db, now, writes[0])
      case None => (db, false)
      case Some(next) => if |writes| == 1 then (next, true) else RunWrites(next, now, writes[1..], NoFault, index + 1)
  {
  }

  lemma LoneWrite(db: Db, now: Time, s: Stmt, index: nat)
    ensures RunWrites(db, now, [s], NoFault, index) ==
      if Apply(db, now, s).Some? then (Apply(db, now, s).value, true) else (db, false)
  {
    FirstWrite(db, now, [s], index);
  }

  /** An invalidation and an insertion: only the insertion can be refused. */
  lemma InvalidatedThenStored(db: Db, now: Time, writes: seq<Stmt>, index: nat) returns (one: Db)
    requires |writes| == 2 && writes[0].Invalidate?
    ensures Apply(db, now, writes[0]) == Some(one)
    ensures RunWrites(db, now, writes, NoFault, index) ==
      if Accepted(one, writes[1]) then (Apply(one, now, writes[1]).value, true) else (one, false)
  {
    one := Apply(db, now, writes[0]).value;
    FirstWrite(db, now, writes, index);
    assert writes[1..] == [writes[1]];
    LoneWrite(one, now, writes[1], index + 1);
  }

  lemma TwoWrites(db: Db, now: Time, writes: seq<Stmt>, index: nat)
    requires |writes| == 2 && Accepted(db, writes[0]) && Accepted(Apply(db, now, writes[0]).value, writes[1])
    ensures RunWrites(db, now, writes, NoFault, index) ==
      (Apply(Apply(db, now, writes[0]).value, now, writes[1]).value, true)
  {
    FirstWrite(db, now, writes, index);
    FirstWrite(Apply(db, now, writes[0]).value, now, writes[1..], index + 1);
  }

  lemma ThreeWrites(db: Db, now: Time, writes: seq<Stmt>, index: nat)
    requires |writes| == 3 && Accepted(db, writes[0])
    requires
      var one := Apply(db, now, writes[0]).value;
      Accepted(one, writes[1]) && Accepted(Apply(one, now, writes[1]).value, writes[2])
    ensures RunWrites(db, now, writes, NoFault, index) ==
      (Apply(Apply(Apply(db, now, writes[0]).value, now, writes[1]).value, now, writes[2]).value, true)
  {
    FirstWrite(db, now, writes, index);
    TwoWrites(Apply(db, now, writes[0]).value, now, writes[1..], index + 1);
  }

  lemma ReportedWriteApplied(db: Db, now: Time, s: Stmt, fault: Fault, index: nat)
    requires RunWrites(db, now, [s], fault, index).1
    ensures Apply(db, now, s) == Some(RunWrites(db, now, [s], fault, index).0)
  {
    assert [s][1..] == [];
  }

  /** Two writes that both report success were both applied, in order. */
  lemma BothApplied(db: Db, now: Time, writes: seq<Stmt>, fault: Fault, index: nat)
    requires |writes| == 2 && RunWrites(db, now, writes, fault, index).1
    ensures
      var first := Apply(db, now, writes[0]);
      first.Some? && Apply(first.value, now, writes[1]) == Some(RunWrites(db, now, writes, fault, index).0)
  {
    var first := Apply(db, now, writes[0]).value;
    assert writes[1..] == [writes[1]];
    assert RunWrites(db, now, writes, fault, index) == RunWrites(first, now, [writes[1]], fault, index + 1);
    ReportedWriteApplied(first, now, writes[1], fault, index + 1);
  }

  /** Whatever fails and wherever, a call keeps the constraints and never un-revokes,
      un-uses, renames or deletes a row. */
  lemma CallKeeps(cfg: Config, db: Db, signed: set<string>, req: Request)
    requires Constraints(db)
    ensures Constraints(Outcome(cfg, db, signed, req).0)
    ensures Grows(db, Outcome(cfg, db, signed, req).0)
  {
    var plan := PlanOf(cfg, db, signed, req);
    WritesKeep(db, req.now, plan.writes, req.fault, plan.selects);
  }
}
