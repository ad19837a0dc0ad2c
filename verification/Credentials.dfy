/** Passwords over every run: the service refines a map from email to current password that
    an observer keeps from calls and replies alone, and every stored password obeys policy. */
module Credentials {
  import opened Wrappers
  import opened Schema
  import opened Calls
  import opened Runs
  import opened Policy
  import Operations

  // ---- Password policy ----

  predicate ObeysPolicy(cfg: Config, s: Stmt) {
    (s.InsertUser? || s.SetPassword?) ==> Acceptable(cfg, s.password.password)
  }

  ghost predicate AllAcceptable(cfg: Config, users: Users) {
    forall u :: u in users ==> Acceptable(cfg, users[u].password.password)
  }

  lemma {:induction false} WritesObeyPolicy(cfg: Config, db: Db, now: Time, writes: seq<Stmt>, fault: Fault, index: nat)
    requires AllAcceptable(cfg, db.users)
    requires forall i :: 0 <= i < |writes| ==> ObeysPolicy(cfg, writes[i])
    ensures AllAcceptable(cfg, RunWrites(db, now, writes, fault, index).0.users)
    decreases |writes|
  {
    if writes != [] && Apply(db, now, writes[0]).Some? {
      WritesObeyPolicy(cfg, Apply(db, now, writes[0]).value, now, writes[1..], fault, index + 1);
    }
  }

  lemma PlansObeyPolicy(cfg: Config, db: Db, signed: set<string>, req: Request)
    ensures
      var writes := PlanOf(cfg, db, signed, req).writes;
      forall i :: 0 <= i < |writes| ==> ObeysPolicy(cfg, writes[i])
  {
  }

  lemma {:induction false} AllStoredAcceptable(cfg: Config, run: seq<Request>)
    ensures AllAcceptable(cfg, Replay(cfg, run).db.users)
  {
    if run != [] {
      var sys, last := Replay(cfg, run[..|run| - 1]), run[|run| - 1];
      AllStoredAcceptable(cfg, run[..|run| - 1]);
      PlansObeyPolicy(cfg, sys.db, Signed(sys.mints), last);
      var plan := PlanOf(cfg, sys.db, Signed(sys.mints), last);
      WritesObeyPolicy(cfg, sys.db, last.now, plan.writes, last.fault, plan.selects);
    }
  }

  /** In every reachable state, whatever failed, each stored hash is of a password that is long
      enough in UTF-8 bytes and has an upper-case letter, a lower-case letter and a digit. */
  lemma PolicyIsInvariant(cfg: Config, run: seq<Request>, u: Uuid)
    requires u in Replay(cfg, run).db.users
    ensures
      var p := Replay(cfg, run).db.users[u].password.password;
      && Utf8Length(p) >= cfg.minPasswordLength
      && (exists i :: 0 <= i < |p| && cfg.lib.isUpper(p[i]))
      && (exists i :: 0 <= i < |p| && cfg.lib.isLower(p[i]))
      && (exists i :: 0 <= i < |p| && '0' <= p[i] <= '9')
  {
    AllStoredAcceptable(cfg, run);
    ByteLengthIsUtf8Length(Replay(cfg, run).db.users[u].password.password);
  }

  // ---- The observer ----

  /** What someone who sees every call and reply, but no table, knows: the current password for
      each email, the email of each user id, whose each reset token is, and which emails are
      verified. */
  datatype Observer = Observer(
    passwords: map<string, string>,
    emails: map<Uuid, string>,
    owners: map<string, string>,
    verified: set<string>)

  function Observe(cfg: Config, o: Observer, call: Call, reply: Reply): Observer {
    match (call, reply)
    case (Register(email, password), Registered(u)) =>
      o.(passwords := o.passwords[email := password], emails := o.emails[u := email])
    case (ForgotPassword(email), Secret(token)) =>
      if email in o.passwords then o.(owners := o.owners[cfg.lib.hash(token) := email]) else o
    case (ResetPassword(token, password), Done) =>
      if cfg.lib.hash(token) in o.owners then
        o.(passwords := o.passwords[o.owners[cfg.lib.hash(token)] := password])
      else o
    case (ChangePassword(u, _, password), Done) =>
      if u in o.emails then o.(passwords := o.passwords[o.emails[u] := password]) else o
    case (VerifyEmail(_), Verified(u)) =>
      if u in o.emails then o.(verified := o.verified + {o.emails[u]}) else o
    case _ => o
  }

  ghost function Watched(cfg: Config, run: seq<Request>): Observer {
    if run == [] then Observer(map[], map[], map[], {})
    else
      var front, last := run[..|run| - 1], run[|run| - 1];
      Observe(cfg, Watched(cfg, front), last.call, Answer(cfg, Replay(cfg, front), last).1)
  }

  ghost predicate KnowsUser(o: Observer, u: Uuid, row: User) {
    && u in o.emails && o.emails[u] == row.email
    && row.email in o.passwords && o.passwords[row.email] == row.password.password
    && (row.emailVerifiedAt != None <==> row.email in o.verified)
  }

  ghost predicate KnowsUsers(o: Observer, users: Users) {
    && (forall u :: u in users ==> KnowsUser(o, u, users[u]))
    && (forall email :: email in o.passwords ==> EmailTaken(users, email))
    && o.emails.Keys <= users.Keys
    && o.verified <= o.passwords.Keys
  }

  ghost predicate KnowsOwners(o: Observer, resets: OneTimeTokens, users: Users) {
    forall id :: id in resets ==>
      && resets[id].user in users && resets[id].hash in o.owners
      && o.owners[resets[id].hash] == users[resets[id].user].email
  }

  ghost predicate Agrees(o: Observer, db: Db) {
    KnowsUsers(o, db.users) && KnowsOwners(o, db.resets, db.users)
  }

  // ---- Preservation ----

  predicate TouchesCredentials(s: Stmt) {
    s.InsertUser? || s.SetPassword? || s.SetVerified? || (s.InsertOneTime? && s.purpose == PasswordReset)
  }

  ghost predicate SameUsers(a: Users, b: Users) {
    && a.Keys == b.Keys
    && forall u :: u in a ==>
         && b[u].email == a[u].email && b[u].password == a[u].password
         && (b[u].emailVerifiedAt == None <==> a[u].emailVerifiedAt == None)
  }

  ghost predicate SameOwners(a: OneTimeTokens, b: OneTimeTokens) {
    a.Keys == b.Keys && forall id :: id in a ==> b[id].user == a[id].user && b[id].hash == a[id].hash
  }

  /** Nothing that the observer keeps track of differs. */
  ghost predicate SameCredentials(a: Db, b: Db) {
    SameUsers(a.users, b.users) && SameOwners(a.resets, b.resets)
  }

  lemma OtherStatementIsSame(db: Db, now: Time, s: Stmt)
    requires !TouchesCredentials(s) && Apply(db, now, s).Some?
    ensures SameCredentials(db, Apply(db, now, s).value)
  {
  }

  lemma {:induction false} OtherWritesAreSame(db: Db, now: Time, writes: seq<Stmt>, fault: Fault, index: nat)
    requires forall i :: 0 <= i < |writes| ==> !TouchesCredentials(writes[i])
    ensures SameCredentials(db, RunWrites(db, now, writes, fault, index).0)
    decreases |writes|
  {
    if writes != [] && Apply(db, now, writes[0]).Some? {
      OtherStatementIsSame(db, now, writes[0]);
      OtherWritesAreSame(Apply(db, now, writes[0]).value, now, writes[1..], fault, index + 1);
    }
  }

  lemma EmailsStayTaken(a: Users, b: Users, email: string)
    requires EmailTaken(a, email) && forall u :: u in a ==> u in b && b[u].email == a[u].email
    ensures EmailTaken(b, email)
  {
    var u :| u in a && a[u].email == email;
    assert b[u].email == email;
  }

  lemma SameStillAgrees(o: Observer, a: Db, b: Db)
    requires Agrees(o, a) && SameCredentials(a, b)
    ensures Agrees(o, b)
  {
    forall email | email in o.passwords
      ensures EmailTaken(b.users, email)
    {
      EmailsStayTaken(a.users, b.users, email);
    }
    forall u | u in b.users
      ensures KnowsUser(o, u, b.users[u])
    {
      assert KnowsUser(o, u, a.users[u]);
    }
  }

  function ToldOfUser(o: Observer, id: Uuid, row: User): Observer {
    o.(passwords := o.passwords[row.email := row.password.password], emails := o.emails[id := row.email])
  }

  lemma NewUserIsKnown(o: Observer, users: Users, id: Uuid, row: User)
    requires KnowsUsers(o, users) && id !in users && Operations.Unknown(users, row.email) && row.emailVerifiedAt == None
    ensures KnowsUsers(ToldOfUser(o, id, row), users[id := row])
  {
    var told, more := ToldOfUser(o, id, row), users[id := row];
    forall email | email in told.passwords
      ensures EmailTaken(more, email)
    {
      if email == row.email {
        assert more[id].email == email;
      } else {
        EmailsStayTaken(users, more, email);
      }
    }
    forall u | u in users
      ensures KnowsUser(told, u, users[u])
    {
      assert KnowsUser(o, u, users[u]);
    }
  }

  lemma NewUserAgrees(o: Observer, db: Db, id: Uuid, row: User, after: Db)
    requires Agrees(o, db) && id !in db.users && Operations.Unknown(db.users, row.email) && row.emailVerifiedAt == None
    requires after == db.(users := db.users[id := row])
    ensures Agrees(ToldOfUser(o, id, row), after)
  {
    NewUserIsKnown(o, db.users, id, row);
  }

  /** What the observer learns concerns one email only. */
  ghost predicate Learnt(o: Observer, told: Observer, email: string) {
    && told.emails == o.emails && told.owners == o.owners
    && told.passwords.Keys == o.passwords.Keys && told.verified <= told.passwords.Keys
    && forall e :: e in o.passwords && e != email ==>
         told.passwords[e] == o.passwords[e] && (e in told.verified <==> e in o.verified)
  }

  lemma OtherUsersStayKnown(o: Observer, told: Observer, users: Users, u: Uuid, v: Uuid, email: string)
    requires KnowsUsers(o, users) && UniqueEmails(users) && Learnt(o, told, email)
    requires u in users && users[u].email == email && v in users && v != u
    ensures KnowsUser(told, v, users[v])
  {
    assert KnowsUser(o, v, users[v]);
    assert users[v].email != email;
  }

  lemma OneUserChanges(o: Observer, told: Observer, users: Users, u: Uuid, row: User)
    requires KnowsUsers(o, users) && UniqueEmails(users) && u in users && row.email == users[u].email
    requires Learnt(o, told, row.email) && KnowsUser(told, u, row)
    ensures KnowsUsers(told, users[u := row])
  {
    forall email | email in told.passwords
      ensures EmailTaken(users[u := row], email)
    {
      EmailsStayTaken(users, users[u := row], email);
    }
    forall v | v in users && v != u
      ensures KnowsUser(told, v, users[v])
    {
      OtherUsersStayKnown(o, told, users, u, v, row.email);
    }
  }

  /** One user's row changes, and the observer learns of it. */
  lemma OneRowChanges(o: Observer, told: Observer, db: Db, u: Uuid, row: User, after: Db)
    requires Agrees(o, db) && UniqueEmails(db.users) && u in db.users && row.email == db.users[u].email
    requires after.users == db.users[u := row] && SameOwners(db.resets, after.resets)
    requires Learnt(o, told, row.email) && KnowsUser(told, u, row)
    ensures Agrees(told, after)
  {
    OneUserChanges(o, told, db.users, u, row);
  }

  // ---- One call ----

  lemma RegisterAgrees(cfg: Config, o: Observer, db: Db, signed: set<string>, req: Request)
    requires Agrees(o, db) && req.fault == NoFault && req.call.Register?
    ensures
      var (after, reply) := Outcome(cfg, db, signed, req);
      Agrees(Observe(cfg, o, req.call, reply), after)
  {
    var (after, reply) := Outcome(cfg, db, signed, req);
    Operations.Registering(cfg, db, signed, req);
    if reply.Registered? {
      NewUserAgrees(o, db, req.draw.id, after.users[req.draw.id], after);
    }
  }

  lemma NewTokenAgrees(cfg: Config, o: Observer, db: Db, u: Uuid, reply: Reply, lifetime: int, req: Request, after: Db)
    requires Agrees(o, db) && u in db.users && after == db.(resets := after.resets)
    requires Operations.TokenIssued(cfg, db.resets, after.resets, reply, true, u, lifetime, req)
    ensures
      Agrees(if reply.Secret? then o.(owners := o.owners[cfg.lib.hash(reply.token) := db.users[u].email]) else o, after)
  {
    if reply.Secret? {
      forall id | id in after.resets && id != req.draw.id
        ensures id in db.resets && after.resets[id].user == db.resets[id].user
        ensures after.resets[id].hash == db.resets[id].hash && after.resets[id].hash != cfg.lib.hash(reply.token)
      {
        assert id in (after.resets - {req.draw.id});
      }
    }
  }

  /** The observer, told of a reset token, takes it to be the user's. */
  lemma TokenIsTold(cfg: Config, o: Observer, db: Db, u: Uuid, call: Call, reply: Reply)
    requires KnowsUsers(o, db.users) && u in db.users
    requires call == ForgotPassword(db.users[u].email) && (reply.Secret? || reply.Err?)
    ensures Observe(cfg, o, call, reply) ==
      if reply.Secret? then o.(owners := o.owners[cfg.lib.hash(reply.token) := db.users[u].email]) else o
  {
    assert KnowsUser(o, u, db.users[u]);
  }

  lemma KnownForgotAgrees(cfg: Config, o: Observer, db: Db, u: Uuid, reply: Reply, req: Request, after: Db)
    requires Agrees(o, db) && u in db.users && after == db.(resets := after.resets)
    requires req.call == ForgotPassword(db.users[u].email)
    requires Operations.TokenIssued(cfg, db.resets, after.resets, reply, true, u, cfg.passwordResetExpiration, req)
    ensures Agrees(Observe(cfg, o, req.call, reply), after)
  {
    NewTokenAgrees(cfg, o, db, u, reply, cfg.passwordResetExpiration, req, after);
    TokenIsTold(cfg, o, db, u, req.call, reply);
  }

  lemma NobodyForgotAgrees(cfg: Config, o: Observer, db: Db, call: Call)
    requires Agrees(o, db) && call.ForgotPassword? && Operations.Unknown(db.users, call.email)
    ensures Agrees(Observe(cfg, o, call, Secret("")), db)
  {
    assert call.email !in o.passwords;
  }

  lemma ForgotAgrees(cfg: Config, o: Observer, db: Db, signed: set<string>, req: Request)
    requires Agrees(o, db) && UniqueEmails(db.users) && req.fault == NoFault && req.call.ForgotPassword?
    ensures
      var (after, reply) := Outcome(cfg, db, signed, req);
      Agrees(Observe(cfg, o, req.call, reply), after)
  {
    var (after, reply) := Outcome(cfg, db, signed, req);
    if u :| u in db.users && db.users[u].email == req.call.email {
      Operations.Forgetting(cfg, db, signed, req, u);
      KnownForgotAgrees(cfg, o, db, u, reply, req, after);
    } else {
      Operations.ForgettingNobody(cfg, db, signed, req);
      NobodyForgotAgrees(cfg, o, db, req.call);
    }
  }

  lemma NewPasswordAgrees(o: Observer, db: Db, u: Uuid, password: StoredHash, after: Db)
    requires Agrees(o, db) && UniqueEmails(db.users) && u in db.users
    requires after.users == db.users[u := db.users[u].(password := password)] && SameOwners(db.resets, after.resets)
    ensures Agrees(o.(passwords := o.passwords[db.users[u].email := password.password]), after)
  {
    var row := db.users[u].(password := password);
    assert KnowsUser(o, u, db.users[u]);
    OneRowChanges(o, o.(passwords := o.passwords[row.email := password.password]), db, u, row, after);
  }

  lemma ResetIsTold(cfg: Config, o: Observer, db: Db, call: Call, id: Uuid)
    requires KnowsOwners(o, db.resets, db.users) && call.ResetPassword?
    requires id in db.resets && db.resets[id].hash == cfg.lib.hash(call.token)
    ensures db.resets[id].user in db.users
    ensures Observe(cfg, o, call, Done) ==
      o.(passwords := o.passwords[db.users[db.resets[id].user].email := call.password])
  {
  }

  lemma UseKeepsOwners(before: OneTimeTokens, after: OneTimeTokens, id: Uuid, now: Time)
    requires Operations.TokenUsed(before, after, id, now)
    ensures SameOwners(before, after)
  {
  }

  lemma RedemptionIsLearnt(o: Observer, db: Db, id: Uuid, password: StoredHash, now: Time, after: Db)
    requires Agrees(o, db) && UniqueEmails(db.users) && id in db.resets && db.resets[id].user in db.users
    requires
      var u := db.resets[id].user;
      after.users == db.users[u := db.users[u].(password := password)]
    requires Operations.TokenUsed(db.resets, after.resets, id, now)
    ensures Agrees(o.(passwords := o.passwords[db.users[db.resets[id].user].email := password.password]), after)
  {
    UseKeepsOwners(db.resets, after.resets, id, now);
    NewPasswordAgrees(o, db, db.resets[id].user, password, after);
  }

  lemma RedemptionAgrees(cfg: Config, o: Observer, db: Db, signed: set<string>, req: Request, id: Uuid)
    requires Agrees(o, db) && Constraints(db) && req.fault == NoFault && req.call.ResetPassword?
    requires Strong(cfg, req.call.password) && Operations.Redeems(cfg, db.resets, id, req.call.token, req.now)
    ensures
      var (after, reply) := Outcome(cfg, db, signed, req);
      Agrees(Observe(cfg, o, req.call, reply), after)
  {
    var after := Outcome(cfg, db, signed, req).0;
    Operations.Resetting(cfg, db, signed, req, id);
    ResetIsTold(cfg, o, db, req.call, id);
    RedemptionIsLearnt(o, db, id, StoredHash(req.call.password, req.draw.salt), req.now, after);
  }

  lemma ResetAgrees(cfg: Config, o: Observer, db: Db, signed: set<string>, req: Request)
    requires Agrees(o, db) && Constraints(db) && req.fault == NoFault && req.call.ResetPassword?
    ensures
      var (after, reply) := Outcome(cfg, db, signed, req);
      Agrees(Observe(cfg, o, req.call, reply), after)
  {
    if id :| Strong(cfg, req.call.password) && Operations.Redeems(cfg, db.resets, id, req.call.token, req.now) {
      RedemptionAgrees(cfg, o, db, signed, req, id);
    } else {
      Operations.ResetRefused(cfg, db, signed, req);
    }
  }

  lemma ChangeIsTold(cfg: Config, o: Observer, row: User, call: Call)
    requires call.ChangePassword? && KnowsUser(o, call.user, row)
    ensures Observe(cfg, o, call, Done) == o.(passwords := o.passwords[row.email := call.password])
  {
  }

  lemma ChangeAgrees(cfg: Config, o: Observer, db: Db, signed: set<string>, req: Request)
    requires Agrees(o, db) && UniqueEmails(db.users) && req.fault == NoFault && req.call.ChangePassword?
    ensures
      var (after, reply) := Outcome(cfg, db, signed, req);
      Agrees(Observe(cfg, o, req.call, reply), after)
  {
    var (after, reply) := Outcome(cfg, db, signed, req);
    Operations.Changing(cfg, db, signed, req);
    if reply == Done {
      ChangeIsTold(cfg, o, db.users[req.call.user], req.call);
      NewPasswordAgrees(o, db, req.call.user, StoredHash(req.call.password, req.draw.salt), after);
    }
  }

  lemma VerificationIsTold(cfg: Config, o: Observer, u: Uuid, row: User, call: Call)
    requires call.VerifyEmail? && KnowsUser(o, u, row)
    ensures Observe(cfg, o, call, Verified(u)) == o.(verified := o.verified + {row.email})
  {
  }

  lemma OneMoreVerified(o: Observer, db: Db, now: Time, u: Uuid, after: Db)
    requires Agrees(o, db) && UniqueEmails(db.users) && u in db.users && after.resets == db.resets
    requires after.users == db.users[u := db.users[u].(emailVerifiedAt := Some(now), status := Active)]
    ensures Agrees(o.(verified := o.verified + {db.users[u].email}), after)
  {
    var row := db.users[u].(emailVerifiedAt := Some(now), status := Active);
    assert KnowsUser(o, u, db.users[u]);
    OneRowChanges(o, o.(verified := o.verified + {row.email}), db, u, row, after);
  }

  lemma VerifyAgrees(cfg: Config, o: Observer, db: Db, signed: set<string>, req: Request)
    requires Agrees(o, db) && Constraints(db) && req.fault == NoFault && req.call.VerifyEmail?
    ensures
      var (after, reply) := Outcome(cfg, db, signed, req);
      Agrees(Observe(cfg, o, req.call, reply), after)
  {
    if id :| Operations.Redeems(cfg, db.verifications, id, req.call.token, req.now) {
      Operations.Verifying(cfg, db, signed, req, id);
      var u := db.verifications[id].user;
      VerificationIsTold(cfg, o, u, db.users[u], req.call);
      OneMoreVerified(o, db, req.now, u, Outcome(cfg, db, signed, req).0);
    } else {
      Operations.VerificationRefused(cfg, db, signed, req);
    }
  }

  /** The calls that neither set a password nor verify an email. */
  predicate Uneventful(call: Call) {
    call.Login? || call.Logout? || call.RefreshTokens? || call.CreateEmailVerification? || call.AssignStatus?
  }

  lemma QuietPlan(cfg: Config, db: Db, signed: set<string>, req: Request)
    requires Uneventful(req.call)
    ensures
      var writes := PlanOf(cfg, db, signed, req).writes;
      forall i :: 0 <= i < |writes| ==> !TouchesCredentials(writes[i])
  {
  }

  lemma QuietCallAgrees(cfg: Config, o: Observer, db: Db, signed: set<string>, req: Request)
    requires Agrees(o, db) && Uneventful(req.call)
    ensures
      var (after, reply) := Outcome(cfg, db, signed, req);
      Agrees(Observe(cfg, o, req.call, reply), after)
  {
    var plan := PlanOf(cfg, db, signed, req);
    QuietPlan(cfg, db, signed, req);
    OtherWritesAreSame(db, req.now, plan.writes, req.fault, plan.selects);
    SameStillAgrees(o, db, Outcome(cfg, db, signed, req).0);
  }

  lemma CallAgrees(cfg: Config, o: Observer, db: Db, signed: set<string>, req: Request)
    requires Agrees(o, db) && Constraints(db) && req.fault == NoFault
    ensures
      var (after, reply) := Outcome(cfg, db, signed, req);
      Agrees(Observe(cfg, o, req.call, reply), after)
  {
    match req.call
    case Register(_, _) => RegisterAgrees(cfg, o, db, signed, req);
    case ForgotPassword(_) => ForgotAgrees(cfg, o, db, signed, req);
    case ResetPassword(_, _) => ResetAgrees(cfg, o, db, signed, req);
    case ChangePassword(_, _, _) => ChangeAgrees(cfg, o, db, signed, req);
    case VerifyEmail(_) => VerifyAgrees(cfg, o, db, signed, req);
    case _ => QuietCallAgrees(cfg, o, db, signed, req);
  }

  lemma {:induction false} RunsAgree(cfg: Config, run: seq<Request>)
    requires FaultFree(run)
    ensures Agrees(Watched(cfg, run), Replay(cfg, run).db)
  {
    if run != [] {
      var front, last := run[..|run| - 1], run[|run| - 1];
      var sys := Replay(cfg, front);
      RunsAgree(cfg, front);
      RunsKeepConstraints(cfg, front);
      CallAgrees(cfg, Watched(cfg, front), sys.db, Signed(sys.mints), last);
    }
  }

  // ---- Theorem ----

  lemma LoginAnswers(cfg: Config, o: Observer, db: Db, signed: set<string>, req: Request)
    requires Agrees(o, db) && req.call.Login? && req.fault == NoFault
    requires Operations.FreshSession(cfg, db.refresh, req.draw)
    ensures
      var found := FindUser(db.users, req.call.email);
      && (req.call.email in o.passwords <==> found.Some?)
      && (Outcome(cfg, db, signed, req).1.Tokens? <==>
            && req.call.email in o.passwords
            && o.passwords[req.call.email] == req.call.password
            && db.users[found.value].status == Active
            && !Operations.Locked(db.users[found.value], req.now)
            && (cfg.requireEmailVerification ==> req.call.email in o.verified))
  {
    var plan := PlanOf(cfg, db, signed, req);
    if plan.reply.Tokens? {
      TwoWrites(db, req.now, plan.writes, 1);
    }
  }

  /** After any run without database failures, a login with fresh randomness is answered with
      tokens exactly when the observer's current password for the email is the one given, the
      user's row is active and not locked, and, if required, the observer saw the email verified. */
  lemma LoginMatchesObserver(cfg: Config, run: seq<Request>, req: Request)
    requires FaultFree(run) && req.call.Login? && req.fault == NoFault
    requires Operations.FreshSession(cfg, Replay(cfg, run).db.refresh, req.draw)
    ensures
      var users := Replay(cfg, run).db.users;
      var o := Watched(cfg, run);
      var found := FindUser(users, req.call.email);
      && (req.call.email in o.passwords <==> found.Some?)
      && (Answer(cfg, Replay(cfg, run), req).1.Tokens? <==>
            && req.call.email in o.passwords
            && o.passwords[req.call.email] == req.call.password
            && users[found.value].status == Active
            && !Operations.Locked(users[found.value], req.now)
            && (cfg.requireEmailVerification ==> req.call.email in o.verified))
  {
    RunsAgree(cfg, run);
    RunsKeepConstraints(cfg, run);
    var sys := Replay(cfg, run);
    LoginAnswers(cfg, Watched(cfg, run), sys.db, Signed(sys.mints), req);
  }

  /** After any run without database failures, a password change succeeds exactly when the
      observer knows the user, the current password given is the one the observer has for that
      user, and the new one meets the policy; with a wrong current password it changes nothing. */
  lemma ChangeMatchesObserver(cfg: Config, run: seq<Request>, req: Request)
    requires FaultFree(run) && req.call.ChangePassword? && req.fault == NoFault
    ensures
      var sys := Replay(cfg, run);
      var o := Watched(cfg, run);
      var ChangePassword(u, current, password) := req.call;
      var (after, reply) := Answer(cfg, sys, req);
      && (u in o.emails ==> o.emails[u] in o.passwords)
      && (reply == Done <==> u in o.emails && o.passwords[o.emails[u]] == current && Strong(cfg, password))
      && (u in o.emails && o.passwords[o.emails[u]] != current ==> after == sys.db && reply == Err(InvalidCredentials))
      && (u !in o.emails ==> after == sys.db && reply == Err(UserNotFound))
  {
    RunsAgree(cfg, run);
    var sys := Replay(cfg, run);
    Operations.Changing(cfg, sys.db, Signed(sys.mints), req);
  }
}
