/** Account lockout, one call at a time, with any statement allowed to fail. */
module Lockouts {
  import opened Wrappers
  import opened Schema
  import opened Calls
  import opened Runs

  predicate TouchesCounter(s: Stmt, u: Uuid) {
    (s.IncrementFailedAttempts? || s.RecordSuccessfulLogin?) && s.user == u
  }

  predicate SameCounter(a: Users, b: Users, u: Uuid) {
    && u in a && u in b
    && b[u].failedLoginAttempts == a[u].failedLoginAttempts
    && b[u].lockedUntil == a[u].lockedUntil
  }

  lemma {:induction false} OtherWritesKeepCounter(
    db: Db, now: Time, writes: seq<Stmt>, fault: Fault, index: nat, u: Uuid)
    requires u in db.users
    requires forall i :: 0 <= i < |writes| ==> !TouchesCounter(writes[i], u)
    ensures SameCounter(db.users, RunWrites(db, now, writes, fault, index).0.users, u)
    decreases |writes|
  {
    if writes != [] && Apply(db, now, writes[0]).Some? {
      OtherWritesKeepCounter(Apply(db, now, writes[0]).value, now, writes[1..], fault, index + 1, u);
    }
  }

  lemma LockedPlansSkipCounter(cfg: Config, db: Db, signed: set<string>, req: Request, u: Uuid)
    requires u in db.users && db.users[u].IsLocked(req.now)
    ensures
      var writes := PlanOf(cfg, db, signed, req).writes;
      forall i :: 0 <= i < |writes| ==> !TouchesCounter(writes[i], u)
  {
  }

  lemma LockedCall(cfg: Config, db: Db, signed: set<string>, req: Request, u: Uuid)
    requires u in db.users && db.users[u].IsLocked(req.now)
    ensures
      var (after, reply) := Outcome(cfg, db, signed, req);
      SameCounter(db.users, after.users, u) && (reply.Tokens? ==> reply.access.sub != u)
  {
    var plan := PlanOf(cfg, db, signed, req);
    LockedPlansSkipCounter(cfg, db, signed, req, u);
    OtherWritesKeepCounter(db, req.now, plan.writes, req.fault, plan.selects, u);
    if Outcome(cfg, db, signed, req).1.Tokens? {
      TokensMeanExchange(cfg, db, signed, req);
    }
  }

  lemma LockedStep(cfg: Config, sys: System, req: Request, u: Uuid)
    requires u in sys.db.users && sys.db.users[u].IsLocked(req.now)
    ensures SameCounter(sys.db.users, Step(cfg, sys, req).db.users, u)
  {
    LockedCall(cfg, sys.db, Signed(sys.mints), req, u);
  }

  /** While a lock lasts, no sequence of calls changes the counter or the lock. */
  lemma {:induction false} LocksAreNeverShortened(cfg: Config, run: seq<Request>, i: nat, u: Uuid, until: Time)
    requires i <= |run|
    requires
      var users := Replay(cfg, run[..i]).db.users;
      u in users && users[u].lockedUntil == Some(until)
    requires forall k :: i <= k < |run| ==> run[k].now < until
    ensures SameCounter(Replay(cfg, run[..i]).db.users, Replay(cfg, run).db.users, u)
    decreases |run|
  {
    if i == |run| {
      assert run[..i] == run;
    } else {
      var front, last := run[..|run| - 1], run[|run| - 1];
      assert front[..i] == run[..i];
      LocksAreNeverShortened(cfg, front, i, u, until);
      LockedStep(cfg, Replay(cfg, front), last, u);
    }
  }

  /** While a lock lasts, no login or refresh of that user succeeds. */
  lemma LockedUsersGetNoTokens(cfg: Config, run: seq<Request>, i: nat, k: nat, u: Uuid, until: Time)
    requires i <= k < |run|
    requires
      var users := Replay(cfg, run[..i]).db.users;
      u in users && users[u].lockedUntil == Some(until)
    requires forall j :: i <= j <= k ==> run[j].now < until
    ensures
      var reply := AnswerAt(cfg, run, k).1;
      reply.Tokens? ==> reply.access.sub != u
  {
    var sys := Replay(cfg, run[..k]);
    assert run[..k][..i] == run[..i];
    LocksAreNeverShortened(cfg, run[..k], i, u, until);
    LockedCall(cfg, sys.db, Signed(sys.mints), run[k], u);
  }

  // ---- After a lock expires ----

  /** A lock is only ever set once the count has reached the limit. */
  ghost predicate LocksAreEarned(users: Users, max: int) {
    forall u :: u in users && users[u].lockedUntil.Some? ==> users[u].failedLoginAttempts >= max
  }

  lemma {:induction false} WritesEarnLocks(db: Db, now: Time, writes: seq<Stmt>, fault: Fault, index: nat, max: int)
    requires LocksAreEarned(db.users, max)
    requires forall i :: 0 <= i < |writes| && writes[i].IncrementFailedAttempts? ==> writes[i].max == max
    ensures LocksAreEarned(RunWrites(db, now, writes, fault, index).0.users, max)
    decreases |writes|
  {
    if writes != [] && Apply(db, now, writes[0]).Some? {
      WritesEarnLocks(Apply(db, now, writes[0]).value, now, writes[1..], fault, index + 1, max);
    }
  }

  lemma PlansUseTheLimit(cfg: Config, db: Db, signed: set<string>, req: Request)
    ensures
      var writes := PlanOf(cfg, db, signed, req).writes;
      forall i :: 0 <= i < |writes| && writes[i].IncrementFailedAttempts? ==> writes[i].max == cfg.maxLoginAttempts
  {
  }

  lemma {:induction false} RunsEarnLocks(cfg: Config, run: seq<Request>)
    ensures LocksAreEarned(Replay(cfg, run).db.users, cfg.maxLoginAttempts)
  {
    if run != [] {
      var sys, last := Replay(cfg, run[..|run| - 1]), run[|run| - 1];
      var plan := PlanOf(cfg, sys.db, Signed(sys.mints), last);
      RunsEarnLocks(cfg, run[..|run| - 1]);
      PlansUseTheLimit(cfg, sys.db, Signed(sys.mints), last);
      WritesEarnLocks(sys.db, last.now, plan.writes, last.fault, plan.selects, cfg.maxLoginAttempts);
    }
  }

  /** A login that the service counts as a failure: the row is unlocked and active, and the
      password is wrong. */
  ghost predicate CountsAsFailure(db: Db, req: Request, u: Uuid) {
    && req.call.Login?
    && FindUser(db.users, req.call.email) == Some(u)
    && db.users[u].CanLogin(req.now)
    && db.users[u].password.password != req.call.password
    && db.users[u].failedLoginAttempts < INTEGER_MAX
  }

  /** A counted failure locks the account exactly when it brings the count to the limit. */
  lemma FailureLocks(cfg: Config, db: Db, signed: set<string>, req: Request, u: Uuid)
    requires CountsAsFailure(db, req, u) && req.fault == NoFault && cfg.lockoutDuration > 0
    ensures u in Outcome(cfg, db, signed, req).0.users
    ensures
      var after := Outcome(cfg, db, signed, req).0.users[u];
      && after.failedLoginAttempts == db.users[u].failedLoginAttempts + 1
      && (after.IsLocked(req.now) <==> db.users[u].failedLoginAttempts + 1 >= cfg.maxLoginAttempts)
      && (after.IsLocked(req.now) ==> after.lockedUntil == Some(req.now + cfg.lockoutDuration * SECOND))
  {
    var s := Stmt.IncrementFailedAttempts(u, cfg.maxLoginAttempts, cfg.lockoutDuration);
    LoneWrite(db, req.now, s, 1);
  }

  /** The count does not start afresh when a lock expires: in every reachable state, the first
      counted failure after an expired lock locks the account again at once, for the full
      duration, whatever the limit. */
  lemma ExpiredLocksRelockAtOnce(cfg: Config, run: seq<Request>, req: Request, u: Uuid)
    requires CountsAsFailure(Replay(cfg, run).db, req, u) && req.fault == NoFault && cfg.lockoutDuration > 0
    requires Replay(cfg, run).db.users[u].lockedUntil.Some?
    ensures u in Answer(cfg, Replay(cfg, run), req).0.users
    ensures Answer(cfg, Replay(cfg, run), req).0.users[u].lockedUntil == Some(req.now + cfg.lockoutDuration * SECOND)
  {
    RunsEarnLocks(cfg, run);
    var sys := Replay(cfg, run);
    FailureLocks(cfg, sys.db, Signed(sys.mints), req, u);
  }

  /** One counted failure in a table with a single user. */
  lemma OneFailure(cfg: Config, run: seq<Request>, req: Request, u: Uuid, row: User)
    requires Replay(cfg, run).db.users == map[u := row]
    requires req.call.Login? && req.call.email == row.email && req.call.password != row.password.password
    requires row.CanLogin(req.now) && row.failedLoginAttempts < INTEGER_MAX && req.fault == NoFault
    ensures Replay(cfg, run + [req]).db.users ==
      map[u := Incremented(row, cfg.maxLoginAttempts, cfg.lockoutDuration, req.now)]
  {
    var db := Replay(cfg, run).db;
    assert db.users[u].email == req.call.email;
    assert (run + [req])[..|run|] == run;
    LoneWrite(db, req.now, Stmt.IncrementFailedAttempts(u, cfg.maxLoginAttempts, cfg.lockoutDuration), 1);
  }

  lemma FirstUser(cfg: Config, req: Request)
    requires req.call.Register? && Acceptable(cfg, req.call.password) && |req.call.email| <= EMAIL_MAX
    requires req.fault == NoFault
    ensures Replay(cfg, [req]).db.users ==
      map[req.draw.id := User(req.call.email, StoredHash(req.call.password, req.draw.salt), Active, None, 0, None)]
  {
    assert [req][..0] == [];
    LoneWrite(EMPTY, req.now, PlanOf(cfg, EMPTY, {}, req).writes[0], 1);
  }

  lemma TwoFailures(cfg: Config, first: Request, early: Request)
    requires cfg.maxLoginAttempts == 2
    requires first.call.Register? && Acceptable(cfg, first.call.password) && |first.call.email| <= EMAIL_MAX
    requires early.call.Login? && early.call.email == first.call.email && early.call.password != first.call.password
    requires first.fault == NoFault && early.fault == NoFault
    ensures
      var password := StoredHash(first.call.password, first.draw.salt);
      var until := early.now + cfg.lockoutDuration * SECOND;
      Replay(cfg, [first, early, early]).db.users ==
        map[first.draw.id := User(first.call.email, password, Active, None, 2, Some(until))]
  {
    var password := StoredHash(first.call.password, first.draw.salt);
    var registered := User(first.call.email, password, Active, None, 0, None);
    FirstUser(cfg, first);
    OneFailure(cfg, [first], early, first.draw.id, registered);
    OneFailure(cfg, [first] + [early], early, first.draw.id, registered.(failedLoginAttempts := 1));
    assert [first] + [early] + [early] == [first, early, early];
  }

  /** A run that shows it, with a limit of two: after two failures at time 0 the account is locked
      until `lock`; at that time it is unlocked, and a single further failure, the third in a
      row, locks it until twice `lock`. */
  lemma OneFailureRelocks(cfg: Config, email: string, password: string, wrong: string, draw: Draw)
    requires cfg.maxLoginAttempts == 2 && cfg.lockoutDuration > 0
    requires Acceptable(cfg, password) && wrong != password && |email| <= EMAIL_MAX
    ensures
      var lock := cfg.lockoutDuration * SECOND;
      var early := Request(Call.Login(email, wrong), 0, draw, NoFault);
      var locked := [Request(Call.Register(email, password), 0, draw, NoFault), early, early];
      var before, after := Replay(cfg, locked).db.users, Replay(cfg, locked + [early.(now := lock)]).db.users;
      && draw.id in before && before[draw.id].lockedUntil == Some(lock) && !before[draw.id].IsLocked(lock)
      && draw.id in after && after[draw.id].lockedUntil == Some(2 * lock) && after[draw.id].failedLoginAttempts == 3
  {
    var lock := cfg.lockoutDuration * SECOND;
    var first := Request(Call.Register(email, password), 0, draw, NoFault);
    var early := Request(Call.Login(email, wrong), 0, draw, NoFault);
    TwoFailures(cfg, first, early);
    var locked := User(email, StoredHash(password, draw.salt), Active, None, 2, Some(lock));
    OneFailure(cfg, [first, early, early], early.(now := lock), draw.id, locked);
  }
}
