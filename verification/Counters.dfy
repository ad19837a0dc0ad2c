/** The failed-login counter in every interleaving: no failure is lost, and the lock is a
    function of the counted failures. */
module Counters {
  import opened Wrappers
  import opened Schema
  import opened Interleaving

  /** Statements that set the counter of u to zero. */
  predicate Resets(s: Stmt, u: Uuid) {
    (s.RecordSuccessfulLogin? && s.user == u) || (s.InsertUser? && s.id == u)
  }

  predicate Counts(s: Stmt, u: Uuid) {
    s.IncrementFailedAttempts? && s.user == u
  }

  /** The times of the counted failures of u since the last reset. */
  function Failures(log: seq<Entry>, u: Uuid): (times: seq<Time>) {
    if log == [] then []
    else
      var front, last := Failures(log[..|log| - 1], u), log[|log| - 1];
      if Counts(last.stmt, u) then front + [last.at] else if Resets(last.stmt, u) then [] else front
  }

  lemma FailuresOfAppend(log: seq<Entry>, e: Entry, u: Uuid)
    ensures Failures(log + [e], u) ==
      if Counts(e.stmt, u) then Failures(log, u) + [e.at] else if Resets(e.stmt, u) then [] else Failures(log, u)
  {
    assert (log + [e])[..|log|] == log;
  }

  /** The number of failures that locks an account: at least one, whatever is configured. */
  function Limit(cfg: Config): (m: int)
    ensures m >= 1 && m >= cfg.maxLoginAttempts
  {
    if cfg.maxLoginAttempts > 1 then cfg.maxLoginAttempts else 1
  }

  function LockAfter(cfg: Config, failures: seq<Time>): (until: Option<Time>) {
    if |failures| >= Limit(cfg) then Some(failures[|failures| - 1] + cfg.lockoutDuration * SECOND) else None
  }

  predicate Matches(cfg: Config, users: Users, log: seq<Entry>, u: Uuid) {
    u in users ==>
      && users[u].failedLoginAttempts == |Failures(log, u)|
      && users[u].lockedUntil == LockAfter(cfg, Failures(log, u))
  }

  lemma WriteKeepsMatch(cfg: Config, db: Db, now: Time, s: Stmt, log: seq<Entry>, u: Uuid)
    requires Matches(cfg, db.users, log, u) && Planned(cfg, s) && Apply(db, now, s).Some?
    ensures Matches(cfg, Apply(db, now, s).value.users, log + [Entry(now, s)], u)
  {
    FailuresOfAppend(log, Entry(now, s), u);
  }

  lemma StepKeepsMatch(cfg: Config, w: World, move: Move, u: Uuid)
    requires Healthy(cfg, w) && Matches(cfg, w.db.users, w.log, u)
    ensures var after := Next(cfg, w, move); Matches(cfg, after.db.users, after.log, u)
  {
    if move.Run? && move.id in w.tasks && w.tasks[move.id].phase.Writing? {
      var s := w.tasks[move.id].phase.writes[0];
      if Apply(w.db, w.now, s).Some? {
        WriteKeepsMatch(cfg, w.db, w.now, s, w.log, u);
      }
    }
  }

  // ---- The log is in order ----

  ghost predicate LogInOrder(log: seq<Entry>, now: Time) {
    && (forall i, j :: 0 <= i < j < |log| ==> log[i].at <= log[j].at)
    && (forall i :: 0 <= i < |log| ==> log[i].at <= now)
  }

  lemma StepKeepsOrder(cfg: Config, w: World, move: Move)
    requires LogInOrder(w.log, w.now)
    ensures LogInOrder(Next(cfg, w, move).log, Next(cfg, w, move).now)
  {
  }

  ghost predicate Ordered(times: seq<Time>, now: Time) {
    && (forall i, j :: 0 <= i <= j < |times| ==> times[i] <= times[j])
    && (forall i :: 0 <= i < |times| ==> times[i] <= now)
  }

  lemma {:induction false} FailuresInOrder(log: seq<Entry>, now: Time, u: Uuid)
    requires LogInOrder(log, now)
    ensures Ordered(Failures(log, u), now)
  {
    if log != [] {
      var n := |log| - 1;
      FailuresInOrder(log[..n], log[n].at, u);
    }
  }

  // ---- Theorem ----

  /** In every interleaving, whatever fails: the counter is the number of increments applied
      since the last reset, and the account is locked exactly when that number has reached the
      limit, until one lockout duration after the last of them. */
  lemma {:induction false} NoFailureIsLost(cfg: Config, start: Time, moves: seq<Move>, u: Uuid)
    ensures
      var w := Follow(cfg, Start(start), moves);
      && Matches(cfg, w.db.users, w.log, u)
      && LogInOrder(w.log, w.now)
  {
    if moves != [] {
      var front, last := moves[..|moves| - 1], moves[|moves| - 1];
      NoFailureIsLost(cfg, start, front, u);
      StartIsHealthy(cfg, start);
      InterleavingsStayHealthy(cfg, Start(start), front);
      StepKeepsMatch(cfg, Follow(cfg, Start(start), front), last, u);
      StepKeepsOrder(cfg, Follow(cfg, Start(start), front), last);
    }
  }

  /** A lock never reaches further than one lockout duration from now. */
  lemma LocksAreBounded(cfg: Config, start: Time, moves: seq<Move>, u: Uuid)
    requires cfg.lockoutDuration >= 0
    ensures
      var w := Follow(cfg, Start(start), moves);
      u in w.db.users && w.db.users[u].lockedUntil.Some? ==>
        w.db.users[u].lockedUntil.value <= w.now + cfg.lockoutDuration * SECOND
  {
    NoFailureIsLost(cfg, start, moves, u);
    var w := Follow(cfg, Start(start), moves);
    FailuresInOrder(w.log, w.now, u);
  }
}
