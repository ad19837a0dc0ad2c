/** How many wrong passwords a lockout lets through, in every interleaving.

    The counting argument is made on a small abstraction, a `Book`: the times of the counted
    failures and, for each login under way, how many failures it knew of when it read. */
module Throughput {
  import opened Schema
  import opened Calls
  import opened Interleaving
  import opened Counters

  datatype Book = Book(now: Time, hits: seq<Time>, seen: map<nat, nat>)

  /** Logins may start, knowing every hit so far, and may leave. */
  ghost predicate Quiet(b: Book, c: Book) {
    && c.hits == b.hits && b.now <= c.now
    && forall p :: p in c.seen ==> (p in b.seen && c.seen[p] == b.seen[p]) || c.seen[p] == |b.hits|
  }

  /** Login p counts a failure; if it knew of a lock, that lock has run out. */
  ghost predicate Hit(limit: int, lock: int, b: Book, c: Book, p: nat) {
    && p in b.seen && b.seen[p] <= |b.hits|
    && c == Book(b.now, b.hits + [b.now], b.seen - {p})
    && (b.seen[p] >= limit >= 1 ==> b.now >= b.hits[b.seen[p] - 1] + lock)
  }

  function Unaware(b: Book, j: int): set<nat> {
    set p | p in b.seen && b.seen[p] <= j
  }

  /** After hit j, either a lock duration has passed by the last hit, or the hits since then
      and the logins that do not know of hit j are fewer than k. */
  ghost predicate Bounded(b: Book, j: int, k: nat, lock: int)
    requires 0 <= j < |b.hits|
  {
    b.hits[|b.hits| - 1] >= b.hits[j] + lock || |b.hits| - 1 - j + |Unaware(b, j)| < k
  }

  ghost predicate Sane(b: Book, start: Time, limit: int, k: nat, lock: int) {
    && limit >= 1 && lock > 0
    && (forall i, j :: 0 <= i <= j < |b.hits| ==> b.hits[i] <= b.hits[j])
    && (forall i :: 0 <= i < |b.hits| ==> start <= b.hits[i] <= b.now)
    && (forall p :: p in b.seen ==> b.seen[p] <= |b.hits|)
    && (forall j :: limit - 1 <= j < |b.hits| ==> Bounded(b, j, k, lock))
    && (forall i, j :: limit - 1 <= i && j == i + k && j < |b.hits| ==> b.hits[j] >= b.hits[i] + lock)
  }

  lemma QuietKeepsSane(b: Book, c: Book, start: Time, limit: int, k: nat, lock: int)
    requires Sane(b, start, limit, k, lock) && Quiet(b, c)
    ensures Sane(c, start, limit, k, lock)
  {
    forall j | limit - 1 <= j < |c.hits|
      ensures Bounded(c, j, k, lock)
    {
      assert Bounded(b, j, k, lock);
      SubsetIsSmaller(Unaware(c, j), Unaware(b, j));
    }
  }

  lemma HitKeepsBound(b: Book, c: Book, p: nat, start: Time, limit: int, k: nat, lock: int, j: int)
    requires Sane(b, start, limit, k, lock) && Hit(limit, lock, b, c, p) && |b.seen| <= k
    requires limit - 1 <= j < |c.hits|
    ensures Bounded(c, j, k, lock)
  {
    if j == |b.hits| {
      SubsetIsSmaller(Unaware(c, j), b.seen.Keys - {p});
    } else if b.seen[p] <= j {
      assert Bounded(b, j, k, lock);
      assert Unaware(c, j) == Unaware(b, j) - {p};
    }
  }

  lemma HitKeepsSane(b: Book, c: Book, p: nat, start: Time, limit: int, k: nat, lock: int)
    requires Sane(b, start, limit, k, lock) && Hit(limit, lock, b, c, p) && |b.seen| <= k && start <= b.now
    ensures Sane(c, start, limit, k, lock)
  {
    forall j | limit - 1 <= j < |c.hits|
      ensures Bounded(c, j, k, lock)
    {
      HitKeepsBound(b, c, p, start, limit, k, lock, j);
    }
    forall i, j | limit - 1 <= i && j == i + k && j < |c.hits|
      ensures c.hits[j] >= c.hits[i] + lock
    {
      if j == |b.hits| {
        HitKeepsBound(b, c, p, start, limit, k, lock, i);
      }
    }
  }

  /** Hits that are k apart are a lock duration apart, and so on. */
  lemma {:induction false} Spaced(b: Book, start: Time, limit: int, k: nat, lock: int, q: nat)
    requires Sane(b, start, limit, k, lock) && k >= 1
    requires limit - 1 + q * k < |b.hits|
    ensures limit - 1 + q * k >= 0 && b.hits[limit - 1 + q * k] >= b.hits[limit - 1] + q * lock
  {
    if q > 0 {
      assert (q - 1) * k + k == q * k;
      assert (q - 1) * lock + lock == q * lock;
      Spaced(b, start, limit, k, lock, q - 1);
      assert b.hits[limit - 1 + q * k] >= b.hits[limit - 1 + (q - 1) * k] + lock;
    }
  }

  lemma Monotone(a: int, b: int, k: nat)
    requires a <= b
    ensures a * k <= k * b
  {
  }

  lemma Quotient(q: nat, d: int, t: int)
    requires d > 0 && q * d <= t
    ensures q <= t / d
  {
    if q >= t / d + 1 {
      Monotone(t / d + 1, q, d);
      assert false;
    }
  }

  lemma SaneBooksAreShort(b: Book, start: Time, limit: int, k: nat, lock: int)
    requires Sane(b, start, limit, k, lock) && k >= 1 && start <= b.now
    ensures |b.hits| <= limit + (k - 1) + k * ((b.now - start) / lock)
  {
    var t := b.now - start;
    if |b.hits| >= limit {
      var q := (|b.hits| - limit) / k;
      assert q * k <= |b.hits| - limit < q * k + k;
      Spaced(b, start, limit, k, lock, q);
      assert q * lock <= t;
      Quotient(q, lock, t);
      assert q * k <= k * (t / lock) by { Monotone(q, t / lock, k); }
    } else {
      assert t / lock >= 0;
      assert k * (t / lock) >= 0;
    }
  }

  // ---- From worlds to books ----

  /** The call has read u's row as a login and may still count a failure. */
  predicate MayCount(phase: Phase, u: Uuid) {
    || (phase.Reading? && phase.progress.LoginRow? && phase.progress.user == u)
    || (phase.Writing? && phase.writes != [] && Counts(phase.writes[0], u))
  }

  function InFlight(w: World, u: Uuid): set<nat> {
    set id | id in w.tasks && MayCount(w.tasks[id].phase, u)
  }

  /** The failures of the stretch that a call knew of when it read; `base` is where the stretch
      begins in the log. */
  function Known(log: seq<Entry>, base: nat, u: Uuid, task: Task): seq<Time> {
    if base < task.since <= |log| then Failures(log[..task.since], u) else []
  }

  function BookOf(w: World, base: nat, u: Uuid): Book {
    Book(w.now, Failures(w.log, u), map id | id in InFlight(w, u) :: |Known(w.log, base, u, w.tasks[id])|)
  }

  /** The counter was clear at `base` and nothing has reset it since. */
  ghost predicate ClearSince(log: seq<Entry>, base: nat, u: Uuid) {
    && base <= |log| && Failures(log[..base], u) == []
    && forall i :: base <= i < |log| ==> !Resets(log[i].stmt, u)
  }

  ghost predicate ReadsAreLogged(w: World) {
    forall id :: id in w.tasks ==> w.tasks[id].since <= |w.log|
  }

  ghost predicate Informed(cfg: Config, w: World, base: nat, u: Uuid, task: Task) {
    var known := Known(w.log, base, u, task);
    && known <= Failures(w.log, u)
    && (|known| >= Limit(cfg) ==>
          && (task.phase.Reading? && task.phase.progress.LoginRow? ==>
                task.phase.progress.row.lockedUntil == LockAfter(cfg, known))
          && (task.phase.Writing? ==> w.now >= LockAfter(cfg, known).value))
  }

  ghost predicate AllInformed(cfg: Config, w: World, base: nat, u: Uuid) {
    forall id :: id in InFlight(w, u) ==> Informed(cfg, w, base, u, w.tasks[id])
  }

  /** Since the stretch began nothing reset the counter, and each login under way knew a first
      part of the failures; one that passed its lock check did so after any lock it knew of. */
  ghost predicate Consistent(cfg: Config, w: World, base: nat, u: Uuid) {
    && Healthy(cfg, w) && u in w.db.users && Matches(cfg, w.db.users, w.log, u)
    && ClearSince(w.log, base, u) && ReadsAreLogged(w) && AllInformed(cfg, w, base, u)
  }

  lemma StaysClear(log: seq<Entry>, after: seq<Entry>, base: nat, u: Uuid)
    requires ClearSince(log, base, u)
    requires after == log || (|after| == |log| + 1 && log <= after && !Resets(after[|log|].stmt, u))
    ensures ClearSince(after, base, u)
  {
    assert after[..base] == log[..base];
  }

  /** What a call knew does not change when the log is extended. */
  lemma KnownIsStable(log: seq<Entry>, e: Entry, base: nat, u: Uuid, task: Task)
    requires task.since <= |log|
    ensures Known(log + [e], base, u, task) == Known(log, base, u, task)
  {
    assert (log + [e])[..task.since] == log[..task.since];
  }

  lemma InformedLater(cfg: Config, w: World, after: World, base: nat, u: Uuid, task: Task)
    requires Informed(cfg, w, base, u, task) && w.now <= after.now
    requires task.since <= |w.log| && Failures(w.log, u) <= Failures(after.log, u)
    requires after.log == w.log || (|after.log| == |w.log| + 1 && w.log <= after.log)
    ensures Informed(cfg, after, base, u, task)
    ensures Known(after.log, base, u, task) == Known(w.log, base, u, task)
  {
    if after.log != w.log {
      assert after.log == w.log + [after.log[|w.log|]];
      KnownIsStable(w.log, after.log[|w.log|], base, u, task);
    }
  }

  lemma BegunNeverCounts(cfg: Config, w: World, call: Call, draw: Draw, luck: Luck, u: Uuid)
    ensures
      var phase := AfterBegun(cfg, w, call, draw, luck);
      && !(phase.Writing? && Counts(phase.writes[0], u))
      && (phase.Reading? && phase.progress.LoginRow? && phase.progress.user == u ==>
            u in w.db.users && phase.progress.row == w.db.users[u])
  {
  }

  /** A login that reads now knows every failure so far, and the lock they cause. */
  lemma ReaderIsInformed(cfg: Config, w: World, base: nat, u: Uuid, call: Call, draw: Draw, luck: Luck)
    requires Consistent(cfg, w, base, u) && MayCount(AfterBegun(cfg, w, call, draw, luck), u)
    ensures
      var task := Task(call, AfterBegun(cfg, w, call, draw, luck), |w.log|);
      Informed(cfg, w, base, u, task) && Known(w.log, base, u, task) == Failures(w.log, u)
  {
    assert w.log[..|w.log|] == w.log;
    BegunNeverCounts(cfg, w, call, draw, luck, u);
  }

  /** A login that passes its lock check does so at or after the lock it read. */
  lemma CheckerIsInformed(cfg: Config, w: World, base: nat, u: Uuid, task: Task, draw: Draw, luck: Luck)
    requires task.phase.Reading? && !task.phase.progress.Decided?
    requires MayCount(AfterReadingMore(cfg, w, task.phase.progress, draw, luck), u)
    requires MayCount(task.phase, u) ==> Informed(cfg, w, base, u, task)
    ensures MayCount(task.phase, u)
    ensures Informed(cfg, w, base, u, task.(phase := AfterReadingMore(cfg, w, task.phase.progress, draw, luck)))
  {
  }

  // ---- Every step of a world is a step of its book ----

  /** The call knows what it knew before the step, or every failure so far. */
  ghost predicate StaysInformed(cfg: Config, w: World, after: World, base: nat, u: Uuid, id: nat)
    requires id in after.tasks
  {
    var known := Known(after.log, base, u, after.tasks[id]);
    && Informed(cfg, after, base, u, after.tasks[id])
    && ((id in InFlight(w, u) && |known| == |Known(w.log, base, u, w.tasks[id])|) || |known| == |Failures(w.log, u)|)
  }

  /** A call that reads, or passes its lock check. */
  lemma OwnQuietStep(cfg: Config, w: World, move: Move, base: nat, u: Uuid)
    requires Consistent(cfg, w, base, u) && move.Run? && move.id in w.tasks && !w.tasks[move.id].phase.Writing?
    requires move.id in InFlight(Next(cfg, w, move), u)
    ensures StaysInformed(cfg, w, Next(cfg, w, move), base, u, move.id)
  {
    var task := w.tasks[move.id];
    match task.phase
    case Begun => ReaderIsInformed(cfg, w, base, u, task.call, move.draw, move.luck);
    case Reading(_) => CheckerIsInformed(cfg, w, base, u, task, move.draw, move.luck);
    case Finished(_) =>
  }

  /** After its first write a call can no longer count a failure. */
  lemma WritersLeave(cfg: Config, w: World, move: Move, u: Uuid)
    requires Healthy(cfg, w) && move.Run? && move.id in w.tasks && w.tasks[move.id].phase.Writing?
    ensures move.id !in InFlight(Next(cfg, w, move), u)
  {
  }

  lemma QuietTask(cfg: Config, w: World, move: Move, base: nat, u: Uuid, id: nat)
    requires Consistent(cfg, w, base, u) && id in InFlight(Next(cfg, w, move), u)
    requires Failures(Next(cfg, w, move).log, u) == Failures(w.log, u)
    ensures StaysInformed(cfg, w, Next(cfg, w, move), base, u, id)
  {
    if move.Run? && move.id == id {
      if w.tasks[id].phase.Writing? {
        WritersLeave(cfg, w, move, u);
      } else {
        OwnQuietStep(cfg, w, move, base, u);
      }
    } else {
      StepExtendsLog(cfg, w, move);
      InformedLater(cfg, w, Next(cfg, w, move), base, u, w.tasks[id]);
    }
  }

  /** A step that neither counts a failure of u nor resets the counter. */
  lemma QuietStep(cfg: Config, w: World, move: Move, base: nat, u: Uuid)
    requires Consistent(cfg, w, base, u)
    requires Failures(Next(cfg, w, move).log, u) == Failures(w.log, u)
    ensures Quiet(BookOf(w, base, u), BookOf(Next(cfg, w, move), base, u))
    ensures AllInformed(cfg, Next(cfg, w, move), base, u)
  {
    var after := Next(cfg, w, move);
    StepExtendsLog(cfg, w, move);
    forall id | id in InFlight(after, u)
      ensures StaysInformed(cfg, w, after, base, u, id)
    {
      QuietTask(cfg, w, move, base, u, id);
    }
  }

  /** The call that counts a failure leaves the ranks; everyone else stays as informed as before. */
  lemma HitBooks(cfg: Config, w: World, after: World, p: nat, base: nat, u: Uuid)
    requires AllInformed(cfg, w, base, u) && p in InFlight(w, u) && w.tasks[p].phase.Writing?
    requires ReadsAreLogged(w)
    requires InFlight(after, u) == InFlight(w, u) - {p} && after.now == w.now
    requires forall id :: id in w.tasks && id != p ==> id in after.tasks && after.tasks[id] == w.tasks[id]
    requires |after.log| == |w.log| + 1 && w.log <= after.log
    requires Failures(after.log, u) == Failures(w.log, u) + [w.now]
    ensures Hit(Limit(cfg), cfg.lockoutDuration * SECOND, BookOf(w, base, u), BookOf(after, base, u), p)
    ensures AllInformed(cfg, after, base, u)
  {
    forall id | id in InFlight(after, u)
      ensures Informed(cfg, after, base, u, after.tasks[id])
      ensures Known(after.log, base, u, after.tasks[id]) == Known(w.log, base, u, w.tasks[id])
    {
      assert Informed(cfg, w, base, u, w.tasks[id]);
      InformedLater(cfg, w, after, base, u, w.tasks[id]);
    }
    assert BookOf(after, base, u).seen == BookOf(w, base, u).seen - {p};
    assert Informed(cfg, w, base, u, w.tasks[p]);
  }

  lemma HitterLeaves(cfg: Config, w: World, move: Move, u: Uuid)
    requires Healthy(cfg, w) && move.Run? && move.id in w.tasks && w.tasks[move.id].phase.Writing?
    requires Counts(w.tasks[move.id].phase.writes[0], u)
    ensures InFlight(Next(cfg, w, move), u) == InFlight(w, u) - {move.id}
    ensures forall id :: id in w.tasks && id != move.id ==>
      id in Next(cfg, w, move).tasks && Next(cfg, w, move).tasks[id] == w.tasks[id]
  {
  }

  lemma HitStep(cfg: Config, w: World, move: Move, base: nat, u: Uuid)
    requires Consistent(cfg, w, base, u)
    requires Next(cfg, w, move).log != w.log && Counts(Next(cfg, w, move).log[|w.log|].stmt, u)
    ensures move.Run? && Hit(Limit(cfg), cfg.lockoutDuration * SECOND, BookOf(w, base, u),
                             BookOf(Next(cfg, w, move), base, u), move.id)
    ensures AllInformed(cfg, Next(cfg, w, move), base, u)
  {
    var after := Next(cfg, w, move);
    StepExtendsLog(cfg, w, move);
    assert after.log == w.log + [after.log[|w.log|]];
    FailuresOfAppend(w.log, after.log[|w.log|], u);
    HitterLeaves(cfg, w, move, u);
    HitBooks(cfg, w, after, move.id, base, u);
  }

  /** What a step does to the book, and that everyone stays informed. */
  lemma StepOfBook(cfg: Config, w: World, move: Move, base: nat, u: Uuid)
    requires Consistent(cfg, w, base, u)
    requires Next(cfg, w, move).log != w.log ==> !Resets(Next(cfg, w, move).log[|w.log|].stmt, u)
    ensures AllInformed(cfg, Next(cfg, w, move), base, u)
    ensures
      var b, c := BookOf(w, base, u), BookOf(Next(cfg, w, move), base, u);
      Quiet(b, c) || (move.Run? && Hit(Limit(cfg), cfg.lockoutDuration * SECOND, b, c, move.id))
  {
    var after := Next(cfg, w, move);
    StepExtendsLog(cfg, w, move);
    if after.log == w.log {
      QuietStep(cfg, w, move, base, u);
    } else {
      var e := after.log[|w.log|];
      assert after.log == w.log + [e];
      FailuresOfAppend(w.log, e, u);
      if Counts(e.stmt, u) {
        HitStep(cfg, w, move, base, u);
      } else {
        QuietStep(cfg, w, move, base, u);
      }
    }
  }

  lemma NobodyIsInsertedTwice(cfg: Config, w: World, move: Move, u: Uuid)
    requires Healthy(cfg, w) && u in w.db.users
    ensures Next(cfg, w, move).log != w.log ==>
      var s := Next(cfg, w, move).log[|w.log|].stmt; s.InsertUser? ==> s.id != u
  {
  }

  lemma SinceStaysBehind(cfg: Config, w: World, move: Move)
    requires Healthy(cfg, w) && ReadsAreLogged(w)
    ensures ReadsAreLogged(Next(cfg, w, move))
  {
  }

  /** One step of a stretch without successful logins of u. */
  lemma StretchStep(cfg: Config, w: World, move: Move, base: nat, u: Uuid)
    requires Consistent(cfg, w, base, u)
    requires Next(cfg, w, move).log != w.log ==> Next(cfg, w, move).log[|w.log|].stmt != RecordSuccessfulLogin(u)
    ensures Consistent(cfg, Next(cfg, w, move), base, u)
    ensures
      var b, c := BookOf(w, base, u), BookOf(Next(cfg, w, move), base, u);
      Quiet(b, c) || (move.Run? && Hit(Limit(cfg), cfg.lockoutDuration * SECOND, b, c, move.id))
  {
    var after := Next(cfg, w, move);
    StepKeepsHealth(cfg, w, move);
    StepKeepsMatch(cfg, w, move, u);
    StepExtendsLog(cfg, w, move);
    NobodyIsInsertedTwice(cfg, w, move, u);
    SinceStaysBehind(cfg, w, move);
    StepOfBook(cfg, w, move, base, u);
    StaysClear(w.log, after.log, base, u);
  }

  // ---- Theorem ----

  /** The number of counted failures of u from a position of the log on. */
  function Counted(log: seq<Entry>, base: nat, u: Uuid): (n: nat)
    requires base <= |log|
  {
    if |log| == base then 0
    else Counted(log[..|log| - 1], base, u) + if Counts(log[|log| - 1].stmt, u) then 1 else 0
  }

  lemma {:induction false} CountedAreFailures(log: seq<Entry>, base: nat, u: Uuid)
    requires ClearSince(log, base, u)
    ensures Counted(log, base, u) == |Failures(log, u)|
  {
    if |log| == base {
      assert log[..base] == log;
    } else {
      assert log[..|log| - 1][..base] == log[..base];
      CountedAreFailures(log[..|log| - 1], base, u);
    }
  }

  ghost predicate FewInFlight(cfg: Config, w: World, moves: seq<Move>, u: Uuid, k: nat) {
    forall i :: 0 <= i <= |moves| ==> |InFlight(Follow(cfg, w, moves[..i]), u)| <= k
  }

  predicate NoLoginSince(log: seq<Entry>, base: nat, u: Uuid) {
    forall i :: base <= i < |log| ==> log[i].stmt != RecordSuccessfulLogin(u)
  }

  /** A stretch of an interleaving: it starts with a clear counter, no successful login of u
      falls in it, and never more than k logins of u are under way. */
  ghost predicate Stretch(cfg: Config, w: World, moves: seq<Move>, u: Uuid, k: nat) {
    && u in w.db.users && w.db.users[u].failedLoginAttempts == 0
    && FewInFlight(cfg, w, moves, u, k) && NoLoginSince(Follow(cfg, w, moves).log, |w.log|, u)
  }

  lemma FewInFlightBefore(cfg: Config, w: World, moves: seq<Move>, u: Uuid, k: nat)
    requires FewInFlight(cfg, w, moves, u, k) && moves != []
    ensures FewInFlight(cfg, w, moves[..|moves| - 1], u, k)
    ensures |InFlight(Follow(cfg, w, moves[..|moves| - 1]), u)| <= k
  {
    var front := moves[..|moves| - 1];
    assert forall i :: 0 <= i <= |front| ==> front[..i] == moves[..i];
  }

  /** The world is inside a stretch that began at time `start` with the log `base` long. */
  ghost predicate Inside(cfg: Config, w: World, base: nat, start: Time, u: Uuid, k: nat) {
    && Consistent(cfg, w, base, u) && start <= w.now
    && Sane(BookOf(w, base, u), start, Limit(cfg), k, cfg.lockoutDuration * SECOND)
  }

  lemma StretchBegins(cfg: Config, w: World, u: Uuid, k: nat)
    requires Healthy(cfg, w) && Matches(cfg, w.db.users, w.log, u) && cfg.lockoutDuration > 0
    requires ReadsAreLogged(w)
    requires u in w.db.users && w.db.users[u].failedLoginAttempts == 0
    ensures Inside(cfg, w, |w.log|, w.now, u, k)
  {
    assert w.log[..|w.log|] == w.log;
  }

  lemma BookHasAll(w: World, base: nat, u: Uuid)
    ensures |BookOf(w, base, u).seen| == |InFlight(w, u)|
  {
    assert BookOf(w, base, u).seen.Keys == InFlight(w, u);
  }

  lemma BookStepKeepsSane(b: Book, c: Book, p: nat, start: Time, limit: int, k: nat, lock: int)
    requires Sane(b, start, limit, k, lock) && |b.seen| <= k && start <= b.now
    requires Quiet(b, c) || Hit(limit, lock, b, c, p)
    ensures Sane(c, start, limit, k, lock)
  {
    if Quiet(b, c) {
      QuietKeepsSane(b, c, start, limit, k, lock);
    } else {
      HitKeepsSane(b, c, p, start, limit, k, lock);
    }
  }

  lemma StretchGoesOn(cfg: Config, w: World, move: Move, base: nat, start: Time, u: Uuid, k: nat)
    requires Inside(cfg, w, base, start, u, k) && |InFlight(w, u)| <= k
    requires Next(cfg, w, move).log != w.log ==> Next(cfg, w, move).log[|w.log|].stmt != RecordSuccessfulLogin(u)
    ensures Inside(cfg, Next(cfg, w, move), base, start, u, k)
  {
    StretchStep(cfg, w, move, base, u);
    BookHasAll(w, base, u);
    BookStepKeepsSane(BookOf(w, base, u), BookOf(Next(cfg, w, move), base, u), if move.Run? then move.id else 0,
                      start, Limit(cfg), k, cfg.lockoutDuration * SECOND);
  }

  lemma StretchCounts(cfg: Config, w: World, base: nat, start: Time, u: Uuid, k: nat)
    requires Inside(cfg, w, base, start, u, k) && k >= 1
    ensures base <= |w.log| && Counted(w.log, base, u) <=
      Limit(cfg) + (k - 1) + k * ((w.now - start) / (cfg.lockoutDuration * SECOND))
  {
    CountedAreFailures(w.log, base, u);
    SaneBooksAreShort(BookOf(w, base, u), start, Limit(cfg), k, cfg.lockoutDuration * SECOND);
  }

  lemma StretchIsPrefixClosed(cfg: Config, w: World, moves: seq<Move>, u: Uuid, k: nat)
    requires Healthy(cfg, w) && Stretch(cfg, w, moves, u, k) && moves != []
    ensures
      var front := moves[..|moves| - 1];
      var mid := Follow(cfg, w, front);
      && Stretch(cfg, w, front, u, k) && |InFlight(mid, u)| <= k
      && var after := Follow(cfg, w, moves);
         after.log != mid.log ==> after.log[|mid.log|].stmt != RecordSuccessfulLogin(u)
  {
    var front := moves[..|moves| - 1];
    FewInFlightBefore(cfg, w, moves, u, k);
    InterleavingsStayHealthy(cfg, w, front);
    StepExtendsLog(cfg, Follow(cfg, w, front), moves[|moves| - 1]);
  }

  lemma {:induction false} StretchesStayInside(cfg: Config, w: World, moves: seq<Move>, u: Uuid, k: nat)
    requires Healthy(cfg, w) && Inside(cfg, w, |w.log|, w.now, u, k) && Stretch(cfg, w, moves, u, k)
    ensures Inside(cfg, Follow(cfg, w, moves), |w.log|, w.now, u, k)
  {
    if moves != [] {
      var front, last := moves[..|moves| - 1], moves[|moves| - 1];
      StretchIsPrefixClosed(cfg, w, moves, u, k);
      StretchesStayInside(cfg, w, front, u, k);
      StretchGoesOn(cfg, Follow(cfg, w, front), last, |w.log|, w.now, u, k);
    }
  }

  lemma {:induction false} ReadsStayLogged(cfg: Config, start: Time, moves: seq<Move>)
    ensures ReadsAreLogged(Follow(cfg, Start(start), moves))
  {
    if moves != [] {
      var front := moves[..|moves| - 1];
      ReadsStayLogged(cfg, start, front);
      StartIsHealthy(cfg, start);
      InterleavingsStayHealthy(cfg, Start(start), front);
      SinceStaysBehind(cfg, Follow(cfg, Start(start), front), moves[|moves| - 1]);
    }
  }

  lemma ThroughputFrom(cfg: Config, w: World, moves: seq<Move>, u: Uuid, k: nat)
    requires Healthy(cfg, w) && Matches(cfg, w.db.users, w.log, u) && cfg.lockoutDuration > 0 && k >= 1
    requires ReadsAreLogged(w)
    requires Stretch(cfg, w, moves, u, k)
    ensures
      var after := Follow(cfg, w, moves);
      && |w.log| <= |after.log|
      && Counted(after.log, |w.log|, u) <=
           Limit(cfg) + (k - 1) + k * ((after.now - w.now) / (cfg.lockoutDuration * SECOND))
  {
    StretchBegins(cfg, w, u, k);
    StretchesStayInside(cfg, w, moves, u, k);
    StretchCounts(cfg, Follow(cfg, w, moves), |w.log|, w.now, u, k);
  }

  /** In every interleaving, whatever fails: if at most k logins of a user are under way at
      once, a stretch of length t that starts with a clear counter and holds no successful
      login counts at most limit + (k - 1) + k * floor(t / lock) wrong passwords. */
  lemma LockoutThroughput(cfg: Config, start: Time, before: seq<Move>, w: World, moves: seq<Move>, u: Uuid, k: nat)
    requires cfg.lockoutDuration > 0 && k >= 1
    requires w == Follow(cfg, Start(start), before) && Stretch(cfg, w, moves, u, k)
    ensures
      var after := Follow(cfg, w, moves);
      && |w.log| <= |after.log|
      && Counted(after.log, |w.log|, u) <=
           Limit(cfg) + (k - 1) + k * ((after.now - w.now) / (cfg.lockoutDuration * SECOND))
  {
    StartIsHealthy(cfg, start);
    InterleavingsStayHealthy(cfg, Start(start), before);
    NoFailureIsLost(cfg, start, before, u);
    ReadsStayLogged(cfg, start, before);
    ThroughputFrom(cfg, w, moves, u, k);
  }
}
