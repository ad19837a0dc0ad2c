/** Calls of many clients, interleaved statement by statement.

    No transaction spans a call, so between two statements of one call any number of
    statements of others may run. A world is the tables, the clock, the calls under way and
    the log of write statements applied so far. Decisions are the plans of module Calls. */
module Interleaving {
  import opened Wrappers
  import opened Schema
  import opened Calls

  datatype Phase =
    | Begun
    | Reading(progress: Progress)
    | Writing(writes: seq<Stmt>, reply: Reply)
    | Finished(reply: Reply)

  /** `since` is the length of the log when the call last read. */
  datatype Task = Task(call: Call, phase: Phase, since: nat)

  datatype Entry = Entry(at: Time, stmt: Stmt)

  datatype World = World(db: Db, signed: set<string>, now: Time, tasks: map<nat, Task>, log: seq<Entry>)

  /** How a statement fares: it works, it is lost, or it is applied but reported as failed. */
  datatype Luck = Fine | Lost | Unacknowledged

  datatype Move =
    | Tick(now: Time)
    | Spawn(id: nat, call: Call)
    | Run(id: nat, draw: Draw, luck: Luck)

  const FAILED := Finished(Err(Database))

  function Settled(plan: Plan): Phase {
    if plan.writes == [] then Finished(plan.reply) else Writing(plan.writes, plan.reply)
  }

  function WithPhase(w: World, id: nat, phase: Phase, since: nat): World
    requires id in w.tasks
  {
    var out := if phase.Finished? then HandedOut(phase.reply) else {};
    w.(tasks := w.tasks[id := w.tasks[id].(phase := phase, since := since)], signed := w.signed + out)
  }

  /** The first SELECT, unless the call is settled without one. */
  ghost function AfterBegun(cfg: Config, w: World, call: Call, draw: Draw, luck: Luck): (p: Phase) {
    match BeforeReading(cfg, w.signed, call, w.now, draw)
    case Some(plan) => Settled(plan)
    case None =>
      if luck != Fine then FAILED
      else
        match AfterReading(cfg, w.db, call, w.now, draw)
        case Decided(plan) => Settled(plan)
        case progress => Reading(progress)
  }

  /** The lock check of a login, which reads the clock but no table, or the second SELECT of a
      refresh. */
  function AfterReadingMore(cfg: Config, w: World, progress: Progress, draw: Draw, luck: Luck): (p: Phase) {
    if progress.RefreshRow? && luck != Fine then FAILED
    else Settled(Resume(cfg, w.db, progress, w.now, draw))
  }

  function AfterWrite(writes: seq<Stmt>, reply: Reply, luck: Luck): Phase
    requires writes != []
  {
    if luck != Fine then FAILED
    else if |writes| == 1 then Finished(reply)
    else Writing(writes[1..], reply)
  }

  /** One statement of one call. */
  ghost function RunTask(cfg: Config, w: World, id: nat, draw: Draw, luck: Luck): (after: World)
    requires id in w.tasks
  {
    var task := w.tasks[id];
    match task.phase
    case Begun => WithPhase(w, id, AfterBegun(cfg, w, task.call, draw, luck), |w.log|)
    case Reading(progress) => WithPhase(w, id, AfterReadingMore(cfg, w, progress, draw, luck), task.since)
    case Writing(writes, reply) =>
      if writes == [] || Apply(w.db, w.now, writes[0]).None? || luck == Lost then WithPhase(w, id, FAILED, task.since)
      else
        WithPhase(w.(db := Apply(w.db, w.now, writes[0]).value, log := w.log + [Entry(w.now, writes[0])]),
                  id, AfterWrite(writes, reply, luck), task.since)
    case Finished(_) => w
  }

  /** One step; a move that makes no sense (the clock going back, a task id in use or not in
      use) changes nothing. */
  ghost function Next(cfg: Config, w: World, move: Move): (after: World) {
    match move
    case Tick(now) => if w.now <= now then w.(now := now) else w
    case Spawn(id, call) => if id !in w.tasks then w.(tasks := w.tasks[id := Task(call, Begun, |w.log|)]) else w
    case Run(id, draw, luck) => if id in w.tasks then RunTask(cfg, w, id, draw, luck) else w
  }

  ghost function Follow(cfg: Config, w: World, moves: seq<Move>): (after: World) {
    if moves == [] then w
    else Next(cfg, Follow(cfg, w, moves[..|moves| - 1]), moves[|moves| - 1])
  }

  function Start(now: Time): World {
    World(EMPTY, {}, now, map[], [])
  }

  // ---- What every step keeps ----

  /** A write that some plan contains: counters move by the configured limits and only
      acceptable passwords are stored. */
  predicate Planned(cfg: Config, s: Stmt) {
    && (s.IncrementFailedAttempts? ==> s.max == cfg.maxLoginAttempts && s.lockout == cfg.lockoutDuration)
    && ((s.InsertUser? || s.SetPassword?) ==> Acceptable(cfg, s.password.password))
  }

  predicate Follows(previous: Stmt, s: Stmt) {
    && !s.IncrementFailedAttempts?
    && (s.InsertOneTime? ==> previous == Invalidate(s.purpose, s.user))
  }

  /** The writes still to come are planned; a counted failure only ever comes first, and a
      one-time token is stored right after the user's others were invalidated. */
  ghost predicate WellPlanned(cfg: Config, phase: Phase) {
    && (phase.Writing? ==>
          && phase.writes != []
          && (forall i :: 0 <= i < |phase.writes| ==> Planned(cfg, phase.writes[i]))
          && (forall i :: 1 <= i < |phase.writes| ==> Follows(phase.writes[i - 1], phase.writes[i])))
    && (phase.Reading? ==> !phase.progress.Decided?)
  }

  ghost predicate Healthy(cfg: Config, w: World) {
    && Constraints(w.db)
    && (forall id :: id in w.tasks ==> WellPlanned(cfg, w.tasks[id].phase))
    && (forall u :: u in w.db.users ==> Acceptable(cfg, w.db.users[u].password.password))
  }

  lemma EarlyPlanIsWellPlanned(cfg: Config, w: World, call: Call, draw: Draw)
    ensures
      var p := BeforeReading(cfg, w.signed, call, w.now, draw);
      p.Some? ==> WellPlanned(cfg, Settled(p.value))
  {
  }

  lemma DecidedIsWellPlanned(cfg: Config, w: World, call: Call, draw: Draw)
    requires BeforeReading(cfg, w.signed, call, w.now, draw).None?
    ensures
      var progress := AfterReading(cfg, w.db, call, w.now, draw);
      progress.Decided? ==> WellPlanned(cfg, Settled(progress.plan))
  {
  }

  lemma BegunIsWellPlanned(cfg: Config, w: World, call: Call, draw: Draw, luck: Luck)
    ensures WellPlanned(cfg, AfterBegun(cfg, w, call, draw, luck))
  {
    EarlyPlanIsWellPlanned(cfg, w, call, draw);
    if BeforeReading(cfg, w.signed, call, w.now, draw).None? {
      DecidedIsWellPlanned(cfg, w, call, draw);
    }
  }

  lemma ReadingIsWellPlanned(cfg: Config, w: World, progress: Progress, draw: Draw, luck: Luck)
    requires !progress.Decided?
    ensures WellPlanned(cfg, AfterReadingMore(cfg, w, progress, draw, luck))
  {
  }

  lemma PlannedWriteKeepsPolicy(cfg: Config, db: Db, now: Time, s: Stmt)
    requires forall u :: u in db.users ==> Acceptable(cfg, db.users[u].password.password)
    requires Planned(cfg, s) && Apply(db, now, s).Some?
    ensures
      var users := Apply(db, now, s).value.users;
      forall u :: u in users ==> Acceptable(cfg, users[u].password.password)
  {
  }

  lemma StepKeepsHealth(cfg: Config, w: World, move: Move)
    requires Healthy(cfg, w)
    ensures Healthy(cfg, Next(cfg, w, move)) && Grows(w.db, Next(cfg, w, move).db)
    ensures w.log <= Next(cfg, w, move).log && w.now <= Next(cfg, w, move).now
  {
    GrowsFromItself(w.db);
    if move.Run? && move.id in w.tasks {
      var task := w.tasks[move.id];
      match task.phase
      case Begun => BegunIsWellPlanned(cfg, w, task.call, move.draw, move.luck);
      case Reading(progress) => ReadingIsWellPlanned(cfg, w, progress, move.draw, move.luck);
      case Writing(writes, _) =>
        if Apply(w.db, w.now, writes[0]).Some? {
          StatementKeepsConstraints(w.db, w.now, writes[0]);
          StatementGrows(w.db, w.now, writes[0]);
          PlannedWriteKeepsPolicy(cfg, w.db, w.now, writes[0]);
        }
      case Finished(_) =>
    }
  }

  /** Constraints and password policy hold in every interleaving, and from any point on the
      tables only grow. */
  lemma {:induction false} InterleavingsStayHealthy(cfg: Config, w: World, moves: seq<Move>)
    requires Healthy(cfg, w)
    ensures Healthy(cfg, Follow(cfg, w, moves)) && Grows(w.db, Follow(cfg, w, moves).db)
    ensures w.log <= Follow(cfg, w, moves).log && w.now <= Follow(cfg, w, moves).now
  {
    GrowsFromItself(w.db);
    if moves != [] {
      var front, last := moves[..|moves| - 1], moves[|moves| - 1];
      InterleavingsStayHealthy(cfg, w, front);
      StepKeepsHealth(cfg, Follow(cfg, w, front), last);
      GrowsTransitively(w.db, Follow(cfg, w, front).db, Follow(cfg, w, moves).db);
    }
  }

  lemma StartIsHealthy(cfg: Config, now: Time)
    ensures Healthy(cfg, Start(now))
  {
  }

  lemma SubsetIsSmaller<T>(a: set<T>, b: set<T>)
    requires a <= b
    ensures |a| <= |b|
  {
    assert b == a + (b - a);
  }

  /** The log grows by exactly the write that a step applies. */
  lemma StepExtendsLog(cfg: Config, w: World, move: Move)
    requires Healthy(cfg, w)
    ensures
      var after := Next(cfg, w, move);
      && (after.log == w.log || (|after.log| == |w.log| + 1 && w.log <= after.log && after.log[|w.log|].at == w.now))
      && w.now <= after.now
      && (after.log == w.log ==> after.db == w.db)
      && (after.log != w.log ==>
            && move.Run? && move.id in w.tasks && w.tasks[move.id].phase.Writing?
            && after.log[|w.log|].stmt == w.tasks[move.id].phase.writes[0] && after.now == w.now
            && Apply(w.db, w.now, after.log[|w.log|].stmt) == Some(after.db))
  {
  }

  lemma {:induction false} FollowInTwoParts(cfg: Config, w: World, a: seq<Move>, b: seq<Move>)
    ensures Follow(cfg, w, a + b) == Follow(cfg, Follow(cfg, w, a), b)
  {
    if b == [] {
      assert a + b == a;
    } else {
      var front := b[..|b| - 1];
      FollowInTwoParts(cfg, w, a, front);
      assert (a + b)[..|a + b| - 1] == a + front;
    }
  }
}
