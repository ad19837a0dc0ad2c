/** The two layers agree: a call whose statements nothing interrupts does what `Outcome` says,
    and whatever an uninterrupted call does is the `Outcome` of some request. */
module Uninterrupted {
  import opened Schema
  import opened Calls
  import opened Interleaving

  /** How the index-th statement of a call fares under a fault. */
  function LuckOf(fault: Fault, index: nat): Luck {
    if fault.FaultAt? && fault.index == index then (if fault.applied then Unacknowledged else Lost) else Fine
  }

  function FaultOf(luck: Luck, index: nat): Fault {
    if luck == Fine then NoFault else FaultAt(index, luck == Unacknowledged)
  }

  /** Each write fares as the fault says. */
  predicate Fares(id: nat, moves: seq<Move>, fault: Fault, index: nat) {
    forall i :: 0 <= i < |moves| ==> moves[i].Run? && moves[i].id == id && moves[i].luck == LuckOf(fault, index + i)
  }

  /** The writes of a call, from the index-th statement on. */
  function WriteMoves(id: nat, req: Request, index: nat, count: nat): (moves: seq<Move>)
    ensures |moves| == count && Fares(id, moves, req.fault, index)
    ensures forall i :: 0 <= i < count ==> moves[i].draw == req.draw
  {
    seq(count, i requires i >= 0 => Run(id, req.draw, LuckOf(req.fault, index + i)))
  }

  /** The SELECTs of a call. A call that decides without reading, and the lock check of a login,
      take a move but no statement. */
  ghost function ReadMoves(cfg: Config, w: World, id: nat, req: Request): (moves: seq<Move>)
    ensures forall i :: 0 <= i < |moves| ==> moves[i].Run? && moves[i].id == id && moves[i].draw == req.draw
  {
    var first := Run(id, req.draw, LuckOf(req.fault, 0));
    if BeforeReading(cfg, w.signed, req.call, req.now, req.draw).Some? then [first]
    else
      match AfterReading(cfg, w.db, req.call, req.now, req.draw)
      case Decided(_) => [first]
      case LoginRow(_, _, _) => [first, Run(id, req.draw, Fine)]
      case RefreshRow(_) => [first, Run(id, req.draw, LuckOf(req.fault, 1))]
  }

  /** The moves of a request that nothing interrupts: the call starts and runs its own
      statements, with its draw and its fault, until all of them have been run or one failed. */
  ghost function OwnMoves(cfg: Config, w: World, id: nat, req: Request): (moves: seq<Move>)
    ensures moves != [] && moves[0] == Spawn(id, req.call)
    ensures forall i :: 1 <= i < |moves| ==> moves[i].Run? && moves[i].id == id && moves[i].draw == req.draw
  {
    var plan := PlanOf(cfg, w.db, w.signed, req);
    [Spawn(id, req.call)] + ReadMoves(cfg, w, id, req) + WriteMoves(id, req, plan.selects, |plan.writes|)
  }

  /** The world after the call: its tables and reply, and nobody else's call touched. */
  ghost predicate Completed(w: World, after: World, id: nat, call: Call, db: Db, reply: Reply) {
    && after.db == db && after.now == w.now
    && after.signed == w.signed + HandedOut(reply)
    && id in after.tasks && after.tasks[id].call == call && after.tasks[id].phase == Finished(reply)
    && after.tasks.Keys == w.tasks.Keys + {id}
    && forall t :: t in w.tasks && t != id ==> after.tasks[t] == w.tasks[t]
  }

  lemma OneMove(cfg: Config, w: World, move: Move)
    ensures Follow(cfg, w, [move]) == Next(cfg, w, move)
  {
    assert [move][..0] == [];
  }

  /** Moves of a finished call change nothing. */
  lemma {:induction false} FinishedStays(cfg: Config, w: World, id: nat, moves: seq<Move>)
    requires id in w.tasks && w.tasks[id].phase.Finished?
    requires forall i :: 0 <= i < |moves| ==> moves[i].Run? && moves[i].id == id
    ensures Follow(cfg, w, moves) == w
  {
    if moves != [] {
      FinishedStays(cfg, w, id, moves[..|moves| - 1]);
    }
  }

  /** One step of the call led from w to here, and it is in this phase now. */
  ghost predicate Stepped(w: World, next: World, id: nat, db: Db, phase: Phase) {
    && id in w.tasks && next.tasks.Keys == w.tasks.Keys
    && next.db == db && next.now == w.now
    && next.tasks[id].call == w.tasks[id].call && next.tasks[id].phase == phase
    && next.signed == w.signed + (if phase.Finished? then HandedOut(phase.reply) else {})
    && forall t :: t in w.tasks && t != id ==> next.tasks[t] == w.tasks[t]
  }

  lemma StepThenRest(w: World, next: World, after: World, id: nat, db: Db, phase: Phase, end: Db, reply: Reply)
    requires Stepped(w, next, id, db, phase) && !phase.Finished?
    requires Completed(next, after, id, w.tasks[id].call, end, reply)
    ensures Completed(w, after, id, w.tasks[id].call, end, reply)
  {
  }

  function WrittenDb(w: World, s: Stmt, luck: Luck): Db {
    if Apply(w.db, w.now, s).Some? && luck != Lost then Apply(w.db, w.now, s).value else w.db
  }

  function WrittenPhase(w: World, writes: seq<Stmt>, reply: Reply, luck: Luck): Phase
    requires writes != []
  {
    if Apply(w.db, w.now, writes[0]).Some? then AfterWrite(writes, reply, luck) else FAILED
  }

  /** One write of a call: what it does to the tables, and what becomes of the call. */
  lemma WriteStep(cfg: Config, w: World, id: nat, draw: Draw, luck: Luck)
    requires id in w.tasks && w.tasks[id].phase.Writing? && w.tasks[id].phase.writes != []
    ensures
      var phase := w.tasks[id].phase;
      Stepped(w, Follow(cfg, w, [Run(id, draw, luck)]), id, WrittenDb(w, phase.writes[0], luck),
              WrittenPhase(w, phase.writes, phase.reply, luck))
  {
    OneMove(cfg, w, Run(id, draw, luck));
  }

  /** The first of the remaining writes, and the rest. */
  lemma WritesUnfold(w: World, writes: seq<Stmt>, reply: Reply, fault: Fault, index: nat, luck: Luck)
    requires writes != []
    requires fault == FaultOf(luck, index) || (luck == Fine && (fault.FaultAt? ==> fault.index > index))
    ensures
      var run := RunWrites(w.db, w.now, writes, fault, index);
      var phase := WrittenPhase(w, writes, reply, luck);
      && (phase.Writing? ==>
            phase == Writing(writes[1..], reply) && writes[1..] != []
            && run == RunWrites(WrittenDb(w, writes[0], luck), w.now, writes[1..], fault, index + 1))
      && (!phase.Writing? ==>
            phase == Finished(if run.1 then reply else Err(Database)) && run.0 == WrittenDb(w, writes[0], luck))
  {
  }

  lemma {:induction false} WritesComplete(cfg: Config, w: World, id: nat, moves: seq<Move>, fault: Fault, index: nat)
    requires id in w.tasks && w.tasks[id].phase.Writing? && w.tasks[id].phase.writes != []
    requires |moves| == |w.tasks[id].phase.writes| && Fares(id, moves, fault, index)
    requires fault.FaultAt? ==> fault.index >= index
    ensures
      var phase := w.tasks[id].phase;
      var run := RunWrites(w.db, w.now, phase.writes, fault, index);
      Completed(w, Follow(cfg, w, moves), id, w.tasks[id].call, run.0, if run.1 then phase.reply else Err(Database))
    decreases |moves|
  {
    var phase := w.tasks[id].phase;
    var next := Follow(cfg, w, [moves[0]]);
    assert moves == [moves[0]] + moves[1..];
    FollowInTwoParts(cfg, w, [moves[0]], moves[1..]);
    WriteStep(cfg, w, id, moves[0].draw, moves[0].luck);
    WritesUnfold(w, phase.writes, phase.reply, fault, index, moves[0].luck);
    if next.tasks[id].phase.Writing? {
      WritesComplete(cfg, next, id, moves[1..], fault, index + 1);
      var run := RunWrites(w.db, w.now, phase.writes, fault, index);
      StepThenRest(w, next, Follow(cfg, w, moves), id, next.db, next.tasks[id].phase,
                   run.0, if run.1 then phase.reply else Err(Database));
    } else {
      FinishedStays(cfg, next, id, moves[1..]);
    }
  }

  /** The call has reached a phase and nothing else has happened. */
  ghost predicate Reached(w: World, mid: World, id: nat, call: Call, phase: Phase) {
    && id in mid.tasks && mid.tasks[id].call == call && mid.tasks[id].phase == phase
    && mid.db == w.db && mid.now == w.now
    && mid.signed == w.signed + (if phase.Finished? then HandedOut(phase.reply) else {})
    && mid.tasks.Keys == w.tasks.Keys + {id}
    && forall t :: t in w.tasks && t != id ==> mid.tasks[t] == w.tasks[t]
  }

  /** Where the first step leaves the call. */
  lemma FirstStep(cfg: Config, w: World, id: nat, call: Call, draw: Draw, luck: Luck)
    requires id !in w.tasks
    ensures
      var mid := Follow(cfg, w, [Spawn(id, call), Run(id, draw, luck)]);
      Reached(w, mid, id, call, AfterBegun(cfg, w, call, draw, luck))
  {
    FollowInTwoParts(cfg, w, [Spawn(id, call)], [Run(id, draw, luck)]);
    OneMove(cfg, w, Spawn(id, call));
    OneMove(cfg, Next(cfg, w, Spawn(id, call)), Run(id, draw, luck));
    assert [Spawn(id, call), Run(id, draw, luck)] == [Spawn(id, call)] + [Run(id, draw, luck)];
  }

  lemma SecondStep(cfg: Config, w: World, mid: World, id: nat, call: Call, progress: Progress, draw: Draw, luck: Luck)
    requires Reached(w, mid, id, call, Reading(progress))
    ensures
      var next := Follow(cfg, mid, [Run(id, draw, luck)]);
      Reached(w, next, id, call, AfterReadingMore(cfg, w, progress, draw, luck))
  {
    OneMove(cfg, mid, Run(id, draw, luck));
  }

  /** What the SELECTs of a call lead to. */
  function Decision(plan: Plan, fault: Fault): Phase {
    if fault.FaultAt? && fault.index < plan.selects then FAILED else Settled(plan)
  }

  lemma SecondReadDecides(cfg: Config, w: World, mid: World, id: nat, req: Request)
    requires req.now == w.now && |ReadMoves(cfg, w, id, req)| == 2
    requires Reached(w, mid, id, req.call, AfterBegun(cfg, w, req.call, req.draw, LuckOf(req.fault, 0)))
    ensures
      var end := Follow(cfg, mid, ReadMoves(cfg, w, id, req)[1..]);
      Reached(w, end, id, req.call, Decision(PlanOf(cfg, w.db, w.signed, req), req.fault))
  {
    var move := ReadMoves(cfg, w, id, req)[1];
    assert ReadMoves(cfg, w, id, req)[1..] == [move];
    if LuckOf(req.fault, 0) == Fine {
      SecondStep(cfg, w, mid, id, req.call, AfterReading(cfg, w.db, req.call, req.now, req.draw), move.draw, move.luck);
    } else {
      FinishedStays(cfg, mid, id, [move]);
    }
  }

  /** The plan of a call is settled by its SELECTs, unless one of them fails. */
  lemma ReadsDecide(cfg: Config, w: World, id: nat, req: Request)
    requires id !in w.tasks && req.now == w.now
    ensures
      var mid := Follow(cfg, w, [Spawn(id, req.call)] + ReadMoves(cfg, w, id, req));
      Reached(w, mid, id, req.call, Decision(PlanOf(cfg, w.db, w.signed, req), req.fault))
  {
    var start := [Spawn(id, req.call), Run(id, req.draw, LuckOf(req.fault, 0))];
    var selects := ReadMoves(cfg, w, id, req);
    FirstStep(cfg, w, id, req.call, req.draw, LuckOf(req.fault, 0));
    if |selects| == 1 {
      assert start == [Spawn(id, req.call)] + selects;
    } else {
      assert start + selects[1..] == [Spawn(id, req.call)] + selects;
      FollowInTwoParts(cfg, w, start, selects[1..]);
      SecondReadDecides(cfg, w, Follow(cfg, w, start), id, req);
    }
  }

  /** Once its plan is decided, a call completes it. */
  lemma DecidedCompletes(
    cfg: Config, w: World, mid: World, id: nat, call: Call, plan: Plan, fault: Fault, moves: seq<Move>)
    requires Reached(w, mid, id, call, Decision(plan, fault))
    requires |moves| == |plan.writes| && Fares(id, moves, fault, plan.selects)
    ensures
      var (db, reply) := Complete(w.db, w.now, fault, plan);
      Completed(w, Follow(cfg, mid, moves), id, call, db, reply)
  {
    if mid.tasks[id].phase.Writing? {
      WritesComplete(cfg, mid, id, moves, fault, plan.selects);
    } else {
      FinishedStays(cfg, mid, id, moves);
    }
  }

  /** From any world, a request whose own moves nothing interrupts leaves, under any fault, the
      tables and the reply of `Outcome`, and touches no other call. */
  lemma CallAloneIsOutcome(cfg: Config, w: World, id: nat, req: Request)
    requires id !in w.tasks && req.now == w.now
    ensures
      var (db, reply) := Outcome(cfg, w.db, w.signed, req);
      Completed(w, Follow(cfg, w, OwnMoves(cfg, w, id, req)), id, req.call, db, reply)
  {
    var plan := PlanOf(cfg, w.db, w.signed, req);
    var reading := [Spawn(id, req.call)] + ReadMoves(cfg, w, id, req);
    var writes := WriteMoves(id, req, plan.selects, |plan.writes|);
    var mid := Follow(cfg, w, reading);
    ReadsDecide(cfg, w, id, req);
    FollowInTwoParts(cfg, w, reading, writes);
    DecidedCompletes(cfg, w, mid, id, req.call, plan, req.fault, writes);
  }

  // ---- Conversely ----

  predicate AllOf(id: nat, moves: seq<Move>) {
    forall i :: 0 <= i < |moves| ==> moves[i].Run? && moves[i].id == id
  }

  ghost predicate Finishes(cfg: Config, w: World, moves: seq<Move>, id: nat) {
    id in Follow(cfg, w, moves).tasks && Follow(cfg, w, moves).tasks[id].phase.Finished?
  }

  /** However the writes of a call fare, some fault explains it. */
  lemma {:induction false} WritesHaveFault(cfg: Config, w: World, id: nat, moves: seq<Move>, index: nat)
    returns (fault: Fault)
    requires id in w.tasks && w.tasks[id].phase.Writing? && w.tasks[id].phase.writes != []
    requires AllOf(id, moves) && Finishes(cfg, w, moves, id)
    ensures fault.FaultAt? ==> fault.index >= index
    ensures
      var phase := w.tasks[id].phase;
      var run := RunWrites(w.db, w.now, phase.writes, fault, index);
      Completed(w, Follow(cfg, w, moves), id, w.tasks[id].call, run.0, if run.1 then phase.reply else Err(Database))
    decreases |moves|
  {
    var phase := w.tasks[id].phase;
    var next := Follow(cfg, w, [moves[0]]);
    WriteStep(cfg, w, id, moves[0].draw, moves[0].luck);
    assert moves == [moves[0]] + moves[1..];
    FollowInTwoParts(cfg, w, [moves[0]], moves[1..]);
    if next.tasks[id].phase.Writing? {
      fault := WritesHaveFault(cfg, next, id, moves[1..], index + 1);
      WritesUnfold(w, phase.writes, phase.reply, fault, index, moves[0].luck);
      var run := RunWrites(w.db, w.now, phase.writes, fault, index);
      StepThenRest(w, next, Follow(cfg, w, moves), id, next.db, next.tasks[id].phase,
                   run.0, if run.1 then phase.reply else Err(Database));
    } else {
      FinishedStays(cfg, next, id, moves[1..]);
      fault := FaultOf(moves[0].luck, index);
      WritesUnfold(w, phase.writes, phase.reply, fault, index, moves[0].luck);
    }
  }

  lemma PlanHasFault(cfg: Config, w: World, mid: World, id: nat, call: Call, plan: Plan, moves: seq<Move>)
    returns (fault: Fault)
    requires Reached(w, mid, id, call, Settled(plan))
    requires AllOf(id, moves) && Finishes(cfg, mid, moves, id)
    ensures
      var (db, reply) := Complete(w.db, w.now, fault, plan);
      Completed(w, Follow(cfg, mid, moves), id, call, db, reply)
  {
    if plan.writes == [] {
      FinishedStays(cfg, mid, id, moves);
      fault := NoFault;
    } else {
      fault := WritesHaveFault(cfg, mid, id, moves, plan.selects);
    }
  }

  /** A call that is still reading has used none of its randomness. */
  lemma DrawIsNotRead(cfg: Config, db: Db, signed: set<string>, call: Call, now: Time, a: Draw, b: Draw)
    requires BeforeReading(cfg, signed, call, now, a).None? && !AfterReading(cfg, db, call, now, a).Decided?
    ensures BeforeReading(cfg, signed, call, now, b).None?
    ensures AfterReading(cfg, db, call, now, b) == AfterReading(cfg, db, call, now, a)
  {
  }

  /** A call that is past its first SELECT and still reading. */
  lemma ReaderHasFault(cfg: Config, w: World, mid: World, id: nat, call: Call, draw: Draw, moves: seq<Move>)
    returns (req: Request)
    requires BeforeReading(cfg, w.signed, call, w.now, draw).None?
    requires Reached(w, mid, id, call, Reading(AfterReading(cfg, w.db, call, w.now, draw)))
    requires !AfterReading(cfg, w.db, call, w.now, draw).Decided?
    requires AllOf(id, moves) && Finishes(cfg, mid, moves, id)
    ensures req.call == call && req.now == w.now
    ensures
      var (db, reply) := Outcome(cfg, w.db, w.signed, req);
      Completed(w, Follow(cfg, mid, moves), id, call, db, reply)
  {
    var progress := AfterReading(cfg, w.db, call, w.now, draw);
    var move := moves[0];
    var next := Follow(cfg, mid, [move]);
    req := Request(call, w.now, move.draw, FaultOf(move.luck, 1));
    DrawIsNotRead(cfg, w.db, w.signed, call, w.now, draw, move.draw);
    SecondStep(cfg, w, mid, id, call, progress, move.draw, move.luck);
    assert moves == [move] + moves[1..];
    FollowInTwoParts(cfg, mid, [move], moves[1..]);
    if progress.RefreshRow? && move.luck != Fine {
      FinishedStays(cfg, next, id, moves[1..]);
    } else {
      var fault := PlanHasFault(cfg, w, next, id, call, PlanOf(cfg, w.db, w.signed, req), moves[1..]);
      req := req.(fault := fault);
    }
  }

  /** A call that has run its first move. */
  lemma BegunHasFault(cfg: Config, w: World, mid: World, id: nat, call: Call, draw: Draw, luck: Luck, moves: seq<Move>)
    returns (req: Request)
    requires Reached(w, mid, id, call, AfterBegun(cfg, w, call, draw, luck))
    requires AllOf(id, moves) && Finishes(cfg, mid, moves, id)
    ensures req.call == call && req.now == w.now
    ensures
      var (db, reply) := Outcome(cfg, w.db, w.signed, req);
      Completed(w, Follow(cfg, mid, moves), id, call, db, reply)
  {
    req := Request(call, w.now, draw, NoFault);
    if BeforeReading(cfg, w.signed, call, w.now, draw).None? && luck != Fine {
      req := req.(fault := FaultOf(luck, 0));
      FinishedStays(cfg, mid, id, moves);
    } else if mid.tasks[id].phase.Reading? {
      req := ReaderHasFault(cfg, w, mid, id, call, draw, moves);
    } else {
      var fault := PlanHasFault(cfg, w, mid, id, call, PlanOf(cfg, w.db, w.signed, req), moves);
      req := req.(fault := fault);
    }
  }

  lemma FinishedCallsRan(cfg: Config, w: World, id: nat, call: Call, moves: seq<Move>)
    requires id !in w.tasks && Finishes(cfg, w, [Spawn(id, call)] + moves, id)
    ensures moves != []
  {
    OneMove(cfg, w, Spawn(id, call));
    assert moves == [] ==> [Spawn(id, call)] + moves == [Spawn(id, call)];
  }

  /** However the statements of an uninterrupted call fare, once it is finished it has left the
      tables and the reply that `Outcome` gives for some draw and fault. */
  lemma LoneCallIsSomeOutcome(cfg: Config, w: World, id: nat, call: Call, moves: seq<Move>) returns (req: Request)
    requires id !in w.tasks && AllOf(id, moves) && Finishes(cfg, w, [Spawn(id, call)] + moves, id)
    ensures req.call == call && req.now == w.now
    ensures
      var (db, reply) := Outcome(cfg, w.db, w.signed, req);
      Completed(w, Follow(cfg, w, [Spawn(id, call)] + moves), id, call, db, reply)
  {
    FinishedCallsRan(cfg, w, id, call, moves);
    var move := moves[0];
    var start := [Spawn(id, call), move];
    FirstStep(cfg, w, id, call, move.draw, move.luck);
    assert [Spawn(id, call)] + moves == start + moves[1..];
    FollowInTwoParts(cfg, w, start, moves[1..]);
    req := BegunHasFault(cfg, w, Follow(cfg, w, start), id, call, move.draw, move.luck, moves[1..]);
  }
}
