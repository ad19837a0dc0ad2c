/** How many unused one-time tokens of a user an interleaving can pile up. */
module PendingTokens {
  import opened Wrappers
  import opened Schema
  import opened Calls
  import opened Interleaving

  function UnusedOf(rows: OneTimeTokens, u: Uuid): set<Uuid> {
    set id | id in rows && rows[id].user == u && rows[id].usedAt.None?
  }

  predicate IsStoring(phase: Phase, purpose: Purpose, u: Uuid) {
    phase.Writing? && phase.writes != [] && phase.writes[0].InsertOneTime?
    && phase.writes[0].purpose == purpose && phase.writes[0].user == u
  }

  /** The calls between their invalidation and their insertion for u. */
  function Storing(w: World, purpose: Purpose, u: Uuid): set<nat> {
    set t | t in w.tasks && IsStoring(w.tasks[t].phase, purpose, u)
  }

  ghost predicate Within(w: World, purpose: Purpose, u: Uuid, k: nat) {
    |UnusedOf(w.db.OneTime(purpose), u)| + |Storing(w, purpose, u)| <= k
  }

  lemma PlansNeverStartStoring(cfg: Config, w: World, call: Call, draw: Draw, luck: Luck, purpose: Purpose, u: Uuid)
    ensures !IsStoring(AfterBegun(cfg, w, call, draw, luck), purpose, u)
  {
  }

  lemma ReadersNeverStartStoring(
    cfg: Config, w: World, progress: Progress, draw: Draw, luck: Luck, purpose: Purpose, u: Uuid)
    requires !progress.Decided?
    ensures !IsStoring(AfterReadingMore(cfg, w, progress, draw, luck), purpose, u)
  {
  }

  /** The write that a step applies, if any. */
  function Applied(w: World, move: Move): (s: Option<Stmt>) {
    if move.Run? && move.id in w.tasks && w.tasks[move.id].phase.Writing? && w.tasks[move.id].phase.writes != []
       && move.luck != Lost && Accepted(w.db, w.tasks[move.id].phase.writes[0])
    then Some(w.tasks[move.id].phase.writes[0])
    else None
  }

  lemma StepAppliesWrite(cfg: Config, w: World, move: Move)
    requires Healthy(cfg, w)
    ensures Next(cfg, w, move).db ==
      if Applied(w, move).Some? then Apply(w.db, w.now, Applied(w, move).value).value else w.db
  {
  }

  /** Only an invalidation turns a call into one that stores, and storing ends it. */
  lemma StorersComeFromInvalidation(cfg: Config, w: World, move: Move, purpose: Purpose, u: Uuid)
    requires Healthy(cfg, w)
    ensures
      var after := Next(cfg, w, move);
      var s := Applied(w, move);
      && (s != Some(Invalidate(purpose, u)) ==> Storing(after, purpose, u) <= Storing(w, purpose, u))
      && (s.Some? && s.value.InsertOneTime? && s.value.purpose == purpose && s.value.user == u ==>
            move.id in Storing(w, purpose, u) && Storing(after, purpose, u) <= Storing(w, purpose, u) - {move.id})
  {
    if move.Run? && move.id in w.tasks {
      var task := w.tasks[move.id];
      match task.phase
      case Begun => PlansNeverStartStoring(cfg, w, task.call, move.draw, move.luck, purpose, u);
      case Reading(progress) => ReadersNeverStartStoring(cfg, w, progress, move.draw, move.luck, purpose, u);
      case Writing(writes, _) =>
        assert |writes| > 1 ==> Follows(writes[0], writes[1]);
      case Finished(_) =>
    }
  }

  lemma WriteBoundsUnused(db: Db, now: Time, s: Stmt, purpose: Purpose, u: Uuid)
    requires Apply(db, now, s).Some?
    ensures
      var before, after := UnusedOf(db.OneTime(purpose), u), UnusedOf(Apply(db, now, s).value.OneTime(purpose), u);
      && (s == Invalidate(purpose, u) ==> after == {})
      && (if s.InsertOneTime? && s.purpose == purpose && s.user == u then after == before + {s.id} else after <= before)
  {
  }

  lemma Arithmetic(before: set<Uuid>, after: set<Uuid>, storing: set<nat>, still: set<nat>,
                   invalidated: bool, stored: bool, id: Uuid, t: nat, k: nat)
    requires |before| + |storing| <= k && |still| <= k
    requires invalidated ==> after == {}
    requires !invalidated ==> still <= storing
    requires if stored then after == before + {id} && t in storing && still <= storing - {t} else after <= before
    ensures |after| + |still| <= k
  {
    if stored {
      SubsetIsSmaller(still, storing - {t});
    } else if !invalidated {
      SubsetIsSmaller(still, storing);
      SubsetIsSmaller(after, before);
    }
  }

  lemma StepStaysWithin(cfg: Config, w: World, move: Move, purpose: Purpose, u: Uuid, k: nat)
    requires Healthy(cfg, w) && Within(w, purpose, u, k)
    requires |Storing(Next(cfg, w, move), purpose, u)| <= k
    ensures Within(Next(cfg, w, move), purpose, u, k)
  {
    var after := Next(cfg, w, move);
    var s := Applied(w, move);
    StepAppliesWrite(cfg, w, move);
    StorersComeFromInvalidation(cfg, w, move, purpose, u);
    if s.Some? {
      WriteBoundsUnused(w.db, w.now, s.value, purpose, u);
    }
    Arithmetic(UnusedOf(w.db.OneTime(purpose), u), UnusedOf(after.db.OneTime(purpose), u),
               Storing(w, purpose, u), Storing(after, purpose, u),
               s == Some(Invalidate(purpose, u)),
               s.Some? && s.value.InsertOneTime? && s.value.purpose == purpose && s.value.user == u,
               if s.Some? && s.value.InsertOneTime? then s.value.id else 0, if move.Run? then move.id else 0, k);
  }

  /** In every interleaving, whatever fails: if never more than k calls are between invalidating
      and storing for u, then u never has more than k unused tokens; counting the calls that are
      about to store, never more than k. */
  lemma {:induction false} UnusedTokensAreBounded(
    cfg: Config, start: Time, moves: seq<Move>, purpose: Purpose, u: Uuid, k: nat)
    requires forall i :: 0 <= i <= |moves| ==> |Storing(Follow(cfg, Start(start), moves[..i]), purpose, u)| <= k
    ensures Within(Follow(cfg, Start(start), moves), purpose, u, k)
  {
    StartIsHealthy(cfg, start);
    if moves == [] {
      assert UnusedOf(Start(start).db.OneTime(purpose), u) == {};
      assert Storing(Start(start), purpose, u) == {};
    } else {
      var front := moves[..|moves| - 1];
      assert forall i :: 0 <= i <= |front| ==> front[..i] == moves[..i];
      UnusedTokensAreBounded(cfg, start, front, purpose, u, k);
      InterleavingsStayHealthy(cfg, Start(start), front);
      assert moves[..|moves|] == moves;
      StepStaysWithin(cfg, Follow(cfg, Start(start), front), moves[|moves| - 1], purpose, u, k);
    }
  }
}
