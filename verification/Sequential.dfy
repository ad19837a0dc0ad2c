/** Every run of calls one at a time is an interleaving: the two layers start alike and stay
    alike. */
module Sequential {
  import opened Schema
  import opened Calls
  import opened Runs
  import opened Families
  import opened Interleaving
  import opened Uninterrupted

  ghost predicate InTimeOrder(start: Time, run: seq<Request>) {
    && (run != [] ==> start <= run[0].now)
    && forall i :: 1 <= i < |run| ==> run[i - 1].now <= run[i].now
  }

  function LastTime(start: Time, run: seq<Request>): Time {
    if run == [] then start else run[|run| - 1].now
  }

  lemma OneMoreSigned(mints: seq<Mint>, m: Mint)
    ensures Signed(mints + [m]) == Signed(mints) + {m.jwt}
  {
    forall jwt | jwt in Signed(mints) + {m.jwt}
      ensures jwt in Signed(mints + [m])
    {
      if jwt != m.jwt {
        var n :| n in mints && n.jwt == jwt;
        assert n in mints + [m];
      } else {
        assert (mints + [m])[|mints|] == m;
      }
    }
  }

  /** What a reply hands out is what the history records. */
  lemma HandedOutIsRecorded(cfg: Config, sys: System, req: Request)
    requires cfg.lib.Faithful()
    ensures Signed(Step(cfg, sys, req).mints) == Signed(sys.mints) + HandedOut(Answer(cfg, sys, req).1)
  {
    var reply := Answer(cfg, sys, req).1;
    if reply.Tokens? {
      var m := NewMint(cfg, sys, req, reply.access.sub);
      ExchangeIsStored(cfg, sys, req);
      OneMoreSigned(sys.mints, m);
      assert Recorded(cfg, sys.mints, req.call, reply)[|sys.mints|] == m;
    }
  }

  /** The i-th call of the run is the i-th call of the world, finished with the same reply. */
  ghost predicate SameReply(cfg: Config, run: seq<Request>, w: World, i: nat)
    requires i < |run|
  {
    i in w.tasks && w.tasks[i].call == run[i].call && w.tasks[i].phase == Finished(AnswerAt(cfg, run, i).1)
  }

  /** The world shows what the run shows: tables, handed-out JWTs, clock and replies. */
  ghost predicate Mirrors(cfg: Config, start: Time, run: seq<Request>, w: World) {
    && w.db == Replay(cfg, run).db
    && w.signed == Signed(Replay(cfg, run).mints)
    && w.now == LastTime(start, run)
    && (forall t :: t in w.tasks ==> t < |run|)
    && (forall i :: 0 <= i < |run| ==> SameReply(cfg, run, w, i))
  }

  lemma TickThenCall(cfg: Config, w: World, id: nat, req: Request)
    requires id !in w.tasks && w.now <= req.now
    ensures
      var (db, reply) := Outcome(cfg, w.db, w.signed, req);
      var ticked := w.(now := req.now);
      Completed(ticked, Follow(cfg, w, [Tick(req.now)] + OwnMoves(cfg, ticked, id, req)), id, req.call, db, reply)
  {
    var ticked := w.(now := req.now);
    OneMove(cfg, w, Tick(req.now));
    FollowInTwoParts(cfg, w, [Tick(req.now)], OwnMoves(cfg, ticked, id, req));
    CallAloneIsOutcome(cfg, ticked, id, req);
  }

  lemma MirrorsAfterCall(cfg: Config, start: Time, run: seq<Request>, w: World, after: World)
    requires cfg.lib.Faithful() && run != []
    requires Mirrors(cfg, start, run[..|run| - 1], w)
    requires
      var last := run[|run| - 1];
      var (db, reply) := Outcome(cfg, w.db, w.signed, last);
      Completed(w.(now := last.now), after, |run| - 1, last.call, db, reply)
    ensures Mirrors(cfg, start, run, after)
  {
    var front, last := run[..|run| - 1], run[|run| - 1];
    HandedOutIsRecorded(cfg, Replay(cfg, front), last);
    forall i | 0 <= i < |run|
      ensures SameReply(cfg, run, after, i)
    {
      if i < |front| {
        assert front[..i] == run[..i];
        assert SameReply(cfg, front, w, i);
      }
    }
  }

  /** Every run whose clock does not go back, whatever fails in it, is an interleaving: some moves
      lead to the same tables, the same handed-out JWTs and the same replies. */
  lemma {:induction false} RunsAreInterleavings(cfg: Config, start: Time, run: seq<Request>) returns (moves: seq<Move>)
    requires cfg.lib.Faithful() && InTimeOrder(start, run)
    ensures Mirrors(cfg, start, run, Follow(cfg, Start(start), moves))
  {
    if run == [] {
      moves := [];
    } else {
      var front, last := run[..|run| - 1], run[|run| - 1];
      var before := RunsAreInterleavings(cfg, start, front);
      var w := Follow(cfg, Start(start), before);
      assert w.now <= last.now by { assert front != [] ==> front[|front| - 1] == run[|run| - 2]; }
      var own := [Tick(last.now)] + OwnMoves(cfg, w.(now := last.now), |front|, last);
      TickThenCall(cfg, w, |front|, last);
      moves := before + own;
      FollowInTwoParts(cfg, Start(start), before, own);
      MirrorsAfterCall(cfg, start, run, w, Follow(cfg, Start(start), moves));
    }
  }
}
