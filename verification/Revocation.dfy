/** Mass revocation is permanent in every interleaving. */
module Revocation {
  import opened Schema
  import opened Calls
  import opened Interleaving

  /** The call is a refresh whose JWT names this row. */
  predicate Presents(cfg: Config, call: Call, id: Uuid) {
    call.RefreshTokens? && Presented(cfg, call.token).Some? && Presented(cfg, call.token).value.0.tid == id
  }

  /** Not yet looked up, or past the look-up and bound to fail without issuing anything. */
  predicate Barred(phase: Phase) {
    match phase
    case Begun => true
    case Reading(_) => false
    case Writing(writes, reply) => reply.Err? && forall i :: 0 <= i < |writes| ==> writes[i].RevokeAll?
    case Finished(reply) => reply.Err?
  }

  predicate RevokedRow(w: World, id: Uuid) {
    id in w.db.refresh && w.db.refresh[id].IsRevoked()
  }

  lemma LookupOfRevokedFails(cfg: Config, w: World, call: Call, id: Uuid, draw: Draw, luck: Luck)
    requires RevokedRow(w, id) && Presents(cfg, call, id)
    ensures Barred(AfterBegun(cfg, w, call, draw, luck))
  {
  }

  /** `t` is barred from the row, if it presents it. */
  predicate KeptOut(cfg: Config, w: World, t: nat, id: Uuid) {
    t in w.tasks && Presents(cfg, w.tasks[t].call, id) ==> Barred(w.tasks[t].phase)
  }

  lemma StepKeepsOut(cfg: Config, w: World, move: Move, t: nat, id: Uuid)
    requires RevokedRow(w, id) && KeptOut(cfg, w, t, id)
    ensures KeptOut(cfg, Next(cfg, w, move), t, id)
  {
    if move.Run? && move.id == t && t in w.tasks && Presents(cfg, w.tasks[t].call, id) && w.tasks[t].phase.Begun? {
      LookupOfRevokedFails(cfg, w, w.tasks[t].call, id, move.draw, move.luck);
    }
  }

  lemma {:induction false} StaysOut(cfg: Config, w: World, moves: seq<Move>, t: nat, id: Uuid)
    requires Healthy(cfg, w) && RevokedRow(w, id) && KeptOut(cfg, w, t, id)
    ensures KeptOut(cfg, Follow(cfg, w, moves), t, id)
    ensures RevokedRow(Follow(cfg, w, moves), id)
    ensures Follow(cfg, w, moves).db.refresh[id].user == w.db.refresh[id].user
    ensures Follow(cfg, w, moves).db.refresh[id].hash == w.db.refresh[id].hash
  {
    InterleavingsStayHealthy(cfg, w, moves);
    if moves != [] {
      var front := moves[..|moves| - 1];
      StaysOut(cfg, w, front, t, id);
      StepKeepsOut(cfg, Follow(cfg, w, front), moves[|moves| - 1], t, id);
    }
  }

  lemma RevokeAllRevokes(cfg: Config, w: World, move: Move, u: Uuid, id: Uuid)
    requires Healthy(cfg, w) && id in w.db.refresh && w.db.refresh[id].user == u
    requires Next(cfg, w, move).log == w.log + [Entry(w.now, Stmt.RevokeAll(u))]
    ensures RevokedRow(Next(cfg, w, move), id)
    ensures Next(cfg, w, move).db.refresh[id].user == u
    ensures Next(cfg, w, move).db.refresh[id].hash == w.db.refresh[id].hash
  {
    var after := Next(cfg, w, move);
    assert after.log[|w.log|] == Entry(w.now, Stmt.RevokeAll(u));
    StepExtendsLog(cfg, w, move);
  }

  /** Take any interleaving, the step in which revoke_all_tokens of u runs, and anything after
      it. A row of u inserted before that step stays revoked, unchanged in owner and hash, and
      no refresh that looks it up after that step ever answers with tokens or inserts a row. */
  lemma MassRevocationIsPermanent(cfg: Config, start: Time, before: seq<Move>, move: Move, later: seq<Move>,
                                  u: Uuid, id: Uuid, t: nat)
    requires
      var w := Follow(cfg, Start(start), before);
      var revoked := Next(cfg, w, move);
      && id in w.db.refresh && w.db.refresh[id].user == u
      && revoked.log == w.log + [Entry(w.now, Stmt.RevokeAll(u))]
      && (t in revoked.tasks ==> revoked.tasks[t].phase.Begun?)
    ensures
      var w := Follow(cfg, Start(start), before);
      var end := Follow(cfg, Next(cfg, w, move), later);
      && RevokedRow(end, id) && end.db.refresh[id].user == u && end.db.refresh[id].hash == w.db.refresh[id].hash
      && KeptOut(cfg, end, t, id)
  {
    var w := Follow(cfg, Start(start), before);
    StartIsHealthy(cfg, start);
    InterleavingsStayHealthy(cfg, Start(start), before);
    RevokeAllRevokes(cfg, w, move, u, id);
    StepKeepsHealth(cfg, w, move);
    StaysOut(cfg, Next(cfg, w, move), later, t, id);
  }
}
