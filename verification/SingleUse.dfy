/** How often one token can be used when calls overlap.

    A refresh, a password reset and an email verification look their token up in one statement
    and mark it used in a later one. In between, other calls may find the token as well. */
module SingleUse {
  import opened Schema
  import opened Calls
  import opened Interleaving
  import opened Revocation

  /** A refresh token, by the row its JWT names, or a one-time token, by its hash. */
  datatype Token = Session(id: Uuid) | Mailed(purpose: Purpose, hash: string)

  /** The call presents this token. */
  predicate Takes(cfg: Config, call: Call, token: Token) {
    match token
    case Session(id) => Presents(cfg, call, id)
    case Mailed(PasswordReset, hash) => call.ResetPassword? && cfg.lib.hash(call.token) == hash
    case Mailed(EmailVerification, hash) => call.VerifyEmail? && cfg.lib.hash(call.token) == hash
  }

  /** The token has been used: no look-up accepts it any more. */
  ghost predicate Dead(db: Db, token: Token) {
    match token
    case Session(id) => id in db.refresh && db.refresh[id].IsRevoked()
    case Mailed(purpose, hash) =>
      var rows := db.OneTime(purpose);
      exists id :: id in rows && rows[id].hash == hash && rows[id].usedAt.Some?
  }

  /** The statement that marks a presented token used. */
  predicate Uses(s: Stmt) {
    s.RevokeRefresh? || s.MarkUsed?
  }

  predicate UsesThis(db: Db, token: Token, s: Stmt) {
    match token
    case Session(id) => s == RevokeRefresh(id) && id in db.refresh
    case Mailed(purpose, hash) =>
      s.MarkUsed? && s.purpose == purpose && s.id in db.OneTime(purpose) && db.OneTime(purpose)[s.id].hash == hash
  }

  /** The look-up accepted the token, and the call has not failed since. */
  predicate Engaged(phase: Phase) {
    phase.Reading? || ((phase.Writing? || phase.Finished?) && !phase.reply.Err?)
  }

  /** The look-up accepted the token, and the statement that marks it used is still to come. */
  ghost predicate YetToMark(phase: Phase) {
    || phase.Reading?
    || (phase.Writing? && !phase.reply.Err? && exists i :: 0 <= i < |phase.writes| && Uses(phase.writes[i]))
  }

  function Takers(cfg: Config, w: World, token: Token): set<nat> {
    set t | t in w.tasks && Takes(cfg, w.tasks[t].call, token)
  }

  /** The calls between finding the token and marking it used. */
  ghost function Underway(cfg: Config, w: World, token: Token): set<nat> {
    set t | t in Takers(cfg, w, token) && YetToMark(w.tasks[t].phase)
  }

  ghost function AcceptedCalls(cfg: Config, w: World, token: Token): set<nat> {
    set t | t in Takers(cfg, w, token) && Engaged(w.tasks[t].phase)
  }

  /** The calls that the token was good for: they ended with success. */
  function Winners(cfg: Config, w: World, token: Token): set<nat> {
    set t | t in Takers(cfg, w, token) && w.tasks[t].phase.Finished? && !w.tasks[t].phase.reply.Err?
  }

  /** What an accepted call will mark is this token, and once it has, the token is dead. */
  ghost predicate OnTrack(db: Db, token: Token, phase: Phase) {
    && (phase.Reading? ==>
          && token.Session? && phase.progress.RefreshRow? && phase.progress.claims.tid == token.id
          && token.id in db.refresh)
    && (phase.Writing? && !phase.reply.Err? ==>
          forall i :: 0 <= i < |phase.writes| && Uses(phase.writes[i]) ==> UsesThis(db, token, phase.writes[i]))
    && (Engaged(phase) && !YetToMark(phase) ==> Dead(db, token))
  }

  ghost predicate AllOnTrack(cfg: Config, w: World, token: Token) {
    forall t :: t in Takers(cfg, w, token) ==> OnTrack(w.db, token, w.tasks[t].phase)
  }

  // ---- One step ----

  lemma DeadIsFinal(a: Db, b: Db, token: Token)
    requires Grows(a, b) && Dead(a, token)
    ensures Dead(b, token)
  {
    if token.Mailed? {
      var rows := a.OneTime(token.purpose);
      var id :| id in rows && rows[id].hash == token.hash && rows[id].usedAt.Some?;
      assert id in b.OneTime(token.purpose);
    }
  }

  lemma GrowthKeepsTrack(a: Db, b: Db, token: Token, phase: Phase)
    requires Grows(a, b) && OnTrack(a, token, phase)
    ensures OnTrack(b, token, phase)
  {
    if Dead(a, token) {
      DeadIsFinal(a, b, token);
    }
  }

  lemma RefreshLookup(cfg: Config, w: World, call: Call, draw: Draw, luck: Luck, id: Uuid)
    requires Presents(cfg, call, id)
    ensures
      var phase := AfterBegun(cfg, w, call, draw, luck);
      OnTrack(w.db, Session(id), phase) && (Engaged(phase) ==> YetToMark(phase) && !Dead(w.db, Session(id)))
  {
  }

  lemma ResetLookup(cfg: Config, w: World, call: Call, draw: Draw, luck: Luck, hash: string)
    requires Constraints(w.db) && call.ResetPassword? && cfg.lib.hash(call.token) == hash
    ensures
      var token := Mailed(PasswordReset, hash);
      var phase := AfterBegun(cfg, w, call, draw, luck);
      OnTrack(w.db, token, phase) && (Engaged(phase) ==> YetToMark(phase) && !Dead(w.db, token))
  {
    var phase := AfterBegun(cfg, w, call, draw, luck);
    if Engaged(phase) {
      assert Uses(phase.writes[1]);
    }
  }

  lemma VerifyLookup(cfg: Config, w: World, call: Call, draw: Draw, luck: Luck, hash: string)
    requires Constraints(w.db) && call.VerifyEmail? && cfg.lib.hash(call.token) == hash
    ensures
      var token := Mailed(EmailVerification, hash);
      var phase := AfterBegun(cfg, w, call, draw, luck);
      OnTrack(w.db, token, phase) && (Engaged(phase) ==> YetToMark(phase) && !Dead(w.db, token))
  {
    var phase := AfterBegun(cfg, w, call, draw, luck);
    if Engaged(phase) {
      assert Uses(phase.writes[1]);
    }
  }

  /** The look-up accepts a token only while it is not dead. */
  lemma LookupFindsLive(cfg: Config, w: World, call: Call, draw: Draw, luck: Luck, token: Token)
    requires Constraints(w.db) && Takes(cfg, call, token)
    ensures
      var phase := AfterBegun(cfg, w, call, draw, luck);
      OnTrack(w.db, token, phase) && (Engaged(phase) ==> YetToMark(phase) && !Dead(w.db, token))
  {
    if token.Session? {
      RefreshLookup(cfg, w, call, draw, luck, token.id);
    } else if token.purpose.PasswordReset? {
      ResetLookup(cfg, w, call, draw, luck, token.hash);
    } else {
      VerifyLookup(cfg, w, call, draw, luck, token.hash);
    }
  }

  lemma RotationStaysOnTrack(cfg: Config, w: World, progress: Progress, draw: Draw, luck: Luck, token: Token)
    requires OnTrack(w.db, token, Reading(progress))
    ensures OnTrack(w.db, token, AfterReadingMore(cfg, w, progress, draw, luck))
  {
    var phase := AfterReadingMore(cfg, w, progress, draw, luck);
    if Engaged(phase) {
      assert Uses(phase.writes[1]);
    }
  }

  /** Marking the token used makes it dead. */
  lemma UseKills(db: Db, now: Time, s: Stmt, token: Token)
    requires UsesThis(db, token, s) && Apply(db, now, s).Some?
    ensures Dead(Apply(db, now, s).value, token)
  {
    if token.Mailed? {
      var rows := Apply(db, now, s).value.OneTime(token.purpose);
      assert s.id in rows && rows[s.id].hash == token.hash && rows[s.id].usedAt.Some?;
    }
  }

  lemma MarkIsStillToCome(writes: seq<Stmt>, reply: Reply, luck: Luck)
    requires writes != [] && !Uses(writes[0])
    requires YetToMark(Writing(writes, reply)) && Engaged(AfterWrite(writes, reply, luck))
    ensures YetToMark(AfterWrite(writes, reply, luck))
  {
    var i :| 0 <= i < |writes| && Uses(writes[i]);
    assert writes[1..][i - 1] == writes[i];
  }

  lemma WriteStaysOnTrack(db: Db, now: Time, writes: seq<Stmt>, reply: Reply, luck: Luck, token: Token)
    requires writes != [] && OnTrack(db, token, Writing(writes, reply)) && Apply(db, now, writes[0]).Some?
    ensures OnTrack(Apply(db, now, writes[0]).value, token, AfterWrite(writes, reply, luck))
  {
    var phase := AfterWrite(writes, reply, luck);
    StatementGrows(db, now, writes[0]);
    GrowthKeepsTrack(db, Apply(db, now, writes[0]).value, token, Writing(writes, reply));
    if Engaged(phase) {
      if Uses(writes[0]) {
        UseKills(db, now, writes[0], token);
      } else if YetToMark(Writing(writes, reply)) {
        MarkIsStillToCome(writes, reply, luck);
      }
    }
  }

  /** The step of one call that presents the token. */
  lemma OwnStepStaysOnTrack(cfg: Config, w: World, move: Move, token: Token)
    requires Healthy(cfg, w) && move.Run? && move.id in Takers(cfg, w, token)
    requires OnTrack(w.db, token, w.tasks[move.id].phase)
    ensures
      var after := Next(cfg, w, move);
      var phase := after.tasks[move.id].phase;
      && OnTrack(after.db, token, phase)
      && (Engaged(phase) ==> Engaged(w.tasks[move.id].phase) || (after.db == w.db && !Dead(w.db, token)))
  {
    var task := w.tasks[move.id];
    match task.phase
    case Begun => LookupFindsLive(cfg, w, task.call, move.draw, move.luck, token);
    case Reading(progress) => RotationStaysOnTrack(cfg, w, progress, move.draw, move.luck, token);
    case Writing(writes, reply) =>
      if Apply(w.db, w.now, writes[0]).Some? {
        WriteStaysOnTrack(w.db, w.now, writes, reply, move.luck, token);
      }
    case Finished(_) =>
  }

  /** A step touches no call but its own. */
  lemma OthersRest(cfg: Config, w: World, move: Move, t: nat)
    requires t in w.tasks && !(move.Run? && move.id == t)
    ensures t in Next(cfg, w, move).tasks && Next(cfg, w, move).tasks[t] == w.tasks[t]
  {
  }

  lemma TakersAreKnown(cfg: Config, w: World, move: Move, token: Token, t: nat)
    requires t in Takers(cfg, Next(cfg, w, move), token)
    ensures t in Takers(cfg, w, token) || Next(cfg, w, move).tasks[t].phase.Begun?
  {
  }

  /** A step either accepts nobody, or is a look-up of a token that is not dead. */
  lemma StepStaysOnTrack(cfg: Config, w: World, move: Move, token: Token)
    requires Healthy(cfg, w) && AllOnTrack(cfg, w, token)
    ensures
      var after := Next(cfg, w, move);
      && AllOnTrack(cfg, after, token)
      && (AcceptedCalls(cfg, after, token) <= AcceptedCalls(cfg, w, token) || (after.db == w.db && !Dead(w.db, token)))
  {
    var after := Next(cfg, w, move);
    StepKeepsHealth(cfg, w, move);
    forall t | t in Takers(cfg, after, token)
      ensures OnTrack(after.db, token, after.tasks[t].phase)
      ensures t in AcceptedCalls(cfg, after, token) ==>
        t in AcceptedCalls(cfg, w, token) || (after.db == w.db && !Dead(w.db, token))
    {
      TakersAreKnown(cfg, w, move, token, t);
      if t in Takers(cfg, w, token) {
        if move.Run? && move.id == t {
          OwnStepStaysOnTrack(cfg, w, move, token);
        } else {
          OthersRest(cfg, w, move, t);
          GrowthKeepsTrack(w.db, after.db, token, w.tasks[t].phase);
        }
      }
    }
  }

  /** While the token is not dead, every accepted call has yet to mark it. */
  lemma LiveTokenIsUnderway(cfg: Config, w: World, token: Token)
    requires AllOnTrack(cfg, w, token) && !Dead(w.db, token)
    ensures AcceptedCalls(cfg, w, token) <= Underway(cfg, w, token)
  {
  }

  // ---- Theorem ----

  lemma {:induction false} AcceptedAreBounded(cfg: Config, start: Time, moves: seq<Move>, token: Token, k: nat)
    requires forall i :: 0 <= i <= |moves| ==> |Underway(cfg, Follow(cfg, Start(start), moves[..i]), token)| <= k
    ensures
      var w := Follow(cfg, Start(start), moves);
      AllOnTrack(cfg, w, token) && |AcceptedCalls(cfg, w, token)| <= k
  {
    var w := Follow(cfg, Start(start), moves);
    if moves == [] {
      assert AcceptedCalls(cfg, w, token) == {};
    } else {
      var front, last := moves[..|moves| - 1], moves[|moves| - 1];
      var mid := Follow(cfg, Start(start), front);
      assert forall i :: 0 <= i <= |front| ==> front[..i] == moves[..i];
      assert moves[..|moves|] == moves;
      AcceptedAreBounded(cfg, start, front, token, k);
      StartIsHealthy(cfg, start);
      InterleavingsStayHealthy(cfg, Start(start), front);
      StepStaysOnTrack(cfg, mid, last, token);
      if AcceptedCalls(cfg, w, token) <= AcceptedCalls(cfg, mid, token) {
        SubsetIsSmaller(AcceptedCalls(cfg, w, token), AcceptedCalls(cfg, mid, token));
      } else {
        LiveTokenIsUnderway(cfg, w, token);
        SubsetIsSmaller(AcceptedCalls(cfg, w, token), Underway(cfg, w, token));
      }
    }
  }

  /** In every interleaving, whatever fails: if never more than k calls are between finding a
      token and marking it used, the token is good for at most k successful calls. In
      particular, a refresh, reset or verification token whose uses never overlap succeeds at
      most once, however other calls interleave with them. */
  lemma TokensAreUsedAtMost(cfg: Config, start: Time, moves: seq<Move>, token: Token, k: nat)
    requires forall i :: 0 <= i <= |moves| ==> |Underway(cfg, Follow(cfg, Start(start), moves[..i]), token)| <= k
    ensures |Winners(cfg, Follow(cfg, Start(start), moves), token)| <= k
  {
    var w := Follow(cfg, Start(start), moves);
    AcceptedAreBounded(cfg, start, moves, token, k);
    SubsetIsSmaller(Winners(cfg, w, token), AcceptedCalls(cfg, w, token));
  }
}
