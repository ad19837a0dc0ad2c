/** How long tokens last: exactly as long as the configuration says, over every run. */
module Lifetimes {
  import opened Wrappers
  import opened TokenText
  import opened Schema
  import opened Calls
  import opened Runs
  import Operations

  /** Whoever gets tokens, by login or by refresh and whatever fails: the new row expires one
      refresh lifetime from now, the refresh JWT says so in whole seconds, and the access token
      runs out one access lifetime from now. */
  lemma TokensLastAsConfigured(cfg: Config, db: Db, signed: set<string>, req: Request)
    requires cfg.lib.Faithful() && Outcome(cfg, db, signed, req).1.Tokens?
    ensures
      var (after, reply) := Outcome(cfg, db, signed, req);
      var (u, id) := (reply.access.sub, req.draw.id);
      var expiry := req.now + cfg.refreshTokenExpiration * SECOND;
      && id !in db.refresh && id in after.refresh && after.refresh[id].user == u
      && after.refresh[id].expiresAt == expiry && after.refresh[id].revokedAt == None
      && Presented(cfg, reply.refresh) ==
           Some((Claims(u, id, Seconds(req.now), Seconds(expiry)), HexEncode(req.draw.bytes)))
      && after.refresh[id].hash == cfg.lib.hash(HexEncode(req.draw.bytes))
      && reply.access.iat == Seconds(req.now)
      && reply.access.exp == Seconds(req.now + cfg.accessTokenExpiration * SECOND)
  {
    TokensMeanExchange(cfg, db, signed, req);
    var u := Outcome(cfg, db, signed, req).1.access.sub;
    TokenSplits(cfg.lib.encode(RefreshClaims(cfg, u, req.now, req.draw)), req.draw.bytes);
  }

  /** The row of a token that this request was given. */
  ghost predicate Backed(cfg: Config, rows: RefreshTokens, req: Request) {
    && req.draw.id in rows
    && rows[req.draw.id].expiresAt == req.now + cfg.refreshTokenExpiration * SECOND
    && rows[req.draw.id].hash == cfg.lib.hash(HexEncode(req.draw.bytes))
  }

  lemma IssuedTokenIsBacked(cfg: Config, run: seq<Request>, k: nat)
    requires cfg.lib.Faithful() && k < |run| && AnswerAt(cfg, run, k).1.Tokens?
    ensures
      var reply := AnswerAt(cfg, run, k).1;
      var expiry := run[k].now + cfg.refreshTokenExpiration * SECOND;
      var claims := Claims(reply.access.sub, run[k].draw.id, Seconds(run[k].now), Seconds(expiry));
      && Presented(cfg, reply.refresh) == Some((claims, HexEncode(run[k].draw.bytes)))
      && Backed(cfg, Replay(cfg, run[..k + 1]).db.refresh, run[k])
  {
    var before := Replay(cfg, run[..k]);
    TokensLastAsConfigured(cfg, before.db, Signed(before.mints), run[k]);
    assert run[..k + 1][..k] == run[..k];
  }

  /** The row is still there at the end of the run. */
  lemma IssuedTokenRemains(cfg: Config, run: seq<Request>, k: nat)
    requires cfg.lib.Faithful() && k < |run| && AnswerAt(cfg, run, k).1.Tokens?
    ensures Backed(cfg, Replay(cfg, run).db.refresh, run[k])
  {
    IssuedTokenIsBacked(cfg, run, k);
    RunsGrow(cfg, run, k + 1);
  }

  lemma {:induction false} MintsGrow(cfg: Config, run: seq<Request>, i: nat)
    requires i <= |run|
    ensures Replay(cfg, run[..i]).mints <= Replay(cfg, run).mints
    decreases |run|
  {
    if i == |run| {
      assert run[..i] == run;
    } else {
      MintsGrow(cfg, run[..|run| - 1], i);
      assert run[..|run| - 1][..i] == run[..i];
    }
  }

  lemma IssuedTokenIsSigned(cfg: Config, run: seq<Request>, k: nat)
    requires cfg.lib.Faithful() && k < |run| && AnswerAt(cfg, run, k).1.Tokens?
    ensures SplitAtLastDot(AnswerAt(cfg, run, k).1.refresh).Some?
    ensures SplitAtLastDot(AnswerAt(cfg, run, k).1.refresh).value.0 in Signed(Replay(cfg, run).mints)
  {
    var before := Replay(cfg, run[..k]);
    var now := Replay(cfg, run[..k + 1]);
    assert run[..k + 1][..k] == run[..k];
    TokensLastAsConfigured(cfg, before.db, Signed(before.mints), run[k]);
    MintsGrow(cfg, run, k + 1);
    assert now.mints[|before.mints|].jwt == SplitAtLastDot(AnswerAt(cfg, run, k).1.refresh).value.0;
    assert now.mints[|before.mints|] in Replay(cfg, run).mints;
  }

  lemma RefreshesAnswerTokensOrFail(cfg: Config, db: Db, signed: set<string>, req: Request)
    requires req.call.RefreshTokens?
    ensures Outcome(cfg, db, signed, req).1.Tokens? || Outcome(cfg, db, signed, req).1.Err?
  {
  }

  /** A refresh token presented more than its lifetime after it was handed out is refused,
      whatever happened and whatever fails. */
  lemma TokensExpire(cfg: Config, run: seq<Request>, k: nat, req: Request)
    requires cfg.lib.Faithful() && k < |run| && AnswerAt(cfg, run, k).1.Tokens?
    requires req.call == Call.RefreshTokens(AnswerAt(cfg, run, k).1.refresh)
    requires req.now > run[k].now + cfg.refreshTokenExpiration * SECOND
    ensures Answer(cfg, Replay(cfg, run), req).1.Err?
  {
    IssuedTokenIsBacked(cfg, run, k);
    IssuedTokenRemains(cfg, run, k);
    var sys := Replay(cfg, run);
    if Answer(cfg, sys, req).1.Tokens? {
      TokensMeanExchange(cfg, sys.db, Signed(sys.mints), req);
    }
    RefreshesAnswerTokensOrFail(cfg, sys.db, Signed(sys.mints), req);
  }

  /** Up to that moment it is exchanged, however long ago the access token ran out: provided its
      row is not revoked, its user is active and not locked, no statement fails, and the drawn id
      and hash are new. */
  lemma TokensLast(cfg: Config, run: seq<Request>, k: nat, req: Request)
    requires cfg.lib.Faithful() && k < |run| && AnswerAt(cfg, run, k).1.Tokens?
    requires req.call == Call.RefreshTokens(AnswerAt(cfg, run, k).1.refresh) && req.fault == NoFault
    requires req.now <= run[k].now + cfg.refreshTokenExpiration * SECOND
    requires
      var db, u := Replay(cfg, run).db, AnswerAt(cfg, run, k).1.access.sub;
      && (run[k].draw.id in db.refresh ==> db.refresh[run[k].draw.id].revokedAt == None)
      && u in db.users && db.users[u].status == Active && !Operations.Locked(db.users[u], req.now)
      && Operations.FreshSession(cfg, db.refresh, req.draw)
    ensures
      var reply := Answer(cfg, Replay(cfg, run), req).1;
      reply.Tokens? && reply.access.sub == AnswerAt(cfg, run, k).1.access.sub
  {
    IssuedTokenIsBacked(cfg, run, k);
    IssuedTokenRemains(cfg, run, k);
    IssuedTokenIsSigned(cfg, run, k);
    var sys := Replay(cfg, run);
    var (jwt, secret) := SplitAtLastDot(req.call.token).value;
    JoinSplit(req.call.token);
    HexHasNoDot(run[k].draw.bytes);
    Operations.RefreshAccepted(cfg, sys.db, Signed(sys.mints), req, jwt, secret);
  }
}
