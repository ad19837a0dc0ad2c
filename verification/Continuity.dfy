/** A session that is refreshed in time goes on for any number of rounds. */
module Continuity {
  import opened TokenText
  import opened Schema
  import opened Calls
  import opened Runs
  import opened Families

  ghost function From(cfg: Config, sys: System, requests: seq<Request>): System {
    if requests == [] then sys
    else Step(cfg, From(cfg, sys, requests[..|requests| - 1]), requests[|requests| - 1])
  }

  /** The client's newest tokens: the refresh token names a row that matches it and outlives
      the access token issued with it. */
  ghost predicate Ready(cfg: Config, sys: System, token: string, access: AccessClaims) {
    && Constraints(sys.db)
    && Presented(cfg, token).Some?
    && SplitAtLastDot(token).value.0 in Signed(sys.mints)
    && var (claims, secret) := Presented(cfg, token).value;
    && claims.sub == access.sub
    && claims.exp >= access.exp
    && claims.tid in sys.db.refresh
    && sys.db.refresh[claims.tid].hash == cfg.lib.hash(secret)
    && sys.db.refresh[claims.tid].expiresAt >= (access.exp + 1) * SECOND
  }

  /** One round: requests of anyone, then the client's refresh. */
  datatype Round = Round(others: seq<Request>, now: Time, draw: Draw)

  function RefreshRequest(token: string, round: Round): Request {
    Request(Call.RefreshTokens(token), round.now, round.draw, NoFault)
  }

  /** The refresh comes before the access token expires, nobody revoked the row, the user is
      active and not locked, and the new row can be inserted. */
  ghost predicate Undisturbed(cfg: Config, sys: System, token: string, access: AccessClaims, round: Round) {
    && Seconds(round.now) <= access.exp
    && Presented(cfg, token).Some?
    && var tid := Presented(cfg, token).value.0.tid;
    && tid in sys.db.refresh && !sys.db.refresh[tid].IsRevoked()
    && access.sub in sys.db.users && sys.db.users[access.sub].CanLogin(round.now)
    && round.draw.id !in sys.db.refresh
    && !RefreshHashTaken(sys.db.refresh, cfg.lib.hash(HexEncode(round.draw.bytes)))
  }

  ghost predicate Favourable(cfg: Config, sys: System, token: string, access: AccessClaims, rounds: seq<Round>)
    decreases |rounds|
  {
    rounds == [] ||
    var mid := From(cfg, sys, rounds[0].others);
    var req := RefreshRequest(token, rounds[0]);
    var reply := Answer(cfg, mid, req).1;
    && Undisturbed(cfg, mid, token, access, rounds[0])
    && (reply.Tokens? ==> Favourable(cfg, Step(cfg, mid, req), reply.refresh, reply.access, rounds[1..]))
  }

  ghost predicate EveryRefreshSucceeds(
    cfg: Config, sys: System, token: string, access: AccessClaims, rounds: seq<Round>)
    decreases |rounds|
  {
    rounds == [] ||
    var mid := From(cfg, sys, rounds[0].others);
    var req := RefreshRequest(token, rounds[0]);
    var reply := Answer(cfg, mid, req).1;
    && reply.Tokens? && reply.access.sub == access.sub
    && EveryRefreshSucceeds(cfg, Step(cfg, mid, req), reply.refresh, reply.access, rounds[1..])
  }

  lemma MoreAreSigned(cfg: Config, sys: System, req: Request)
    ensures Signed(sys.mints) <= Signed(Step(cfg, sys, req).mints)
  {
  }

  lemma {:induction false} OthersKeepReady(
    cfg: Config, sys: System, token: string, access: AccessClaims, others: seq<Request>)
    requires Ready(cfg, sys, token, access)
    ensures Ready(cfg, From(cfg, sys, others), token, access)
  {
    if others != [] {
      var mid, last := From(cfg, sys, others[..|others| - 1]), others[|others| - 1];
      OthersKeepReady(cfg, sys, token, access, others[..|others| - 1]);
      CallKeeps(cfg, mid.db, Signed(mid.mints), last);
      MoreAreSigned(cfg, mid, last);
    }
  }

  lemma RefreshOutlivesAccess(now: Time, access: int, refresh: int)
    requires access < refresh
    ensures now + refresh * SECOND >= (Seconds(now + access * SECOND) + 1) * SECOND
    ensures Seconds(now + refresh * SECOND) >= Seconds(now + access * SECOND)
  {
  }

  /** Whoever is issued tokens is ready to refresh; this is where a valid configuration counts. */
  lemma IssueIsReady(cfg: Config, sys: System, req: Request)
    requires cfg.lib.Faithful() && Validate(cfg).None? && Constraints(sys.db)
    requires Answer(cfg, sys, req).1.Tokens?
    ensures
      var reply := Answer(cfg, sys, req).1;
      Ready(cfg, Step(cfg, sys, req), reply.refresh, reply.access)
  {
    var (after, reply) := Answer(cfg, sys, req);
    var u := reply.access.sub;
    var m := NewMint(cfg, sys, req, u);
    CallKeeps(cfg, sys.db, Signed(sys.mints), req);
    TokensMeanExchange(cfg, sys.db, Signed(sys.mints), req);
    ExchangeIsStored(cfg, sys, req);
    TokenSplits(m.jwt, req.draw.bytes);
    assert (sys.mints + [m])[|sys.mints|] == m;
    assert after.refresh[req.draw.id].expiresAt == RefreshExpiry(cfg, req.now);
    RefreshOutlivesAccess(req.now, cfg.accessTokenExpiration, cfg.refreshTokenExpiration);
  }

  lemma ReadyRefreshes(cfg: Config, sys: System, token: string, access: AccessClaims, round: Round)
    requires Ready(cfg, sys, token, access) && Undisturbed(cfg, sys, token, access, round)
    ensures
      var reply := Answer(cfg, sys, RefreshRequest(token, round)).1;
      reply.Tokens? && reply.access.sub == access.sub
  {
    var req := RefreshRequest(token, round);
    var claims := Presented(cfg, token).value.0;
    assert InTime(claims, round.now);
    assert sys.db.refresh[claims.tid].IsValid(round.now);
    var plan := PlanOf(cfg, sys.db, Signed(sys.mints), req);
    assert plan == RotationPlan(cfg, sys.db, claims, round.now, round.draw);
    TwoWrites(sys.db, round.now, plan.writes, 2);
  }

  lemma {:induction false} ReadySessionsGoOn(
    cfg: Config, sys: System, token: string, access: AccessClaims, rounds: seq<Round>)
    requires cfg.lib.Faithful() && Validate(cfg).None?
    requires Ready(cfg, sys, token, access) && Favourable(cfg, sys, token, access, rounds)
    ensures EveryRefreshSucceeds(cfg, sys, token, access, rounds)
    decreases |rounds|
  {
    if rounds != [] {
      var mid := From(cfg, sys, rounds[0].others);
      var req := RefreshRequest(token, rounds[0]);
      OthersKeepReady(cfg, sys, token, access, rounds[0].others);
      ReadyRefreshes(cfg, mid, token, access, rounds[0]);
      var reply := Answer(cfg, mid, req).1;
      IssueIsReady(cfg, mid, req);
      ReadySessionsGoOn(cfg, Step(cfg, mid, req), reply.refresh, reply.access, rounds[1..]);
    }
  }

  /** After a successful login under a valid configuration, a client that refreshes with its
      newest token before each access token expires succeeds in every round, whatever calls of
      others come between, as long as the rounds are favourable. */
  lemma SessionsContinue(cfg: Config, run: seq<Request>, login: Request, rounds: seq<Round>)
    requires cfg.lib.Faithful() && Validate(cfg).None?
    requires login.call.Login? && Answer(cfg, Replay(cfg, run), login).1.Tokens?
    requires
      var sys := Replay(cfg, run);
      var reply := Answer(cfg, sys, login).1;
      Favourable(cfg, Step(cfg, sys, login), reply.refresh, reply.access, rounds)
    ensures
      var sys := Replay(cfg, run);
      var reply := Answer(cfg, sys, login).1;
      EveryRefreshSucceeds(cfg, Step(cfg, sys, login), reply.refresh, reply.access, rounds)
  {
    var sys := Replay(cfg, run);
    var reply := Answer(cfg, sys, login).1;
    RunsKeepConstraints(cfg, run);
    IssueIsReady(cfg, sys, login);
    ReadySessionsGoOn(cfg, Step(cfg, sys, login), reply.refresh, reply.access, rounds);
  }
}
