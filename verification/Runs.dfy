/** Runs of the service: sequences of calls, one at a time, from empty tables.

    A run keeps the tables and, as history, the refresh tokens that clients were given, in
    order, each with the token it was exchanged for. Any statement of any call may fail. */
module Runs {
  import opened Wrappers
  import opened TokenText
  import opened Schema
  import opened Calls

  /** A refresh token that reached a client; `from` is the token presented to get it. */
  datatype Mint = Mint(jwt: string, secret: string, claims: Claims, from: Option<nat>)

  datatype System = System(db: Db, mints: seq<Mint>)

  function Signed(mints: seq<Mint>): set<string> {
    set m | m in mints :: m.jwt
  }

  /** The position of the mint with this JWT, if there is one. */
  function IndexOf(mints: seq<Mint>, jwt: string): (i: Option<nat>)
    ensures i.Some? ==> i.value < |mints| && mints[i.value].jwt == jwt
    ensures i.None? ==> jwt !in Signed(mints)
  {
    if mints == [] then None
    else
      var n := |mints| - 1;
      if mints[n].jwt == jwt then Some(n) else IndexOf(mints[..n], jwt)
  }

  function PresentedMint(mints: seq<Mint>, call: Call): (i: Option<nat>)
    ensures i.Some? ==> i.value < |mints|
  {
    if call.RefreshTokens? && SplitAtLastDot(call.token).Some? then
      IndexOf(mints, SplitAtLastDot(call.token).value.0)
    else None
  }

  /** The history after a reply; what is recorded comes from the call and the reply alone. */
  function Recorded(cfg: Config, mints: seq<Mint>, call: Call, reply: Reply): (after: seq<Mint>)
    ensures mints <= after
  {
    if !reply.Tokens? then mints
    else
      match SplitAtLastDot(reply.refresh)
      case None => mints
      case Some((jwt, secret)) =>
        match cfg.lib.decode(jwt)
        case None => mints
        case Some(claims) => mints + [Mint(jwt, secret, claims, PresentedMint(mints, call))]
  }

  ghost function Answer(cfg: Config, sys: System, req: Request): (r: (Db, Reply)) {
    Outcome(cfg, sys.db, Signed(sys.mints), req)
  }

  ghost function Step(cfg: Config, sys: System, req: Request): System {
    var answer := Answer(cfg, sys, req);
    System(answer.0, Recorded(cfg, sys.mints, req.call, answer.1))
  }

  ghost function Replay(cfg: Config, run: seq<Request>): System {
    if run == [] then System(EMPTY, [])
    else Step(cfg, Replay(cfg, run[..|run| - 1]), run[|run| - 1])
  }

  /** The state before the i-th request of a run, and the answer it got. */
  ghost function AnswerAt(cfg: Config, run: seq<Request>, i: nat): (r: (Db, Reply))
    requires i < |run|
  {
    Answer(cfg, Replay(cfg, run[..i]), run[i])
  }

  ghost predicate FaultFree(run: seq<Request>) {
    forall i :: 0 <= i < |run| ==> run[i].fault == NoFault
  }

  lemma {:induction false} RunsKeepConstraints(cfg: Config, run: seq<Request>)
    ensures Constraints(Replay(cfg, run).db)
  {
    if run != [] {
      var front, last := run[..|run| - 1], run[|run| - 1];
      RunsKeepConstraints(cfg, front);
      CallKeeps(cfg, Replay(cfg, front).db, Signed(Replay(cfg, front).mints), last);
    }
  }

  /** Between two points of a run the tables only grow. */
  lemma {:induction false} RunsGrow(cfg: Config, run: seq<Request>, i: nat)
    requires i <= |run|
    ensures Grows(Replay(cfg, run[..i]).db, Replay(cfg, run).db)
    decreases |run|
  {
    if i == |run| {
      assert run[..i] == run;
    } else {
      var front, last := run[..|run| - 1], run[|run| - 1];
      RunsGrow(cfg, front, i);
      assert front[..i] == run[..i];
      RunsKeepConstraints(cfg, front);
      CallKeeps(cfg, Replay(cfg, front).db, Signed(Replay(cfg, front).mints), last);
      GrowsTransitively(Replay(cfg, run[..i]).db, Replay(cfg, front).db, Replay(cfg, run).db);
    }
  }

  // ---- What a successful login or refresh did ----

  function NewRow(cfg: Config, u: Uuid, req: Request): RefreshToken {
    RefreshToken(u, cfg.lib.hash(HexEncode(req.draw.bytes)), RefreshExpiry(cfg, req.now), None)
  }

  /** A reply with tokens means: a new row holds the printed secret's hash and the claims'
      user, and, for a refresh, the presented row was live before and is revoked now. */
  ghost predicate Exchanged(cfg: Config, db: Db, signed: set<string>, req: Request, after: Db, u: Uuid) {
    && u in db.users
    && db.users[u].CanLogin(req.now)
    && req.draw.id !in db.refresh
    && !RefreshHashTaken(db.refresh, cfg.lib.hash(HexEncode(req.draw.bytes)))
    && (match req.call
        case Login(email, password) =>
          && FindUser(db.users, email) == Some(u)
          && db.users[u].password.password == password
          && (cfg.requireEmailVerification ==> db.users[u].emailVerifiedAt.Some?)
          && after == db.(
               users := db.users[u := db.users[u].(failedLoginAttempts := 0, lockedUntil := None)],
               refresh := db.refresh[req.draw.id := NewRow(cfg, u, req)])
        case RefreshTokens(token) =>
          && Presented(cfg, token).Some?
          && var (claims, secret) := Presented(cfg, token).value;
          && SplitAtLastDot(token).value.0 in signed
          && InTime(claims, req.now)
          && claims.sub == u
          && claims.tid in db.refresh
          && db.refresh[claims.tid].hash == cfg.lib.hash(secret)
          && db.refresh[claims.tid].IsValid(req.now)
          && after == db.(refresh := db.refresh[req.draw.id := NewRow(cfg, u, req)]
                                               [claims.tid := db.refresh[claims.tid].(revokedAt := Some(req.now))])
        case _ => false)
  }

  lemma OnlyExchangesAnswerTokens(cfg: Config, db: Db, signed: set<string>, req: Request)
    requires Outcome(cfg, db, signed, req).1.Tokens?
    ensures req.call.Login? || req.call.RefreshTokens?
    ensures PlanOf(cfg, db, signed, req).reply.Tokens?
  {
  }

  lemma TokensMeanExchange(cfg: Config, db: Db, signed: set<string>, req: Request)
    requires Outcome(cfg, db, signed, req).1.Tokens?
    ensures
      var (after, reply) := Outcome(cfg, db, signed, req);
      && reply == Issued(cfg, reply.access.sub, req.now, req.draw)
      && Exchanged(cfg, db, signed, req, after, reply.access.sub)
  {
    OnlyExchangesAnswerTokens(cfg, db, signed, req);
    var plan := PlanOf(cfg, db, signed, req);
    BothApplied(db, req.now, plan.writes, req.fault, plan.selects);
  }
}
