/** Conservation of sessions: in runs without database failures, a user's live refresh rows
    are the logins since the user's last mass revocation, less the logouts that hit. */
module Sessions {
  import opened Wrappers
  import opened Schema
  import opened Calls
  import opened Runs
  import opened Families
  import Operations

  function Live(rows: RefreshTokens, u: Uuid): set<Uuid> {
    set id | id in rows && rows[id].user == u && !rows[id].IsRevoked()
  }

  /** What a call means for sessions. */
  datatype Event = LoggedIn(user: Uuid) | LoggedOut(user: Uuid) | Ended(user: Uuid) | Unaffected

  ghost function EventOf(cfg: Config, db: Db, req: Request, reply: Reply): (e: Event) {
    match req.call
    case Login(_, _) => if reply.Tokens? then LoggedIn(reply.access.sub) else Unaffected
    case Logout(token) =>
      if reply.Done? && Presented(cfg, token).Some? then
        var tid := Presented(cfg, token).value.0.tid;
        if tid in db.refresh && !db.refresh[tid].IsRevoked() then LoggedOut(db.refresh[tid].user) else Unaffected
      else Unaffected
    case RefreshTokens(token) =>
      if reply == Err(TokenRevoked) && Presented(cfg, token).Some? then
        var claims := Presented(cfg, token).value.0;
        if claims.tid in db.refresh && db.refresh[claims.tid].IsRevoked() then Ended(claims.sub) else Unaffected
      else Unaffected
    case ResetPassword(token, _) =>
      (match FindUsable(db.resets, cfg.lib.hash(token), req.now)
       case Some(id) => if reply.Done? then Ended(db.resets[id].user) else Unaffected
       case None => Unaffected)
    case ChangePassword(u, _, _) => if reply.Done? then Ended(u) else Unaffected
    case _ => Unaffected
  }

  function AfterEvent(n: int, e: Event, u: Uuid): int {
    match e
    case LoggedIn(v) => if v == u then n + 1 else n
    case LoggedOut(v) => if v == u then n - 1 else n
    case Ended(v) => if v == u then 0 else n
    case Unaffected => n
  }

  /** Logins since the last mass revocation of u, less logouts since then that hit. */
  ghost function Balance(cfg: Config, run: seq<Request>, u: Uuid): int {
    if run == [] then 0
    else
      var front, last := run[..|run| - 1], run[|run| - 1];
      var sys := Replay(cfg, front);
      AfterEvent(Balance(cfg, front, u), EventOf(cfg, sys.db, last, Answer(cfg, sys, last).1), u)
  }

  // ---- One statement ----

  predicate TouchesSessions(s: Stmt) {
    s.InsertRefresh? || s.RevokeRefresh? || s.RevokeAll?
  }

  lemma {:induction false} OtherWritesKeepSessions(db: Db, now: Time, writes: seq<Stmt>, fault: Fault, index: nat)
    requires forall i :: 0 <= i < |writes| ==> !TouchesSessions(writes[i])
    ensures RunWrites(db, now, writes, fault, index).0.refresh == db.refresh
    decreases |writes|
  {
    if writes != [] && Apply(db, now, writes[0]).Some? {
      OtherWritesKeepSessions(Apply(db, now, writes[0]).value, now, writes[1..], fault, index + 1);
    }
  }

  lemma InsertAddsOne(rows: RefreshTokens, id: Uuid, row: RefreshToken, u: Uuid)
    requires id !in rows && !row.IsRevoked()
    ensures |Live(rows[id := row], u)| == |Live(rows, u)| + if row.user == u then 1 else 0
  {
    assert Live(rows[id := row], u) == Live(rows, u) + if row.user == u then {id} else {};
  }

  lemma RevokeRemovesOne(rows: RefreshTokens, id: Uuid, now: Time, u: Uuid)
    requires id in rows
    ensures |Live(rows[id := rows[id].(revokedAt := Some(now))], u)| ==
      |Live(rows, u)| - if rows[id].user == u && !rows[id].IsRevoked() then 1 else 0
  {
    assert Live(rows[id := rows[id].(revokedAt := Some(now))], u) == Live(rows, u) - {id};
  }

  lemma RevokeAllEmpties(rows: RefreshTokens, v: Uuid, now: Time, u: Uuid)
    ensures Live(RevokedFor(rows, v, now), u) == if u == v then {} else Live(rows, u)
  {
  }

  // ---- One call ----

  /** Two writes, the first always accepted, that fail: the second was refused. */
  lemma SecondRefused(db: Db, now: Time, writes: seq<Stmt>, index: nat)
    requires |writes| == 2 && Accepted(db, writes[0])
    requires !RunWrites(db, now, writes, NoFault, index).1
    ensures Some(RunWrites(db, now, writes, NoFault, index).0) == Apply(db, now, writes[0])
  {
    FirstWrite(db, now, writes, index);
    FirstWrite(Apply(db, now, writes[0]).value, now, writes[1..], index + 1);
  }

  lemma LoginCounts(cfg: Config, db: Db, signed: set<string>, req: Request, u: Uuid)
    requires req.call.Login? && req.fault == NoFault
    ensures
      var (after, reply) := Outcome(cfg, db, signed, req);
      |Live(after.refresh, u)| == |Live(db.refresh, u)| + if reply.Tokens? && reply.access.sub == u then 1 else 0
  {
    var (after, reply) := Outcome(cfg, db, signed, req);
    if reply.Tokens? {
      TokensMeanExchange(cfg, db, signed, req);
      InsertAddsOne(db.refresh, req.draw.id, NewRow(cfg, reply.access.sub, req), u);
    } else {
      var plan := PlanOf(cfg, db, signed, req);
      if plan.reply.Tokens? {
        SecondRefused(db, req.now, plan.writes, 1);
      } else {
        OtherWritesKeepSessions(db, req.now, plan.writes, NoFault, 1);
      }
    }
  }

  /** Without a database fault, a rotation fails only if its insert is refused. */
  lemma RotationOutcome(cfg: Config, db: Db, signed: set<string>, req: Request)
    requires req.call.RefreshTokens? && req.fault == NoFault
    requires PlanOf(cfg, db, signed, req).reply.Tokens?
    ensures
      if Accepted(db, PlanOf(cfg, db, signed, req).writes[0]) then Outcome(cfg, db, signed, req).1.Tokens?
      else Outcome(cfg, db, signed, req) == (db, Err(Database))
  {
    var plan := PlanOf(cfg, db, signed, req);
    if Accepted(db, plan.writes[0]) {
      TwoWrites(db, req.now, plan.writes, plan.selects);
    }
  }

  /** A successful refresh adds a row and revokes one of the same user. */
  lemma RotationCounts(cfg: Config, sys: System, req: Request, u: Uuid)
    requires cfg.lib.Faithful() && AllStored(cfg, sys)
    requires req.call.RefreshTokens? && Answer(cfg, sys, req).1.Tokens?
    ensures |Live(Answer(cfg, sys, req).0.refresh, u)| == |Live(sys.db.refresh, u)|
  {
    var db := sys.db;
    var row := NewRow(cfg, Answer(cfg, sys, req).1.access.sub, req);
    var tid := Presented(cfg, req.call.token).value.0.tid;
    TokensMeanExchange(cfg, db, Signed(sys.mints), req);
    PresentedIsRecorded(cfg, sys, req.call.token);
    assert Stored(cfg, db.refresh, sys.mints[PresentedMint(sys.mints, req.call).value]);
    InsertAddsOne(db.refresh, req.draw.id, row, u);
    RevokeRemovesOne(db.refresh[req.draw.id := row], tid, req.now, u);
  }

  lemma RefreshCounts(cfg: Config, sys: System, req: Request, u: Uuid)
    requires cfg.lib.Faithful() && AllStored(cfg, sys)
    requires req.call.RefreshTokens? && req.fault == NoFault
    ensures
      var (after, reply) := Answer(cfg, sys, req);
      var e := EventOf(cfg, sys.db, req, reply);
      && |Live(after.refresh, u)| == AfterEvent(|Live(sys.db.refresh, u)|, e, u)
      && (reply.Tokens? ==> e.Unaffected?)
  {
    var db := sys.db;
    var plan := PlanOf(cfg, db, Signed(sys.mints), req);
    if Answer(cfg, sys, req).1.Tokens? {
      RotationCounts(cfg, sys, req, u);
    } else if plan.reply.Tokens? {
      RotationOutcome(cfg, db, Signed(sys.mints), req);
    } else if plan.writes != [] {
      var claims := Presented(cfg, req.call.token).value.0;
      LoneWrite(db, req.now, Stmt.RevokeAll(claims.sub), plan.selects);
      RevokeAllEmpties(db.refresh, claims.sub, req.now, u);
    }
  }

  lemma LogoutCounts(cfg: Config, db: Db, signed: set<string>, req: Request, u: Uuid)
    requires req.call.Logout? && req.fault == NoFault
    ensures
      var (after, reply) := Outcome(cfg, db, signed, req);
      |Live(after.refresh, u)| == AfterEvent(|Live(db.refresh, u)|, EventOf(cfg, db, req, reply), u)
  {
    var plan := PlanOf(cfg, db, signed, req);
    if plan.writes != [] {
      var tid := Presented(cfg, req.call.token).value.0.tid;
      LoneWrite(db, req.now, Stmt.RevokeRefresh(tid), 0);
      if tid in db.refresh {
        RevokeRemovesOne(db.refresh, tid, req.now, u);
      }
    }
  }

  lemma ResetCounts(cfg: Config, db: Db, signed: set<string>, req: Request, u: Uuid)
    requires req.call.ResetPassword? && req.fault == NoFault
    ensures
      var (after, reply) := Outcome(cfg, db, signed, req);
      |Live(after.refresh, u)| == AfterEvent(|Live(db.refresh, u)|, EventOf(cfg, db, req, reply), u)
  {
    var plan := PlanOf(cfg, db, signed, req);
    if plan.writes != [] {
      var v := db.resets[FindUsable(db.resets, cfg.lib.hash(req.call.token), req.now).value].user;
      ThreeWrites(db, req.now, plan.writes, plan.selects);
      RevokeAllEmpties(db.refresh, v, req.now, u);
    }
  }

  lemma ChangeCounts(cfg: Config, db: Db, signed: set<string>, req: Request, u: Uuid)
    requires req.call.ChangePassword? && req.fault == NoFault
    ensures
      var (after, reply) := Outcome(cfg, db, signed, req);
      |Live(after.refresh, u)| == AfterEvent(|Live(db.refresh, u)|, EventOf(cfg, db, req, reply), u)
  {
    var plan := PlanOf(cfg, db, signed, req);
    if plan.writes != [] {
      TwoWrites(db, req.now, plan.writes, plan.selects);
      RevokeAllEmpties(db.refresh, req.call.user, req.now, u);
    }
  }

  /** Each operation moves a user's live rows exactly as its event says. */
  lemma CallCounts(cfg: Config, sys: System, req: Request, u: Uuid)
    requires cfg.lib.Faithful() && Sound(cfg, sys) && req.fault == NoFault
    ensures
      var (after, reply) := Answer(cfg, sys, req);
      |Live(after.refresh, u)| == AfterEvent(|Live(sys.db.refresh, u)|, EventOf(cfg, sys.db, req, reply), u)
  {
    match req.call
    case Login(_, _) => LoginCounts(cfg, sys.db, Signed(sys.mints), req, u);
    case RefreshTokens(_) => RefreshCounts(cfg, sys, req, u);
    case Logout(_) => LogoutCounts(cfg, sys.db, Signed(sys.mints), req, u);
    case ResetPassword(_, _) => ResetCounts(cfg, sys.db, Signed(sys.mints), req, u);
    case ChangePassword(_, _, _) => ChangeCounts(cfg, sys.db, Signed(sys.mints), req, u);
    case _ =>
      var plan := PlanOf(cfg, sys.db, Signed(sys.mints), req);
      OtherWritesKeepSessions(sys.db, req.now, plan.writes, req.fault, plan.selects);
  }

  // ---- Theorem ----

  /** The conservation law, for every run without database failures and every user. */
  lemma {:induction false} SessionsAreConserved(cfg: Config, run: seq<Request>, u: Uuid)
    requires cfg.lib.Faithful() && FaultFree(run)
    ensures |Live(Replay(cfg, run).db.refresh, u)| == Balance(cfg, run, u)
  {
    if run != [] {
      var front, last := run[..|run| - 1], run[|run| - 1];
      SessionsAreConserved(cfg, front, u);
      RunsAreSound(cfg, front);
      CallCounts(cfg, Replay(cfg, front), last, u);
    }
  }

  /** In every reachable state, whatever failed, logging out with the JWT of any token that was
      handed out, and any random part, succeeds until the JWT runs out: it revokes that token's
      row and changes no other. */
  lemma LogoutEndsSession(cfg: Config, run: seq<Request>, i: nat, rest: string, req: Request)
    requires cfg.lib.Faithful() && i < |Replay(cfg, run).mints| && '.' !in rest
    requires
      var m := Replay(cfg, run).mints[i];
      req.call == Call.Logout(m.jwt + "." + rest) && m.claims.exp + 60 >= Seconds(req.now)
    requires req.fault == NoFault
    ensures
      var sys := Replay(cfg, run);
      var rows, id := sys.db.refresh, sys.mints[i].claims.tid;
      && id in rows
      && Answer(cfg, sys, req) == (sys.db.(refresh := rows[id := rows[id].(revokedAt := Some(req.now))]), Done)
  {
    RunsAreSound(cfg, run);
    var sys := Replay(cfg, run);
    assert Stored(cfg, sys.db.refresh, sys.mints[i]);
    Operations.LoggingOut(cfg, sys.db, Signed(sys.mints), req, sys.mints[i].jwt, rest);
  }
}
