/** Refresh-token rotation over every run, with any statement of any call allowed to fail. */
module Families {
  import opened Wrappers
  import opened TokenText
  import opened Schema
  import opened Calls
  import opened Runs

  /** The login a token descends from. */
  function Root(mints: seq<Mint>, i: nat): (r: nat)
    requires i < |mints|
    ensures r < |mints|
  {
    match mints[i].from
    case Some(p) => if p < i then Root(mints, p) else i
    case None => i
  }

  /** Token j was obtained from token i by one or more exchanges. */
  predicate Descends(mints: seq<Mint>, i: nat, j: nat)
    requires j < |mints|
  {
    match mints[j].from
    case Some(p) => p < j && (p == i || Descends(mints, i, p))
    case None => false
  }

  predicate Revoked(sys: System, i: nat)
    requires i < |sys.mints|
  {
    sys.mints[i].claims.tid in sys.db.refresh && sys.db.refresh[sys.mints[i].claims.tid].IsRevoked()
  }

  /** A handed-out token matches the row its claims name. */
  ghost predicate Stored(cfg: Config, rows: RefreshTokens, m: Mint) {
    && m.jwt == cfg.lib.encode(m.claims) && '.' !in m.secret
    && m.claims.tid in rows
    && rows[m.claims.tid].user == m.claims.sub
    && rows[m.claims.tid].hash == cfg.lib.hash(m.secret)
    && Seconds(rows[m.claims.tid].expiresAt) == m.claims.exp
  }

  ghost predicate AllStored(cfg: Config, sys: System) {
    forall i :: 0 <= i < |sys.mints| ==> Stored(cfg, sys.db.refresh, sys.mints[i])
  }

  ghost predicate DistinctRows(mints: seq<Mint>) {
    forall i, j :: 0 <= i < j < |mints| ==> mints[i].claims.tid != mints[j].claims.tid
  }

  ghost predicate ParentsFirst(mints: seq<Mint>) {
    forall j :: 0 <= j < |mints| && mints[j].from.Some? ==>
      mints[j].from.value < j && mints[mints[j].from.value].claims.sub == mints[j].claims.sub
  }

  /** Of two tokens of one login, the later descends from the earlier, which is revoked. */
  ghost predicate Chains(sys: System) {
    forall i, j :: 0 <= i < j < |sys.mints| && Root(sys.mints, i) == Root(sys.mints, j) ==>
      Descends(sys.mints, i, j) && Revoked(sys, i)
  }

  ghost predicate Sound(cfg: Config, sys: System) {
    && Constraints(sys.db)
    && AllStored(cfg, sys)
    && DistinctRows(sys.mints)
    && ParentsFirst(sys.mints)
    && Chains(sys)
  }

  // ---- Appending to the history changes nothing about older tokens ----

  lemma {:induction false} RootIsStable(mints: seq<Mint>, m: Mint, i: nat)
    requires i < |mints|
    ensures Root(mints + [m], i) == Root(mints, i)
  {
    if mints[i].from.Some? && mints[i].from.value < i {
      RootIsStable(mints, m, mints[i].from.value);
    }
  }

  lemma {:induction false} DescentIsStable(mints: seq<Mint>, m: Mint, i: nat, j: nat)
    requires j < |mints|
    ensures Descends(mints + [m], i, j) == Descends(mints, i, j)
  {
    if mints[j].from.Some? && mints[j].from.value < j {
      DescentIsStable(mints, m, i, mints[j].from.value);
    }
  }

  lemma {:induction false} DescendsLater(mints: seq<Mint>, i: nat, j: nat)
    requires j < |mints| && Descends(mints, i, j)
    ensures i < j && Root(mints, i) == Root(mints, j)
  {
    var p := mints[j].from.value;
    if p != i {
      DescendsLater(mints, i, p);
    }
  }

  // ---- Preservation ----

  lemma GrowthKeeps(cfg: Config, sys: System, after: Db)
    requires Sound(cfg, sys) && Constraints(after) && Grows(sys.db, after)
    ensures Sound(cfg, System(after, sys.mints))
  {
  }

  /** What a new token is: issued for a fresh row, by a login or from a live token. */
  ghost predicate Fits(cfg: Config, sys: System, m: Mint) {
    && Stored(cfg, sys.db.refresh, m)
    && (forall i :: 0 <= i < |sys.mints| ==> sys.mints[i].claims.tid != m.claims.tid)
    && (m.from.Some? ==>
          var p := m.from.value;
          p < |sys.mints| && sys.mints[p].claims.sub == m.claims.sub && Revoked(sys, p)
          && forall i :: p < i < |sys.mints| ==> Root(sys.mints, i) != Root(sys.mints, p))
  }

  /** A token of the family that the newest one joins is its parent or an ancestor of it. */
  lemma NewTokenDescends(cfg: Config, sys: System, m: Mint, i: nat)
    requires Sound(cfg, sys) && Fits(cfg, sys, m)
    requires i < |sys.mints| && Root(sys.mints, i) == Root(sys.mints + [m], |sys.mints|)
    ensures Descends(sys.mints + [m], i, |sys.mints|)
    ensures Revoked(sys, i)
  {
    var more := sys.mints + [m];
    assert m.from.Some?;
    var p := m.from.value;
    RootIsStable(sys.mints, m, p);
    assert Root(sys.mints, i) == Root(sys.mints, p);
    if i != p {
      assert i < p;
      DescentIsStable(sys.mints, m, i, p);
    }
  }

  lemma NewTokenKeeps(cfg: Config, sys: System, m: Mint)
    requires Sound(cfg, sys) && Fits(cfg, sys, m)
    ensures Sound(cfg, System(sys.db, sys.mints + [m]))
  {
    var n, more := |sys.mints|, sys.mints + [m];
    var next := System(sys.db, more);
    forall i, j | 0 <= i < j < |more| && Root(more, i) == Root(more, j)
      ensures Descends(more, i, j) && Revoked(next, i)
    {
      RootIsStable(sys.mints, m, i);
      if j < n {
        RootIsStable(sys.mints, m, j);
        DescentIsStable(sys.mints, m, i, j);
        assert Revoked(sys, i);
      } else {
        NewTokenDescends(cfg, sys, m, i);
      }
    }
  }

  function NewMint(cfg: Config, sys: System, req: Request, u: Uuid): Mint {
    var claims := RefreshClaims(cfg, u, req.now, req.draw);
    Mint(cfg.lib.encode(claims), HexEncode(req.draw.bytes), claims, PresentedMint(sys.mints, req.call))
  }

  /** A reply with tokens is recorded as issued, and its row is in the table. */
  lemma ExchangeIsStored(cfg: Config, sys: System, req: Request)
    requires cfg.lib.Faithful() && Answer(cfg, sys, req).1.Tokens?
    ensures
      var (after, reply) := Answer(cfg, sys, req);
      var m := NewMint(cfg, sys, req, reply.access.sub);
      Recorded(cfg, sys.mints, req.call, reply) == sys.mints + [m] && Stored(cfg, after.refresh, m)
      && m.claims.tid !in sys.db.refresh
  {
    var (after, reply) := Answer(cfg, sys, req);
    var u := reply.access.sub;
    TokensMeanExchange(cfg, sys.db, Signed(sys.mints), req);
    TokenSplits(cfg.lib.encode(RefreshClaims(cfg, u, req.now, req.draw)), req.draw.bytes);
    HexHasNoDot(req.draw.bytes);
  }

  /** A presented JWT that was handed out is the JWT of a recorded token, claims included. */
  lemma PresentedIsRecorded(cfg: Config, sys: System, token: string)
    requires cfg.lib.Faithful() && AllStored(cfg, sys)
    requires Presented(cfg, token).Some? && SplitAtLastDot(token).value.0 in Signed(sys.mints)
    ensures PresentedMint(sys.mints, Call.RefreshTokens(token)).Some?
    ensures sys.mints[PresentedMint(sys.mints, Call.RefreshTokens(token)).value].claims == Presented(cfg, token).value.0
  {
    var p := PresentedMint(sys.mints, Call.RefreshTokens(token)).value;
    assert Stored(cfg, sys.db.refresh, sys.mints[p]);
  }

  /** The token presented to a successful refresh was live and is revoked now. */
  lemma ParentIsRotated(cfg: Config, sys: System, req: Request)
    requires cfg.lib.Faithful() && AllStored(cfg, sys)
    requires Answer(cfg, sys, req).1.Tokens? && req.call.RefreshTokens?
    ensures
      var (after, reply) := Answer(cfg, sys, req);
      var p := PresentedMint(sys.mints, req.call);
      p.Some? && sys.mints[p.value].claims.sub == reply.access.sub
      && !Revoked(sys, p.value) && Revoked(System(after, sys.mints), p.value)
  {
    TokensMeanExchange(cfg, sys.db, Signed(sys.mints), req);
    PresentedIsRecorded(cfg, sys, req.call.token);
  }

  /** A token that is not revoked is the last of its chain. */
  lemma LiveTokenIsLast(sys: System, p: nat)
    requires Chains(sys) && p < |sys.mints| && !Revoked(sys, p)
    ensures forall i :: p < i < |sys.mints| ==> Root(sys.mints, i) != Root(sys.mints, p)
  {
  }

  lemma StoredRowsExist(cfg: Config, sys: System, i: nat)
    requires AllStored(cfg, sys) && i < |sys.mints|
    ensures sys.mints[i].claims.tid in sys.db.refresh
  {
    assert Stored(cfg, sys.db.refresh, sys.mints[i]);
  }

  lemma ExchangeFits(cfg: Config, sys: System, req: Request)
    requires cfg.lib.Faithful() && AllStored(cfg, sys) && Chains(sys) && Answer(cfg, sys, req).1.Tokens?
    ensures
      var (after, reply) := Answer(cfg, sys, req);
      Fits(cfg, System(after, sys.mints), NewMint(cfg, sys, req, reply.access.sub))
  {
    var (after, reply) := Answer(cfg, sys, req);
    var m := NewMint(cfg, sys, req, reply.access.sub);
    ExchangeIsStored(cfg, sys, req);
    forall i | 0 <= i < |sys.mints|
      ensures sys.mints[i].claims.tid != m.claims.tid
    {
      StoredRowsExist(cfg, sys, i);
    }
    if req.call.RefreshTokens? {
      ParentIsRotated(cfg, sys, req);
      LiveTokenIsLast(sys, m.from.value);
    }
  }

  lemma StepKeepsSound(cfg: Config, sys: System, req: Request)
    requires cfg.lib.Faithful() && Sound(cfg, sys)
    ensures Sound(cfg, Step(cfg, sys, req))
  {
    var (after, reply) := Answer(cfg, sys, req);
    CallKeeps(cfg, sys.db, Signed(sys.mints), req);
    GrowthKeeps(cfg, sys, after);
    if reply.Tokens? {
      ExchangeIsStored(cfg, sys, req);
      ExchangeFits(cfg, sys, req);
      NewTokenKeeps(cfg, System(after, sys.mints), NewMint(cfg, sys, req, reply.access.sub));
    }
  }

  lemma {:induction false} RunsAreSound(cfg: Config, run: seq<Request>)
    requires cfg.lib.Faithful()
    ensures Sound(cfg, Replay(cfg, run))
  {
    if run != [] {
      RunsAreSound(cfg, run[..|run| - 1]);
      StepKeepsSound(cfg, Replay(cfg, run[..|run| - 1]), run[|run| - 1]);
    }
  }

  // ---- Theorems ----

  /** In every reachable state, whatever failed on the way: a token was exchanged at most once,
      a token that was exchanged is revoked, each login's tokens form one chain ordered by
      descent, and at most one token of a chain is not revoked. */
  lemma RotationFamilies(cfg: Config, run: seq<Request>, i: nat, j: nat)
    requires cfg.lib.Faithful()
    requires i < j < |Replay(cfg, run).mints|
    ensures
      var sys := Replay(cfg, run);
      var mints := sys.mints;
      && mints[i].claims.tid != mints[j].claims.tid
      && !(mints[i].from.Some? && mints[i].from == mints[j].from)
      && (mints[j].from == Some(i) ==> Revoked(sys, i) && mints[i].claims.sub == mints[j].claims.sub)
      && (Root(mints, i) == Root(mints, j) <==> Descends(mints, i, j))
      && (Root(mints, i) == Root(mints, j) ==> Revoked(sys, i))
  {
    RunsAreSound(cfg, run);
    var sys := Replay(cfg, run);
    var mints := sys.mints;
    if mints[i].from.Some? && mints[i].from == mints[j].from {
      assert Descends(mints, i, j);
      DescendsLater(mints, i, mints[j].from.value);
    }
    if mints[j].from == Some(i) {
      assert Root(mints, i) == Root(mints, j);
    }
    if Descends(mints, i, j) {
      DescendsLater(mints, i, j);
    }
  }

  /** A login starts a chain and a refresh extends one. */
  lemma LoginsStartChains(cfg: Config, run: seq<Request>, req: Request)
    requires cfg.lib.Faithful() && Answer(cfg, Replay(cfg, run), req).1.Tokens?
    ensures
      var sys := Replay(cfg, run);
      var after := Step(cfg, sys, req).mints;
      |after| == |sys.mints| + 1 && (after[|sys.mints|].from.None? <==> req.call.Login?)
  {
    RunsAreSound(cfg, run);
    var sys := Replay(cfg, run);
    OnlyExchangesAnswerTokens(cfg, sys.db, Signed(sys.mints), req);
    ExchangeIsStored(cfg, sys, req);
    if req.call.RefreshTokens? {
      ParentIsRotated(cfg, sys, req);
    }
  }

  lemma ExchangedIsRevoked(cfg: Config, sys: System, i: nat, j: nat)
    requires AllStored(cfg, sys) && ParentsFirst(sys.mints) && Chains(sys)
    requires i < |sys.mints| && j < |sys.mints| && sys.mints[j].from == Some(i)
    ensures Stored(cfg, sys.db.refresh, sys.mints[i]) && Revoked(sys, i) && sys.mints[i].jwt in Signed(sys.mints)
  {
    assert Root(sys.mints, i) == Root(sys.mints, j);
  }

  lemma ReuseRevokesAll(cfg: Config, db: Db, signed: set<string>, req: Request, claims: Claims, secret: string)
    requires req.call.RefreshTokens? && req.fault == NoFault
    requires Presented(cfg, req.call.token) == Some((claims, secret))
    requires SplitAtLastDot(req.call.token).value.0 in signed && InTime(claims, req.now)
    requires claims.tid in db.refresh && db.refresh[claims.tid].hash == cfg.lib.hash(secret)
    requires db.refresh[claims.tid].IsRevoked()
    ensures Outcome(cfg, db, signed, req) ==
      (db.(refresh := RevokedFor(db.refresh, claims.sub, req.now)), Err(TokenRevoked))
  {
    var s := Stmt.RevokeAll(claims.sub);
    assert PlanOf(cfg, db, signed, req) == Plan(1, [s], Err(TokenRevoked));
    var after := db.(refresh := RevokedFor(db.refresh, claims.sub, req.now));
    assert Apply(db, req.now, s) == Some(after);
    assert [s][1..] == [];
    assert RunWrites(db, req.now, [s], NoFault, 1) == (after, true);
  }

  /** Reuse detection is complete: presenting, in full, any token that was exchanged ends every
      session of its user, provided its JWT is still accepted and no statement fails. */
  lemma ReplayEndsAllSessions(cfg: Config, run: seq<Request>, i: nat, j: nat, req: Request)
    requires cfg.lib.Faithful()
    requires i < |Replay(cfg, run).mints| && j < |Replay(cfg, run).mints|
    requires Replay(cfg, run).mints[j].from == Some(i)
    requires
      var m := Replay(cfg, run).mints[i];
      req.call == Call.RefreshTokens(Join(m.jwt, m.secret)) && InTime(m.claims, req.now)
    requires req.fault == NoFault
    ensures
      var sys := Replay(cfg, run);
      var (after, reply) := Answer(cfg, sys, req);
      && reply == Err(TokenRevoked)
      && after == sys.db.(refresh := RevokedFor(sys.db.refresh, sys.mints[i].claims.sub, req.now))
      && forall id :: id in after.refresh && after.refresh[id].user == sys.mints[i].claims.sub ==>
           after.refresh[id].IsRevoked()
  {
    var sys := Replay(cfg, run);
    var m := sys.mints[i];
    RunsAreSound(cfg, run);
    ExchangedIsRevoked(cfg, sys, i, j);
    SplitJoin(m.jwt, m.secret);
    ReuseRevokesAll(cfg, sys.db, Signed(sys.mints), req, m.claims, m.secret);
  }

  /** Reuse detection is precise: a refresh whose row is merely expired, or whose user is
      locked or not active, changes no table, whatever fails. */
  lemma RefusalsChangeNothing(cfg: Config, db: Db, signed: set<string>, req: Request)
    requires req.call.RefreshTokens? && Presented(cfg, req.call.token).Some?
    requires
      var tid := Presented(cfg, req.call.token).value.0.tid;
      var sub := Presented(cfg, req.call.token).value.0.sub;
      (tid in db.refresh ==> !db.refresh[tid].IsRevoked())
      && ((tid in db.refresh && db.refresh[tid].IsExpired(req.now))
          || sub !in db.users || !db.users[sub].CanLogin(req.now))
    ensures
      var (after, reply) := Outcome(cfg, db, signed, req);
      after == db && reply.Err?
  {
  }

  /** No mix and match: the JWT of one handed-out token joined with the random part of another
      is refused and changes no table, whatever fails. */
  lemma MixedTokensAreRefused(cfg: Config, run: seq<Request>, i: nat, j: nat, req: Request)
    requires cfg.lib.Faithful()
    requires i < |Replay(cfg, run).mints| && j < |Replay(cfg, run).mints| && i != j
    requires
      var mints := Replay(cfg, run).mints;
      req.call == Call.RefreshTokens(Join(mints[i].jwt, mints[j].secret))
    ensures
      var sys := Replay(cfg, run);
      var (after, reply) := Answer(cfg, sys, req);
      after == sys.db && reply.Err?
  {
    RunsAreSound(cfg, run);
    var sys := Replay(cfg, run);
    var a, b := sys.mints[i], sys.mints[j];
    assert Stored(cfg, sys.db.refresh, a) && Stored(cfg, sys.db.refresh, b);
    assert a.claims.tid != b.claims.tid;
    SplitJoin(a.jwt, b.secret);
  }
}
