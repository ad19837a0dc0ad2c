/** One-time tokens over every run: each of the two append-only tables refines a map from user
    to at most one pending token, and a token once dead stays dead. */
module OneTime {
  import opened Wrappers
  import opened TokenText
  import opened Schema
  import opened Calls
  import opened Runs

  datatype Slot = Slot(hash: string, expiresAt: Time)

  /** The simple form: one slot a user, and the hashes ever stored. */
  datatype Slots = Slots(slots: map<Uuid, Slot>, spent: set<string>)

  predicate IsUnused(rows: OneTimeTokens, id: Uuid) {
    id in rows && rows[id].usedAt.None?
  }

  function Hashes(rows: OneTimeTokens): set<string> {
    set id | id in rows :: rows[id].hash
  }

  /** The table shows exactly the slots: one unused row for each, and no other unused row. */
  ghost predicate Represents(rows: OneTimeTokens, p: Slots) {
    && (forall id :: IsUnused(rows, id) ==>
          rows[id].user in p.slots && p.slots[rows[id].user] == Slot(rows[id].hash, rows[id].expiresAt))
    && (forall u :: u in p.slots ==> exists id :: IsUnused(rows, id) && rows[id].user == u)
    && p.spent == Hashes(rows)
  }

  // ---- What calls do to slots ----

  /** `free`: the user exists and the drawn row id is not in use. */
  datatype Op = Issue(user: Uuid, slot: Slot, free: bool) | Redeem(hash: string) | Idle

  ghost function OpOf(cfg: Config, purpose: Purpose, db: Db, req: Request): (op: Op) {
    var hash := cfg.lib.hash(HexEncode(req.draw.bytes));
    match req.call
    case ForgotPassword(email) =>
      var found := FindUser(db.users, email);
      if purpose.PasswordReset? && found.Some? then
        Issue(found.value, Slot(hash, req.now + cfg.passwordResetExpiration * SECOND), req.draw.id !in db.resets)
      else Idle
    case ResetPassword(token, password) =>
      if purpose.PasswordReset? && Acceptable(cfg, password) then Redeem(cfg.lib.hash(token)) else Idle
    case CreateEmailVerification(u) =>
      if purpose.EmailVerification? then
        Issue(u, Slot(hash, req.now + cfg.emailVerificationExpiration * SECOND),
              u in db.users && req.draw.id !in db.verifications)
      else Idle
    case VerifyEmail(token) => if purpose.EmailVerification? then Redeem(cfg.lib.hash(token)) else Idle
    case _ => Idle
  }

  predicate Holds(p: Slots, u: Uuid, hash: string, now: Time) {
    u in p.slots && p.slots[u].hash == hash && p.slots[u].expiresAt > now
  }

  ghost predicate Redeemable(p: Slots, hash: string, now: Time) {
    exists u :: Holds(p, u, hash, now)
  }

  /** Issuing overwrites the user's slot, or empties it when the hash was seen before;
      redeeming empties the slot that holds the hash, if it has not expired. */
  ghost function Advance(p: Slots, op: Op, now: Time): (next: Slots) {
    match op
    case Issue(u, slot, free) =>
      if free && slot.hash !in p.spent then Slots(p.slots[u := slot], p.spent + {slot.hash})
      else Slots(p.slots - {u}, p.spent)
    case Redeem(hash) =>
      if Redeemable(p, hash, now) then
        var u :| Holds(p, u, hash, now);
        Slots(p.slots - {u}, p.spent)
      else p
    case Idle => p
  }

  ghost function Tracked(cfg: Config, purpose: Purpose, run: seq<Request>): (p: Slots) {
    if run == [] then Slots(map[], {})
    else
      var front, last := run[..|run| - 1], run[|run| - 1];
      Advance(Tracked(cfg, purpose, front), OpOf(cfg, purpose, Replay(cfg, front).db, last), last.now)
  }

  /** What the operation replies, judged by the slots alone. An issued text is the one whose hash
      the slot holds. */
  ghost predicate AnswersAs(cfg: Config, p: Slots, op: Op, now: Time, reply: Reply) {
    match op
    case Issue(_, slot, free) =>
      if free && slot.hash !in p.spent then reply.Secret? && cfg.lib.hash(reply.token) == slot.hash
      else reply == Err(Database)
    case Redeem(hash) => (!reply.Err? <==> Redeemable(p, hash, now)) && (reply.Err? ==> reply == Err(InvalidToken))
    case Idle => true
  }

  // ---- One statement ----

  predicate Touches(purpose: Purpose, s: Stmt) {
    (s.Invalidate? || s.InsertOneTime? || s.MarkUsed?) && s.purpose == purpose
  }

  lemma {:induction false} OtherWritesKeepTable(
    purpose: Purpose, db: Db, now: Time, writes: seq<Stmt>, fault: Fault, index: nat)
    requires forall i :: 0 <= i < |writes| ==> !Touches(purpose, writes[i])
    ensures RunWrites(db, now, writes, fault, index).0.OneTime(purpose) == db.OneTime(purpose)
    decreases |writes|
  {
    if writes != [] && Apply(db, now, writes[0]).Some? {
      OtherWritesKeepTable(purpose, Apply(db, now, writes[0]).value, now, writes[1..], fault, index + 1);
    }
  }

  lemma SameHashes(a: OneTimeTokens, b: OneTimeTokens)
    requires a.Keys == b.Keys && forall id :: id in a ==> b[id].hash == a[id].hash
    ensures Hashes(a) == Hashes(b)
  {
    forall h | h in Hashes(a)
      ensures h in Hashes(b)
    {
      var id :| id in a && a[id].hash == h;
      assert b[id].hash == h;
    }
    forall h | h in Hashes(b)
      ensures h in Hashes(a)
    {
      var id :| id in b && b[id].hash == h;
      assert a[id].hash == h;
    }
  }

  lemma InvalidationEmptiesSlot(rows: OneTimeTokens, p: Slots, u: Uuid, now: Time)
    requires Represents(rows, p)
    ensures Represents(InvalidatedFor(rows, u, now), Slots(p.slots - {u}, p.spent))
  {
    var after := InvalidatedFor(rows, u, now);
    forall v | v in p.slots - {u}
      ensures exists id :: IsUnused(after, id) && after[id].user == v
    {
      var id :| IsUnused(rows, id) && rows[id].user == v;
      assert IsUnused(after, id) && after[id].user == v;
    }
    SameHashes(rows, after);
  }

  lemma InsertionFillsSlot(rows: OneTimeTokens, p: Slots, id: Uuid, u: Uuid, slot: Slot)
    requires Represents(rows, p) && id !in rows && u !in p.slots
    ensures Represents(rows[id := OneTimeToken(u, slot.hash, slot.expiresAt, None)],
                       Slots(p.slots[u := slot], p.spent + {slot.hash}))
  {
    var after := rows[id := OneTimeToken(u, slot.hash, slot.expiresAt, None)];
    var filled := p.slots[u := slot];
    forall v: Uuid | v in filled
      ensures exists x: Uuid :: IsUnused(after, x) && after[x].user == v
    {
      if v == u {
        assert IsUnused(after, id) && after[id].user == v;
      } else {
        var x :| IsUnused(rows, x) && rows[x].user == v;
        assert IsUnused(after, x) && after[x].user == v;
      }
    }
    forall h | h in p.spent + {slot.hash}
      ensures h in Hashes(after)
    {
      if h == slot.hash {
        assert after[id].hash == h;
      } else {
        var x :| x in rows && rows[x].hash == h;
        assert after[x].hash == h;
      }
    }
  }

  lemma UseEmptiesSlot(rows: OneTimeTokens, p: Slots, id: Uuid, now: Time)
    requires Represents(rows, p) && UniqueOneTimeHashes(rows) && IsUnused(rows, id)
    ensures Represents(rows[id := rows[id].(usedAt := Some(now))], Slots(p.slots - {rows[id].user}, p.spent))
  {
    var after := rows[id := rows[id].(usedAt := Some(now))];
    forall x | IsUnused(after, x)
      ensures after[x].user != rows[id].user
    {
      assert IsUnused(rows, x);
    }
    forall v | v in p.slots - {rows[id].user}
      ensures exists x :: IsUnused(after, x) && after[x].user == v
    {
      var x :| IsUnused(rows, x) && rows[x].user == v;
      assert IsUnused(after, x) && after[x].user == v;
    }
    SameHashes(rows, after);
  }

  /** The SELECT for a usable row finds exactly what some slot holds. */
  lemma LookupFindsSlot(rows: OneTimeTokens, p: Slots, hash: string, now: Time)
    requires Represents(rows, p) && UniqueOneTimeHashes(rows)
    ensures FindUsable(rows, hash, now).Some? <==> Redeemable(p, hash, now)
    ensures FindUsable(rows, hash, now).Some? ==>
      forall u :: Holds(p, u, hash, now) ==> u == rows[FindUsable(rows, hash, now).value].user
  {
    forall u | Holds(p, u, hash, now)
      ensures FindUsable(rows, hash, now).Some? && u == rows[FindUsable(rows, hash, now).value].user
    {
      var id :| IsUnused(rows, id) && rows[id].user == u;
      assert Usable(rows[id], hash, now);
    }
    var found := FindUsable(rows, hash, now);
    if found.Some? {
      assert IsUnused(rows, found.value);
      assert Holds(p, rows[found.value].user, hash, now);
    }
  }

  // ---- One call ----

  lemma HashSeen(rows: OneTimeTokens, p: Slots, hash: string)
    requires Represents(rows, p)
    ensures OneTimeHashTaken(rows, hash) <==> hash in p.spent
  {
  }

  lemma IssueRefines(cfg: Config, purpose: Purpose, db: Db, p: Slots, req: Request, u: Uuid, lifetime: int, index: nat)
    requires Represents(db.OneTime(purpose), p)
    ensures
      var slot := Slot(cfg.lib.hash(HexEncode(req.draw.bytes)), req.now + lifetime * SECOND);
      var op := Issue(u, slot, u in db.users && req.draw.id !in db.OneTime(purpose));
      var run := RunWrites(db, req.now, StoreOneTime(cfg, purpose, u, lifetime, req.now, req.draw), NoFault, index);
      && Represents(run.0.OneTime(purpose), Advance(p, op, req.now))
      && (run.1 <==> op.free && slot.hash !in p.spent)
  {
    var writes := StoreOneTime(cfg, purpose, u, lifetime, req.now, req.draw);
    var rows := db.OneTime(purpose);
    var one := InvalidatedThenStored(db, req.now, writes, index);
    var slot := Slot(writes[1].hash, writes[1].expiresAt);
    var emptied := Slots(p.slots - {u}, p.spent);
    InvalidationEmptiesSlot(rows, p, u, req.now);
    HashSeen(one.OneTime(purpose), emptied, slot.hash);
    if Accepted(one, writes[1]) {
      InsertionFillsSlot(one.OneTime(purpose), emptied, req.draw.id, u, slot);
      assert emptied.slots[u := slot] == p.slots[u := slot];
    }
  }

  lemma RedeemRefines(purpose: Purpose, db: Db, p: Slots, hash: string, now: Time, id: Uuid, after: OneTimeTokens)
    requires Represents(db.OneTime(purpose), p) && UniqueOneTimeHashes(db.OneTime(purpose))
    requires FindUsable(db.OneTime(purpose), hash, now) == Some(id)
    requires after == db.OneTime(purpose)[id := db.OneTime(purpose)[id].(usedAt := Some(now))]
    ensures Represents(after, Advance(p, Redeem(hash), now))
  {
    LookupFindsSlot(db.OneTime(purpose), p, hash, now);
    UseEmptiesSlot(db.OneTime(purpose), p, id, now);
  }

  lemma ForgotRefines(cfg: Config, db: Db, signed: set<string>, p: Slots, req: Request, u: Uuid)
    requires Represents(db.resets, p) && req.fault == NoFault
    requires req.call.ForgotPassword? && FindUser(db.users, req.call.email) == Some(u)
    ensures
      var (after, reply) := Outcome(cfg, db, signed, req);
      var op := OpOf(cfg, PasswordReset, db, req);
      Represents(after.resets, Advance(p, op, req.now)) && AnswersAs(cfg, p, op, req.now, reply)
  {
    IssueRefines(cfg, PasswordReset, db, p, req, u, cfg.passwordResetExpiration, 1);
  }

  lemma CreateRefines(cfg: Config, db: Db, signed: set<string>, p: Slots, req: Request, u: Uuid)
    requires Represents(db.verifications, p) && req.fault == NoFault
    requires req.call == Call.CreateEmailVerification(u)
    ensures
      var (after, reply) := Outcome(cfg, db, signed, req);
      var op := OpOf(cfg, EmailVerification, db, req);
      Represents(after.verifications, Advance(p, op, req.now)) && AnswersAs(cfg, p, op, req.now, reply)
  {
    IssueRefines(cfg, EmailVerification, db, p, req, u, cfg.emailVerificationExpiration, 0);
  }

  lemma ResetMarks(cfg: Config, db: Db, signed: set<string>, req: Request, id: Uuid)
    requires req.call.ResetPassword? && Acceptable(cfg, req.call.password) && req.fault == NoFault
    requires FindUsable(db.resets, cfg.lib.hash(req.call.token), req.now) == Some(id)
    ensures
      var (after, reply) := Outcome(cfg, db, signed, req);
      after.resets == db.resets[id := db.resets[id].(usedAt := Some(req.now))] && reply == Done
  {
    ThreeWrites(db, req.now, RedemptionPlan(db, id, StoredHash(req.call.password, req.draw.salt)).writes, 1);
  }

  lemma ResetRefines(cfg: Config, db: Db, signed: set<string>, p: Slots, req: Request)
    requires Represents(db.resets, p) && Constraints(db) && req.fault == NoFault
    requires req.call.ResetPassword? && Acceptable(cfg, req.call.password)
    ensures
      var (after, reply) := Outcome(cfg, db, signed, req);
      var op := Redeem(cfg.lib.hash(req.call.token));
      Represents(after.resets, Advance(p, op, req.now)) && AnswersAs(cfg, p, op, req.now, reply)
  {
    var hash := cfg.lib.hash(req.call.token);
    LookupFindsSlot(db.resets, p, hash, req.now);
    var found := FindUsable(db.resets, hash, req.now);
    if found.Some? {
      ResetMarks(cfg, db, signed, req, found.value);
      RedeemRefines(PasswordReset, db, p, hash, req.now, found.value, Outcome(cfg, db, signed, req).0.resets);
    }
  }

  lemma VerifyRefines(cfg: Config, db: Db, signed: set<string>, p: Slots, req: Request)
    requires Represents(db.verifications, p) && Constraints(db) && req.fault == NoFault
    requires req.call.VerifyEmail?
    ensures
      var (after, reply) := Outcome(cfg, db, signed, req);
      var op := Redeem(cfg.lib.hash(req.call.token));
      Represents(after.verifications, Advance(p, op, req.now)) && AnswersAs(cfg, p, op, req.now, reply)
  {
    var hash := cfg.lib.hash(req.call.token);
    LookupFindsSlot(db.verifications, p, hash, req.now);
    var found := FindUsable(db.verifications, hash, req.now);
    if found.Some? {
      TwoWrites(db, req.now, PlanOf(cfg, db, signed, req).writes, 1);
      var after := Outcome(cfg, db, signed, req).0.verifications;
      RedeemRefines(EmailVerification, db, p, hash, req.now, found.value, after);
    }
  }

  lemma EarlyIdlePlan(cfg: Config, purpose: Purpose, db: Db, signed: set<string>, req: Request)
    requires OpOf(cfg, purpose, db, req).Idle?
    ensures
      var p := BeforeReading(cfg, signed, req.call, req.now, req.draw);
      p.Some? ==> forall i :: 0 <= i < |p.value.writes| ==> !Touches(purpose, p.value.writes[i])
  {
  }

  lemma DecidedIdlePlan(cfg: Config, purpose: Purpose, db: Db, signed: set<string>, req: Request)
    requires OpOf(cfg, purpose, db, req).Idle? && BeforeReading(cfg, signed, req.call, req.now, req.draw).None?
    ensures
      var progress := AfterReading(cfg, db, req.call, req.now, req.draw);
      progress.Decided? ==> forall i :: 0 <= i < |progress.plan.writes| ==> !Touches(purpose, progress.plan.writes[i])
  {
  }

  lemma IdlePlan(cfg: Config, purpose: Purpose, db: Db, signed: set<string>, req: Request)
    requires OpOf(cfg, purpose, db, req).Idle?
    ensures
      var writes := PlanOf(cfg, db, signed, req).writes;
      forall i :: 0 <= i < |writes| ==> !Touches(purpose, writes[i])
  {
    EarlyIdlePlan(cfg, purpose, db, signed, req);
    if BeforeReading(cfg, signed, req.call, req.now, req.draw).None? {
      DecidedIdlePlan(cfg, purpose, db, signed, req);
    }
  }

  lemma IdleKeepsTable(cfg: Config, purpose: Purpose, db: Db, signed: set<string>, req: Request)
    requires OpOf(cfg, purpose, db, req).Idle?
    ensures Outcome(cfg, db, signed, req).0.OneTime(purpose) == db.OneTime(purpose)
  {
    var plan := PlanOf(cfg, db, signed, req);
    IdlePlan(cfg, purpose, db, signed, req);
    OtherWritesKeepTable(purpose, db, req.now, plan.writes, req.fault, plan.selects);
  }

  /** Each call moves the slots as its operation says, and replies as the slots say. */
  lemma CallRefines(cfg: Config, purpose: Purpose, db: Db, signed: set<string>, p: Slots, req: Request)
    requires Represents(db.OneTime(purpose), p) && Constraints(db) && req.fault == NoFault
    ensures
      var (after, reply) := Outcome(cfg, db, signed, req);
      var op := OpOf(cfg, purpose, db, req);
      Represents(after.OneTime(purpose), Advance(p, op, req.now)) && AnswersAs(cfg, p, op, req.now, reply)
  {
    match OpOf(cfg, purpose, db, req)
    case Issue(u, _, _) =>
      if purpose.PasswordReset? {
        ForgotRefines(cfg, db, signed, p, req, u);
      } else {
        CreateRefines(cfg, db, signed, p, req, u);
      }
    case Redeem(_) =>
      if purpose.PasswordReset? {
        ResetRefines(cfg, db, signed, p, req);
      } else {
        VerifyRefines(cfg, db, signed, p, req);
      }
    case Idle => IdleKeepsTable(cfg, purpose, db, signed, req);
  }

  // ---- Theorems ----

  lemma {:induction false} TableRefinesSlots(cfg: Config, purpose: Purpose, run: seq<Request>)
    requires FaultFree(run)
    ensures Represents(Replay(cfg, run).db.OneTime(purpose), Tracked(cfg, purpose, run))
  {
    if run != [] {
      var front, last := run[..|run| - 1], run[|run| - 1];
      var sys := Replay(cfg, front);
      TableRefinesSlots(cfg, purpose, front);
      RunsKeepConstraints(cfg, front);
      CallRefines(cfg, purpose, sys.db, Signed(sys.mints), Tracked(cfg, purpose, front), last);
    }
  }

  /** After any run without database failures the table shows the slots of the simple form,
      and the next call is answered as the slots say: a redemption succeeds exactly when some
      user's slot holds that hash unexpired. */
  lemma RequestsFollowSlots(cfg: Config, purpose: Purpose, run: seq<Request>, req: Request)
    requires FaultFree(run) && req.fault == NoFault
    ensures
      var sys := Replay(cfg, run);
      var p := Tracked(cfg, purpose, run);
      && Represents(sys.db.OneTime(purpose), p)
      && AnswersAs(cfg, p, OpOf(cfg, purpose, sys.db, req), req.now, Answer(cfg, sys, req).1)
  {
    var sys := Replay(cfg, run);
    TableRefinesSlots(cfg, purpose, run);
    RunsKeepConstraints(cfg, run);
    CallRefines(cfg, purpose, sys.db, Signed(sys.mints), Tracked(cfg, purpose, run), req);
  }

  // ---- Whatever fails ----

  ghost predicate NoneUnused(rows: OneTimeTokens, u: Uuid) {
    forall id :: IsUnused(rows, id) ==> rows[id].user != u
  }

  ghost predicate OneUnusedEach(rows: OneTimeTokens) {
    forall a, b :: IsUnused(rows, a) && IsUnused(rows, b) && rows[a].user == rows[b].user ==> a == b
  }

  predicate Stores(purpose: Purpose, s: Stmt) {
    s.InsertOneTime? && s.purpose == purpose
  }

  predicate StoresAfterInvalidation(purpose: Purpose, writes: seq<Stmt>) {
    forall i :: 1 <= i < |writes| && Stores(purpose, writes[i]) ==> writes[i - 1] == Invalidate(purpose, writes[i].user)
  }

  /** A token is stored right after the unused ones of its user were invalidated. */
  predicate InvalidatesFirst(purpose: Purpose, writes: seq<Stmt>) {
    && (writes != [] ==> !Stores(purpose, writes[0]))
    && StoresAfterInvalidation(purpose, writes)
  }

  lemma WriteKeepsOneEach(purpose: Purpose, db: Db, now: Time, s: Stmt)
    requires OneUnusedEach(db.OneTime(purpose)) && Apply(db, now, s).Some?
    requires Stores(purpose, s) ==> NoneUnused(db.OneTime(purpose), s.user)
    ensures
      var after := Apply(db, now, s).value.OneTime(purpose);
      OneUnusedEach(after) && (s.Invalidate? && s.purpose == purpose ==> NoneUnused(after, s.user))
  {
    var rows, after := db.OneTime(purpose), Apply(db, now, s).value.OneTime(purpose);
    forall a, b | IsUnused(after, a) && IsUnused(after, b) && after[a].user == after[b].user
      ensures a == b
    {
      if Stores(purpose, s) {
        assert a != s.id ==> IsUnused(rows, a);
        assert b != s.id ==> IsUnused(rows, b);
      } else {
        assert IsUnused(rows, a) && IsUnused(rows, b);
      }
    }
  }

  /** A call that any fault cuts short leaves every user with at most one unused token. */
  lemma {:induction false} WritesKeepOneEach(
    purpose: Purpose, db: Db, now: Time, writes: seq<Stmt>, fault: Fault, index: nat)
    requires OneUnusedEach(db.OneTime(purpose)) && StoresAfterInvalidation(purpose, writes)
    requires writes != [] && Stores(purpose, writes[0]) ==> NoneUnused(db.OneTime(purpose), writes[0].user)
    ensures OneUnusedEach(RunWrites(db, now, writes, fault, index).0.OneTime(purpose))
    decreases |writes|
  {
    if writes != [] && Apply(db, now, writes[0]).Some? {
      WriteKeepsOneEach(purpose, db, now, writes[0]);
      assert forall i :: 1 <= i < |writes[1..]| ==> writes[1..][i] == writes[i + 1] && writes[1..][i - 1] == writes[i];
      WritesKeepOneEach(purpose, Apply(db, now, writes[0]).value, now, writes[1..], fault, index + 1);
    }
  }

  lemma EarlyPlansInvalidateFirst(cfg: Config, purpose: Purpose, signed: set<string>, req: Request)
    ensures
      var p := BeforeReading(cfg, signed, req.call, req.now, req.draw);
      p.Some? ==> InvalidatesFirst(purpose, p.value.writes)
  {
  }

  lemma DecidedPlansInvalidateFirst(cfg: Config, purpose: Purpose, db: Db, req: Request)
    ensures
      var progress := AfterReading(cfg, db, req.call, req.now, req.draw);
      progress.Decided? ==> InvalidatesFirst(purpose, progress.plan.writes)
  {
  }

  lemma PlansInvalidateFirst(cfg: Config, purpose: Purpose, db: Db, signed: set<string>, req: Request)
    ensures InvalidatesFirst(purpose, PlanOf(cfg, db, signed, req).writes)
  {
    EarlyPlansInvalidateFirst(cfg, purpose, signed, req);
    DecidedPlansInvalidateFirst(cfg, purpose, db, req);
  }

  lemma {:induction false} RunsKeepOneEach(cfg: Config, purpose: Purpose, run: seq<Request>)
    ensures OneUnusedEach(Replay(cfg, run).db.OneTime(purpose))
  {
    if run != [] {
      var sys, last := Replay(cfg, run[..|run| - 1]), run[|run| - 1];
      var plan := PlanOf(cfg, sys.db, Signed(sys.mints), last);
      RunsKeepOneEach(cfg, purpose, run[..|run| - 1]);
      PlansInvalidateFirst(cfg, purpose, sys.db, Signed(sys.mints), last);
      WritesKeepOneEach(purpose, sys.db, last.now, plan.writes, last.fault, plan.selects);
    }
  }

  /** With calls one at a time, whatever fails and wherever, a user never has two unused tokens
      of one purpose. */
  lemma AtMostOneUnused(cfg: Config, purpose: Purpose, run: seq<Request>, a: Uuid, b: Uuid)
    requires
      var rows := Replay(cfg, run).db.OneTime(purpose);
      IsUnused(rows, a) && IsUnused(rows, b) && rows[a].user == rows[b].user
    ensures a == b
  {
    RunsKeepOneEach(cfg, purpose, run);
  }

  lemma DeadRowIsNotFound(rows: OneTimeTokens, id: Uuid, now: Time)
    requires UniqueOneTimeHashes(rows) && id in rows
    requires rows[id].usedAt.Some? || rows[id].expiresAt <= now
    ensures FindUsable(rows, rows[id].hash, now).None?
  {
  }

  lemma UnknownTokenIsRefused(cfg: Config, purpose: Purpose, db: Db, signed: set<string>, req: Request)
    requires if purpose.PasswordReset? then req.call.ResetPassword? else req.call.VerifyEmail?
    requires FindUsable(db.OneTime(purpose), cfg.lib.hash(req.call.token), req.now).None?
    ensures Outcome(cfg, db, signed, req).0 == db && Outcome(cfg, db, signed, req).1.Err?
  {
  }

  /** Once a stored hash is used or expired, no later request presenting a token with that hash
      succeeds, whatever happened and failed in between. */
  lemma DeadTokensStayDead(cfg: Config, purpose: Purpose, run: seq<Request>, i: nat, id: Uuid, t: Time, req: Request)
    requires i <= |run|
    requires
      var rows := Replay(cfg, run[..i]).db.OneTime(purpose);
      id in rows && (rows[id].usedAt.Some? || rows[id].expiresAt <= t)
    requires t <= req.now
    requires if purpose.PasswordReset? then req.call.ResetPassword? else req.call.VerifyEmail?
    requires cfg.lib.hash(req.call.token) == Replay(cfg, run[..i]).db.OneTime(purpose)[id].hash
    ensures
      var sys := Replay(cfg, run);
      Answer(cfg, sys, req).0 == sys.db && Answer(cfg, sys, req).1.Err?
  {
    RunsGrow(cfg, run, i);
    RunsKeepConstraints(cfg, run);
    var sys := Replay(cfg, run);
    DeadRowIsNotFound(sys.db.OneTime(purpose), id, req.now);
    UnknownTokenIsRefused(cfg, purpose, sys.db, Signed(sys.mints), req);
  }
}
