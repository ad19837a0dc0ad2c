# Verification of the authentication service

This project models the authentication service of `rustpress-auth` as a state machine over
four tables (`users`, `refresh_tokens`, `password_reset_tokens`, `email_verification_tokens`)
and proves properties of it. `dafny verify dfyconfig.toml` checks the whole project
(Dafny 4.11).

## How the service is modelled

- `Schema.dfy`: the entities, and every SQL write of the service as a value of type `Stmt`.
  `Apply` is what the database does with a statement; PRIMARY KEY, UNIQUE, REFERENCES,
  VARCHAR(255), the INTEGER range of the failure counter and the row that a RETURNING clause
  needs decide whether it is accepted. A refused statement changes nothing.
- `Calls.dfy`: after its SELECTs, each operation is a straight line of writes with a fixed
  reply, a `Plan`. `Outcome` is what a call does when no other call overlaps it. Any one
  statement of a call may fail, and a failed write may still have been applied, because the
  connection can be lost after the commit.
- `Policy.dfy` and `Operations.dfy`: the password policy written out, and for each operation
  all its cases told in columns, clock and configuration, without plans or statements;
  `Outcome` is proved to agree.
- `Service.dfy`: the service object, a class whose fields are the four tables. Its methods
  follow `src/service.rs` statement by statement and are proved to do what `Outcome` says.
- `Runs.dfy` and the modules on top of it (`Families`, `Sessions`, `Credentials`, `OneTime`,
  `Lockouts`, `Continuity`, `Lifetimes`): properties of all sequences of calls, one at a time.
- `Interleaving.dfy` and the modules on top of it (`Counters`, `Throughput`, `Revocation`,
  `SingleUse`, `PendingTokens`, `Uninterrupted`): no transaction spans a call, so calls of many
  clients interleave statement by statement. Both layers use the same plans. `Uninterrupted`
  proves that the moves of a request, when nothing comes between them, do what `Outcome` says,
  and that whatever an uninterrupted call does is the `Outcome` of some draw and fault;
  `Sequential` lifts this to whole runs.
- `TokenText.dfy` and `RateLimit.dfy`: the printer and parser of refresh tokens, and the
  integer arithmetic of the rate limiter.

Modelling choices:

- One clock, in microseconds; claims hold whole seconds. A call that runs alone reads the
  clock once. A user is locked iff `locked_until > now`, a refresh row is expired iff
  `expires_at < now`, a one-time token is usable iff `expires_at > now`, as in the code.
- The token hash, the JWT encoder and decoder and Unicode letter case are functions of a
  `Library` value about which nothing is assumed except, where a lemma says `Faithful`, that
  decoding an encoded JWT returns its claims. In particular the hash is not assumed to be
  injective; the UNIQUE constraints do that work. The issuer check is part of the decoder.
- A JWT passes signature checking iff the service handed it out. `logout` turns signature
  checking off, so there any decodable, unexpired claims are accepted. The expiry check has
  the 60 seconds of leeway that the JWT library grants by default.
- A stored password hash keeps the password and a salt, and verifies that password only.
- Random ids, bytes and salts are parameters, one draw for each call. A drawn id or hash may
  collide; then the INSERT is refused.
- `AssignStatus` stands for whoever else edits the status column. No operation of the service
  ever makes a user inactive, so without it the checks for `active` would never fail.

Where the code and its comments disagree, the model follows the code:

- tests/lockout.rs:121 speaks of a fresh count after a lock expires. The code keeps the old
  count. `Lockouts.ExpiredLocksRelockAtOnce` proves that in every reachable state the first
  counted failure after an expired lock locks the account again at once,
  `Lockouts.OneFailureRelocks` gives a run with a limit of two in which it happens, and
  `Lockouts.FailureLocks` says exactly when a failure locks.
- src/service.rs:705 calls the token printer URL-safe base64. It prints lower-case
  hexadecimal (base16, section 8 of RFC 4648).
- src/rate_limit.rs:20 gives the interval as 60000 / rate. The code never goes below one
  millisecond, and integer division makes the sustained rate larger than configured for some
  rates; `RateLimit.SustainedRate` says exactly for which, and `RateLimit.SustainedRateCanExceed`
  gives one: 249 requests a minute are configured, 250 are sustained.

## Model

| member | source | states |
|---|---|---|
| TokenText.Base64UrlEncode | src/service.rs:706-713 | the printing loop prints each byte as two lower-case hexadecimal digits, in order |
| TokenText.DecodeEncode | src/service.rs:706-713 | a decoder recovers every byte sequence from its printed form |
| TokenText.EncodeDecode | src/service.rs:706-713 | conversely, whatever the decoder accepts is the printed form of what it returns |
| TokenText.EncodeInjective | src/service.rs:151-152 | different random bytes never print alike |
| TokenText.HexHasNoDot | src/service.rs:706-713 | a printed token contains no dot |
| TokenText.SplitJoin | src/service.rs:353-358 | splitting `jwt.token` at the last dot returns both parts, for any JWT text and any dot-free token |
| TokenText.JoinSplit | src/service.rs:353-358 | a string splits exactly when it has a dot, and rejoining the parts restores it |
| TokenText.TokenSplits | src/service.rs:151-185 | every refresh token that the service prints is parsed back into its JWT and its random part |
| Schema.StatementKeepsConstraints | src/lib.rs:176-264 | every accepted statement keeps emails and the three token hashes unique and every token owned by an existing user |
| Schema.StatementGrows | src/service.rs:333-702 | no statement deletes or renames a row, changes a token's owner, hash or expiry, or clears revoked_at or used_at |
| Calls.Validate | src/config.rs:127-153 | a configuration is accepted exactly when the secret has 32 bytes, 0 < access lifetime < refresh lifetime, and passwords need at least 8 bytes |
| Calls.CallKeeps | src/service.rs:220-627 | whatever statement of a call fails, the constraints hold afterwards and the tables only grew |
| Calls.BothApplied | src/service.rs:402-412 | two writes that report success were both applied, in order, under any fault |
| Policy.ByteLengthIsUtf8Length | src/service.rs:98-100 | the length that the policy compares is the number of UTF-8 bytes: the characters, and one more for each that needs a second, a third or a fourth byte |
| Policy.CheckIsPolicy | src/service.rs:97-112 | the check accepts exactly the passwords that are long enough in bytes and have an upper-case letter, a lower-case letter and an ASCII digit |
| Policy.WeakPasswordsAreRefused | src/service.rs:97-112 | a password that lacks any one of the four is answered WeakPassword by register and reset, whatever fails, and no table changes |
| Operations.Registering | src/service.rs:220-253 | policy, taken email, refused insert and success, in this order; the new user is active, unverified, unlocked and has exactly this password |
| Operations.LoginOfNobody | src/service.rs:267-272 | an unknown email gets InvalidCredentials and nothing changes |
| Operations.LoginRefused | src/service.rs:274-294 | lock, then status, then (with the right password) missing verification refuse a login and change nothing |
| Operations.WrongPassword | src/service.rs:285-289 | a wrong password adds one to that user's count, locks at the limit for the configured duration, otherwise keeps the old lock, and gets InvalidCredentials |
| Operations.LoginAccepted | src/service.rs:296-312 | a right login clears count and lock, stores one row with the configured expiry and hands out tokens with the configured lifetimes; a colliding draw is refused after the clearing |
| Operations.LoggingOut | src/service.rs:316-339 | logout succeeds exactly when the JWT part decodes to claims that have not run out, signed or not; it revokes the row they name and changes nothing else |
| Operations.RefreshRefused | src/service.rs:353-390 | a JWT that is not genuine or ran out, an unknown row or a wrong hash gets InvalidToken; a revoked row ends every session of the user; an expired row changes nothing |
| Operations.RefreshAccepted | src/service.rs:392-420 | with a live token: unknown user, inactive or locked user, and rotation, which revokes the row, stores one new row and hands out its tokens |
| Operations.ForgettingNobody | src/service.rs:446-450 | an unknown email gets the empty success |
| Operations.Forgetting | src/service.rs:452-475 | the user's unused reset tokens are closed, and the text handed out is the one whose hash is stored, with the configured lifetime |
| Operations.ResetRefused | src/service.rs:481-496 | a weak password, then a token that is unknown, used or expired, is refused and changes nothing |
| Operations.Resetting | src/service.rs:498-519 | the token's owner gets the new password and loses every session, the token is used, nothing else changes |
| Operations.Changing | src/service.rs:523-559 | user, current password and policy are tested in this order and refusals change nothing; success sets the new password and ends every session of the user |
| Operations.CreatingVerification | src/service.rs:566-593 | as for reset tokens, with the verification lifetime; an unknown user is refused by the insert |
| Operations.Verifying | src/service.rs:596-627 | the owner of the token, and nobody else, is verified now and active, and the token is used |
| Service.AuthService.Register | src/service.rs:220-253 | registering leaves the tables and gives the reply of `Outcome`, and keeps the constraints |
| Service.AuthService.Login | src/service.rs:260-313 | the same for login |
| Service.AuthService.Logout | src/service.rs:316-339 | the same for logout |
| Service.AuthService.RefreshTokens | src/service.rs:346-420 | the same for refreshing, with reuse detection and rotation |
| Service.AuthService.ForgotPassword | src/service.rs:439-476 | the same for issuing a reset token |
| Service.AuthService.ResetPassword | src/service.rs:479-520 | the same for redeeming a reset token |
| Service.AuthService.ChangePassword | src/service.rs:523-559 | the same for changing a password |
| Service.AuthService.CreateEmailVerification | src/service.rs:566-593 | the same for issuing a verification token |
| Service.AuthService.VerifyEmail | src/service.rs:596-627 | the same for redeeming a verification token |
| Runs.TokensMeanExchange | src/service.rs:346-420 | a reply with tokens means that the user could log in, that a fresh row now holds the hash of the secret handed out, and, for a refresh, that the presented row was live before and is revoked now |
| Runs.RunsGrow | src/service.rs:402-432 | between any two points of any run, with any failures, the tables only grow |
| Families.RunsAreSound | src/service.rs:140-186 | in every reachable state, whatever failed, each refresh JWT that was handed out names a row of its own, whose user is its `sub` and whose hash is that of the random part handed out with it |
| Families.RotationFamilies | src/service.rs:346-420 | in every reachable state, whatever failed: no token was exchanged twice, an exchanged token is revoked, the tokens of one login form one chain ordered by descent, and all but the last of them are revoked |
| Families.LoginsStartChains | src/service.rs:296-304 | a successful login starts a new chain and a successful refresh extends one |
| Families.ReplayEndsAllSessions | src/service.rs:364-389 | presenting in full any token that was ever exchanged, while its JWT is accepted, leaves its user with no unrevoked row and changes nothing else |
| Families.RefusalsChangeNothing | src/service.rs:379-400 | a refresh refused because the row is only expired, or the user is locked, inactive or gone, changes no table |
| Families.MixedTokensAreRefused | src/service.rs:358-377 | in every reachable state the JWT of one handed-out token with the random part of another is refused and changes no table |
| Sessions.CallCounts | src/service.rs:316-432 | one call moves a user's number of live rows by what it means: login +1, logout that hits -1, refresh 0, replay, reset and change to zero |
| Sessions.LogoutEndsSession | src/service.rs:316-339 | in every reachable state, whatever failed, logging out with the JWT of any handed-out token and any random part succeeds until the JWT runs out, revokes that token's row and changes no other |
| Sessions.SessionsAreConserved | src/service.rs:402-432 | in every run without database failures a user's unrevoked rows number the logins since the last mass revocation less the logouts since then that hit an unrevoked row |
| Credentials.PolicyIsInvariant | src/service.rs:97-112 | in every reachable state, whatever failed, every stored hash is of a password with enough UTF-8 bytes, an upper-case letter, a lower-case letter and a digit |
| Credentials.CallAgrees | src/service.rs:479-559 | every call keeps an observer, who sees only calls and replies, in agreement with the stored passwords and verification marks |
| Credentials.LoginMatchesObserver | src/service.rs:266-312 | after any run without database failures a login succeeds exactly when the observer's current password for that email is given, the user is unlocked and active and, if required, the observer saw the email verified; the drawn token id and hash must be new, or the INSERT is refused |
| Credentials.ChangeMatchesObserver | src/service.rs:529-544 | after any run without database failures a password change succeeds exactly when the observer's current password for that user is given and the new one meets the policy; a wrong one changes nothing |
| OneTime.CallRefines | src/service.rs:459-514 | every call moves the one-slot-per-user form as its operation says, and is answered as the slots say |
| OneTime.RequestsFollowSlots | src/service.rs:574-624 | after any run the table shows exactly the slots, and a redemption succeeds exactly when some slot holds that hash unexpired; issuing overwrites the slot, and the text handed out hashes to it |
| OneTime.AtMostOneUnused | src/service.rs:459-473 | with calls one at a time, whatever fails and wherever, a user never has two unused tokens of one purpose |
| OneTime.DeadTokensStayDead | src/service.rs:486-496 | once a hash is used or expired, no later request with it succeeds or changes a table, whatever failed in between |
| Lockouts.LocksAreNeverShortened | src/service.rs:274-277 | while a lock lasts, no sequence of calls changes that user's failure count or lock |
| Lockouts.LockedUsersGetNoTokens | src/models.rs:91-107 | while a lock lasts, no login or refresh of that user succeeds |
| Lockouts.FailureLocks | src/service.rs:652-677 | a counted failure locks the account exactly when it brings the count to the configured limit |
| Lockouts.ExpiredLocksRelockAtOnce | src/service.rs:653-662 | in every reachable state the first counted failure after an expired lock locks again for the full duration |
| Lockouts.OneFailureRelocks | src/service.rs:653-670 | with a limit of two, a run in which two failures lock the account, the lock runs out, and a third failure locks it again |
| Continuity.IssueIsReady | src/service.rs:119-171 | under a valid configuration every refresh row outlives the access token issued with it |
| Continuity.SessionsContinue | src/service.rs:346-420 | after a successful login a client that refreshes before each access token expires succeeds in every round, as long as nobody revokes the newest row, the user stays active and unlocked, and each drawn token id and hash is new |
| Lifetimes.TokensLastAsConfigured | src/service.rs:119-185 | whoever gets tokens, whatever fails: the row expires one refresh lifetime from now, the refresh JWT says so in whole seconds, the access token runs out one access lifetime from now |
| Lifetimes.TokensExpire | src/service.rs:364-389 | over any run, a refresh token presented more than its lifetime after it was handed out never gets tokens |
| Lifetimes.TokensLast | src/service.rs:364-420 | up to that moment it does, however long ago the access token ran out, if its row is unrevoked, its user active and unlocked, the draw new and no statement fails |
| Interleaving.InterleavingsStayHealthy | src/service.rs:541-553 | in every interleaving constraints and password policy hold, and from any point on the tables only grow |
| Counters.NoFailureIsLost | src/service.rs:653-699 | in every interleaving the counter is the number of increments since the last reset, and the lock is set exactly when that number has reached max(1, limit), until one lockout duration after the last increment |
| Counters.LocksAreBounded | src/service.rs:657-661 | a lock never reaches further than one lockout duration from now |
| Throughput.HitKeepsSane | src/service.rs:274-289 | a counted failure keeps the spacing invariant: a login that knew of a lock counts only after it, and those that did not are fewer than k |
| Throughput.SaneBooksAreShort | src/service.rs:652-677 | spaced failures are few: at most limit + (k - 1) + k * floor(t / lockout) |
| Throughput.LockoutThroughput | src/service.rs:266-289 | in every interleaving with at most k logins of a user under way, a stretch of length t without a successful login counts at most max(1, limit) + (k - 1) + k * floor(t / lockout) wrong passwords |
| Revocation.MassRevocationIsPermanent | src/service.rs:423-432 | in every interleaving, after revoke_all_tokens runs, the user's earlier rows stay revoked and no refresh that looks one up later succeeds |
| SingleUse.LookupFindsLive | src/service.rs:358-389 | a refresh, reset or verification gets past its look-up only while its token is neither revoked nor used, and what it will mark is that token |
| SingleUse.TokensAreUsedAtMost | src/service.rs:364-412 | in every interleaving, whatever fails: if never more than k calls are between finding a refresh, reset or verification token and marking it used, at most k calls ever succeed with that token; without overlap, at most one |
| PendingTokens.UnusedTokensAreBounded | src/service.rs:459-473 | in every interleaving, unused tokens plus calls about to store one never exceed the number of calls that may be between invalidating and storing at once |
| Uninterrupted.CallAloneIsOutcome | src/service.rs:220-627 | from any world, the moves of a request itself (it starts, then runs only its own statements, with its draw and its fault) leave the tables and the reply of the call layer and touch no other call |
| Uninterrupted.LoneCallIsSomeOutcome | src/service.rs:220-627 | conversely, however the statements of an uninterrupted call fare, once finished it has done what the call layer does for some draw and fault |
| Sequential.RunsAreInterleavings | src/service.rs:220-627 | every run of calls one at a time, whatever fails in it, is an interleaving with the same tables, the same handed-out JWTs and the same replies |
| RateLimit.FromEnv | src/rate_limit.rs:50-61 | rate and burst are the parsed settings where positive, and otherwise 10 and 5 |
| RateLimit.IntervalIsQuotient | src/rate_limit.rs:82-88 | the interval is a minute divided by the rate, rounded down, a minute for rate zero and never below a millisecond |
| RateLimit.IntervalNeverGrows | src/rate_limit.rs:82-88 | a higher rate never waits longer |
| RateLimit.SustainedRate | src/rate_limit.rs:82-88 | up to 60000 a minute the sustained rate is at least the configured rate p and at most 2p - 1, and equals p exactly when 60000 mod p < floor(60000 / p) |
| RateLimit.SustainedRateCanExceed | src/rate_limit.rs:82-88 | a rate of 249 a minute gives an interval that sustains 250 |
| RateLimit.SmallRatesAreExact | src/rate_limit.rs:82-88 | rates up to 244 are sustained exactly; above 60000 the rate is 60000 |
| RateLimit.WindowIsLimited | src/rate_limit.rs:15-21 | the documented bucket admits at most burst + floor(t / interval) requests of one key in any window of t milliseconds |
| RateLimit.BurstIsAdmitted | src/rate_limit.rs:15-21 | of n requests at one moment, a bucket with credit for c admits c, or all if there are fewer |
| RateLimit.PacedRequestsAreAdmitted | src/rate_limit.rs:15-21 | requests that leave one interval before each are never refused |

## Left out

- Argon2, JWT encoding and signing, the token hasher and the random generator are library code; the idealised forms above stand for them.
- Postgres beyond single-statement atomicity, keys and constraints; connection pools; timestamps and intervals that overflow.
- The inner algorithm of the rate-limiting library; `RateLimit` covers the interval arithmetic and the documented bucket.
- HTTP handlers, middleware, extractors, status mapping, role predicates, request and response objects: each is settled by reading one branch.
- Reading the environment (except the positivity of rate and burst), logging, plugin activation.
- Profile columns, `last_login_at`, `last_login_ip`, `password_changed_at`, `updated_at`, `replaced_by` (never written) and user agents: nothing reads them.
- Access-token validation, and claims other than subject, token id and times: no table depends on them.
- Families.RotationFamilies: holds for calls one at a time. A refresh looks its row up in one statement and revokes it in a later one, so refreshes that overlap can each be given a child of the same token; `SingleUse.TokensAreUsedAtMost` bounds how many, for refresh tokens and one-time tokens alike.
- Lockouts.LocksAreNeverShortened: holds for calls one at a time; what a lock does for calls that overlap is `Throughput.LockoutThroughput`.
- Interleaving.InterleavingsStayHealthy: a decision and the statement or clock reading just before it are one step, except that login checks the lock in a step of its own after reading the row; a login's refresh expiry is taken at that check, one statement earlier than in the code, and no interleaved property reads it.
